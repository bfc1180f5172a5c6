/** The sale dialog: an editor over an ordered list of sale lines, a review
    screen, and the commit that issues one stock adjustment per line. */
module SaleProduct {
  import opened Common

  /** One line of the sale form. A quantity slot is an `<input type="number">`. */
  datatype LineItem = LineItem(productId: string, color: string, category: string, quantities: seq<NumberInput>)

  /** The line the form starts with and the one "Add product" appends. */
  const BlankLine: LineItem := LineItem("", "", "", [Blank])

  /** The body of one `PUT /inventory/sale` request. */
  datatype SaleRequest = SaleRequest(productId: string, color: string, category: string, saleYards: real, salePieces: nat)

  /** What the review screen shows for one line. */
  datatype ReviewEntry = ReviewEntry(productName: string, color: string, category: string, shown: seq<real>, total: real, pieces: nat)

  /** What a slot adds to the line's yards: nothing when it is empty. */
  function SlotValue(x: NumberInput): real
  {
    match x
    case Blank => 0.0
    case Entered(v) => v
  }

  /** Whether a slot counts as a piece. */
  function Filled(x: NumberInput): nat
  {
    if x.Entered? then 1 else 0
  }

  /** `quantities.filter(q => q !== "").map(Number)`: the entered values, in slot order. */
  function SaleQuantities(qs: seq<NumberInput>): (r: seq<real>)
    ensures |r| <= |qs|
  {
    if qs == [] then []
    else
      var rest := SaleQuantities(qs[..|qs| - 1]);
      match qs[|qs| - 1]
      case Blank => rest
      case Entered(v) => rest + [v]
  }

  /** Reference total of a line: every slot's value, empty ones counting 0. */
  function SlotTotal(qs: seq<NumberInput>): real
  {
    if qs == [] then 0.0 else SlotTotal(qs[..|qs| - 1]) + SlotValue(qs[|qs| - 1])
  }

  lemma {:induction false} SaleQuantitiesConcat(a: seq<NumberInput>, b: seq<NumberInput>)
    ensures SaleQuantities(a + b) == SaleQuantities(a) + SaleQuantities(b)
  {
    if b == [] {
      assert a + b == a;
    } else {
      var c := b[..|b| - 1];
      assert (a + b)[..|a + b| - 1] == a + c;
      assert (a + b)[|a + b| - 1] == b[|b| - 1];
      SaleQuantitiesConcat(a, c);
    }
  }

  /** `salePieces` is the number of non-empty slots. */
  lemma {:induction false} PiecesAreFilledSlots(qs: seq<NumberInput>)
    ensures |SaleQuantities(qs)| == |qs| - multiset(qs)[Blank]
  {
    if qs != [] {
      var p := qs[..|qs| - 1];
      assert qs == p + [qs[|qs| - 1]];
      assert multiset(qs) == multiset(p) + multiset{qs[|qs| - 1]};
      PiecesAreFilledSlots(p);
    }
  }

  /** `saleYards` is the total over all slots with empty slots counting 0. */
  lemma {:induction false} YardsAreSlotTotal(qs: seq<NumberInput>)
    ensures Sum(SaleQuantities(qs)) == SlotTotal(qs)
  {
    if qs != [] {
      var p := qs[..|qs| - 1];
      YardsAreSlotTotal(p);
      match qs[|qs| - 1]
      case Blank =>
      case Entered(v) =>
        assert (SaleQuantities(p) + [v])[..|SaleQuantities(p) + [v]| - 1] == SaleQuantities(p);
    }
  }

  /** The request issued for one line on commit. */
  function SaleRequestFor(line: LineItem): (r: SaleRequest)
    ensures r.productId == line.productId && r.color == line.color && r.category == line.category
    ensures r.saleYards == SlotTotal(line.quantities)
    ensures r.salePieces == |line.quantities| - multiset(line.quantities)[Blank]
  {
    YardsAreSlotTotal(line.quantities);
    PiecesAreFilledSlots(line.quantities);
    var sale := SaleQuantities(line.quantities);
    SaleRequest(line.productId, line.color, line.category, Sum(sale), |sale|)
  }

  /** Setting slot `q` to `v` changes the line's totals by that slot alone. */
  lemma SetSlotEffect(qs: seq<NumberInput>, q: nat, v: NumberInput)
    requires q < |qs|
    ensures Sum(SaleQuantities(qs[q := v])) == Sum(SaleQuantities(qs)) - SlotValue(qs[q]) + SlotValue(v)
    ensures |SaleQuantities(qs[q := v])| == |SaleQuantities(qs)| - Filled(qs[q]) + Filled(v)
  {
    var pre, post := qs[..q], qs[q + 1..];
    assert qs == pre + [qs[q]] + post;
    assert qs[q := v] == pre + [v] + post;
    SaleQuantitiesConcat(pre + [qs[q]], post);
    SaleQuantitiesConcat(pre + [v], post);
    SaleQuantitiesConcat(pre, [qs[q]]);
    SaleQuantitiesConcat(pre, [v]);
    SumConcat(SaleQuantities(pre) + SaleQuantities([qs[q]]), SaleQuantities(post));
    SumConcat(SaleQuantities(pre) + SaleQuantities([v]), SaleQuantities(post));
    SumConcat(SaleQuantities(pre), SaleQuantities([qs[q]]));
    SumConcat(SaleQuantities(pre), SaleQuantities([v]));
    assert [qs[q]][..0] == [] && [v][..0] == [];
  }

  /** Removing slot `q` takes exactly that slot out of the line's totals. */
  lemma RemoveSlotEffect(qs: seq<NumberInput>, q: nat)
    requires q < |qs|
    ensures Sum(SaleQuantities(qs[..q] + qs[q + 1..])) == Sum(SaleQuantities(qs)) - SlotValue(qs[q])
    ensures |SaleQuantities(qs[..q] + qs[q + 1..])| == |SaleQuantities(qs)| - Filled(qs[q])
  {
    var pre, post := qs[..q], qs[q + 1..];
    assert qs == pre + [qs[q]] + post;
    SaleQuantitiesConcat(pre + [qs[q]], post);
    SaleQuantitiesConcat(pre, [qs[q]]);
    SaleQuantitiesConcat(pre, post);
    SumConcat(SaleQuantities(pre) + SaleQuantities([qs[q]]), SaleQuantities(post));
    SumConcat(SaleQuantities(pre), SaleQuantities([qs[q]]));
    SumConcat(SaleQuantities(pre), SaleQuantities(post));
    assert [qs[q]][..0] == [];
  }

  /** An added slot is empty, so it changes neither total. */
  lemma AddSlotKeepsTotals(line: LineItem)
    ensures SaleRequestFor(line.(quantities := line.quantities + [Blank])).saleYards == SaleRequestFor(line).saleYards
    ensures SaleRequestFor(line.(quantities := line.quantities + [Blank])).salePieces == SaleRequestFor(line).salePieces
  {
    assert (line.quantities + [Blank])[..|line.quantities|] == line.quantities;
  }

  /** The requests of a commit in line order, if none fails. */
  function SaleRequests(lines: seq<LineItem>): seq<SaleRequest>
  {
    seq(|lines|, i requires 0 <= i < |lines| => SaleRequestFor(lines[i]))
  }

  /** Committing two blocks of lines one after the other issues the same
      requests as committing them together. */
  lemma SaleRequestsConcat(a: seq<LineItem>, b: seq<LineItem>)
    ensures SaleRequests(a + b) == SaleRequests(a) + SaleRequests(b)
  {
    var r := SaleRequests(a + b);
    assert forall i :: 0 <= i < |a| ==> r[i] == SaleRequests(a)[i] by {
      assert forall i :: 0 <= i < |a| ==> (a + b)[i] == a[i];
    }
    assert forall i :: |a| <= i < |a| + |b| ==> r[i] == SaleRequests(b)[i - |a|] by {
      assert forall i :: |a| <= i < |a| + |b| ==> (a + b)[i] == b[i - |a|];
    }
  }

  /** The commit loop: one request per line, in order, each awaited; the
      first rejected request ends the loop. `accepted[i]` is the backend's
      answer to the request for line `i`. Returns the requests sent and
      whether every one was accepted. */
  method DispatchSales(lines: seq<LineItem>, accepted: seq<bool>) returns (sent: seq<SaleRequest>, ok: bool)
    requires |accepted| == |lines|
    ensures |sent| <= |lines| && sent == SaleRequests(lines)[..|sent|]
    ensures forall i :: 0 <= i < |sent| - 1 ==> accepted[i]
    ensures ok <==> forall i :: 0 <= i < |lines| ==> accepted[i]
    ensures ok ==> |sent| == |lines|
    ensures !ok ==> |sent| > 0 && !accepted[|sent| - 1]
  {
    sent := [];
    var i := 0;
    while i < |lines|
      invariant 0 <= i <= |lines|
      invariant sent == SaleRequests(lines)[..i]
      invariant forall j :: 0 <= j < i ==> accepted[j]
    {
      sent := sent + [SaleRequestFor(lines[i])];
      if !accepted[i] {
        ok := false;
        return;
      }
      i := i + 1;
    }
    ok := true;
  }

  /** `masterData.find(p => String(p.id) === String(id))`. */
  function FindProductById(masterData: seq<Summary>, id: string): (r: Option<Summary>)
    ensures r.None? <==> forall i :: 0 <= i < |masterData| ==> masterData[i].id != id
    ensures r.Some? ==> exists i :: 0 <= i < |masterData| && masterData[i] == r.value && r.value.id == id
                                    && forall j :: 0 <= j < i ==> masterData[j].id != id
  {
    if masterData == [] then None
    else if masterData[0].id == id then Some(masterData[0])
    else
      var r := FindProductById(masterData[1..], id);
      assert forall i :: 1 <= i < |masterData| ==> masterData[i] == masterData[1..][i - 1];
      r
  }

  /** One card of the review screen. */
  function Review(line: LineItem, masterData: seq<Summary>): (r: ReviewEntry)
    ensures r.shown == SaleQuantities(line.quantities) && r.color == line.color && r.category == line.category
    ensures r.total == SaleRequestFor(line).saleYards
    ensures r.pieces == |r.shown| == SaleRequestFor(line).salePieces
    ensures r.productName == match FindProductById(masterData, line.productId)
                             case Some(p) => p.productName
                             case None => ""
  {
    var shown := SaleQuantities(line.quantities);
    var product := FindProductById(masterData, line.productId);
    ReviewEntry(if product.Some? then product.value.productName else "",
                line.color, line.category, shown, Sum(shown), |shown|)
  }

  /** The state of the sale dialog. */
  class SaleEditor {
    const masterData: seq<Summary>
    var products: seq<LineItem>
    var productColors: map<string, seq<string>>
    var productCategories: map<string, map<string, seq<string>>>
    var reviewMode: bool
    var success: bool

    /** The shape the form's buttons keep: at least one line, and at least
        one slot per line (removal is offered only when more than one exists). */
    ghost predicate FormShape()
      reads this
    {
      |products| >= 1 && forall i :: 0 <= i < |products| ==> |products[i].quantities| >= 1
    }

    constructor (masterData: seq<Summary>)
      ensures this.masterData == masterData
      ensures products == [BlankLine]
      ensures productColors == map[] && productCategories == map[]
      ensures !reviewMode && !success
      ensures FormShape()
    {
      this.masterData := masterData;
      products := [BlankLine];
      productColors := map[];
      productCategories := map[];
      reviewMode := false;
      success := false;
    }

    /** Choosing a product on line `idx`: its colour and category are cleared,
        the colour list fetched for the product is cached under its id (an
        empty list if the fetch fails), and its category cache is reset. */
    method HandleProductIdChange(idx: nat, value: string, colors: Fetch<seq<string>>)
      requires idx < |products|
      modifies this
      ensures products == old(products)[idx := LineItem(value, "", "", old(products)[idx].quantities)]
      ensures productColors == old(productColors)[value := if colors.Ok? then colors.data else []]
      ensures productCategories == old(productCategories)[value := map[]]
      ensures reviewMode == old(reviewMode) && success == old(success)
      ensures old(FormShape()) ==> FormShape()
    {
      var updated := products;
      updated := updated[idx := updated[idx].(productId := value)];
      updated := updated[idx := updated[idx].(color := "", category := "")];
      productColors := productColors[value := if colors.Ok? then colors.data else []];
      productCategories := productCategories[value := map[]];
      products := updated;
    }

    /** Choosing a colour on line `idx`: its category is cleared and the
        category list fetched for (product, colour) is cached (an empty list
        if the fetch fails), keeping the product's other colours. */
    method HandleColorChange(idx: nat, value: string, categories: Fetch<seq<string>>)
      requires idx < |products|
      modifies this
      ensures products == old(products)[idx := old(products)[idx].(color := value, category := "")]
      ensures var pid := old(products)[idx].productId;
              var known := if pid in old(productCategories) then old(productCategories)[pid] else map[];
              productCategories == old(productCategories)[pid := known[value := if categories.Ok? then categories.data else []]]
      ensures productColors == old(productColors)
      ensures reviewMode == old(reviewMode) && success == old(success)
      ensures old(FormShape()) ==> FormShape()
    {
      var updated := products;
      updated := updated[idx := updated[idx].(color := value)];
      updated := updated[idx := updated[idx].(category := "")];
      var pid := updated[idx].productId;
      var known := if pid in productCategories then productCategories[pid] else map[];
      productCategories := productCategories[pid := known[value := if categories.Ok? then categories.data else []]];
      products := updated;
    }

    /** Choosing a category on line `idx` sets it and nothing else. */
    method HandleCategoryChange(idx: nat, value: string)
      requires idx < |products|
      modifies this
      ensures products == old(products)[idx := old(products)[idx].(category := value)]
      ensures productColors == old(productColors) && productCategories == old(productCategories)
      ensures reviewMode == old(reviewMode) && success == old(success)
      ensures old(FormShape()) ==> FormShape()
    {
      var updated := products;
      updated := updated[idx := updated[idx].(category := value)];
      products := updated;
    }

    /** Typing into slot `qtyIdx` of line `prodIdx`. */
    method HandleQuantityChange(prodIdx: nat, qtyIdx: nat, value: NumberInput)
      requires prodIdx < |products| && qtyIdx < |products[prodIdx].quantities|
      modifies this
      ensures |products| == |old(products)|
      ensures forall i :: 0 <= i < |products| && i != prodIdx ==> products[i] == old(products)[i]
      ensures products[prodIdx] == old(products)[prodIdx].(quantities := old(products)[prodIdx].quantities[qtyIdx := value])
      ensures productColors == old(productColors) && productCategories == old(productCategories)
      ensures reviewMode == old(reviewMode) && success == old(success)
      ensures old(FormShape()) ==> FormShape()
    {
      var updated := products;
      var line := updated[prodIdx];
      updated := updated[prodIdx := line.(quantities := line.quantities[qtyIdx := value])];
      products := updated;
    }

    /** "Add more": one empty slot at the end of line `prodIdx`. */
    method HandleAddQuantity(prodIdx: nat)
      requires prodIdx < |products|
      modifies this
      ensures products == old(products)[prodIdx := old(products)[prodIdx].(quantities := old(products)[prodIdx].quantities + [Blank])]
      ensures productColors == old(productColors) && productCategories == old(productCategories)
      ensures reviewMode == old(reviewMode) && success == old(success)
      ensures old(FormShape()) ==> FormShape()
    {
      var updated := products;
      var line := updated[prodIdx];
      updated := updated[prodIdx := line.(quantities := line.quantities + [Blank])];
      products := updated;
    }

    /** `quantities.splice(qtyIdx, 1)` on line `prodIdx`. */
    method HandleRemoveQuantity(prodIdx: nat, qtyIdx: nat)
      requires prodIdx < |products| && qtyIdx < |products[prodIdx].quantities|
      modifies this
      ensures var qs := old(products)[prodIdx].quantities;
              products == old(products)[prodIdx := old(products)[prodIdx].(quantities := qs[..qtyIdx] + qs[qtyIdx + 1..])]
      ensures |products[prodIdx].quantities| == |old(products)[prodIdx].quantities| - 1
      ensures productColors == old(productColors) && productCategories == old(productCategories)
      ensures reviewMode == old(reviewMode) && success == old(success)
      ensures old(FormShape()) && old(|products[prodIdx].quantities|) > 1 ==> FormShape()
    {
      var updated := products;
      var line := updated[prodIdx];
      updated := updated[prodIdx := line.(quantities := line.quantities[..qtyIdx] + line.quantities[qtyIdx + 1..])];
      products := updated;
    }

    /** "Add product": a blank line at the end. */
    method HandleAddProduct()
      modifies this
      ensures products == old(products) + [BlankLine]
      ensures productColors == old(productColors) && productCategories == old(productCategories)
      ensures reviewMode == old(reviewMode) && success == old(success)
      ensures old(FormShape()) ==> FormShape()
    {
      products := products + [BlankLine];
    }

    /** `updated.splice(idx, 1)`. */
    method HandleRemoveProduct(idx: nat)
      requires idx < |products|
      modifies this
      ensures products == old(products)[..idx] + old(products)[idx + 1..]
      ensures productColors == old(productColors) && productCategories == old(productCategories)
      ensures reviewMode == old(reviewMode) && success == old(success)
      ensures old(FormShape()) && old(|products|) > 1 ==> FormShape()
    {
      var updated := products;
      updated := updated[..idx] + updated[idx + 1..];
      products := updated;
    }

    /** The form's submit: show the review. */
    method HandleSubmit()
      modifies this
      ensures reviewMode
      ensures products == old(products) && success == old(success)
      ensures productColors == old(productColors) && productCategories == old(productCategories)
    {
      reviewMode := true;
    }

    /** "Back" on the review: return to the form, everything kept. */
    method HandleBack()
      modifies this
      ensures !reviewMode
      ensures products == old(products) && success == old(success)
      ensures productColors == old(productColors) && productCategories == old(productCategories)
    {
      reviewMode := false;
    }

    /** The review screen's cards, one per line in line order. */
    function ReviewEntries(): (r: seq<ReviewEntry>)
      reads this
      ensures |r| == |products|
      ensures forall i :: 0 <= i < |products| ==>
                r[i].total == SaleRequestFor(products[i]).saleYards && r[i].pieces == SaleRequestFor(products[i]).salePieces
    {
      seq(|products|, i requires 0 <= i < |products| reads this => Review(products[i], masterData))
    }

    /** "Submit" on the review. `accepted[i]` is the backend's answer to
        line `i`'s request. On full success `success` is set and the
        caller's refresh runs; otherwise the failure alert is shown and
        `success` stays as it was. The lines are never changed. */
    method HandleFinalSubmit(accepted: seq<bool>) returns (sent: seq<SaleRequest>, alert: Option<string>, refreshed: bool)
      requires |accepted| == |products|
      modifies this
      ensures products == old(products) && reviewMode == old(reviewMode)
      ensures |sent| <= |products| && sent == SaleRequests(products)[..|sent|]
      ensures forall i :: 0 <= i < |sent| - 1 ==> accepted[i]
      ensures refreshed <==> forall i :: 0 <= i < |products| ==> accepted[i]
      ensures refreshed ==> |sent| == |products| && success && alert == None
      ensures !refreshed ==> |sent| > 0 && !accepted[|sent| - 1]
                             && success == old(success) && alert == Some("Sale failed. Please try again.")
      ensures productColors == old(productColors) && productCategories == old(productCategories)
    {
      var ok;
      sent, ok := DispatchSales(products, accepted);
      if ok {
        success := true;
        refreshed := true;
        alert := None;
      } else {
        refreshed := false;
        alert := Some("Sale failed. Please try again.");
      }
    }
  }

  /** Two filled slots, 10 and 15, give a request for 25 yards in 2 pieces. */
  lemma TwoPieceLine()
    ensures SaleRequestFor(LineItem("1", "Blue", "A", [Entered(10.0), Entered(15.0)])).saleYards == 25.0
    ensures SaleRequestFor(LineItem("1", "Blue", "A", [Entered(10.0), Entered(15.0)])).salePieces == 2
  {
    var qs := [Entered(10.0), Entered(15.0)];
    assert qs[..1] == [Entered(10.0)];
    assert qs[..1][..0] == [];
    assert SaleQuantities(qs[..1]) == [10.0];
    assert SaleQuantities(qs) == [10.0, 15.0];
    assert [10.0, 15.0][..1] == [10.0] && [10.0][..0] == [];
    assert Sum([10.0, 15.0]) == 25.0;
  }
}
