/** The master product summary: inventory rows collapsed into one summary
    per product name, and the "Add Item" dialog that registers a new name. */
module MasterProductList {
  import opened Common

  /** The two quantities a summary totals. */
  datatype Measure = Yards | Pieces

  /** `Number(item.yardAvailable) || 0`, or the same for pieces. */
  function RowAmount(row: InventoryItem, m: Measure): real
  {
    NumberOrZero(if m == Yards then row.yardAvailable else row.pieceAvailable)
  }

  function GroupAmount(g: Summary, m: Measure): real
  {
    if m == Yards then g.totalYards else g.totalPieces
  }

  /** The product names occurring in `rows`. */
  function Names(rows: seq<InventoryItem>): set<string>
  {
    if rows == [] then {} else Names(rows[..|rows| - 1]) + {rows[|rows| - 1].product.productName}
  }

  /** The total of measure `m` over the rows named `name`. */
  function AmountFor(rows: seq<InventoryItem>, name: string, m: Measure): real
  {
    if rows == [] then 0.0
    else
      var last := rows[|rows| - 1];
      AmountFor(rows[..|rows| - 1], name, m) + if last.product.productName == name then RowAmount(last, m) else 0.0
  }

  /** The total of measure `m` over all rows. */
  function Total(rows: seq<InventoryItem>, m: Measure): real
  {
    if rows == [] then 0.0 else Total(rows[..|rows| - 1], m) + RowAmount(rows[|rows| - 1], m)
  }

  /** `Names` holds exactly the names of the rows. */
  lemma {:induction false} NamesAreRowNames(rows: seq<InventoryItem>, n: string)
    ensures n in Names(rows) <==> exists i :: 0 <= i < |rows| && rows[i].product.productName == n
  {
    if rows != [] {
      var init := rows[..|rows| - 1];
      NamesAreRowNames(init, n);
      if n in Names(init) {
        var i :| 0 <= i < |init| && init[i].product.productName == n;
        assert rows[i] == init[i];
      }
      if exists i :: 0 <= i < |rows| && rows[i].product.productName == n {
        var i :| 0 <= i < |rows| && rows[i].product.productName == n;
        if i < |init| { assert init[i] == rows[i]; }
      }
    }
  }

  /** The product id of the first row named `name`. */
  function FirstIdFor(rows: seq<InventoryItem>, name: string): Option<string>
  {
    if rows == [] then None
    else
      var r := FirstIdFor(rows[..|rows| - 1], name);
      var last := rows[|rows| - 1];
      if r.Some? then r
      else if last.product.productName == name then Some(last.product.id)
      else None
  }

  /** `FirstIdFor` finds the id of the first row with the name, and
      nothing when no row has it. */
  lemma {:induction false} FirstIdIsFirst(rows: seq<InventoryItem>, name: string)
    ensures FirstIdFor(rows, name).None? <==> name !in Names(rows)
    ensures FirstIdFor(rows, name).Some? ==>
              exists i :: 0 <= i < |rows| && rows[i].product.productName == name
                          && rows[i].product.id == FirstIdFor(rows, name).value
                          && forall j :: 0 <= j < i ==> rows[j].product.productName != name
  {
    if rows != [] {
      var init := rows[..|rows| - 1];
      FirstIdIsFirst(init, name);
      NamesAreRowNames(init, name);
      if FirstIdFor(init, name).Some? {
        var i :| 0 <= i < |init| && init[i].product.productName == name
                 && init[i].product.id == FirstIdFor(init, name).value
                 && forall j :: 0 <= j < i ==> init[j].product.productName != name;
        assert rows[i] == init[i];
        assert forall j :: 0 <= j < i ==> rows[j] == init[j];
      } else if rows[|rows| - 1].product.productName == name {
        assert forall j :: 0 <= j < |init| ==> rows[j] == init[j];
      }
    }
  }

  /** The total of measure `m` over a list of summaries. */
  function SumGroups(groups: seq<Summary>, m: Measure): real
  {
    if groups == [] then 0.0 else SumGroups(groups[..|groups| - 1], m) + GroupAmount(groups[|groups| - 1], m)
  }

  /** What grouping promises: one summary per distinct name and only for
      names that occur; each carries its name's first product id and its
      name's totals; and the totals over all summaries equal the totals
      over all rows. Nothing is said about the order of the summaries. */
  ghost predicate IsGroupingOf(rows: seq<InventoryItem>, groups: seq<Summary>)
  {
    && (forall i, j :: 0 <= i < j < |groups| ==> groups[i].productName != groups[j].productName)
    && (forall i :: 0 <= i < |groups| ==> groups[i].productName in Names(rows))
    && (forall n :: n in Names(rows) ==> exists i :: 0 <= i < |groups| && groups[i].productName == n)
    && (forall i :: 0 <= i < |groups| ==>
          && FirstIdFor(rows, groups[i].productName) == Some(groups[i].id)
          && groups[i].totalYards == AmountFor(rows, groups[i].productName, Yards)
          && groups[i].totalPieces == AmountFor(rows, groups[i].productName, Pieces))
    && SumGroups(groups, Yards) == Total(rows, Yards)
    && SumGroups(groups, Pieces) == Total(rows, Pieces)
  }

  /** The sum of measure `m` over the dictionary entries listed in `order`. */
  function SumOver(order: seq<string>, grouped: map<string, Summary>, m: Measure): real
  {
    if order == [] then 0.0
    else
      var last := order[|order| - 1];
      SumOver(order[..|order| - 1], grouped, m) + if last in grouped then GroupAmount(grouped[last], m) else 0.0
  }

  /** `Object.values(grouped)`, taking the keys in the order listed. */
  function Collect(order: seq<string>, grouped: map<string, Summary>): (r: seq<Summary>)
    ensures (forall k :: 0 <= k < |order| ==> order[k] in grouped) ==>
              |r| == |order| && forall k :: 0 <= k < |order| ==> r[k] == grouped[order[k]]
  {
    if order == [] then []
    else
      var last := order[|order| - 1];
      var r := Collect(order[..|order| - 1], grouped);
      if last in grouped then r + [grouped[last]] else r
  }

  lemma {:induction false} CollectSum(order: seq<string>, grouped: map<string, Summary>, m: Measure)
    ensures SumGroups(Collect(order, grouped), m) == SumOver(order, grouped, m)
  {
    if order != [] {
      var last := order[|order| - 1];
      var r := Collect(order[..|order| - 1], grouped);
      CollectSum(order[..|order| - 1], grouped, m);
      if last in grouped {
        assert (r + [grouped[last]])[..|r|] == r;
      }
    }
  }

  /** Changing an entry that `order` does not list leaves the sum alone. */
  lemma {:induction false} SumOverUnaffected(order: seq<string>, grouped: map<string, Summary>, n: string, s: Summary, m: Measure)
    requires n !in order
    ensures SumOver(order, grouped[n := s], m) == SumOver(order, grouped, m)
  {
    if order != [] {
      SumOverUnaffected(order[..|order| - 1], grouped, n, s, m);
    }
  }

  /** Changing an entry listed exactly once moves the sum by the change. */
  lemma {:induction false} SumOverUpdate(order: seq<string>, grouped: map<string, Summary>, n: string, s: Summary, m: Measure)
    requires Distinct(order) && n in order && n in grouped
    ensures SumOver(order, grouped[n := s], m) == SumOver(order, grouped, m) - GroupAmount(grouped[n], m) + GroupAmount(s, m)
  {
    var init := order[..|order| - 1];
    if order[|order| - 1] == n {
      assert n !in init;
      SumOverUnaffected(init, grouped, n, s, m);
    } else {
      assert n in init by {
        var k :| 0 <= k < |order| && order[k] == n;
        assert k < |order| - 1 && init[k] == n;
      }
      SumOverUpdate(init, grouped, n, s, m);
    }
  }

  /** The dictionary after the rows `done`: `order` lists its keys once
      each, in first-seen order. */
  ghost predicate Shape(order: seq<string>, grouped: map<string, Summary>)
  {
    && Distinct(order)
    && (forall k :: 0 <= k < |order| ==> order[k] in grouped)
    && (forall n :: n in grouped ==> n in order)
  }

  /** Each entry carries its name, its first id and its totals over `done`. */
  ghost predicate EntriesMatch(done: seq<InventoryItem>, grouped: map<string, Summary>)
  {
    forall n :: n in grouped ==>
      && grouped[n].productName == n
      && FirstIdFor(done, n) == Some(grouped[n].id)
      && grouped[n].totalYards == AmountFor(done, n, Yards)
      && grouped[n].totalPieces == AmountFor(done, n, Pieces)
  }

  /** The loop invariant of the grouping pass after the rows `done`. */
  ghost predicate GroupState(done: seq<InventoryItem>, order: seq<string>, grouped: map<string, Summary>)
  {
    && Shape(order, grouped)
    && grouped.Keys == Names(done)
    && EntriesMatch(done, grouped)
    && SumOver(order, grouped, Yards) == Total(done, Yards)
    && SumOver(order, grouped, Pieces) == Total(done, Pieces)
  }

  /** The entry for `item`'s name before `item` is added to it. */
  function StartEntry(grouped: map<string, Summary>, item: InventoryItem): Summary
  {
    var name := item.product.productName;
    if name in grouped then grouped[name] else Summary(item.product.id, name, 0.0, 0.0)
  }

  /** The entry for `item`'s name after `item` is added to it. */
  function AddedEntry(grouped: map<string, Summary>, item: InventoryItem): Summary
  {
    var g := StartEntry(grouped, item);
    g.(totalYards := g.totalYards + RowAmount(item, Yards), totalPieces := g.totalPieces + RowAmount(item, Pieces))
  }

  /** A name with no rows has zero totals. */
  lemma {:induction false} AmountForAbsent(rows: seq<InventoryItem>, name: string, m: Measure)
    requires name !in Names(rows)
    ensures AmountFor(rows, name, m) == 0.0
  {
    if rows != [] {
      AmountForAbsent(rows[..|rows| - 1], name, m);
    }
  }

  lemma EntriesStep(done: seq<InventoryItem>, item: InventoryItem, grouped: map<string, Summary>)
    requires grouped.Keys == Names(done) && EntriesMatch(done, grouped)
    ensures EntriesMatch(done + [item], grouped[item.product.productName := AddedEntry(grouped, item)])
  {
    var rows := done + [item];
    assert rows[..|rows| - 1] == done;
    var name := item.product.productName;
    var grouped' := grouped[name := AddedEntry(grouped, item)];
    forall n | n in grouped'
      ensures grouped'[n].productName == n
      ensures FirstIdFor(rows, n) == Some(grouped'[n].id)
      ensures grouped'[n].totalYards == AmountFor(rows, n, Yards)
      ensures grouped'[n].totalPieces == AmountFor(rows, n, Pieces)
    {
      if n == name && name !in grouped {
        FirstIdIsFirst(done, n);
        AmountForAbsent(done, n, Yards);
        AmountForAbsent(done, n, Pieces);
      }
    }
  }

  lemma SumsStep(done: seq<InventoryItem>, item: InventoryItem, order: seq<string>, grouped: map<string, Summary>, m: Measure)
    requires Shape(order, grouped)
    requires SumOver(order, grouped, m) == Total(done, m)
    ensures var name := item.product.productName;
            var order' := if name in grouped then order else order + [name];
            SumOver(order', grouped[name := AddedEntry(grouped, item)], m) == Total(done + [item], m)
  {
    var rows := done + [item];
    assert rows[..|rows| - 1] == done;
    var name := item.product.productName;
    var start := StartEntry(grouped, item);
    if name in grouped {
      SumOverUpdate(order, grouped, name, AddedEntry(grouped, item), m);
    } else {
      var order' := order + [name];
      assert order'[..|order'| - 1] == order;
      SumOverUnaffected(order, grouped, name, AddedEntry(grouped, item), m);
    }
  }

  /** One pass of the loop body keeps the invariant. */
  lemma GroupStep(done: seq<InventoryItem>, item: InventoryItem, order: seq<string>, grouped: map<string, Summary>)
    requires GroupState(done, order, grouped)
    ensures var name := item.product.productName;
            GroupState(done + [item], if name in grouped then order else order + [name],
                       grouped[name := AddedEntry(grouped, item)])
  {
    var rows := done + [item];
    assert rows[..|rows| - 1] == done;
    var name := item.product.productName;
    var order' := if name in grouped then order else order + [name];
    var grouped' := grouped[name := AddedEntry(grouped, item)];
    assert Shape(order', grouped') by {
      if name !in grouped {
        assert forall k :: 0 <= k < |order| ==> order[k] != name;
      }
    }
    EntriesStep(done, item, grouped);
    SumsStep(done, item, order, grouped, Yards);
    SumsStep(done, item, order, grouped, Pieces);
  }

  /** The listed entries, in order, carry their names and their totals. */
  lemma CollectEntries(rows: seq<InventoryItem>, order: seq<string>, grouped: map<string, Summary>)
    requires forall k :: 0 <= k < |order| ==> order[k] in grouped
    requires grouped.Keys == Names(rows) && EntriesMatch(rows, grouped)
    ensures var groups := Collect(order, grouped);
            |groups| == |order| &&
            forall k :: 0 <= k < |groups| ==>
              && groups[k].productName == order[k] && order[k] in Names(rows)
              && FirstIdFor(rows, groups[k].productName) == Some(groups[k].id)
              && groups[k].totalYards == AmountFor(rows, groups[k].productName, Yards)
              && groups[k].totalPieces == AmountFor(rows, groups[k].productName, Pieces)
  {
    var groups := Collect(order, grouped);
    forall k | 0 <= k < |groups|
      ensures groups[k] == grouped[order[k]] && order[k] in grouped
    {
    }
  }

  /** Distinct keys give distinct names, and every name is listed. */
  lemma CollectCovers(rows: seq<InventoryItem>, order: seq<string>, groups: seq<Summary>)
    requires Distinct(order) && |groups| == |order|
    requires forall k :: 0 <= k < |groups| ==> groups[k].productName == order[k]
    requires forall n :: n in Names(rows) ==> n in order
    ensures forall i, j :: 0 <= i < j < |groups| ==> groups[i].productName != groups[j].productName
    ensures forall n :: n in Names(rows) ==> exists i :: 0 <= i < |groups| && groups[i].productName == n
  {
    forall n | n in Names(rows)
      ensures exists i :: 0 <= i < |groups| && groups[i].productName == n
    {
      var k :| 0 <= k < |order| && order[k] == n;
      assert groups[k].productName == n;
    }
  }

  /** Once every row is in, the dictionary's values are a grouping. */
  lemma GroupDone(rows: seq<InventoryItem>, order: seq<string>, grouped: map<string, Summary>)
    requires GroupState(rows, order, grouped)
    ensures IsGroupingOf(rows, Collect(order, grouped))
  {
    var groups := Collect(order, grouped);
    CollectEntries(rows, order, grouped);
    assert forall n :: n in Names(rows) ==> n in order by {
      assert forall n :: n in Names(rows) ==> n in grouped;
    }
    CollectCovers(rows, order, groups);
    CollectSum(order, grouped, Yards);
    CollectSum(order, grouped, Pieces);
  }

  /** One more element of a prefix. */
  lemma SliceStep<T>(s: seq<T>, i: int)
    requires 0 <= i < |s|
    ensures s[..i + 1] == s[..i] + [s[i]]
  {
  }

  /** The body of the `forEach`: create the entry on first sight of the
      name, then add the row's amounts to it. */
  method AddRow(order: seq<string>, grouped: map<string, Summary>, item: InventoryItem)
    returns (order': seq<string>, grouped': map<string, Summary>)
    ensures order' == if item.product.productName in grouped then order else order + [item.product.productName]
    ensures grouped' == grouped[item.product.productName := AddedEntry(grouped, item)]
  {
    var name := item.product.productName;
    order', grouped' := order, grouped;
    if name !in grouped' {
      grouped' := grouped'[name := Summary(item.product.id, name, 0.0, 0.0)];
      order' := order' + [name];
    }
    var g := grouped'[name];
    grouped' := grouped'[name := g.(totalYards := g.totalYards + NumberOrZero(item.yardAvailable),
                                    totalPieces := g.totalPieces + NumberOrZero(item.pieceAvailable))];
  }

  /** `fetchAndGroup`'s `forEach` over the inventory rows. */
  method GroupInventory(rows: seq<InventoryItem>) returns (groups: seq<Summary>)
    ensures IsGroupingOf(rows, groups)
  {
    var grouped: map<string, Summary> := map[];
    var order: seq<string> := [];
    var i := 0;
    ghost var done: seq<InventoryItem> := [];
    while i < |rows|
      invariant 0 <= i <= |rows| && done == rows[..i]
      invariant GroupState(done, order, grouped)
    {
      var item := rows[i];
      GroupStep(done, item, order, grouped);
      order, grouped := AddRow(order, grouped, item);
      SliceStep(rows, i);
      done := done + [item];
      i := i + 1;
    }
    assert done == rows;
    GroupDone(rows, order, grouped);
    groups := Collect(order, grouped);
  }

  /** The state of the master product page. */
  class MasterProductPage {
    var masterData: seq<Summary>
    var addProductName: string
    var openAddProductModal: bool
    var message: string

    constructor ()
      ensures masterData == [] && addProductName == "" && !openAddProductModal && message == ""
    {
      masterData := [];
      addProductName := "";
      openAddProductModal := false;
      message := "";
    }

    /** `fetchAndGroup`: on a successful `GET /inventory` the summary is
        replaced by the grouping of the rows; a failed fetch changes nothing. */
    method FetchAndGroup(response: Fetch<seq<InventoryItem>>)
      modifies this
      ensures response.Ok? ==> IsGroupingOf(response.data, masterData)
      ensures response.Failed? ==> masterData == old(masterData)
      ensures addProductName == old(addProductName) && openAddProductModal == old(openAddProductModal)
      ensures message == old(message)
    {
      if response.Ok? {
        var groups := GroupInventory(response.data);
        masterData := groups;
      }
    }

    /** "Add Item" submit. An empty name only raises an alert. Otherwise
        the name is posted; `accepted` is the backend's answer. On success
        the name is cleared, the dialog closes and a message is set; on
        failure an alert is raised and the dialog closes. */
    method HandleAddProductSubmit(accepted: bool) returns (request: Option<string>, alert: Option<string>)
      modifies this
      ensures masterData == old(masterData)
      ensures old(addProductName) == "" ==>
                request == None && alert == Some("All fields are required!")
                && addProductName == old(addProductName) && openAddProductModal == old(openAddProductModal)
                && message == old(message)
      ensures old(addProductName) != "" ==> request == Some(old(addProductName)) && !openAddProductModal
      ensures old(addProductName) != "" && accepted ==>
                alert == None && addProductName == "" && message == "Master item added successfully! ✅"
      ensures old(addProductName) != "" && !accepted ==>
                alert == Some("Failed to add Product!") && addProductName == old(addProductName)
                && message == old(message)
    {
      if addProductName == "" {
        request, alert := None, Some("All fields are required!");
        return;
      }
      request := Some(addProductName);
      if accepted {
        addProductName := "";
        openAddProductModal := false;
        message := "Master item added successfully! ✅";
        alert := None;
      } else {
        alert := Some("Failed to add Product!");
        openAddProductModal := false;
      }
    }
  }
}
