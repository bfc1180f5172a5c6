/** Values shared by the inventory console's components: the outcome of a
    backend call, the contents of numeric form fields, the backend's
    inventory records, and the list helpers (sum, filter, de-duplication)
    the components apply to them. */
module Common {

  datatype Option<T> = None | Some(value: T)

  /** The outcome of an HTTP request: the response body, or a rejected promise. */
  datatype Fetch<T> = Ok(data: T) | Failed

  /** The value of an `<input type="number">`: empty, or a number. */
  datatype NumberInput = Blank | Entered(value: real)

  /** A JSON field read through `Number(x) || 0`: either something that
      converts to a number, or something that converts to NaN. */
  datatype Amount = Numeric(v: real) | NonNumeric

  /** `Number(x) || 0`: NaN (and zero) become 0. */
  function NumberOrZero(a: Amount): real
  {
    match a
    case Numeric(v) => v
    case NonNumeric => 0.0
  }

  /** A catalog product; `id` is held in its `String(id)` form. */
  datatype Product = Product(id: string, productName: string)

  /** One inventory row as the backend returns it. `operationType`, `yards`
      and `pieces` are optional fields of the backend's row. */
  datatype InventoryItem = InventoryItem(
    id: int,
    product: Product,
    color: string,
    category: string,
    yardAvailable: Amount,
    pieceAvailable: Amount,
    operationType: Option<string>,
    yards: Option<string>,
    pieces: Option<string>)

  /** One row of the master product summary. */
  datatype Summary = Summary(id: string, productName: string, totalYards: real, totalPieces: real)

  /** Left-to-right sum, as `reduce((sum, q) => sum + q, 0)`. */
  function Sum(s: seq<real>): real
  {
    if s == [] then 0.0 else Sum(s[..|s| - 1]) + s[|s| - 1]
  }

  lemma {:induction false} SumConcat(a: seq<real>, b: seq<real>)
    ensures Sum(a + b) == Sum(a) + Sum(b)
  {
    if b == [] {
      assert a + b == a;
    } else {
      var c := b[..|b| - 1];
      assert (a + b)[..|a + b| - 1] == a + c;
      SumConcat(a, c);
    }
  }

  /** `Array.prototype.filter`. */
  function Filter<T>(s: seq<T>, keep: T -> bool): seq<T>
  {
    if s == [] then []
    else if keep(s[0]) then [s[0]] + Filter(s[1..], keep)
    else Filter(s[1..], keep)
  }

  /** The filtered list is no longer than the input and holds exactly the
      input's elements that pass the test. */
  lemma {:induction false} FilterMembers<T>(s: seq<T>, keep: T -> bool)
    ensures |Filter(s, keep)| <= |s|
    ensures forall i :: 0 <= i < |Filter(s, keep)| ==> Filter(s, keep)[i] in s && keep(Filter(s, keep)[i])
    ensures forall i :: 0 <= i < |s| && keep(s[i]) ==> s[i] in Filter(s, keep)
  {
    if s != [] {
      var t := Filter(s[1..], keep);
      FilterMembers(s[1..], keep);
      assert forall i :: 0 < i < |s| ==> s[i] == s[1..][i - 1];
      assert forall i :: 0 <= i < |t| ==> t[i] in s by {
        forall i | 0 <= i < |t| ensures t[i] in s {
          var k :| 0 <= k < |s[1..]| && s[1..][k] == t[i];
          assert s[k + 1] == t[i];
        }
      }
      if keep(s[0]) {
        assert forall i :: 0 < i < |[s[0]] + t| ==> ([s[0]] + t)[i] == t[i - 1];
      }
    }
  }

  /** Filtering works piece by piece, so it keeps the original order. */
  lemma {:induction false} FilterConcat<T>(a: seq<T>, b: seq<T>, keep: T -> bool)
    ensures Filter(a + b, keep) == Filter(a, keep) + Filter(b, keep)
  {
    if a != [] {
      assert (a + b)[0] == a[0];
      assert (a + b)[1..] == a[1..] + b;
      FilterConcat(a[1..], b, keep);
      if keep(a[0]) {
        assert Filter(a + b, keep) == [a[0]] + (Filter(a[1..], keep) + Filter(b, keep));
      } else {
        assert Filter(a + b, keep) == Filter(a[1..], keep) + Filter(b, keep);
      }
    } else {
      assert a + b == b;
    }
  }

  /** A filter that rejects nothing returns its input unchanged. */
  lemma {:induction false} FilterKeepsAll<T>(s: seq<T>, keep: T -> bool)
    requires forall i :: 0 <= i < |s| ==> keep(s[i])
    ensures Filter(s, keep) == s
  {
    if s != [] {
      assert forall i :: 0 <= i < |s[1..]| ==> s[1..][i] == s[i + 1];
      FilterKeepsAll(s[1..], keep);
    }
  }

  predicate Distinct<T(==)>(s: seq<T>)
  {
    forall i, j :: 0 <= i < j < |s| ==> s[i] != s[j]
  }

  /** `[...new Set(s)]`: each value once, in order of first appearance
      (`DedupOrder`). */
  function Dedup<T(==)>(s: seq<T>): (r: seq<T>)
    ensures Distinct(r)
    ensures forall i :: 0 <= i < |r| ==> r[i] in s
    ensures forall i :: 0 <= i < |s| ==> s[i] in r
  {
    if s == [] then []
    else
      var r := Dedup(s[..|s| - 1]);
      if s[|s| - 1] in r then r else r + [s[|s| - 1]]
  }

  /** The index of the first occurrence of `x` in `s`. */
  function IndexOf<T(==)>(s: seq<T>, x: T): nat
    requires x in s
  {
    if s[|s| - 1] == x && x !in s[..|s| - 1] then |s| - 1 else IndexOf(s[..|s| - 1], x)
  }

  /** The first occurrence of `x` in `s` is where it is, and no earlier
      element is `x`. */
  lemma {:induction false} IndexOfIsFirst<T>(s: seq<T>, x: T)
    requires x in s
    ensures IndexOf(s, x) < |s| && s[IndexOf(s, x)] == x
    ensures forall j :: 0 <= j < IndexOf(s, x) ==> s[j] != x
  {
    var init := s[..|s| - 1];
    if !(s[|s| - 1] == x && x !in init) {
      assert x in init by {
        if s[|s| - 1] != x {
          var k :| 0 <= k < |s| && s[k] == x;
          assert k < |s| - 1 && init[k] == x;
        }
      }
      IndexOfIsFirst(init, x);
      assert forall j :: 0 <= j < |init| ==> s[j] == init[j];
    } else {
      assert forall j :: 0 <= j < |s| - 1 ==> s[j] == init[j];
    }
  }

  /** `[...new Set(s)]` lists the values in the order they first appear. */
  lemma {:induction false} DedupOrder<T>(s: seq<T>)
    ensures forall i, j :: 0 <= i < j < |Dedup(s)| ==> IndexOf(s, Dedup(s)[i]) < IndexOf(s, Dedup(s)[j])
  {
    if s != [] {
      var init := s[..|s| - 1];
      var last := s[|s| - 1];
      var r := Dedup(init);
      DedupOrder(init);
      assert forall x :: x in init ==> x in s by {
        forall x | x in init ensures x in s {
          var k :| 0 <= k < |init| && init[k] == x;
          assert s[k] == x;
        }
      }
      assert forall x :: x in r ==> x in init by {
        forall x | x in r ensures x in init {
          var k :| 0 <= k < |r| && r[k] == x;
        }
      }
      forall x | x in init ensures IndexOf(s, x) == IndexOf(init, x) < |init| {
        IndexOfIsFirst(init, x);
      }
      if last !in r {
        forall x | x in r ensures IndexOf(s, x) < IndexOf(s, last) {
          assert last !in init;
        }
        var d := r + [last];
        assert forall i :: 0 <= i < |r| ==> d[i] == r[i] && d[i] in r;
      }
    }
  }
}
