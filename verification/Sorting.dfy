/** The library sorts the program relies on. */
module Sorting {
  import opened Collections

  ghost predicate TotalPreorder<T(!new)>(le: (T, T) -> bool) {
    && (forall x, y :: le(x, y) || le(y, x))
    && (forall x, y, z :: le(x, y) && le(y, z) ==> le(x, z))
  }

  ghost predicate Ordered<T>(xs: seq<T>, le: (T, T) -> bool) {
    forall i, j :: 0 <= i < j < |xs| ==> le(xs[i], xs[j])
  }

  /** x goes behind everything it may stay behind, so equal elements keep their order. */
  function Insert<T>(sorted: seq<T>, x: T, le: (T, T) -> bool): seq<T> {
    if sorted == [] || le(sorted[|sorted| - 1], x) then sorted + [x]
    else Insert(sorted[..|sorted| - 1], x, le) + [sorted[|sorted| - 1]]
  }

  /** sort.SliceStable: the one stable arrangement. */
  function StableSort<T>(xs: seq<T>, le: (T, T) -> bool): seq<T> {
    if xs == [] then [] else Insert(StableSort(xs[..|xs| - 1], le), xs[|xs| - 1], le)
  }

  lemma {:induction false} InsertContents<T(!new)>(sorted: seq<T>, x: T, le: (T, T) -> bool)
    ensures multiset(Insert(sorted, x, le)) == multiset(sorted) + multiset{x}
    ensures |Insert(sorted, x, le)| == |sorted| + 1
  {
    if sorted != [] && !le(sorted[|sorted| - 1], x) {
      var n := |sorted| - 1;
      assert sorted == sorted[..n] + [sorted[n]];
      InsertContents(sorted[..n], x, le);
    }
  }

  lemma {:induction false} InsertOk<T(!new)>(sorted: seq<T>, x: T, le: (T, T) -> bool)
    requires TotalPreorder(le) && Ordered(sorted, le)
    ensures multiset(Insert(sorted, x, le)) == multiset(sorted) + multiset{x}
    ensures |Insert(sorted, x, le)| == |sorted| + 1
    ensures Ordered(Insert(sorted, x, le), le)
  {
    InsertContents(sorted, x, le);
    if sorted != [] {
      var n := |sorted| - 1;
      var last := sorted[n];
      if le(last, x) {
        forall i | 0 <= i < |sorted| ensures le(sorted[i], x) {
          assert i < n ==> le(sorted[i], last);
        }
      } else {
        InsertOk(sorted[..n], x, le);
        InsertBelow(sorted[..n], x, last, le);
      }
    }
  }

  /** What is below a bound stays below it with x inserted. */
  lemma InsertBelow<T(!new)>(sorted: seq<T>, x: T, bound: T, le: (T, T) -> bool)
    requires le(x, bound) && forall i :: 0 <= i < |sorted| ==> le(sorted[i], bound)
    ensures forall i :: 0 <= i < |Insert(sorted, x, le)| ==> le(Insert(sorted, x, le)[i], bound)
  {
    InsertContents(sorted, x, le);
    var r := Insert(sorted, x, le);
    forall i | 0 <= i < |r| ensures le(r[i], bound) {
      assert r[i] in multiset(r);
      assert r[i] == x || r[i] in sorted;
    }
  }

  lemma {:induction false} StableSortOk<T(!new)>(xs: seq<T>, le: (T, T) -> bool)
    requires TotalPreorder(le)
    ensures multiset(StableSort(xs, le)) == multiset(xs)
    ensures |StableSort(xs, le)| == |xs|
    ensures Ordered(StableSort(xs, le), le)
  {
    if xs != [] {
      var n := |xs| - 1;
      StableSortOk(xs[..n], le);
      InsertOk(StableSort(xs[..n], le), xs[n], le);
      assert xs == xs[..n] + [xs[n]];
    }
  }

  /** The members of xs that the order does not tell from c, as they come. */
  function Alike<T>(xs: seq<T>, c: T, le: (T, T) -> bool): seq<T> {
    if xs == [] then []
    else
      var x := xs[|xs| - 1];
      Alike(xs[..|xs| - 1], c, le) + if le(x, c) && le(c, x) then [x] else []
  }

  lemma {:induction false} InsertKeepsAlike<T(!new)>(sorted: seq<T>, x: T, c: T, le: (T, T) -> bool)
    requires TotalPreorder(le)
    ensures Alike(Insert(sorted, x, le), c, le) ==
      Alike(sorted, c, le) + if le(x, c) && le(c, x) then [x] else []
  {
    if sorted == [] || le(sorted[|sorted| - 1], x) {
      AlikeAppend(sorted, x, c, le);
    } else {
      var n := |sorted| - 1;
      var last := sorted[n];
      InsertKeepsAlike(sorted[..n], x, c, le);
      AlikeAppend(Insert(sorted[..n], x, le), last, c, le);
      assert !(le(last, c) && le(c, x));
    }
  }

  lemma AlikeAppend<T>(xs: seq<T>, x: T, c: T, le: (T, T) -> bool)
    ensures Alike(xs + [x], c, le) == Alike(xs, c, le) + if le(x, c) && le(c, x) then [x] else []
  {
    assert (xs + [x])[..|xs|] == xs;
  }

  /** A stable sort keeps the order of elements that compare equal. */
  lemma {:induction false} StableSortKeepsAlike<T(!new)>(xs: seq<T>, c: T, le: (T, T) -> bool)
    requires TotalPreorder(le)
    ensures Alike(StableSort(xs, le), c, le) == Alike(xs, c, le)
  {
    if xs != [] {
      var n := |xs| - 1;
      StableSortKeepsAlike(xs[..n], c, le);
      InsertKeepsAlike(StableSort(xs[..n], le), xs[n], c, le);
    }
  }

  lemma {:induction false} SortOfSorted<T(!new)>(xs: seq<T>, le: (T, T) -> bool)
    requires Ordered(xs, le)
    ensures StableSort(xs, le) == xs
  {
    if xs != [] {
      var n := |xs| - 1;
      SortOfSorted(xs[..n], le);
      assert n > 0 ==> le(xs[n - 1], xs[n]);
      assert xs == xs[..n] + [xs[n]];
    }
  }

  /** Cutting a sorted list short: whatever goes comes after all that stays. */
  lemma SortedFront<T(!new)>(sorted: seq<T>, xs: seq<T>, le: (T, T) -> bool, n: nat)
    requires n <= |sorted| && multiset(sorted) == multiset(xs) && Ordered(sorted, le)
    ensures multiset(sorted[..n]) <= multiset(xs)
    ensures forall x :: x in sorted[..n] ==> x in xs
    ensures forall x, y :: x in xs && x !in sorted[..n] && y in sorted[..n] ==> le(y, x)
  {
    var front, back := sorted[..n], sorted[n..];
    assert multiset(xs) == multiset(front) + multiset(back) by { assert sorted == front + back; }
    SameElements(sorted, xs);
    forall x, y | x in xs && x !in front && y in front ensures le(y, x) {
      assert x in sorted && sorted == front + back;
      FrontBeforeBack(sorted, le, n, y, x);
    }
    forall x | x in front ensures x in xs { assert x in sorted; }
  }

  lemma FrontBeforeBack<T>(sorted: seq<T>, le: (T, T) -> bool, n: nat, y: T, x: T)
    requires n <= |sorted| && Ordered(sorted, le) && y in sorted[..n] && x in sorted[n..]
    ensures le(y, x)
  {
    var j :| 0 <= j < n && sorted[..n][j] == y;
    var i :| 0 <= i < |sorted| - n && sorted[n..][i] == x;
    assert le(sorted[j], sorted[n + i]);
  }

  /** sort.Slice promises order only, not which of several arrangements. */
  method SortSlice<T(!new)>(xs: seq<T>, le: (T, T) -> bool) returns (sorted: seq<T>)
    requires TotalPreorder(le)
    ensures multiset(sorted) == multiset(xs) && |sorted| == |xs| && Ordered(sorted, le)
  {
    StableSortOk(xs, le);
    sorted := StableSort(xs, le);
  }
}
