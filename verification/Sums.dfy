/** Finite sums over sequences and maps, used for counters that stand for "one per
    request" or "bytes per file". */
module Sums {

  function SumBy<T>(xs: seq<T>, f: T -> int): int {
    if xs == [] then 0 else SumBy(xs[..|xs| - 1], f) + f(xs[|xs| - 1])
  }

  lemma {:induction false} SumUpdate<T>(xs: seq<T>, i: nat, x: T, f: T -> int)
    requires i < |xs|
    ensures SumBy(xs[i := x], f) == SumBy(xs, f) - f(xs[i]) + f(x)
  {
    var n := |xs| - 1;
    if i == n {
      assert xs[i := x][..n] == xs[..n];
    } else {
      assert xs[i := x][..n] == xs[..n][i := x];
      SumUpdate(xs[..n], i, x, f);
    }
  }

  lemma SumAppend<T>(xs: seq<T>, x: T, f: T -> int)
    ensures SumBy(xs + [x], f) == SumBy(xs, f) + f(x)
  {
    assert (xs + [x])[..|xs|] == xs;
  }

  lemma {:induction false} SumConcat<T>(xs: seq<T>, ys: seq<T>, f: T -> int)
    ensures SumBy(xs + ys, f) == SumBy(xs, f) + SumBy(ys, f)
  {
    if ys == [] {
      assert xs + ys == xs;
    } else {
      var n := |ys| - 1;
      assert (xs + ys)[..|xs| + n] == xs + ys[..n];
      SumConcat(xs, ys[..n], f);
    }
  }

  /** Pointwise order carries over to the sums. */
  lemma {:induction false} SumMono<T>(xs: seq<T>, f: T -> int, g: T -> int)
    requires forall x :: x in xs ==> f(x) <= g(x)
    ensures SumBy(xs, f) <= SumBy(xs, g)
  {
    if xs != [] {
      SumMono(xs[..|xs| - 1], f, g);
    }
  }

  lemma SumSame<T>(xs: seq<T>, f: T -> int, g: T -> int)
    requires forall x :: x in xs ==> f(x) == g(x)
    ensures SumBy(xs, f) == SumBy(xs, g)
  {
    SumMono(xs, f, g);
    SumMono(xs, g, f);
  }

  /** A pointwise linear relation carries over to the sums. */
  lemma {:induction false} SumDifference<T>(xs: seq<T>, f: T -> int, g: T -> int, h: T -> int)
    requires forall x :: x in xs ==> f(x) == g(x) - h(x)
    ensures SumBy(xs, f) == SumBy(xs, g) - SumBy(xs, h)
  {
    if xs != [] {
      SumDifference(xs[..|xs| - 1], f, g, h);
    }
  }

  lemma {:induction false} SumZero<T>(xs: seq<T>, f: T -> int)
    requires forall x :: x in xs ==> f(x) == 0
    ensures SumBy(xs, f) == 0
  {
    if xs != [] {
      SumZero(xs[..|xs| - 1], f);
    }
  }

  /** A sum of natural numbers is at least each of its terms. */
  lemma {:induction false} SumCovers<T>(xs: seq<T>, f: T -> int, i: nat)
    requires i < |xs|
    requires forall x :: x in xs ==> 0 <= f(x)
    ensures f(xs[i]) <= SumBy(xs, f)
  {
    var n := |xs| - 1;
    if i == n {
      SumNonNegative(xs[..n], f);
    } else {
      SumCovers(xs[..n], f, i);
      assert xs[n] in xs;
    }
  }

  lemma {:induction false} SumNonNegative<T>(xs: seq<T>, f: T -> int)
    requires forall x :: x in xs ==> 0 <= f(x)
    ensures 0 <= SumBy(xs, f)
  {
    if xs != [] {
      SumNonNegative(xs[..|xs| - 1], f);
    }
  }

  // ----- Maps ------------------------------------------------------------------------

  ghost function MapSum<K, V>(m: map<K, V>, f: V -> int): int
    decreases |m|
  {
    if m == map[] then 0
    else
      var k :| k in m;
      f(m[k]) + MapSum(m - {k}, f)
  }

  /** The sum does not depend on the order in which entries are taken out. */
  lemma {:induction false} MapSumRemove<K, V>(m: map<K, V>, k: K, f: V -> int)
    requires k in m
    ensures MapSum(m, f) == f(m[k]) + MapSum(m - {k}, f)
    decreases |m|
  {
    var j :| j in m && MapSum(m, f) == f(m[j]) + MapSum(m - {j}, f);
    if j != k {
      MapSumRemove(m - {j}, k, f);
      MapSumRemove(m - {k}, j, f);
      assert m - {j} - {k} == m - {k} - {j};
    }
  }

  lemma MapSumPut<K, V>(m: map<K, V>, k: K, v: V, f: V -> int)
    ensures MapSum(m[k := v], f) == MapSum(m, f) - (if k in m then f(m[k]) else 0) + f(v)
  {
    MapSumRemove(m[k := v], k, f);
    if k in m {
      MapSumRemove(m, k, f);
      assert m[k := v] - {k} == m - {k};
    } else {
      assert m[k := v] - {k} == m;
    }
  }
}
