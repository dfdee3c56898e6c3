/** The bounded best-first scan for large directories (check_drives/largest.go).

    The filesystem is a fixed finite tree of directories numbered so that a directory comes
    after its parent; directory 0 is the scan root. A scan node is known by its directory, so
    the parent pointer of a node is the parent of its directory. */
module DirectoryScan {
  import opened Collections
  import opened Sorting

  const MAX_DIRS: nat := 50
  const MAX_CHILDREN: nat := 20
  const PROMOTE: nat := 50 * 1024 * 1024

  datatype Entry = SubDir(dir: nat) | Regular(size: nat) | Special

  datatype DirInfo = DirInfo(name: string, readable: bool, device: Option<nat>, parent: nat, entries: seq<Entry>)

  type Tree = seq<DirInfo>

  predicate PseudoFs(name: string) {
    name == "proc" || name == "sys" || name == "dev" || name == "run"
  }

  predicate StaticSystem(name: string) {
    name == "usr" || name == "lib" || name == "lib32" || name == "lib64" || name == "libx32" || name == "bin" ||
        name == "sbin" || name == "snap"
  }

  ghost predicate WellFormed(fs: Tree) {
    && |fs| > 0
    && (forall c :: 0 < c < |fs| ==> fs[c].parent < c)
    && (forall d, i :: 0 <= d < |fs| && 0 <= i < |fs[d].entries| && fs[d].entries[i].SubDir? ==>
          0 < fs[d].entries[i].dir < |fs| && fs[fs[d].entries[i].dir].parent == d)
    && (forall d, i, j :: 0 <= d < |fs| && 0 <= i < j < |fs[d].entries| && fs[d].entries[i].SubDir? ==>
          fs[d].entries[i] != fs[d].entries[j])
  }

  // ----- Sizes ------------------------------------------------------------------------------

  function EntrySize(e: Entry): nat {
    if e.Regular? then e.size else 0
  }

  function OwnSize(entries: seq<Entry>): nat {
    if entries == [] then 0 else OwnSize(entries[..|entries| - 1]) + EntrySize(entries[|entries| - 1])
  }

  /** What dirSelfSize reports: nothing for a directory that cannot be read. */
  function SelfSize(d: DirInfo): nat {
    if d.readable then OwnSize(d.entries) else 0
  }

  method DirSelfSize(d: DirInfo) returns (total: nat)
    ensures total == SelfSize(d)
  {
    total := 0;
    if !d.readable { return; }
    for i := 0 to |d.entries|
      invariant total == OwnSize(d.entries[..i])
    {
      assert d.entries[..i + 1][..i] == d.entries[..i];
      if d.entries[i].Regular? {
        total := total + d.entries[i].size;
      }
    }
    assert d.entries[..|d.entries|] == d.entries;
  }

  /** d is e or one of its ancestors. */
  ghost predicate Below(fs: Tree, d: nat, e: nat)
    requires WellFormed(fs) && e < |fs|
    decreases e
  {
    d == e || (e > 0 && Below(fs, d, fs[e].parent))
  }

  lemma {:induction false} BelowIsLater(fs: Tree, d: nat, e: nat)
    requires WellFormed(fs) && e < |fs| && Below(fs, d, e)
    ensures d <= e
    decreases e
  {
    if d != e { BelowIsLater(fs, d, fs[e].parent); }
  }

  /** Depth-1 sizes of the kept directories numbered below n in d's subtree. */
  ghost function KeptBelow(fs: Tree, kept: set<nat>, d: nat, n: nat): nat
    requires WellFormed(fs) && n <= |fs|
  {
    if n == 0 then 0
    else KeptBelow(fs, kept, d, n - 1) + (if n - 1 in kept && Below(fs, d, n - 1) then SelfSize(fs[n - 1]) else 0)
  }

  /** The true recursive size of d: every regular file at or below it. */
  ghost function TrueSize(fs: Tree, d: nat, n: nat): nat
    requires WellFormed(fs) && n <= |fs|
  {
    if n == 0 then 0
    else TrueSize(fs, d, n - 1) + (if Below(fs, d, n - 1) then OwnSize(fs[n - 1].entries) else 0)
  }

  lemma {:induction false} KeptBelowAdd(fs: Tree, kept: set<nat>, d: nat, c: nat, n: nat)
    requires WellFormed(fs) && n <= |fs| && c !in kept && c < |fs|
    ensures KeptBelow(fs, kept + {c}, d, n)
         == KeptBelow(fs, kept, d, n) + (if c < n && Below(fs, d, c) then SelfSize(fs[c]) else 0)
  {
    if n > 0 { KeptBelowAdd(fs, kept, d, c, n - 1); }
  }

  /** A directory that adds to the true size but not to the total. */
  ghost predicate Missed(fs: Tree, kept: set<nat>, d: nat, e: nat)
    requires WellFormed(fs) && e < |fs|
  {
    Below(fs, d, e) && !(e in kept && fs[e].readable) && OwnSize(fs[e].entries) > 0
  }

  /** Totals never exceed the true size and reach it exactly when nothing was missed. */
  lemma {:induction false} KeptAgainstTrue(fs: Tree, kept: set<nat>, d: nat, n: nat)
    requires WellFormed(fs) && n <= |fs|
    ensures KeptBelow(fs, kept, d, n) <= TrueSize(fs, d, n)
    ensures KeptBelow(fs, kept, d, n) == TrueSize(fs, d, n) <==> forall e :: 0 <= e < n ==> !Missed(fs, kept, d, e)
  {
    if n > 0 {
      KeptAgainstTrue(fs, kept, d, n - 1);
      if !Missed(fs, kept, d, n - 1) {
        assert KeptBelow(fs, kept, d, n) - KeptBelow(fs, kept, d, n - 1) == TrueSize(fs, d, n) - TrueSize(fs, d, n - 1);
      }
    }
  }

  // ----- Propagation ---------------------------------------------------------------------------

  /** Ancestors of n have nodes. */
  ghost predicate Rooted(fs: Tree, total: map<nat, nat>)
    requires WellFormed(fs)
  {
    forall d :: d in total ==> d < |fs| && (d > 0 ==> fs[d].parent in total)
  }

  ghost function AddUp(fs: Tree, total: map<nat, nat>, n: nat, size: nat): map<nat, nat>
    requires WellFormed(fs) && Rooted(fs, total) && n in total
    decreases n
  {
    var t := total[n := total[n] + size];
    if n == 0 then t else AddUp(fs, t, fs[n].parent, size)
  }

  lemma {:induction false} AddUpAt(fs: Tree, total: map<nat, nat>, n: nat, size: nat, d: nat)
    requires WellFormed(fs) && Rooted(fs, total) && n in total && d in total
    ensures AddUp(fs, total, n, size).Keys == total.Keys
    ensures AddUp(fs, total, n, size)[d] == total[d] + (if Below(fs, d, n) then size else 0)
    decreases n
  {
    if n > 0 {
      var t := total[n := total[n] + size];
      AddUpAt(fs, t, fs[n].parent, size, d);
      if Below(fs, n, fs[n].parent) { BelowIsLater(fs, n, fs[n].parent); }
    }
  }

  method Propagate(fs: Tree, total: map<nat, nat>, node: nat, size: nat) returns (updated: map<nat, nat>)
    requires WellFormed(fs) && Rooted(fs, total) && node in total
    ensures updated == AddUp(fs, total, node, size)
  {
    updated := total;
    var n := node;
    while n > 0
      invariant Rooted(fs, updated) && n in updated
      invariant AddUp(fs, updated, n, size) == AddUp(fs, total, node, size)
    {
      updated := updated[n := updated[n] + size];
      n := fs[n].parent;
    }
    updated := updated[n := updated[n] + size];
  }

  // ----- The invariant of the scan --------------------------------------------------------------

  /** kept: directories that became candidates; seen: directories explored so far. */
  ghost predicate ScanOk(fs: Tree, total: map<nat, nat>, kept: set<nat>, seen: set<nat>)
    requires WellFormed(fs)
  {
    && (forall e :: e in kept ==> 0 < e < |fs| && fs[e].parent in seen)
    && total.Keys == kept + {0}
    && seen <= total.Keys
    && (forall d :: d in total ==> total[d] == KeptBelow(fs, kept, d, |fs|))
  }

  lemma AddChildAt(fs: Tree, total: map<nat, nat>, kept: set<nat>, seen: set<nat>, c: nat, d: nat)
    requires WellFormed(fs) && ScanOk(fs, total, kept, seen)
    requires 0 < c < |fs| && c !in kept && fs[c].parent in seen
    requires forall e :: e in kept ==> fs[e].parent != c
    requires d in total || d == c
    requires Rooted(fs, total[c := SelfSize(fs[c])])
    ensures
      var t := total[c := SelfSize(fs[c])];
      var u := AddUp(fs, t, fs[c].parent, SelfSize(fs[c]));
      u.Keys == t.Keys && u[d] == KeptBelow(fs, kept + {c}, d, |fs|)
  {
    AddUpAt(fs, total[c := SelfSize(fs[c])], fs[c].parent, SelfSize(fs[c]), d);
    KeptBelowAdd(fs, kept, d, c, |fs|);
    if d == c {
      OnlyItself(fs, kept, c, |fs|);
      if Below(fs, c, fs[c].parent) { BelowIsLater(fs, c, fs[c].parent); }
    }
  }

  lemma ChildIsRooted(fs: Tree, total: map<nat, nat>, kept: set<nat>, seen: set<nat>, c: nat)
    requires WellFormed(fs) && ScanOk(fs, total, kept, seen)
    requires 0 < c < |fs| && fs[c].parent in seen
    ensures Rooted(fs, total[c := SelfSize(fs[c])])
  {}

  /** Exploring cur adds child c: its size reaches c and all of cur's ancestors, no others. */
  lemma AddChildKeepsScan(fs: Tree, total: map<nat, nat>, kept: set<nat>, seen: set<nat>, c: nat, u: map<nat, nat>)
    requires WellFormed(fs) && ScanOk(fs, total, kept, seen)
    requires 0 < c < |fs| && c !in kept && fs[c].parent in seen
    requires forall e :: e in kept ==> fs[e].parent != c
    requires Rooted(fs, total[c := SelfSize(fs[c])])
    requires u == AddUp(fs, total[c := SelfSize(fs[c])], fs[c].parent, SelfSize(fs[c]))
    ensures ScanOk(fs, u, kept + {c}, seen)
  {
    AddChildAt(fs, total, kept, seen, c, c);
    assert u.Keys == total.Keys + {c};
    forall d | d in u ensures u[d] == KeptBelow(fs, kept + {c}, d, |fs|) {
      AddChildAt(fs, total, kept, seen, c, d);
    }
  }

  /** Nothing kept lies below a directory that is nobody's kept parent. */
  lemma {:induction false} NothingBelow(fs: Tree, kept: set<nat>, c: nat, e: nat)
    requires WellFormed(fs) && c > 0 && e in kept && e != c
    requires forall x :: x in kept ==> 0 < x < |fs| && fs[x].parent != c && (fs[x].parent == 0 || fs[x].parent in kept)
    ensures !Below(fs, c, e)
    decreases e
  {
    if fs[e].parent != 0 { NothingBelow(fs, kept, c, fs[e].parent); }
  }

  lemma {:induction false} OnlyItself(fs: Tree, kept: set<nat>, c: nat, n: nat)
    requires WellFormed(fs) && c > 0 && n <= |fs|
    requires forall x :: x in kept ==> 0 < x < |fs| && fs[x].parent != c && (fs[x].parent == 0 || fs[x].parent in kept)
    ensures KeptBelow(fs, kept, c, n) == if c in kept && c < n then SelfSize(fs[c]) else 0
  {
    if n > 0 {
      OnlyItself(fs, kept, c, n - 1);
      if n - 1 in kept && n - 1 != c { NothingBelow(fs, kept, c, n - 1); }
    }
  }

  /** A directory that is not explored yet still has the total it was discovered with. */
  lemma UnopenedTotalIsInitial(fs: Tree, total: map<nat, nat>, kept: set<nat>, seen: set<nat>, q: nat)
    requires WellFormed(fs) && ScanOk(fs, total, kept, seen) && q in kept && q !in seen
    ensures total[q] == SelfSize(fs[q])
  {
    OnlyItself(fs, kept, q, |fs|);
  }

  /** The total of every candidate, against the tree itself. */
  lemma CandidateTotals(fs: Tree, total: map<nat, nat>, kept: set<nat>, seen: set<nat>, d: nat)
    requires WellFormed(fs) && ScanOk(fs, total, kept, seen) && d in total
    ensures total[d] <= TrueSize(fs, d, |fs|)
    ensures total[d] == TrueSize(fs, d, |fs|) <==> forall e :: 0 <= e < |fs| ==> !Missed(fs, kept, d, e)
  {
    KeptAgainstTrue(fs, kept, d, |fs|);
  }

  // ----- The work list ---------------------------------------------------------------------------

  /** The total a directory is discovered with; the root starts at zero. */
  function InitialTotal(fs: Tree, d: nat): nat
    requires d < |fs|
  {
    if d == 0 then 0 else SelfSize(fs[d])
  }

  predicate InTree(fs: Tree, xs: seq<nat>) {
    forall i :: 0 <= i < |xs| ==> xs[i] < |fs|
  }

  /** The members of xs that are (or are not) large enough to jump the queue, in order. */
  function Pick(fs: Tree, xs: seq<nat>, promoted: bool): seq<nat>
    requires InTree(fs, xs)
  {
    if xs == [] then []
    else
      var x := xs[|xs| - 1];
      Pick(fs, xs[..|xs| - 1], promoted) + (if (InitialTotal(fs, x) >= PROMOTE) == promoted then [x] else [])
  }

  ghost predicate Partitioned(fs: Tree, hi: seq<nat>, lo: seq<nat>) {
    && InTree(fs, hi) && (forall i :: 0 <= i < |hi| ==> InitialTotal(fs, hi[i]) >= PROMOTE)
    && InTree(fs, lo) && (forall i :: 0 <= i < |lo| ==> InitialTotal(fs, lo[i]) < PROMOTE)
  }

  lemma {:induction false} PickPartitions(fs: Tree, xs: seq<nat>)
    requires InTree(fs, xs)
    ensures Partitioned(fs, Pick(fs, xs, true), Pick(fs, xs, false))
  {
    if xs != [] { PickPartitions(fs, xs[..|xs| - 1]); }
  }

  lemma {:induction false} PickConcat(fs: Tree, xs: seq<nat>, ys: seq<nat>, promoted: bool)
    requires InTree(fs, xs) && InTree(fs, ys)
    ensures InTree(fs, xs + ys)
    ensures Pick(fs, xs + ys, promoted) == Pick(fs, xs, promoted) + Pick(fs, ys, promoted)
  {
    if ys == [] {
      assert xs + ys == xs;
    } else {
      assert (xs + ys)[..|xs + ys| - 1] == xs + ys[..|ys| - 1];
      PickConcat(fs, xs, ys[..|ys| - 1], promoted);
    }
  }

  /** One step of a stable insertion sort: x moves ahead of the trailing entries it must
      precede, and no further. */
  method InsertStable(sorted: seq<nat>, x: nat, total: map<nat, nat>, ghost hi: seq<nat>,
                      ghost lo: seq<nat>) returns (r: seq<nat>)
    requires sorted == hi + lo && x in total
    requires forall i :: 0 <= i < |hi| ==> hi[i] in total && total[hi[i]] >= PROMOTE
    requires forall i :: 0 <= i < |lo| ==> lo[i] in total && total[lo[i]] < PROMOTE
    ensures r == if total[x] >= PROMOTE then hi + [x] + lo else hi + (lo + [x])
  {
    var j := |sorted|;
    while j > 0 && total[x] >= PROMOTE && total[sorted[j - 1]] < PROMOTE
      invariant 0 <= j <= |sorted|
      invariant total[x] >= PROMOTE ==> j >= |hi|
      invariant total[x] < PROMOTE ==> j == |sorted|
    {
      j := j - 1;
    }
    r := sorted[..j] + [x] + sorted[j..];
    if total[x] >= PROMOTE {
      assert j == |hi|;
      assert sorted[..j] == hi && sorted[j..] == lo;
    }
  }

  lemma PickOneMore(fs: Tree, queue: seq<nat>, i: nat, promoted: bool)
    requires InTree(fs, queue) && i < |queue|
    ensures Pick(fs, queue[..i + 1], promoted) ==
      Pick(fs, queue[..i], promoted) + if (InitialTotal(fs, queue[i]) >= PROMOTE) == promoted then [queue[i]] else []
  {
    assert queue[..i + 1][..i] == queue[..i];
  }

  /** sort.SliceStable with the promote comparison on the current totals. */
  method PromoteSort(fs: Tree, queue: seq<nat>, total: map<nat, nat>) returns (sorted: seq<nat>)
    requires InTree(fs, queue)
    requires forall i :: 0 <= i < |queue| ==> queue[i] in total && total[queue[i]] == InitialTotal(fs, queue[i])
    ensures sorted == Pick(fs, queue, true) + Pick(fs, queue, false)
  {
    sorted := [];
    ghost var hi, lo := [], [];
    for i := 0 to |queue|
      invariant hi == Pick(fs, queue[..i], true) && lo == Pick(fs, queue[..i], false)
      invariant sorted == hi + lo
      invariant forall k :: 0 <= k < |hi| ==> hi[k] in total && total[hi[k]] >= PROMOTE
      invariant forall k :: 0 <= k < |lo| ==> lo[k] in total && total[lo[k]] < PROMOTE
    {
      var x := queue[i];
      PickOneMore(fs, queue, i, true);
      PickOneMore(fs, queue, i, false);
      sorted := InsertStable(sorted, x, total, hi, lo);
      if total[x] >= PROMOTE { hi := hi + [x]; } else { lo := lo + [x]; }
    }
    assert queue[..|queue|] == queue;
  }

  // ----- Selecting the largest ----------------------------------------------------------------------

  datatype Sized<+T> = Sized(id: T, size: nat)

  ghost predicate Descending<T>(xs: seq<Sized<T>>) {
    forall i, j :: 0 <= i < j < |xs| ==> xs[i].size >= xs[j].size
  }

  /** top is n of xs (or all), in descending order, and nothing left over is larger. */
  ghost predicate IsTop<T(!new)>(top: seq<Sized<T>>, xs: seq<Sized<T>>, n: nat) {
    && |top| == (if |xs| > n then n else |xs|)
    && Descending(top)
    && exists rest: seq<Sized<T>> :: LeftOver(top, rest, xs)
  }

  ghost predicate LeftOver<T>(top: seq<Sized<T>>, rest: seq<Sized<T>>, xs: seq<Sized<T>>) {
    && multiset(top) + multiset(rest) == multiset(xs)
    && forall i, j :: 0 <= i < |top| && 0 <= j < |rest| ==> top[i].size >= rest[j].size
  }

  function Larger<T>(): (Sized<T>, Sized<T>) -> bool {
    (a: Sized<T>, b: Sized<T>) => a.size >= b.size
  }

  /** topNDirs and topNFiles. */
  method TopN<T(!new)>(xs: seq<Sized<T>>, n: nat) returns (top: seq<Sized<T>>)
    ensures IsTop(top, xs, n)
  {
    var sorted := SortSlice(xs, Larger());
    top := sorted;
    if |sorted| > n {
      top := sorted[..n];
    }
    PrefixIsTop(sorted, top, xs, n);
  }

  lemma PrefixIsTop<T(!new)>(sorted: seq<Sized<T>>, top: seq<Sized<T>>, xs: seq<Sized<T>>, n: nat)
    requires Ordered(sorted, Larger()) && multiset(sorted) == multiset(xs) && |sorted| == |xs|
    requires top == if |sorted| > n then sorted[..n] else sorted
    ensures IsTop(top, xs, n)
  {
    var rest := sorted[|top|..];
    BackIsLeftOver(sorted, |top|);
    assert sorted[..|top|] == top;
    assert LeftOver(top, rest, xs);
  }

  lemma BackIsLeftOver<T(!new)>(sorted: seq<Sized<T>>, n: nat)
    requires Ordered(sorted, Larger()) && n <= |sorted|
    ensures Descending(sorted[..n]) && LeftOver(sorted[..n], sorted[n..], sorted)
  {
    var top, rest := sorted[..n], sorted[n..];
    assert sorted == top + rest;
    forall i, j | 0 <= i < n && 0 <= j < |rest| ensures top[i].size >= rest[j].size {
      assert Larger<T>()(sorted[i], sorted[n + j]);
    }
    forall i, j | 0 <= i < j < n ensures top[i].size >= top[j].size {
      assert Larger<T>()(sorted[i], sorted[j]);
    }
  }

  // ----- Listing one directory -----------------------------------------------------------------------

  /** Subdirectories the scan never looks at: pseudo filesystems and other mounts. */
  predicate Skipped(fs: Tree, d: nat, c: nat)
    requires d < |fs| && c < |fs|
  {
    || (d == 0 && PseudoFs(fs[c].name))
    || (fs[d].device.Some? && fs[c].device.Some? && fs[c].device != fs[d].device)
  }

  /** Directories that count as candidates but are not explored. */
  predicate NotRecursed(fs: Tree, c: nat)
    requires c < |fs|
  {
    fs[c].parent == 0 && StaticSystem(fs[c].name)
  }

  /** The subdirectories of d worth a node, and its regular files, up to entry n. */
  function ChildList(fs: Tree, d: nat, n: nat): seq<Sized<nat>>
    requires d < |fs| && n <= |fs[d].entries|
    requires forall i :: 0 <= i < n && fs[d].entries[i].SubDir? ==> fs[d].entries[i].dir < |fs|
  {
    if n == 0 then []
    else
      var before, e := ChildList(fs, d, n - 1), fs[d].entries[n - 1];
      if e.SubDir? && !Skipped(fs, d, e.dir) then before + [Sized(e.dir, SelfSize(fs[e.dir]))] else before
  }

  /** All subdirectories of d worth a node. */
  ghost function Children(fs: Tree, d: nat): seq<Sized<nat>>
    requires WellFormed(fs) && d < |fs|
  {
    ChildList(fs, d, |fs[d].entries|)
  }

  function FileList(fs: Tree, d: nat, n: nat): seq<Sized<(nat, nat)>>
    requires d < |fs| && n <= |fs[d].entries|
  {
    if n == 0 then []
    else
      var before, e := FileList(fs, d, n - 1), fs[d].entries[n - 1];
      if e.Regular? then before + [Sized((d, n - 1), e.size)] else before
  }

  /** The regular files the scan sees when it opens d, and when it opens several in turn. */
  function FilesIn(fs: Tree, d: nat): seq<Sized<(nat, nat)>>
    requires d < |fs|
  {
    if fs[d].readable then FileList(fs, d, |fs[d].entries|) else []
  }

  function FilesSeen(fs: Tree, order: seq<nat>): seq<Sized<(nat, nat)>>
    requires InTree(fs, order)
  {
    if order == [] then [] else FilesSeen(fs, order[..|order| - 1]) + FilesIn(fs, order[|order| - 1])
  }

  ghost predicate ChildrenOk(fs: Tree, d: nat, children: seq<Sized<nat>>)
    requires WellFormed(fs) && d < |fs|
  {
    && (forall i, j :: 0 <= i < j < |children| ==> children[i].id != children[j].id)
    && (forall i :: 0 <= i < |children| ==> (
          && 0 < children[i].id < |fs|
          && fs[children[i].id].parent == d
          && children[i].size == SelfSize(fs[children[i].id])))
  }

  /** Child k stands at some entry below n. */
  lemma {:induction false} ChildEntry(fs: Tree, d: nat, n: nat, k: nat) returns (i: nat)
    requires WellFormed(fs) && d < |fs| && n <= |fs[d].entries| && k < |ChildList(fs, d, n)|
    ensures i < n && fs[d].entries[i] == SubDir(ChildList(fs, d, n)[k].id)
  {
    if k < |ChildList(fs, d, n - 1)| {
      i := ChildEntry(fs, d, n - 1, k);
    } else {
      i := n - 1;
    }
  }

  lemma {:induction false} ChildListOk(fs: Tree, d: nat, n: nat)
    requires WellFormed(fs) && d < |fs| && n <= |fs[d].entries|
    ensures ChildrenOk(fs, d, ChildList(fs, d, n))
  {
    if n > 0 {
      ChildListOk(fs, d, n - 1);
      var before, e := ChildList(fs, d, n - 1), fs[d].entries[n - 1];
      forall k | 0 <= k < |before| ensures e != SubDir(before[k].id) {
        var i := ChildEntry(fs, d, n - 1, k);
        assert fs[d].entries[i] != fs[d].entries[n - 1];
      }
    }
  }

  lemma {:induction false} ChildListComplete(fs: Tree, d: nat, n: nat, i: nat)
    requires WellFormed(fs) && d < |fs| && i < n <= |fs[d].entries|
    requires fs[d].entries[i].SubDir? && !Skipped(fs, d, fs[d].entries[i].dir)
    ensures Sized(fs[d].entries[i].dir, SelfSize(fs[fs[d].entries[i].dir])) in ChildList(fs, d, n)
  {
    if i < n - 1 { ChildListComplete(fs, d, n - 1, i); }
  }

  /** readCount is the number of directories read along the way, one for each child that gets a node. */
  method ListDir(fs: Tree, d: nat)
    returns (children: seq<Sized<nat>>, files: seq<Sized<(nat, nat)>>, readCount: nat)
    requires WellFormed(fs) && d < |fs|
    ensures children == Children(fs, d)
    ensures files == FileList(fs, d, |fs[d].entries|)
    ensures readCount == |children|
  {
    children, files, readCount := [], [], 0;
    for i := 0 to |fs[d].entries|
      invariant children == ChildList(fs, d, i) && readCount == |children|
      invariant files == FileList(fs, d, i)
    {
      match fs[d].entries[i]
      case SubDir(c) =>
        if !Skipped(fs, d, c) {
          var size := DirSelfSize(fs[c]);
          children, readCount := children + [Sized(c, size)], readCount + 1;
        }
      case Regular(size) => files := files + [Sized((d, i), size)];
      case Special =>
    }
  }

  /** A directory with very many subdirectories keeps the largest ones only. */
  method CapChildren(fs: Tree, d: nat, children: seq<Sized<nat>>) returns (kept: seq<Sized<nat>>)
    requires WellFormed(fs) && d < |fs| && ChildrenOk(fs, d, children)
    ensures ChildrenOk(fs, d, kept) && |kept| <= MAX_CHILDREN
    ensures |children| <= MAX_CHILDREN ==> kept == children
    ensures |children| > MAX_CHILDREN ==> IsTop(kept, children, MAX_CHILDREN)
  {
    kept := children;
    if |children| > MAX_CHILDREN {
      kept := TopN(children, MAX_CHILDREN);
      assert multiset(kept) <= multiset(children);
      forall i | 0 <= i < |kept| ensures kept[i] in children { assert kept[i] in multiset(kept); }
      forall i, j | 0 <= i < j < |kept| ensures kept[i].id != kept[j].id {
        if kept[i].id == kept[j].id {
          CountsTwice(kept, i, j);
          CountsOnce(children, kept[i]);
        }
      }
    }
  }

  // ----- Two FIFO queues: the reference for the exploration order --------------------------------------

  datatype TwoQueues = TwoQueues(hi: seq<nat>, lo: seq<nat>)

  /** The promoted queue is served first. */
  ghost predicate Serves(q: TwoQueues, d: nat) {
    if q.hi != [] then q.hi[0] == d else q.lo != [] && q.lo[0] == d
  }

  ghost function Served(q: TwoQueues): TwoQueues {
    if q.hi != [] then q.(hi := q.hi[1..]) else if q.lo != [] then q.(lo := q.lo[1..]) else q
  }

  /** The queues after |batches| explorations, the i-th of which queued batches[i]. */
  ghost function QueuesAfter(fs: Tree, batches: seq<seq<nat>>): TwoQueues
    requires forall i :: 0 <= i < |batches| ==> InTree(fs, batches[i])
  {
    if batches == [] then TwoQueues([], [0])
    else
      var q := Served(QueuesAfter(fs, batches[..|batches| - 1]));
      var batch := batches[|batches| - 1];
      TwoQueues(q.hi + Pick(fs, batch, true), q.lo + Pick(fs, batch, false))
  }

  /** Directories were explored in the order two FIFO queues would serve them. */
  ghost predicate FollowsQueues(fs: Tree, order: seq<nat>, batches: seq<seq<nat>>) {
    && |order| == |batches|
    && (forall i :: 0 <= i < |batches| ==> InTree(fs, batches[i]))
    && (forall i :: 0 <= i < |order| ==> Serves(QueuesAfter(fs, batches[..i]), order[i]))
  }

  lemma {:induction false} PickUniform(fs: Tree, xs: seq<nat>, promoted: bool)
    requires InTree(fs, xs) && forall i :: 0 <= i < |xs| ==> (InitialTotal(fs, xs[i]) >= PROMOTE) == promoted
    ensures Pick(fs, xs, promoted) == xs && Pick(fs, xs, !promoted) == []
  {
    if xs != [] {
      var n := |xs| - 1;
      PickUniform(fs, xs[..n], promoted);
      assert (InitialTotal(fs, xs[n]) >= PROMOTE) == promoted;
      assert xs == xs[..n] + [xs[n]];
    }
  }

  lemma PickSorted(fs: Tree, hi: seq<nat>, lo: seq<nat>)
    requires Partitioned(fs, hi, lo)
    ensures InTree(fs, hi + lo) && Pick(fs, hi + lo, true) == hi && Pick(fs, hi + lo, false) == lo
  {
    PickConcat(fs, hi, lo, true);
    PickConcat(fs, hi, lo, false);
    PickUniform(fs, hi, true);
    PickUniform(fs, lo, false);
  }

  /** Taking the front of the sorted slice is serving the two queues. */
  lemma FrontOfSorted(fs: Tree, hi: seq<nat>, lo: seq<nat>, rest: seq<nat>)
    requires Partitioned(fs, hi, lo) && hi + lo != [] && rest == (hi + lo)[1..]
    ensures Serves(TwoQueues(hi, lo), (hi + lo)[0])
    ensures InTree(fs, rest) && Served(TwoQueues(hi, lo)) == TwoQueues(Pick(fs, rest, true), Pick(fs, rest, false))
  {
    if hi != [] {
      assert rest == hi[1..] + lo;
      PickSorted(fs, hi[1..], lo);
    } else {
      assert rest == hi + lo[1..];
      PickSorted(fs, hi, lo[1..]);
    }
  }

  lemma {:induction false} PickMembers(fs: Tree, xs: seq<nat>, x: nat)
    requires InTree(fs, xs)
    ensures x in xs <==> x in Pick(fs, xs, true) || x in Pick(fs, xs, false)
  {
    if xs != [] {
      PickMembers(fs, xs[..|xs| - 1], x);
      assert xs == xs[..|xs| - 1] + [xs[|xs| - 1]];
    }
  }

  lemma {:induction false} PickDistinct(fs: Tree, xs: seq<nat>, promoted: bool)
    requires InTree(fs, xs) && Distinct(xs)
    ensures Distinct(Pick(fs, xs, promoted))
  {
    if xs != [] {
      var init, x := xs[..|xs| - 1], xs[|xs| - 1];
      PickDistinct(fs, init, promoted);
      PickMembers(fs, init, x);
    }
  }

  /** Sorting loses and repeats nothing. */
  lemma SortedIsPermutation(fs: Tree, queue: seq<nat>)
    requires InTree(fs, queue) && Distinct(queue)
    ensures Distinct(Pick(fs, queue, true) + Pick(fs, queue, false))
    ensures forall x :: x in Pick(fs, queue, true) + Pick(fs, queue, false) <==> x in queue
  {
    var hi, lo := Pick(fs, queue, true), Pick(fs, queue, false);
    PickPartitions(fs, queue);
    PickDistinct(fs, queue, true);
    PickDistinct(fs, queue, false);
    forall i, j | 0 <= i < j < |hi + lo| ensures (hi + lo)[i] != (hi + lo)[j] {
      if i < |hi| <= j {
        assert InitialTotal(fs, hi[i]) >= PROMOTE > InitialTotal(fs, lo[j - |hi|]);
      }
    }
    forall x ensures x in hi + lo <==> x in queue { PickMembers(fs, queue, x); }
  }

  // ----- The scan itself --------------------------------------------------------------------------------

  ghost function Elems(xs: seq<nat>): set<nat> {
    set x | x in xs
  }

  /** Every subdirectory of d that is not skipped is a candidate, unless the cap cut some. */
  ghost predicate CompleteAt(fs: Tree, d: nat, candidates: seq<nat>)
    requires WellFormed(fs)
  {
    d < |fs| && fs[d].readable && |Children(fs, d)| <= MAX_CHILDREN ==>
      forall i :: 0 <= i < |fs[d].entries| && fs[d].entries[i].SubDir? && !Skipped(fs, d, fs[d].entries[i].dir) ==>
        fs[d].entries[i].dir in candidates
  }

  function Ids(xs: seq<Sized<nat>>): (ids: seq<nat>)
    ensures |ids| == |xs| && forall i :: 0 <= i < |xs| ==> ids[i] == xs[i].id
  {
    seq(|xs|, i requires 0 <= i < |xs| => xs[i].id)
  }

  /** What exploring d keeps: all its children, or the largest ones of too many. */
  ghost predicate KeptAt(fs: Tree, d: nat, kids: seq<nat>)
    requires WellFormed(fs)
  {
    d < |fs| &&
    if !fs[d].readable then kids == []
    else if |Children(fs, d)| <= MAX_CHILDREN then kids == Ids(Children(fs, d))
    else exists largest: seq<Sized<nat>> ::
           IsTop(largest, Children(fs, d), MAX_CHILDREN) && kids == Ids(largest)
  }

  /** Children that are queued: all but the static system directories under the root. */
  function Recursed(fs: Tree, kids: seq<nat>): seq<nat>
    requires InTree(fs, kids)
  {
    if kids == [] then []
    else
      var c := kids[|kids| - 1];
      Recursed(fs, kids[..|kids| - 1]) + (if NotRecursed(fs, c) then [] else [c])
  }

  lemma {:induction false} RecursedMembers(fs: Tree, kids: seq<nat>, x: nat)
    requires InTree(fs, kids)
    ensures x in Recursed(fs, kids) <==> x in kids && !NotRecursed(fs, x)
  {
    if kids != [] {
      RecursedMembers(fs, kids[..|kids| - 1], x);
      assert kids == kids[..|kids| - 1] + [kids[|kids| - 1]];
    }
  }

  lemma {:induction false} RecursedDistinct(fs: Tree, kids: seq<nat>)
    requires InTree(fs, kids) && Distinct(kids)
    ensures Distinct(Recursed(fs, kids)) && InTree(fs, Recursed(fs, kids))
  {
    if kids != [] {
      RecursedDistinct(fs, kids[..|kids| - 1]);
      RecursedMembers(fs, kids[..|kids| - 1], kids[|kids| - 1]);
    }
  }

  ghost predicate NewKids(fs: Tree, cur: nat, candidates: seq<nat>, kids: seq<nat>) {
    && Distinct(kids)
    && InTree(fs, kids)
    && (forall i :: 0 <= i < |kids| ==> 0 < kids[i] && fs[kids[i]].parent == cur && kids[i] !in candidates)
  }

  /** Keep one more child: record it, propagate its size upward. */
  method KeepChild(fs: Tree, total: map<nat, nat>, kept: seq<nat>, ghost seen: set<nat>, child: Sized<nat>)
    returns (updated: map<nat, nat>)
    requires WellFormed(fs) && ScanOk(fs, total, Elems(kept), seen)
    requires 0 < child.id < |fs| && child.id !in kept && fs[child.id].parent in seen &&
        child.size == SelfSize(fs[child.id])
    ensures ScanOk(fs, updated, Elems(kept + [child.id]), seen)
  {
    var c := child.id;
    ChildIsRooted(fs, total, Elems(kept), seen, c);
    updated := Propagate(fs, total[c := child.size], fs[c].parent, child.size);
    AddChildKeepsScan(fs, total, Elems(kept), seen, c, updated);
    assert Elems(kept + [c]) == Elems(kept) + {c};
  }

  lemma OneMoreKid(fs: Tree, cur: nat, candidates: seq<nat>, kids: seq<nat>, c: nat)
    requires NewKids(fs, cur, candidates, kids) && 0 < c < |fs| && fs[c].parent == cur && c !in candidates && c !in kids
    ensures NewKids(fs, cur, candidates, kids + [c])
    ensures Recursed(fs, kids + [c]) == Recursed(fs, kids) + (if NotRecursed(fs, c) then [] else [c])
  {
    assert (kids + [c])[..|kids|] == kids;
  }

  ghost predicate FirstIds(children: seq<Sized<nat>>, kids: seq<nat>) {
    |kids| <= |children| && forall k :: 0 <= k < |kids| ==> kids[k] == children[k].id
  }

  lemma OneMoreId(children: seq<Sized<nat>>, kids: seq<nat>)
    requires FirstIds(children, kids) && |kids| < |children|
    ensures FirstIds(children, kids + [children[|kids|].id])
  {}

  lemma Regroup(xs: seq<nat>, ys: seq<nat>, z: nat)
    ensures xs + ys + [z] == xs + (ys + [z])
  {}

  method KeepChildren(fs: Tree, cur: nat, total: map<nat, nat>, candidates: seq<nat>, ghost seen: set<nat>,
                      children: seq<Sized<nat>>)
    returns (updated: map<nat, nat>, kids: seq<nat>, queued: seq<nat>)
    requires WellFormed(fs) && ScanOk(fs, total, Elems(candidates), seen) && cur in seen && cur < |fs|
    requires ChildrenOk(fs, cur, children)
    requires forall i :: 0 <= i < |children| ==> children[i].id !in candidates
    ensures kids == Ids(children)
    ensures NewKids(fs, cur, candidates, kids) && queued == Recursed(fs, kids)
    ensures ScanOk(fs, updated, Elems(candidates + kids), seen)
  {
    updated, kids, queued := total, [], [];
    assert candidates + kids == candidates;
    for i := 0 to |children|
      invariant |kids| == i && FirstIds(children, kids)
      invariant NewKids(fs, cur, candidates, kids) && queued == Recursed(fs, kids)
      invariant ScanOk(fs, updated, Elems(candidates + kids), seen)
    {
      var c := children[i].id;
      assert c !in kids && c !in candidates;
      updated := KeepChild(fs, updated, candidates + kids, seen, children[i]);
      Regroup(candidates, kids, c);
      OneMoreKid(fs, cur, candidates, kids, c);
      OneMoreId(children, kids);
      kids := kids + [c];
      if !NotRecursed(fs, c) {
        queued := queued + [c];
      }
    }
  }

  lemma AllKept(fs: Tree, cur: nat, kids: seq<nat>)
    requires WellFormed(fs) && KeptAt(fs, cur, kids)
    requires fs[cur].readable && |Children(fs, cur)| <= MAX_CHILDREN
    ensures CompleteAt(fs, cur, kids)
  {
    var all := Children(fs, cur);
    forall i | 0 <= i < |fs[cur].entries| && fs[cur].entries[i].SubDir? && !Skipped(fs, cur, fs[cur].entries[i].dir)
      ensures fs[cur].entries[i].dir in kids
    {
      ChildListComplete(fs, cur, |fs[cur].entries|, i);
      var k :| 0 <= k < |all| && all[k] == Sized(fs[cur].entries[i].dir, SelfSize(fs[fs[cur].entries[i].dir]));
      assert kids[k] == fs[cur].entries[i].dir;
    }
  }

  /** What one turn of the scan does with directory cur. */
  method Explore(fs: Tree, cur: nat, total: map<nat, nat>, candidates: seq<nat>, ghost seen: set<nat>)
    returns (updated: map<nat, nat>, kids: seq<nat>, queued: seq<nat>, files: seq<Sized<(nat, nat)>>, readCount: nat)
    requires WellFormed(fs) && ScanOk(fs, total, Elems(candidates), seen) && cur in seen && cur < |fs|
    requires forall i :: 0 <= i < |candidates| ==> candidates[i] < |fs| && fs[candidates[i]].parent != cur
    ensures NewKids(fs, cur, candidates, kids) && queued == Recursed(fs, kids) && |kids| <= MAX_CHILDREN
    ensures ScanOk(fs, updated, Elems(candidates + kids), seen)
    ensures KeptAt(fs, cur, kids)
    ensures files == FilesIn(fs, cur) && readCount == ReadsAt(fs, cur)
  {
    updated, kids, queued, files, readCount := total, [], [], [], 1;
    assert candidates + kids == candidates;
    if !fs[cur].readable { return; }
    var children, more;
    children, files, more := ListDir(fs, cur);
    readCount := readCount + more;
    ChildListOk(fs, cur, |fs[cur].entries|);
    var capped := CapChildren(fs, cur, children);
    updated, kids, queued := KeepChildren(fs, cur, total, candidates, seen, capped);
  }

  /** Directories read while exploring d: itself and, to size them, its children. */
  ghost function ReadsAt(fs: Tree, d: nat): nat
    requires WellFormed(fs) && d < |fs|
  {
    if fs[d].readable then 1 + |Children(fs, d)| else 1
  }

  ghost function ReadsFor(fs: Tree, order: seq<nat>): nat
    requires WellFormed(fs) && InTree(fs, order)
  {
    if order == [] then 0 else ReadsFor(fs, order[..|order| - 1]) + ReadsAt(fs, order[|order| - 1])
  }

  /** The list of work: distinct, discovered and not explored yet. */
  ghost predicate QueueOk(fs: Tree, total: map<nat, nat>, queue: seq<nat>, order: seq<nat>) {
    && Distinct(queue) && InTree(fs, queue)
    && (forall x :: x in queue ==> x in total && x !in order)
  }

  /** Every candidate is waiting, explored or deliberately left alone. */
  ghost predicate Frontier(fs: Tree, candidates: seq<nat>, queue: seq<nat>, order: seq<nat>) {
    && (0 in queue || 0 in order)
    && (forall x :: x in candidates ==> x < |fs| && (x in queue || x in order || NotRecursed(fs, x)))
  }

  ghost predicate AllComplete(fs: Tree, candidates: seq<nat>, order: seq<nat>)
    requires WellFormed(fs)
  {
    forall d :: d in order ==> CompleteAt(fs, d, candidates)
  }

  function Flat(turns: seq<seq<nat>>): seq<nat> {
    if turns == [] then [] else Flat(turns[..|turns| - 1]) + turns[|turns| - 1]
  }

  /** Turn i explored order[i], kept turns[i] of its children and queued batches[i] of those. */
  ghost predicate HistoryOk(fs: Tree, candidates: seq<nat>, order: seq<nat>, turns: seq<seq<nat>>,
                            batches: seq<seq<nat>>)
    requires WellFormed(fs)
  {
    && |turns| == |order| == |batches| && candidates == Flat(turns)
    && (forall i :: 0 <= i < |order| ==> TurnOk(fs, order[i], turns[i], batches[i]))
  }

  ghost predicate TurnOk(fs: Tree, d: nat, kids: seq<nat>, batch: seq<nat>)
    requires WellFormed(fs)
  {
    KeptAt(fs, d, kids) && InTree(fs, kids) && batch == Recursed(fs, kids)
  }

  lemma HistoryStep(fs: Tree, candidates: seq<nat>, order: seq<nat>, turns: seq<seq<nat>>, batches: seq<seq<nat>>,
                    cur: nat, kids: seq<nat>, batch: seq<nat>)
    requires WellFormed(fs) && HistoryOk(fs, candidates, order, turns, batches) && TurnOk(fs, cur, kids, batch)
    ensures HistoryOk(fs, candidates + kids, order + [cur], turns + [kids], batches + [batch])
  {
    assert (turns + [kids])[..|turns|] == turns;
  }

  ghost predicate QueuesMatch(fs: Tree, queue: seq<nat>, order: seq<nat>, batches: seq<seq<nat>>)
    requires InTree(fs, queue)
  {
    FollowsQueues(fs, order, batches) &&
        QueuesAfter(fs, batches) == TwoQueues(Pick(fs, queue, true), Pick(fs, queue, false))
  }

  lemma QueuedTotals(fs: Tree, total: map<nat, nat>, candidates: seq<nat>, order: seq<nat>, queue: seq<nat>)
    requires WellFormed(fs) && ScanOk(fs, total, Elems(candidates), Elems(order)) && QueueOk(fs, total, queue, order)
    requires 0 !in order ==> candidates == []
    ensures forall i :: 0 <= i < |queue| ==> queue[i] in total && total[queue[i]] == InitialTotal(fs, queue[i])
  {
    forall i | 0 <= i < |queue| ensures queue[i] in total && total[queue[i]] == InitialTotal(fs, queue[i]) {
      var q := queue[i];
      assert q in queue;
      if q == 0 {
        KeptNothing(fs, 0, |fs|);
        assert Elems(candidates) == {};
      } else {
        UnopenedTotalIsInitial(fs, total, Elems(candidates), Elems(order), q);
      }
    }
  }

  lemma {:induction false} KeptNothing(fs: Tree, d: nat, n: nat)
    requires WellFormed(fs) && n <= |fs|
    ensures KeptBelow(fs, {}, d, n) == 0
  {
    if n > 0 { KeptNothing(fs, d, n - 1); }
  }

  lemma PopKeepsQueue(fs: Tree, total: map<nat, nat>, queue: seq<nat>, order: seq<nat>, sorted: seq<nat>)
    requires QueueOk(fs, total, queue, order) && Distinct(sorted) && sorted != []
    requires forall x :: x in sorted <==> x in queue
    ensures sorted[0] in queue && sorted[0] < |fs|
    ensures QueueOk(fs, total, sorted[1..], order + [sorted[0]])
    ensures forall x :: x in queue <==> x == sorted[0] || x in sorted[1..]
  {
    assert sorted == [sorted[0]] + sorted[1..];
    assert sorted[0] in sorted;
    assert sorted[0] !in sorted[1..];
    forall i | 0 <= i < |sorted[1..]| ensures sorted[1..][i] < |fs| { assert sorted[1..][i] in sorted; }
  }

  /** Taking the next directory off the sorted slice. */
  lemma PopFacts(fs: Tree, total: map<nat, nat>, queue: seq<nat>, order: seq<nat>, batches: seq<seq<nat>>,
                 sorted: seq<nat>)
    requires QueueOk(fs, total, queue, order) && queue != [] && QueuesMatch(fs, queue, order, batches)
    requires sorted == Pick(fs, queue, true) + Pick(fs, queue, false)
    ensures sorted != [] && sorted[0] in queue && sorted[0] < |fs|
    ensures QueueOk(fs, total, sorted[1..], order + [sorted[0]])
    ensures forall x :: x in queue <==> x == sorted[0] || x in sorted[1..]
    ensures Serves(QueuesAfter(fs, batches), sorted[0])
    ensures Served(QueuesAfter(fs, batches)) == TwoQueues(Pick(fs, sorted[1..], true), Pick(fs, sorted[1..], false))
  {
    SortedIsPermutation(fs, queue);
    assert queue[0] in sorted;
    PickPartitions(fs, queue);
    PopKeepsQueue(fs, total, queue, order, sorted);
    FrontOfSorted(fs, Pick(fs, queue, true), Pick(fs, queue, false), sorted[1..]);
  }

  lemma PushKeepsMatch(fs: Tree, batches: seq<seq<nat>>, rest: seq<nat>, batch: seq<nat>, order: seq<nat>, cur: nat)
    requires FollowsQueues(fs, order, batches) && InTree(fs, rest) && InTree(fs, batch)
    requires Serves(QueuesAfter(fs, batches), cur)
    requires Served(QueuesAfter(fs, batches)) == TwoQueues(Pick(fs, rest, true), Pick(fs, rest, false))
    ensures InTree(fs, rest + batch) && QueuesMatch(fs, rest + batch, order + [cur], batches + [batch])
  {
    var bs := batches + [batch];
    assert bs[..|batches|] == batches;
    PickConcat(fs, rest, batch, true);
    PickConcat(fs, rest, batch, false);
    FollowsOneMore(fs, batches, batch, order, cur);
  }

  lemma FollowsOneMore(fs: Tree, batches: seq<seq<nat>>, batch: seq<nat>, order: seq<nat>, cur: nat)
    requires FollowsQueues(fs, order, batches) && InTree(fs, batch)
    requires Serves(QueuesAfter(fs, batches), cur)
    ensures FollowsQueues(fs, order + [cur], batches + [batch])
  {
    var bs := batches + [batch];
    assert bs[..|batches|] == batches;
    forall i | 0 <= i < |order + [cur]| ensures Serves(QueuesAfter(fs, bs[..i]), (order + [cur])[i]) {
      if i < |order| { assert bs[..i] == batches[..i]; }
    }
  }

  lemma PushKeepsQueue(fs: Tree, total: map<nat, nat>, updated: map<nat, nat>, rest: seq<nat>, order: seq<nat>,
                       candidates: seq<nat>, kids: seq<nat>, cur: nat)
    requires WellFormed(fs) && ScanOk(fs, total, Elems(candidates), Elems(order))
    requires updated.Keys == Elems(candidates + kids) + {0}
    requires QueueOk(fs, total, rest, order) && NewKids(fs, cur, candidates, kids)
    ensures QueueOk(fs, updated, rest + Recursed(fs, kids), order)
  {
    var batch := Recursed(fs, kids);
    RecursedDistinct(fs, kids);
    forall x ensures x in batch ==> x in updated && x !in order && x !in rest {
      RecursedMembers(fs, kids, x);
      if x in batch {
        assert x in kids && x !in candidates && x != 0;
        assert x in Elems(candidates + kids);
        assert x !in Elems(candidates);
      }
    }
    forall x | x in rest ensures x in updated {
      assert x in Elems(candidates) || x == 0;
    }
    forall i, j | 0 <= i < j < |rest + batch| ensures (rest + batch)[i] != (rest + batch)[j] {
      if i < |rest| <= j { assert (rest + batch)[j] in batch; }
    }
  }

  lemma PushKeepsFrontier(fs: Tree, candidates: seq<nat>, queue: seq<nat>, rest: seq<nat>, order: seq<nat>,
                          cur: nat, kids: seq<nat>)
    requires Frontier(fs, candidates, queue, order) && NewKids(fs, cur, candidates, kids)
    requires forall x :: x in queue <==> x == cur || x in rest
    ensures Frontier(fs, candidates + kids, rest + Recursed(fs, kids), order + [cur])
  {
    forall x | x in candidates + kids
      ensures x < |fs| && (x in rest + Recursed(fs, kids) || x in order + [cur] || NotRecursed(fs, x))
    {
      RecursedMembers(fs, kids, x);
    }
  }

  /** The variables of the scan loop; order, turns and batches are history. */
  datatype Work = Work(
    total: map<nat, nat>, candidates: seq<nat>, queue: seq<nat>,
    order: seq<nat>, turns: seq<seq<nat>>, batches: seq<seq<nat>>)

  ghost predicate TotalsOk(fs: Tree, w: Work)
    requires WellFormed(fs)
  {
    ScanOk(fs, w.total, Elems(w.candidates), Elems(w.order)) && CandidatesOk(fs, w)
  }

  ghost predicate CandidatesOk(fs: Tree, w: Work) {
    && Distinct(w.candidates) && |w.candidates| <= MAX_CHILDREN * |w.order|
    && Distinct(w.order) && InTree(fs, w.order)
    && (0 !in w.order ==> w.candidates == [])
  }

  ghost predicate ListsOk(fs: Tree, w: Work)
    requires WellFormed(fs)
  {
    && QueueOk(fs, w.total, w.queue, w.order)
    && QueuesMatch(fs, w.queue, w.order, w.batches)
    && HistoryOk(fs, w.candidates, w.order, w.turns, w.batches)
    && Frontier(fs, w.candidates, w.queue, w.order)
    && AllComplete(fs, w.candidates, w.order)
  }

  /** The invariant of the scan loop. */
  ghost predicate LoopOk(fs: Tree, w: Work)
    requires WellFormed(fs)
  {
    TotalsOk(fs, w) && ListsOk(fs, w)
  }

  function Start(): Work { Work(map[0 := 0], [], [0], [], [], []) }

  lemma StartTotals(fs: Tree)
    requires WellFormed(fs)
    ensures TotalsOk(fs, Start())
  {
    KeptNothing(fs, 0, |fs|);
    assert Elems([]) == {};
  }

  lemma StartLists(fs: Tree)
    requires WellFormed(fs)
    ensures ListsOk(fs, Start())
  {
    StartQueues(fs, [0], []);
    assert QueueOk(fs, Start().total, [0], []);
  }

  lemma StartQueues(fs: Tree, root: seq<nat>, none: seq<nat>)
    requires WellFormed(fs) && root == [0] && none == []
    ensures InTree(fs, root) && QueuesMatch(fs, root, none, [])
  {
    PickUniform(fs, root, false);
  }

  /** cur has no kept children yet, so exploring it is sound. */
  lemma ReadyToExplore(fs: Tree, total: map<nat, nat>, candidates: seq<nat>, order: seq<nat>, cur: nat)
    requires WellFormed(fs) && ScanOk(fs, total, Elems(candidates), Elems(order)) && cur in total && cur !in order
    ensures ScanOk(fs, total, Elems(candidates), Elems(order + [cur])) && cur in Elems(order + [cur])
    ensures forall i :: 0 <= i < |candidates| ==> candidates[i] < |fs| && fs[candidates[i]].parent != cur
  {
    assert Elems(order + [cur]) == Elems(order) + {cur};
    forall i | 0 <= i < |candidates| ensures candidates[i] < |fs| && fs[candidates[i]].parent != cur {
      assert candidates[i] in Elems(candidates);
    }
  }

  lemma MoreComplete(fs: Tree, candidates: seq<nat>, kids: seq<nat>, order: seq<nat>, cur: nat)
    requires WellFormed(fs) && AllComplete(fs, candidates, order) && CompleteAt(fs, cur, kids)
    ensures AllComplete(fs, candidates + kids, order + [cur])
  {}

  lemma MoreCandidates(fs: Tree, candidates: seq<nat>, kids: seq<nat>, cur: nat)
    requires Distinct(candidates) && NewKids(fs, cur, candidates, kids)
    ensures Distinct(candidates + kids)
  {
    forall i, j | 0 <= i < j < |candidates + kids| ensures (candidates + kids)[i] != (candidates + kids)[j] {
      if i < |candidates| <= j { assert kids[j - |candidates|] !in candidates; }
    }
  }

  /** One turn: sort, take the front cur, explore it, queue its children. */
  ghost predicate Turn(fs: Tree, w: Work, w': Work, cur: nat, rest: seq<nat>, kids: seq<nat>)
    requires WellFormed(fs)
  {
    && InTree(fs, w.queue) && w.queue != []
    && [cur] + rest == Pick(fs, w.queue, true) + Pick(fs, w.queue, false)
    && NewKids(fs, cur, w.candidates, kids) && |kids| <= MAX_CHILDREN
    && KeptAt(fs, cur, kids)
    && w'.total.Keys == Elems(w'.candidates) + {0}
    && w'.queue == rest + Recursed(fs, kids)
    && w'.candidates == w.candidates + kids
    && w'.order == w.order + [cur]
    && w'.turns == w.turns + [kids]
    && w'.batches == w.batches + [Recursed(fs, kids)]
  }

  lemma TurnPops(fs: Tree, w: Work, w': Work, cur: nat, rest: seq<nat>, kids: seq<nat>)
    requires WellFormed(fs) && ListsOk(fs, w) && Turn(fs, w, w', cur, rest, kids)
    ensures cur in w.total && cur !in w.order && cur < |fs|
    ensures QueueOk(fs, w.total, rest, w'.order)
    ensures forall x :: x in w.queue <==> x == cur || x in rest
    ensures Serves(QueuesAfter(fs, w.batches), cur)
    ensures Served(QueuesAfter(fs, w.batches)) == TwoQueues(Pick(fs, rest, true), Pick(fs, rest, false))
  {
    var sorted := Pick(fs, w.queue, true) + Pick(fs, w.queue, false);
    assert sorted[0] == cur && sorted[1..] == rest;
    PopFacts(fs, w.total, w.queue, w.order, w.batches, sorted);
  }

  lemma TurnKeepsCandidates(fs: Tree, w: Work, w': Work, cur: nat, rest: seq<nat>, kids: seq<nat>)
    requires WellFormed(fs) && TotalsOk(fs, w) && Turn(fs, w, w', cur, rest, kids)
    requires cur in w.total && cur !in w.order && cur < |fs|
    ensures CandidatesOk(fs, w')
  {
    MoreCandidates(fs, w.candidates, kids, cur);
    assert cur in Elems(w.candidates) || cur == 0;
  }

  lemma TurnKeepsQueue(fs: Tree, w: Work, w': Work, cur: nat, rest: seq<nat>, kids: seq<nat>)
    requires WellFormed(fs) && TotalsOk(fs, w) && ListsOk(fs, w) && Turn(fs, w, w', cur, rest, kids)
    ensures QueueOk(fs, w'.total, w'.queue, w'.order)
  {
    TurnPops(fs, w, w', cur, rest, kids);
    ReadyToExplore(fs, w.total, w.candidates, w.order, cur);
    PushKeepsQueue(fs, w.total, w'.total, rest, w'.order, w.candidates, kids, cur);
  }

  lemma TurnKeepsMatch(fs: Tree, w: Work, w': Work, cur: nat, rest: seq<nat>, kids: seq<nat>)
    requires WellFormed(fs) && ListsOk(fs, w) && Turn(fs, w, w', cur, rest, kids)
    ensures InTree(fs, w'.queue) && QueuesMatch(fs, w'.queue, w'.order, w'.batches)
  {
    TurnPops(fs, w, w', cur, rest, kids);
    RecursedDistinct(fs, kids);
    PushKeepsMatch(fs, w.batches, rest, Recursed(fs, kids), w.order, cur);
  }

  lemma TurnKeepsFrontier(fs: Tree, w: Work, w': Work, cur: nat, rest: seq<nat>, kids: seq<nat>)
    requires WellFormed(fs) && ListsOk(fs, w) && Turn(fs, w, w', cur, rest, kids)
    ensures Frontier(fs, w'.candidates, w'.queue, w'.order) && AllComplete(fs, w'.candidates, w'.order)
  {
    TurnPops(fs, w, w', cur, rest, kids);
    PushKeepsFrontier(fs, w.candidates, w.queue, rest, w.order, cur, kids);
    if fs[cur].readable && |Children(fs, cur)| <= MAX_CHILDREN { AllKept(fs, cur, kids); }
    MoreComplete(fs, w.candidates, kids, w.order, cur);
  }

  lemma TurnKeepsLoop(fs: Tree, w: Work, w': Work, cur: nat, rest: seq<nat>, kids: seq<nat>)
    requires WellFormed(fs) && TotalsOk(fs, w) && ListsOk(fs, w) && Turn(fs, w, w', cur, rest, kids)
    ensures CandidatesOk(fs, w') && ListsOk(fs, w')
  {
    assert cur in w.total && cur !in w.order && cur < |fs| by { TurnPops(fs, w, w', cur, rest, kids); }
    TurnKeepsCandidates(fs, w, w', cur, rest, kids);
    TurnKeepsQueue(fs, w, w', cur, rest, kids);
    TurnKeepsMatch(fs, w, w', cur, rest, kids);
    TurnKeepsFrontier(fs, w, w', cur, rest, kids);
    HistoryStep(fs, w.candidates, w.order, w.turns, w.batches, cur, kids, Recursed(fs, kids));
  }

  lemma ReadyToSort(fs: Tree, w: Work)
    requires WellFormed(fs) && TotalsOk(fs, w) && ListsOk(fs, w)
    ensures InTree(fs, w.queue)
    ensures forall i :: 0 <= i < |w.queue| ==>
        w.queue[i] in w.total && w.total[w.queue[i]] == InitialTotal(fs, w.queue[i])
  {
    QueuedTotals(fs, w.total, w.candidates, w.order, w.queue);
  }

  lemma HeadAndTail<T>(xs: seq<T>)
    requires xs != []
    ensures [xs[0]] + xs[1..] == xs
  {}

  lemma PoppedFront(fs: Tree, w: Work, sorted: seq<nat>)
    requires WellFormed(fs) && TotalsOk(fs, w) && ListsOk(fs, w) && w.queue != []
    requires sorted == Pick(fs, w.queue, true) + Pick(fs, w.queue, false)
    ensures sorted != [] && sorted[0] < |fs| && [sorted[0]] + sorted[1..] == sorted
    ensures ScanOk(fs, w.total, Elems(w.candidates), Elems(w.order + [sorted[0]])) &&
        sorted[0] in Elems(w.order + [sorted[0]])
    ensures forall i :: 0 <= i < |w.candidates| ==> w.candidates[i] < |fs| && fs[w.candidates[i]].parent != sorted[0]
  {
    PopFacts(fs, w.total, w.queue, w.order, w.batches, sorted);
    HeadAndTail(sorted);
    ReadyToExplore(fs, w.total, w.candidates, w.order, sorted[0]);
  }

  method OneTurn(fs: Tree, w: Work) returns (next: Work, found: seq<Sized<(nat, nat)>>, readCount: nat)
    requires WellFormed(fs) && LoopOk(fs, w) && w.queue != []
    ensures LoopOk(fs, next)
    ensures |next.order| == |w.order| + 1 && next.order[..|w.order|] == w.order
    ensures |next.turns| == |w.turns| + 1 && next.turns[..|w.turns|] == w.turns
    ensures found == FilesIn(fs, next.order[|w.order|]) && readCount == ReadsAt(fs, next.order[|w.order|])
  {
    assert InTree(fs, w.queue) && forall i :: 0 <= i < |w.queue| ==>
        w.queue[i] in w.total && w.total[w.queue[i]] == InitialTotal(fs, w.queue[i]) by {
      ReadyToSort(fs, w);
    }
    var sorted := PromoteSort(fs, w.queue, w.total);
    PoppedFront(fs, w, sorted);
    var cur: nat, rest: seq<nat> := sorted[0], sorted[1..];
    var updated, kids, queued;
    updated, kids, queued, found, readCount := Explore(fs, cur, w.total, w.candidates, Elems(w.order + [cur]));
    next := Work(updated, w.candidates + kids, rest + queued, w.order + [cur], w.turns + [kids], w.batches + [queued]);
    assert [cur] + rest == Pick(fs, w.queue, true) + Pick(fs, w.queue, false);
    TurnKeepsLoop(fs, w, next, cur, rest, kids);
  }

  lemma OneMoreExplored(fs: Tree, before: seq<nat>, order: seq<nat>)
    requires WellFormed(fs) && InTree(fs, before) && InTree(fs, order)
    requires |order| == |before| + 1 && order[..|before|] == before
    ensures FilesSeen(fs, order) == FilesSeen(fs, before) + FilesIn(fs, order[|before|])
    ensures ReadsFor(fs, order) == ReadsFor(fs, before) + ReadsAt(fs, order[|before|])
  {}

  /** The scan loop. It ends early only when the context is cancelled before some turn. */
  method Scan(fs: Tree, cancelAt: Option<nat>)
    returns (ok: bool, w: Work, files: seq<Sized<(nat, nat)>>, readCount: nat)
    requires WellFormed(fs)
    ensures LoopOk(fs, w)
    ensures |w.order| <= MAX_DIRS && files == FilesSeen(fs, w.order) && readCount == ReadsFor(fs, w.order)
    ensures if ok then w.queue == [] || |w.order| == MAX_DIRS else cancelAt == Some(|w.order|)
  {
    w, files, readCount := Start(), [], 0;
    StartTotals(fs);
    StartLists(fs);
    while |w.queue| > 0 && |w.order| < MAX_DIRS
      invariant |w.order| <= MAX_DIRS && InTree(fs, w.order) && files == FilesSeen(fs, w.order)
      invariant readCount == ReadsFor(fs, w.order)
      invariant LoopOk(fs, w)
      decreases MAX_DIRS - |w.order|
    {
      if cancelAt == Some(|w.order|) {
        return false, w, files, readCount;
      }
      var found, more;
      ghost var before := w.order;
      w, found, more := OneTurn(fs, w);
      OneMoreExplored(fs, before, w.order);
      files, readCount := files + found, readCount + more;
    }
    ok := true;
  }

  function SizedBy(xs: seq<nat>, total: map<nat, nat>): seq<Sized<nat>> {
    if xs == [] then []
    else
      var x := xs[|xs| - 1];
      SizedBy(xs[..|xs| - 1], total) + [Sized(x, if x in total then total[x] else 0)]
  }

  method SizeAll(xs: seq<nat>, total: map<nat, nat>) returns (sized: seq<Sized<nat>>)
    requires forall x :: x in xs ==> x in total
    ensures sized == SizedBy(xs, total)
  {
    sized := [];
    for i := 0 to |xs|
      invariant sized == SizedBy(xs[..i], total)
    {
      assert xs[..i + 1][..i] == xs[..i];
      sized := sized + [Sized(xs[i], total[xs[i]])];
    }
    assert xs[..|xs|] == xs;
  }

  // ----- What is reported ---------------------------------------------------------------------------

  /** File i of directory d is a regular file of this size in an explored, readable directory. */
  predicate IsSeen(fs: Tree, order: seq<nat>, f: Sized<(nat, nat)>) {
    var (d, i) := f.id;
    d in order && d < |fs| && fs[d].readable && i < |fs[d].entries| && fs[d].entries[i] == Regular(f.size)
  }

  lemma {:induction false} FileListMember(fs: Tree, d: nat, n: nat, f: Sized<(nat, nat)>)
    requires d < |fs| && n <= |fs[d].entries|
    ensures f in FileList(fs, d, n) <==> f.id.0 == d && f.id.1 < n && fs[d].entries[f.id.1] == Regular(f.size)
  {
    if n > 0 { FileListMember(fs, d, n - 1, f); }
  }

  lemma {:induction false} FileListDistinct(fs: Tree, d: nat, n: nat)
    requires d < |fs| && n <= |fs[d].entries|
    ensures Distinct(FileList(fs, d, n))
  {
    if n > 0 {
      FileListDistinct(fs, d, n - 1);
      FileListMember(fs, d, n - 1, Sized((d, n - 1), EntrySize(fs[d].entries[n - 1])));
      DistinctAppend(FileList(fs, d, n - 1), Sized((d, n - 1), EntrySize(fs[d].entries[n - 1])));
    }
  }

  /** Exactly the regular files of the readable explored directories are seen. */
  lemma {:induction false} FilesSeenMember(fs: Tree, order: seq<nat>, f: Sized<(nat, nat)>)
    requires InTree(fs, order)
    ensures f in FilesSeen(fs, order) <==> IsSeen(fs, order, f)
  {
    if order != [] {
      var n := |order| - 1;
      FilesSeenMember(fs, order[..n], f);
      FileListMember(fs, order[n], |fs[order[n]].entries|, f);
      assert order == order[..n] + [order[n]];
    }
  }

  /** Each of them once. */
  lemma {:induction false} FilesSeenDistinct(fs: Tree, order: seq<nat>)
    requires InTree(fs, order) && Distinct(order)
    ensures Distinct(FilesSeen(fs, order))
  {
    if order != [] {
      var n := |order| - 1;
      var before, now := FilesSeen(fs, order[..n]), FilesIn(fs, order[n]);
      FilesSeenDistinct(fs, order[..n]);
      FileListDistinct(fs, order[n], |fs[order[n]].entries|);
      forall f | f in before ensures f !in now {
        FilesSeenMember(fs, order[..n], f);
        FileListMember(fs, order[n], |fs[order[n]].entries|, f);
      }
      DistinctConcat(before, now);
    }
  }

  /** Exactly the candidates are ranked, each once and by its total. */
  lemma {:induction false} SizedByMember(xs: seq<nat>, total: map<nat, nat>, c: Sized<nat>)
    requires forall x :: x in xs ==> x in total
    ensures c in SizedBy(xs, total) <==> c.id in xs && total[c.id] == c.size
  {
    if xs != [] {
      var n := |xs| - 1;
      SizedByMember(xs[..n], total, c);
      assert xs == xs[..n] + [xs[n]];
    }
  }

  lemma {:induction false} SizedByDistinct(xs: seq<nat>, total: map<nat, nat>)
    requires Distinct(xs) && forall x :: x in xs ==> x in total
    ensures Distinct(SizedBy(xs, total))
  {
    if xs != [] {
      var n := |xs| - 1;
      SizedByDistinct(xs[..n], total);
      SizedByMember(xs[..n], total, Sized(xs[n], total[xs[n]]));
      DistinctAppend(SizedBy(xs[..n], total), Sized(xs[n], total[xs[n]]));
    }
  }

  /** What TopLargest ranks: the files seen and the candidates, each once. */
  ghost predicate Ranked(fs: Tree, w: Work, dirs: seq<Sized<nat>>, files: seq<Sized<(nat, nat)>>) {
    && Distinct(files) && (forall f :: f in files <==> IsSeen(fs, w.order, f))
    && Distinct(dirs) && (forall c :: c in dirs <==> c.id in w.candidates && c.id in w.total && w.total[c.id] == c.size)
  }

  lemma RankedOk(fs: Tree, w: Work)
    requires WellFormed(fs) && TotalsOk(fs, w)
    ensures Ranked(fs, w, SizedBy(w.candidates, w.total), FilesSeen(fs, w.order))
  {
    CandidatesHaveTotals(fs, w);
    FilesSeenDistinct(fs, w.order);
    SizedByDistinct(w.candidates, w.total);
    forall f ensures f in FilesSeen(fs, w.order) <==> IsSeen(fs, w.order, f) { FilesSeenMember(fs, w.order, f); }
    forall c ensures c in SizedBy(w.candidates, w.total) <==> c.id in w.candidates && w.total[c.id] == c.size {
      SizedByMember(w.candidates, w.total, c);
    }
  }

  /** The answer is the top of everything there is to rank. */
  ghost predicate Answers(fs: Tree, w: Work, topN: nat, dirs: seq<Sized<nat>>, files: seq<Sized<(nat, nat)>>) {
    exists allDirs, allFiles ::
      Ranked(fs, w, allDirs, allFiles) && IsTop(dirs, allDirs, topN) && IsTop(files, allFiles, topN)
  }

  lemma CandidatesHaveTotals(fs: Tree, w: Work)
    requires WellFormed(fs) && TotalsOk(fs, w)
    ensures forall x :: x in w.candidates ==> x in w.total
  {
    forall x | x in w.candidates ensures x in w.total { assert x in Elems(w.candidates); }
  }

  /** TopLargest: the n largest candidates and the n largest files seen. */
  method TopLargest(fs: Tree, topN: nat, cancelAt: Option<nat>)
    returns (ok: bool, dirs: seq<Sized<nat>>, files: seq<Sized<(nat, nat)>>, w: Work, readCount: nat)
    requires WellFormed(fs)
    ensures LoopOk(fs, w) && |w.order| <= MAX_DIRS && readCount == ReadsFor(fs, w.order)
    ensures ok ==> Answers(fs, w, topN, dirs, files)
    ensures !ok ==> dirs == [] && files == [] && cancelAt.Some?
  {
    var seen;
    ok, w, seen, readCount := Scan(fs, cancelAt);
    dirs, files := [], [];
    if ok {
      CandidatesHaveTotals(fs, w);
      var sized := SizeAll(w.candidates, w.total);
      dirs := TopN(sized, topN);
      files := TopN(seen, topN);
      RankedOk(fs, w);
    }
  }
}
