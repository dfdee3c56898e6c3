/** What a whole scan means: exact totals, an order decided by the tree, and unbounded reading. */
module ScanTheorems {
  import opened Collections
  import opened DirectoryScan

  // ----- When the scan is exact ---------------------------------------------------------------------------

  /** Nothing in the tree makes the scan stop short. */
  ghost predicate NoObstacle(fs: Tree)
    requires WellFormed(fs)
  {
    && (forall d :: 0 <= d < |fs| ==> fs[d].readable && |Children(fs, d)| <= MAX_CHILDREN && !NotRecursed(fs, d))
    && (forall c :: 0 < c < |fs| ==> SubDir(c) in fs[fs[c].parent].entries && !Skipped(fs, fs[c].parent, c))
  }

  lemma {:induction false} EveryDirectoryKept(fs: Tree, w: Work, e: nat)
    requires WellFormed(fs) && NoObstacle(fs) && LoopOk(fs, w)
    requires w.queue == [] && 0 < e < |fs|
    ensures e in w.candidates
    decreases e
  {
    var d := fs[e].parent;
    if d > 0 {
      EveryDirectoryKept(fs, w, d);
      assert d in Elems(w.candidates);
    }
    assert d in w.order;
    assert CompleteAt(fs, d, w.candidates);
    var i :| 0 <= i < |fs[d].entries| && fs[d].entries[i] == SubDir(e);
  }

  /** With no skip, cap or unreadable directory in the way, a scan that ran out of work
      reports the true recursive size of every directory below the root. */
  lemma ExactWithoutObstacles(fs: Tree, w: Work, d: nat)
    requires WellFormed(fs) && NoObstacle(fs) && LoopOk(fs, w)
    requires w.queue == [] && 0 < d < |fs|
    ensures d in w.candidates && d in w.total && w.total[d] == TrueSize(fs, d, |fs|)
  {
    forall e | 0 <= e < |fs| ensures !Missed(fs, Elems(w.candidates), d, e) {
      if e > 0 { EveryDirectoryKept(fs, w, e); }
    }
    EveryDirectoryKept(fs, w, d);
    assert d in Elems(w.candidates);
    CandidateTotals(fs, w.total, Elems(w.candidates), Elems(w.order), d);
  }

  // ----- The order is decided by the tree ------------------------------------------------------------------

  ghost predicate NoCap(fs: Tree)
    requires WellFormed(fs)
  {
    forall d :: 0 <= d < |fs| ==> |Children(fs, d)| <= MAX_CHILDREN
  }

  /** Unless some directory exceeds the cap, where an unstable sort may decide, any two scans
      of a tree agree turn by turn as far as both go. */
  lemma {:induction false} ScanIsDetermined(fs: Tree, v: Work, w: Work, n: nat)
    requires WellFormed(fs) && NoCap(fs) && ListsOk(fs, v) && ListsOk(fs, w)
    requires n <= |v.order| && n <= |w.order|
    ensures v.order[..n] == w.order[..n] && v.turns[..n] == w.turns[..n] && v.batches[..n] == w.batches[..n]
  {
    if n > 0 {
      var m := n - 1;
      ScanIsDetermined(fs, v, w, m);
      SameFront(fs, v.batches[..m], v.order[m], w.order[m]);
      SameTurn(fs, v, w, m);
      OneMore(v.order, m);
      OneMore(w.order, m);
      OneMore(v.turns, m);
      OneMore(w.turns, m);
      OneMore(v.batches, m);
      OneMore(w.batches, m);
    }
  }

  lemma OneMore<T>(xs: seq<T>, m: nat)
    requires m < |xs|
    ensures xs[..m + 1] == xs[..m] + [xs[m]]
  {}

  lemma SameFront(fs: Tree, batches: seq<seq<nat>>, a: nat, b: nat)
    requires forall i :: 0 <= i < |batches| ==> InTree(fs, batches[i])
    requires Serves(QueuesAfter(fs, batches), a) && Serves(QueuesAfter(fs, batches), b)
    ensures a == b
  {}

  lemma SameTurn(fs: Tree, v: Work, w: Work, m: nat)
    requires WellFormed(fs) && NoCap(fs)
    requires HistoryOk(fs, v.candidates, v.order, v.turns, v.batches)
    requires HistoryOk(fs, w.candidates, w.order, w.turns, w.batches)
    requires m < |v.order| && m < |w.order| && v.order[m] == w.order[m]
    ensures v.turns[m] == w.turns[m] && v.batches[m] == w.batches[m]
  {
    assert TurnOk(fs, v.order[m], v.turns[m], v.batches[m]);
    assert TurnOk(fs, w.order[m], w.turns[m], w.batches[m]);
  }

  // ----- When the largest directory goes first -------------------------------------------------------------

  lemma {:induction false} QueuesPartitioned(fs: Tree, batches: seq<seq<nat>>)
    requires |fs| > 0 && forall i :: 0 <= i < |batches| ==> InTree(fs, batches[i])
    ensures var q := QueuesAfter(fs, batches); Partitioned(fs, q.hi, q.lo)
  {
    if batches != [] {
      var n := |batches| - 1;
      QueuesPartitioned(fs, batches[..n]);
      PickPartitions(fs, batches[n]);
      ServedPartitioned(fs, QueuesAfter(fs, batches[..n]));
      var q := Served(QueuesAfter(fs, batches[..n]));
      JoinPartitioned(fs, q.hi, q.lo, Pick(fs, batches[n], true), Pick(fs, batches[n], false));
    }
  }

  lemma ServedPartitioned(fs: Tree, q: TwoQueues)
    requires Partitioned(fs, q.hi, q.lo)
    ensures Partitioned(fs, Served(q).hi, Served(q).lo)
  {}

  lemma JoinPartitioned(fs: Tree, hi: seq<nat>, lo: seq<nat>, hi': seq<nat>, lo': seq<nat>)
    requires Partitioned(fs, hi, lo) && Partitioned(fs, hi', lo')
    ensures Partitioned(fs, hi + hi', lo + lo')
  {}

  /** d is one of xs, and none of them looks larger. A queued directory's total is its initial one. */
  ghost predicate LooksLargest(fs: Tree, d: nat, xs: seq<nat>)
    requires InTree(fs, xs)
  {
    d in xs && forall i :: 0 <= i < |xs| ==> d < |fs| && InitialTotal(fs, xs[i]) <= InitialTotal(fs, d)
  }

  /** The front of the work list looks largest exactly when it does within its own queue. */
  lemma FrontLooksLargestExactly(fs: Tree, hi: seq<nat>, lo: seq<nat>)
    requires Partitioned(fs, hi, lo) && hi + lo != []
    ensures InTree(fs, hi + lo)
    ensures LooksLargest(fs, (hi + lo)[0], hi + lo) <==>
      if hi != [] then LooksLargest(fs, hi[0], hi) else LooksLargest(fs, lo[0], lo)
  {
    var all := hi + lo;
    if hi == [] {
      assert all == lo;
    } else {
      assert all[0] == hi[0] && all[0] in all && hi[0] in hi;
      forall i | 0 <= i < |hi| ensures all[i] == hi[i] {}
      forall i | 0 <= i < |lo| ensures all[|hi| + i] == lo[i] && InitialTotal(fs, lo[i]) < InitialTotal(fs, hi[0]) {}
    }
  }

  /** "Descends into whichever unexplored subdirectory currently looks largest": turn i does so
      exactly when, in the queue it serves, none behind the front looks larger. */
  lemma ExploresLargestExactly(fs: Tree, w: Work, i: nat)
    requires WellFormed(fs) && ListsOk(fs, w) && i < |w.order|
    ensures InTree(fs, Waiting(fs, w, i).hi) && InTree(fs, Waiting(fs, w, i).lo)
    ensures InTree(fs, Waiting(fs, w, i).hi + Waiting(fs, w, i).lo)
    ensures var q := Waiting(fs, w, i);
      LooksLargest(fs, w.order[i], q.hi + q.lo) <==>
        LooksLargest(fs, w.order[i], if q.hi != [] then q.hi else q.lo)
  {
    var q := Waiting(fs, w, i);
    QueuesPartitioned(fs, w.batches[..i]);
    assert Serves(q, w.order[i]);
    assert (q.hi + q.lo)[0] == w.order[i];
    FrontLooksLargestExactly(fs, q.hi, q.lo);
  }

  /** The two queues before turn i. */
  ghost function Waiting(fs: Tree, w: Work, i: nat): TwoQueues
    requires WellFormed(fs) && ListsOk(fs, w) && i < |w.order|
  {
    QueuesAfter(fs, w.batches[..i])
  }

  /** A root with two large subdirectories, the second one larger. */
  function TwoLarge(): Tree {
    [DirInfo("/", true, None, 0, [SubDir(1), SubDir(2)]),
     DirInfo("a", true, None, 0, [Regular(PROMOTE)]),
     DirInfo("b", true, None, 0, [Regular(PROMOTE + 1)])]
  }

  lemma TwoLargeIsTree(fs: Tree)
    requires fs == TwoLarge()
    ensures WellFormed(fs) && |fs| == 3 && fs[0].readable
    ensures SelfSize(fs[1]) == PROMOTE && SelfSize(fs[2]) == PROMOTE + 1
    ensures !NotRecursed(fs, 1) && !NotRecursed(fs, 2) && !Skipped(fs, 0, 1) && !Skipped(fs, 0, 2)
  {
    assert fs[1].name == "a" && fs[2].name == "b" && "a"[0] == 'a' && "b"[0] == 'b';
    assert fs[0].entries[0] == SubDir(1) && fs[0].entries[1] == SubDir(2);
    OneFile(PROMOTE);
    OneFile(PROMOTE + 1);
  }

  lemma TwoChildren(fs: Tree)
    requires WellFormed(fs) && |fs| > 2 && fs[0].entries == [SubDir(1), SubDir(2)]
    requires !Skipped(fs, 0, 1) && !Skipped(fs, 0, 2)
    ensures |Children(fs, 0)| == 2 && Ids(Children(fs, 0)) == [1, 2]
  {
    assert ChildList(fs, 0, 0) == [];
    assert ChildList(fs, 0, 1) == [Sized(1, SelfSize(fs[1]))];
    assert Children(fs, 0) == [Sized(1, SelfSize(fs[1])), Sized(2, SelfSize(fs[2]))];
  }

  lemma OneFile(size: nat)
    ensures OwnSize([Regular(size)]) == size
  {
    assert [Regular(size)][..0] == [];
  }

  /** The first turn of any scan explores the root and queues its children. */
  lemma FirstTurn(fs: Tree, w: Work, kids: seq<nat>)
    requires WellFormed(fs) && ListsOk(fs, w) && |w.order| > 0
    requires fs[0].readable && |Children(fs, 0)| <= MAX_CHILDREN && kids == Ids(Children(fs, 0)) && InTree(fs, kids)
    ensures w.order[0] == 0 && w.batches[0] == Recursed(fs, kids)
  {
    assert Serves(QueuesAfter(fs, w.batches[..0]), w.order[0]);
    assert TurnOk(fs, w.order[0], w.turns[0], w.batches[0]);
  }

  /** Of large children of the root the one listed first is explored first, whatever their sizes. */
  lemma FirstListedGoesFirst(fs: Tree, w: Work, kids: seq<nat>)
    requires WellFormed(fs) && ListsOk(fs, w) && |w.order| >= 2 && fs[0].readable
    requires |Children(fs, 0)| <= MAX_CHILDREN && kids == Ids(Children(fs, 0)) && kids != [] && InTree(fs, kids)
    requires forall i :: 0 <= i < |kids| ==> !NotRecursed(fs, kids[i]) && InitialTotal(fs, kids[i]) >= PROMOTE
    ensures w.order[1] == kids[0]
  {
    FirstTurn(fs, w, kids);
    AllRecursed(fs, kids);
    PickUniform(fs, kids, true);
    SecondTurn(fs, w.order, w.batches, kids);
  }

  /** So a scan can go into a smaller directory first. */
  lemma SmallerGoesFirst(fs: Tree, w: Work)
    requires WellFormed(fs) && |fs| > 2 && fs[0].readable && ListsOk(fs, w) && |w.order| >= 2
    requires |Children(fs, 0)| == 2 && Ids(Children(fs, 0)) == [1, 2]
    requires !NotRecursed(fs, 1) && !NotRecursed(fs, 2) && PROMOTE <= SelfSize(fs[1]) < SelfSize(fs[2])
    ensures w.order[1] == 1
  {
    var kids := Ids(Children(fs, 0));
    LargePair(fs, kids);
    FirstListedGoesFirst(fs, w, kids);
  }

  lemma LargePair(fs: Tree, kids: seq<nat>)
    requires |fs| > 2 && |kids| == 2 && kids[0] == 1 && kids[1] == 2
    requires !NotRecursed(fs, 1) && !NotRecursed(fs, 2) && PROMOTE <= SelfSize(fs[1]) && PROMOTE <= SelfSize(fs[2])
    ensures InTree(fs, kids)
    ensures forall i :: 0 <= i < |kids| ==> !NotRecursed(fs, kids[i]) && InitialTotal(fs, kids[i]) >= PROMOTE
  {}

  /** At that tree every scan does. */
  lemma SmallerGoesFirstThere(fs: Tree, w: Work)
    requires fs == TwoLarge() && WellFormed(fs) && ListsOk(fs, w) && |w.order| >= 2
    ensures w.order[1] == 1 && SelfSize(fs[1]) < SelfSize(fs[2])
  {
    TwoLargeIsTree(fs);
    TwoChildren(fs);
    SmallerGoesFirst(fs, w);
  }

  lemma {:induction false} AllRecursed(fs: Tree, kids: seq<nat>)
    requires InTree(fs, kids) && forall i :: 0 <= i < |kids| ==> !NotRecursed(fs, kids[i])
    ensures Recursed(fs, kids) == kids
  {
    if kids != [] {
      var n := |kids| - 1;
      AllRecursed(fs, kids[..n]);
      assert kids == kids[..n] + [kids[n]];
    }
  }

  lemma SecondTurn(fs: Tree, order: seq<nat>, batches: seq<seq<nat>>, kids: seq<nat>)
    requires FollowsQueues(fs, order, batches) && |order| >= 2 && InTree(fs, kids) && kids != []
    requires batches[0] == kids && Pick(fs, kids, true) == kids
    ensures order[1] == kids[0]
  {
    assert Serves(QueuesAfter(fs, batches[..1]), order[1]);
    assert batches[..1] == [kids];
    FirstQueues(fs, kids);
  }

  lemma FirstQueues(fs: Tree, kids: seq<nat>)
    requires InTree(fs, kids)
    ensures QueuesAfter(fs, [kids]).hi == Pick(fs, kids, true)
  {
    assert [kids][..0] == [];
    assert QueuesAfter(fs, []) == TwoQueues([], [0]);
  }

  // ----- How many directories are read ---------------------------------------------------------------------

  /** A root with n empty subdirectories. */
  function WideTree(n: nat): Tree {
    [DirInfo("/", true, None, 0, seq(n, (i: nat) => SubDir(i + 1)))] +
    seq(n, i => DirInfo("d", true, None, 0, []))
  }

  lemma WideTreeOk(n: nat)
    ensures WellFormed(WideTree(n)) && |WideTree(n)| == n + 1
  {}

  lemma {:induction false} WideChildren(n: nat, k: nat)
    requires k <= n
    ensures WellFormed(WideTree(n)) && |ChildList(WideTree(n), 0, k)| == k
  {
    WideTreeOk(n);
    if k > 0 {
      WideChildren(n, k - 1);
      assert WideTree(n)[k].name == "d";
    }
  }

  lemma {:induction false} ReadsAtLeastFirst(fs: Tree, order: seq<nat>)
    requires WellFormed(fs) && InTree(fs, order) && order != []
    ensures ReadsFor(fs, order) >= ReadsAt(fs, order[0])
  {
    if |order| > 1 { ReadsAtLeastFirst(fs, order[..|order| - 1]); }
  }

  /** Exploring is limited to MAX_DIRS, reading is not: the children of an explored directory
      are read before the cap applies, so no number bounds what a completed scan reads. */
  lemma ReadsUnbounded(n: nat, w: Work)
    requires WellFormed(WideTree(n)) && LoopOk(WideTree(n), w)
    requires w.queue == [] || |w.order| == MAX_DIRS
    ensures ReadsFor(WideTree(n), w.order) > n
  {
    var fs := WideTree(n);
    assert w.order != [];
    assert Serves(QueuesAfter(fs, w.batches[..0]), w.order[0]);
    ReadsAtLeastFirst(fs, w.order);
    WideChildren(n, n);
  }

  /** Only the explored directories are read exactly when none of them has a child worth a node. */
  lemma {:induction false} ReadsAreExploredExactly(fs: Tree, order: seq<nat>)
    requires WellFormed(fs) && InTree(fs, order)
    ensures ReadsFor(fs, order) >= |order|
    ensures ReadsFor(fs, order) == |order| <==>
      forall i :: 0 <= i < |order| && fs[order[i]].readable ==> Children(fs, order[i]) == []
  {
    if order != [] { ReadsAreExploredExactly(fs, order[..|order| - 1]); }
  }

  // ----- Which directories are candidates, and which are explored ----------------------------------------------

  /** c is not a pseudo filesystem under the root and not known to be on another device than d. */
  predicate Eligible(fs: Tree, d: nat, c: nat)
    requires d < |fs| && c < |fs|
  {
    && !(d == 0 && fs[c].name in ["proc", "sys", "dev", "run"])
    && (fs[d].device.None? || fs[c].device.None? || fs[c].device.value == fs[d].device.value)
  }

  lemma EligibleIsNotSkipped(fs: Tree, d: nat, c: nat)
    requires d < |fs| && c < |fs|
    ensures Eligible(fs, d, c) <==> !Skipped(fs, d, c)
  {}

  lemma {:induction false} ChildListMember(fs: Tree, d: nat, n: nat, k: nat)
    requires WellFormed(fs) && d < |fs| && n <= |fs[d].entries| && k < |ChildList(fs, d, n)|
    ensures var c := ChildList(fs, d, n)[k].id;
      c < |fs| && SubDir(c) in fs[d].entries && Eligible(fs, d, c)
  {
    if k < |ChildList(fs, d, n - 1)| {
      ChildListMember(fs, d, n - 1, k);
    } else {
      EligibleIsNotSkipped(fs, d, fs[d].entries[n - 1].dir);
    }
  }

  lemma KeptIsEligible(fs: Tree, d: nat, kids: seq<nat>, c: nat)
    requires WellFormed(fs) && KeptAt(fs, d, kids) && c in kids
    ensures c < |fs| && fs[d].readable && SubDir(c) in fs[d].entries && Eligible(fs, d, c)
  {
    var all := Children(fs, d);
    if |all| <= MAX_CHILDREN {
      var k :| 0 <= k < |kids| && kids[k] == c;
      ChildListMember(fs, d, |fs[d].entries|, k);
    } else {
      var largest: seq<Sized<nat>> :| IsTop(largest, all, MAX_CHILDREN) && kids == Ids(largest);
      var k :| 0 <= k < |kids| && kids[k] == c;
      TopIsPart(largest, all, MAX_CHILDREN, k);
      var j :| 0 <= j < |all| && all[j] == largest[k];
      ChildListMember(fs, d, |fs[d].entries|, j);
    }
  }

  lemma TopIsPart(top: seq<Sized<nat>>, xs: seq<Sized<nat>>, n: nat, k: nat)
    requires IsTop(top, xs, n) && k < |top|
    ensures top[k] in xs
  {
    var rest: seq<Sized<nat>> :| LeftOver(top, rest, xs);
    assert top[k] in multiset(top);
    assert top[k] in multiset(xs);
  }

  lemma {:induction false} FlatMember(turns: seq<seq<nat>>, c: nat)
    ensures c in Flat(turns) <==> exists i :: 0 <= i < |turns| && c in turns[i]
  {
    if turns != [] {
      var n := |turns| - 1;
      FlatMember(turns[..n], c);
      if i :| 0 <= i < n && c in turns[..n][i] { assert c in turns[i]; }
      if i :| 0 <= i < |turns| && c in turns[i] { assert i < n ==> c in turns[..n][i]; }
    }
  }

  /** Every candidate is a listed, eligible subdirectory of a readable explored directory. */
  lemma CandidatesAreEligible(fs: Tree, w: Work, c: nat)
    requires WellFormed(fs) && ListsOk(fs, w) && c in w.candidates
    ensures 0 < c < |fs| && var d := fs[c].parent;
      d in w.order && fs[d].readable && SubDir(c) in fs[d].entries && Eligible(fs, d, c)
  {
    FlatMember(w.turns, c);
    var i :| 0 <= i < |w.turns| && c in w.turns[i];
    assert TurnOk(fs, w.order[i], w.turns[i], w.batches[i]);
    KeptIsEligible(fs, w.order[i], w.turns[i], c);
    var k :| 0 <= k < |fs[w.order[i]].entries| && fs[w.order[i]].entries[k] == SubDir(c);
  }

  /** And of an explored directory within the cap every such subdirectory is a candidate. */
  lemma EligibleAreCandidates(fs: Tree, w: Work, d: nat, c: nat)
    requires WellFormed(fs) && ListsOk(fs, w) && d in w.order && d < |fs| && fs[d].readable
    requires |Children(fs, d)| <= MAX_CHILDREN && SubDir(c) in fs[d].entries && c < |fs| && Eligible(fs, d, c)
    ensures c in w.candidates
  {
    EligibleIsNotSkipped(fs, d, c);
    assert CompleteAt(fs, d, w.candidates);
    var k :| 0 <= k < |fs[d].entries| && fs[d].entries[k] == SubDir(c);
  }

  lemma {:induction false} QueuedFromBatches(fs: Tree, batches: seq<seq<nat>>, x: nat)
    requires forall i :: 0 <= i < |batches| ==> InTree(fs, batches[i])
    requires x in QueuesAfter(fs, batches).hi || x in QueuesAfter(fs, batches).lo
    ensures x == 0 || exists i :: 0 <= i < |batches| && x in batches[i]
  {
    if batches != [] {
      var n := |batches| - 1;
      var q := QueuesAfter(fs, batches[..n]);
      PickMembers(fs, batches[n], x);
      if x !in batches[n] {
        assert x in q.hi || x in q.lo;
        QueuedFromBatches(fs, batches[..n], x);
        if i :| 0 <= i < n && x in batches[..n][i] { assert x in batches[i]; }
      }
    }
  }

  predicate StaticName(name: string) {
    name in ["usr", "lib", "lib32", "lib64", "libx32", "bin", "sbin", "snap"]
  }

  lemma StaticIsNotRecursed(fs: Tree, c: nat)
    requires c < |fs|
    ensures NotRecursed(fs, c) <==> fs[c].parent == 0 && StaticName(fs[c].name)
  {}

  /** An explored directory other than the root was queued by an earlier turn. */
  lemma ExploredWasQueued(fs: Tree, order: seq<nat>, batches: seq<seq<nat>>, i: nat) returns (j: nat)
    requires FollowsQueues(fs, order, batches) && i < |order| && order[i] != 0
    ensures j < i && order[i] in batches[j]
  {
    var x, before := order[i], batches[..i];
    assert Serves(QueuesAfter(fs, before), x);
    QueuedFromBatches(fs, before, x);
    j :| 0 <= j < i && x in before[j];
  }

  lemma QueuedIsRecursed(fs: Tree, d: nat, kids: seq<nat>, batch: seq<nat>, x: nat)
    requires WellFormed(fs) && TurnOk(fs, d, kids, batch) && x in batch
    ensures x < |fs| && !NotRecursed(fs, x)
  {
    RecursedMembers(fs, kids, x);
    var k :| 0 <= k < |kids| && kids[k] == x;
  }

  /** Only the root and directories that are not static system ones under it are explored. */
  lemma ExploredIsNotStatic(fs: Tree, w: Work, i: nat)
    requires WellFormed(fs) && ListsOk(fs, w) && i < |w.order| && w.order[i] != 0
    ensures w.order[i] < |fs| && !(fs[w.order[i]].parent == 0 && StaticName(fs[w.order[i]].name))
  {
    var j := ExploredWasQueued(fs, w.order, w.batches, i);
    assert TurnOk(fs, w.order[j], w.turns[j], w.batches[j]);
    QueuedIsRecursed(fs, w.order[j], w.turns[j], w.batches[j], w.order[i]);
    StaticIsNotRecursed(fs, w.order[i]);
  }

  // ----- What a directory's own size is -----------------------------------------------------------------------

  function SizesOf(files: seq<Sized<(nat, nat)>>): nat {
    if files == [] then 0 else SizesOf(files[..|files| - 1]) + files[|files| - 1].size
  }

  /** A directory's own size is the sizes of its regular files together, nothing else. */
  lemma {:induction false} OwnSizeIsItsFiles(fs: Tree, d: nat, n: nat)
    requires d < |fs| && n <= |fs[d].entries|
    ensures OwnSize(fs[d].entries[..n]) == SizesOf(FileList(fs, d, n))
  {
    if n > 0 {
      OwnSizeIsItsFiles(fs, d, n - 1);
      assert fs[d].entries[..n][..n - 1] == fs[d].entries[..n - 1];
      var before := FileList(fs, d, n - 1);
      var f: Sized<(nat, nat)> := Sized((d, n - 1), EntrySize(fs[d].entries[n - 1]));
      assert (before + [f])[..|before|] == before;
    }
  }
}
