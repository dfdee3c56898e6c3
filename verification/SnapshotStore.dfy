/** The agent's memory store (endpoint-server/memory/memory.go): timestamped snapshots per
    domain under tiered retention, key mode on top of them, and an incrementally kept size.

    A domain directory is a map from the nanosecond stamp in the file name to the file. */
module SnapshotStore {
  import opened Collections
  import opened Sums

  const MINUTE: int := 60_000_000_000
  const HOUR: int := 60 * MINUTE
  const DAY: int := 24 * HOUR
  const MAX_AGE: int := 90 * DAY

  type Value = string

  /** What a snapshot holds: a JSON object (key mode) or anything else. */
  datatype Body = Keyed(fields: map<string, Value>) | Other(text: string)

  datatype File = File(body: Body, size: nat)

  /** Nanoseconds since the epoch, as in the file names. */
  type Stamp = ns: int | -0x8000_0000_0000_0000 <= ns < 0x8000_0000_0000_0000

  type Dir = map<Stamp, File>

  // ----- Tiered retention ---------------------------------------------------------------

  datatype Bucket = Bucket(tier: nat, index: int)

  function Horizon(tier: nat): int {
    if tier == 0 then HOUR else if tier == 1 then 7 * DAY else 90 * DAY
  }

  function Width(tier: nat): int {
    if tier == 0 then 5 * MINUTE else if tier == 1 then HOUR else DAY
  }

  /** Files stamped in the future count as new. */
  function Age(now: Stamp, ns: Stamp): nat {
    if now - ns < 0 then 0 else now - ns
  }

  /** The first tier whose horizon covers the age, and the bucket within it. */
  function BucketOf(now: Stamp, ns: Stamp): Bucket {
    var age := Age(now, ns);
    if age <= HOUR then Bucket(0, age / (5 * MINUTE))
    else if age <= 7 * DAY then Bucket(1, age / HOUR)
    else Bucket(2, age / DAY)
  }

  predicate TooOld(now: Stamp, ns: Stamp) {
    now - ns > MAX_AGE
  }

  /** Newest of its bucket among the given stamps, and not too old. */
  ghost predicate Survives(stamps: set<Stamp>, now: Stamp, ns: Stamp) {
    !TooOld(now, ns) && forall m :: m in stamps && !TooOld(now, m) && BucketOf(now, m) == BucketOf(now, ns) ==> m <= ns
  }

  ghost function Retained(dir: Dir, now: Stamp): Dir {
    map ns | ns in dir && Survives(dir.Keys, now, ns) :: dir[ns]
  }

  function SizeOf(): File -> int { (f: File) => f.size }

  ghost function Bytes(dir: Dir): int {
    MapSum(dir, SizeOf())
  }

  ghost predicate Lists(listing: seq<Stamp>, dir: Dir) {
    && (forall i, j :: 0 <= i < j < |listing| ==> listing[i] != listing[j])
    && (forall ns :: ns in listing <==> ns in dir)
  }

  /** A directory listing, in no particular order. */
  method ReadDir(dir: Dir) returns (listing: seq<Stamp>)
    ensures Lists(listing, dir)
  {
    listing := [];
    var rest := dir.Keys;
    while |rest| > 0
      invariant rest <= dir.Keys
      invariant forall i, j :: 0 <= i < j < |listing| ==> listing[i] != listing[j]
      invariant forall ns :: ns in listing <==> ns in dir && ns !in rest
      decreases |rest|
    {
      var ns :| ns in rest;
      listing := listing + [ns];
      rest := rest - {ns};
    }
  }

  /** State of the first loop of prune after the stamps in done. */
  ghost predicate Sieved(done: set<Stamp>, now: Stamp, buckets: map<Bucket, Stamp>, toDelete: seq<Stamp>) {
    && (forall b :: b in buckets ==> buckets[b] in done && !TooOld(now, buckets[b]) && BucketOf(now, buckets[b]) == b)
    && (forall m :: m in done && !TooOld(now, m) ==> BucketOf(now, m) in buckets && m <= buckets[BucketOf(now, m)])
    && (forall m :: m in toDelete <==> m in done && (TooOld(now, m) || buckets[BucketOf(now, m)] != m))
    && (forall i, j :: 0 <= i < j < |toDelete| ==> toDelete[i] != toDelete[j])
  }

  lemma SieveTooOld(done: set<Stamp>, now: Stamp, buckets: map<Bucket, Stamp>, toDelete: seq<Stamp>, ns: Stamp)
    requires Sieved(done, now, buckets, toDelete) && ns !in done && TooOld(now, ns)
    ensures Sieved(done + {ns}, now, buckets, toDelete + [ns])
  {}

  lemma SieveNewBucket(done: set<Stamp>, now: Stamp, buckets: map<Bucket, Stamp>, toDelete: seq<Stamp>, ns: Stamp)
    requires Sieved(done, now, buckets, toDelete) && ns !in done && !TooOld(now, ns) && BucketOf(now, ns) !in buckets
    ensures Sieved(done + {ns}, now, buckets[BucketOf(now, ns) := ns], toDelete)
  {}

  lemma SieveReplace(done: set<Stamp>, now: Stamp, buckets: map<Bucket, Stamp>, toDelete: seq<Stamp>, ns: Stamp)
    requires Sieved(done, now, buckets, toDelete) && ns !in done && !TooOld(now, ns)
    requires BucketOf(now, ns) in buckets && buckets[BucketOf(now, ns)] < ns
    ensures Sieved(done + {ns}, now, buckets[BucketOf(now, ns) := ns], toDelete + [buckets[BucketOf(now, ns)]])
  {}

  lemma SieveOlder(done: set<Stamp>, now: Stamp, buckets: map<Bucket, Stamp>, toDelete: seq<Stamp>, ns: Stamp)
    requires Sieved(done, now, buckets, toDelete) && ns !in done && !TooOld(now, ns)
    requires BucketOf(now, ns) in buckets && ns <= buckets[BucketOf(now, ns)]
    ensures Sieved(done + {ns}, now, buckets, toDelete + [ns])
  {}

  method Prune(dir: Dir, now: Stamp) returns (kept: Dir, pruned: int)
    ensures kept == Retained(dir, now)
    ensures pruned == Bytes(dir) - Bytes(kept)
  {
    var listing := ReadDir(dir);
    var buckets: map<Bucket, Stamp> := map[];
    var toDelete: seq<Stamp> := [];
    ghost var done: set<Stamp> := {};
    for i := 0 to |listing|
      invariant forall m :: m in done <==> m in listing[..i]
      invariant Sieved(done, now, buckets, toDelete)
    {
      var ns := listing[i];
      assert ns !in done;
      if TooOld(now, ns) {
        SieveTooOld(done, now, buckets, toDelete, ns);
        toDelete := toDelete + [ns];
      } else {
        var key := BucketOf(now, ns);
        if key !in buckets {
          SieveNewBucket(done, now, buckets, toDelete, ns);
          buckets := buckets[key := ns];
        } else if ns > buckets[key] {
          SieveReplace(done, now, buckets, toDelete, ns);
          toDelete := toDelete + [buckets[key]];
          buckets := buckets[key := ns];
        } else {
          SieveOlder(done, now, buckets, toDelete, ns);
          toDelete := toDelete + [ns];
        }
      }
      done := done + {ns};
    }
    assert done == dir.Keys;
    SievedIsRetained(dir, now, buckets, toDelete);
    kept, pruned := Delete(dir, toDelete);
  }

  lemma SievedIsRetained(dir: Dir, now: Stamp, buckets: map<Bucket, Stamp>, toDelete: seq<Stamp>)
    requires Sieved(dir.Keys, now, buckets, toDelete)
    ensures Retained(dir, now) == map ns | ns in dir && ns !in toDelete :: dir[ns]
  {}

  /** The second loop of prune. */
  method Delete(dir: Dir, toDelete: seq<Stamp>) returns (kept: Dir, pruned: int)
    requires forall i, j :: 0 <= i < j < |toDelete| ==> toDelete[i] != toDelete[j]
    requires forall m :: m in toDelete ==> m in dir
    ensures kept == map ns | ns in dir && ns !in toDelete :: dir[ns]
    ensures pruned == Bytes(dir) - Bytes(kept)
  {
    kept, pruned := dir, 0;
    for i := 0 to |toDelete|
      invariant kept == map ns | ns in dir && ns !in toDelete[..i] :: dir[ns]
      invariant pruned == Bytes(dir) - Bytes(kept)
    {
      var ns := toDelete[i];
      MapSumRemove(kept, ns, SizeOf());
      pruned := pruned + kept[ns].size;
      kept := kept - {ns};
      assert toDelete[..i + 1] == toDelete[..i] + [ns];
    }
    assert toDelete[..|toDelete|] == toDelete;
  }

  /** Pruning twice at the same moment removes nothing more. */
  lemma RetainedIdempotent(dir: Dir, now: Stamp)
    ensures Retained(Retained(dir, now), now) == Retained(dir, now)
  {}

  /** Buckets numbered 0..12, 13..180 and 181..264. */
  function Slot(now: Stamp, ns: Stamp): int {
    var b := BucketOf(now, ns);
    if b.tier == 0 then b.index else if b.tier == 1 then 12 + b.index else 174 + b.index
  }

  lemma SlotDecidesBucket(now: Stamp, a: Stamp, b: Stamp)
    requires !TooOld(now, a) && !TooOld(now, b)
    ensures 0 <= Slot(now, a) < 265
    ensures Slot(now, a) == Slot(now, b) ==> BucketOf(now, a) == BucketOf(now, b)
  {
    IndexInRange(now, a);
    IndexInRange(now, b);
  }

  lemma IndexInRange(now: Stamp, ns: Stamp)
    requires !TooOld(now, ns)
    ensures var b := BucketOf(now, ns);
      if b.tier == 0 then 0 <= b.index <= 12
      else if b.tier == 1 then 1 <= b.index <= 168
      else b.tier == 2 && 7 <= b.index <= 90
  {}

  lemma {:induction false} AtMostOnePerSlot(s: set<Stamp>, now: Stamp, n: nat)
    requires forall x :: x in s ==> 0 <= Slot(now, x) < n
    requires forall x, y :: x in s && y in s && Slot(now, x) == Slot(now, y) ==> x == y
    ensures |s| <= n
    decreases n
  {
    if n > 0 {
      if x :| x in s && Slot(now, x) == n - 1 {
        AtMostOnePerSlot(s - {x}, now, n - 1);
      } else {
        AtMostOnePerSlot(s, now, n - 1);
      }
    } else {
      assert s == {};
    }
  }

  /** However many files there were, at most 13 + 168 + 84 are left. */
  lemma RetainedIsBounded(dir: Dir, now: Stamp)
    ensures |Retained(dir, now)| <= 265
  {
    var kept := Retained(dir, now).Keys;
    forall x, y | x in kept && y in kept && Slot(now, x) == Slot(now, y) ensures x == y {
      SlotDecidesBucket(now, x, y);
    }
    forall x | x in kept ensures 0 <= Slot(now, x) < 265 { SlotDecidesBucket(now, x, x); }
    AtMostOnePerSlot(kept, now, 265);
  }

  // ----- What retention keeps over whole runs of writes --------------------------------------

  datatype Write = Write(at: Stamp, file: File)

  /** writeLocked: add the snapshot, then prune. */
  ghost function AfterWrite(dir: Dir, now: Stamp, file: File): Dir {
    Retained(dir[now := file], now)
  }

  /** The directory of a domain that started empty. */
  ghost function Written(ws: seq<Write>): Dir {
    if ws == [] then map[] else AfterWrite(Written(ws[..|ws| - 1]), ws[|ws| - 1].at, ws[|ws| - 1].file)
  }

  ghost predicate Increasing(ws: seq<Write>) {
    forall i, j :: 0 <= i < j < |ws| ==> ws[i].at < ws[j].at
  }

  lemma {:induction false} WrittenComesFromWrites(ws: seq<Write>, ns: Stamp)
    requires ns in Written(ws)
    ensures exists k :: 0 <= k < |ws| && ws[k].at == ns
  {
    var n := |ws| - 1;
    if ns != ws[n].at {
      WrittenComesFromWrites(ws[..n], ns);
      var k :| 0 <= k < n && ws[..n][k].at == ns;
      assert ws[k].at == ns;
    }
  }

  /** Two stamps in one bucket are less than the bucket's width apart. */
  lemma SameBucketIsClose(now: Stamp, a: Stamp, b: Stamp, tier: nat)
    requires tier < 3 && a < b <= now && now - a <= Horizon(tier) && BucketOf(now, a) == BucketOf(now, b)
    ensures b - a < Width(tier)
  {}

  lemma DistantFileSurvives(dir: Dir, now: Stamp, a: Stamp, tier: nat)
    requires tier < 3 && a in dir && a <= now && now - a <= Horizon(tier)
    requires forall m :: m in dir ==> m <= now && (m > a ==> m - a >= Width(tier))
    ensures a in Retained(dir, now)
  {
    forall m | m in dir && BucketOf(now, m) == BucketOf(now, a) ensures m <= a {
      if m > a { SameBucketIsClose(now, a, m, tier); }
    }
  }

  ghost predicate Spaced(ws: seq<Write>, gap: int) {
    forall i, j :: 0 <= i < j < |ws| ==> ws[j].at - ws[i].at >= gap
  }

  /** If writes are at least a tier's bucket width apart, every snapshot within that tier's
      horizon is still there, unchanged, after every write. */
  lemma {:induction false} SpacedWritesAreKept(ws: seq<Write>, tier: nat, k: nat)
    requires tier < 3 && Spaced(ws, Width(tier)) && k < |ws| && ws[|ws| - 1].at - ws[k].at <= Horizon(tier)
    ensures ws[k].at in Written(ws) && Written(ws)[ws[k].at] == ws[k].file
  {
    var n := |ws| - 1;
    var now, dir := ws[n].at, Written(ws[..n])[ws[n].at := ws[n].file];
    if k < n {
      assert ws[n].at - ws[n - 1].at >= Width(tier);
      SpacedWritesAreKept(ws[..n], tier, k);
    }
    forall m | m in dir ensures m <= now && (m > ws[k].at ==> m - ws[k].at >= Width(tier)) {
      SpacedStamp(ws, tier, k, m);
    }
    DistantFileSurvives(dir, now, ws[k].at, tier);
  }

  lemma SpacedStamp(ws: seq<Write>, tier: nat, k: nat, m: Stamp)
    requires tier < 3 && ws != [] && k < |ws| && Spaced(ws, Width(tier))
    requires m in Written(ws[..|ws| - 1]).Keys + {ws[|ws| - 1].at}
    ensures m <= ws[|ws| - 1].at && (m > ws[k].at ==> m - ws[k].at >= Width(tier))
  {
    var n := |ws| - 1;
    var j: nat := n;
    if m != ws[n].at {
      WrittenComesFromWrites(ws[..n], m);
      j :| 0 <= j < n && ws[..n][j].at == m;
    }
    assert ws[j].at == m;
    SpacedPair(ws, Width(tier), j, n);
    SpacedPair(ws, Width(tier), j, k);
  }

  lemma SpacedPair(ws: seq<Write>, gap: int, j: nat, k: nat)
    requires Spaced(ws, gap) && gap > 0 && j < |ws| && k < |ws|
    ensures j <= k ==> ws[j].at <= ws[k].at
    ensures ws[j].at > ws[k].at ==> ws[j].at - ws[k].at >= gap
  {}

  /** A write less than five minutes after the previous one removes it. */
  lemma QuickWriteReplaces(dir: Dir, a: Stamp, now: Stamp, file: File)
    requires 0 < now - a < 5 * MINUTE
    ensures a !in AfterWrite(dir, now, file)
  {
    assert BucketOf(now, a) == BucketOf(now, now) == Bucket(0, 0);
    assert now in dir[now := file];
  }

  ghost predicate LastHourComplete(ws: seq<Write>) {
    forall n, k :: 0 <= k < n <= |ws| && ws[n - 1].at - ws[k].at <= HOUR ==> ws[k].at in Written(ws[..n])
  }

  function GapAfter(ws: seq<Write>, i: nat): int
    requires i + 1 < |ws|
  {
    ws[i + 1].at - ws[i].at
  }

  ghost predicate ConsecutiveGaps(ws: seq<Write>, gap: int) {
    forall i: nat :: i < |ws| - 1 ==> GapAfter(ws, i) >= gap
  }

  lemma {:induction false} GapsAddUp(ws: seq<Write>, gap: int, i: nat, j: nat)
    requires ConsecutiveGaps(ws, gap) && 0 <= gap && i < j < |ws|
    ensures ws[j].at - ws[i].at >= gap
    decreases j - i
  {
    assert GapAfter(ws, i) >= gap;
    if i + 1 < j { GapsAddUp(ws, gap, i + 1, j); }
  }

  lemma SpacedHourIsComplete(ws: seq<Write>, n: nat, k: nat)
    requires ConsecutiveGaps(ws, 5 * MINUTE) && k < n <= |ws| && ws[n - 1].at - ws[k].at <= HOUR
    ensures ws[k].at in Written(ws[..n])
  {
    forall i, j | 0 <= i < j < n ensures ws[..n][j].at - ws[..n][i].at >= Width(0) { GapsAddUp(ws, 5 * MINUTE, i, j); }
    SpacedWritesAreKept(ws[..n], 0, k);
  }

  lemma QuickWriteLosesOne(ws: seq<Write>, i: nat)
    requires i + 1 < |ws| && 0 < ws[i + 1].at - ws[i].at < 5 * MINUTE
    ensures ws[i].at !in Written(ws[..i + 2])
  {
    assert ws[..i + 2][..i + 1] == ws[..i + 1];
    QuickWriteReplaces(Written(ws[..i + 1]), ws[i].at, ws[i + 1].at, ws[i + 1].file);
  }

  /** "Full 5-minute resolution for the last hour": after every write all snapshots of the
      last hour are there exactly when no two consecutive writes are closer than 5 minutes. */
  lemma LastHourCompleteExactly(ws: seq<Write>)
    requires Increasing(ws)
    ensures LastHourComplete(ws) <==> ConsecutiveGaps(ws, 5 * MINUTE)
  {
    if ConsecutiveGaps(ws, 5 * MINUTE) {
      forall n, k | 0 <= k < n <= |ws| && ws[n - 1].at - ws[k].at <= HOUR ensures ws[k].at in Written(ws[..n]) {
        SpacedHourIsComplete(ws, n, k);
      }
    } else {
      var i: nat :| i < |ws| - 1 && GapAfter(ws, i) < 5 * MINUTE;
      assert ws[i].at < ws[i + 1].at;
      QuickWriteLosesOne(ws, i);
      var n := i + 2;
      assert ws[n - 1].at - ws[i].at <= HOUR && ws[i].at !in Written(ws[..n]);
    }
  }

  lemma NewFileStays(dir: Dir, now: Stamp, file: File)
    requires forall m :: m in dir ==> m < now
    ensures now in AfterWrite(dir, now, file) && AfterWrite(dir, now, file)[now] == file
  {}

  lemma OnlyTheLatest(a: Stamp, was: File, now: Stamp, file: File)
    requires 0 < now - a < 5 * MINUTE
    ensures AfterWrite(map[a := was], now, file) == map[now := file]
  {
    NewFileStays(map[a := was], now, file);
    QuickWriteReplaces(map[a := was], a, now, file);
  }

  /** If every gap is under five minutes only the latest snapshot survives each write. */
  lemma {:induction false} DenseWritesKeepOne(ws: seq<Write>)
    requires ws != [] && Increasing(ws)
    requires forall i: nat :: i < |ws| - 1 ==> GapAfter(ws, i) < 5 * MINUTE
    ensures Written(ws) == map[ws[|ws| - 1].at := ws[|ws| - 1].file]
  {
    var n := |ws| - 1;
    var now, before := ws[n].at, ws[..n];
    if n == 0 {
      NewFileStays(map[], now, ws[n].file);
    } else {
      forall i: nat | i < n - 1 ensures GapAfter(before, i) == GapAfter(ws, i) {}
      DenseWritesKeepOne(before);
      assert 0 < GapAfter(ws, n - 1) < 5 * MINUTE;
      OnlyTheLatest(ws[n - 1].at, ws[n - 1].file, now, ws[n].file);
    }
  }

  /** Consecutive writes at least five minutes and less than half an hour apart. */
  ghost predicate Steady(ws: seq<Write>) {
    forall i: nat :: i < |ws| - 1 ==> 5 * MINUTE <= GapAfter(ws, i) < 30 * MINUTE
  }

  /** Two files between one and two hours old share a bucket, and the older one goes. */
  lemma OlderOfTwoGoes(dir: Dir, now: Stamp, a: Stamp, b: Stamp)
    requires a < b && b in dir && HOUR < now - b && now - a < 2 * HOUR
    ensures a !in Retained(dir, now)
  {
    assert BucketOf(now, a) == BucketOf(now, b) == Bucket(1, 1);
  }

  /** Of the snapshots over an hour old, only the newest is left. */
  lemma {:induction false} OnlyNewestOldIsLeft(ws: seq<Write>, k: nat)
    requires Steady(ws) && k + 1 < |ws| && ws[|ws| - 1].at - ws[k + 1].at > HOUR
    ensures ws[k].at !in Written(ws)
    decreases |ws|
  {
    var n := |ws| - 1;
    var now, before := ws[n].at, ws[..n];
    assert GapAfter(ws, n - 1) < 30 * MINUTE && GapAfter(ws, k) < 30 * MINUTE;
    forall i: nat | i < n - 1 ensures GapAfter(before, i) == GapAfter(ws, i) {}
    if ws[n - 1].at - ws[k + 1].at > HOUR {
      assert ws[k].at !in Written(before) by { OnlyNewestOldIsLeft(before, k); }
      GapsAddUp(ws, 5 * MINUTE, k, n);
      NeverComesBack(ws, ws[k].at);
    } else {
      assert ws[k + 1].at in Written(before) by { SpacedHourIsComplete(ws, n, k + 1); }
      PrunedAway(ws, ws[k].at, ws[k + 1].at);
    }
  }

  lemma NeverComesBack(ws: seq<Write>, ns: Stamp)
    requires ws != [] && ns !in Written(ws[..|ws| - 1]) && ns != ws[|ws| - 1].at
    ensures ns !in Written(ws)
  {}

  lemma PrunedAway(ws: seq<Write>, a: Stamp, b: Stamp)
    requires ws != [] && a < b && b in Written(ws[..|ws| - 1])
    requires HOUR < ws[|ws| - 1].at - b && ws[|ws| - 1].at - a < 2 * HOUR
    ensures a !in Written(ws)
  {
    var last := ws[|ws| - 1];
    OlderOfTwoGoes(Written(ws[..|ws| - 1])[last.at := last.file], last.at, a, b);
  }

  /** "Hourly snapshots for a week, and daily snapshots for 90 days": buckets slide with the
      clock, so writes every five to thirty minutes leave nothing that is two hours old. */
  lemma SteadyWritesLeaveTwoHours(ws: seq<Write>, k: nat)
    requires Steady(ws) && k < |ws| && ws[|ws| - 1].at - ws[k].at >= 2 * HOUR
    ensures ws[k].at !in Written(ws)
  {
    assert GapAfter(ws, k) < 30 * MINUTE;
    OnlyNewestOldIsLeft(ws, k);
  }

  // ----- Reading back -------------------------------------------------------------------------

  ghost predicate IsNewest(dir: Dir, ns: Stamp) {
    ns in dir && ns > 0 && forall m :: m in dir ==> m <= ns
  }

  method NewestFile(dir: Dir) returns (newest: Option<Stamp>)
    ensures newest.None? <==> forall m :: m in dir ==> m <= 0
    ensures newest.Some? ==> IsNewest(dir, newest.value)
  {
    var listing := ReadDir(dir);
    var best: Stamp := 0;
    for i := 0 to |listing|
      invariant best == 0 || (best > 0 && best in dir)
      invariant forall k :: 0 <= k < i ==> listing[k] <= best
    {
      if listing[i] > best {
        best := listing[i];
      }
    }
    forall m | m in dir ensures m <= best {
      var k :| 0 <= k < |listing| && listing[k] == m;
    }
    newest := if best == 0 then None else Some(best);
  }

  lemma {:induction false} HasMaximum(s: set<Stamp>) returns (m: Stamp)
    requires s != {}
    ensures m in s && forall x :: x in s ==> x <= m
    decreases |s|
  {
    var x :| x in s;
    if s == {x} {
      m := x;
    } else {
      var m' := HasMaximum(s - {x});
      m := if m' < x then x else m';
      assert s == s - {x} + {x};
    }
  }

  /** A snapshot is read back as current exactly when its stamp is positive and no file is
      stamped later; otherwise the future file wins bucket 0 and the write itself is pruned. */
  lemma ReadAfterWriteExactly(dir: Dir, now: Stamp, file: File)
    ensures IsNewest(AfterWrite(dir, now, file), now) <==> now > 0 && forall m :: m in dir ==> m <= now
    ensures (exists m :: m in dir && m > now) ==> now !in AfterWrite(dir, now, file)
  {
    var all := dir[now := file];
    assert now in all.Keys;
    var m := HasMaximum(all.Keys);
    assert m >= now && BucketOf(now, m) == Bucket(0, 0);
    assert m in AfterWrite(dir, now, file);
    if x :| x in dir && x > now {
      assert x in all.Keys && x <= m;
      assert BucketOf(now, now) == BucketOf(now, m);
      assert !Survives(all.Keys, now, now);
    }
  }

  // ----- Key mode refines a plain map ---------------------------------------------------------

  /** The current snapshot's fields; no snapshot, or one that is no object, reads as empty. */
  ghost function Fields(dir: Dir): map<string, Value> {
    if exists ns :: IsNewest(dir, ns) then
      var ns :| IsNewest(dir, ns);
      if dir[ns].body.Keyed? then dir[ns].body.fields else map[]
    else map[]
  }

  datatype SetOp = SetOp(key: string, value: Value, at: Stamp, size: nat)

  ghost function AfterSet(dir: Dir, op: SetOp): Dir {
    AfterWrite(dir, op.at, File(Keyed(Fields(dir)[op.key := op.value]), op.size))
  }

  ghost function AfterSets(dir: Dir, ops: seq<SetOp>): Dir {
    if ops == [] then dir else AfterSet(AfterSets(dir, ops[..|ops| - 1]), ops[|ops| - 1])
  }

  /** The plain map the domain stands for. */
  ghost function Replay(m: map<string, Value>, ops: seq<SetOp>): map<string, Value> {
    if ops == [] then m else Replay(m, ops[..|ops| - 1])[ops[|ops| - 1].key := ops[|ops| - 1].value]
  }

  ghost predicate ClockOk(dir: Dir, ops: seq<SetOp>) {
    && (forall i :: 0 <= i < |ops| ==> ops[i].at > 0 && forall m :: m in dir ==> m < ops[i].at)
    && (forall i, j :: 0 <= i < j < |ops| ==> ops[i].at < ops[j].at)
  }

  lemma {:induction false} StampsAreKnown(dir: Dir, ops: seq<SetOp>, m: Stamp)
    requires m in AfterSets(dir, ops)
    ensures m in dir || exists i :: 0 <= i < |ops| && ops[i].at == m
  {
    if ops != [] {
      var n := |ops| - 1;
      if m != ops[n].at {
        StampsAreKnown(dir, ops[..n], m);
        if m !in dir {
          var i :| 0 <= i < n && ops[..n][i].at == m;
          assert ops[i].at == m;
        }
      }
    }
  }

  /** Under a strictly increasing positive clock, pruning never shows through key mode: the
      domain reads as the plain map with every SetKey applied in order. */
  lemma {:induction false} KeyModeRefinesMap(dir: Dir, ops: seq<SetOp>)
    requires ClockOk(dir, ops)
    ensures Fields(AfterSets(dir, ops)) == Replay(Fields(dir), ops)
  {
    if ops != [] {
      var n := |ops| - 1;
      var before, op := AfterSets(dir, ops[..n]), ops[n];
      KeyModeRefinesMap(dir, ops[..n]);
      forall m | m in before ensures m <= op.at {
        StampsAreKnown(dir, ops[..n], m);
        if m !in dir {
          var i :| 0 <= i < n && ops[..n][i].at == m;
          assert ops[i].at < ops[n].at;
        }
      }
      var file := File(Keyed(Fields(before)[op.key := op.value]), op.size);
      ReadAfterWriteExactly(before, op.at, file);
      NewestDecidesFields(AfterSet(before, op), op.at);
    }
  }

  lemma NewestDecidesFields(dir: Dir, ns: Stamp)
    requires IsNewest(dir, ns) && dir[ns].body.Keyed?
    ensures Fields(dir) == dir[ns].body.fields
  {}

  // ----- The store and its size counter -------------------------------------------------------

  datatype AttrsFile = AttrsFile(fields: map<string, Value>, size: nat)

  /** Everything under the root, and the counter that is only ever changed by deltas. */
  datatype Root = Root(doms: map<string, Dir>, attrs: Option<AttrsFile>, sizeBytes: int)

  /** Sizes are the lengths of the marshalled JSON. */
  datatype StoreOp =
    | WriteBody(name: string, at: Stamp, body: Body, size: nat)
    | SetField(name: string, op: SetOp)
    | AttrsPut(key: string, value: Value, size: nat)
    | AttrsDrop(key: string, size: nat)
    | ClearAll

  function Files(r: Root, name: string): Dir {
    if name in r.doms then r.doms[name] else map[]
  }

  function AttrFields(r: Root): map<string, Value> {
    if r.attrs.Some? then r.attrs.value.fields else map[]
  }

  function AttrBytes(r: Root): nat {
    if r.attrs.Some? then r.attrs.value.size else 0
  }

  ghost function BytesOf(): Dir -> int { (d: Dir) => Bytes(d) }

  /** What a walk over the root adds up. */
  ghost function DiskBytes(r: Root): int {
    MapSum(r.doms, BytesOf()) + AttrBytes(r)
  }

  /** writeLocked: the delta is the new file minus what prune removed. */
  ghost function WriteFile(r: Root, name: string, at: Stamp, file: File): Root {
    var all := Files(r, name)[at := file];
    var kept := Retained(all, at);
    r.(doms := r.doms[name := kept], sizeBytes := r.sizeBytes + file.size - (Bytes(all) - Bytes(kept)))
  }

  ghost function StoreStep(r: Root, op: StoreOp): Root {
    match op
    case WriteBody(name, at, body, size) => WriteFile(r, name, at, File(body, size))
    case SetField(name, o) => WriteFile(r, name, o.at, File(Keyed(Fields(Files(r, name))[o.key := o.value]), o.size))
    case AttrsPut(key, value, size) =>
      r.(attrs := Some(AttrsFile(AttrFields(r)[key := value], size)), sizeBytes := r.sizeBytes + size - AttrBytes(r))
    case AttrsDrop(key, size) =>
      if key !in AttrFields(r) then r
      else r.(attrs := Some(AttrsFile(AttrFields(r) - {key}, size)), sizeBytes := r.sizeBytes + size - AttrBytes(r))
    case ClearAll => Root(map[], None, 0)
  }

  /** Size of the file, if any, whose name the operation reuses. */
  ghost function Overwritten(r: Root, op: StoreOp): nat {
    match op
    case WriteBody(name, at, _, _) => if at in Files(r, name) then Files(r, name)[at].size else 0
    case SetField(name, o) => if o.at in Files(r, name) then Files(r, name)[o.at].size else 0
    case _ => 0
  }

  lemma WriteFileDrift(r: Root, name: string, at: Stamp, file: File)
    ensures
      var t := WriteFile(r, name, at, file);
      var lost := if at in Files(r, name) then Files(r, name)[at].size else 0;
      t.sizeBytes - DiskBytes(t) == r.sizeBytes - DiskBytes(r) + lost
  {
    var dir := Files(r, name);
    assert name !in r.doms ==> Bytes(dir) == 0;
    MapSumPut(dir, at, file, SizeOf());
    MapSumPut(r.doms, name, Retained(dir[at := file], at), BytesOf());
  }

  ghost function StoreRun(r: Root, ops: seq<StoreOp>): Root {
    if ops == [] then r else StoreStep(StoreRun(r, ops[..|ops| - 1]), ops[|ops| - 1])
  }

  /** Bytes lost to reused names since the last Clear. */
  ghost function LostBytes(r: Root, ops: seq<StoreOp>): nat {
    if ops == [] then 0
    else if ops[|ops| - 1].ClearAll? then 0
    else LostBytes(r, ops[..|ops| - 1]) + Overwritten(StoreRun(r, ops[..|ops| - 1]), ops[|ops| - 1])
  }

  /** Over any sequence of operations the counter exceeds the true size by exactly the
      bytes of files whose nanosecond name was reused. */
  lemma {:induction false} SizeCounterDrift(r: Root, ops: seq<StoreOp>)
    requires r.sizeBytes == DiskBytes(r)
    ensures StoreRun(r, ops).sizeBytes == DiskBytes(StoreRun(r, ops)) + LostBytes(r, ops)
  {
    if ops != [] {
      var before, op := StoreRun(r, ops[..|ops| - 1]), ops[|ops| - 1];
      SizeCounterDrift(r, ops[..|ops| - 1]);
      match op
      case WriteBody(name, at, body, size) => WriteFileDrift(before, name, at, File(body, size));
      case SetField(name, o) =>
        WriteFileDrift(before, name, o.at, File(Keyed(Fields(Files(before, name))[o.key := o.value]), o.size));
      case _ =>
    }
  }

  /** The counter can be wrong: a second write under the same name counts its file twice. */
  lemma SizeCounterCanDrift(name: string, body: Body, size: nat)
    ensures
      var r, op := Root(map[], None, 0), WriteBody(name, 1, body, size);
      && r.sizeBytes == DiskBytes(r) && LostBytes(r, [op, op]) == size
      && StoreRun(r, [op, op]).sizeBytes == DiskBytes(StoreRun(r, [op, op])) + size
  {
    var r, op := Root(map[], None, 0), WriteBody(name, 1, body, size);
    RunOneMore(r, [], op);
    RunOneMore(r, [op], op);
    assert [] + [op] == [op] && [op] + [op] == [op, op];
    FirstWrite(r, name, body, size);
    SizeCounterDrift(r, [op, op]);
  }

  lemma RunOneMore(r: Root, ops: seq<StoreOp>, op: StoreOp)
    ensures StoreRun(r, ops + [op]) == StoreStep(StoreRun(r, ops), op)
    ensures !op.ClearAll? ==>
      LostBytes(r, ops + [op]) == LostBytes(r, ops) + Overwritten(StoreRun(r, ops), op)
  {
    assert (ops + [op])[..|ops|] == ops;
  }

  lemma FirstWrite(r: Root, name: string, body: Body, size: nat)
    requires r.doms == map[]
    ensures Files(StoreStep(r, WriteBody(name, 1, body, size)), name) == map[1 := File(body, size)]
  {
    var file := File(body, size);
    assert Files(r, name)[1 := file] == map[1 := file];
    assert Retained(map[1 := file], 1) == map[1 := file];
  }

  /** No write reuses the name of a file that is still there. */
  ghost predicate NewNames(r: Root, ops: seq<StoreOp>) {
    ops == [] ||
    (NewNames(r, ops[..|ops| - 1]) && Overwritten(StoreRun(r, ops[..|ops| - 1]), ops[|ops| - 1]) == 0)
  }

  lemma {:induction false} NothingLost(r: Root, ops: seq<StoreOp>)
    requires NewNames(r, ops)
    ensures LostBytes(r, ops) == 0
  {
    if ops != [] { NothingLost(r, ops[..|ops| - 1]); }
  }

  /** With new names the counter is what a walk over the root would find. */
  lemma SizeCounterExact(r: Root, ops: seq<StoreOp>)
    requires r.sizeBytes == DiskBytes(r) && NewNames(r, ops)
    ensures StoreRun(r, ops).sizeBytes == DiskBytes(StoreRun(r, ops))
  {
    NothingLost(r, ops);
    SizeCounterDrift(r, ops);
  }

  method SumFiles(dir: Dir) returns (total: int)
    ensures total == Bytes(dir)
  {
    total := 0;
    var rest := dir;
    while rest != map[]
      invariant total + Bytes(rest) == Bytes(dir)
      decreases |rest|
    {
      var ns :| ns in rest;
      MapSumRemove(rest, ns, SizeOf());
      total := total + rest[ns].size;
      rest := rest - {ns};
    }
  }

  /** dirSize: a walk over everything under the root. */
  method DirSize(doms: map<string, Dir>, attrs: Option<AttrsFile>) returns (total: int)
    ensures total == DiskBytes(Root(doms, attrs, 0))
  {
    total := if attrs.Some? then attrs.value.size else 0;
    var rest := doms;
    while rest != map[]
      invariant total + MapSum(rest, BytesOf()) == DiskBytes(Root(doms, attrs, 0))
      decreases |rest|
    {
      var name :| name in rest;
      MapSumRemove(rest, name, BytesOf());
      var files := SumFiles(rest[name]);
      total := total + files;
      rest := rest - {name};
    }
  }

  class Store {
    var doms: map<string, Dir>
    var attrs: Option<AttrsFile>
    var sizeBytes: int

    function View(): Root
      reads this
    {
      Root(doms, attrs, sizeBytes)
    }

    /** New measures what is already under the root once. */
    constructor (doms: map<string, Dir>, attrs: Option<AttrsFile>)
      ensures this.doms == doms && this.attrs == attrs && sizeBytes == DiskBytes(View())
    {
      this.doms, this.attrs := doms, attrs;
      var measured := DirSize(doms, attrs);
      sizeBytes := measured;
    }

    method Write(name: string, at: Stamp, body: Body, size: nat)
      modifies this
      ensures View() == StoreStep(old(View()), WriteBody(name, at, body, size))
    {
      var dir := Files(View(), name);
      var kept, pruned := Prune(dir[at := File(body, size)], at);
      doms := doms[name := kept];
      sizeBytes := sizeBytes + (size - pruned);
    }

    /** The current snapshot as an object; anything unreadable counts as empty. */
    method ReadFields(name: string) returns (fields: map<string, Value>)
      ensures fields == Fields(Files(View(), name))
    {
      var dir := Files(View(), name);
      var newest := NewestFile(dir);
      fields := map[];
      if newest.Some? && dir[newest.value].body.Keyed? {
        fields := dir[newest.value].body.fields;
      }
    }

    method SetKey(name: string, op: SetOp)
      modifies this
      ensures View() == StoreStep(old(View()), SetField(name, op))
    {
      var fields := ReadFields(name);
      Write(name, op.at, Keyed(fields[op.key := op.value]), op.size);
    }

    method GetKey(name: string, key: string) returns (value: Option<Value>)
      ensures var fields := Fields(Files(View(), name));
        value == if key in fields then Some(fields[key]) else None
    {
      var fields := ReadFields(name);
      value := if key in fields then Some(fields[key]) else None;
    }

    method AttrsSet(key: string, value: Value, size: nat)
      modifies this`attrs, this`sizeBytes
      ensures View() == StoreStep(old(View()), AttrsPut(key, value, size))
    {
      var fields: map<string, Value>, oldSize := map[], 0;
      if attrs.Some? {
        fields, oldSize := attrs.value.fields, attrs.value.size;
      }
      attrs := Some(AttrsFile(fields[key := value], size));
      sizeBytes := sizeBytes + (size - oldSize);
    }

    method AttrsDelete(key: string, size: nat)
      modifies this`attrs, this`sizeBytes
      ensures View() == StoreStep(old(View()), AttrsDrop(key, size))
    {
      if attrs.None? || key !in attrs.value.fields { return; }
      sizeBytes := sizeBytes + (size - attrs.value.size);
      attrs := Some(AttrsFile(attrs.value.fields - {key}, size));
    }

    /** Everything is removed and the counter measured afresh. */
    method Clear()
      modifies this
      ensures View() == StoreStep(old(View()), ClearAll) && sizeBytes == DiskBytes(View())
    {
      doms, attrs, sizeBytes := map[], None, 0;
    }
  }
}
