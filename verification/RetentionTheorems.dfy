/** Exactly when the snapshot store keeps what its tiers promise, over whole runs of writes. */
module RetentionTheorems {
  import opened SnapshotStore

  lemma WrittenStep(ws: seq<Write>, n: nat)
    requires 0 < n <= |ws|
    ensures Written(ws[..n]) == AfterWrite(Written(ws[..n - 1]), ws[n - 1].at, ws[n - 1].file)
  {
    assert ws[..n][..n - 1] == ws[..n - 1];
  }

  /** What is in the directory was written, and no later than the last write. */
  lemma WrittenIndex(ws: seq<Write>, n: nat, m: Stamp) returns (k: nat)
    requires n <= |ws| && m in Written(ws[..n])
    ensures k < n && ws[k].at == m
  {
    WrittenComesFromWrites(ws[..n], m);
    k :| 0 <= k < n && ws[..n][k].at == m;
  }

  // ----- A tier is complete ----------------------------------------------------------------------

  /** After every write, every snapshot within the tier's horizon is there. */
  ghost predicate TierComplete(ws: seq<Write>, tier: nat)
    requires tier < 3
  {
    forall n, k :: 0 <= k < n <= |ws| && ws[n - 1].at - ws[k].at <= Horizon(tier) ==> Kept(ws, n, k)
  }

  ghost predicate Kept(ws: seq<Write>, n: nat, k: nat)
    requires k < n <= |ws|
  {
    ws[k].at in Written(ws[..n])
  }

  /** At no write are two snapshots within the tier's horizon in one bucket. */
  ghost predicate NeverShare(ws: seq<Write>, tier: nat)
    requires tier < 3
  {
    forall n, i, j :: 0 <= i < j < n <= |ws| && ws[n - 1].at - ws[i].at <= Horizon(tier) ==> !Share(ws, n, i, j)
  }

  predicate Share(ws: seq<Write>, n: nat, i: nat, j: nat)
    requires i < j < n <= |ws|
  {
    BucketOf(ws[n - 1].at, ws[i].at) == BucketOf(ws[n - 1].at, ws[j].at)
  }

  /** Of two snapshots in one bucket only the newer can be there. */
  lemma SharedIsLost(ws: seq<Write>, n: nat, i: nat, j: nat)
    requires Increasing(ws) && i < j < n <= |ws| && Share(ws, n, i, j) && Kept(ws, n, j)
    ensures !Kept(ws, n, i)
  {
    WrittenStep(ws, n);
    assert ws[i].at < ws[j].at;
  }

  lemma NewerIsElsewhere(ws: seq<Write>, tier: nat, n: nat, k: nat, m: Stamp)
    requires Increasing(ws) && tier < 3 && NeverShare(ws, tier) && k < n <= |ws|
    requires ws[n - 1].at - ws[k].at <= Horizon(tier)
    requires m in Written(ws[..n - 1]) || m == ws[n - 1].at
    requires m > ws[k].at
    ensures BucketOf(ws[n - 1].at, m) != BucketOf(ws[n - 1].at, ws[k].at)
  {
    var j := n - 1;
    if m != ws[n - 1].at { j := WrittenIndex(ws, n - 1, m); }
    assert ws[k].at < ws[j].at;
    assert !Share(ws, n, k, j);
  }

  lemma NewestOfBucketStays(dir: Dir, now: Stamp, ns: Stamp)
    requires ns in dir && !TooOld(now, ns)
    requires forall m :: m in dir && m > ns ==> BucketOf(now, m) != BucketOf(now, ns)
    ensures ns in Retained(dir, now)
  {}

  lemma {:induction false} UnsharedIsKept(ws: seq<Write>, tier: nat, n: nat, k: nat)
    requires Increasing(ws) && tier < 3 && NeverShare(ws, tier) && k < n <= |ws|
    requires ws[n - 1].at - ws[k].at <= Horizon(tier)
    ensures Kept(ws, n, k)
    decreases n
  {
    var now, ns := ws[n - 1].at, ws[k].at;
    var dir := Written(ws[..n - 1])[now := ws[n - 1].file];
    if k < n - 1 {
      assert ws[n - 2].at < ws[n - 1].at;
      UnsharedIsKept(ws, tier, n - 1, k);
    }
    forall m | m in dir && m > ns ensures BucketOf(now, m) != BucketOf(now, ns) {
      NewerIsElsewhere(ws, tier, n, k, m);
    }
    NewestOfBucketStays(dir, now, ns);
    WrittenStep(ws, n);
  }

  /** For each tier: nothing within its horizon is ever missing exactly when no two writes
      within it ever share a bucket. */
  lemma TierCompleteExactly(ws: seq<Write>, tier: nat)
    requires Increasing(ws) && tier < 3
    ensures TierComplete(ws, tier) <==> NeverShare(ws, tier)
  {
    if NeverShare(ws, tier) {
      forall n, k | 0 <= k < n <= |ws| && ws[n - 1].at - ws[k].at <= Horizon(tier) ensures Kept(ws, n, k) {
        UnsharedIsKept(ws, tier, n, k);
      }
    }
    if TierComplete(ws, tier) {
      forall n, i, j | 0 <= i < j < n <= |ws| && ws[n - 1].at - ws[i].at <= Horizon(tier) ensures !Share(ws, n, i, j) {
        assert ws[i].at < ws[j].at;
        assert Kept(ws, n, i) && Kept(ws, n, j);
        if Share(ws, n, i, j) { SharedIsLost(ws, n, i, j); }
      }
    }
  }

  // ----- Five-minute resolution --------------------------------------------------------------------

  /** Some snapshot stands for write k: one from k on, less than five minutes later. */
  ghost predicate StandsIn(ws: seq<Write>, n: nat, k: nat)
    requires k < n <= |ws|
  {
    exists m :: m in Written(ws[..n]) && ws[k].at <= m < ws[k].at + 5 * MINUTE
  }

  /** After every write, every write of the last hour has such a snapshot. */
  ghost predicate FiveMinuteResolution(ws: seq<Write>) {
    forall n, k :: 0 <= k < n <= |ws| && ws[n - 1].at - ws[k].at <= HOUR ==> StandsIn(ws, n, k)
  }

  /** Consecutive writes from i to j are less than five minutes apart. */
  ghost predicate Burst(ws: seq<Write>, i: nat, j: nat)
    requires i <= j < |ws|
  {
    forall g: nat :: i <= g < j ==> GapAfter(ws, g) < 5 * MINUTE
  }

  /** No burst lasts five minutes. */
  ghost predicate ShortBursts(ws: seq<Write>) {
    forall i, j :: 0 <= i < j < |ws| && Burst(ws, i, j) ==> ws[j].at - ws[i].at < 5 * MINUTE
  }

  /** The last write before n that continues a burst from k. */
  lemma BurstEnd(ws: seq<Write>, k: nat, n: nat) returns (e: nat)
    requires k < n <= |ws|
    ensures k <= e < n && Burst(ws, k, e)
    ensures e < n - 1 ==> GapAfter(ws, e) >= 5 * MINUTE
    decreases n - k
  {
    e := k;
    if k + 1 < n && GapAfter(ws, k) < 5 * MINUTE {
      e := BurstEnd(ws, k + 1, n);
      forall g: nat | k <= g < e ensures GapAfter(ws, g) < 5 * MINUTE {
        assert g == k || g >= k + 1;
      }
    }
  }

  /** A snapshot followed by a pause of five minutes is there for an hour. */
  lemma {:induction false} PauseKeeps(ws: seq<Write>, e: nat, n: nat)
    requires Increasing(ws) && e < n <= |ws| && ws[n - 1].at - ws[e].at <= HOUR
    requires e < n - 1 ==> GapAfter(ws, e) >= 5 * MINUTE
    ensures Kept(ws, n, e)
    decreases n
  {
    var now, dir := ws[n - 1].at, Written(ws[..n - 1])[ws[n - 1].at := ws[n - 1].file];
    if e < n - 1 {
      assert ws[n - 2].at < ws[n - 1].at;
      PauseKeeps(ws, e, n - 1);
    }
    forall m | m in dir ensures m <= now && (m > ws[e].at ==> m - ws[e].at >= 5 * MINUTE) {
      var j := n - 1;
      if m != now { j := WrittenIndex(ws, n - 1, m); }
      AfterPause(ws, e, j, n);
    }
    DistantFileSurvives(dir, now, ws[e].at, 0);
    WrittenStep(ws, n);
  }

  lemma AfterPause(ws: seq<Write>, e: nat, j: nat, n: nat)
    requires Increasing(ws) && e < n <= |ws| && j < n && (e < n - 1 ==> GapAfter(ws, e) >= 5 * MINUTE)
    ensures ws[j].at <= ws[n - 1].at
    ensures ws[j].at > ws[e].at ==> ws[j].at - ws[e].at >= 5 * MINUTE
  {
    assert j < n - 1 ==> ws[j].at < ws[n - 1].at;
    if j > e {
      assert j > e + 1 ==> ws[e + 1].at < ws[j].at;
    } else {
      assert j < e ==> ws[j].at < ws[e].at;
    }
  }

  lemma ShortBurstsResolve(ws: seq<Write>, n: nat, k: nat)
    requires Increasing(ws) && ShortBursts(ws) && k < n <= |ws| && ws[n - 1].at - ws[k].at <= HOUR
    ensures StandsIn(ws, n, k)
  {
    var e := BurstEnd(ws, k, n);
    if k < e { assert ws[k].at < ws[e].at && ws[e].at - ws[k].at < 5 * MINUTE; }
    PauseKeeps(ws, e, n);
  }

  /** Within a burst every write but the last is gone. */
  lemma {:induction false} BurstLoses(ws: seq<Write>, i: nat, j: nat, n: nat)
    requires Increasing(ws) && i < j < |ws| && GapAfter(ws, i) < 5 * MINUTE && i + 2 <= n <= j + 1
    ensures ws[i].at !in Written(ws[..n])
    decreases n
  {
    if n == i + 2 {
      assert ws[i].at < ws[i + 1].at;
      QuickWriteLosesOne(ws, i);
    } else {
      BurstLoses(ws, i, j, n - 1);
      assert ws[..n][..n - 1] == ws[..n - 1] && ws[i].at < ws[n - 1].at;
      NeverComesBack(ws[..n], ws[i].at);
    }
  }

  /** A burst of five minutes leaves its first write without a stand-in. */
  lemma LongBurstFails(ws: seq<Write>, i: nat, j: nat)
    requires Increasing(ws) && i < j < |ws| && Burst(ws, i, j) && ws[j].at - ws[i].at >= 5 * MINUTE
    ensures !StandsIn(ws, j + 1, i)
  {
    var dir := Written(ws[..j + 1]);
    forall m | m in dir ensures !(ws[i].at <= m < ws[i].at + 5 * MINUTE) {
      var k := WrittenIndex(ws, j + 1, m);
      if k < i {
        assert ws[k].at < ws[i].at;
      } else if k < j {
        assert GapAfter(ws, k) < 5 * MINUTE;
        BurstLoses(ws, k, j, j + 1);
      }
    }
  }

  /** A burst that lasts five minutes has a beginning that does and lasts less than ten. */
  lemma {:induction false} ShortestLongBurst(ws: seq<Write>, i: nat, j: nat) returns (e: nat)
    requires Increasing(ws) && i < j < |ws| && Burst(ws, i, j) && ws[j].at - ws[i].at >= 5 * MINUTE
    ensures i < e <= j && Burst(ws, i, e) && 5 * MINUTE <= ws[e].at - ws[i].at < 10 * MINUTE
    decreases j
  {
    e := j;
    assert GapAfter(ws, j - 1) < 5 * MINUTE;
    if ws[j - 1].at - ws[i].at >= 5 * MINUTE {
      e := ShortestLongBurst(ws, i, j - 1);
    }
  }

  /** "5-minute resolution for the last hour" holds exactly when no burst lasts five minutes. */
  lemma FiveMinuteResolutionExactly(ws: seq<Write>)
    requires Increasing(ws)
    ensures FiveMinuteResolution(ws) <==> ShortBursts(ws)
  {
    if ShortBursts(ws) {
      forall n, k | 0 <= k < n <= |ws| && ws[n - 1].at - ws[k].at <= HOUR ensures StandsIn(ws, n, k) {
        ShortBurstsResolve(ws, n, k);
      }
    } else {
      var i, j :| 0 <= i < j < |ws| && Burst(ws, i, j) && ws[j].at - ws[i].at >= 5 * MINUTE;
      var e := ShortestLongBurst(ws, i, j);
      LongBurstFails(ws, i, e);
      assert ws[(e + 1) - 1].at - ws[i].at <= HOUR;
    }
  }
}
