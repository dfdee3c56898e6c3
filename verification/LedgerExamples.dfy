/** Runs of the incident ledger in which what the documentation promises fails. */
module LedgerExamples {
  import opened Sorting
  import opened IncidentLedger

  /** An incident reported once, and perhaps resolved. */
  function Filed(fp: string, seen: nat, mark: Mark): Incident {
    Incident(fp, "", "", "", if mark.At? then Resolved else Open, seen, seen, 1, [], mark, "")
  }

  function Reported(fp: string, now: nat): Op { Report(fp, "", "", "", now, now) }

  function Resolution(fp: string, now: nat): Op { Resolve(fp, "", now, now) }

  predicate IsName(fp: string) { fp != "" && Normalise(fp) == fp }

  // ---------------------------------------------------------------- steps that drop nothing

  ghost predicate NoneExpired(list: seq<Incident>, cutoff: int) {
    forall x :: x in list ==> !Expired(x, cutoff)
  }

  lemma SavedWhole(list: seq<Incident>, cutoff: int)
    requires NoneExpired(list, cutoff) && |list| <= MAX_INCIDENTS
    ensures Saved(list, cutoff) == list
  {
    KeepAll(list, cutoff);
  }

  /** Reporting a fingerprint that is not on file. */
  lemma ReportAdds(stored: seq<Incident>, loaded: seq<Incident>, fp: string, now: nat)
    requires StableSort(stored, Before) == loaded && IsName(fp) && |loaded| < MAX_INCIDENTS
    requires forall x :: x in loaded ==> x.fingerprint != fp
    requires NoneExpired(loaded, now - RESOLVED_RETENTION)
    ensures Step(stored, Reported(fp, now)) == loaded + [Filed(fp, now, Unset)]
  {
    var op := Reported(fp, now);
    assert Cutoff(op) == now - RESOLVED_RETENTION;
    assert Created(op) == Filed(fp, now, Unset);
    NotFound(stored, loaded, op);
    SavedWhole(loaded + [Filed(fp, now, Unset)], Cutoff(op));
  }

  /** Resolving the open incident at position i. */
  lemma ResolveMarks(stored: seq<Incident>, loaded: seq<Incident>, i: nat, fp: string, seen: nat, now: nat)
    requires StableSort(stored, Before) == loaded && IsName(fp) && |loaded| <= MAX_INCIDENTS
    requires i < |loaded| && loaded[i] == Filed(fp, seen, Unset)
    requires forall j :: 0 <= j < i ==> loaded[j].fingerprint != fp
    requires NoneExpired(loaded, now - RESOLVED_RETENTION)
    ensures Step(stored, Resolution(fp, now)) == loaded[i := Filed(fp, seen, At(now))]
  {
    var x := Filed(fp, seen, At(now));
    ResolveEdits(stored, loaded, i, fp, seen, now);
    UpdateExpires(loaded, i, x, now - RESOLVED_RETENTION);
    SavedWhole(loaded[i := x], now - RESOLVED_RETENTION);
  }

  lemma ResolveEdits(stored: seq<Incident>, loaded: seq<Incident>, i: nat, fp: string, seen: nat, now: nat)
    requires StableSort(stored, Before) == loaded && IsName(fp)
    requires i < |loaded| && loaded[i] == Filed(fp, seen, Unset)
    requires forall j :: 0 <= j < i ==> loaded[j].fingerprint != fp
    ensures Step(stored, Resolution(fp, now)) ==
      Saved(loaded[i := Filed(fp, seen, At(now))], now - RESOLVED_RETENTION)
  {
    var op := Resolution(fp, now);
    assert Cutoff(op) == now - RESOLVED_RETENTION;
    assert Touched(loaded[i], op) == Filed(fp, seen, At(now));
    FoundAt(stored, loaded, op, i);
  }

  lemma UpdateExpires(list: seq<Incident>, i: nat, x: Incident, cutoff: int)
    requires i < |list| && NoneExpired(list, cutoff) && !Expired(x, cutoff)
    ensures NoneExpired(list[i := x], cutoff)
  {}

  // ---------------------------------------------------------------- an answer that is another incident

  lemma KeepLastTwo(a: Incident, b: Incident, c: Incident, cutoff: int)
    requires Expired(a, cutoff) && !Expired(b, cutoff) && !Expired(c, cutoff)
    ensures Keep([a, b, c], cutoff) == [b, c] && Compacted([a, b, c], cutoff) == [b, c, c]
  {
    assert [a, b, c] == [a] + [b, c];
    KeepConcat([a], [b, c], cutoff);
    KeepAll([b, c], cutoff);
  }

  /** An entry that leaves from in front of b lets c into the slot that is read back. */
  lemma NeighbourAnswers(stored: seq<Incident>, a: Incident, b: Incident, c: Incident, op: Op)
    requires StableSort(stored, Before) == [a, b, c]
    requires op.Report? && Target(op) == b.fingerprint != a.fingerprint && Target(op) != ""
    requires Expired(a, Cutoff(op)) && !Expired(c, Cutoff(op))
    ensures ReplyTo(stored, op) == Found(c)
  {
    var b', cutoff := Touched(b, op), Cutoff(op);
    SlotIsRead(stored, [a, b, c], op, 1, [a, b', c]);
    KeepLastTwo(a, b', c, cutoff);
  }

  lemma SlotIsRead(stored: seq<Incident>, loaded: seq<Incident>, op: Op, i: nat, edited: seq<Incident>)
    requires StableSort(stored, Before) == loaded && op.Report? && Target(op) != ""
    requires i < |loaded| && loaded[i].fingerprint == Target(op)
    requires forall j :: 0 <= j < i ==> loaded[j].fingerprint != Target(op)
    requires edited == loaded[i := Touched(loaded[i], op)]
    ensures |Compacted(edited, Cutoff(op))| > i
    ensures ReplyTo(stored, op) == Found(Compacted(edited, Cutoff(op))[i])
  {
    FoundAt(stored, loaded, op, i);
  }

  lemma SortOne(x: Incident)
    ensures StableSort([x], Before) == [x]
  {
    SortOfSorted([x], Before);
  }

  lemma SortTwo(x: Incident, y: Incident)
    ensures StableSort([x, y], Before) == if Before(x, y) then [x, y] else [y, x]
  {
    SortOne(x);
    assert [x, y][..1] == [x] && [x][..0] == [];
    assert Insert([x], y, Before) == if Before(x, y) then [x, y] else [y, x];
  }

  /** The last of three goes in front of the two before it. */
  lemma SortThree(x: Incident, y: Incident, z: Incident)
    requires Before(x, y) && !Before(x, z) && !Before(y, z)
    ensures StableSort([x, y, z], Before) == [z, x, y]
  {
    SortTwo(x, y);
    assert [x, y, z][..2] == [x, y];
    assert [x, y][..1] == [x] && [x][..0] == [];
    assert Insert([x], z, Before) == [z, x];
    assert Insert([x, y], z, Before) == [z, x] + [y];
  }

  /** The first of three goes behind the two after it. */
  lemma SortThreeFirst(x: Incident, y: Incident, z: Incident)
    requires !Before(x, y) && !Before(x, z) && Before(y, z)
    ensures StableSort([x, y, z], Before) == [y, z, x]
  {
    SortTwo(x, y);
    assert [x, y, z][..2] == [x, y];
    assert [y, x][..1] == [y] && [y][..0] == [];
    assert Insert([y], z, Before) == [y, z];
    assert Insert([y, x], z, Before) == [y, z] + [x];
  }

  datatype Run = Run(ops: seq<Op>, ledgers: seq<seq<Incident>>)

  ghost predicate RunOk(r: Run) { IsRun(r.ops, r.ledgers) }

  ghost function Final(r: Run): seq<Incident>
    requires RunOk(r)
  {
    r.ledgers[|r.ops|]
  }

  lemma NoOps() returns (r: Run)
    ensures RunOk(r) && Final(r) == []
  {
    r := Run([], [[]]);
  }

  /** A run can be continued by any operation. */
  lemma Continue(r: Run, op: Op, next: seq<Incident>) returns (r': Run)
    requires RunOk(r) && next == Step(Final(r), op)
    ensures RunOk(r') && Final(r') == next && r'.ops == r.ops + [op] && r'.ledgers == r.ledgers + [next]
  {
    r' := Run(r.ops + [op], r.ledgers + [next]);
  }

  lemma AndReport(r: Run, loaded: seq<Incident>, fp: string, now: nat) returns (r': Run)
    requires RunOk(r) && StableSort(Final(r), Before) == loaded && IsName(fp) && |loaded| < MAX_INCIDENTS
    requires forall x :: x in loaded ==> x.fingerprint != fp
    requires NoneExpired(loaded, now - RESOLVED_RETENTION)
    ensures RunOk(r') && Final(r') == loaded + [Filed(fp, now, Unset)]
  {
    ReportAdds(Final(r), loaded, fp, now);
    r' := Continue(r, Reported(fp, now), loaded + [Filed(fp, now, Unset)]);
  }

  /** Resolves the first incident as loaded. */
  lemma AndResolve(r: Run, loaded: seq<Incident>, fp: string, seen: nat, now: nat) returns (r': Run)
    requires RunOk(r) && StableSort(Final(r), Before) == loaded && IsName(fp) && 0 < |loaded| <= MAX_INCIDENTS
    requires loaded[0] == Filed(fp, seen, Unset) && NoneExpired(loaded, now - RESOLVED_RETENTION)
    ensures RunOk(r') && Final(r') == [Filed(fp, seen, At(now))] + loaded[1..]
  {
    ResolveMarks(Final(r), loaded, 0, fp, seen, now);
    assert loaded[0 := Filed(fp, seen, At(now))] == [Filed(fp, seen, At(now))] + loaded[1..];
    r' := Continue(r, Resolution(fp, now), [Filed(fp, seen, At(now))] + loaded[1..]);
  }

  predicate Names(a: string, b: string, c: string) {
    IsName(a) && IsName(b) && IsName(c) && a != b && b != c && a != c
  }

  lemma TwoReports(a: string, b: string, c: string) returns (r: Run)
    requires Names(a, b, c)
    ensures RunOk(r) && Final(r) == [Filed(c, 0, Unset), Filed(b, 1, Unset)]
  {
    r := NoOps();
    r := AndReport(r, [], c, 0);
    SortOne(Filed(c, 0, Unset));
    assert Final(r) == [Filed(c, 0, Unset)];
    r := AndReport(r, [Filed(c, 0, Unset)], b, 1);
  }

  /** Three incidents are reported, seen at 0, 1 and 2. */
  lemma ThreeReports(a: string, b: string, c: string) returns (r: Run)
    requires Names(a, b, c)
    ensures RunOk(r) && Final(r) == [Filed(b, 1, Unset), Filed(c, 0, Unset), Filed(a, 2, Unset)]
  {
    var y, z := Filed(b, 1, Unset), Filed(c, 0, Unset);
    r := TwoReports(a, b, c);
    SortTwo(z, y);
    r := AndReport(r, [y, z], a, 2);
  }

  lemma FirstResolved(a: string, b: string, c: string) returns (r: Run)
    requires Names(a, b, c)
    ensures RunOk(r) && Final(r) == [Filed(a, 2, At(3)), Filed(b, 1, Unset), Filed(c, 0, Unset)]
  {
    var x, y, z := Filed(a, 2, Unset), Filed(b, 1, Unset), Filed(c, 0, Unset);
    r := ThreeReports(a, b, c);
    assert StableSort(Final(r), Before) == [x, y, z] by { SortThree(y, z, x); }
    assert [x, y, z][1..] == [y, z];
    assert NoneExpired([x, y, z], 3 - RESOLVED_RETENTION);
    r := AndResolve(r, [x, y, z], a, 2, 3);
  }

  lemma SecondResolved(a: string, b: string, c: string) returns (r: Run)
    requires Names(a, b, c)
    ensures RunOk(r) && Final(r) == [Filed(b, 1, At(RESOLVED_RETENTION)), Filed(c, 0, Unset), Filed(a, 2, At(3))]
  {
    var x, y, z := Filed(a, 2, At(3)), Filed(b, 1, Unset), Filed(c, 0, Unset);
    r := FirstResolved(a, b, c);
    assert StableSort(Final(r), Before) == [y, z, x] by { SortThreeFirst(x, y, z); }
    assert NoneExpired([y, z, x], 0);
    assert [y, z, x][1..] == [z, x];
    r := AndResolve(r, [y, z, x], b, 1, RESOLVED_RETENTION);
  }

  /** a is resolved at once, the others a retention period later. */
  lemma AllResolved(a: string, b: string, c: string) returns (r: Run)
    requires Names(a, b, c)
    ensures RunOk(r)
    ensures Final(r) ==
      [Filed(c, 0, At(RESOLVED_RETENTION)), Filed(a, 2, At(3)), Filed(b, 1, At(RESOLVED_RETENTION))]
  {
    var x, y, z := Filed(a, 2, At(3)), Filed(b, 1, At(RESOLVED_RETENTION)), Filed(c, 0, Unset);
    r := SecondResolved(a, b, c);
    assert StableSort(Final(r), Before) == [z, x, y] by { SortThreeFirst(y, z, x); }
    assert NoneExpired([z, x, y], 0);
    assert [z, x, y][1..] == [x, y];
    r := AndResolve(r, [z, x, y], c, 0, RESOLVED_RETENTION);
  }

  /** Reporting b, resolved like the others, is answered with c: a, resolved too long ago, leaves
      from in front of b, and c moves into the slot that is read back. */
  lemma ReplyCanBeAnother(a: string, b: string, c: string) returns (r: Run, op: Op)
    requires Names(a, b, c)
    ensures RunOk(r) && op == Reported(b, RESOLVED_RETENTION + 5)
    ensures ReplyTo(Final(r), op) == Found(Filed(c, 0, At(RESOLVED_RETENTION)))
  {
    r := AllResolved(a, b, c);
    op := Reported(b, RESOLVED_RETENTION + 5);
    var x', y', z' := Filed(a, 2, At(3)), Filed(b, 1, At(RESOLVED_RETENTION)), Filed(c, 0, At(RESOLVED_RETENTION));
    assert StableSort(Final(r), Before) == [x', y', z'] by { SortThreeFirst(z', x', y'); }
    NeighbourAnswers(Final(r), x', y', z', op);
  }

  /** Three such names, so the run above is there. */
  lemma NamesExist() returns (a: string, b: string, c: string)
    ensures Names(a, b, c)
  {
    a, b, c := Name(0), Name(1), Name(2);
    NameOk(0);
    NameOk(1);
    NameOk(2);
  }

  /** The text of n + 1 times the letter x. */
  function Name(n: nat): string { seq(n + 1, i => 'x') }

  lemma NameOk(n: nat)
    ensures IsName(Name(n)) && |Name(n)| == n + 1
  {
    NormalIsFixed(Name(n));
  }

  // ---------------------------------------------------------------- an action on a resolved incident

  /** LogAction is described for open incidents, and takes a resolved one. */
  lemma LogActionOnResolved(fp: string, note: string) returns (r: Run, op: Op)
    requires IsName(fp)
    ensures RunOk(r) && Final(r) == [Filed(fp, 0, At(1))] && op == LogAction(fp, note, 2, 2)
    ensures var x := Filed(fp, 0, At(1)).(actions := [Action(2, note)], lastSeen := 2);
      Step(Final(r), op) == [x] && ReplyTo(Final(r), op) == Found(x)
  {
    var x := Filed(fp, 0, At(1));
    r := OneResolved(fp);
    op := LogAction(fp, note, 2, 2);
    SortOne(x);
    assert Touched(x, op) == x.(actions := [Action(2, note)], lastSeen := 2);
    NoteOnly(x, op);
  }

  lemma OneResolved(fp: string) returns (r: Run)
    requires IsName(fp)
    ensures RunOk(r) && Final(r) == [Filed(fp, 0, At(1))]
  {
    r := NoOps();
    r := AndReport(r, [], fp, 0);
    assert Final(r) == [Filed(fp, 0, Unset)];
    SortOne(Filed(fp, 0, Unset));
    assert [Filed(fp, 0, Unset)][1..] == [];
    r := AndResolve(r, [Filed(fp, 0, Unset)], fp, 0, 1);
  }

  lemma NoteOnly(x: Incident, op: Op)
    requires op.LogAction? && x.fingerprint == Target(op) && StableSort([x], Before) == [x]
    requires !Expired(x, Cutoff(op))
    ensures Step([x], op) == [Touched(x, op)] && ReplyTo([x], op) == Found(Touched(x, op))
  {
    FoundAt([x], [x], op, 0);
    assert [x][0 := Touched(x, op)] == [Touched(x, op)];
    KeepAll([Touched(x, op)], Cutoff(op));
  }

  // ---------------------------------------------------------------- a first report that is dropped

  /** n open incidents, all seen in the same second. */
  ghost predicate Busy(list: seq<Incident>, n: nat) {
    && LedgerOk(list) && |list| == n
    && forall x :: x in list ==> x.status.Open? && x.lastSeen == 0 && 1 <= |x.fingerprint| <= n
  }

  lemma BusyStep(list: seq<Incident>, n: nat)
    requires Busy(list, n) && n < MAX_INCIDENTS
    ensures Busy(Step(list, Reported(Name(n), 0)), n + 1)
  {
    var op := Reported(Name(n), 0);
    var loaded := StableSort(list, Before);
    NameOk(n);
    LoadedOk(list);
    ReportAdds(list, loaded, Name(n), 0);
    StepFrom(list, op);
    assert Step(list, op) == loaded + [Filed(Name(n), 0, Unset)];
  }

  lemma {:induction false} BusyRun(n: nat) returns (r: Run)
    requires n <= MAX_INCIDENTS
    ensures RunOk(r) && Busy(Final(r), n)
  {
    if n == 0 {
      r := NoOps();
    } else {
      r := BusyRun(n - 1);
      BusyStep(Final(r), n - 1);
      r := Continue(r, Reported(Name(n - 1), 0), Step(Final(r), Reported(Name(n - 1), 0)));
    }
  }

  /** The 101st first report of one second is answered as new and is not on file. */
  lemma NewReportCanBeDropped() returns (r: Run, op: Op)
    ensures RunOk(r) && op.Report? && Target(op) != "" && !Listed(Final(r), Target(op))
    ensures ReplyTo(Final(r), op) == New(Created(op)) && !Listed(Step(Final(r), op), Target(op))
  {
    r := BusyRun(MAX_INCIDENTS);
    op := Reported(Name(MAX_INCIDENTS), 0);
    NameOk(MAX_INCIDENTS);
    LoadedOk(Final(r));
    NotFound(Final(r), StableSort(Final(r), Before), op);
    NewReportKeptExactly(Final(r), op);
  }
}
