/** What every step of the gateway protocol keeps, and what follows at any moment of
    any run: conservation of requests, FIFO order, the concurrency bound and the exact
    meaning of the pending and ghost counters. */
module GatewayInvariant {
  import opened Collections
  import opened Sums
  import opened Gateway

  // ----- Per-request accounting ---------------------------------------------------

  function Bit(b: bool): int {
    if b then 1 else 0
  }

  predicate Accounted(r: Request) {
    (r.place.Closing? || r.place.Closed? || r.place.Finished?)
  }

  /** DecrPending calls made so far for r, by its handler and by forward(). */
  function DecrCalls(r: Request): int {
    Bit((r.handler.WonDecr? || r.handler.WonUnlisted? || r.handler.Departed?))
    + Bit(r.forwardWon && (r.place == FWonDecr || Accounted(r)))
  }

  function IncrCalls(r: Request): int {
    Bit((!r.handler.New? && !r.handler.Refused? && !r.handler.Sent?))
  }

  function GhostUps(r: Request): int {
    Bit(r.handler == Departed)
  }

  function GhostDowns(r: Request): int {
    Bit(!r.forwardWon && Accounted(r))
  }

  predicate IsRunning(r: Request) {
    (!r.place.Outside? && !r.place.Queued? && !r.place.Hand? && !r.place.Finished?)
  }

  // Summands, one named function each so that equal sums are the same term.

  function PendingOf(h: Host): Request -> int {
    (r: Request) => if r.host == h then IncrCalls(r) - DecrCalls(r) else 0
  }

  function GhostOf(interactive: bool): Request -> int {
    (r: Request) => if r.interactive == interactive then GhostUps(r) - GhostDowns(r) else 0
  }

  function QueuedOf(interactive: bool): Request -> int {
    (r: Request) => Bit(r.interactive == interactive && r.place == Queued)
  }

  function RunningOf(): Request -> int {
    (r: Request) => Bit(IsRunning(r))
  }

  function OutcomeOf(): Request -> int {
    (r: Request) => Bit((!r.place.Outside? && !r.place.Queued? && !r.place.Hand? && !r.place.Started? &&
        !r.place.Loaded?))
  }

  function RecordOf(): Request -> int {
    (r: Request) => Bit((!r.place.Outside? && !r.place.Queued? && !r.place.Hand? && !r.place.Started? &&
        !r.place.Loaded? && !r.place.Outcomed?) && !r.wasCancelled)
  }

  // ----- The invariant -------------------------------------------------------------

  /** The two goroutines of one request agree on who removes the pending count. */
  predicate RequestOk(r: Request) {
    && ((r.handler.New? || r.handler.Refused?) <==> r.place == Outside)
    && (r.decremented <==> HandlerWon(r) || r.forwardWon)
    && !(HandlerWon(r) && r.forwardWon)
    && (r.forwardWon ==> (r.place.FWon? || r.place.FWonDecr?) || Accounted(r))
    && ((r.place.FWon? || r.place.FWonDecr?) ==> r.forwardWon)
    && (r.place == FLost || Accounted(r) ==> r.decremented)
    && (r.place == FLost ==> !r.forwardWon)
    && (r.handler == Abandoned ==> r.forwardWon)
    && (r.handler == Returned ==> CloseSeen(r))
    && (r.cancelled <==> (r.handler.Marked? || r.handler.Abandoned?) || HandlerWon(r))
    && (r.wasCancelled ==>
        r.cancelled && (!r.place.Outside? && !r.place.Queued? && !r.place.Hand? && !r.place.Started?))
    && RegistryOk(r)
  }

  predicate Unlisted(r: Request) {
    (r.handler.WonUnlisted? || r.handler.Departed?) || (r.forwardWon && Accounted(r))
  }

  predicate RegistryOk(r: Request) {
    && (r.unlistedEarly ==> r.forwardWon && Accounted(r))
    && (r.forwardWon && Accounted(r) && !Inserted(r) ==> r.unlistedEarly)
    && (r.listed <==> Inserted(r) && (!Unlisted(r) || r.unlistedEarly))
  }

  predicate Past(r: Request) {
    (!r.place.Outside? && !r.place.Queued?)
  }

  /** One channel: accepted = delivered + still queued, in order and without repeats. */
  ghost predicate ChannelOk(reqs: seq<Request>, interactive: bool, sent: seq<nat>, took: seq<nat>, queue: seq<nat>) {
    && sent == took + queue
    && Distinct(sent)
    && (forall k :: 0 <= k < |took| ==>
        took[k] < |reqs| && reqs[took[k]].interactive == interactive && Past(reqs[took[k]]))
    && (forall k :: 0 <= k < |queue| ==>
        queue[k] < |reqs| && reqs[queue[k]].interactive == interactive && reqs[queue[k]].place == Queued)
  }

  predicate DispatcherOk(s: State) {
    && (s.dispatcher.Holding? ==> s.dispatcher.i < |s.reqs| && s.reqs[s.dispatcher.i].place == Hand)
    && (forall i :: 0 <= i < |s.reqs| && s.reqs[i].place == Hand ==> s.dispatcher == Holding(i))
  }

  ghost predicate StructureOk(s: State) {
    && (forall i :: 0 <= i < |s.reqs| ==> RequestOk(s.reqs[i]))
    && ChannelOk(s.reqs, true, s.sentP, s.tookP, s.prio)
    && ChannelOk(s.reqs, false, s.sentN, s.tookN, s.norm)
    && DispatcherOk(s)
    && |s.prio| <= s.cfg.priorityDepth
    && |s.norm| <= s.cfg.queueDepth
  }

  ghost predicate CountersOk(s: State) {
    && (forall h :: Pending(s, h) == SumBy(s.reqs, PendingOf(h)))
    && s.ghostPriority == SumBy(s.reqs, GhostOf(true))
    && s.ghostNormal == SumBy(s.reqs, GhostOf(false))
    && |s.prio| == SumBy(s.reqs, QueuedOf(true))
    && |s.norm| == SumBy(s.reqs, QueuedOf(false))
    && s.sem == SumBy(s.reqs, RunningOf()) + Bit(!s.dispatcher.Idle?)
    && s.sem <= s.cfg.maxConcurrency
    && s.outcomes == SumBy(s.reqs, OutcomeOf())
    && s.records == SumBy(s.reqs, RecordOf())
  }

  ghost predicate Inv(s: State) {
    StructureOk(s) && CountersOk(s)
  }

  lemma InitInv(cfg: Config)
    ensures Inv(Init(cfg))
  {
    EmptyStructure(Init(cfg));
    EmptyCounters(Init(cfg));
  }

  lemma EmptyStructure(s: State)
    requires s.reqs == [] && s.sentP == s.tookP == s.prio == [] && s.sentN == s.tookN == s.norm == []
    requires s.dispatcher == Idle
    ensures StructureOk(s)
  {}

  lemma EmptyCounters(s: State)
    requires s.reqs == [] && s.pending == map[] && s.prio == [] && s.norm == [] && s.dispatcher == Idle
    requires s.ghostPriority == s.ghostNormal == s.sem == s.outcomes == s.records == 0
    ensures CountersOk(s)
  {}

  // ----- Preservation ---------------------------------------------------------------

  lemma HandlerActKeepsRequest(r: Request, a: Act)
    requires RequestOk(r) && CanDo(r, a) && After(r, a).place == r.place
    ensures RequestOk(After(r, a))
  {}

  lemma ForwardActKeepsRequest(r: Request, a: Act)
    requires RequestOk(r) && CanDo(r, a) && After(r, a).place != r.place
    ensures RequestOk(After(r, a))
  {}

  lemma ActKeepsRequest(r: Request, a: Act)
    requires RequestOk(r) && CanDo(r, a)
    ensures RequestOk(After(r, a))
  {
    if After(r, a).place == r.place { HandlerActKeepsRequest(r, a); } else { ForwardActKeepsRequest(r, a); }
  }

  /** Each action adds its own call to the request's account and no other. */
  lemma ActMovesCalls(r: Request, a: Act)
    requires RequestOk(r) && CanDo(r, a)
    ensures IncrCalls(After(r, a)) == IncrCalls(r) + Bit(a.Count?)
    ensures DecrCalls(After(r, a)) == DecrCalls(r) + Bit(a.DecrHandler?) + Bit(a.DecrForward?)
    ensures GhostUps(After(r, a)) == GhostUps(r) + Bit(a.GhostUp?)
    ensures GhostDowns(After(r, a)) == GhostDowns(r) + Bit(a.GhostDown?)
  {
    match a
    case Count => case List => case Return => case Leave => case Mark => case CasHandler =>
    case DecrHandler => case UnlistHandler => case GhostUp => case Load => case Outcome => case Record =>
    case CasForward => case DecrForward => case UnlistForward => case GhostDown => case Close => case Release =>
  }

  /** An action changes its request's summands exactly as it changes the shared counters. */
  lemma ActMovesSummands(r: Request, a: Act)
    requires RequestOk(r) && CanDo(r, a)
    ensures After(r, a).host == r.host && After(r, a).interactive == r.interactive
    ensures IncrCalls(After(r, a)) - DecrCalls(After(r, a)) == IncrCalls(r) - DecrCalls(r) + PendingDelta(a)
    ensures GhostUps(After(r, a)) - GhostDowns(After(r, a)) == GhostUps(r) - GhostDowns(r) + GhostDelta(a)
  {
    ActMovesCalls(r, a);
  }

  lemma ActMovesStages(r: Request, a: Act)
    requires CanDo(r, a)
    ensures OutcomeOf()(After(r, a)) == OutcomeOf()(r) + Bit(a.Outcome?)
    ensures RecordOf()(After(r, a)) == RecordOf()(r) + Bit(a.Record? && !r.wasCancelled)
    ensures RunningOf()(After(r, a)) == RunningOf()(r) - Bit(a.Release?)
    ensures After(r, a).place == Queued <==> r.place == Queued
  {
    match a
    case Count => case List => case Return => case Leave => case Mark => case CasHandler =>
    case DecrHandler => case UnlistHandler => case GhostUp => case Load => case Outcome => case Record =>
    case CasForward => case DecrForward => case UnlistForward => case GhostDown => case Close => case Release =>
  }

  lemma ActKeepsWhereabouts(r: Request, a: Act)
    requires CanDo(r, a)
    ensures After(r, a).interactive == r.interactive
    ensures After(r, a).place == Queued <==> r.place == Queued
    ensures After(r, a).place == Outside <==> r.place == Outside
    ensures After(r, a).place == Hand <==> r.place == Hand
  {
    match a
    case Count => case List => case Return => case Leave => case Mark => case CasHandler =>
    case DecrHandler => case UnlistHandler => case GhostUp => case Load => case Outcome => case Record =>
    case CasForward => case DecrForward => case UnlistForward => case GhostDown => case Close => case Release =>
  }

  lemma ChannelUpdate(reqs: seq<Request>, interactive: bool, sent: seq<nat>, took: seq<nat>, queue: seq<nat>,
                      i: nat, r: Request)
    requires ChannelOk(reqs, interactive, sent, took, queue)
    requires i < |reqs|
    requires r.interactive == reqs[i].interactive
    requires r.place == Queued <==> reqs[i].place == Queued
    requires r.place == Outside <==> reqs[i].place == Outside
    ensures ChannelOk(reqs[i := r], interactive, sent, took, queue)
  {}

  /** Changing a request without moving it into or out of a queue or the hand. */
  lemma PutKeepsStructure(s: State, i: nat, r: Request)
    requires StructureOk(s) && i < |s.reqs| && RequestOk(r) && r.interactive == s.reqs[i].interactive
    requires r.place == Queued <==> s.reqs[i].place == Queued
    requires r.place == Outside <==> s.reqs[i].place == Outside
    requires r.place == Hand <==> s.reqs[i].place == Hand
    ensures StructureOk(Put(s, i, r))
  {
    ChannelUpdate(s.reqs, true, s.sentP, s.tookP, s.prio, i, r);
    ChannelUpdate(s.reqs, false, s.sentN, s.tookN, s.norm, i, r);
  }

  lemma StructureIgnoresCounters(s: State, t: State)
    requires StructureOk(s) && t.cfg == s.cfg && t.reqs == s.reqs && t.prio == s.prio && t.norm == s.norm
    requires t.dispatcher == s.dispatcher && t.sentP == s.sentP && t.tookP == s.tookP && t.sentN == s.sentN &&
        t.tookN == s.tookN
    ensures StructureOk(t)
  {}

  lemma DoKeepsStructure(s: State, i: nat, a: Act)
    requires StructureOk(s) && i < |s.reqs| && CanDo(s.reqs[i], a)
    ensures StructureOk(DoAct(s, i, a))
  {
    ActKeepsRequest(s.reqs[i], a);
    ActKeepsWhereabouts(s.reqs[i], a);
    PutKeepsStructure(s, i, After(s.reqs[i], a));
    StructureIgnoresCounters(Put(s, i, After(s.reqs[i], a)), DoAct(s, i, a));
  }

  /** Every counter of t differs from that of s by the change in request i's summand. */
  ghost predicate CountersFollow(s: State, t: State, i: nat)
    requires i < |s.reqs| && i < |t.reqs|
  {
    var r, r' := s.reqs[i], t.reqs[i];
    && (forall h :: Pending(t, h) - Pending(s, h) == PendingOf(h)(r') - PendingOf(h)(r))
    && t.ghostPriority - s.ghostPriority == GhostOf(true)(r') - GhostOf(true)(r)
    && t.ghostNormal - s.ghostNormal == GhostOf(false)(r') - GhostOf(false)(r)
    && |t.prio| - |s.prio| == QueuedOf(true)(r') - QueuedOf(true)(r)
    && |t.norm| - |s.norm| == QueuedOf(false)(r') - QueuedOf(false)(r)
    && t.sem - s.sem == RunningOf()(r') - RunningOf()(r) + Bit(!t.dispatcher.Idle?) - Bit(!s.dispatcher.Idle?)
    && t.outcomes - s.outcomes == OutcomeOf()(r') - OutcomeOf()(r)
    && t.records - s.records == RecordOf()(r') - RecordOf()(r)
  }

  lemma UpdateKeepsCounters(s: State, t: State, i: nat)
    requires CountersOk(s) && i < |s.reqs| && |t.reqs| == |s.reqs| && t.reqs == s.reqs[i := t.reqs[i]]
    requires t.cfg == s.cfg && t.sem <= s.sem
    requires CountersFollow(s, t, i)
    ensures CountersOk(t)
  {
    var r' := t.reqs[i];
    forall h ensures Pending(t, h) == SumBy(t.reqs, PendingOf(h)) {
      SumUpdate(s.reqs, i, r', PendingOf(h));
    }
    SumUpdate(s.reqs, i, r', GhostOf(true));
    SumUpdate(s.reqs, i, r', GhostOf(false));
    SumUpdate(s.reqs, i, r', QueuedOf(true));
    SumUpdate(s.reqs, i, r', QueuedOf(false));
    SumUpdate(s.reqs, i, r', RunningOf());
    SumUpdate(s.reqs, i, r', OutcomeOf());
    SumUpdate(s.reqs, i, r', RecordOf());
  }

  lemma DoKeepsCounters(s: State, i: nat, a: Act)
    requires Inv(s) && i < |s.reqs| && CanDo(s.reqs[i], a)
    ensures CountersOk(DoAct(s, i, a))
  {
    DoFollows(s, i, a);
    UpdateKeepsCounters(s, DoAct(s, i, a), i);
  }

  lemma DoFollows(s: State, i: nat, a: Act)
    requires Inv(s) && i < |s.reqs| && CanDo(s.reqs[i], a)
    ensures CountersFollow(s, DoAct(s, i, a), i)
  {
    ActMovesSummands(s.reqs[i], a);
    ActMovesStages(s.reqs[i], a);
  }

  lemma ArriveKeepsCounters(s: State, h: Host, p: bool)
    requires Inv(s)
    ensures CountersOk(Apply(s, Arrive(h, p)))
  {
    var t := Apply(s, Arrive(h, p));
    var r := t.reqs[|s.reqs|];
    forall h' ensures Pending(t, h') == SumBy(t.reqs, PendingOf(h')) {
      SumAppend(s.reqs, r, PendingOf(h'));
    }
    SumAppend(s.reqs, r, GhostOf(true));
    SumAppend(s.reqs, r, GhostOf(false));
    SumAppend(s.reqs, r, QueuedOf(true));
    SumAppend(s.reqs, r, QueuedOf(false));
    SumAppend(s.reqs, r, RunningOf());
    SumAppend(s.reqs, r, OutcomeOf());
    SumAppend(s.reqs, r, RecordOf());
  }

  lemma ArriveKeepsStructure(s: State, h: Host, p: bool)
    requires StructureOk(s)
    ensures StructureOk(Apply(s, Arrive(h, p)))
  {}

  lemma SendKeepsCounters(s: State, i: nat)
    requires Inv(s) && Enabled(s, Send(i))
    ensures CountersOk(Apply(s, Send(i)))
  {
    UpdateKeepsCounters(s, Apply(s, Send(i)), i);
  }

  lemma SendKeepsStructure(s: State, i: nat)
    requires StructureOk(s) && Enabled(s, Send(i))
    ensures StructureOk(Apply(s, Send(i)))
  {
    var r := s.reqs[i].(handler := Sent, place := Queued);
    AdmittedOk(s.reqs[i]);
    Appended(s.reqs, true, s.sentP, s.tookP, s.prio, i, r);
    Appended(s.reqs, false, s.sentN, s.tookN, s.norm, i, r);
    assert DispatcherOk(Apply(s, Send(i)));
  }

  lemma AdmittedOk(r: Request)
    requires RequestOk(r) && r.handler == New
    ensures RequestOk(r.(handler := Sent, place := Queued)) && RequestOk(r.(handler := Sent, place := Hand))
  {}

  /** A request that was outside joins the back of its own channel only. */
  lemma Appended(reqs: seq<Request>, interactive: bool, sent: seq<nat>, took: seq<nat>, queue: seq<nat>, i: nat,
                 r: Request)
    requires ChannelOk(reqs, interactive, sent, took, queue)
    requires i < |reqs| && reqs[i].place == Outside && r.place == Queued && r.interactive == reqs[i].interactive
    ensures i !in sent
    ensures r.interactive == interactive ==> ChannelOk(reqs[i := r], interactive, sent + [i], took, queue + [i])
    ensures r.interactive != interactive ==> ChannelOk(reqs[i := r], interactive, sent, took, queue)
  {
    assert sent + [i] == took + (queue + [i]);
    forall k | 0 <= k < |sent| ensures sent[k] != i {
      if k < |took| { assert sent[k] == took[k]; } else { assert sent[k] == queue[k - |took|]; }
    }
  }

  lemma RefuseKeepsInv(s: State, i: nat)
    requires Inv(s) && Enabled(s, Refuse(i))
    ensures Inv(Apply(s, Refuse(i)))
  {
    UpdateKeepsCounters(s, Apply(s, Refuse(i)), i);
    PutKeepsStructure(s, i, s.reqs[i].(handler := Refused));
  }

  /** The front of a channel moves into the dispatcher's hand. */
  lemma Delivered(reqs: seq<Request>, interactive: bool, sent: seq<nat>, took: seq<nat>, queue: seq<nat>)
    requires ChannelOk(reqs, interactive, sent, took, queue) && queue != []
    ensures ChannelOk(reqs[queue[0] := reqs[queue[0]].(place := Hand)], interactive, sent, took + [queue[0]],
        queue[1..])
  {
    var i := queue[0];
    assert took + queue == (took + [i]) + queue[1..];
    assert sent[|took|] == i;
    forall k | 0 < k < |queue| ensures queue[k] != i {
      assert sent[|took| + k] == queue[k];
    }
  }

  lemma OtherChannel(reqs: seq<Request>, interactive: bool, sent: seq<nat>, took: seq<nat>, queue: seq<nat>, i: nat,
                     r: Request)
    requires ChannelOk(reqs, interactive, sent, took, queue)
    requires i < |reqs| && reqs[i].interactive != interactive && r.interactive == reqs[i].interactive
    ensures ChannelOk(reqs[i := r], interactive, sent, took, queue)
  {}

  lemma DeliverPriorityKeepsStructure(s: State)
    requires StructureOk(s) && !s.dispatcher.Holding? && s.prio != []
    ensures StructureOk(DeliverPriority(s))
  {
    var i := s.prio[0];
    Delivered(s.reqs, true, s.sentP, s.tookP, s.prio);
    OtherChannel(s.reqs, false, s.sentN, s.tookN, s.norm, i, s.reqs[i].(place := Hand));
  }

  lemma DeliverNormalKeepsStructure(s: State)
    requires StructureOk(s) && !s.dispatcher.Holding? && s.norm != []
    ensures StructureOk(DeliverNormal(s))
  {
    var i := s.norm[0];
    Delivered(s.reqs, false, s.sentN, s.tookN, s.norm);
    OtherChannel(s.reqs, true, s.sentP, s.tookP, s.prio, i, s.reqs[i].(place := Hand));
  }

  lemma DeliverPriorityKeepsInv(s: State)
    requires Inv(s) && (s.dispatcher.HasSlot? || s.dispatcher.Blocked?) && s.prio != []
    ensures Inv(DeliverPriority(s))
  {
    UpdateKeepsCounters(s, DeliverPriority(s), s.prio[0]);
    DeliverPriorityKeepsStructure(s);
  }

  lemma DeliverNormalKeepsInv(s: State)
    requires Inv(s) && s.dispatcher.Blocked? && s.norm != []
    ensures Inv(DeliverNormal(s))
  {
    UpdateKeepsCounters(s, DeliverNormal(s), s.norm[0]);
    DeliverNormalKeepsStructure(s);
  }

  lemma HandOffKeepsCounters(s: State, i: nat)
    requires Inv(s) && Enabled(s, HandOff(i))
    ensures CountersOk(Apply(s, HandOff(i)))
  {
    UpdateKeepsCounters(s, Apply(s, HandOff(i)), i);
  }

  /** On a channel of capacity 0 a hand-off is a send followed at once by a delivery. */
  lemma HandedOff(reqs: seq<Request>, interactive: bool, sent: seq<nat>, took: seq<nat>, i: nat, r: Request)
    requires ChannelOk(reqs, interactive, sent, took, [])
    requires i < |reqs| && reqs[i].place == Outside && r.place == Hand &&
        r.interactive == reqs[i].interactive == interactive
    ensures ChannelOk(reqs[i := r], interactive, sent + [i], took + [i], [])
  {
    assert sent == took;
    forall k | 0 <= k < |took| ensures took[k] != i { assert Past(reqs[took[k]]); }
    var all := sent + [i];
    assert all == took + [i] + [];
    forall a, b | 0 <= a < b < |all| ensures all[a] != all[b] {
      assert all[a] == sent[a];
      assert b < |sent| ==> all[b] == sent[b];
    }
  }

  lemma HandOffKeepsStructure(s: State, i: nat)
    requires StructureOk(s) && Enabled(s, HandOff(i))
    ensures StructureOk(Apply(s, HandOff(i)))
  {
    var r := s.reqs[i].(handler := Sent, place := Hand);
    AdmittedOk(s.reqs[i]);
    if r.interactive {
      HandedOff(s.reqs, true, s.sentP, s.tookP, i, r);
      OtherChannel(s.reqs, false, s.sentN, s.tookN, s.norm, i, r);
    } else {
      HandedOff(s.reqs, false, s.sentN, s.tookN, i, r);
      OtherChannel(s.reqs, true, s.sentP, s.tookP, s.prio, i, r);
    }
    assert DispatcherOk(Apply(s, HandOff(i)));
  }

  lemma SpawnKeepsStructure(s: State)
    requires StructureOk(s) && Enabled(s, Spawn)
    ensures StructureOk(Apply(s, Spawn))
  {
    var i := s.dispatcher.i;
    var r := s.reqs[i].(place := Started);
    ChannelUpdate(s.reqs, true, s.sentP, s.tookP, s.prio, i, r);
    ChannelUpdate(s.reqs, false, s.sentN, s.tookN, s.norm, i, r);
  }

  lemma SpawnKeepsCounters(s: State)
    requires Inv(s) && Enabled(s, Spawn)
    ensures CountersOk(Apply(s, Spawn))
  {
    UpdateKeepsCounters(s, Apply(s, Spawn), s.dispatcher.i);
  }

  lemma StepKeepsInv(s: State, e: Event)
    requires Inv(s) && Enabled(s, e)
    ensures Inv(Apply(s, e))
  {
    match e
    case Arrive(h, p) => ArriveKeepsStructure(s, h, p); ArriveKeepsCounters(s, h, p);
    case Send(i) => SendKeepsStructure(s, i); SendKeepsCounters(s, i);
    case Refuse(i) => RefuseKeepsInv(s, i);
    case HandOff(i) => HandOffKeepsStructure(s, i); HandOffKeepsCounters(s, i);
    case Acquire =>
    case Poll => if s.prio != [] { DeliverPriorityKeepsInv(s); }
    case TakePriority => DeliverPriorityKeepsInv(s);
    case TakeNormal => DeliverNormalKeepsInv(s);
    case Spawn => SpawnKeepsStructure(s); SpawnKeepsCounters(s);
    case Do(i, a) => DoKeepsStructure(s, i, a); DoKeepsCounters(s, i, a);
  }
}
