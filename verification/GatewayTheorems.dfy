/** Whole-run results for the gateway protocol. */
module GatewayTheorems {
  import opened Collections
  import opened Sums
  import opened Gateway
  import opened GatewayInvariant

  // ----- Runs ------------------------------------------------------------------------

  ghost predicate IsRun(s: State, es: seq<Event>)
    decreases |es|
  {
    es == [] || (Bounded(s) && Enabled(s, es[0]) && IsRun(Apply(s, es[0]), es[1..]))
  }

  ghost function Exec(s: State, es: seq<Event>): State
    requires IsRun(s, es)
    decreases |es|
  {
    if es == [] then s else Exec(Apply(s, es[0]), es[1..])
  }

  /** The invariant holds at the end of every run, whatever the interleaving. */
  lemma {:induction false} RunKeepsInv(s: State, es: seq<Event>)
    requires Inv(s) && IsRun(s, es)
    ensures Inv(Exec(s, es))
    decreases |es|
  {
    if es != [] {
      StepKeepsInv(s, es[0]);
      RunKeepsInv(Apply(s, es[0]), es[1..]);
    }
  }

  // ----- Conservation, concurrency and order --------------------------------------------

  /** A request marked as queued really is in its channel. */
  lemma {:induction false} QueuedIsInQueue(reqs: seq<Request>, interactive: bool, queue: seq<nat>, i: nat)
    requires forall k :: 0 <= k < |queue| ==>
        queue[k] < |reqs| && reqs[queue[k]].interactive == interactive && reqs[queue[k]].place == Queued
    requires Distinct(queue) && |queue| == SumBy(reqs, QueuedOf(interactive))
    requires i < |reqs| && reqs[i].interactive == interactive && reqs[i].place == Queued
    ensures i in queue
    decreases |queue|
  {
    if queue == [] {
      SumCovers(reqs, QueuedOf(interactive), i);
    } else if queue[0] != i {
      var j := queue[0];
      SumUpdate(reqs, j, reqs[j].(place := Hand), QueuedOf(interactive));
      QueuedIsInQueue(reqs[j := reqs[j].(place := Hand)], interactive, queue[1..], i);
    }
  }

  /** In every reachable state: an accepted request is in its channel exactly when it is
      Queued, in the dispatcher's hand exactly when it is there, and otherwise in forward()
      or finished; the semaphore counts running forwards plus the dispatcher's unspent
      slot; nothing exceeds its bound. */
  lemma Conservation(cfg: Config, es: seq<Event>, i: nat)
    requires IsRun(Init(cfg), es) && i < |Exec(Init(cfg), es).reqs|
    ensures
      var s := Exec(Init(cfg), es);
      var r := s.reqs[i];
      && (i in Queue(s, r.interactive) <==> r.place == Queued)
      && i !in Queue(s, !r.interactive)
      && (s.dispatcher == Holding(i) <==> r.place == Hand)
      && (r.place == Outside <==> r.handler == New || r.handler == Refused)
      && s.sem == SumBy(s.reqs, RunningOf()) + Bit(!s.dispatcher.Idle?) <= cfg.maxConcurrency
      && |s.prio| <= cfg.priorityDepth && |s.norm| <= cfg.queueDepth
  {
    InitInv(cfg);
    RunKeepsInv(Init(cfg), es);
    ConfigConstant(Init(cfg), es);
    var s := Exec(Init(cfg), es);
    var r := s.reqs[i];
    if r.place == Queued {
      TailDistinct(s.sentP, s.tookP, s.prio);
      TailDistinct(s.sentN, s.tookN, s.norm);
      QueuedIsInQueue(s.reqs, r.interactive, Queue(s, r.interactive), i);
    }
  }

  lemma TailDistinct(sent: seq<nat>, took: seq<nat>, queue: seq<nat>)
    requires sent == took + queue && Distinct(sent)
    ensures Distinct(queue)
  {
    forall a, b | 0 <= a < b < |queue| ensures queue[a] != queue[b] {
      assert sent[|took| + a] == queue[a] && sent[|took| + b] == queue[b];
    }
  }

  lemma {:induction false} ConfigConstant(s: State, es: seq<Event>)
    requires IsRun(s, es)
    ensures Exec(s, es).cfg == s.cfg
    decreases |es|
  {
    if es != [] { ConfigConstant(Apply(s, es[0]), es[1..]); }
  }

  /** Histories only grow. */
  ghost predicate LogsExtend(s: State, t: State) {
    s.sentP <= t.sentP && s.tookP <= t.tookP && s.sentN <= t.sentN && s.tookN <= t.tookN
  }

  lemma {:induction false} RunExtendsLogs(s: State, es: seq<Event>)
    requires IsRun(s, es)
    ensures LogsExtend(s, Exec(s, es))
    decreases |es|
  {
    if es != [] { RunExtendsLogs(Apply(s, es[0]), es[1..]); }
  }

  /** FIFO and exactly once, per class: deliveries are a prefix of acceptances, no request
      is accepted or delivered twice, and what is not delivered yet is the queue in order. */
  lemma FifoExactlyOnce(cfg: Config, es: seq<Event>)
    requires IsRun(Init(cfg), es)
    ensures
      var s := Exec(Init(cfg), es);
      && s.tookP <= s.sentP && s.prio == s.sentP[|s.tookP|..] && Distinct(s.sentP)
      && s.tookN <= s.sentN && s.norm == s.sentN[|s.tookN|..] && Distinct(s.sentN)
  {
    InitInv(cfg);
    RunKeepsInv(Init(cfg), es);
  }

  // ----- Bounded overtaking ---------------------------------------------------------------

  /** The one normal request a waiting priority request may have to let pass: the
      dispatcher had polled the priority queue before it arrived. */
  function Budget(s: State): nat {
    if s.dispatcher.Blocked? then 1 else 0
  }

  lemma {:induction false} NormalsWhileWaiting(s: State, es: seq<Event>, i: nat)
    requires Inv(s) && IsRun(s, es) && i in s.prio && i in Exec(s, es).prio
    ensures |Exec(s, es).tookN| - |s.tookN| <= Budget(s) - Budget(Exec(s, es))
    decreases |es|
  {
    if es != [] {
      var t := Apply(s, es[0]);
      StepKeepsInv(s, es[0]);
      if i !in t.prio {
        StaysOut(t, es[1..], i);
      } else {
        NormalsWhileWaiting(t, es[1..], i);
      }
    }
  }

  /** A request that was delivered never waits again. */
  lemma StaysOut(s: State, es: seq<Event>, i: nat)
    requires Inv(s) && IsRun(s, es) && i in s.sentP && i !in s.prio
    ensures i !in Exec(s, es).prio
  {
    var t := Exec(s, es);
    RunKeepsInv(s, es);
    RunExtendsLogs(s, es);
    assert i in s.tookP;
    assert i in t.tookP;
  }

  /** A priority request with k ahead of it that is still waiting has seen at most k
      priority deliveries and at most one normal one (none at all unless the dispatcher
      was already in its blocking select), so the (k+2)-th dequeue at the latest is its own. */
  lemma BoundedOvertaking(s: State, es: seq<Event>, k: nat)
    requires Inv(s) && IsRun(s, es) && k < |s.prio| && s.prio[k] in Exec(s, es).prio
    ensures
      var t := Exec(s, es);
      && |t.tookN| - |s.tookN| <= Budget(s)
      && |t.tookP| - |s.tookP| <= k
      && (|t.tookP| + |t.tookN|) - (|s.tookP| + |s.tookN|) <= k + 1
  {
    var t := Exec(s, es);
    assert |t.tookN| - |s.tookN| <= Budget(s) <= 1 by { NormalsWhileWaiting(s, es, s.prio[k]); }
    assert |t.tookP| - |s.tookP| <= k by {
      RunKeepsInv(s, es);
      RunExtendsLogs(s, es);
      StillWaiting(s.sentP, s.tookP, s.prio, t.sentP, t.tookP, t.prio, k);
    }
  }

  /** A queue entry that is still there has at most those before it removed. */
  lemma StillWaiting(sent: seq<nat>, took: seq<nat>, queue: seq<nat>,
                     sent': seq<nat>, took': seq<nat>, queue': seq<nat>, k: nat)
    requires sent == took + queue && sent' == took' + queue' && sent <= sent' && Distinct(sent')
    requires k < |queue| && queue[k] in queue'
    ensures |took'| <= |took| + k
  {
    var j :| 0 <= j < |queue'| && queue'[j] == queue[k];
    assert sent[|took| + k] == queue[k];
    assert sent'[|took| + k] == queue[k] && sent'[|took'| + j] == queue[k];
  }

  // ----- Counters -----------------------------------------------------------------------

  predicate HandlerOver(r: Request) {
    r.handler.Refused? || r.handler.Departed? || r.handler.Abandoned? || r.handler.Returned?
  }

  predicate Over(r: Request) {
    HandlerOver(r) && (r.handler.Refused? || r.place.Finished?)
  }

  predicate Drained(s: State) {
    forall i :: 0 <= i < |s.reqs| ==> Over(s.reqs[i])
  }

  /** How often request i performs an action in a run. */
  function Times(es: seq<Event>, i: nat, a: Act): nat {
    if es == [] then 0 else (if es[0] == Do(i, a) then 1 else 0) + Times(es[1..], i, a)
  }

  /** The account of request i; one that has not arrived has none. */
  datatype Account = Account(incr: int, decr: int, ups: int, downs: int)

  function Calls(r: Request): Account {
    Account(IncrCalls(r), DecrCalls(r), GhostUps(r), GhostDowns(r))
  }

  function AccountOf(s: State, i: nat): Account { AccountIn(s.reqs, i) }

  function AccountIn(reqs: seq<Request>, i: nat): Account {
    if i < |reqs| then Calls(reqs[i]) else Account(0, 0, 0, 0)
  }

  function Charged(c: Account, e: Event, i: nat): Account {
    if !(e.Do? && e.i == i) then c
    else Account(c.incr + Bit(e.act.Count?), c.decr + Bit(e.act.DecrHandler?) + Bit(e.act.DecrForward?),
                 c.ups + Bit(e.act.GhostUp?), c.downs + Bit(e.act.GhostDown?))
  }

  function ChargedBy(c: Account, es: seq<Event>, i: nat): Account
    decreases |es|
  {
    if es == [] then c else ChargedBy(Charged(c, es[0], i), es[1..], i)
  }

  lemma {:induction false} ChargesAreTimes(c: Account, es: seq<Event>, i: nat)
    ensures ChargedBy(c, es, i) == Account(
      c.incr + Times(es, i, Count), c.decr + Times(es, i, DecrHandler) + Times(es, i, DecrForward),
      c.ups + Times(es, i, GhostUp), c.downs + Times(es, i, GhostDown))
    decreases |es|
  {
    if es != [] { ChargesAreTimes(Charged(c, es[0], i), es[1..], i); }
  }

  /** A step that moves request j without a call of its own charges nobody. */
  lemma MoveIsFree(s: State, t: State, j: nat, i: nat)
    requires j < |s.reqs| && |t.reqs| == |s.reqs| && t.reqs == s.reqs[j := t.reqs[j]]
    requires Calls(t.reqs[j]) == Calls(s.reqs[j])
    ensures AccountOf(t, i) == AccountOf(s, i)
  {}

  lemma AdmissionIsFree(s: State, e: Event, i: nat)
    requires Inv(s) && Enabled(s, e) && (e.Send? || e.Refuse? || e.HandOff?)
    ensures AccountOf(Apply(s, e), i) == AccountOf(s, i)
  {
    AdmittedAccount(s.reqs[e.i]);
    var r := Apply(s, e).reqs[e.i];
    UpdatedAccount(s.reqs, e.i, r, i);
  }

  lemma AdmittedAccount(r: Request)
    requires RequestOk(r) && r.handler == New
    ensures Calls(r) == Calls(r.(handler := Refused)) == Calls(r.(handler := Sent, place := Queued))
    ensures Calls(r) == Calls(r.(handler := Sent, place := Hand))
  {}

  lemma DeliveryIsFree(s: State, e: Event, i: nat)
    requires Inv(s) && Enabled(s, e) && (e.Poll? || e.TakePriority? || e.TakeNormal?)
    ensures AccountOf(Apply(s, e), i) == AccountOf(s, i)
  {
    if e.TakeNormal? {
      NormalIsFree(s, i);
    } else if s.prio != [] {
      PriorityIsFree(s, i);
    }
  }

  lemma NormalIsFree(s: State, i: nat)
    requires Inv(s) && s.norm != []
    ensures AccountOf(DeliverNormal(s), i) == AccountOf(s, i)
  {
    assert s.reqs[s.norm[0]].place == Queued;
    MoveIsFree(s, DeliverNormal(s), s.norm[0], i);
  }

  lemma PriorityIsFree(s: State, i: nat)
    requires Inv(s) && s.prio != []
    ensures AccountOf(DeliverPriority(s), i) == AccountOf(s, i)
  {
    assert s.reqs[s.prio[0]].place == Queued;
    MoveIsFree(s, DeliverPriority(s), s.prio[0], i);
  }

  lemma SpawnIsFree(s: State, i: nat)
    requires Inv(s) && Enabled(s, Spawn)
    ensures AccountOf(Apply(s, Spawn), i) == AccountOf(s, i)
  {
    MoveIsFree(s, Apply(s, Spawn), s.dispatcher.i, i);
  }

  lemma DoCharges(s: State, j: nat, a: Act, i: nat)
    requires Inv(s) && Enabled(s, Do(j, a))
    ensures AccountOf(DoAct(s, j, a), i) == Charged(AccountOf(s, i), Do(j, a), i)
  {
    var r := After(s.reqs[j], a);
    ActCharges(s.reqs[j], a, j);
    UpdatedAccount(s.reqs, j, r, i);
    assert DoAct(s, j, a).reqs == s.reqs[j := r];
  }

  lemma ActCharges(r: Request, a: Act, j: nat)
    requires RequestOk(r) && CanDo(r, a)
    ensures Calls(After(r, a)) == Charged(Calls(r), Do(j, a), j)
  {
    ActMovesCalls(r, a);
  }

  lemma UpdatedAccount(reqs: seq<Request>, j: nat, r: Request, i: nat)
    requires j < |reqs|
    ensures AccountIn(reqs[j := r], i) == if i == j then Calls(r) else AccountIn(reqs, i)
  {}

  lemma StepCharges(s: State, e: Event, i: nat)
    requires Inv(s) && Enabled(s, e)
    ensures AccountOf(Apply(s, e), i) == Charged(AccountOf(s, i), e, i)
  {
    match e
    case Do(j, a) => DoCharges(s, j, a, i);
    case Spawn => SpawnIsFree(s, i);
    case Arrive(_, _) =>
    case Acquire =>
    case Send(_) => AdmissionIsFree(s, e, i);
    case Refuse(_) => AdmissionIsFree(s, e, i);
    case HandOff(_) => AdmissionIsFree(s, e, i);
    case _ => DeliveryIsFree(s, e, i);
  }

  lemma {:induction false} RunCharges(s: State, es: seq<Event>, i: nat)
    requires Inv(s) && IsRun(s, es)
    ensures AccountOf(Exec(s, es), i) == ChargedBy(AccountOf(s, i), es, i)
    decreases |es|
  {
    if es != [] {
      StepCharges(s, es[0], i);
      StepKeepsInv(s, es[0]);
      RunCharges(Apply(s, es[0]), es[1..], i);
    }
  }

  /** Whoever wins the compare-and-swap, in every run an accepted request that is over was
      counted once, uncounted once, and its ghost increment (if any) was taken back once. */
  lemma ExactlyOneDecrement(cfg: Config, es: seq<Event>, i: nat)
    requires IsRun(Init(cfg), es) && i < |Exec(Init(cfg), es).reqs|
    requires Over(Exec(Init(cfg), es).reqs[i]) && !Exec(Init(cfg), es).reqs[i].handler.Refused?
    ensures Times(es, i, Count) == 1
    ensures Times(es, i, DecrHandler) + Times(es, i, DecrForward) == 1
    ensures Times(es, i, GhostUp) == Times(es, i, GhostDown) <= 1
    ensures Times(es, i, GhostUp) == 1 <==> Exec(Init(cfg), es).reqs[i].handler.Departed?
  {
    InitInv(cfg);
    RunKeepsInv(Init(cfg), es);
    RunCharges(Init(cfg), es, i);
    ChargesAreTimes(Account(0, 0, 0, 0), es, i);
    OverIsSettled(Exec(Init(cfg), es).reqs[i]);
  }

  lemma OverIsSettled(r: Request)
    requires RequestOk(r) && Over(r) && !r.handler.Refused?
    ensures IncrCalls(r) == 1 && DecrCalls(r) == 1 && GhostUps(r) == GhostDowns(r)
    ensures GhostUps(r) == 1 <==> r.handler.Departed?
  {}

  /** With nothing outstanding every counter is back to zero. */
  lemma DrainedCountersAreZero(s: State)
    requires Inv(s) && Drained(s)
    ensures forall h :: Pending(s, h) == 0
    ensures s.ghostPriority == 0 && s.ghostNormal == 0
    ensures s.prio == [] && s.norm == []
    ensures s.sem == Bit(!s.dispatcher.Idle?)
  {
    forall h ensures Pending(s, h) == 0 { SumZero(s.reqs, PendingOf(h)); }
    SumZero(s.reqs, GhostOf(true));
    SumZero(s.reqs, GhostOf(false));
    SumZero(s.reqs, QueuedOf(true));
    SumZero(s.reqs, QueuedOf(false));
    SumZero(s.reqs, RunningOf());
  }

  predicate WasAccepted(r: Request) { !r.handler.New? && !r.handler.Refused? }

  function AcceptedOf(): Request -> int {
    (r: Request) => Bit(WasAccepted(r))
  }

  function ServedOf(): Request -> int {
    (r: Request) => Bit(WasAccepted(r) && !r.wasCancelled)
  }

  /** With nothing outstanding there is one outcome per accepted request, and one record per
      accepted request that was not cancelled before its forward looked. */
  lemma DrainedStatistics(s: State)
    requires Inv(s) && Drained(s)
    ensures s.outcomes == SumBy(s.reqs, AcceptedOf()) && s.records == SumBy(s.reqs, ServedOf())
  {
    forall r | r in s.reqs
      ensures OutcomeOf()(r) == AcceptedOf()(r) && RecordOf()(r) == ServedOf()(r)
    {
      assert RequestOk(r) && Over(r);
    }
    SumSame(s.reqs, OutcomeOf(), AcceptedOf());
    SumSame(s.reqs, RecordOf(), ServedOf());
  }

  /** The handler has won the compare-and-swap but not added to the ghost counter yet. */
  predicate MidLeave(r: Request) {
    r.handler.Won? || r.handler.WonDecr? || r.handler.WonUnlisted?
  }

  /** In the queue although its client has gone and its handler has said so. */
  function QueuedGhostOf(interactive: bool): Request -> int {
    (r: Request) => Bit(r.interactive == interactive && r.place == Queued && r.handler.Departed?)
  }

  function LiveQueuedOf(interactive: bool): Request -> int {
    (r: Request) => Bit(r.interactive == interactive && r.place == Queued && !r.handler.Departed?)
  }

  /** Out of the queue, its client gone, its accounting not done. */
  function AbsentInFlightOf(interactive: bool): Request -> int {
    (r: Request) => Bit(r.interactive == interactive && r.handler.Departed? && r.place != Queued && !Accounted(r))
  }

  /** forward() subtracted from the ghost counter before the handler added to it. */
  function EarlyDownOf(interactive: bool): Request -> int {
    (r: Request) => Bit(r.interactive == interactive && MidLeave(r) && Accounted(r))
  }

  lemma GhostParts(r: Request, interactive: bool)
    requires RequestOk(r)
    ensures GhostOf(interactive)(r) - QueuedGhostOf(interactive)(r)
         == AbsentInFlightOf(interactive)(r) - EarlyDownOf(interactive)(r)
    ensures QueuedOf(interactive)(r) == QueuedGhostOf(interactive)(r) + LiveQueuedOf(interactive)(r)
  {}

  /** The ghost counter is documented as the queued requests whose client has left. It is
      that number plus the departed clients already in flight, less the subtractions that
      came before their addition; so it is right exactly when those two are equally many. */
  lemma GhostsExactly(s: State, interactive: bool)
    requires Inv(s)
    ensures
      var queued, inFlight, early := SumBy(s.reqs, QueuedGhostOf(interactive)),
        SumBy(s.reqs, AbsentInFlightOf(interactive)), SumBy(s.reqs, EarlyDownOf(interactive));
      && Ghosts(s, interactive) == queued + inFlight - early
      && -early <= Ghosts(s, interactive) <= queued + inFlight
      && (Ghosts(s, interactive) == queued <==> inFlight == early)
  {
    var d := (r: Request) => GhostOf(interactive)(r) - QueuedGhostOf(interactive)(r);
    forall r | r in s.reqs
      ensures d(r) == AbsentInFlightOf(interactive)(r) - EarlyDownOf(interactive)(r)
    {
      GhostParts(r, interactive);
    }
    SumDifference(s.reqs, d, GhostOf(interactive), QueuedGhostOf(interactive));
    SumDifference(s.reqs, d, AbsentInFlightOf(interactive), EarlyDownOf(interactive));
    SumNonNegative(s.reqs, QueuedGhostOf(interactive));
    SumNonNegative(s.reqs, AbsentInFlightOf(interactive));
    SumNonNegative(s.reqs, EarlyDownOf(interactive));
  }

  lemma QueueParts(s: State, interactive: bool)
    requires Inv(s)
    ensures |Queue(s, interactive)|
         == SumBy(s.reqs, QueuedGhostOf(interactive)) + SumBy(s.reqs, LiveQueuedOf(interactive))
  {
    forall r | r in s.reqs
      ensures LiveQueuedOf(interactive)(r) == QueuedOf(interactive)(r) - QueuedGhostOf(interactive)(r)
    {
      GhostParts(r, interactive);
    }
    SumDifference(s.reqs, LiveQueuedOf(interactive), QueuedOf(interactive), QueuedGhostOf(interactive));
  }

  function AtLeastZero(n: int): nat { if n < 0 then 0 else n }

  /** The queue depth in /stats. */
  function ReportedDepthOf(s: State, interactive: bool): nat {
    AtLeastZero(|Queue(s, interactive)| - Ghosts(s, interactive))
  }

  /** What /stats reports as queue depth, and exactly when it is the number of queued
      requests with a live client. */
  lemma ReportedDepth(s: State, interactive: bool)
    requires Inv(s)
    ensures
      var live, inFlight, early := SumBy(s.reqs, LiveQueuedOf(interactive)),
        SumBy(s.reqs, AbsentInFlightOf(interactive)), SumBy(s.reqs, EarlyDownOf(interactive));
      && ReportedDepthOf(s, interactive) == AtLeastZero(live - inFlight + early)
      && (ReportedDepthOf(s, interactive) == live <==> inFlight == early || (live == 0 && early <= inFlight))
  {
    var live, inFlight, early := SumBy(s.reqs, LiveQueuedOf(interactive)),
      SumBy(s.reqs, AbsentInFlightOf(interactive)), SumBy(s.reqs, EarlyDownOf(interactive));
    assert |Queue(s, interactive)| - Ghosts(s, interactive) == live - inFlight + early by {
      GhostsExactly(s, interactive);
      QueueParts(s, interactive);
    }
    assert live >= 0 by { SumNonNegative(s.reqs, LiveQueuedOf(interactive)); }
  }

  // ----- The live registry -----------------------------------------------------------------

  predicate InsertedAt(s: State, i: nat) { InsertedIn(s.reqs, i) }

  predicate InsertedIn(reqs: seq<Request>, i: nat) { i < |reqs| && Inserted(reqs[i]) }

  predicate EarlyAt(s: State, i: nat) { EarlyIn(s.reqs, i) }

  predicate EarlyIn(reqs: seq<Request>, i: nat) { i < |reqs| && reqs[i].unlistedEarly }

  lemma UpdatedRegistry(reqs: seq<Request>, j: nat, r: Request, i: nat)
    requires j < |reqs|
    ensures InsertedIn(reqs[j := r], i) == if i == j then Inserted(r) else InsertedIn(reqs, i)
    ensures EarlyIn(reqs[j := r], i) == if i == j then r.unlistedEarly else EarlyIn(reqs, i)
  {}

  /** forward() deletes the registry entry of request i before the handler inserts it. */
  ghost predicate UnlistedThenListed(es: seq<Event>, i: nat) {
    Precedes(es, Do(i, UnlistForward), Do(i, List))
  }

  /** x occurs in the run, and y after it. */
  ghost predicate Precedes(es: seq<Event>, x: Event, y: Event) {
    exists a, b :: 0 <= a < b < |es| && es[a] == x && es[b] == y
  }

  /** Only List inserts, only a delete before it marks the entry, and both are for good. */
  lemma StepRegisters(s: State, e: Event, i: nat)
    requires Inv(s) && Enabled(s, e)
    ensures InsertedAt(Apply(s, e), i) <==> InsertedAt(s, i) || e == Do(i, List)
    ensures e == Do(i, List) ==> !InsertedAt(s, i)
    ensures EarlyAt(Apply(s, e), i) <==>
      EarlyAt(s, i) || (e == Do(i, UnlistForward) && !InsertedAt(s, i))
  {
    match e
    case Do(j, a) => DoRegisters(s, j, a, i);
    case Spawn => SpawnRegisters(s, i);
    case Arrive(_, _) =>
    case Acquire =>
    case Send(_) => AdmissionRegisters(s, e, i);
    case Refuse(_) => AdmissionRegisters(s, e, i);
    case HandOff(_) => AdmissionRegisters(s, e, i);
    case _ => DeliveryRegisters(s, e, i);
  }

  lemma ActRegisters(r: Request, a: Act)
    requires RequestOk(r) && CanDo(r, a)
    ensures Inserted(After(r, a)) <==> Inserted(r) || a.List?
    ensures a.List? ==> !Inserted(r)
    ensures After(r, a).unlistedEarly <==> r.unlistedEarly || (a.UnlistForward? && !Inserted(r))
  {
    match a
    case Count => case List => case Return => case Leave => case Mark => case CasHandler =>
    case DecrHandler => case UnlistHandler => case GhostUp => case Load => case Outcome => case Record =>
    case CasForward => case DecrForward => case UnlistForward => case GhostDown => case Close => case Release =>
  }

  lemma DoRegisters(s: State, j: nat, a: Act, i: nat)
    requires Inv(s) && Enabled(s, Do(j, a))
    ensures InsertedAt(DoAct(s, j, a), i) <==> InsertedAt(s, i) || (i == j && a.List?)
    ensures i == j && a.List? ==> !InsertedAt(s, i)
    ensures EarlyAt(DoAct(s, j, a), i) <==> EarlyAt(s, i) || (i == j && a.UnlistForward? && !InsertedAt(s, i))
  {
    ActRegisters(s.reqs[j], a);
    UpdatedRegistry(s.reqs, j, After(s.reqs[j], a), i);
  }

  lemma MoveRegisters(s: State, t: State, j: nat, i: nat)
    requires j < |s.reqs| && |t.reqs| == |s.reqs| && t.reqs == s.reqs[j := t.reqs[j]]
    requires Inserted(t.reqs[j]) == Inserted(s.reqs[j]) && t.reqs[j].unlistedEarly == s.reqs[j].unlistedEarly
    ensures InsertedAt(t, i) == InsertedAt(s, i) && EarlyAt(t, i) == EarlyAt(s, i)
  {}

  lemma AdmissionRegisters(s: State, e: Event, i: nat)
    requires Inv(s) && Enabled(s, e) && (e.Send? || e.Refuse? || e.HandOff?)
    ensures InsertedAt(Apply(s, e), i) == InsertedAt(s, i) && EarlyAt(Apply(s, e), i) == EarlyAt(s, i)
  {
    MoveRegisters(s, Apply(s, e), e.i, i);
  }

  lemma DeliveryRegisters(s: State, e: Event, i: nat)
    requires Inv(s) && Enabled(s, e) && (e.Poll? || e.TakePriority? || e.TakeNormal?)
    ensures InsertedAt(Apply(s, e), i) == InsertedAt(s, i) && EarlyAt(Apply(s, e), i) == EarlyAt(s, i)
  {
    if e.TakeNormal? {
      MoveRegisters(s, DeliverNormal(s), s.norm[0], i);
    } else if s.prio != [] {
      MoveRegisters(s, DeliverPriority(s), s.prio[0], i);
    }
  }

  lemma SpawnRegisters(s: State, i: nat)
    requires Inv(s) && Enabled(s, Spawn)
    ensures InsertedAt(Apply(s, Spawn), i) == InsertedAt(s, i) && EarlyAt(Apply(s, Spawn), i) == EarlyAt(s, i)
  {
    MoveRegisters(s, Apply(s, Spawn), s.dispatcher.i, i);
  }

  /** A request is inserted by the end of a run exactly if it was before or is listed in it,
      and it is listed only once. */
  lemma {:induction false} RunInserts(s: State, es: seq<Event>, i: nat)
    requires Inv(s) && IsRun(s, es)
    ensures InsertedAt(Exec(s, es), i) <==> InsertedAt(s, i) || Do(i, List) in es
    ensures InsertedAt(s, i) ==> Do(i, List) !in es
    decreases |es|
  {
    if es != [] {
      StepRegisters(s, es[0], i);
      StepKeepsInv(s, es[0]);
      RunInserts(Apply(s, es[0]), es[1..], i);
      FirstOrRest(es, Do(i, List));
    }
  }

  lemma FirstOrRest(es: seq<Event>, e: Event)
    requires es != []
    ensures e in es <==> es[0] == e || e in es[1..]
  {
    assert es == [es[0]] + es[1..];
  }

  lemma PrecedesStep(es: seq<Event>, x: Event, y: Event)
    requires es != []
    ensures Precedes(es, x, y) <==> Precedes(es[1..], x, y) || (es[0] == x && y in es[1..])
  {
    if Precedes(es, x, y) { PrecedesInRest(es, x, y); }
    if Precedes(es[1..], x, y) || (es[0] == x && y in es[1..]) { PrecedesFromRest(es, x, y); }
  }

  lemma PrecedesInRest(es: seq<Event>, x: Event, y: Event)
    requires es != [] && Precedes(es, x, y)
    ensures Precedes(es[1..], x, y) || (es[0] == x && y in es[1..])
  {
    var rest := es[1..];
    var a, b :| 0 <= a < b < |es| && es[a] == x && es[b] == y;
    assert rest[b - 1] == y;
    if a > 0 { assert rest[a - 1] == x; }
  }

  lemma PrecedesFromRest(es: seq<Event>, x: Event, y: Event)
    requires es != [] && (Precedes(es[1..], x, y) || (es[0] == x && y in es[1..]))
    ensures Precedes(es, x, y)
  {
    var rest := es[1..];
    if Precedes(rest, x, y) {
      var a, b :| 0 <= a < b < |rest| && rest[a] == x && rest[b] == y;
      assert es[a + 1] == x && es[b + 1] == y;
    } else {
      var b :| 0 <= b < |rest| && rest[b] == y;
      assert es[0] == x && es[b + 1] == y;
    }
  }

  lemma {:induction false} EarlyIsOrder(s: State, es: seq<Event>, i: nat)
    requires Inv(s) && IsRun(s, es) && InsertedAt(Exec(s, es), i)
    ensures EarlyAt(Exec(s, es), i) <==> EarlyAt(s, i) || UnlistedThenListed(es, i)
    decreases |es|
  {
    if es != [] {
      var t := Apply(s, es[0]);
      StepRegisters(s, es[0], i);
      StepKeepsInv(s, es[0]);
      EarlyIsOrder(t, es[1..], i);
      RunInserts(t, es[1..], i);
      PrecedesStep(es, Do(i, UnlistForward), Do(i, List));
    }
  }

  /** A request that is over is still in the live registry exactly when, in the run, forward
      deleted its entry before the handler inserted it. */
  lemma RegistryLeakExactly(cfg: Config, es: seq<Event>, i: nat)
    requires IsRun(Init(cfg), es) && i < |Exec(Init(cfg), es).reqs| && Over(Exec(Init(cfg), es).reqs[i])
    ensures Exec(Init(cfg), es).reqs[i].listed <==> UnlistedThenListed(es, i)
  {
    InitInv(cfg);
    RunKeepsInv(Init(cfg), es);
    var r := Exec(Init(cfg), es).reqs[i];
    OverIsRegistered(r);
    RunInserts(Init(cfg), es, i);
    if r.handler.Refused? {
      assert Do(i, List) !in es;
    } else {
      EarlyIsOrder(Init(cfg), es, i);
    }
  }

  lemma OverIsRegistered(r: Request)
    requires RequestOk(r) && Over(r)
    ensures r.handler.Refused? ==> !Inserted(r) && !r.listed
    ensures !r.handler.Refused? ==> Inserted(r) && r.listed == r.unlistedEarly
  {}

  // ----- Every run drains ----------------------------------------------------------------

  function PlaceRank(p: Place): nat
    ensures PlaceRank(p) <= 11
  {
    match p
    case Outside => 0 case Queued => 1 case Hand => 2 case Started => 3 case Loaded => 4
    case Outcomed => 5 case Recorded => 6 case FWon => 7 case FWonDecr => 8 case FLost => 8
    case Closing => 9 case Closed => 10 case Finished => 11
  }

  function HandlerRank(h: Handler): nat
    ensures HandlerRank(h) <= 9
  {
    match h
    case New => 0 case Sent => 1 case Counted => 2 case Waiting => 3 case Leaving => 4
    case Marked => 5 case Won => 6 case WonDecr => 7 case WonUnlisted => 8
    case Departed => 9 case Abandoned => 9 case Returned => 9 case Refused => 9
  }

  function WorkOf(): Request -> int {
    (r: Request) => 3 * (11 - PlaceRank(r.place)) + (9 - HandlerRank(r.handler))
  }

  /** Steps the gateway can still take without a new arrival. */
  function Work(s: State): int {
    SumBy(s.reqs, WorkOf()) + DispatcherWork(s.dispatcher)
  }

  lemma ActDoesWork(r: Request, a: Act)
    requires CanDo(r, a)
    ensures WorkOf()(After(r, a)) < WorkOf()(r)
  {
    match a
    case Count => case List => case Return => case Leave => case Mark => case CasHandler =>
    case DecrHandler => case UnlistHandler => case GhostUp => case Load => case Outcome => case Record =>
    case CasForward => case DecrForward => case UnlistForward => case GhostDown => case Close => case Release =>
  }

  function DispatcherWork(d: Dispatcher): nat {
    match d case Idle => 2 case HasSlot => 1 case Blocked => 0 case Holding(_) => 0
  }

  lemma MoveDoesWork(s: State, t: State, i: nat)
    requires i < |s.reqs| && |t.reqs| == |s.reqs| && t.reqs == s.reqs[i := t.reqs[i]]
    requires WorkOf()(t.reqs[i]) + DispatcherWork(t.dispatcher) < WorkOf()(s.reqs[i]) + DispatcherWork(s.dispatcher)
    ensures Work(t) < Work(s)
  {
    SumUpdate(s.reqs, i, t.reqs[i], WorkOf());
  }

  lemma DoDoesWork(s: State, i: nat, a: Act)
    requires i < |s.reqs| && CanDo(s.reqs[i], a)
    ensures Work(DoAct(s, i, a)) < Work(s)
  {
    ActDoesWork(s.reqs[i], a);
    MoveDoesWork(s, DoAct(s, i, a), i);
  }

  lemma DeliveryDoesWork(s: State, e: Event)
    requires Inv(s) && Enabled(s, e) && (e.Poll? || e.TakePriority? || e.TakeNormal?)
    ensures Work(Apply(s, e)) < Work(s)
  {
    if e.TakeNormal? {
      MoveDoesWork(s, DeliverNormal(s), s.norm[0]);
    } else if s.prio != [] {
      MoveDoesWork(s, DeliverPriority(s), s.prio[0]);
    }
  }

  lemma AdmissionDoesWork(s: State, e: Event)
    requires Inv(s) && Enabled(s, e) && (e.Send? || e.Refuse? || e.HandOff?)
    ensures Work(Apply(s, e)) < Work(s)
  {
    MoveDoesWork(s, Apply(s, e), e.i);
  }

  lemma SpawnDoesWork(s: State)
    requires Inv(s) && Enabled(s, Spawn)
    ensures Work(Apply(s, Spawn)) < Work(s)
  {
    MoveDoesWork(s, Apply(s, Spawn), s.dispatcher.i);
  }

  /** Every event other than an arrival uses up work. */
  lemma StepDoesWork(s: State, e: Event)
    requires Inv(s) && Enabled(s, e) && !e.Arrive?
    ensures Work(Apply(s, e)) < Work(s)
  {
    match e
    case Do(i, a) => DoDoesWork(s, i, a);
    case Acquire =>
    case Spawn => SpawnDoesWork(s);
    case Send(_) => AdmissionDoesWork(s, e);
    case Refuse(_) => AdmissionDoesWork(s, e);
    case HandOff(_) => AdmissionDoesWork(s, e);
    case _ => DeliveryDoesWork(s, e);
  }

  ghost predicate NoArrivals(es: seq<Event>) {
    forall k :: 0 <= k < |es| ==> !es[k].Arrive?
  }

  /** Once arrivals stop, every run is finite: its length is bounded by the work left. */
  lemma {:induction false} RunsAreFinite(s: State, es: seq<Event>)
    requires Inv(s) && IsRun(s, es) && NoArrivals(es)
    ensures |es| <= Work(s)
    decreases |es|
  {
    SumNonNegative(s.reqs, WorkOf());
    if es != [] {
      StepDoesWork(s, es[0]);
      StepKeepsInv(s, es[0]);
      RunsAreFinite(Apply(s, es[0]), es[1..]);
    }
  }

  /** A request that is not over always has an event of its own or is waiting for the
      dispatcher to take it. */
  lemma UnfinishedCanMove(r: Request) returns (a: Act)
    requires RequestOk(r) && !Over(r) && !r.place.Outside? && !r.place.Queued? && !r.place.Hand?
    ensures CanDo(r, a) && !a.Leave?
  {
    match r.place
    case Started => a := Load;
    case Loaded => a := Outcome;
    case Outcomed => a := Record;
    case Recorded => a := CasForward;
    case FWon => a := DecrForward;
    case FWonDecr => a := UnlistForward;
    case FLost => a := GhostDown;
    case Closing => a := Close;
    case Closed => a := Release;
    case Finished =>
      match r.handler
      case Sent => a := Count;
      case Counted => a := List;
      case Waiting => a := Return;
      case Leaving => a := Mark;
      case Marked => a := CasHandler;
      case Won => a := DecrHandler;
      case WonDecr => a := UnlistHandler;
      case WonUnlisted => a := GhostUp;
  }

  /** A waiting request with no forward running finds the dispatcher able to move. */
  lemma DispatcherCanMove(s: State, i: nat) returns (e: Event)
    requires Inv(s) && s.cfg.maxConcurrency > 0 && i < |s.reqs| && (s.reqs[i].place.Queued? || s.reqs[i].place.Hand?)
    requires forall j :: 0 <= j < |s.reqs| ==> !IsRunning(s.reqs[j])
    ensures Enabled(s, e) && !e.Arrive? && !e.Do?
  {
    SumZero(s.reqs, RunningOf());
    match s.dispatcher
    case Idle => e := Acquire;
    case HasSlot => e := Poll;
    case Holding(_) => e := Spawn;
    case Blocked =>
      SumCovers(s.reqs, QueuedOf(s.reqs[i].interactive), i);
      e := if s.reqs[i].interactive then TakePriority else TakeNormal;
  }

  /** No deadlock: while any request is not over, some event other than an arrival or a
      client leaving is possible. */
  lemma NotStuck(s: State) returns (e: Event)
    requires Inv(s) && !Drained(s) && s.cfg.maxConcurrency > 0
    ensures Enabled(s, e) && !e.Arrive? && !(e.Do? && e.act.Leave?)
  {
    var i :| 0 <= i < |s.reqs| && !Over(s.reqs[i]);
    var r := s.reqs[i];
    if r.handler.New? {
      e := if Enabled(s, Send(i)) then Send(i) else Refuse(i);
    } else if !r.place.Queued? && !r.place.Hand? {
      var a := UnfinishedCanMove(r);
      e := Do(i, a);
    } else if j :| 0 <= j < |s.reqs| && IsRunning(s.reqs[j]) {
      var a := UnfinishedCanMove(s.reqs[j]);
      e := Do(j, a);
    } else {
      e := DispatcherCanMove(s, i);
    }
  }

  /** Liveness: from any reachable state, without further arrivals, every maximal run ends
      with nothing outstanding and with all counters at zero. */
  lemma MaximalRunsDrain(cfg: Config, past: seq<Event>, es: seq<Event>)
    requires cfg.maxConcurrency > 0
    requires IsRun(Init(cfg), past) && IsRun(Exec(Init(cfg), past), es)
    requires forall e :: Enabled(Exec(Exec(Init(cfg), past), es), e) ==> e.Arrive?
    ensures
      var s := Exec(Exec(Init(cfg), past), es);
      && Drained(s) && (forall h :: Pending(s, h) == 0) && s.ghostPriority == 0 && s.ghostNormal == 0
      && s.outcomes == SumBy(s.reqs, AcceptedOf()) && s.records == SumBy(s.reqs, ServedOf())
  {
    InitInv(cfg);
    RunKeepsInv(Init(cfg), past);
    RunKeepsInv(Exec(Init(cfg), past), es);
    ConfigConstant(Init(cfg), past);
    ConfigConstant(Exec(Init(cfg), past), es);
    var s := Exec(Exec(Init(cfg), past), es);
    if !Drained(s) {
      var e := NotStuck(s);
    }
    DrainedCountersAreZero(s);
    DrainedStatistics(s);
  }

  // ----- What the documentation promises but the code does not keep -----------------------

  ghost predicate Reachable(cfg: Config, s: State) {
    exists es :: IsRun(Init(cfg), es) && Exec(Init(cfg), es) == s
  }

  lemma {:induction false} RunSnoc(s: State, es: seq<Event>, e: Event)
    requires IsRun(s, es) && Bounded(Exec(s, es)) && Enabled(Exec(s, es), e)
    ensures IsRun(s, es + [e]) && Exec(s, es + [e]) == Apply(Exec(s, es), e)
    decreases |es|
  {
    if es == [] {
      assert (es + [e])[1..] == [];
    } else {
      assert (es + [e])[1..] == es[1..] + [e];
      RunSnoc(Apply(s, es[0]), es[1..], e);
    }
  }

  lemma ReachStep(cfg: Config, s: State, e: Event)
    requires Reachable(cfg, s) && Bounded(s) && Enabled(s, e)
    ensures Reachable(cfg, Apply(s, e))
  {
    var es :| IsRun(Init(cfg), es) && Exec(Init(cfg), es) == s;
    RunSnoc(Init(cfg), es, e);
  }

  const ONE: Config := Config(1, 1, 1)

  /** A gateway with a single background request r that has left its queue. */
  ghost predicate Single(s: State, r: Request, ghosts: int) {
    Reachable(ONE, s) && s.reqs == [r] && s.prio == [] && s.norm == [] && s.ghostNormal == ghosts && !r.interactive
  }

  lemma Advance(s: State, r: Request, ghosts: int, a: Act) returns (t: State)
    requires Single(s, r, ghosts) && CanDo(r, a)
    ensures Single(t, After(r, a), ghosts + GhostDelta(a))
  {
    ReachStep(ONE, s, Do(0, a));
    t := DoAct(s, 0, a);
  }

  /** One accepted request, dequeued and spawned before its handler got to IncrPending. */
  ghost function SpawnedRequest(): Request {
    Request("h", false, Sent, Started, false, false, false, false, false, false)
  }

  lemma SpawnedEarly() returns (s: State)
    ensures Single(s, SpawnedRequest(), 0)
  {
    var s0 := Init(ONE);
    assert IsRun(s0, []) && Exec(s0, []) == s0;
    ReachStep(ONE, s0, Arrive("h", false));
    var s1 := Apply(s0, Arrive("h", false));
    ReachStep(ONE, s1, Send(0));
    var s2 := Apply(s1, Send(0));
    ReachStep(ONE, s2, Acquire);
    var s3 := Apply(s2, Acquire);
    s := Dequeued(s3);
  }

  lemma Dequeued(s3: State) returns (s: State)
    requires Reachable(ONE, s3) && s3.dispatcher == HasSlot && s3.prio == [] && s3.norm == [0] && s3.ghostNormal == 0
    requires s3.reqs == [SpawnedRequest().(place := Queued)]
    ensures Single(s, SpawnedRequest(), 0)
  {
    ReachStep(ONE, s3, Poll);
    var s4 := Apply(s3, Poll);
    ReachStep(ONE, s4, TakeNormal);
    var s5 := Apply(s4, TakeNormal);
    ReachStep(ONE, s5, Spawn);
    s := Apply(s5, Spawn);
  }

  /** forward() deletes the registry entry before the handler inserts it. */
  lemma ForwardFirst() returns (s: State)
    ensures Single(s, SpawnedRequest().(place := Closing, decremented := true, forwardWon := true,
        unlistedEarly := true), 0)
  {
    s := ForwardedFirst();
    var r := s.reqs[0];
    s := Advance(s, r, 0, CasForward); r := After(r, CasForward);
    s := Advance(s, r, 0, DecrForward); r := After(r, DecrForward);
    s := Advance(s, r, 0, UnlistForward);
  }

  lemma ForwardedFirst() returns (s: State)
    ensures Single(s, SpawnedRequest().(place := Recorded), 0)
  {
    var r := SpawnedRequest();
    s := SpawnedEarly();
    s := Advance(s, r, 0, Load); r := After(r, Load);
    s := Advance(s, r, 0, Outcome); r := After(r, Outcome);
    s := Advance(s, r, 0, Record);
  }

  /** DecrPending is documented to remove the request from the live registry, yet a request
      that is over can stay listed: forward finished before IncrPending ran. */
  lemma RegistryCanLeak() returns (s: State)
    ensures Reachable(ONE, s) && Drained(s) && |s.reqs| == 1 && s.reqs[0].listed
  {
    s := ForwardFirst();
    var r := s.reqs[0];
    s := Advance(s, r, 0, Close); r := After(r, Close);
    s := Advance(s, r, 0, Release); r := After(r, Release);
    s := Advance(s, r, 0, Count); r := After(r, Count);
    s := Advance(s, r, 0, List); r := After(r, List);
    s := Advance(s, r, 0, Return);
  }

  /** The client of a running request leaves and its handler wins the compare-and-swap. */
  lemma ClientLeft() returns (s: State)
    ensures Single(s, SpawnedRequest().(handler := Won, cancelled := true, decremented := true, listed := true), 0)
  {
    var r := SpawnedRequest();
    s := SpawnedEarly();
    s := Advance(s, r, 0, Count); r := After(r, Count);
    s := Advance(s, r, 0, List); r := After(r, List);
    s := Advance(s, r, 0, Leave); r := After(r, Leave);
    s := Advance(s, r, 0, Mark); r := After(r, Mark);
    s := Advance(s, r, 0, CasHandler);
  }

  /** The ghost counter is documented as a number of queue slots, yet it can be negative. */
  lemma GhostCanBeNegative() returns (s: State)
    ensures Reachable(ONE, s) && s.ghostNormal == -1
  {
    s := ClientLeft();
    var r := s.reqs[0];
    s := Advance(s, r, 0, Load); r := After(r, Load);
    s := Advance(s, r, 0, Outcome); r := After(r, Outcome);
    s := Advance(s, r, 0, Record); r := After(r, Record);
    s := Advance(s, r, 0, CasForward); r := After(r, CasForward);
    s := Advance(s, r, 0, GhostDown);
  }

  /** ... and it counts a request that already left the queue. */
  lemma GhostCanExceedQueue() returns (s: State)
    ensures Reachable(ONE, s) && s.ghostNormal == 1 && s.norm == []
  {
    s := ClientLeft();
    var r := s.reqs[0];
    s := Advance(s, r, 0, DecrHandler); r := After(r, DecrHandler);
    s := Advance(s, r, 0, UnlistHandler); r := After(r, UnlistHandler);
    s := Advance(s, r, 0, GhostUp);
  }
}
