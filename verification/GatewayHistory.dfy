/** What the fields of a request say about the run that led to them. */
module GatewayHistory {
  import opened Sums
  import opened Gateway
  import opened GatewayInvariant
  import opened GatewayTheorems

  /** What is remembered of a request: nothing but which of its steps have happened. */
  datatype Flags = Flags(accepted: bool, refused: bool, cancelled: bool, skipped: bool, closed: bool)

  const NO_FLAGS := Flags(false, false, false, false, false)

  function FlagsOf(r: Request): Flags {
    Flags(WasAccepted(r), r.handler.Refused?, r.cancelled, r.wasCancelled, r.place.Closed? || r.place.Finished?)
  }

  function FlagsIn(reqs: seq<Request>, i: nat): Flags {
    if i < |reqs| then FlagsOf(reqs[i]) else NO_FLAGS
  }

  /** Which step raises which flag: Load skips the record of a request already cancelled. */
  function Flagged(f: Flags, e: Event, i: nat): Flags {
    Flags(f.accepted || e == Send(i) || e == HandOff(i), f.refused || e == Refuse(i),
          f.cancelled || e == Do(i, Mark), f.skipped || (e == Do(i, Load) && f.cancelled),
          f.closed || e == Do(i, Close))
  }

  lemma UpdatedFlags(reqs: seq<Request>, j: nat, r: Request, i: nat)
    requires j < |reqs|
    ensures FlagsIn(reqs[j := r], i) == if i == j then FlagsOf(r) else FlagsIn(reqs, i)
  {}

  lemma ActFlags(r: Request, a: Act, j: nat)
    requires RequestOk(r) && CanDo(r, a)
    ensures FlagsOf(After(r, a)) == Flagged(FlagsOf(r), Do(j, a), j)
  {
    match a
    case Count => case List => case Return => case Leave => case Mark => case CasHandler =>
    case DecrHandler => case UnlistHandler => case GhostUp => case Load => case Outcome => case Record =>
    case CasForward => case DecrForward => case UnlistForward => case GhostDown => case Close => case Release =>
  }

  lemma DoFlags(s: State, j: nat, a: Act, i: nat)
    requires Inv(s) && Enabled(s, Do(j, a))
    ensures FlagsIn(DoAct(s, j, a).reqs, i) == Flagged(FlagsIn(s.reqs, i), Do(j, a), i)
  {
    ActFlags(s.reqs[j], a, j);
    UpdatedFlags(s.reqs, j, After(s.reqs[j], a), i);
  }

  lemma SendFlags(s: State, j: nat, i: nat)
    requires Inv(s) && Enabled(s, Send(j))
    ensures FlagsIn(Apply(s, Send(j)).reqs, i) == Flagged(FlagsIn(s.reqs, i), Send(j), i)
  {
    AdmittedFlags(s.reqs[j]);
    UpdatedFlags(s.reqs, j, s.reqs[j].(handler := Sent, place := Queued), i);
  }

  lemma RefuseFlags(s: State, j: nat, i: nat)
    requires Inv(s) && Enabled(s, Refuse(j))
    ensures FlagsIn(Apply(s, Refuse(j)).reqs, i) == Flagged(FlagsIn(s.reqs, i), Refuse(j), i)
  {
    AdmittedFlags(s.reqs[j]);
    UpdatedFlags(s.reqs, j, s.reqs[j].(handler := Refused), i);
  }

  lemma HandOffFlags(s: State, j: nat, i: nat)
    requires Inv(s) && Enabled(s, HandOff(j))
    ensures FlagsIn(Apply(s, HandOff(j)).reqs, i) == Flagged(FlagsIn(s.reqs, i), HandOff(j), i)
  {
    AdmittedFlags(s.reqs[j]);
    UpdatedFlags(s.reqs, j, s.reqs[j].(handler := Sent, place := Hand), i);
  }

  lemma AdmittedFlags(r: Request)
    requires RequestOk(r) && r.handler == New
    ensures FlagsOf(r) == NO_FLAGS
    ensures FlagsOf(r.(handler := Refused)) == NO_FLAGS.(refused := true)
    ensures FlagsOf(r.(handler := Sent, place := Queued)) == NO_FLAGS.(accepted := true)
    ensures FlagsOf(r.(handler := Sent, place := Hand)) == NO_FLAGS.(accepted := true)
  {}

  lemma DeliveryFlags(s: State, e: Event, i: nat)
    requires Inv(s) && Enabled(s, e) && (e.Poll? || e.TakePriority? || e.TakeNormal?)
    ensures FlagsIn(Apply(s, e).reqs, i) == FlagsIn(s.reqs, i)
  {
    if e.TakeNormal? {
      assert s.reqs[s.norm[0]].place == Queued;
      UpdatedFlags(s.reqs, s.norm[0], s.reqs[s.norm[0]].(place := Hand), i);
    } else if s.prio != [] {
      assert s.reqs[s.prio[0]].place == Queued;
      UpdatedFlags(s.reqs, s.prio[0], s.reqs[s.prio[0]].(place := Hand), i);
    }
  }

  lemma SpawnFlags(s: State, i: nat)
    requires Inv(s) && Enabled(s, Spawn)
    ensures FlagsIn(Apply(s, Spawn).reqs, i) == FlagsIn(s.reqs, i)
  {
    UpdatedFlags(s.reqs, s.dispatcher.i, s.reqs[s.dispatcher.i].(place := Started), i);
  }

  lemma ArrivalFlags(s: State, e: Event, i: nat)
    requires Inv(s) && e.Arrive?
    ensures FlagsIn(Apply(s, e).reqs, i) == FlagsIn(s.reqs, i)
  {}

  lemma NothingFlagged(f: Flags, e: Event, i: nat)
    requires !e.Do? && !e.Send? && !e.Refuse? && !e.HandOff?
    ensures Flagged(f, e, i) == f
  {}

  lemma StepFlags(s: State, e: Event, i: nat)
    requires Inv(s) && Enabled(s, e)
    ensures FlagsIn(Apply(s, e).reqs, i) == Flagged(FlagsIn(s.reqs, i), e, i)
  {
    match e
    case Do(j, a) => DoFlags(s, j, a, i);
    case Send(j) => SendFlags(s, j, i);
    case Refuse(j) => RefuseFlags(s, j, i);
    case HandOff(j) => HandOffFlags(s, j, i);
    case _ => QuietFlags(s, e, i);
  }

  lemma QuietFlags(s: State, e: Event, i: nat)
    requires Inv(s) && Enabled(s, e) && !e.Do? && !e.Send? && !e.Refuse? && !e.HandOff?
    ensures FlagsIn(Apply(s, e).reqs, i) == Flagged(FlagsIn(s.reqs, i), e, i)
  {
    NothingFlagged(FlagsIn(s.reqs, i), e, i);
    match e
    case Spawn => SpawnFlags(s, i);
    case Arrive(_, _) => ArrivalFlags(s, e, i);
    case Acquire =>
    case _ => DeliveryFlags(s, e, i);
  }

  function FlagsBy(f: Flags, es: seq<Event>, i: nat): Flags
    decreases |es|
  {
    if es == [] then f else FlagsBy(Flagged(f, es[0], i), es[1..], i)
  }

  lemma {:induction false} RunFlags(s: State, es: seq<Event>, i: nat)
    requires Inv(s) && IsRun(s, es)
    ensures FlagsIn(Exec(s, es).reqs, i) == FlagsBy(FlagsIn(s.reqs, i), es, i)
    decreases |es|
  {
    if es != [] {
      StepFlags(s, es[0], i);
      StepKeepsInv(s, es[0]);
      RunFlags(Apply(s, es[0]), es[1..], i);
    }
  }

  lemma {:induction false} FlagsMean(f: Flags, es: seq<Event>, i: nat)
    ensures var g := FlagsBy(f, es, i);
      && (g.accepted <==> f.accepted || Send(i) in es || HandOff(i) in es)
      && (g.refused <==> f.refused || Refuse(i) in es)
      && (g.cancelled <==> f.cancelled || Do(i, Mark) in es)
      && (g.closed <==> f.closed || Do(i, Close) in es)
      && (g.skipped <==> f.skipped || (f.cancelled && Do(i, Load) in es) || Precedes(es, Do(i, Mark), Do(i, Load)))
    decreases |es|
  {
    if es != [] {
      FlagsMean(Flagged(f, es[0], i), es[1..], i);
      FirstOrRest(es, Send(i));
      FirstOrRest(es, HandOff(i));
      FirstOrRest(es, Refuse(i));
      FirstOrRest(es, Do(i, Mark));
      FirstOrRest(es, Do(i, Load));
      FirstOrRest(es, Do(i, Close));
      PrecedesStep(es, Do(i, Mark), Do(i, Load));
    }
  }

  /** Over every run: a request was accepted exactly if it was sent or handed over, refused
      exactly if it was refused, and forward skips its record exactly if its handler had marked
      it cancelled before forward looked. */
  lemma RequestTellsItsRun(cfg: Config, es: seq<Event>, i: nat)
    requires IsRun(Init(cfg), es) && i < |Exec(Init(cfg), es).reqs|
    ensures var r := Exec(Init(cfg), es).reqs[i];
      && (WasAccepted(r) <==> Send(i) in es || HandOff(i) in es)
      && (r.handler.Refused? <==> Refuse(i) in es)
      && (r.cancelled <==> Do(i, Mark) in es)
      && (r.wasCancelled <==> Precedes(es, Do(i, Mark), Do(i, Load)))
      && (r.place.Closed? || r.place.Finished? <==> Do(i, Close) in es)
  {
    InitInv(cfg);
    RunFlags(Init(cfg), es, i);
    FlagsMean(NO_FLAGS, es, i);
  }

  // ----- Requests are arrivals -----------------------------------------------------------------

  /** The arrivals a list of requests answers for, and those of a run. */
  function Callers(reqs: seq<Request>): seq<Event> {
    seq(|reqs|, i requires 0 <= i < |reqs| => Arrive(reqs[i].host, reqs[i].interactive))
  }

  function Arrivals(es: seq<Event>): seq<Event> {
    if es == [] then [] else (if es[0].Arrive? then [es[0]] else []) + Arrivals(es[1..])
  }

  lemma SameCallers(reqs: seq<Request>, j: nat, r: Request)
    requires j < |reqs| && r.host == reqs[j].host && r.interactive == reqs[j].interactive
    ensures Callers(reqs[j := r]) == Callers(reqs)
  {}

  lemma ActKeepsCaller(r: Request, a: Act)
    ensures After(r, a).host == r.host && After(r, a).interactive == r.interactive
  {
    match a
    case Count => case List => case Return => case Leave => case Mark => case CasHandler =>
    case DecrHandler => case UnlistHandler => case GhostUp => case Load => case Outcome => case Record =>
    case CasForward => case DecrForward => case UnlistForward => case GhostDown => case Close => case Release =>
  }

  lemma DeliveryKeepsCallers(s: State, e: Event)
    requires Inv(s) && Enabled(s, e) && (e.Poll? || e.TakePriority? || e.TakeNormal?)
    ensures Apply(s, e).cfg == s.cfg && Callers(Apply(s, e).reqs) == Callers(s.reqs)
  {
    if e.TakeNormal? {
      SameCallers(s.reqs, s.norm[0], s.reqs[s.norm[0]].(place := Hand));
    } else if s.prio != [] {
      SameCallers(s.reqs, s.prio[0], s.reqs[s.prio[0]].(place := Hand));
    }
  }

  lemma DoKeepsCallers(s: State, i: nat, a: Act)
    requires i < |s.reqs|
    ensures DoAct(s, i, a).cfg == s.cfg && Callers(DoAct(s, i, a).reqs) == Callers(s.reqs)
  {
    ActKeepsCaller(s.reqs[i], a);
    SameCallers(s.reqs, i, After(s.reqs[i], a));
  }

  lemma StepCallers(s: State, e: Event)
    requires Inv(s) && Enabled(s, e)
    ensures Apply(s, e).cfg == s.cfg
    ensures Callers(Apply(s, e).reqs) == Extended(Callers(s.reqs), e)
  {
    match e
    case Arrive(_, _) =>
    case Send(i) => SameCallers(s.reqs, i, s.reqs[i].(handler := Sent, place := Queued));
    case Refuse(i) => SameCallers(s.reqs, i, s.reqs[i].(handler := Refused));
    case HandOff(i) => SameCallers(s.reqs, i, s.reqs[i].(handler := Sent, place := Hand));
    case Spawn => SameCallers(s.reqs, s.dispatcher.i, s.reqs[s.dispatcher.i].(place := Started));
    case Do(i, a) => DoKeepsCallers(s, i, a);
    case Acquire =>
    case _ => DeliveryKeepsCallers(s, e);
  }

  function Extended(callers: seq<Event>, e: Event): seq<Event> {
    callers + if e.Arrive? then [e] else []
  }

  function CallersBy(callers: seq<Event>, es: seq<Event>): seq<Event>
    decreases |es|
  {
    if es == [] then callers else CallersBy(Extended(callers, es[0]), es[1..])
  }

  lemma {:induction false} CallersMean(callers: seq<Event>, es: seq<Event>)
    ensures CallersBy(callers, es) == callers + Arrivals(es)
    decreases |es|
  {
    if es != [] { CallersMean(Extended(callers, es[0]), es[1..]); }
  }

  lemma {:induction false} RunCallers(s: State, es: seq<Event>)
    requires Inv(s) && IsRun(s, es)
    ensures Exec(s, es).cfg == s.cfg && Callers(Exec(s, es).reqs) == CallersBy(Callers(s.reqs), es)
    decreases |es|
  {
    if es != [] {
      StepCallers(s, es[0]);
      StepKeepsInv(s, es[0]);
      RunCallers(Apply(s, es[0]), es[1..]);
    }
  }

  /** Over every run there is one request per arrival, in order, charged to the host and queued in
      the class that arrived, under the configured limits. */
  lemma RequestsAreArrivals(cfg: Config, es: seq<Event>)
    requires IsRun(Init(cfg), es)
    ensures Callers(Exec(Init(cfg), es).reqs) == Arrivals(es) && Exec(Init(cfg), es).cfg == cfg
  {
    InitInv(cfg);
    RunCallers(Init(cfg), es);
    AllArrived(es);
  }

  lemma AllArrived(es: seq<Event>)
    ensures CallersBy(Callers([]), es) == Arrivals(es)
  {
    CallersMean(Callers([]), es);
  }

  // ----- The statistics of a drained gateway --------------------------------------------------

  /** Requests below n that were accepted, and those whose record is not skipped. */
  ghost function AcceptedBy(es: seq<Event>, n: nat): nat {
    if n == 0 then 0
    else AcceptedBy(es, n - 1) + if Send(n - 1) in es || HandOff(n - 1) in es then 1 else 0
  }

  ghost function RecordedBy(es: seq<Event>, n: nat): nat {
    if n == 0 then 0
    else
      var i := n - 1;
      RecordedBy(es, i) +
      if (Send(i) in es || HandOff(i) in es) && !Precedes(es, Do(i, Mark), Do(i, Load)) then 1 else 0
  }

  lemma OneMoreSum(reqs: seq<Request>, n: nat, f: Request -> int)
    requires n < |reqs|
    ensures SumBy(reqs[..n + 1], f) == SumBy(reqs[..n], f) + f(reqs[n])
  {
    assert reqs[..n + 1] == reqs[..n] + [reqs[n]];
    SumAppend(reqs[..n], reqs[n], f);
  }

  ghost predicate TellsAcceptance(reqs: seq<Request>, es: seq<Event>) {
    forall i :: 0 <= i < |reqs| ==> (WasAccepted(reqs[i]) <==> Send(i) in es || HandOff(i) in es)
  }

  ghost predicate TellsSkipping(reqs: seq<Request>, es: seq<Event>) {
    forall i :: 0 <= i < |reqs| ==> (reqs[i].wasCancelled <==> Precedes(es, Do(i, Mark), Do(i, Load)))
  }

  lemma {:induction false} OutcomesAreCounts(reqs: seq<Request>, es: seq<Event>, n: nat)
    requires TellsAcceptance(reqs, es) && n <= |reqs|
    ensures SumBy(reqs[..n], AcceptedOf()) == AcceptedBy(es, n)
  {
    if n > 0 {
      OutcomesAreCounts(reqs, es, n - 1);
      OneMoreSum(reqs, n - 1, AcceptedOf());
    }
  }

  lemma ServedTells(reqs: seq<Request>, es: seq<Event>, i: nat)
    requires TellsAcceptance(reqs, es) && TellsSkipping(reqs, es) && i < |reqs|
    ensures RecordedBy(es, i + 1) == RecordedBy(es, i) + ServedOf()(reqs[i])
  {}

  lemma OneMoreRecord(reqs: seq<Request>, es: seq<Event>, i: nat)
    requires TellsAcceptance(reqs, es) && TellsSkipping(reqs, es) && i < |reqs|
    ensures RecordedBy(es, i + 1) - RecordedBy(es, i) == SumBy(reqs[..i + 1], ServedOf()) - SumBy(reqs[..i], ServedOf())
  {
    ServedTells(reqs, es, i);
    OneMoreSum(reqs, i, ServedOf());
  }

  lemma {:induction false} RecordsAreCounts(reqs: seq<Request>, es: seq<Event>, n: nat)
    requires TellsAcceptance(reqs, es) && TellsSkipping(reqs, es) && n <= |reqs|
    ensures SumBy(reqs[..n], ServedOf()) == RecordedBy(es, n)
  {
    if n > 0 {
      RecordsAreCounts(reqs, es, n - 1);
      OneMoreRecord(reqs, es, n - 1);
    }
  }

  /** A run that finishes all requests has one outcome per request sent or handed over, and one
      record per such request that was not marked cancelled before its forward looked. */
  lemma DrainedCounts(cfg: Config, es: seq<Event>)
    requires IsRun(Init(cfg), es) && Drained(Exec(Init(cfg), es))
    ensures var s := Exec(Init(cfg), es);
      s.outcomes == AcceptedBy(es, |s.reqs|) && s.records == RecordedBy(es, |s.reqs|)
  {
    var s := Exec(Init(cfg), es);
    assert s.outcomes == SumBy(s.reqs, AcceptedOf()) && s.records == SumBy(s.reqs, ServedOf()) by {
      InitInv(cfg);
      RunKeepsInv(Init(cfg), es);
      DrainedStatistics(s);
    }
    forall i | 0 <= i < |s.reqs|
      ensures (WasAccepted(s.reqs[i]) <==> Send(i) in es || HandOff(i) in es)
      ensures s.reqs[i].wasCancelled <==> Precedes(es, Do(i, Mark), Do(i, Load))
    {
      RequestTellsItsRun(cfg, es, i);
    }
    OutcomesAreCounts(s.reqs, es, |s.reqs|);
    RecordsAreCounts(s.reqs, es, |s.reqs|);
    assert s.reqs[..|s.reqs|] == s.reqs;
  }

  // ----- Order of steps ---------------------------------------------------------------------

  lemma {:induction false} RunAt(s: State, es: seq<Event>, b: nat)
    requires IsRun(s, es) && b < |es|
    ensures IsRun(s, es[..b]) && Enabled(Exec(s, es[..b]), es[b])
    decreases |es|
  {
    if b > 0 {
      RunAt(Apply(s, es[0]), es[1..], b - 1);
      assert es[..b][1..] == es[1..][..b - 1];
    }
  }

  /** A handler that returns on a completed response does so after forward closed it. */
  lemma ReturnsAfterClose(cfg: Config, es: seq<Event>, i: nat, b: nat)
    requires IsRun(Init(cfg), es) && b < |es| && es[b] == Do(i, Return)
    ensures Do(i, Close) in es[..b]
  {
    RunAt(Init(cfg), es, b);
    RequestTellsItsRun(cfg, es[..b], i);
  }

  /** With a queue of positive capacity a new request is sent exactly when there is room and
      answered 429 exactly when there is none. */
  lemma AdmissionExactly(s: State, i: nat)
    requires i < |s.reqs| && s.reqs[i].handler == New && Depth(s.cfg, s.reqs[i].interactive) > 0
    ensures var room := |if s.reqs[i].interactive then s.prio else s.norm| <
                        if s.reqs[i].interactive then s.cfg.priorityDepth else s.cfg.queueDepth;
      (Enabled(s, Send(i)) <==> room) && (Enabled(s, Refuse(i)) <==> !room) && !Enabled(s, HandOff(i))
  {}
}
