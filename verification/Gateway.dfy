/** The queueing protocol of the LLM gateway (llm-gateway/gateway.go).

    Goroutines interleave freely: one ServeHTTP handler per request, one dispatcher and
    one forward() per dispatched request. Every atomic action of theirs on shared state
    is one event, and a run is any sequence of enabled events.

    Requests are numbered by the order in which nextPendingID hands out ids, so the
    state keeps them in a sequence and a request is its index. */
module Gateway {
  type Host = string

  /** Where the ServeHTTP goroutine of a request stands. */
  datatype Handler =
    | New          // built, about to try the channel send
    | Refused      // queue full, answered 429
    | Sent         // accepted; IncrPending not started
    | Counted      // IncrPending has added to the host's counter
    | Waiting      // in the select on done and ctx.Done
    | Leaving      // took the ctx.Done branch
    | Marked       // stored cancelled
    | Won          // won the compare-and-swap
    | WonDecr      // ... and subtracted from the host's counter
    | WonUnlisted  // ... and deleted its pendingMap entry
    | Departed     // ... and added to the ghost counter; returned
    | Abandoned    // lost the compare-and-swap; returned
    | Returned     // saw done closed; returned

  /** Where the request itself stands, from the queue to the end of forward(). */
  datatype Place =
    | Outside
    | Queued
    | Hand         // held by the dispatcher, not spawned yet
    | Started
    | Loaded       // wasAlreadyCancelled read
    | Outcomed     // upstream work over, RecordOutcome called
    | Recorded     // Record called or skipped
    | FWon         // forward won the compare-and-swap
    | FWonDecr
    | FLost        // forward lost it
    | Closing      // accounting over, done not yet closed
    | Closed
    | Finished     // slot released

  datatype Request = Request(
    host: Host,
    interactive: bool,
    handler: Handler,
    place: Place,
    cancelled: bool,      // p.cancelled
    decremented: bool,    // p.pendingDecremented
    wasCancelled: bool,   // forward's snapshot of p.cancelled
    forwardWon: bool,     // forward's result of the compare-and-swap
    listed: bool,         // p.id is a key of pendingMap
    unlistedEarly: bool)  // history: forward's delete ran before IncrPending's insert

  datatype Dispatcher =
    | Idle         // about to acquire a slot
    | HasSlot      // slot held, about to poll the priority queue
    | Blocked      // in the select on both queues
    | Holding(i: nat)

  datatype Config = Config(maxConcurrency: nat, priorityDepth: nat, queueDepth: nat)

  datatype State = State(
    cfg: Config,
    reqs: seq<Request>,
    prio: seq<nat>,
    norm: seq<nat>,
    sem: int,
    dispatcher: Dispatcher,
    pending: map<Host, int>,
    ghostPriority: int,
    ghostNormal: int,
    outcomes: int,
    records: int,
    // History: requests in the order each channel accepted and delivered them.
    sentP: seq<nat>,
    tookP: seq<nat>,
    sentN: seq<nat>,
    tookN: seq<nat>)

  /** The atomic actions of one request's two goroutines. */
  datatype Act =
    | Count | List | Return | Leave | Mark | CasHandler | DecrHandler | UnlistHandler | GhostUp
    | Load | Outcome | Record | CasForward | DecrForward | UnlistForward | GhostDown | Close | Release

  datatype Event =
    | Arrive(host: Host, interactive: bool)
    | Send(i: nat)
    | Refuse(i: nat)
    | HandOff(i: nat)   // send on a channel of capacity 0 straight to the blocked dispatcher
    | Acquire
    | Poll              // stage 1: take a priority request if there is one
    | TakePriority      // stage 2, priority branch
    | TakeNormal        // stage 2, normal branch
    | Spawn
    | Do(i: nat, act: Act)

  function Init(cfg: Config): State {
    State(cfg, [], [], [], 0, Idle, map[], 0, 0, 0, 0, [], [], [], [])
  }

  function Pending(s: State, h: Host): int {
    if h in s.pending then s.pending[h] else 0
  }

  function Queue(s: State, interactive: bool): seq<nat> {
    if interactive then s.prio else s.norm
  }

  function Depth(cfg: Config, interactive: bool): nat {
    if interactive then cfg.priorityDepth else cfg.queueDepth
  }

  function Ghosts(s: State, interactive: bool): int {
    if interactive then s.ghostPriority else s.ghostNormal
  }

  // ----- One request -------------------------------------------------------------

  predicate HandlerWon(r: Request) {
    (r.handler.Won? || r.handler.WonDecr? || r.handler.WonUnlisted? || r.handler.Departed?)
  }

  predicate CloseSeen(r: Request) {
    (r.place.Closed? || r.place.Finished?)
  }

  /** IncrPending has written the pendingMap entry. */
  predicate Inserted(r: Request) {
    (!r.handler.New? && !r.handler.Refused? && !r.handler.Sent? && !r.handler.Counted?)
  }

  predicate CanDo(r: Request, a: Act) {
    match a
    case Count => r.handler == Sent
    case List => r.handler == Counted
    case Return => r.handler == Waiting && CloseSeen(r)
    case Leave => r.handler == Waiting
    case Mark => r.handler == Leaving
    case CasHandler => r.handler == Marked
    case DecrHandler => r.handler == Won
    case UnlistHandler => r.handler == WonDecr
    case GhostUp => r.handler == WonUnlisted
    case Load => r.place == Started
    case Outcome => r.place == Loaded
    case Record => r.place == Outcomed
    case CasForward => r.place == Recorded
    case DecrForward => r.place == FWon
    case UnlistForward => r.place == FWonDecr
    case GhostDown => r.place == FLost
    case Close => r.place == Closing
    case Release => r.place == Closed
  }

  function After(r: Request, a: Act): Request {
    match a
    case Count => r.(handler := Counted)
    case List => r.(handler := Waiting, listed := true)
    case Return => r.(handler := Returned)
    case Leave => r.(handler := Leaving)
    case Mark => r.(handler := Marked, cancelled := true)
    case CasHandler => if r.decremented then r.(handler := Abandoned) else r.(handler := Won, decremented := true)
    case DecrHandler => r.(handler := WonDecr)
    case UnlistHandler => r.(handler := WonUnlisted, listed := false)
    case GhostUp => r.(handler := Departed)
    case Load => r.(place := Loaded, wasCancelled := r.cancelled)
    case Outcome => r.(place := Outcomed)
    case Record => r.(place := Recorded)
    case CasForward => if r.decremented then r.(place := FLost)
        else r.(place := FWon, forwardWon := true, decremented := true)
    case DecrForward => r.(place := FWonDecr)
    case UnlistForward => r.(place := Closing, listed := false, unlistedEarly := !Inserted(r))
    case GhostDown => r.(place := Closing)
    case Close => r.(place := Closed)
    case Release => r.(place := Finished)
  }

  // ----- The whole gateway -------------------------------------------------------

  /** A channel of capacity 0 accepts only while the dispatcher is parked in its select;
      Refuse stays possible there because the dispatcher may not be parked yet. */
  predicate Enabled(s: State, e: Event) {
    match e
    case Arrive(_, _) => true
    case Send(i) => i < |s.reqs| && s.reqs[i].handler == New
      && |Queue(s, s.reqs[i].interactive)| < Depth(s.cfg, s.reqs[i].interactive)
    case Refuse(i) => i < |s.reqs| && s.reqs[i].handler == New
      && |Queue(s, s.reqs[i].interactive)| >= Depth(s.cfg, s.reqs[i].interactive)
    case HandOff(i) => i < |s.reqs| && s.reqs[i].handler == New
      && Depth(s.cfg, s.reqs[i].interactive) == 0 && s.dispatcher.Blocked?
    case Acquire => s.dispatcher.Idle? && s.sem < s.cfg.maxConcurrency
    case Poll => s.dispatcher.HasSlot?
    case TakePriority => s.dispatcher.Blocked? && s.prio != []
    case TakeNormal => s.dispatcher.Blocked? && s.norm != []
    case Spawn => s.dispatcher.Holding? && s.dispatcher.i < |s.reqs|
    case Do(i, a) => i < |s.reqs| && CanDo(s.reqs[i], a)
  }

  function Put(s: State, i: nat, r: Request): State
    requires i < |s.reqs|
  {
    s.(reqs := s.reqs[i := r])
  }

  function DeliverPriority(s: State): State
    requires s.prio != [] && s.prio[0] < |s.reqs|
  {
    var i := s.prio[0];
    Put(s, i, s.reqs[i].(place := Hand)).(prio := s.prio[1..], tookP := s.tookP + [i], dispatcher := Holding(i))
  }

  function DeliverNormal(s: State): State
    requires s.norm != [] && s.norm[0] < |s.reqs|
  {
    var i := s.norm[0];
    Put(s, i, s.reqs[i].(place := Hand)).(norm := s.norm[1..], tookN := s.tookN + [i], dispatcher := Holding(i))
  }

  function Accepted(s: State, i: nat, place: Place): State
    requires i < |s.reqs|
  {
    var t := Put(s, i, s.reqs[i].(handler := Sent, place := place));
    if s.reqs[i].interactive then t.(sentP := s.sentP + [i]) else t.(sentN := s.sentN + [i])
  }

  /** Shared counters change by the amount each action adds to them. */
  function PendingDelta(a: Act): int {
    match a case Count => 1 case DecrHandler => -1 case DecrForward => -1 case _ => 0
  }

  function GhostDelta(a: Act): int {
    match a case GhostUp => 1 case GhostDown => -1 case _ => 0
  }

  function DoAct(s: State, i: nat, a: Act): State
    requires i < |s.reqs|
  {
    var r := s.reqs[i];
    Put(s, i, After(r, a)).(
      pending := if PendingDelta(a) == 0 then s.pending else s.pending[r.host := Pending(s, r.host) + PendingDelta(a)],
      ghostPriority := s.ghostPriority + (if r.interactive then GhostDelta(a) else 0),
      ghostNormal := s.ghostNormal + (if r.interactive then 0 else GhostDelta(a)),
      outcomes := s.outcomes + (if a.Outcome? then 1 else 0),
      records := s.records + (if a.Record? && !r.wasCancelled then 1 else 0),
      sem := s.sem - (if a.Release? then 1 else 0))
  }

  /** Queue entries and the held index name existing requests. */
  predicate Bounded(s: State) {
    && (forall k :: 0 <= k < |s.prio| ==> s.prio[k] < |s.reqs|)
    && (forall k :: 0 <= k < |s.norm| ==> s.norm[k] < |s.reqs|)
  }

  function Apply(s: State, e: Event): State
    requires Bounded(s) && Enabled(s, e)
  {
    match e
    case Arrive(h, p) =>
      s.(reqs := s.reqs + [Request(h, p, New, Outside, false, false, false, false, false, false)])
    case Send(i) =>
      var t := Accepted(s, i, Queued);
      if s.reqs[i].interactive then t.(prio := s.prio + [i]) else t.(norm := s.norm + [i])
    case Refuse(i) => Put(s, i, s.reqs[i].(handler := Refused))
    case HandOff(i) =>
      var t := Accepted(s, i, Hand).(dispatcher := Holding(i));
      if s.reqs[i].interactive then t.(tookP := s.tookP + [i]) else t.(tookN := s.tookN + [i])
    case Acquire => s.(sem := s.sem + 1, dispatcher := HasSlot)
    case Poll => if s.prio != [] then DeliverPriority(s) else s.(dispatcher := Blocked)
    case TakePriority => DeliverPriority(s)
    case TakeNormal => DeliverNormal(s)
    case Spawn =>
      var i := s.dispatcher.i;
      Put(s, i, s.reqs[i].(place := Started)).(dispatcher := Idle)
    case Do(i, a) => DoAct(s, i, a)
  }
}
