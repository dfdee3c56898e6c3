/**
 * The responsibility scheduler (endpoint-server/loop): when a responsibility fires, how
 * often that can be, and that its runs never overlap.
 */
module Scheduler {

  const MINUTE := 60 * 1_000_000_000 // nanoseconds
  const MINUTES_PER_DAY := 24 * 60

  /** One reading of the clock: the instant and the local calendar date and minute of day. */
  datatype Now = Now(instant: int, date: nat, minute: nat)

  datatype LastRun = Never | On(date: nat)

  datatype Plan =
    | Every(freq: int, nextRun: int)
    | Daily(minute: nat, lastRunDate: LastRun)

  ghost predicate PlanOk(p: Plan) { p.Every? ==> p.freq > 0 }

  datatype Setting = Unset | Invalid | Value(value: int)
  datatype PlanResult = Plan(plan: Plan) | Rejected

  /** Exactly one of a positive frequency and a time of day makes a plan. Frequencies, instants
      and the delay are in nanoseconds, times of day in minutes. */
  function NewPlan(frequency: Setting, timeOfDay: Setting, now: int, delay: nat): (r: PlanResult)
    ensures r.Plan? ==> PlanOk(r.plan)
    ensures r.Plan? <==>
      || (timeOfDay.Unset? && frequency.Value? && frequency.value > 0)
      || (frequency.Unset? && timeOfDay.Value?)
    ensures r.Plan? && r.plan.Daily? ==>
      && timeOfDay.Value? && r.plan.minute < MINUTES_PER_DAY
      && (r.plan.minute - timeOfDay.value - delay / MINUTE) % MINUTES_PER_DAY == 0
    ensures r.Plan? && r.plan.Daily? ==> r.plan.lastRunDate == Never
    ensures r.Plan? && r.plan.Every? ==>
      frequency.Value? && r.plan.freq == frequency.value && r.plan.nextRun - now == delay
  {
    match (frequency, timeOfDay)
    case (Value(d), Unset) => if d > 0 then PlanResult.Plan(Every(d, now + delay)) else Rejected
    case (Unset, Value(t)) => PlanResult.Plan(Daily((t + delay / MINUTE) % MINUTES_PER_DAY, Never))
    case _ => Rejected
  }

  predicate Due(p: Plan, now: Now) {
    match p
    case Every(_, nextRun) => now.instant >= nextRun
    case Daily(minute, last) => now.minute == minute && last != On(now.date)
  }

  function Scheduled(p: Plan, now: Now): Plan {
    match p
    case Every(freq, _) => Every(freq, now.instant + freq)
    case Daily(minute, _) => Daily(minute, On(now.date))
  }

  function Ticked(p: Plan, now: Now): Plan {
    if Due(p, now) then Scheduled(p, now) else p
  }

  /** The plan before tick n. */
  function PlanBefore(p: Plan, ticks: seq<Now>, n: nat): Plan
    requires n <= |ticks|
  {
    if n == 0 then p else Ticked(PlanBefore(p, ticks, n - 1), ticks[n - 1])
  }

  predicate Fires(p: Plan, ticks: seq<Now>, n: nat)
    requires n < |ticks|
  {
    Due(PlanBefore(p, ticks, n), ticks[n])
  }

  // ---------------------------------------------------------------- frequencies

  lemma {:induction false} NextRunAfter(p: Plan, ticks: seq<Now>, i: nat, n: nat)
    requires p.Every? && p.freq > 0 && i < n <= |ticks| && Fires(p, ticks, i)
    ensures PlanBefore(p, ticks, n).Every? && PlanBefore(p, ticks, n).freq == p.freq
    ensures PlanBefore(p, ticks, n).nextRun >= ticks[i].instant + p.freq
  {
    KindKept(p, ticks, n - 1);
    if n > i + 1 { NextRunAfter(p, ticks, i, n - 1); }
  }

  lemma {:induction false} KindKept(p: Plan, ticks: seq<Now>, n: nat)
    requires n <= |ticks|
    ensures p.Every? ==> PlanBefore(p, ticks, n).Every? && PlanBefore(p, ticks, n).freq == p.freq
    ensures p.Daily? ==> PlanBefore(p, ticks, n).Daily? && PlanBefore(p, ticks, n).minute == p.minute
  {
    if n > 0 { KindKept(p, ticks, n - 1); }
  }

  /** Firings are at least the frequency apart, even if the clock jumps. */
  lemma FiringsSpaced(p: Plan, ticks: seq<Now>, i: nat, j: nat)
    requires p.Every? && p.freq > 0 && i < j < |ticks| && Fires(p, ticks, i) && Fires(p, ticks, j)
    ensures ticks[j].instant - ticks[i].instant >= p.freq
  {
    NextRunAfter(p, ticks, i, j);
  }

  predicate Within(now: Now, start: int, length: nat) {
    start <= now.instant <= start + length
  }

  /** Firings among the first n ticks with instants from start to start + length. */
  function FiringsWithin(p: Plan, ticks: seq<Now>, n: nat, start: int, length: nat): nat
    requires n <= |ticks|
  {
    if n == 0 then 0
    else FiringsWithin(p, ticks, n - 1, start, length) +
         if Fires(p, ticks, n - 1) && Within(ticks[n - 1], start, length) then 1 else 0
  }

  /** Tick i fires in the interval, late enough to be the count-th firing there. */
  ghost predicate Crowded(p: Plan, ticks: seq<Now>, i: nat, start: int, length: nat, count: nat)
    requires p.Every? && i < |ticks|
  {
    && Fires(p, ticks, i) && Within(ticks[i], start, length)
    && ticks[i].instant >= start + (count - 1) * p.freq
  }

  lemma {:induction false} LastFiring(p: Plan, ticks: seq<Now>, n: nat, start: int, length: nat, count: nat)
    requires p.Every? && p.freq > 0 && n <= |ticks|
    requires count == FiringsWithin(p, ticks, n, start, length) && count > 0
    ensures exists i: nat :: i < n && Crowded(p, ticks, i, start, length, count)
  {
    var m := n - 1;
    var before := FiringsWithin(p, ticks, m, start, length);
    if before == 0 {
      assert Crowded(p, ticks, m, start, length, 1);
    } else {
      LastFiring(p, ticks, m, start, length, before);
      var i: nat :| i < m && Crowded(p, ticks, i, start, length, before);
      if count > before {
        FiringsSpaced(p, ticks, i, m);
        assert (before - 1) * p.freq + p.freq == before * p.freq;
        assert Crowded(p, ticks, m, start, length, count);
      }
    }
  }

  /** An interval of length T holds at most T/freq + 1 firings. */
  lemma FiringRate(p: Plan, ticks: seq<Now>, start: int, length: nat)
    requires p.Every? && p.freq > 0
    ensures FiringsWithin(p, ticks, |ticks|, start, length) <= length / p.freq + 1
  {
    var count := FiringsWithin(p, ticks, |ticks|, start, length);
    if count > 0 {
      LastFiring(p, ticks, |ticks|, start, length, count);
      assert (count - 1) * p.freq <= length;
      Quotient(count - 1, p.freq, length);
    }
  }

  lemma {:induction false} Quotient(c: nat, f: int, length: nat)
    requires f > 0 && c * f <= length
    ensures c <= length / f
  {
    var q, r := length / f, length % f;
    assert length == q * f + r && r < f;
    FewerMultiples(c, q + 1, f);
  }

  lemma {:induction false} FewerMultiples(a: nat, b: nat, f: int)
    requires f > 0 && a * f < b * f
    ensures a < b
  {
    if a > 0 && b > 0 {
      assert (a - 1) * f == a * f - f && (b - 1) * f == b * f - f;
      FewerMultiples(a - 1, b - 1, f);
    }
  }

  /** Ticks that come at most h after each other. */
  ghost predicate Paced(ticks: seq<Now>, h: int) {
    forall i :: 0 < i < |ticks| ==> ticks[i].instant - ticks[i - 1].instant <= h
  }

  lemma {:induction false} Undisturbed(p: Plan, ticks: seq<Now>, i: nat, n: nat)
    requires i <= n <= |ticks|
    requires forall k: nat :: i <= k < n ==> !Fires(p, ticks, k)
    ensures PlanBefore(p, ticks, n) == PlanBefore(p, ticks, i)
  {
    if i < n {
      Undisturbed(p, ticks, i, n - 1);
      assert !Fires(p, ticks, n - 1);
    }
  }

  /** With ticks at most h apart, the next firing comes less than freq + h after the last. */
  lemma FiringGap(p: Plan, ticks: seq<Now>, h: int, i: nat, n: nat)
    requires p.Every? && p.freq > 0 && i < n < |ticks| && Paced(ticks, h)
    requires Fires(p, ticks, i) && forall k: nat :: i < k < n ==> !Fires(p, ticks, k)
    ensures Fires(p, ticks, n) <==> ticks[n].instant >= ticks[i].instant + p.freq
    ensures ticks[n].instant < ticks[i].instant + p.freq + h
  {
    KindKept(p, ticks, i);
    Undisturbed(p, ticks, i + 1, n);
    if n > i + 1 {
      Undisturbed(p, ticks, i + 1, n - 1);
      assert !Fires(p, ticks, n - 1);
    }
  }

  /** The first firing comes less than h after it is due. */
  lemma FirstFiring(p: Plan, ticks: seq<Now>, h: int, n: nat)
    requires p.Every? && 0 < n < |ticks| && Paced(ticks, h)
    requires forall k: nat :: k < n ==> !Fires(p, ticks, k)
    ensures Fires(p, ticks, n) <==> ticks[n].instant >= p.nextRun
    ensures ticks[n].instant < p.nextRun + h
  {
    Undisturbed(p, ticks, 0, n);
    Undisturbed(p, ticks, 0, n - 1);
    assert !Fires(p, ticks, n - 1);
  }

  // ---------------------------------------------------------------- times of day

  ghost predicate DatesInOrder(ticks: seq<Now>) {
    forall i, j :: 0 <= i < j < |ticks| ==> ticks[i].date <= ticks[j].date
  }

  /** A tick in the right minute of its day. */
  predicate OnTime(p: Plan, now: Now)
    requires p.Daily?
  {
    now.minute == p.minute
  }

  lemma {:induction false} LastRunDate(p: Plan, ticks: seq<Now>, n: nat)
    requires p.Daily? && n <= |ticks| && DatesInOrder(ticks)
    ensures PlanBefore(p, ticks, n).Daily? && PlanBefore(p, ticks, n).minute == p.minute
    ensures PlanBefore(p, ticks, n).lastRunDate == p.lastRunDate ||
      exists k: nat :: k < n && OnTime(p, ticks[k]) && PlanBefore(p, ticks, n).lastRunDate == On(ticks[k].date)
    ensures forall k: nat :: k < n && OnTime(p, ticks[k]) && p.lastRunDate != On(ticks[k].date) ==>
      PlanBefore(p, ticks, n).lastRunDate.On? && PlanBefore(p, ticks, n).lastRunDate.date >= ticks[k].date
  {
    if n > 0 { LastRunDate(p, ticks, n - 1); }
  }

  /** A daily responsibility fires at the first tick in its minute of a date, and only then. */
  lemma DailyFiresExactly(p: Plan, ticks: seq<Now>, n: nat)
    requires p.Daily? && n < |ticks| && DatesInOrder(ticks)
    requires p.lastRunDate.On? ==> p.lastRunDate.date <= ticks[0].date
    ensures Fires(p, ticks, n) <==>
      && OnTime(p, ticks[n]) && p.lastRunDate != On(ticks[n].date)
      && forall k: nat :: k < n && ticks[k].date == ticks[n].date ==> !OnTime(p, ticks[k])
  {
    LastRunDate(p, ticks, n);
  }

  lemma DailyOncePerDate(p: Plan, ticks: seq<Now>, i: nat, j: nat)
    requires p.Daily? && i < j < |ticks| && DatesInOrder(ticks)
    requires p.lastRunDate.On? ==> p.lastRunDate.date <= ticks[0].date
    requires Fires(p, ticks, i) && Fires(p, ticks, j)
    ensures ticks[i].date < ticks[j].date
  {
    DailyFiresExactly(p, ticks, i);
    DailyFiresExactly(p, ticks, j);
  }

  // ---------------------------------------------------------------- overlapping runs

  /** A responsibility with the number of its runs in flight and of those ever started. */
  datatype Duty = Duty(plan: Plan, running: bool, inFlight: nat, started: nat, skipped: nat)

  function TickDuty(d: Duty, now: Now): Duty {
    if !Due(d.plan, now) then d
    else if d.running then d.(plan := Scheduled(d.plan, now), skipped := d.skipped + 1)
    else d.(plan := Scheduled(d.plan, now), running := true, inFlight := d.inFlight + 1, started := d.started + 1)
  }

  datatype Event = Tick(now: Now) | Finish

  /** Finish is the end of a run in flight: its deferred store clears the flag. */
  ghost predicate Enabled(d: Duty, e: Event) { e.Finish? ==> d.inFlight > 0 }

  function Apply(d: Duty, e: Event): Duty
    requires Enabled(d, e)
  {
    match e
    case Tick(now) => TickDuty(d, now)
    case Finish => d.(running := false, inFlight := d.inFlight - 1)
  }

  ghost predicate NoOverlap(d: Duty) { d.inFlight == if d.running then 1 else 0 }

  ghost predicate IsRun(duties: seq<Duty>, events: seq<Event>) {
    && |duties| == |events| + 1 && NoOverlap(duties[0])
    && forall i :: 0 <= i < |events| ==>
         Enabled(duties[i], events[i]) && duties[i + 1] == Apply(duties[i], events[i])
  }

  function TicksOf(events: seq<Event>): seq<Now> {
    if events == [] then []
    else
      var n := |events| - 1;
      TicksOf(events[..n]) + if events[n].Tick? then [events[n].now] else []
  }

  function Firings(p: Plan, ticks: seq<Now>): nat {
    if ticks == [] then 0
    else
      var n := |ticks| - 1;
      Firings(p, ticks[..n]) + if Fires(p, ticks, n) then 1 else 0
  }

  /**
   * In every interleaving of ticks and finishing runs at most one run is in flight, the plan
   * depends on the ticks alone, and every firing starts a run or is skipped for one.
   */
  lemma {:induction false} RunsNeverOverlap(duties: seq<Duty>, events: seq<Event>, n: nat)
    requires IsRun(duties, events) && n <= |events|
    ensures NoOverlap(duties[n])
    ensures var ticks := TicksOf(events[..n]);
      && duties[n].plan == PlanBefore(duties[0].plan, ticks, |ticks|)
      && duties[n].started + duties[n].skipped ==
         duties[0].started + duties[0].skipped + Firings(duties[0].plan, ticks)
  {
    if n > 0 {
      var m := n - 1;
      RunsNeverOverlap(duties, events, m);
      TicksStep(events, m);
      if events[m].Tick? { OneMoreTick(duties[0].plan, TicksOf(events[..m]), events[m].now); }
    }
  }

  function Finishes(events: seq<Event>): nat {
    if events == [] then 0
    else Finishes(events[..|events| - 1]) + if events[|events| - 1].Finish? then 1 else 0
  }

  /** Runs started are those finished and those in flight. */
  lemma {:induction false} RunsConserved(duties: seq<Duty>, events: seq<Event>, n: nat)
    requires IsRun(duties, events) && n <= |events|
    ensures duties[n].started - duties[0].started + duties[0].inFlight == Finishes(events[..n]) + duties[n].inFlight
  {
    if n > 0 {
      RunsConserved(duties, events, n - 1);
      assert events[..n][..n - 1] == events[..n - 1];
    }
  }

  /** A tick that fires starts a run exactly when none is in flight, and is skipped exactly when
      one is; any other tick does neither. */
  lemma FiringStartsExactly(duties: seq<Duty>, events: seq<Event>, n: nat)
    requires IsRun(duties, events) && n < |events| && events[n].Tick?
    ensures var ticks := TicksOf(events[..n + 1]);
      && ticks != []
      && var fires := Fires(duties[0].plan, ticks, |ticks| - 1);
         && duties[n + 1].started - duties[n].started == (if fires && duties[n].inFlight == 0 then 1 else 0)
         && duties[n + 1].skipped - duties[n].skipped == (if fires && duties[n].inFlight > 0 then 1 else 0)
  {
    var before := TicksOf(events[..n]);
    RunsNeverOverlap(duties, events, n);
    TicksStep(events, n);
    var ticks := before + [events[n].now];
    assert ticks[..|before|] == before;
    PlanOfPrefix(duties[0].plan, ticks, |before|);
  }

  lemma TicksStep(events: seq<Event>, m: nat)
    requires m < |events|
    ensures events[m].Tick? ==> TicksOf(events[..m + 1]) == TicksOf(events[..m]) + [events[m].now]
    ensures events[m].Finish? ==> TicksOf(events[..m + 1]) == TicksOf(events[..m])
  {
    assert events[..m + 1][..m] == events[..m];
  }

  lemma OneMoreTick(p: Plan, before: seq<Now>, now: Now)
    ensures var plan, ticks := PlanBefore(p, before, |before|), before + [now];
      && PlanBefore(p, ticks, |ticks|) == Ticked(plan, now)
      && Firings(p, ticks) == Firings(p, before) + if Due(plan, now) then 1 else 0
  {
    var ticks := before + [now];
    assert ticks[..|before|] == before;
    PlanOfPrefix(p, ticks, |before|);
  }

  lemma {:induction false} PlanOfPrefix(p: Plan, ticks: seq<Now>, n: nat)
    requires n <= |ticks|
    ensures PlanBefore(p, ticks[..n], n) == PlanBefore(p, ticks, n)
  {
    PlanSame(p, ticks[..n], ticks, n);
  }

  lemma {:induction false} PlanSame(p: Plan, xs: seq<Now>, ys: seq<Now>, n: nat)
    requires n <= |xs| && n <= |ys| && xs[..n] == ys[..n]
    ensures PlanBefore(p, xs, n) == PlanBefore(p, ys, n)
  {
    if n > 0 {
      assert xs[n - 1] == xs[..n][n - 1] && ys[n - 1] == ys[..n][n - 1];
      assert xs[..n - 1] == xs[..n][..n - 1] && ys[..n - 1] == ys[..n][..n - 1];
      PlanSame(p, xs, ys, n - 1);
    }
  }

  // ---------------------------------------------------------------- the loop's objects

  class Responsibility {
    var freq: int
    var nextRun: int
    var timeOfDay: nat
    var lastRunDate: LastRun
    var running: bool
    ghost var inFlight: nat
    ghost var started: nat
    ghost var skipped: nat

    constructor (plan: Plan)
      requires PlanOk(plan)
      ensures View() == Duty(plan, false, 0, 0, 0)
    {
      freq := if plan.Every? then plan.freq else 0;
      nextRun := if plan.Every? then plan.nextRun else 0;
      timeOfDay := if plan.Daily? then plan.minute else 0;
      lastRunDate := if plan.Daily? then plan.lastRunDate else Never;
      running := false;
      inFlight, started, skipped := 0, 0, 0;
    }

    ghost function View(): Duty
      reads this
    {
      var plan := if freq > 0 then Every(freq, nextRun) else Daily(timeOfDay, lastRunDate);
      Duty(plan, running, inFlight, started, skipped)
    }

    predicate IsDue(now: Now)
      reads this
      ensures IsDue(now) == Due(View().plan, now)
    {
      if freq > 0 then now.instant >= nextRun
      else now.minute == timeOfDay && lastRunDate != On(now.date)
    }

    method Schedule(now: Now)
      modifies this`nextRun, this`lastRunDate
      ensures View() == old(View()).(plan := Scheduled(old(View()).plan, now))
    {
      if freq > 0 {
        nextRun := now.instant + freq;
        return;
      }
      lastRunDate := On(now.date);
    }

    /** The end of a run, whichever way it ends. */
    method Finished()
      requires NoOverlap(View()) && inFlight > 0
      modifies this
      ensures View() == Apply(old(View()), Finish) && NoOverlap(View())
    {
      running := false;
      inFlight := inFlight - 1;
    }
  }

  ghost predicate AllDistinct(rs: seq<Responsibility>) {
    forall i, j :: 0 <= i < j < |rs| ==> rs[i] != rs[j]
  }

  /** One wake-up: every due responsibility is rescheduled, and started unless in flight. */
  method TickAll(rs: seq<Responsibility>, now: Now)
    requires AllDistinct(rs)
    modifies rs
    ensures forall i :: 0 <= i < |rs| ==> rs[i].View() == TickDuty(old(rs[i].View()), now)
    ensures forall i :: 0 <= i < |rs| && old(NoOverlap(rs[i].View())) ==> NoOverlap(rs[i].View())
  {
    for i := 0 to |rs|
      invariant forall k :: 0 <= k < i ==> rs[k].View() == TickDuty(old(rs[k].View()), now)
      invariant forall k :: i <= k < |rs| ==> rs[k].View() == old(rs[k].View())
    {
      var r := rs[i];
      if !r.IsDue(now) { continue; }
      r.Schedule(now);
      if r.running {
        r.skipped := r.skipped + 1;
        continue;
      }
      r.running := true;
      r.inFlight, r.started := r.inFlight + 1, r.started + 1;
    }
  }
}
