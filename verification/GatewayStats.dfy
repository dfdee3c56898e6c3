/** The gateway's statistics (llm-gateway/stats.go): per-host and per-responsibility books
    that keep only 25 hours of events, answer window queries by scanning backwards until the
    first event outside the window, and survive restarts through Save and Load.

    Times and durations are nanoseconds. */
module GatewayStats {
  import opened Collections
  import opened Sums
  import opened Sorting

  const HOUR: int := 3_600_000_000_000
  const RETENTION: int := 25 * HOUR

  /** A log entry: requestEvent, durationEvent, outcomeEvent or a bare error time. */
  datatype Stamped<+T> = Stamped(at: int, what: T)

  // ----- Pruning and window queries over one event slice ------------------------------

  ghost predicate Sorted<T>(events: seq<Stamped<T>>) {
    forall i, j :: 0 <= i < j < |events| ==> events[i].at <= events[j].at
  }

  /** The slice after dropping its leading events before the cutoff. */
  function Pruned<T>(events: seq<Stamped<T>>, cutoff: int): seq<Stamped<T>> {
    if events != [] && events[0].at < cutoff then Pruned(events[1..], cutoff) else events
  }

  method Prune<T>(events: seq<Stamped<T>>, now: int) returns (kept: seq<Stamped<T>>)
    ensures kept == Pruned(events, now - RETENTION)
  {
    var cutoff := now - RETENTION;
    var i := 0;
    while i < |events| && events[i].at < cutoff
      invariant 0 <= i <= |events|
      invariant Pruned(events, cutoff) == Pruned(events[i..], cutoff)
    {
      i := i + 1;
    }
    kept := events[i..];
  }

  predicate InWindow<T>(e: Stamped<T>, now: int, window: int) {
    now - e.at <= window
  }

  /** Start of the longest suffix lying wholly inside the window: where the scan stops. */
  ghost function ScanStart<T>(events: seq<Stamped<T>>, now: int, window: int): (i: nat)
    ensures i <= |events|
    ensures forall k :: i <= k < |events| ==> InWindow(events[k], now, window)
    ensures 0 < i ==> !InWindow(events[i - 1], now, window)
  {
    if events == [] then 0
    else if !InWindow(events[|events| - 1], now, window) then |events|
    else ScanStart(events[..|events| - 1], now, window)
  }

  function Weigh<T>(f: T -> int): Stamped<T> -> int {
    (e: Stamped<T>) => f(e.what)
  }

  function Itself(): int -> int { (x: int) => x }

  function One<T>(): T -> int { (x: T) => 1 }

  /** Reference meaning of a window query: everything inside the window, wherever it is. */
  ghost function WindowOf<T>(now: int, window: int, f: T -> int): Stamped<T> -> int {
    (e: Stamped<T>) => if InWindow(e, now, window) then f(e.what) else 0
  }

  ghost function WindowSum<T>(events: seq<Stamped<T>>, now: int, window: int, f: T -> int): int {
    SumBy(events, WindowOf(now, window, f))
  }

  /** No event inside the window precedes one outside it. */
  ghost predicate Contiguous<T>(events: seq<Stamped<T>>, now: int, window: int) {
    forall k :: 0 <= k < ScanStart(events, now, window) ==> !InWindow(events[k], now, window)
  }

  lemma SortedIsContiguous<T>(events: seq<Stamped<T>>, now: int, window: int)
    requires Sorted(events)
    ensures Contiguous(events, now, window)
  {
    var s := ScanStart(events, now, window);
    forall k | 0 <= k < s ensures !InWindow(events[k], now, window) {
      assert !InWindow(events[s - 1], now, window);
    }
  }

  /** What the early-break scan adds up, against the reference meaning. */
  lemma ScanAgainstWindow<T>(events: seq<Stamped<T>>, now: int, window: int, f: T -> int)
    ensures
      var s := ScanStart(events, now, window);
      WindowSum(events, now, window, f) == SumBy(events[..s], WindowOf(now, window, f)) + SumBy(events[s..], Weigh(f))
  {
    var s := ScanStart(events, now, window);
    var g := WindowOf(now, window, f);
    assert events == events[..s] + events[s..];
    SumConcat(events[..s], events[s..], g);
    SumMono(events[s..], g, Weigh(f));
    SumMono(events[s..], Weigh(f), g);
  }

  lemma ScanIsWindowSum<T>(events: seq<Stamped<T>>, now: int, window: int, f: T -> int)
    requires Contiguous(events, now, window)
    ensures SumBy(events[ScanStart(events, now, window)..], Weigh(f)) == WindowSum(events, now, window, f)
  {
    ScanAgainstWindow(events, now, window, f);
    SumZero(events[..ScanStart(events, now, window)], WindowOf(now, window, f));
  }

  lemma {:induction false} SumOfOnes<T>(events: seq<Stamped<T>>)
    ensures SumBy(events, Weigh(One())) == |events|
  {
    if events != [] { SumOfOnes(events[..|events| - 1]); }
  }

  /** The early break is right exactly when no event inside the window precedes one outside;
      nondecreasing record times guarantee it. */
  lemma ScanCountExact<T>(events: seq<Stamped<T>>, now: int, window: int)
    ensures |events| - ScanStart(events, now, window) == WindowSum(events, now, window, One())
       <==> Contiguous(events, now, window)
  {
    var s := ScanStart(events, now, window);
    var g := WindowOf(now, window, One<T>());
    ScanAgainstWindow(events, now, window, One());
    SumOfOnes(events[s..]);
    if k :| 0 <= k < s && InWindow(events[k], now, window) {
      SumCovers(events[..s], g, k);
    } else {
      SumZero(events[..s], g);
    }
  }

  lemma SumFrom<T>(events: seq<Stamped<T>>, i: nat, f: T -> int)
    requires 0 < i <= |events|
    ensures SumBy(events[i - 1..], Weigh(f)) == f(events[i - 1].what) + SumBy(events[i..], Weigh(f))
  {
    assert events[i - 1..] == [events[i - 1]] + events[i..];
    SumConcat([events[i - 1]], events[i..], Weigh(f));
  }

  /** windowSums of endpointStats and responsibilityStats. */
  method WindowSums(events: seq<Stamped<int>>, now: int, window: int) returns (tokens: int, requests: int)
    ensures requests == |events| - ScanStart(events, now, window)
    ensures tokens == SumBy(events[ScanStart(events, now, window)..], Weigh(Itself()))
    ensures Sorted(events) ==> tokens == WindowSum(events, now, window, Itself())
    ensures Sorted(events) ==> requests == WindowSum(events, now, window, One())
  {
    tokens, requests := 0, 0;
    var i := |events|;
    while i > 0 && InWindow(events[i - 1], now, window)
      invariant 0 <= i <= |events|
      invariant ScanStart(events, now, window) == ScanStart(events[..i], now, window)
      invariant tokens == SumBy(events[i..], Weigh(Itself()))
      invariant requests == |events| - i
    {
      assert events[..i][..i - 1] == events[..i - 1];
      SumFrom(events, i, Itself());
      i := i - 1;
      tokens := tokens + events[i].what;
      requests := requests + 1;
    }
    if Sorted(events) {
      SortedIsContiguous(events, now, window);
      ScanIsWindowSum(events, now, window, Itself());
      ScanCountExact(events, now, window);
    }
  }

  datatype Timing = Timing(wait: int, inference: int)

  function WaitOf(): Timing -> int { (d: Timing) => d.wait }

  function InferenceOf(): Timing -> int { (d: Timing) => d.inference }

  /** Go's integer division, which rounds toward zero. */
  function TruncDiv(a: int, b: int): int
    requires b > 0
  {
    if a >= 0 then a / b else -((-a) / b)
  }

  function Average(sum: int, count: int): int {
    if count > 0 then TruncDiv(sum, count) else 0
  }

  /** The quotient is the one that leaves a remainder smaller than the divisor, with the sign
      of the dividend. */
  lemma TruncDivMeans(a: int, b: int)
    requires b > 0
    ensures var r := a - TruncDiv(a, b) * b; -b < r < b && (a >= 0 ==> r >= 0) && (a <= 0 ==> r <= 0)
  {
    if a < 0 { assert (-((-a) / b)) * b == -(((-a) / b) * b); }
  }

  /** A window includes its edge, and an average is over wait or inference as named. */
  lemma WindowAndTimingMean(e: Stamped<Timing>, now: int, window: int)
    ensures InWindow(e, now, window) <==> e.at >= now - window
    ensures WaitOf()(e.what) == e.what.wait && InferenceOf()(e.what) == e.what.inference
  {}

  /** windowAvg of durationStats. */
  method WindowAvg(events: seq<Stamped<Timing>>, now: int, window: int) returns (avgWait: int, avgInference: int)
    ensures var s := ScanStart(events, now, window);
      && avgWait == Average(SumBy(events[s..], Weigh(WaitOf())), |events| - s)
      && avgInference == Average(SumBy(events[s..], Weigh(InferenceOf())), |events| - s)
    ensures Sorted(events) ==>
      && avgWait == Average(WindowSum(events, now, window, WaitOf()), WindowSum(events, now, window, One()))
      && avgInference == Average(WindowSum(events, now, window, InferenceOf()), WindowSum(events, now, window, One()))
  {
    var wait, inference, count := 0, 0, 0;
    var i := |events|;
    while i > 0 && InWindow(events[i - 1], now, window)
      invariant 0 <= i <= |events|
      invariant ScanStart(events, now, window) == ScanStart(events[..i], now, window)
      invariant wait == SumBy(events[i..], Weigh(WaitOf()))
      invariant inference == SumBy(events[i..], Weigh(InferenceOf()))
      invariant count == |events| - i
    {
      assert events[..i][..i - 1] == events[..i - 1];
      SumFrom(events, i, WaitOf());
      SumFrom(events, i, InferenceOf());
      i := i - 1;
      wait := wait + events[i].what.wait;
      inference := inference + events[i].what.inference;
      count := count + 1;
    }
    assert i == ScanStart(events, now, window);
    avgWait, avgInference := 0, 0;
    if count > 0 {
      avgWait, avgInference := TruncDiv(wait, count), TruncDiv(inference, count);
    }
    assert avgWait == Average(wait, count) && avgInference == Average(inference, count);
    if Sorted(events) {
      ScanIsWindowAverage(events, now, window, WaitOf());
      ScanIsWindowAverage(events, now, window, InferenceOf());
    }
  }

  lemma ScanIsWindowAverage(events: seq<Stamped<Timing>>, now: int, window: int, f: Timing -> int)
    requires Sorted(events)
    ensures var s := ScanStart(events, now, window);
      Average(SumBy(events[s..], Weigh(f)), |events| - s)
      == Average(WindowSum(events, now, window, f), WindowSum(events, now, window, One()))
  {
    SortedIsContiguous(events, now, window);
    ScanIsWindowSum(events, now, window, f);
    ScanCountExact(events, now, window);
  }

  // ----- A pruned slice stands for the whole log ----------------------------------------

  /** stored is full without some leading events, all older than the retention at time t. */
  ghost predicate StandsFor<T>(stored: seq<Stamped<T>>, full: seq<Stamped<T>>, t: int) {
    && |stored| <= |full|
    && stored == full[|full| - |stored|..]
    && (forall j :: 0 <= j < |full| - |stored| ==> full[j].at < t - RETENTION)
  }

  lemma {:induction false} PrunedStandsFor<T>(events: seq<Stamped<T>>, full: seq<Stamped<T>>, t: int, now: int)
    requires StandsFor(events, full, t) && t <= now
    ensures StandsFor(Pruned(events, now - RETENTION), full, now)
    decreases |events|
  {
    if events != [] && events[0].at < now - RETENTION {
      assert full[|full| - |events|] == events[0];
      assert events[1..] == full[|full| - |events| + 1..];
      PrunedStandsFor(events[1..], full, now, now);
    }
  }

  /** Load keeps the events that are not before its cutoff. */
  function Since<T>(events: seq<Stamped<T>>, cutoff: int): seq<Stamped<T>> {
    if events == [] then []
    else (if events[0].at < cutoff then [] else [events[0]]) + Since(events[1..], cutoff)
  }

  lemma {:induction false} SinceKeepsRecent<T>(events: seq<Stamped<T>>, cutoff: int)
    requires forall i :: 0 <= i < |events| ==> cutoff <= events[i].at
    ensures Since(events, cutoff) == events
  {
    if events != [] { SinceKeepsRecent(events[1..], cutoff); }
  }

  /** On a sorted slice, filtering and dropping a prefix are the same thing. */
  lemma {:induction false} SinceIsPruned<T>(events: seq<Stamped<T>>, cutoff: int)
    requires Sorted(events)
    ensures Since(events, cutoff) == Pruned(events, cutoff)
  {
    if events != [] && events[0].at < cutoff {
      SinceIsPruned(events[1..], cutoff);
    } else {
      SinceKeepsRecent(events, cutoff);
    }
  }

  /** Every window of up to 25 hours gives the same answer on the stored slice as on the
      whole log, at every later time. */
  lemma WindowRefinesFullLog<T>(stored: seq<Stamped<T>>, full: seq<Stamped<T>>, t: int, now: int, window: int,
                                f: T -> int)
    requires StandsFor(stored, full, t) && t <= now && window <= RETENTION
    ensures WindowSum(stored, now, window, f) == WindowSum(full, now, window, f)
  {
    var d := |full| - |stored|;
    assert full == full[..d] + stored;
    SumConcat(full[..d], stored, WindowOf(now, window, f));
    SumZero(full[..d], WindowOf(now, window, f));
  }

  // ----- The books: one per host, one per responsibility --------------------------------

  datatype Stats = Stats(
    name: string,
    events: seq<Stamped<int>>,
    tokens: int,
    requests: int,
    lastSeen: Option<int>,
    pending: int)

  type Books = map<string, Stats>

  const FRESH: Stats := Stats("", [], 0, 0, None, 0)

  /** get and getResponsibility: a book is opened with the name its first caller gives. */
  function Book(books: Books, key: string, name: string): Stats {
    if key in books then books[key] else FRESH.(name := name)
  }

  function Recorded(st: Stats, tokens: int, now: int): Stats {
    st.(events := Pruned(st.events + [Stamped(now, tokens)], now - RETENTION),
        tokens := st.tokens + tokens, requests := st.requests + 1, lastSeen := Some(now))
  }

  function Cleared(st: Stats): Stats {
    st.(events := [], tokens := 0, requests := 0, lastSeen := None)
  }

  /** What is left of a book after Save and a Load at the given time. */
  function Reloaded(st: Stats, now: int): Stats {
    st.(events := Since(st.events, now - RETENTION), pending := 0)
  }

  /** One book as Save writes it. */
  datatype Entry = Entry(key: string, name: string, lastSeen: Option<int>, tokens: int, requests: int,
      events: seq<Stamped<int>>)

  function ToEntry(key: string, st: Stats): Entry {
    Entry(key, st.name, st.lastSeen, st.tokens, st.requests, st.events)
  }

  function FromEntry(e: Entry, now: int): Stats {
    Stats(e.name, Since(e.events, now - RETENTION), e.tokens, e.requests, e.lastSeen, 0)
  }

  /** entries lists every book exactly once. */
  ghost predicate Describes(entries: seq<Entry>, books: Books) {
    && (forall i, j :: 0 <= i < j < |entries| ==> entries[i].key != entries[j].key)
    && (forall i :: 0 <= i < |entries| ==>
        entries[i].key in books && entries[i] == ToEntry(entries[i].key, books[entries[i].key]))
    && (forall k :: k in books ==> exists i :: 0 <= i < |entries| && entries[i].key == k)
  }

  /** Load writes the entries one after the other over what is there. */
  function LoadInto(books: Books, entries: seq<Entry>, now: int): Books {
    if entries == [] then books
    else
      var e := entries[|entries| - 1];
      LoadInto(books, entries[..|entries| - 1], now)[e.key := FromEntry(e, now)]
  }

  lemma {:induction false} LoadIntoLookup(books: Books, entries: seq<Entry>, now: int, key: string)
    requires forall i, j :: 0 <= i < j < |entries| ==> entries[i].key != entries[j].key
    ensures (forall i :: 0 <= i < |entries| ==> entries[i].key != key) ==>
      (key in LoadInto(books, entries, now) <==> key in books)
    ensures forall i :: 0 <= i < |entries| && entries[i].key == key ==>
      key in LoadInto(books, entries, now) && LoadInto(books, entries, now)[key] == FromEntry(entries[i], now)
  {
    if entries != [] { LoadIntoLookup(books, entries[..|entries| - 1], now, key); }
  }

  /** Save, then Load into an empty tracker: the same books, each reloaded. */
  lemma SaveLoadRoundTrip(books: Books, entries: seq<Entry>, now: int)
    requires Describes(entries, books)
    ensures LoadInto(map[], entries, now) == Step(books, Restart(now))
  {
    forall k ensures k in LoadInto(map[], entries, now) <==> k in books {
      LoadIntoLookup(map[], entries, now, k);
      if k in books { var i :| 0 <= i < |entries| && entries[i].key == k; }
    }
    forall k | k in books ensures LoadInto(map[], entries, now)[k] == Reloaded(books[k], now) {
      LoadIntoLookup(map[], entries, now, k);
      var i :| 0 <= i < |entries| && entries[i].key == k;
    }
  }

  // ----- The tracker ---------------------------------------------------------------------

  /** What can happen to a set of books. Restart is Save followed by a Load at time now. */
  datatype Op =
    | Rec(key: string, name: string, tokens: int, now: int)
    | Incr(key: string, name: string)
    | Decr(key: string)
    | Reset
    | Restart(now: int)

  ghost function Step(books: Books, op: Op): Books {
    match op
    case Rec(k, name, tokens, now) => books[k := Recorded(Book(books, k, name), tokens, now)]
    case Incr(k, name) => var b := Book(books, k, name); books[k := b.(pending := b.pending + 1)]
    case Decr(k) => var b := Book(books, k, ""); books[k := b.(pending := b.pending - 1)]
    case Reset => map k | k in books :: Cleared(books[k])
    case Restart(now) => map k | k in books :: Reloaded(books[k], now)
  }

  method ClearAll(books: Books) returns (cleared: Books)
    ensures cleared == map k | k in books :: Cleared(books[k])
  {
    cleared := books;
    var todo := books.Keys;
    while todo != {}
      invariant todo <= books.Keys && cleared.Keys == books.Keys
      invariant forall k :: k in books ==> cleared[k] == if k in todo then books[k] else Cleared(books[k])
      decreases |todo|
    {
      var k :| k in todo;
      cleared := cleared[k := Cleared(books[k])];
      todo := todo - {k};
    }
  }

  /** The order of strings by their characters. */
  predicate StringLe(a: string, b: string) {
    a == "" || (b != "" && (a[0] < b[0] || (a[0] == b[0] && StringLe(a[1..], b[1..]))))
  }

  lemma {:induction false} StringLeTotal(a: string, b: string)
    ensures StringLe(a, b) || StringLe(b, a)
  {
    if a != "" && b != "" && a[0] == b[0] { StringLeTotal(a[1..], b[1..]); }
  }

  lemma {:induction false} StringLeTransitive(a: string, b: string, c: string)
    requires StringLe(a, b) && StringLe(b, c)
    ensures StringLe(a, c)
  {
    if a != "" && a[0] == b[0] && b[0] == c[0] { StringLeTransitive(a[1..], b[1..], c[1..]); }
  }

  lemma StringOrder()
    ensures TotalPreorder(StringLe)
  {
    forall a, b ensures StringLe(a, b) || StringLe(b, a) { StringLeTotal(a, b); }
    forall a, b, c | StringLe(a, b) && StringLe(b, c) ensures StringLe(a, c) { StringLeTransitive(a, b, c); }
  }

  method SortedKeys(books: Books) returns (keys: seq<string>)
    ensures Distinct(keys) && Ordered(keys, StringLe)
    ensures forall k :: k in keys <==> k in books
  {
    var listed: seq<string> := [];
    var todo := books.Keys;
    while todo != {}
      invariant todo <= books.Keys && Distinct(listed)
      invariant forall k :: k in listed <==> k in books && k !in todo
      decreases |todo|
    {
      var k :| k in todo;
      listed, todo := listed + [k], todo - {k};
    }
    StringOrder();
    keys := SortSlice(listed, StringLe);
    DistinctPart(keys, listed);
    SameElements(keys, listed);
  }

  ghost predicate InKeyOrder(entries: seq<Entry>) {
    forall i, j :: 0 <= i < j < |entries| ==> StringLe(entries[i].key, entries[j].key)
  }

  method WriteBooks(books: Books) returns (entries: seq<Entry>)
    ensures Describes(entries, books) && InKeyOrder(entries)
  {
    var keys := SortedKeys(books);
    entries := [];
    for i := 0 to |keys|
      invariant |entries| == i
      invariant forall j :: 0 <= j < i ==> keys[j] in books && entries[j] == ToEntry(keys[j], books[keys[j]])
    {
      assert keys[i] in keys;
      entries := entries + [ToEntry(keys[i], books[keys[i]])];
    }
    forall k | k in books ensures exists i :: 0 <= i < |entries| && entries[i].key == k {
      assert k in keys;
      var i :| 0 <= i < |keys| && keys[i] == k;
      assert entries[i].key == k;
    }
  }

  method KeepSince<T>(events: seq<Stamped<T>>, cutoff: int) returns (kept: seq<Stamped<T>>)
    ensures kept == Since(events, cutoff)
  {
    kept := [];
    for i := 0 to |events|
      invariant kept + Since(events[i..], cutoff) == Since(events, cutoff)
    {
      if events[i].at >= cutoff {
        kept := kept + [events[i]];
      }
    }
  }

  method ReadBooks(books: Books, entries: seq<Entry>, now: int) returns (loaded: Books)
    ensures loaded == LoadInto(books, entries, now)
  {
    loaded := books;
    for i := 0 to |entries|
      invariant loaded == LoadInto(books, entries[..i], now)
    {
      var e := entries[i];
      var kept := KeepSince(e.events, now - RETENTION);
      loaded := loaded[e.key := Stats(e.name, kept, e.tokens, e.requests, e.lastSeen, 0)];
      assert entries[..i + 1][..i] == entries[..i];
    }
    assert entries[..|entries|] == entries;
  }

  // ----- The gateway-wide logs --------------------------------------------------------------

  /** What can happen to an event log. Reopen is Save followed by a Load at time now. */
  datatype LogOp<+T> = Add(what: T, now: int) | Wipe | Reopen(now: int)

  ghost function LogStep<T>(events: seq<Stamped<T>>, op: LogOp<T>): seq<Stamped<T>> {
    match op
    case Add(what, now) => Pruned(events + [Stamped(now, what)], now - RETENTION)
    case Wipe => []
    case Reopen(now) => Since(events, now - RETENTION)
  }

  ghost function LogRun<T>(ops: seq<LogOp<T>>): seq<Stamped<T>> {
    if ops == [] then [] else LogStep(LogRun(ops[..|ops| - 1]), ops[|ops| - 1])
  }

  /** Everything added since the last wipe. */
  ghost function Everything<T>(ops: seq<LogOp<T>>): seq<Stamped<T>> {
    if ops == [] then [] else AllAfter(Everything(ops[..|ops| - 1]), ops[|ops| - 1])
  }

  ghost function AllAfter<T>(before: seq<Stamped<T>>, op: LogOp<T>): seq<Stamped<T>> {
    match op
    case Add(what, now) => before + [Stamped(now, what)]
    case Wipe => []
    case Reopen(_) => before
  }

  /** Times never go back, and none is after now. */
  ghost predicate LogOrdered<T>(ops: seq<LogOp<T>>, now: int) {
    ops == [] ||
    match ops[|ops| - 1]
    case Add(_, t) => t <= now && LogOrdered(ops[..|ops| - 1], t)
    case Wipe => LogOrdered(ops[..|ops| - 1], now)
    case Reopen(t) => t <= now && LogOrdered(ops[..|ops| - 1], t)
  }

  ghost predicate LogOk<T>(events: seq<Stamped<T>>, full: seq<Stamped<T>>, now: int) {
    Sorted(full) && (forall i :: 0 <= i < |full| ==> full[i].at <= now) && StandsFor(events, full, now)
  }

  lemma AddKeepsLog<T>(events: seq<Stamped<T>>, full: seq<Stamped<T>>, what: T, now: int)
    requires LogOk(events, full, now)
    ensures LogOk(Pruned(events + [Stamped(now, what)], now - RETENTION), full + [Stamped(now, what)], now)
  {
    var e := Stamped(now, what);
    StandsForOneMore(events, full, e, now);
    PrunedStandsFor(events + [e], full + [e], now, now);
  }

  lemma StandsForOneMore<T>(events: seq<Stamped<T>>, full: seq<Stamped<T>>, e: Stamped<T>, now: int)
    requires StandsFor(events, full, now)
    ensures StandsFor(events + [e], full + [e], now)
  {
    var d := |full| - |events|;
    assert (full + [e])[d..] == full[d..] + [e];
  }

  lemma ReopenKeepsLog<T>(events: seq<Stamped<T>>, full: seq<Stamped<T>>, now: int)
    requires LogOk(events, full, now)
    ensures LogOk(Since(events, now - RETENTION), full, now)
  {
    assert Sorted(events) by {
      var d := |full| - |events|;
      assert forall i :: 0 <= i < |events| ==> events[i] == full[d + i];
    }
    SinceIsPruned(events, now - RETENTION);
    PrunedStandsFor(events, full, now, now);
  }

  /** After any history a log stands for everything added since the last wipe. */
  lemma {:induction false} LogStandsForEverything<T>(ops: seq<LogOp<T>>, now: int)
    requires LogOrdered(ops, now)
    ensures LogOk(LogRun(ops), Everything(ops), now)
  {
    if ops != [] {
      var before, op := ops[..|ops| - 1], ops[|ops| - 1];
      var t := if op.Wipe? then now else op.now;
      LogStandsForEverything(before, t);
      LogStepKeepsLog(LogRun(before), Everything(before), op, t);
      LogLater(LogRun(ops), Everything(ops), t, now);
    }
  }

  lemma LogLater<T>(events: seq<Stamped<T>>, full: seq<Stamped<T>>, t: int, now: int)
    requires LogOk(events, full, t) && t <= now
    ensures LogOk(events, full, now)
  {}

  lemma LogStepKeepsLog<T>(events: seq<Stamped<T>>, full: seq<Stamped<T>>, op: LogOp<T>, now: int)
    requires LogOk(events, full, now) && (!op.Wipe? ==> op.now == now)
    ensures LogOk(LogStep(events, op), AllAfter(full, op), now)
  {
    match op
    case Add(what, t) => AddKeepsLog(events, full, what, t);
    case Wipe =>
    case Reopen(t) => ReopenKeepsLog(events, full, t);
  }

  /** So window queries on it equal those on everything, over every history and later time. */
  lemma LogQueriesRefineHistory<T>(ops: seq<LogOp<T>>, now: int, window: int, f: T -> int)
    requires LogOrdered(ops, now) && window <= RETENTION
    ensures Sorted(LogRun(ops))
    ensures WindowSum(LogRun(ops), now, window, f) == WindowSum(Everything(ops), now, window, f)
  {
    LogStandsForEverything(ops, now);
    var events, full := LogRun(ops), Everything(ops);
    var d := |full| - |events|;
    assert forall i :: 0 <= i < |events| ==> events[i] == full[d + i];
    WindowRefinesFullLog(events, full, now, now, window, f);
  }

  /** windowCount of errorStats. */
  method WindowCount<T>(events: seq<Stamped<T>>, now: int, window: int) returns (count: int)
    ensures count == |events| - ScanStart(events, now, window)
    ensures Sorted(events) ==> count == WindowSum(events, now, window, One())
  {
    count := 0;
    var i := |events|;
    while i > 0 && InWindow(events[i - 1], now, window)
      invariant 0 <= i <= |events| && count == |events| - i
      invariant ScanStart(events, now, window) == ScanStart(events[..i], now, window)
    {
      assert events[..i][..i - 1] == events[..i - 1];
      i, count := i - 1, count + 1;
    }
    if Sorted(events) {
      SortedIsContiguous(events, now, window);
      ScanCountExact(events, now, window);
    }
  }

  /** A counter of all errors with the log of the recent ones. */
  datatype ErrorLog = ErrorLog(total: int, events: seq<Stamped<()>>)

  ghost function ErrorStep(log: ErrorLog, op: LogOp<()>): ErrorLog {
    ErrorLog(match op case Add(_, _) => log.total + 1 case Wipe => 0 case Reopen(_) => log.total,
             LogStep(log.events, op))
  }

  ghost function ErrorRun(ops: seq<LogOp<()>>): ErrorLog {
    if ops == [] then ErrorLog(0, []) else ErrorStep(ErrorRun(ops[..|ops| - 1]), ops[|ops| - 1])
  }

  lemma {:induction false} ErrorTotals(ops: seq<LogOp<()>>)
    ensures ErrorRun(ops) == ErrorLog(|Everything(ops)|, LogRun(ops))
  {
    if ops != [] { ErrorTotals(ops[..|ops| - 1]); }
  }

  datatype Logs = Logs(
    incoming: ErrorLog, outgoing: ErrorLog, durations: seq<Stamped<Timing>>, outcomes: seq<Stamped<bool>>)

  const NO_LOGS: Logs := Logs(ErrorLog(0, []), ErrorLog(0, []), [], [])

  ghost function ReopenedLogs(saved: Logs, now: int): Logs {
    Logs(ErrorStep(saved.incoming, Reopen(now)), ErrorStep(saved.outgoing, Reopen(now)),
         LogStep(saved.durations, Reopen(now)), LogStep(saved.outcomes, Reopen(now)))
  }

  /** A request in the live registry. */
  datatype Detail = Detail(
    host: string, name: string, responsibility: string, prompt: string, submittedAt: int, priority: bool)

  class Tracker {
    var endpoints: Books
    var responsibilities: Books
    var pendingMap: map<string, Detail>
    var logs: Logs

    constructor ()
      ensures endpoints == map[] && responsibilities == map[] && pendingMap == map[] && logs == NO_LOGS
    {
      endpoints, responsibilities, pendingMap, logs := map[], map[], map[], NO_LOGS;
    }

    method IncrPending(id: string, detail: Detail)
      modifies this`endpoints, this`pendingMap
      ensures endpoints == Step(old(endpoints), Incr(detail.host, detail.name))
      ensures pendingMap == old(pendingMap)[id := detail]
    {
      var b := Book(endpoints, detail.host, detail.name);
      endpoints := endpoints[detail.host := b.(pending := b.pending + 1)];
      pendingMap := pendingMap[id := detail];
    }

    method DecrPending(host: string, id: string)
      modifies this`endpoints, this`pendingMap
      ensures endpoints == Step(old(endpoints), Decr(host))
      ensures pendingMap == old(pendingMap) - {id}
    {
      var b := Book(endpoints, host, "");
      endpoints := endpoints[host := b.(pending := b.pending - 1)];
      pendingMap := pendingMap - {id};
    }

    method Record(host: string, name: string, responsibility: string, tokens: int, now: int)
      modifies this`endpoints, this`responsibilities
      ensures endpoints == Step(old(endpoints), Rec(host, name, tokens, now))
      ensures responsibilities == (if responsibility == "" then old(responsibilities)
                                   else Step(old(responsibilities), Rec(responsibility, responsibility, tokens, now)))
    {
      var es := Book(endpoints, host, name);
      var kept := Prune(es.events + [Stamped(now, tokens)], now);
      endpoints := endpoints[host := es.(
        events := kept, tokens := es.tokens + tokens, requests := es.requests + 1, lastSeen := Some(now))];
      if responsibility == "" { return; }
      var rs := Book(responsibilities, responsibility, responsibility);
      kept := Prune(rs.events + [Stamped(now, tokens)], now);
      responsibilities := responsibilities[responsibility := rs.(
        events := kept, tokens := rs.tokens + tokens, requests := rs.requests + 1, lastSeen := Some(now))];
    }

    method RecordIncomingConnError(now: int)
      modifies this`logs
      ensures logs == old(logs).(incoming := ErrorStep(old(logs).incoming, Add((), now)))
    {
      var kept := Prune(logs.incoming.events + [Stamped(now, ())], now);
      logs := logs.(incoming := ErrorLog(logs.incoming.total + 1, kept));
    }

    method RecordOutgoingConnError(now: int)
      modifies this`logs
      ensures logs == old(logs).(outgoing := ErrorStep(old(logs).outgoing, Add((), now)))
    {
      var kept := Prune(logs.outgoing.events + [Stamped(now, ())], now);
      logs := logs.(outgoing := ErrorLog(logs.outgoing.total + 1, kept));
    }

    method RecordDuration(submittedAt: int, inferenceStart: int, completedAt: int)
      modifies this`logs
      ensures logs == old(logs).(durations := LogStep(old(logs).durations,
        Add(Timing(inferenceStart - submittedAt, completedAt - inferenceStart), completedAt)))
    {
      var wait, inference := inferenceStart - submittedAt, completedAt - inferenceStart;
      var kept := Prune(logs.durations + [Stamped(completedAt, Timing(wait, inference))], completedAt);
      logs := logs.(durations := kept);
    }

    method RecordOutcome(success: bool, now: int)
      modifies this`logs
      ensures logs == old(logs).(outcomes := LogStep(old(logs).outcomes, Add(success, now)))
    {
      var kept := Prune(logs.outcomes + [Stamped(now, success)], now);
      logs := logs.(outcomes := kept);
    }

    /** Entries, their pending counts and the live registry stay; all else goes back to zero. */
    method ResetStats()
      modifies this`endpoints, this`responsibilities, this`logs
      ensures endpoints == Step(old(endpoints), Reset)
      ensures responsibilities == Step(old(responsibilities), Reset)
      ensures logs == NO_LOGS
    {
      endpoints := ClearAll(endpoints);
      responsibilities := ClearAll(responsibilities);
      logs := NO_LOGS;
    }

    method Save() returns (hosts: seq<Entry>, duties: seq<Entry>, saved: Logs)
      ensures Describes(hosts, endpoints) && InKeyOrder(hosts)
      ensures Describes(duties, responsibilities) && InKeyOrder(duties)
      ensures saved == logs
    {
      hosts := WriteBooks(endpoints);
      duties := WriteBooks(responsibilities);
      saved := logs;
    }

    method Load(hosts: seq<Entry>, duties: seq<Entry>, saved: Logs, now: int)
      modifies this`endpoints, this`responsibilities, this`logs
      ensures endpoints == LoadInto(old(endpoints), hosts, now)
      ensures responsibilities == LoadInto(old(responsibilities), duties, now)
      ensures logs == ReopenedLogs(saved, now)
    {
      endpoints := ReadBooks(endpoints, hosts, now);
      responsibilities := ReadBooks(responsibilities, duties, now);
      var cutoff := now - RETENTION;
      var incoming := KeepSince(saved.incoming.events, cutoff);
      var outgoing := KeepSince(saved.outgoing.events, cutoff);
      var durations := KeepSince(saved.durations, cutoff);
      var outcomes := KeepSince(saved.outcomes, cutoff);
      logs := Logs(ErrorLog(saved.incoming.total, incoming), ErrorLog(saved.outgoing.total, outgoing), durations,
          outcomes);
    }
  }

  // ----- Whole runs -------------------------------------------------------------------------

  ghost function Run(ops: seq<Op>): Books {
    if ops == [] then map[] else Step(Run(ops[..|ops| - 1]), ops[|ops| - 1])
  }

  /** The complete log of a key since the last reset: nothing is ever pruned from it. */
  ghost function FullLog(ops: seq<Op>, key: string): seq<Stamped<int>> {
    if ops == [] then [] else LogAfter(FullLog(ops[..|ops| - 1], key), ops[|ops| - 1], key)
  }

  ghost function LogAfter(log: seq<Stamped<int>>, op: Op, key: string): seq<Stamped<int>> {
    match op
    case Rec(k, _, tokens, now) => if k == key then log + [Stamped(now, tokens)] else log
    case Reset => []
    case _ => log
  }

  ghost function PendingBalance(ops: seq<Op>, key: string): int {
    if ops == [] then 0 else BalanceAfter(PendingBalance(ops[..|ops| - 1], key), ops[|ops| - 1], key)
  }

  ghost function BalanceAfter(balance: int, op: Op, key: string): int {
    match op
    case Incr(k, _) => if k == key then balance + 1 else balance
    case Decr(k) => if k == key then balance - 1 else balance
    case Restart(_) => 0
    case _ => balance
  }

  /** The latest time at which key was recorded or the tracker restarted. */
  ghost function Clock(ops: seq<Op>, key: string): Option<int> {
    if ops == [] then None
    else if Timed(ops[|ops| - 1], key) then Some(ops[|ops| - 1].now)
    else Clock(ops[..|ops| - 1], key)
  }

  predicate Timed(op: Op, key: string) { (op.Rec? && op.key == key) || op.Restart? }

  /** Times of this key's records and of restarts never go back. Each book has its own lock, so
      times of different keys may come in any order. */
  ghost predicate Monotone(ops: seq<Op>, key: string) {
    ops != [] ==>
      var before, op := ops[..|ops| - 1], ops[|ops| - 1];
      Monotone(before, key) && (Timed(op, key) ==> AtOrBefore(Clock(before, key), op.now))
  }

  ghost predicate AtOrBefore(t: Option<int>, now: int) {
    t.Some? ==> t.value <= now
  }

  /** A book says about its full log all that the tracker ever reports. */
  ghost predicate BookOk(st: Stats, full: seq<Stamped<int>>, pending: int, now: int) {
    && LogOk(st.events, full, now)
    && st.tokens == SumBy(full, Weigh(Itself()))
    && st.requests == |full|
    && st.lastSeen == (if full == [] then None else Some(full[|full| - 1].at))
    && st.pending == pending
  }

  lemma RecordKeepsBook(st: Stats, full: seq<Stamped<int>>, pending: int, tokens: int, now: int)
    requires BookOk(st, full, pending, now)
    ensures BookOk(Recorded(st, tokens, now), full + [Stamped(now, tokens)], pending, now)
  {
    AddKeepsLog(st.events, full, tokens, now);
    SumAppend(full, Stamped(now, tokens), Weigh(Itself()));
  }

  lemma ReloadKeepsBook(st: Stats, full: seq<Stamped<int>>, pending: int, now: int)
    requires BookOk(st, full, pending, now)
    ensures BookOk(Reloaded(st, now), full, 0, now)
  {
    ReopenKeepsLog(st.events, full, now);
  }

  ghost predicate Agrees(books: Books, key: string, full: seq<Stamped<int>>, pending: int, now: int) {
    if key in books then BookOk(books[key], full, pending, now) else full == [] && pending == 0
  }

  lemma StepKeepsAgreement(books: Books, op: Op, key: string, full: seq<Stamped<int>>, pending: int, now: int)
    requires Agrees(books, key, full, pending, now)
    requires Timed(op, key) ==> op.now == now
    ensures Agrees(Step(books, op), key, LogAfter(full, op, key), BalanceAfter(pending, op, key), now)
  {
    match op
    case Reset => ResetKeepsAgreement(books, key, full, pending, now);
    case Restart(_) => RestartKeepsAgreement(books, key, full, pending, now);
    case Rec(k, name, tokens, _) =>
      if k == key {
        RecordKeepsAgreement(books, key, name, full, pending, tokens, now);
      } else {
        OthersStay(books, op, key);
      }
    case Incr(k, _) =>
      if k == key { PendingKeepsAgreement(books, op, key, full, pending, now); } else { OthersStay(books, op, key); }
    case Decr(k) =>
      if k == key { PendingKeepsAgreement(books, op, key, full, pending, now); } else { OthersStay(books, op, key); }
  }

  lemma OthersStay(books: Books, op: Op, key: string)
    requires (op.Rec? || op.Incr? || op.Decr?) && op.key != key
    ensures key in Step(books, op) <==> key in books
    ensures key in books ==> Step(books, op)[key] == books[key]
  {}

  lemma PendingKeepsAgreement(books: Books, op: Op, key: string, full: seq<Stamped<int>>, pending: int, now: int)
    requires Agrees(books, key, full, pending, now) && (op.Incr? || op.Decr?) && op.key == key
    ensures Agrees(Step(books, op), key, full, BalanceAfter(pending, op, key), now)
  {
    FreshBook(if op.Incr? then op.name else "", now);
  }

  lemma ResetKeepsAgreement(books: Books, key: string, full: seq<Stamped<int>>, pending: int, now: int)
    requires Agrees(books, key, full, pending, now)
    ensures Agrees(Step(books, Reset), key, [], pending, now)
  {
    if key in books { assert Step(books, Reset)[key] == Cleared(books[key]); }
  }

  lemma RestartKeepsAgreement(books: Books, key: string, full: seq<Stamped<int>>, pending: int, now: int)
    requires Agrees(books, key, full, pending, now)
    ensures Agrees(Step(books, Restart(now)), key, full, 0, now)
  {
    if key in books {
      assert Step(books, Restart(now))[key] == Reloaded(books[key], now);
      ReloadKeepsBook(books[key], full, pending, now);
    }
  }

  lemma RecordKeepsAgreement(books: Books, key: string, name: string, full: seq<Stamped<int>>, pending: int,
                             tokens: int, now: int)
    requires Agrees(books, key, full, pending, now)
    ensures Agrees(Step(books, Rec(key, name, tokens, now)), key, full + [Stamped(now, tokens)], pending, now)
  {
    if key !in books { FreshBook(name, now); }
    RecordKeepsBook(Book(books, key, name), full, pending, tokens, now);
  }

  lemma FreshBook(name: string, now: int)
    ensures BookOk(FRESH.(name := name), [], 0, now)
  {}

  lemma AgreesLater(books: Books, key: string, full: seq<Stamped<int>>, pending: int, t: int, now: int)
    requires Agrees(books, key, full, pending, t) && t <= now
    ensures Agrees(books, key, full, pending, now)
  {}

  /** After any history of records, pending changes, resets and restarts, each book agrees
      with its complete log and its pending count with the increments and decrements since
      the last restart. */
  lemma {:induction false} BooksMatchFullLog(ops: seq<Op>, key: string, now: int)
    requires Monotone(ops, key) && AtOrBefore(Clock(ops, key), now)
    ensures Agrees(Run(ops), key, FullLog(ops, key), PendingBalance(ops, key), now)
  {
    if ops != [] {
      var before, op := ops[..|ops| - 1], ops[|ops| - 1];
      var t := if Timed(op, key) then op.now else now;
      BooksMatchFullLog(before, key, t);
      StepKeepsAgreement(Run(before), op, key, FullLog(before, key), PendingBalance(before, key), t);
      AgreesLater(Step(Run(before), op), key, FullLog(ops, key), PendingBalance(ops, key), t, now);
    }
  }

  /** Window queries refine the complete log, over every history and every later time. */
  lemma WindowQueriesRefineHistory(ops: seq<Op>, key: string, now: int, window: int)
    requires Monotone(ops, key) && AtOrBefore(Clock(ops, key), now) && window <= RETENTION && key in Run(ops)
    ensures
      var st := Run(ops)[key];
      && Sorted(st.events)
      && WindowSum(st.events, now, window, Itself()) == WindowSum(FullLog(ops, key), now, window, Itself())
      && WindowSum(st.events, now, window, One()) == WindowSum(FullLog(ops, key), now, window, One())
      && st.requests == |FullLog(ops, key)|
      && st.tokens == SumBy(FullLog(ops, key), Weigh(Itself()))
      && st.pending == PendingBalance(ops, key)
  {
    BooksMatchFullLog(ops, key, now);
    var st, full := Run(ops)[key], FullLog(ops, key);
    WindowRefinesFullLog(st.events, full, now, now, window, Itself());
    WindowRefinesFullLog(st.events, full, now, now, window, One());
  }

  // ----- Names --------------------------------------------------------------------------------

  /** The name given by the operation that opened the book of a key. */
  ghost function FirstName(ops: seq<Op>, key: string): Option<string> {
    if ops == [] then None
    else
      var before, op := FirstName(ops[..|ops| - 1], key), ops[|ops| - 1];
      if before.Some? then before
      else match op
        case Rec(k, name, _, _) => if k == key then Some(name) else None
        case Incr(k, name) => if k == key then Some(name) else None
        case Decr(k) => if k == key then Some("") else None
        case _ => None
  }

  /** A book is there exactly if some operation opened it, and keeps the name it got then
      through records, pending changes, resets and restarts. */
  lemma {:induction false} BooksKeepTheirNames(ops: seq<Op>, key: string)
    ensures key in Run(ops) <==> FirstName(ops, key).Some?
    ensures key in Run(ops) ==> Run(ops)[key].name == FirstName(ops, key).value
  {
    if ops != [] {
      var before := ops[..|ops| - 1];
      BooksKeepTheirNames(before, key);
      StepKeepsName(Run(before), ops[|ops| - 1], key);
    }
  }

  lemma StepKeepsName(books: Books, op: Op, key: string)
    ensures key in books ==> key in Step(books, op) && Step(books, op)[key].name == books[key].name
    ensures key !in books ==>
      (key in Step(books, op) <==> (op.Rec? || op.Incr? || op.Decr?) && op.key == key)
    ensures key !in books && key in Step(books, op) ==>
      Step(books, op)[key].name == if op.Decr? then "" else op.name
  {
    match op
    case Rec(_, _, _, _) =>
    case Incr(_, _) =>
    case Decr(_) =>
    case Reset =>
    case Restart(_) =>
  }

  // ----- A restart, field by field ----------------------------------------------------------------

  /** What a restart at now keeps of a log: all but a front of events over 25 hours old. */
  ghost predicate LogSurvives<T>(events: seq<Stamped<T>>, loaded: seq<Stamped<T>>, now: int) {
    Sorted(events) ==> StandsFor(loaded, events, now)
  }

  /** What it keeps of a book: everything it reports, with no request pending. */
  ghost predicate BookSurvives(st: Stats, loaded: Stats, now: int) {
    && loaded.name == st.name && loaded.tokens == st.tokens && loaded.requests == st.requests
    && loaded.lastSeen == st.lastSeen && loaded.pending == 0
    && LogSurvives(st.events, loaded.events, now)
  }

  ghost predicate BooksSurvive(books: Books, loaded: Books, now: int) {
    && loaded.Keys == books.Keys
    && forall key :: key in books && key in loaded ==> BookSurvives(books[key], loaded[key], now)
  }

  ghost predicate LogsSurvive(logs: Logs, loaded: Logs, now: int) {
    && loaded.incoming.total == logs.incoming.total
    && LogSurvives(logs.incoming.events, loaded.incoming.events, now)
    && loaded.outgoing.total == logs.outgoing.total
    && LogSurvives(logs.outgoing.events, loaded.outgoing.events, now)
    && LogSurvives(logs.durations, loaded.durations, now)
    && LogSurvives(logs.outcomes, loaded.outcomes, now)
  }

  /** A surviving log answers every later window query of up to 25 hours as before. */
  lemma SurvivorAnswersAlike<T>(events: seq<Stamped<T>>, loaded: seq<Stamped<T>>, now: int, later: int, window: int,
                                f: T -> int)
    requires Sorted(events) && LogSurvives(events, loaded, now) && now <= later && window <= 25 * HOUR
    ensures WindowSum(loaded, later, window, f) == WindowSum(events, later, window, f)
  {
    WindowRefinesFullLog(loaded, events, now, later, window, f);
  }

  lemma SinceSurvives<T>(events: seq<Stamped<T>>, now: int)
    ensures LogSurvives(events, Since(events, now - RETENTION), now)
  {
    if Sorted(events) {
      SinceIsPruned(events, now - RETENTION);
      PrunedStandsFor(events, events, now, now);
    }
  }

  lemma LoadedSurvive(books: Books, entries: seq<Entry>, now: int)
    requires Describes(entries, books)
    ensures BooksSurvive(books, LoadInto(map[], entries, now), now)
  {
    SaveLoadRoundTrip(books, entries, now);
    forall key | key in books ensures BookSurvives(books[key], LoadInto(map[], entries, now)[key], now) {
      SinceSurvives(books[key].events, now);
    }
  }

  lemma ReopenedSurvive(logs: Logs, now: int)
    ensures LogsSurvive(logs, ReopenedLogs(logs, now), now)
  {
    SinceSurvives(logs.incoming.events, now);
    SinceSurvives(logs.outgoing.events, now);
    SinceSurvives(logs.durations, now);
    SinceSurvives(logs.outcomes, now);
  }

  /** Save, and Load into a new tracker at time now. */
  method SaveThenLoad(before: Tracker, now: int) returns (after: Tracker)
    ensures fresh(after) && after.pendingMap == map[]
    ensures BooksSurvive(before.endpoints, after.endpoints, now)
    ensures BooksSurvive(before.responsibilities, after.responsibilities, now)
    ensures LogsSurvive(before.logs, after.logs, now)
  {
    var hosts, duties, saved := before.Save();
    after := new Tracker();
    after.Load(hosts, duties, saved, now);
    LoadedSurvive(before.endpoints, hosts, now);
    LoadedSurvive(before.responsibilities, duties, now);
    ReopenedSurvive(before.logs, now);
  }
}
