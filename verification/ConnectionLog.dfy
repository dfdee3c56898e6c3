/** The connection monitor (endpoint-server/connmonitor/connmonitor.go): snapshots are
    diffed into open and close events, the event history is capped, and the set of live
    connections is recovered by replaying the history. */
module ConnectionLog {
  import opened Collections
  import opened Sorting

  const DEFAULT_LIMIT: nat := 2000
  const EPHEMERAL_PORT_FLOOR: int := 32768

  datatype Kind = Existing | Open | Close

  datatype Direction = Inbound | Outbound | Unknown

  datatype Conn = Conn(
    proto: string, localAddr: string, localPort: int, remoteAddr: string, remotePort: int,
    state: string, pid: string, process: string)

  datatype ConnEvent = ConnEvent(kind: Kind, direction: Direction, conn: Conn, at: int, unusual: bool, reason: string)

  /** What identifies a connection across polls. The code uses its text (see KeyText). */
  datatype Key = Key(proto: string, localAddr: string, localPort: int, remoteAddr: string, remotePort: int)

  // ----- Identity of a connection -----------------------------------------------------------

  function Digits(n: nat): string {
    if n < 10 then [['0', '1', '2', '3', '4', '5', '6', '7', '8', '9'][n]]
    else Digits(n / 10) + Digits(n % 10)
  }

  function Decimal(n: int): string {
    if n < 0 then "-" + Digits(-n) else Digits(n)
  }

  function KeyOf(c: Conn): Key {
    Key(c.proto, c.localAddr, c.localPort, c.remoteAddr, c.remotePort)
  }

  /** The same connection: protocol, addresses and ports agree. */
  predicate SameEndpoints(c: Conn, d: Conn) {
    && c.proto == d.proto && c.localAddr == d.localAddr && c.localPort == d.localPort
    && c.remoteAddr == d.remoteAddr && c.remotePort == d.remotePort
  }

  lemma KeyIsEndpoints(c: Conn, d: Conn)
    ensures KeyOf(c) == KeyOf(d) <==> SameEndpoints(c, d)
  {}

  function KeyText(k: Key): string {
    k.proto + "|" + (k.localAddr + ":" + Decimal(k.localPort)) + "|" + (k.remoteAddr + ":" + Decimal(k.remotePort))
  }

  function DirectionOf(c: Conn): Direction {
    if c.localPort <= 0 then Unknown
    else if c.localPort >= EPHEMERAL_PORT_FLOOR then Outbound
    else Inbound
  }

  function NewEvent(c: Conn, kind: Kind, at: int): ConnEvent {
    ConnEvent(kind, DirectionOf(c), c, at, false, "")
  }

  /** An event carries its connection, kind and time, is not flagged, and takes ports from 32768
      on for outbound, other positive ones for inbound. */
  lemma NewEventMeans(c: Conn, kind: Kind, at: int)
    ensures var ev := NewEvent(c, kind, at);
      && ev.conn == c && ev.kind == kind && ev.at == at && !ev.unusual && ev.reason == ""
      && (ev.direction == Outbound <==> c.localPort >= 32768)
      && (ev.direction == Inbound <==> 0 < c.localPort < 32768)
      && (ev.direction == Unknown <==> c.localPort <= 0)
  {}

  function EventKey(ev: ConnEvent): Key {
    KeyOf(ev.conn)
  }

  predicate Opens(ev: ConnEvent) {
    !ev.kind.Close?
  }

  lemma {:induction false} DigitsAreDigits(n: nat)
    ensures |Digits(n)| >= 1 && forall c :: c in Digits(n) ==> '0' <= c <= '9'
  {
    if n >= 10 { DigitsAreDigits(n / 10); DigitsAreDigits(n % 10); }
  }

  lemma {:induction false} DigitsInjective(m: nat, n: nat)
    requires Digits(m) == Digits(n)
    ensures m == n
  {
    DigitsLength(m);
    DigitsLength(n);
    if m >= 10 {
      LastDigit(m);
      LastDigit(n);
      DigitsInjective(m / 10, n / 10);
      OneDigit(m % 10, n % 10);
    }
  }

  lemma DigitsLength(n: nat)
    ensures |Digits(n)| == 1 <==> n < 10
  {
    if n >= 10 { DigitsAreDigits(n / 10); DigitsAreDigits(n % 10); }
  }

  lemma LastDigit(n: nat)
    requires n >= 10
    ensures |Digits(n)| >= 1 && Digits(n)[..|Digits(n)| - 1] == Digits(n / 10)
    ensures [Digits(n)[|Digits(n)| - 1]] == Digits(n % 10)
  {}

  lemma OneDigit(m: nat, n: nat)
    requires m < 10 && n < 10 && Digits(m) == Digits(n)
    ensures m == n
  {
    assert Digits(m)[0] == Digits(n)[0];
  }

  lemma DecimalSign(n: int)
    ensures |Decimal(n)| >= 1 && (Decimal(n)[0] == '-' <==> n < 0)
  {
    if n >= 0 {
      DigitsAreDigits(n);
      assert Digits(n)[0] in Digits(n);
    }
  }

  lemma DecimalInjective(m: int, n: int)
    requires Decimal(m) == Decimal(n)
    ensures m == n
  {
    DecimalSign(m);
    DecimalSign(n);
    MagnitudeDigits(m);
    MagnitudeDigits(n);
    DigitsInjective(if m < 0 then -m else m, if n < 0 then -n else n);
  }

  lemma MagnitudeDigits(n: int)
    ensures n < 0 ==> |Decimal(n)| >= 1 && Digits(-n) == Decimal(n)[1..]
    ensures n >= 0 ==> Digits(n) == Decimal(n)
  {}

  /** A separator that does not occur before it splits a string in one way only. */
  lemma SplitFirst(a: string, b: string, c: string, d: string, sep: char)
    requires a + [sep] + b == c + [sep] + d && sep !in a && sep !in c
    ensures a == c && b == d
  {
    var s := a + [sep] + b;
    assert s[|a|] == sep && s[|c|] == sep;
    assert forall i :: 0 <= i < |a| ==> s[i] == a[i];
    assert forall i :: 0 <= i < |c| ==> s[i] == c[i];
    assert |a| == |c|;
    assert a == s[..|a|] && b == s[|a| + 1..] && d == s[|c| + 1..];
  }

  /** Likewise for one that does not occur after it. */
  lemma SplitLast(a: string, b: string, c: string, d: string, sep: char)
    requires a + [sep] + b == c + [sep] + d && sep !in b && sep !in d
    ensures a == c && b == d
  {
    var s := a + [sep] + b;
    assert s[|a|] == sep && s[|c|] == sep;
    assert forall i :: |a| < i < |s| ==> s[i] == b[i - |a| - 1];
    assert forall i :: |c| < i < |s| ==> s[i] == d[i - |c| - 1];
    assert |a| == |c|;
    assert a == s[..|a|] && b == s[|a| + 1..] && d == s[|c| + 1..];
  }

  predicate Plain(k: Key) {
    '|' !in k.proto && '|' !in k.localAddr
  }

  /** Comparing the texts tells connections apart by protocol, addresses and ports, IPv6 colons
      notwithstanding, unless a protocol or local address holds the separator. */
  lemma KeyTextIsIdentity(c: Conn, d: Conn)
    requires '|' !in c.proto && '|' !in c.localAddr && '|' !in d.proto && '|' !in d.localAddr
    ensures KeyText(KeyOf(c)) == KeyText(KeyOf(d)) <==> SameEndpoints(c, d)
  {
    KeyTextIsKey(KeyOf(c), KeyOf(d));
    KeyIsEndpoints(c, d);
  }

  lemma KeyTextIsKey(c: Key, d: Key)
    requires Plain(c) && Plain(d)
    ensures KeyText(c) == KeyText(d) <==> c == d
  {
    if KeyText(c) == KeyText(d) {
      var cl, dl := c.localAddr + ":" + Decimal(c.localPort), d.localAddr + ":" + Decimal(d.localPort);
      var cr, dr := c.remoteAddr + ":" + Decimal(c.remotePort), d.remoteAddr + ":" + Decimal(d.remotePort);
      forall n ensures '|' !in Decimal(n) && ':' !in Decimal(n) { DecimalIsPlain(n); }
      assert KeyText(c) == c.proto + ['|'] + (cl + ['|'] + cr);
      assert KeyText(d) == d.proto + ['|'] + (dl + ['|'] + dr);
      SplitFirst(c.proto, cl + ['|'] + cr, d.proto, dl + ['|'] + dr, '|');
      SplitFirst(cl, cr, dl, dr, '|');
      SplitLast(c.localAddr, Decimal(c.localPort), d.localAddr, Decimal(d.localPort), ':');
      SplitLast(c.remoteAddr, Decimal(c.remotePort), d.remoteAddr, Decimal(d.remotePort), ':');
      DecimalInjective(c.localPort, d.localPort);
      DecimalInjective(c.remotePort, d.remotePort);
    }
  }

  /** With the separator inside a field, different connections can share a text. */
  lemma KeyTextCanCollide(local: string, remote: string, p: int, q: int)
    ensures var c, d := Key("tcp", "x|" + local, p, remote, q), Key("tcp|x", local, p, remote, q);
      KeyText(c) == KeyText(d) && c != d
  {
    assert "tcp" + "|" + (("x|" + local) + ":" + Decimal(p)) == "tcp|x" + "|" + (local + ":" + Decimal(p));
  }

  lemma DecimalIsPlain(n: int)
    ensures '|' !in Decimal(n) && ':' !in Decimal(n)
  {
    DigitsAreDigits(if n < 0 then -n else n);
  }

  // ----- Replaying a history -----------------------------------------------------------------

  /** Reference meaning: the keys whose last event opened them. */
  ghost function ActiveKeys(history: seq<ConnEvent>): set<Key> {
    if history == [] then {} else After(ActiveKeys(history[..|history| - 1]), history[|history| - 1])
  }

  ghost function After(active: set<Key>, ev: ConnEvent): set<Key> {
    if Opens(ev) then active + {EventKey(ev)} else active - {EventKey(ev)}
  }

  datatype Seen = Seen(event: ConnEvent, closed: bool)

  /** The two variables of the replay. */
  datatype Board = Board(seen: map<Key, Seen>, order: seq<Key>)

  function Boarded(b: Board, ev: ConnEvent): Board {
    var k := EventKey(ev);
    if Opens(ev) then Board(b.seen[k := Seen(ev, false)], if k in b.seen then b.order else b.order + [k])
    else if k in b.seen then b.(seen := b.seen[k := b.seen[k].(closed := true)])
    else b
  }

  function BoardOf(history: seq<ConnEvent>): Board {
    if history == [] then Board(map[], [])
    else Boarded(BoardOf(history[..|history| - 1]), history[|history| - 1])
  }

  ghost predicate Listing(b: Board) {
    (forall k :: k in b.order <==> k in b.seen) && Distinct(b.order)
  }

  ghost predicate Shows(b: Board, active: set<Key>) {
    forall k :: k in active <==> k in b.seen && !b.seen[k].closed
  }

  ghost predicate Origins(b: Board, history: seq<ConnEvent>) {
    forall k :: k in b.seen ==>
      EventKey(b.seen[k].event) == k && Opens(b.seen[k].event) && b.seen[k].event in history
  }

  ghost predicate Replayed(history: seq<ConnEvent>, b: Board) {
    Listing(b) && Shows(b, ActiveKeys(history)) && Origins(b, history)
  }

  lemma ListingStep(b: Board, ev: ConnEvent)
    requires Listing(b)
    ensures Listing(Boarded(b, ev))
  {}

  lemma ShowsStep(b: Board, active: set<Key>, ev: ConnEvent)
    requires Shows(b, active)
    ensures Shows(Boarded(b, ev), After(active, ev))
  {}

  lemma OriginsStep(b: Board, history: seq<ConnEvent>, ev: ConnEvent)
    requires Origins(b, history)
    ensures Origins(Boarded(b, ev), history + [ev])
  {}

  lemma ReplayStep(history: seq<ConnEvent>, b: Board, ev: ConnEvent)
    requires Replayed(history, b)
    ensures Replayed(history + [ev], Boarded(b, ev))
  {
    assert ActiveKeys(history + [ev]) == After(ActiveKeys(history), ev) by {
      assert (history + [ev])[..|history|] == history;
    }
    ListingStep(b, ev);
    ShowsStep(b, ActiveKeys(history), ev);
    OriginsStep(b, history, ev);
  }

  lemma {:induction false} BoardReplays(history: seq<ConnEvent>)
    ensures Replayed(history, BoardOf(history))
  {
    if history != [] {
      var n := |history| - 1;
      BoardReplays(history[..n]);
      ReplayStep(history[..n], BoardOf(history[..n]), history[n]);
      assert history == history[..n] + [history[n]];
    }
  }

  /** Event i is the last one to open k. */
  ghost predicate LatestOpening(history: seq<ConnEvent>, i: nat, k: Key) {
    && i < |history| && Opens(history[i]) && EventKey(history[i]) == k
    && forall j :: i < j < |history| && EventKey(history[j]) == k ==> !Opens(history[j])
  }

  ghost predicate NeverOpened(history: seq<ConnEvent>, k: Key) {
    forall j :: 0 <= j < |history| && EventKey(history[j]) == k ==> !Opens(history[j])
  }

  /** The replay remembers exactly the keys ever opened, each with its latest opening event. */
  ghost predicate IsLatest(history: seq<ConnEvent>, k: Key, ev: ConnEvent) {
    exists i: nat :: LatestOpening(history, i, k) && history[i] == ev
  }

  lemma LatestStep(history: seq<ConnEvent>, k: Key, ev: ConnEvent, next: ConnEvent)
    ensures Opens(next) && EventKey(next) == k ==> IsLatest(history + [next], k, next)
    ensures !(Opens(next) && EventKey(next) == k) && IsLatest(history, k, ev) ==> IsLatest(history + [next], k, ev)
    ensures !(Opens(next) && EventKey(next) == k) && NeverOpened(history, k) ==> NeverOpened(history + [next], k)
  {
    var all := history + [next];
    if Opens(next) && EventKey(next) == k {
      assert LatestOpening(all, |history|, k);
    } else if i: nat :| LatestOpening(history, i, k) && history[i] == ev {
      assert all[i] == ev && LatestOpening(all, i, k);
    }
  }

  lemma {:induction false} SeenIsLatest(history: seq<ConnEvent>, k: Key)
    ensures var seen := BoardOf(history).seen;
      if k in seen then IsLatest(history, k, seen[k].event) else NeverOpened(history, k)
  {
    if history != [] {
      var n := |history| - 1;
      var before := history[..n];
      SeenIsLatest(before, k);
      var seen := BoardOf(before).seen;
      LatestStep(before, k, if k in seen then seen[k].event else history[n], history[n]);
      assert history == before + [history[n]];
    }
  }

  /** k was opened before l ever was. */
  ghost predicate OpenedFirst(history: seq<ConnEvent>, k: Key, l: Key) {
    exists i: nat :: FirstAt(history, i, k, l)
  }

  ghost predicate FirstAt(history: seq<ConnEvent>, i: nat, k: Key, l: Key) {
    && i < |history| && Opens(history[i]) && EventKey(history[i]) == k
    && forall j :: 0 <= j <= i && EventKey(history[j]) == l ==> !Opens(history[j])
  }

  /** Keys are listed in the order in which they were first opened. */
  lemma {:induction false} ListedInOrder(history: seq<ConnEvent>, a: nat, b: nat)
    requires a < b < |BoardOf(history).order|
    ensures OpenedFirst(history, BoardOf(history).order[a], BoardOf(history).order[b])
  {
    var n := |history| - 1;
    var before, ev := history[..n], history[n];
    var order := BoardOf(before).order;
    var k, l := BoardOf(history).order[a], BoardOf(history).order[b];
    assert history == before + [ev];
    if b < |order| {
      ListedInOrder(before, a, b);
      FirstStays(before, ev, k, l);
    } else {
      BoardReplays(before);
      assert k in order;
      SeenIsLatest(before, k);
      SeenIsLatest(before, l);
      NewcomerIsLater(before, ev, k, l, BoardOf(before).seen[k].event);
    }
  }

  lemma FirstStays(history: seq<ConnEvent>, ev: ConnEvent, k: Key, l: Key)
    requires OpenedFirst(history, k, l)
    ensures OpenedFirst(history + [ev], k, l)
  {
    var i: nat :| FirstAt(history, i, k, l);
    assert FirstAt(history + [ev], i, k, l);
  }

  lemma NewcomerIsLater(history: seq<ConnEvent>, ev: ConnEvent, k: Key, l: Key, opening: ConnEvent)
    requires IsLatest(history, k, opening) && NeverOpened(history, l)
    ensures OpenedFirst(history + [ev], k, l)
  {
    var i: nat :| LatestOpening(history, i, k);
    assert FirstAt(history + [ev], i, k, l);
  }

  ghost function KeysOf(events: seq<ConnEvent>): set<Key> {
    if events == [] then {} else KeysOf(events[..|events| - 1]) + {EventKey(events[|events| - 1])}
  }

  lemma KeysOfAppend(events: seq<ConnEvent>, ev: ConnEvent)
    ensures KeysOf(events + [ev]) == KeysOf(events) + {EventKey(ev)}
  {
    assert (events + [ev])[..|events|] == events;
  }

  /** The second loop of ActiveConnections. */
  function Collected(seen: map<Key, Seen>, order: seq<Key>): seq<ConnEvent> {
    if order == [] then []
    else
      var k := order[|order| - 1];
      Collected(seen, order[..|order| - 1]) + (if k in seen && !seen[k].closed then [seen[k].event] else [])
  }

  lemma {:induction false} CollectedKey(seen: map<Key, Seen>, order: seq<Key>, k: Key)
    requires forall x :: x in seen ==> EventKey(seen[x].event) == x
    ensures k in KeysOf(Collected(seen, order)) <==> k in order && k in seen && !seen[k].closed
  {
    if order != [] {
      var init, last := order[..|order| - 1], order[|order| - 1];
      CollectedKey(seen, init, k);
      assert order == init + [last];
      if last in seen && !seen[last].closed {
        KeysOfAppend(Collected(seen, init), seen[last].event);
      } else {
        assert Collected(seen, order) == Collected(seen, init);
      }
    }
  }

  lemma {:induction false} CollectedOnce(seen: map<Key, Seen>, order: seq<Key>)
    requires forall i, j :: 0 <= i < j < |order| ==> order[i] != order[j]
    requires forall x :: x in seen ==> EventKey(seen[x].event) == x
    ensures |Collected(seen, order)| == |KeysOf(Collected(seen, order))|
  {
    if order != [] {
      var init, last := order[..|order| - 1], order[|order| - 1];
      CollectedOnce(seen, init);
      if last in seen && !seen[last].closed {
        KeysOfAppend(Collected(seen, init), seen[last].event);
        assert last !in init;
        CollectedKey(seen, init, last);
      } else {
        assert Collected(seen, order) == Collected(seen, init);
      }
    }
  }

  /** Collecting keeps the order of the keys. */
  lemma {:induction false} CollectedInOrder(seen: map<Key, Seen>, order: seq<Key>, a: nat, b: nat)
    returns (x: nat, y: nat)
    requires (forall k :: k in seen ==> EventKey(seen[k].event) == k) && a < b < |Collected(seen, order)|
    ensures x < y < |order|
    ensures order[x] == EventKey(Collected(seen, order)[a]) && order[y] == EventKey(Collected(seen, order)[b])
  {
    var n := |order| - 1;
    var init := Collected(seen, order[..n]);
    if b < |init| {
      x, y := CollectedInOrder(seen, order[..n], a, b);
    } else {
      x := CollectedAt(seen, order[..n], a);
      y := n;
    }
  }

  lemma {:induction false} CollectedAt(seen: map<Key, Seen>, order: seq<Key>, a: nat) returns (x: nat)
    requires (forall k :: k in seen ==> EventKey(seen[k].event) == k) && a < |Collected(seen, order)|
    ensures x < |order| && order[x] == EventKey(Collected(seen, order)[a])
    ensures order[x] in seen && Collected(seen, order)[a] == seen[order[x]].event
  {
    var n := |order| - 1;
    if a < |Collected(seen, order[..n])| {
      x := CollectedAt(seen, order[..n], a);
    } else {
      x := n;
    }
  }

  /** What is collected from the replay of a history: latest opening events, first opened first. */
  lemma CollectedMeans(history: seq<ConnEvent>, b: Board)
    requires b == BoardOf(history)
    ensures forall ev :: ev in Collected(b.seen, b.order) ==> IsLatest(history, EventKey(ev), ev)
    ensures FirstOpenedFirst(history, Collected(b.seen, b.order))
  {
    var active := Collected(b.seen, b.order);
    BoardReplays(history);
    forall ev | ev in active ensures IsLatest(history, EventKey(ev), ev) {
      var a :| 0 <= a < |active| && active[a] == ev;
      var x := CollectedAt(b.seen, b.order, a);
      SeenIsLatest(history, b.order[x]);
    }
    forall i, j | 0 <= i < j < |active|
      ensures OpenedFirst(history, EventKey(active[i]), EventKey(active[j]))
    {
      var x, y := CollectedInOrder(b.seen, b.order, i, j);
      ListedInOrder(history, x, y);
    }
  }

  ghost predicate FirstOpenedFirst(history: seq<ConnEvent>, active: seq<ConnEvent>) {
    forall i, j :: 0 <= i < j < |active| ==> OpenedFirst(history, EventKey(active[i]), EventKey(active[j]))
  }

  lemma {:induction false} CollectedFrom(seen: map<Key, Seen>, order: seq<Key>, history: seq<ConnEvent>)
    requires forall k :: k in seen ==> Opens(seen[k].event) && seen[k].event in history
    ensures forall ev :: ev in Collected(seen, order) ==> ev in history && Opens(ev)
  {
    if order != [] { CollectedFrom(seen, order[..|order| - 1], history); }
  }

  /** The live connections, each with its latest opening event, in the order of first opening. */
  method ActiveConnections(history: seq<ConnEvent>) returns (active: seq<ConnEvent>)
    ensures KeysOf(active) == ActiveKeys(history) && |active| == |ActiveKeys(history)|
    ensures forall ev :: ev in active ==> ev in history && Opens(ev) && IsLatest(history, EventKey(ev), ev)
    ensures FirstOpenedFirst(history, active)
  {
    var seen, order := Replay(history);
    BoardReplays(history);
    CollectedMeans(history, Board(seen, order));
    active := Collect(seen, order);
    ReplayResult(history, seen, order);
  }

  /** Keys in the order they were first opened, each with its latest opening event. */
  method Replay(history: seq<ConnEvent>) returns (seen: map<Key, Seen>, order: seq<Key>)
    ensures Board(seen, order) == BoardOf(history)
  {
    seen, order := map[], [];
    for i := 0 to |history|
      invariant Board(seen, order) == BoardOf(history[..i])
    {
      assert history[..i + 1][..i] == history[..i];
      var ev := history[i];
      var k := EventKey(ev);
      if Opens(ev) {
        if k !in seen {
          order := order + [k];
        }
        seen := seen[k := Seen(ev, false)];
      } else if k in seen {
        seen := seen[k := seen[k].(closed := true)];
      }
    }
    assert history[..|history|] == history;
  }

  method Collect(seen: map<Key, Seen>, order: seq<Key>) returns (active: seq<ConnEvent>)
    requires forall k :: k in order ==> k in seen
    ensures active == Collected(seen, order)
  {
    active := [];
    for i := 0 to |order|
      invariant active == Collected(seen, order[..i])
    {
      assert order[..i + 1][..i] == order[..i];
      assert order[i] in order;
      if !seen[order[i]].closed {
        active := active + [seen[order[i]].event];
      }
    }
    assert order[..|order|] == order;
  }

  lemma ReplayResult(history: seq<ConnEvent>, seen: map<Key, Seen>, order: seq<Key>)
    requires Replayed(history, Board(seen, order))
    ensures KeysOf(Collected(seen, order)) == ActiveKeys(history)
    ensures |Collected(seen, order)| == |ActiveKeys(history)|
    ensures forall ev :: ev in Collected(seen, order) ==> ev in history && Opens(ev)
  {
    forall k ensures k in KeysOf(Collected(seen, order)) <==> k in ActiveKeys(history) { CollectedKey(seen, order, k); }
    CollectedOnce(seen, order);
    CollectedFrom(seen, order, history);
    assert KeysOf(Collected(seen, order)) == ActiveKeys(history);
  }

  /** Replaying a later part of a log reports exactly the live connections whose opening
      event is in that part: never a closed one, and a live one is missed only if cut. */
  lemma {:induction false} SuffixReplay(log: seq<ConnEvent>, n: nat, k: Key)
    requires n <= |log|
    ensures k in ActiveKeys(log[n..]) <==>
      k in ActiveKeys(log) && exists i :: n <= i < |log| && EventKey(log[i]) == k && Opens(log[i])
  {
    if n < |log| {
      var m := |log| - 1;
      var init := log[..m];
      SuffixReplay(init, n, k);
      assert log[n..][..m - n] == init[n..];
      assert forall i :: n <= i < m ==> init[i] == log[i];
    }
  }

  // ----- Polling ---------------------------------------------------------------------------------

  ghost predicate Keyed(conns: map<Key, Conn>) {
    forall k :: k in conns ==> KeyOf(conns[k]) == k
  }

  /** events are of the given kind and about the given keys, each at least once. */
  ghost predicate Covers(events: seq<ConnEvent>, keys: set<Key>, kind: Kind) {
    && KeysOf(events) == keys
    && (forall i :: 0 <= i < |events| ==> events[i].kind == kind)
  }

  /** events are the new events of the given connections: one for each, and no others. */
  ghost predicate Announce(events: seq<ConnEvent>, conns: map<Key, Conn>, kind: Kind, now: int) {
    && KeysOf(events) == conns.Keys && |events| == |KeysOf(events)|
    && (forall ev :: ev in events ==> EventKey(ev) in conns && ev == NewEvent(conns[EventKey(ev)], kind, now))
  }

  lemma AnnounceCovers(events: seq<ConnEvent>, conns: map<Key, Conn>, kind: Kind, now: int)
    requires Announce(events, conns, kind, now)
    ensures Covers(events, conns.Keys, kind)
  {
    forall i | 0 <= i < |events| ensures events[i].kind == kind { assert events[i] in events; }
  }

  lemma {:induction false} OpensReplay(history: seq<ConnEvent>, events: seq<ConnEvent>)
    requires forall i :: 0 <= i < |events| ==> Opens(events[i])
    ensures ActiveKeys(history + events) == ActiveKeys(history) + KeysOf(events)
  {
    if events == [] {
      assert history + events == history;
    } else {
      var n := |events| - 1;
      assert (history + events)[..|history| + n] == history + events[..n];
      OpensReplay(history, events[..n]);
    }
  }

  lemma {:induction false} ClosesReplay(history: seq<ConnEvent>, events: seq<ConnEvent>)
    requires forall i :: 0 <= i < |events| ==> !Opens(events[i])
    ensures ActiveKeys(history + events) == ActiveKeys(history) - KeysOf(events)
  {
    if events == [] {
      assert history + events == history;
    } else {
      var n := |events| - 1;
      assert (history + events)[..|history| + n] == history + events[..n];
      ClosesReplay(history, events[..n]);
    }
  }

  /** The connections that are not in todo have been announced. */
  ghost predicate Announcing(events: seq<ConnEvent>, conns: map<Key, Conn>, todo: set<Key>, kind: Kind, now: int) {
    && todo <= conns.Keys && KeysOf(events) == conns.Keys - todo && |events| == |KeysOf(events)|
    && (forall ev :: ev in events ==> EventKey(ev) in conns && ev == NewEvent(conns[EventKey(ev)], kind, now))
  }

  lemma AnnounceOne(events: seq<ConnEvent>, conns: map<Key, Conn>, todo: set<Key>, kind: Kind, now: int, k: Key)
    requires Keyed(conns) && Announcing(events, conns, todo, kind, now) && k in todo
    ensures Announcing(events + [NewEvent(conns[k], kind, now)], conns, todo - {k}, kind, now)
  {
    var ev := NewEvent(conns[k], kind, now);
    assert EventKey(ev) == k;
    KeysOfAppend(events, ev);
    assert conns.Keys - (todo - {k}) == (conns.Keys - todo) + {k};
  }

  /** One event per connection, in no particular order (map iteration). */
  method AnnounceAll(conns: map<Key, Conn>, kind: Kind, now: int) returns (events: seq<ConnEvent>)
    requires Keyed(conns)
    ensures Announce(events, conns, kind, now)
  {
    events := [];
    var todo := conns.Keys;
    while |todo| > 0
      invariant Announcing(events, conns, todo, kind, now)
      decreases |todo|
    {
      var k :| k in todo;
      AnnounceOne(events, conns, todo, kind, now, k);
      events := events + [NewEvent(conns[k], kind, now)];
      todo := todo - {k};
    }
  }

  function ByPort(): (ConnEvent, ConnEvent) -> bool {
    (a: ConnEvent, b: ConnEvent) => a.conn.localPort <= b.conn.localPort
  }

  lemma {:induction false} KeyInKeysOf(events: seq<ConnEvent>, k: Key)
    ensures k in KeysOf(events) <==> exists ev :: ev in events && EventKey(ev) == k
  {
    if events != [] {
      var n := |events| - 1;
      KeyInKeysOf(events[..n], k);
      assert events == events[..n] + [events[n]];
    }
  }

  lemma SortKeepsAnnouncement(events: seq<ConnEvent>, sorted: seq<ConnEvent>, conns: map<Key, Conn>, kind: Kind,
                              now: int)
    requires Announce(events, conns, kind, now) && multiset(sorted) == multiset(events) && |sorted| == |events|
    ensures Announce(sorted, conns, kind, now)
  {
    SameElements(events, sorted);
    forall k ensures k in KeysOf(sorted) <==> k in KeysOf(events) {
      KeyInKeysOf(sorted, k);
      KeyInKeysOf(events, k);
    }
    assert KeysOf(sorted) == KeysOf(events);
  }

  /** What one diff yields: the new events of the connections only the new snapshot has, and
      of those only the old one has, each list by local port. */
  ghost predicate Diffed(prev: map<Key, Conn>, cur: map<Key, Conn>, now: int,
                         arrived: seq<ConnEvent>, left: seq<ConnEvent>) {
    && Announce(arrived, cur - prev.Keys, Open, now) && Ordered(arrived, ByPort())
    && Announce(left, prev - cur.Keys, Close, now) && Ordered(left, ByPort())
  }

  method Diff(prev: map<Key, Conn>, cur: map<Key, Conn>, now: int)
    returns (arrived: seq<ConnEvent>, left: seq<ConnEvent>)
    requires Keyed(prev) && Keyed(cur)
    ensures Diffed(prev, cur, now, arrived, left)
  {
    var appeared, gone := cur - prev.Keys, prev - cur.Keys;
    var o := AnnounceAll(appeared, Open, now);
    arrived := SortSlice(o, ByPort());
    SortKeepsAnnouncement(o, arrived, appeared, Open, now);
    var c := AnnounceAll(gone, Close, now);
    left := SortSlice(c, ByPort());
    SortKeepsAnnouncement(c, left, gone, Close, now);
  }

  /** Replaying the events of one diff turns the old snapshot's keys into the new one's and
      leaves every other key alone. */
  lemma DiffReplay(log: seq<ConnEvent>, prev: set<Key>, cur: set<Key>, arrived: seq<ConnEvent>, left: seq<ConnEvent>)
    requires Covers(arrived, cur - prev, Open) && Covers(left, prev - cur, Close)
    ensures ActiveKeys(log + (arrived + left)) == ActiveKeys(log) + (cur - prev) - (prev - cur)
  {
    OpensReplay(log, arrived);
    ClosesReplay(log + arrived, left);
    assert log + arrived + left == log + (arrived + left);
  }

  /** What the log replays to: the live snapshot, plus connections that were open in the
      history found at startup and have not been observed since. */
  ghost predicate ReplaysTo(log: seq<ConnEvent>, live: set<Key>, base: seq<ConnEvent>, observed: set<Key>) {
    live <= observed && ActiveKeys(log) == live + (ActiveKeys(base) - observed)
  }

  lemma PollKeepsReplay(log: seq<ConnEvent>, prev: set<Key>, cur: set<Key>, base: seq<ConnEvent>, observed: set<Key>,
                        arrived: seq<ConnEvent>, left: seq<ConnEvent>)
    requires ReplaysTo(log, prev, base, observed)
    requires Covers(arrived, cur - prev, Open) && Covers(left, prev - cur, Close)
    ensures ReplaysTo(log + (arrived + left), cur, base, observed + cur)
  {
    DiffReplay(log, prev, cur, arrived, left);
  }

  lemma BootstrapReplay(base: seq<ConnEvent>, cur: set<Key>, events: seq<ConnEvent>)
    requires Covers(events, cur, Existing)
    ensures ReplaysTo(base + events, cur, base, cur)
  {
    OpensReplay(base, events);
  }

  /** The last events of a log, limit of them or all. */
  function Last(log: seq<ConnEvent>, limit: nat): (kept: seq<ConnEvent>)
    ensures |kept| == (if |log| <= limit then |log| else limit)
  {
    if |log| <= limit then log else log[|log| - limit..]
  }

  /** The stored history is the last limit events of the full log. A history found at startup
      may be longer than that until the first event is added to it. */
  ghost predicate Capped(history: seq<ConnEvent>, log: seq<ConnEvent>, base: seq<ConnEvent>, limit: nat) {
    base <= log && history == if log == base then log else Last(log, limit)
  }

  /** The stored history shows a connection as active exactly when it is active in the full
      log and an event that opened it has not been cut. */
  lemma StoredReplay(history: seq<ConnEvent>, log: seq<ConnEvent>, base: seq<ConnEvent>, limit: nat, k: Key)
    requires Capped(history, log, base, limit)
    ensures k in ActiveKeys(history) <==>
      k in ActiveKeys(log) && exists i :: |log| - |history| <= i < |log| && EventKey(log[i]) == k && Opens(log[i])
  {
    var n := |log| - |history|;
    assert history == log[n..];
    SuffixReplay(log, n, k);
  }

  /** Cutting a cut log again is cutting the whole log. */
  lemma LastOfLast(log: seq<ConnEvent>, events: seq<ConnEvent>, limit: nat)
    ensures Last(Last(log, limit) + events, limit) == Last(log + events, limit)
  {
    if |log| > limit {
      var all, d := log + events, |log| - limit;
      assert Last(log, limit) + events == all[d..] by { SliceOfConcat(log, events, d); }
      LastOfTail(all, d, limit);
    }
  }

  lemma LastOfTail(all: seq<ConnEvent>, d: nat, limit: nat)
    requires d + limit <= |all|
    ensures Last(all[d..], limit) == Last(all, limit)
  {
    TailOfTail(all, d, limit);
  }

  lemma SliceOfConcat(xs: seq<ConnEvent>, ys: seq<ConnEvent>, d: nat)
    requires d <= |xs|
    ensures xs[d..] + ys == (xs + ys)[d..]
  {}

  lemma TailOfTail(xs: seq<ConnEvent>, d: nat, k: nat)
    requires d <= |xs| && k <= |xs| - d
    ensures xs[d..][|xs| - d - k..] == xs[|xs| - k..]
  {}

  /** A snapshot as a map; of several entries with one key the last counts. */
  function Indexed(conns: seq<Conn>): map<Key, Conn> {
    if conns == [] then map[]
    else Indexed(conns[..|conns| - 1])[KeyOf(conns[|conns| - 1]) := conns[|conns| - 1]]
  }

  ghost predicate IsLast(conns: seq<Conn>, i: nat, k: Key) {
    i < |conns| && KeyOf(conns[i]) == k && forall j :: i < j < |conns| ==> KeyOf(conns[j]) != k
  }

  lemma {:induction false} IndexedMeans(conns: seq<Conn>, k: Key)
    ensures k in Indexed(conns) <==> exists i: nat :: IsLast(conns, i, k)
    ensures forall i: nat :: IsLast(conns, i, k) ==> k in Indexed(conns) && Indexed(conns)[k] == conns[i]
  {
    if conns != [] {
      var n := |conns| - 1;
      var init := conns[..n];
      IndexedMeans(init, k);
      if KeyOf(conns[n]) == k {
        assert IsLast(conns, n, k);
        assert forall i: nat :: IsLast(conns, i, k) ==> i == n;
      } else {
        forall i: nat ensures IsLast(conns, i, k) <==> IsLast(init, i, k) { LastInFront(conns, i, k); }
        if i: nat :| IsLast(init, i, k) { assert IsLast(conns, i, k); }
      }
    }
  }

  lemma LastInFront(conns: seq<Conn>, i: nat, k: Key)
    requires conns != [] && KeyOf(conns[|conns| - 1]) != k
    ensures IsLast(conns, i, k) <==> IsLast(conns[..|conns| - 1], i, k)
  {
    var init := conns[..|conns| - 1];
    if IsLast(init, i, k) {
      forall j | i < j < |conns| ensures KeyOf(conns[j]) != k { assert j < |init| ==> init[j] == conns[j]; }
    }
  }

  lemma {:induction false} IndexedKeyed(conns: seq<Conn>)
    ensures Keyed(Indexed(conns))
  {
    if conns != [] { IndexedKeyed(conns[..|conns| - 1]); }
  }

  /** What a poll records: an event for every connection the first time, afterwards the diff
      with each new connection judged against the earlier history. */
  ghost predicate PollEvents(first: bool, prev: map<Key, Conn>, cur: map<Key, Conn>, now: int, judge: Judge,
                             prior: seq<ConnEvent>, events: seq<ConnEvent>) {
    if first then Announce(events, cur, Existing, now)
    else exists arrived, left ::
           Diffed(prev, cur, now, arrived, left) && events == Judged(arrived, judge, prior) + left
  }

  /** The comparison of a new connection with the host's earlier history. */
  type Judge = (ConnEvent, seq<ConnEvent>) -> (bool, string)

  function JudgedOne(ev: ConnEvent, judge: Judge, prior: seq<ConnEvent>): ConnEvent {
    ev.(unusual := judge(ev, prior).0, reason := judge(ev, prior).1)
  }

  function Judged(arrived: seq<ConnEvent>, judge: Judge, prior: seq<ConnEvent>): seq<ConnEvent> {
    if arrived == [] then []
    else Judged(arrived[..|arrived| - 1], judge, prior) + [JudgedOne(arrived[|arrived| - 1], judge, prior)]
  }

  /** Judging sets flag and reason as the judge says and changes nothing else. */
  lemma {:induction false} JudgedMeans(arrived: seq<ConnEvent>, judge: Judge, prior: seq<ConnEvent>)
    ensures |Judged(arrived, judge, prior)| == |arrived|
    ensures forall i :: 0 <= i < |arrived| ==>
      var ev, verdict := Judged(arrived, judge, prior)[i], judge(arrived[i], prior);
      && ev.kind == arrived[i].kind && ev.conn == arrived[i].conn && ev.at == arrived[i].at
      && ev.direction == arrived[i].direction && ev.unusual == verdict.0 && ev.reason == verdict.1
  {
    if arrived != [] { JudgedMeans(arrived[..|arrived| - 1], judge, prior); }
  }

  // ----- What a poll announces ------------------------------------------------------------------

  ghost predicate Announces(events: seq<ConnEvent>, kind: Kind, c: Conn) {
    exists ev :: ev in events && ev.kind == kind && SameEndpoints(ev.conn, c)
  }

  ghost predicate Holds(conns: seq<Conn>, c: Conn) {
    exists i :: 0 <= i < |conns| && SameEndpoints(conns[i], c)
  }

  ghost predicate InSnapshot(snapshot: map<Key, Conn>, c: Conn) {
    exists k :: k in snapshot && SameEndpoints(snapshot[k], c)
  }

  lemma SnapshotHasKey(snapshot: map<Key, Conn>, c: Conn)
    requires Keyed(snapshot)
    ensures InSnapshot(snapshot, c) <==> KeyOf(c) in snapshot
  {
    if KeyOf(c) in snapshot { KeyIsEndpoints(snapshot[KeyOf(c)], c); }
    if k :| k in snapshot && SameEndpoints(snapshot[k], c) { KeyIsEndpoints(snapshot[k], c); }
  }

  /** A snapshot holds exactly the connections gathered. */
  lemma {:induction false} IndexedHolds(conns: seq<Conn>, c: Conn)
    ensures KeyOf(c) in Indexed(conns) <==> Holds(conns, c)
  {
    if conns != [] {
      var n := |conns| - 1;
      IndexedHolds(conns[..n], c);
      KeyIsEndpoints(conns[n], c);
      if i :| 0 <= i < n && SameEndpoints(conns[..n][i], c) { assert SameEndpoints(conns[i], c); }
      if i :| 0 <= i < |conns| && SameEndpoints(conns[i], c) { assert i < n ==> SameEndpoints(conns[..n][i], c); }
    }
  }

  lemma CoversAnnounces(events: seq<ConnEvent>, keys: set<Key>, kind: Kind, c: Conn)
    requires Covers(events, keys, kind)
    ensures Announces(events, kind, c) <==> KeyOf(c) in keys
    ensures forall other: Kind :: other != kind ==> !Announces(events, other, c)
  {
    KeyInKeysOf(events, KeyOf(c));
    if ev :| ev in events && EventKey(ev) == KeyOf(c) {
      KeyIsEndpoints(ev.conn, c);
      var i :| 0 <= i < |events| && events[i] == ev;
    }
    if ev :| ev in events && ev.kind == kind && SameEndpoints(ev.conn, c) { KeyIsEndpoints(ev.conn, c); }
    forall ev | ev in events ensures ev.kind == kind { var i :| 0 <= i < |events| && events[i] == ev; }
  }

  lemma AnnouncesConcat(xs: seq<ConnEvent>, ys: seq<ConnEvent>, kind: Kind, c: Conn)
    ensures Announces(xs + ys, kind, c) <==> Announces(xs, kind, c) || Announces(ys, kind, c)
  {
    if ev :| ev in xs && ev.kind == kind && SameEndpoints(ev.conn, c) { assert ev in xs + ys; }
    if ev :| ev in ys && ev.kind == kind && SameEndpoints(ev.conn, c) { assert ev in xs + ys; }
  }

  /** The first poll announces what it finds; a later one opens exactly the connections whose
      five fields the last snapshot lacks and closes exactly those that are gone. */
  ghost predicate AnnouncesChange(first: bool, prev: map<Key, Conn>, conns: seq<Conn>, events: seq<ConnEvent>) {
    forall c: Conn ::
      if first then Announces(events, Existing, c) <==> Holds(conns, c)
      else (Announces(events, Open, c) <==> Holds(conns, c) && !InSnapshot(prev, c)) &&
           (Announces(events, Close, c) <==> InSnapshot(prev, c) && !Holds(conns, c))
  }

  lemma PollAnnouncesChange(first: bool, prev: map<Key, Conn>, conns: seq<Conn>, now: int, judge: Judge,
                            prior: seq<ConnEvent>, events: seq<ConnEvent>)
    requires Keyed(prev) && PollEvents(first, prev, Indexed(conns), now, judge, prior, events)
    ensures AnnouncesChange(first, prev, conns, events)
  {
    forall c: Conn
      ensures first ==> (Announces(events, Existing, c) <==> Holds(conns, c))
      ensures !first ==> (Announces(events, Open, c) <==> Holds(conns, c) && !InSnapshot(prev, c))
      ensures !first ==> (Announces(events, Close, c) <==> InSnapshot(prev, c) && !Holds(conns, c))
    {
      PollAnnounces(first, prev, conns, now, judge, prior, events, c);
    }
  }

  /** A later poll announces as opened exactly the gathered connections the previous snapshot
      lacks, and as closed exactly those of it that were not gathered; the first poll announces
      every gathered one as existing. */
  lemma PollAnnounces(first: bool, prev: map<Key, Conn>, conns: seq<Conn>, now: int, judge: Judge,
                      prior: seq<ConnEvent>, events: seq<ConnEvent>, c: Conn)
    requires Keyed(prev) && PollEvents(first, prev, Indexed(conns), now, judge, prior, events)
    ensures first ==> (Announces(events, Existing, c) <==> Holds(conns, c))
    ensures !first ==> (Announces(events, Open, c) <==> Holds(conns, c) && !InSnapshot(prev, c))
    ensures !first ==> (Announces(events, Close, c) <==> InSnapshot(prev, c) && !Holds(conns, c))
  {
    var cur := Indexed(conns);
    IndexedHolds(conns, c);
    SnapshotHasKey(prev, c);
    if first {
      AnnounceCovers(events, cur, Existing, now);
      CoversAnnounces(events, cur.Keys, Existing, c);
    } else {
      var arrived, left :| Diffed(prev, cur, now, arrived, left) && events == Judged(arrived, judge, prior) + left;
      DiffCovers(prev, cur, now, arrived, left, judge, prior);
      CoversAnnounces(Judged(arrived, judge, prior), cur.Keys - prev.Keys, Open, c);
      CoversAnnounces(left, prev.Keys - cur.Keys, Close, c);
      AnnouncesConcat(Judged(arrived, judge, prior), left, Open, c);
      AnnouncesConcat(Judged(arrived, judge, prior), left, Close, c);
    }
  }

  lemma {:induction false} JudgedCovers(arrived: seq<ConnEvent>, judge: Judge, prior: seq<ConnEvent>, kind: Kind)
    requires forall i :: 0 <= i < |arrived| ==> arrived[i].kind == kind
    ensures Covers(Judged(arrived, judge, prior), KeysOf(arrived), kind)
  {
    if arrived != [] {
      var n := |arrived| - 1;
      JudgedCovers(arrived[..n], judge, prior, kind);
      KeysOfAppend(Judged(arrived[..n], judge, prior), JudgedOne(arrived[n], judge, prior));
    }
  }

  method JudgeAll(arrived: seq<ConnEvent>, judge: Judge, prior: seq<ConnEvent>) returns (judged: seq<ConnEvent>)
    ensures judged == Judged(arrived, judge, prior)
  {
    judged := [];
    for i := 0 to |arrived|
      invariant judged == Judged(arrived[..i], judge, prior)
    {
      assert arrived[..i + 1][..i] == arrived[..i];
      var verdict := judge(arrived[i], prior);
      judged := judged + [arrived[i].(unusual := verdict.0, reason := verdict.1)];
    }
    assert arrived[..|arrived|] == arrived;
  }

  /** The state a monitor is in before a poll, first or later. */
  ghost predicate Ready(first: bool, prev: map<Key, Conn>, log: seq<ConnEvent>, base: seq<ConnEvent>,
                        observed: set<Key>) {
    if first then log == base && prev == map[] && observed == {}
    else ReplaysTo(log, prev.Keys, base, observed)
  }

  /** The events of a poll that finds cur. */
  method NewEvents(first: bool, prev: map<Key, Conn>, cur: map<Key, Conn>, now: int, judge: Judge,
                   prior: seq<ConnEvent>, ghost log: seq<ConnEvent>, ghost base: seq<ConnEvent>,
                       ghost observed: set<Key>)
    returns (news: seq<ConnEvent>)
    requires Keyed(prev) && Keyed(cur) && Ready(first, prev, log, base, observed)
    ensures PollEvents(first, prev, cur, now, judge, prior, news)
    ensures Ready(false, cur, log + news, base, observed + cur.Keys)
  {
    if first {
      news := AnnounceAll(cur, Existing, now);
      AnnounceCovers(news, cur, Existing, now);
      BootstrapReplay(base, cur.Keys, news);
    } else {
      var arrived, left := Diff(prev, cur, now);
      var judged := JudgeAll(arrived, judge, prior);
      DiffCovers(prev, cur, now, arrived, left, judge, prior);
      PollKeepsReplay(log, prev.Keys, cur.Keys, base, observed, judged, left);
      news := judged + left;
    }
  }

  class Monitor {
    var prev: map<Key, Conn>
    var bootstrapped: bool
    var history: seq<ConnEvent>
    const historyLimit: nat

    ghost var log: seq<ConnEvent>       // everything ever recorded
    ghost var base: seq<ConnEvent>      // the history found at startup
    ghost var observed: set<Key>        // every key seen by a poll

    ghost predicate Valid()
      reads this
    {
      && Keyed(prev) && historyLimit > 0
      && Capped(history, log, base, historyLimit)
      && Ready(!bootstrapped, prev, log, base, observed)
    }

    constructor (stored: seq<ConnEvent>, configuredLimit: int)
      ensures Valid() && !bootstrapped && history == base == stored
      ensures historyLimit == if configuredLimit <= 0 then DEFAULT_LIMIT else configuredLimit
    {
      prev, bootstrapped, history := map[], false, stored;
      historyLimit := if configuredLimit <= 0 then DEFAULT_LIMIT else configuredLimit;
      log, base, observed := stored, stored, {};
    }

    method Index(conns: seq<Conn>) returns (cur: map<Key, Conn>)
      ensures cur == Indexed(conns)
    {
      cur := map[];
      for i := 0 to |conns|
        invariant cur == Indexed(conns[..i])
      {
        assert conns[..i + 1][..i] == conns[..i];
        cur := cur[KeyOf(conns[i]) := conns[i]];
      }
      assert conns[..|conns|] == conns;
    }

    method AppendEvents(events: seq<ConnEvent>)
      requires Capped(history, log, base, historyLimit)
      modifies this`history, this`log
      ensures log == old(log) + events && Capped(history, log, base, historyLimit)
      ensures |events| > 0 ==> history == Last(log, historyLimit)
      ensures |events| > 0 ==> |history| <= historyLimit
      ensures |events| == 0 ==> history == old(history)
    {
      log := log + events;
      if |events| == 0 {
        assert log == old(log);
        return;
      }
      LastOfLast(old(log), events, historyLimit);
      history := history + events;
      if |history| > historyLimit {
        history := history[|history| - historyLimit..];
      }
    }

    /** One gather, diff and persist cycle. gathered is None when the gatherer failed. */
    method PollOnce(gathered: Option<seq<Conn>>, now: int, judge: Judge) returns (events: Option<seq<ConnEvent>>)
      requires Valid()
      modifies this
      ensures Valid() && base == old(base)
      ensures gathered.None? ==> events.None? && unchanged(this)
      ensures gathered.Some? ==>
        && bootstrapped && prev == Indexed(gathered.value)
        && events.Some? && log == old(log) + events.value
        && PollEvents(!old(bootstrapped), old(prev), prev, now, judge, old(history), events.value)
        && AnnouncesChange(!old(bootstrapped), old(prev), gathered.value, events.value)
        && (|events.value| > 0 ==> history == Last(log, historyLimit))
        && observed == old(observed) + prev.Keys
        && ActiveKeys(log) == prev.Keys + (ActiveKeys(base) - observed)
    {
      if gathered.None? { return None; }
      var cur := Index(gathered.value);
      IndexedKeyed(gathered.value);
      var news := NewEvents(!bootstrapped, prev, cur, now, judge, history, log, base, observed);
      PollAnnouncesChange(!bootstrapped, prev, gathered.value, now, judge, history, news);
      Commit(cur, news);
      events := Some(news);
    }

    /** The events of a successful poll are recorded and its snapshot becomes the previous one. */
    method Commit(cur: map<Key, Conn>, news: seq<ConnEvent>)
      requires Valid() && Keyed(cur) && Ready(false, cur, log + news, base, observed + cur.Keys)
      modifies this
      ensures Valid() && base == old(base) && bootstrapped && prev == cur
      ensures log == old(log) + news && observed == old(observed) + cur.Keys
      ensures |news| > 0 ==> history == Last(log, historyLimit)
    {
      bootstrapped := true;
      AppendEvents(news);
      observed := observed + cur.Keys;
      prev := cur;
    }
  }

  lemma DiffCovers(prev: map<Key, Conn>, cur: map<Key, Conn>, now: int, arrived: seq<ConnEvent>, left: seq<ConnEvent>,
                   judge: Judge, prior: seq<ConnEvent>)
    requires Diffed(prev, cur, now, arrived, left)
    ensures Covers(Judged(arrived, judge, prior), cur.Keys - prev.Keys, Open)
    ensures Covers(left, prev.Keys - cur.Keys, Close)
  {
    assert (cur - prev.Keys).Keys == cur.Keys - prev.Keys;
    assert (prev - cur.Keys).Keys == prev.Keys - cur.Keys;
    AnnounceCovers(arrived, cur - prev.Keys, Open, now);
    AnnounceCovers(left, prev - cur.Keys, Close, now);
    JudgedCovers(arrived, judge, prior, Open);
  }
}
