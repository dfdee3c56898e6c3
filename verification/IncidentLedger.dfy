/**
 * The incident ledger (endpoint-server/incidents/incidents.go): problems filed under a
 * normalised fingerprint, reopened when they recur, forgotten thirty days after their
 * resolution or when more than a hundred are on file.
 */
module IncidentLedger {
  import opened Collections
  import opened Sorting

  const MAX_INCIDENTS := 100
  const RESOLVED_RETENTION := 30 * 24 * 60 * 60 // seconds

  // ---------------------------------------------------------------- fingerprints

  predicate IsSpace(c: char) {
    || '\t' <= c <= '\r' || c == ' ' || c == '\U{85}' || c == '\U{A0}' || c == '\U{1680}'
    || '\U{2000}' <= c <= '\U{200A}' || c == '\U{2028}' || c == '\U{2029}' || c == '\U{202F}'
    || c == '\U{205F}' || c == '\U{3000}'
  }

  function LowerChar(c: char): char {
    if 'A' <= c <= 'Z' then 'a' + (c - 'A') else c
  }

  function ToLower(s: string): (r: string)
    ensures |r| == |s| && forall i :: 0 <= i < |s| ==> r[i] == LowerChar(s[i])
  {
    if s == "" then "" else [LowerChar(s[0])] + ToLower(s[1..])
  }

  function TrimLeft(s: string): string {
    if s != "" && IsSpace(s[0]) then TrimLeft(s[1..]) else s
  }

  function TrimRight(s: string): string {
    if s != "" && IsSpace(s[|s| - 1]) then TrimRight(s[..|s| - 1]) else s
  }

  function WordLength(s: string): (n: nat)
    ensures n <= |s|
    ensures forall i :: 0 <= i < n ==> !IsSpace(s[i])
    ensures n < |s| ==> IsSpace(s[n])
  {
    if s == "" || IsSpace(s[0]) then 0 else 1 + WordLength(s[1..])
  }

  /** strings.Fields: the maximal runs of characters that are not white space. */
  function Fields(s: string): seq<string>
    decreases |s|
  {
    if s == "" then []
    else if IsSpace(s[0]) then Fields(s[1..])
    else [s[..WordLength(s)]] + Fields(s[WordLength(s)..])
  }

  function Join(words: seq<string>): string {
    if words == [] then ""
    else if |words| == 1 then words[0]
    else words[0] + "-" + Join(words[1..])
  }

  function Normalise(fp: string): string {
    Join(Fields(ToLower(TrimRight(TrimLeft(fp)))))
  }

  /** What a normalised fingerprint looks like: no white space and no capital letter. */
  predicate Plain(c: char) { !IsSpace(c) && !('A' <= c <= 'Z') }

  ghost predicate IsNormal(fp: string) {
    forall c :: c in fp ==> Plain(c)
  }

  lemma {:induction false} TrimKeepsCharacters(s: string)
    ensures forall c :: c in TrimLeft(s) ==> c in s
    ensures forall c :: c in TrimRight(s) ==> c in s
    decreases |s|
  {
    if s != "" {
      TrimKeepsCharacters(s[1..]);
      TrimKeepsCharacters(s[..|s| - 1]);
    }
  }

  lemma {:induction false} JoinedFieldsHaveNoSpace(s: string)
    ensures forall c :: c in Join(Fields(s)) ==> c == '-' || (c in s && !IsSpace(c))
    decreases |s|
  {
    if s == "" {
    } else if IsSpace(s[0]) {
      JoinedFieldsHaveNoSpace(s[1..]);
    } else {
      var n := WordLength(s);
      JoinedFieldsHaveNoSpace(s[n..]);
      var rest := Fields(s[n..]);
      assert Fields(s) == [s[..n]] + rest;
      assert Fields(s)[1..] == rest;
      assert rest == [] ==> Join(Fields(s)) == s[..n];
      assert rest != [] ==> Join(Fields(s)) == s[..n] + "-" + Join(rest);
    }
  }

  lemma NormaliseIsNormal(fp: string)
    ensures IsNormal(Normalise(fp))
  {
    var s := TrimRight(TrimLeft(fp));
    LowerHasNoCapitals(s);
    JoinedFieldsHaveNoSpace(ToLower(s));
  }

  lemma LowerHasNoCapitals(s: string)
    ensures forall c :: c in ToLower(s) ==> !('A' <= c <= 'Z')
  {
    forall c | c in ToLower(s) ensures !('A' <= c <= 'Z') {
      var i :| 0 <= i < |s| && ToLower(s)[i] == c;
    }
  }

  /** Normalising fixes exactly the normal texts, so it is idempotent and onto them. */
  lemma NormaliseFixesExactly(fp: string)
    ensures Normalise(fp) == fp <==> IsNormal(fp)
    ensures Normalise(Normalise(fp)) == Normalise(fp)
  {
    NormaliseIsNormal(fp);
    if IsNormal(fp) { NormalIsFixed(fp); }
    NormalIsFixed(Normalise(fp));
  }

  lemma NormalIsFixed(fp: string)
    requires IsNormal(fp)
    ensures Normalise(fp) == fp
  {
    assert fp != "" ==> fp[0] in fp && fp[|fp| - 1] in fp;
    assert TrimLeft(fp) == fp && TrimRight(fp) == fp;
    assert ToLower(fp) == fp by {
      forall i | 0 <= i < |fp| ensures ToLower(fp)[i] == fp[i] { assert fp[i] in fp; }
    }
    if fp != "" {
      var n := WordLength(fp);
      assert forall i :: 0 <= i < |fp| ==> fp[i] in fp;
      assert fp[..n] == fp && fp[n..] == "";
      assert Fields(fp) == [fp];
    }
  }

  lemma {:induction false} FieldsSkipLeadingSpace(s: string)
    ensures Fields(TrimLeft(s)) == Fields(s)
  {
    if s != "" && IsSpace(s[0]) { FieldsSkipLeadingSpace(s[1..]); }
  }

  lemma {:induction false} FieldsSkipTrailingSpace(s: string, c: char)
    requires IsSpace(c)
    ensures Fields(s + [c]) == Fields(s)
    decreases |s|
  {
    var t := s + [c];
    if s == "" {
      assert t[1..] == "";
    } else if IsSpace(s[0]) {
      assert t[1..] == s[1..] + [c];
      FieldsSkipTrailingSpace(s[1..], c);
    } else {
      var n := WordLength(s);
      SameWord(s, t, n);
      assert t[..n] == s[..n] && t[n..] == s[n..] + [c];
      FieldsSkipTrailingSpace(s[n..], c);
    }
  }

  lemma SameWord(s: string, t: string, n: nat)
    requires n == WordLength(s) && |s| < |t| && t[..|s|] == s && IsSpace(t[|s|])
    ensures WordLength(t) == n
  {
    assert forall i :: 0 <= i < |s| ==> t[i] == s[i];
    assert IsSpace(t[n]);
  }

  /** Spelling differences that do not matter: surrounding white space and the case of letters. */
  lemma NormaliseIgnoresPadding(fp: string, c: char)
    requires IsSpace(c)
    ensures Normalise([c] + fp) == Normalise(fp) == Normalise(fp + [c])
  {
    assert TrimLeft([c] + fp) == TrimLeft(fp) by { assert ([c] + fp)[1..] == fp; }
    assert Normalise(fp) == Join(Fields(ToLower(fp))) by { NormaliseIsFields(fp); }
    assert Normalise(fp + [c]) == Join(Fields(ToLower(fp + [c]))) by { NormaliseIsFields(fp + [c]); }
    LowerAppend(fp, c);
    assert Fields(ToLower(fp) + [LowerChar(c)]) == Fields(ToLower(fp)) by {
      LowerKeepsSpace(c);
      FieldsSkipTrailingSpace(ToLower(fp), LowerChar(c));
    }
  }

  lemma LowerAppend(s: string, c: char)
    ensures ToLower(s + [c]) == ToLower(s) + [LowerChar(c)]
  {}

  lemma LowerTwice(s: string)
    ensures ToLower(ToLower(s)) == ToLower(s)
  {}

  lemma NormaliseIgnoresCase(fp: string)
    ensures Normalise(ToLower(fp)) == Normalise(fp)
  {
    assert Normalise(fp) == Join(Fields(ToLower(fp))) by { NormaliseIsFields(fp); }
    assert Normalise(ToLower(fp)) == Join(Fields(ToLower(ToLower(fp)))) by { NormaliseIsFields(ToLower(fp)); }
    LowerTwice(fp);
  }

  lemma LowerKeepsSpace(c: char)
    ensures IsSpace(LowerChar(c)) == IsSpace(c)
  {}

  /** Trimming before splitting into fields changes nothing. */
  lemma NormaliseIsFields(fp: string)
    ensures Normalise(fp) == Join(Fields(ToLower(fp)))
  {
    LowerTrimLeft(fp);
    LowerTrimRight(TrimLeft(fp));
    FieldsSkipLeadingSpace(ToLower(fp));
    FieldsOfTrimRight(ToLower(TrimLeft(fp)));
  }

  /** Two texts with white space between them are joined by a dash ... */
  lemma NormaliseJoins(s: string, c: char, t: string)
    requires IsSpace(c)
    ensures Normalise(s + [c] + t) ==
      if Normalise(s) == "" then Normalise(t)
      else if Normalise(t) == "" then Normalise(s)
      else Normalise(s) + "-" + Normalise(t)
  {
    var low, other := ToLower(s), ToLower(t);
    assert ToLower(s + [c] + t) == low + [LowerChar(c)] + other;
    NormaliseIsFields(s);
    NormaliseIsFields(t);
    NormaliseIsFields(s + [c] + t);
    LowerKeepsSpace(c);
    FieldsSplit(low, LowerChar(c), other);
    JoinSplit(Fields(low), Fields(other));
    WordsAreNotEmpty(low);
    WordsAreNotEmpty(other);
  }

  /** ... and one without any is only lower-cased. */
  lemma NormaliseWord(s: string)
    requires forall c :: c in s ==> !IsSpace(c)
    ensures |Normalise(s)| == |s|
    ensures forall i :: 0 <= i < |s| ==>
      Normalise(s)[i] as int == s[i] as int + if 'A' <= s[i] <= 'Z' then 32 else 0
  {
    var low := ToLower(s);
    NormaliseIsFields(s);
    forall i | 0 <= i < |s| ensures !IsSpace(low[i]) {
      assert s[i] in s;
      LowerKeepsSpace(s[i]);
    }
    if s != "" {
      assert WordLength(low) == |low|;
      assert low[..|low|] == low && low[|low|..] == "";
      assert Fields(low) == [low];
    }
  }

  lemma {:induction false} FieldsSplit(s: string, c: char, t: string)
    requires IsSpace(c)
    ensures Fields(s + [c] + t) == Fields(s) + Fields(t)
    decreases |s|
  {
    var all := s + [c] + t;
    if s == "" {
      assert all[1..] == t;
    } else if IsSpace(s[0]) {
      DropOf(s, c, t, 1);
      FieldsSplit(s[1..], c, t);
    } else {
      var n := WordLength(s);
      DropOf(s, c, t, n);
      assert WordLength(all) == n by { SameWord(s, all, n); }
      FieldsSplit(s[n..], c, t);
      assert Fields(all) == [s[..n]] + Fields(all[n..]);
    }
  }

  lemma DropOf(s: string, c: char, t: string, n: nat)
    requires n <= |s|
    ensures (s + [c] + t)[..n] == s[..n] && (s + [c] + t)[n..] == s[n..] + [c] + t
  {}

  lemma {:induction false} JoinSplit(xs: seq<string>, ys: seq<string>)
    ensures Join(xs + ys) ==
      if xs == [] then Join(ys) else if ys == [] then Join(xs) else Join(xs) + "-" + Join(ys)
  {
    if xs == [] {
      assert xs + ys == ys;
    } else if ys == [] {
      assert xs + ys == xs;
    } else {
      JoinSplit(xs[1..], ys);
      assert (xs + ys)[1..] == xs[1..] + ys;
    }
  }

  lemma {:induction false} WordsAreNotEmpty(s: string)
    ensures Join(Fields(s)) == "" <==> Fields(s) == []
    decreases |s|
  {
    if s != "" {
      if IsSpace(s[0]) {
        WordsAreNotEmpty(s[1..]);
      } else {
        assert Fields(s)[0] == s[..WordLength(s)] && WordLength(s) > 0;
      }
    }
  }

  lemma {:induction false} FieldsOfTrimRight(s: string)
    ensures Fields(TrimRight(s)) == Fields(s)
    decreases |s|
  {
    if s != "" && IsSpace(s[|s| - 1]) {
      FieldsOfTrimRight(s[..|s| - 1]);
      FieldsSkipTrailingSpace(s[..|s| - 1], s[|s| - 1]);
      assert s == s[..|s| - 1] + [s[|s| - 1]];
    }
  }

  lemma {:induction false} LowerTrimLeft(s: string)
    ensures ToLower(TrimLeft(s)) == TrimLeft(ToLower(s))
  {
    if s != "" {
      LowerKeepsSpace(s[0]);
      LowerTrimLeft(s[1..]);
      assert ToLower(s)[1..] == ToLower(s[1..]);
    }
  }

  lemma {:induction false} LowerTrimRight(s: string)
    ensures ToLower(TrimRight(s)) == TrimRight(ToLower(s))
  {
    if s != "" {
      var n := |s| - 1;
      LowerKeepsSpace(s[n]);
      LowerTrimRight(s[..n]);
      assert ToLower(s)[..n] == ToLower(s[..n]);
    }
  }

  // ---------------------------------------------------------------- the ledger as a value

  /** Times are whole seconds; the program compares their RFC 3339 texts. */
  datatype Status = Open | Resolved
  datatype Mark = Unset | At(time: nat)
  datatype Action = Action(time: nat, note: string)
  datatype Incident = Incident(
    fingerprint: string, title: string, detail: string, severity: string, status: Status,
    firstSeen: nat, lastSeen: nat, timesSeen: nat, actions: seq<Action>,
    resolvedAt: Mark, resolution: string)

  /** `now` is the clock read by the operation, `saved` the one read while saving. */
  datatype Op =
    | Report(fp: string, title: string, detail: string, severity: string, now: nat, saved: nat)
    | LogAction(fp: string, note: string, now: nat, saved: nat)
    | Resolve(fp: string, resolution: string, now: nat, saved: nat)

  function Target(op: Op): string { Normalise(op.fp) }

  /** Open before resolved, then the most recently seen first. */
  predicate Before(x: Incident, y: Incident) {
    if x.status != y.status then x.status.Open? else x.lastSeen >= y.lastSeen
  }

  lemma BeforeIsOrder()
    ensures TotalPreorder(Before)
  {}

  predicate Expired(x: Incident, cutoff: int) {
    x.status.Resolved? && x.resolvedAt.At? && x.resolvedAt.time < cutoff
  }

  /** A resolution is forgotten by the first save more than thirty days after it. */
  lemma ExpiredMeans(x: Incident, op: Op)
    ensures Expired(x, Cutoff(op)) <==>
      x.status.Resolved? && x.resolvedAt.At? && op.saved - x.resolvedAt.time > 2_592_000
  {}

  function Keep(list: seq<Incident>, cutoff: int): (kept: seq<Incident>)
    ensures |kept| <= |list|
  {
    if list == [] then []
    else
      var n := |list| - 1;
      Keep(list[..n], cutoff) + if Expired(list[n], cutoff) then [] else [list[n]]
  }

  function Saved(list: seq<Incident>, cutoff: int): seq<Incident> {
    var kept := Keep(list, cutoff);
    var sorted := StableSort(kept, Before);
    if |kept| > MAX_INCIDENTS && |sorted| == |kept| then sorted[..MAX_INCIDENTS] else kept
  }

  function Created(op: Op): Incident
    requires op.Report?
  {
    Incident(Target(op), op.title, op.detail, op.severity, Open, op.now, op.now, 1, [], Unset, "")
  }

  const RECURRED := "recurred after being resolved — reopened"

  function Touched(x: Incident, op: Op): Incident {
    match op
    case Report(_, title, detail, severity, now, _) =>
      var y := if x.status.Open? then x
               else x.(resolvedAt := Unset, resolution := "",
                       actions := x.actions + [Action(now, RECURRED)]);
      y.(status := Open, lastSeen := now, timesSeen := x.timesSeen + 1,
         title := if title != "" then title else x.title,
         detail := if detail != "" then detail else x.detail,
         severity := if severity != "" then severity else x.severity)
    case LogAction(_, note, now, _) =>
      x.(actions := x.actions + [Action(now, note)], lastSeen := now)
    case Resolve(_, resolution, now, _) =>
      if x.status.Resolved? then x
      else x.(status := Resolved, resolvedAt := At(now), resolution := resolution)
  }

  /** The first entry filed under fp, or the length of the list. */
  function Find(list: seq<Incident>, fp: string): (i: nat)
    ensures i <= |list|
    ensures i < |list| ==> list[i].fingerprint == fp
    ensures forall j :: 0 <= j < i ==> list[j].fingerprint != fp
  {
    if list == [] || list[0].fingerprint == fp then 0 else 1 + Find(list[1..], fp)
  }

  /** The list an operation hands to `save`, or NoEdit when it saves nothing. */
  datatype Edit = NoEdit | Edit(list: seq<Incident>)

  function Edited(loaded: seq<Incident>, op: Op): Edit {
    var i := Find(loaded, Target(op));
    if op.Report? && Target(op) == "" then NoEdit
    else if i < |loaded| then
      if op.Resolve? && loaded[i].status.Resolved? then NoEdit
      else Edit(loaded[i := Touched(loaded[i], op)])
    else if op.Report? then Edit(loaded + [Created(op)])
    else NoEdit
  }

  function Cutoff(op: Op): int { op.saved - RESOLVED_RETENTION }

  function Step(stored: seq<Incident>, op: Op): seq<Incident> {
    match Edited(StableSort(stored, Before), op)
    case NoEdit => stored
    case Edit(list) => Saved(list, Cutoff(op))
  }

  /** The ledgers an empty one goes through. */
  ghost predicate IsRun(ops: seq<Op>, ledgers: seq<seq<Incident>>) {
    && |ledgers| == |ops| + 1 && ledgers[0] == []
    && forall i :: 0 <= i < |ops| ==> ledgers[i + 1] == Step(ledgers[i], ops[i])
  }

  // ---------------------------------------------------------------- what saving keeps

  lemma {:induction false} KeepConcat(xs: seq<Incident>, ys: seq<Incident>, cutoff: int)
    ensures Keep(xs + ys, cutoff) == Keep(xs, cutoff) + Keep(ys, cutoff)
  {
    if ys == [] {
      assert xs + ys == xs;
    } else {
      var n := |ys| - 1;
      assert (xs + ys)[..|xs + ys| - 1] == xs + ys[..n];
      KeepConcat(xs, ys[..n], cutoff);
    }
  }

  lemma InFrontOrLast(list: seq<Incident>, x: Incident)
    requires list != []
    ensures x in list <==> x in list[..|list| - 1] || x == list[|list| - 1]
  {
    assert list == list[..|list| - 1] + [list[|list| - 1]];
  }

  lemma {:induction false} KeepMember(list: seq<Incident>, cutoff: int, x: Incident)
    ensures x in Keep(list, cutoff) <==> x in list && !Expired(x, cutoff)
  {
    if list != [] {
      KeepMember(list[..|list| - 1], cutoff, x);
      InFrontOrLast(list, x);
    }
  }

  lemma {:induction false} KeepCounts(list: seq<Incident>, cutoff: int)
    ensures |Keep(list, cutoff)| == |list| <==> forall x :: x in list ==> !Expired(x, cutoff)
  {
    if list != [] {
      var n := |list| - 1;
      KeepCounts(list[..n], cutoff);
      forall x ensures x in list <==> x in list[..n] || x == list[n] { InFrontOrLast(list, x); }
    }
  }

  lemma KeepMembers(list: seq<Incident>, cutoff: int)
    ensures forall x :: x in Keep(list, cutoff) <==> x in list && !Expired(x, cutoff)
    ensures |Keep(list, cutoff)| == |list| <==> forall x :: x in list ==> !Expired(x, cutoff)
  {
    forall x ensures x in Keep(list, cutoff) <==> x in list && !Expired(x, cutoff) {
      KeepMember(list, cutoff, x);
    }
    KeepCounts(list, cutoff);
  }

  lemma {:induction false} KeepIsPart(list: seq<Incident>, cutoff: int)
    ensures multiset(Keep(list, cutoff)) <= multiset(list)
  {
    if list != [] {
      var n := |list| - 1;
      KeepIsPart(list[..n], cutoff);
      assert multiset(list) == multiset(list[..n]) + multiset{list[n]} by { assert list == list[..n] + [list[n]]; }
    }
  }

  lemma {:induction false} KeepAll(list: seq<Incident>, cutoff: int)
    requires forall x :: x in list ==> !Expired(x, cutoff)
    ensures Keep(list, cutoff) == list
  {
    if list != [] {
      var n := |list| - 1;
      KeepAll(list[..n], cutoff);
      assert list == list[..n] + [list[n]];
    }
  }

  /** At most one entry per fingerprint. */
  ghost predicate OnePerFingerprint(list: seq<Incident>) {
    forall i, j :: 0 <= i < j < |list| ==> list[i].fingerprint != list[j].fingerprint
  }

  /** The entry-wise part: normalised nonempty fingerprint, resolved exactly when stamped. */
  predicate EntryOk(x: Incident) {
    && x.fingerprint != "" && Normalise(x.fingerprint) == x.fingerprint
    && (x.status.Resolved? <==> x.resolvedAt.At?)
    && x.timesSeen >= 1
  }

  ghost predicate LedgerOk(list: seq<Incident>) {
    && OnePerFingerprint(list) && |list| <= MAX_INCIDENTS
    && forall x :: x in list ==> EntryOk(x)
  }

  /** Rearranging and dropping entries leaves one per fingerprint. */
  lemma OnePerFingerprintPart(part: seq<Incident>, whole: seq<Incident>)
    requires OnePerFingerprint(whole) && multiset(part) <= multiset(whole)
    ensures OnePerFingerprint(part)
    ensures forall x :: x in part ==> x in whole
  {
    DistinctPart(part, whole);
    forall i, j | 0 <= i < j < |part| ensures part[i].fingerprint != part[j].fingerprint {
      assert part[i] in whole && part[j] in whole && part[i] != part[j];
    }
  }

  /**
   * What survives a save: nothing expired; at most a hundred; and when something unexpired
   * has to go, a hundred entries stay and each of them comes before it.
   */
  lemma SavedOk(list: seq<Incident>, cutoff: int)
    ensures multiset(Saved(list, cutoff)) <= multiset(list)
    ensures forall x :: x in Saved(list, cutoff) ==> !Expired(x, cutoff)
    ensures |Saved(list, cutoff)| <= MAX_INCIDENTS
    ensures forall x :: x in list && !Expired(x, cutoff) && x !in Saved(list, cutoff) ==>
      |Saved(list, cutoff)| == MAX_INCIDENTS &&
      forall y :: y in Saved(list, cutoff) ==> Before(y, x)
  {
    var kept := Keep(list, cutoff);
    KeepMembers(list, cutoff);
    KeepIsPart(list, cutoff);
    if |kept| > MAX_INCIDENTS { FrontOfSorted(kept); }
  }

  lemma FrontOfSorted(kept: seq<Incident>)
    requires |kept| > MAX_INCIDENTS
    ensures |StableSort(kept, Before)| == |kept|
    ensures var r := StableSort(kept, Before)[..MAX_INCIDENTS];
      && multiset(r) <= multiset(kept)
      && (forall x :: x in r ==> x in kept)
      && forall x, y :: x in kept && x !in r && y in r ==> Before(y, x)
  {
    BeforeIsOrder();
    StableSortOk(kept, Before);
    SortedFront(StableSort(kept, Before), kept, Before, MAX_INCIDENTS);
  }

  // ---------------------------------------------------------------- every run keeps the ledger good

  lemma LoadedOk(stored: seq<Incident>)
    requires LedgerOk(stored)
    ensures LedgerOk(StableSort(stored, Before))
    ensures Ordered(StableSort(stored, Before), Before)
    ensures |StableSort(stored, Before)| == |stored|
    ensures forall x :: x in StableSort(stored, Before) <==> x in stored
  {
    BeforeIsOrder();
    StableSortOk(stored, Before);
    OnePerFingerprintPart(StableSort(stored, Before), stored);
    forall x | x in stored ensures x in StableSort(stored, Before) { assert x in multiset(stored); }
  }

  /** What an operation makes of one entry. */
  function Follow(x: Incident, op: Op): Incident {
    if Target(op) == x.fingerprint then Touched(x, op) else x
  }

  ghost predicate Listed(list: seq<Incident>, fp: string) {
    exists x :: x in list && x.fingerprint == fp
  }

  lemma FollowOk(x: Incident, op: Op)
    requires EntryOk(x)
    ensures EntryOk(Follow(x, op)) && Follow(x, op).fingerprint == x.fingerprint
  {}

  lemma CreatedOk(op: Op)
    requires op.Report? && Target(op) != ""
    ensures EntryOk(Created(op)) && Created(op).fingerprint == Target(op)
  {
    NormaliseFixesExactly(op.fp);
  }

  /** An edit follows every entry and adds at most the one just created. */
  lemma EditedOk(loaded: seq<Incident>, op: Op)
    requires LedgerOk(loaded)
    ensures Edited(loaded, op).NoEdit? ==>
      && (forall x :: x in loaded ==> Follow(x, op) == x)
      && (op.Report? ==> Target(op) == "")
    ensures Edited(loaded, op).Edit? ==>
      var list := Edited(loaded, op).list;
      && OnePerFingerprint(list)
      && (forall x :: x in list ==> EntryOk(x))
      && (forall x :: x in loaded ==> Follow(x, op) in list)
      && (forall x :: x in list ==>
            || (exists y :: y in loaded && x == Follow(y, op))
            || (op.Report? && x == Created(op) && !Listed(loaded, Target(op))))
      && (Listed(loaded, Target(op)) ==> |list| == |loaded|)
  {
    var fp := Target(op);
    var i := Find(loaded, fp);
    if i < |loaded| {
      assert forall j :: 0 <= j < |loaded| && j != i ==> loaded[j].fingerprint != fp;
      if Edited(loaded, op).Edit? { UpdatedOk(loaded, i, op); }
    } else {
      assert !Listed(loaded, fp);
      if op.Report? && fp != "" {
        CreatedOk(op);
        var list := loaded + [Created(op)];
        forall x | x in loaded ensures Follow(x, op) in list { assert Follow(x, op) == x; }
      }
    }
  }

  lemma UpdatedOk(loaded: seq<Incident>, i: nat, op: Op)
    requires LedgerOk(loaded) && i < |loaded| && loaded[i].fingerprint == Target(op)
    ensures var list := loaded[i := Touched(loaded[i], op)];
      && OnePerFingerprint(list)
      && (forall x :: x in list ==> EntryOk(x))
      && (forall x :: x in loaded ==> Follow(x, op) in list)
      && (forall x :: x in list ==> exists y :: y in loaded && x == Follow(y, op))
  {
    var list := loaded[i := Touched(loaded[i], op)];
    FollowOk(loaded[i], op);
    forall j | 0 <= j < |loaded| ensures list[j] == Follow(loaded[j], op) {
      if j < i { assert loaded[j].fingerprint != loaded[i].fingerprint; }
      if i < j { assert loaded[i].fingerprint != loaded[j].fingerprint; }
    }
    forall x | x in list ensures EntryOk(x) && exists y :: y in loaded && x == Follow(y, op) {
      var j :| 0 <= j < |list| && list[j] == x;
      assert loaded[j] in loaded;
      FollowOk(loaded[j], op);
    }
    forall x | x in loaded ensures Follow(x, op) in list {
      var j :| 0 <= j < |loaded| && loaded[j] == x;
      assert list[j] == Follow(x, op);
    }
  }

  /** Every entry after an operation is a followed old one or the one it created. */
  lemma StepFrom(stored: seq<Incident>, op: Op)
    requires LedgerOk(stored)
    ensures LedgerOk(Step(stored, op))
    ensures forall x :: x in Step(stored, op) ==>
      || (exists y :: y in stored && x == Follow(y, op))
      || (op.Report? && x == Created(op) && !Listed(stored, Target(op)))
  {
    var loaded := StableSort(stored, Before);
    LoadedOk(stored);
    EditedOk(loaded, op);
    match Edited(loaded, op)
    case NoEdit =>
      forall x | x in stored ensures x == Follow(x, op) { assert x in loaded; }
    case Edit(list) =>
      SavedOk(list, Cutoff(op));
      OnePerFingerprintPart(Saved(list, Cutoff(op)), list);
  }

  /**
   * An operation loses an entry only because its resolution is older than the retention or
   * because a hundred entries that come before it stay.
   */
  lemma DroppedOnlyWhen(stored: seq<Incident>, op: Op, x: Incident)
    requires LedgerOk(stored) && x in stored
    requires !Listed(Step(stored, op), x.fingerprint)
    ensures
      || Expired(Follow(x, op), Cutoff(op))
      || (|Step(stored, op)| == MAX_INCIDENTS &&
          forall y :: y in Step(stored, op) ==> Before(y, Follow(x, op)))
  {
    var loaded := StableSort(stored, Before);
    LoadedOk(stored);
    EditedOk(loaded, op);
    FollowOk(x, op);
    assert Follow(x, op) !in Step(stored, op);
    assert x in loaded;
    if Edited(loaded, op).Edit? {
      SavedOk(Edited(loaded, op).list, Cutoff(op));
    }
  }

  /** An open incident gives way only to a hundred open ones seen at least as recently. */
  lemma OpenDroppedOnlyForOpen(stored: seq<Incident>, op: Op, x: Incident)
    requires LedgerOk(stored) && x in stored && Follow(x, op).status.Open?
    requires !Listed(Step(stored, op), x.fingerprint)
    ensures |Step(stored, op)| == MAX_INCIDENTS
    ensures forall y :: y in Step(stored, op) ==>
      y.status.Open? && y.lastSeen >= Follow(x, op).lastSeen
  {
    DroppedOnlyWhen(stored, op, x);
  }

  lemma {:induction false} RunKeepsLedger(ops: seq<Op>, ledgers: seq<seq<Incident>>, n: nat)
    requires IsRun(ops, ledgers) && n <= |ops|
    ensures LedgerOk(ledgers[n])
  {
    if n > 0 {
      RunKeepsLedger(ops, ledgers, n - 1);
      NextOk(ledgers[n - 1], ops[n - 1], ledgers[n]);
    }
  }

  lemma NextOk(stored: seq<Incident>, op: Op, next: seq<Incident>)
    requires LedgerOk(stored) && next == Step(stored, op)
    ensures LedgerOk(next)
  {
    StepFrom(stored, op);
  }

  // ---------------------------------------------------------------- an entry tells its own story

  /** Operation k created the entry for fp, which has been on file up to ledger n. */
  ghost predicate OnFileSince(ops: seq<Op>, ledgers: seq<seq<Incident>>, k: nat, n: nat, fp: string)
    requires |ledgers| == |ops| + 1
  {
    && k < n <= |ops| && ops[k].Report? && Target(ops[k]) == fp
    && !Listed(ledgers[k], fp)
    && forall j :: k < j <= n ==> Listed(ledgers[j], fp)
  }

  /** What the operations say about one fingerprint, with no ledger, retention or cap involved. */
  function Story(ops: seq<Op>): Incident
    requires ops != [] && ops[0].Report?
  {
    if |ops| == 1 then Created(ops[0])
    else Follow(Story(ops[..|ops| - 1]), ops[|ops| - 1])
  }

  lemma EntryFrom(ops: seq<Op>, ledgers: seq<seq<Incident>>, m: nat, x: Incident)
    requires IsRun(ops, ledgers) && m < |ops| && x in ledgers[m + 1]
    ensures
      || (exists y :: y in ledgers[m] && x == Follow(y, ops[m]) && x.fingerprint == y.fingerprint)
      || (ops[m].Report? && x == Created(ops[m]) && !Listed(ledgers[m], Target(ops[m])))
  {
    RunKeepsLedger(ops, ledgers, m);
    StepFrom(ledgers[m], ops[m]);
    if y :| y in ledgers[m] && x == Follow(y, ops[m]) { FollowOk(y, ops[m]); }
  }

  /** x is what the operations since k, which put its fingerprint on file, say about it. */
  ghost predicate TellsStory(ops: seq<Op>, ledgers: seq<seq<Incident>>, k: nat, n: nat, x: Incident)
    requires |ledgers| == |ops| + 1
  {
    OnFileSince(ops, ledgers, k, n, x.fingerprint) && x == Story(ops[k..n])
  }

  lemma StoryContinues(ops: seq<Op>, ledgers: seq<seq<Incident>>, k: nat, m: nat, y: Incident, x: Incident)
    requires |ledgers| == |ops| + 1 && m < |ops| && TellsStory(ops, ledgers, k, m, y)
    requires x in ledgers[m + 1] && x == Follow(y, ops[m]) && x.fingerprint == y.fingerprint
    ensures TellsStory(ops, ledgers, k, m + 1, x)
  {
    assert Listed(ledgers[m + 1], x.fingerprint);
    StoryStep(ops, k, m);
  }

  lemma StoryBegins(ops: seq<Op>, ledgers: seq<seq<Incident>>, m: nat, x: Incident)
    requires |ledgers| == |ops| + 1 && m < |ops| && x in ledgers[m + 1]
    requires ops[m].Report? && x == Created(ops[m]) && !Listed(ledgers[m], Target(ops[m]))
    ensures TellsStory(ops, ledgers, m, m + 1, x)
  {
    assert ops[m..m + 1] == [ops[m]];
    assert Listed(ledgers[m + 1], x.fingerprint);
  }

  /** Every stored incident is the story of the operations since it was last created. */
  lemma {:induction false} StoredIsStory(ops: seq<Op>, ledgers: seq<seq<Incident>>, n: nat, x: Incident)
    requires IsRun(ops, ledgers) && n <= |ops| && x in ledgers[n]
    ensures exists k: nat :: TellsStory(ops, ledgers, k, n, x)
  {
    var m := n - 1;
    EntryFrom(ops, ledgers, m, x);
    if y :| y in ledgers[m] && x == Follow(y, ops[m]) && x.fingerprint == y.fingerprint {
      StoredIsStory(ops, ledgers, m, y);
      var k: nat :| TellsStory(ops, ledgers, k, m, y);
      StoryContinues(ops, ledgers, k, m, y, x);
    } else {
      StoryBegins(ops, ledgers, m, x);
    }
  }

  lemma StoryStep(ops: seq<Op>, k: nat, m: nat)
    requires k < m < |ops| && ops[k].Report?
    ensures Story(ops[k..m + 1]) == Follow(Story(ops[k..m]), ops[m])
  {
    StoryUnfold(ops[k..m], ops[m], ops[k..m + 1]);
  }

  lemma StoryUnfold(before: seq<Op>, op: Op, after: seq<Op>)
    requires before != [] && before[0].Report? && after == before + [op]
    ensures Story(after) == Follow(Story(before), op)
  {
    assert after[..|after| - 1] == before;
  }

  function Reports(ops: seq<Op>, fp: string): nat {
    if ops == [] then 0
    else Reports(ops[..|ops| - 1], fp) +
         if ops[|ops| - 1].Report? && Target(ops[|ops| - 1]) == fp then 1 else 0
  }

  /** Operation k resolves fp, and no report of it follows. */
  ghost predicate StandingResolution(ops: seq<Op>, k: nat, fp: string) {
    && k < |ops| && ops[k].Resolve? && Target(ops[k]) == fp
    && forall j :: k < j < |ops| && ops[j].Report? ==> Target(ops[j]) != fp
  }

  ghost predicate ResolvedLast(ops: seq<Op>, fp: string) {
    exists k: nat :: StandingResolution(ops, k, fp)
  }

  lemma {:induction false} StoryMeans(ops: seq<Op>)
    requires ops != [] && ops[0].Report?
    ensures var fp := Target(ops[0]);
      && Story(ops).fingerprint == fp
      && Story(ops).firstSeen == ops[0].now
      && Story(ops).timesSeen == Reports(ops, fp)
      && (Story(ops).status.Resolved? <==> ResolvedLast(ops, fp))
  {
    var fp, n := Target(ops[0]), |ops| - 1;
    if n == 0 {
      assert Reports(ops[..0], fp) == 0;
    } else {
      var before, op := ops[..n], ops[n];
      StoryMeans(before);
      ResolvedLastStep(ops, fp);
    }
  }

  lemma ResolvedLastStep(ops: seq<Op>, fp: string)
    requires ops != []
    ensures var n := |ops| - 1;
      ResolvedLast(ops, fp) <==>
        if Target(ops[n]) != fp || ops[n].LogAction? then ResolvedLast(ops[..n], fp)
        else ops[n].Resolve?
  {
    var op := ops[|ops| - 1];
    if op.LogAction? || Target(op) != fp {
      UnconcernedStep(ops, fp);
    } else if op.Resolve? {
      assert StandingResolution(ops, |ops| - 1, fp);
    }
  }

  lemma UnconcernedStep(ops: seq<Op>, fp: string)
    requires ops != [] && (ops[|ops| - 1].LogAction? || Target(ops[|ops| - 1]) != fp)
    ensures ResolvedLast(ops, fp) <==> ResolvedLast(ops[..|ops| - 1], fp)
  {
    if k: nat :| StandingResolution(ops, k, fp) { StandingShrinks(ops, k, fp); }
    var before := ops[..|ops| - 1];
    if k: nat :| StandingResolution(before, k, fp) { StandingGrows(ops, k, fp); }
  }

  lemma StandingShrinks(ops: seq<Op>, k: nat, fp: string)
    requires k < |ops| - 1 && StandingResolution(ops, k, fp)
    ensures StandingResolution(ops[..|ops| - 1], k, fp)
  {}

  lemma StandingGrows(ops: seq<Op>, k: nat, fp: string)
    requires ops != [] && StandingResolution(ops[..|ops| - 1], k, fp)
    requires ops[|ops| - 1].Report? ==> Target(ops[|ops| - 1]) != fp
    ensures StandingResolution(ops, k, fp)
  {
    var before := ops[..|ops| - 1];
    forall j | k < j < |ops| && ops[j].Report? ensures Target(ops[j]) != fp {
      assert j < |before| ==> before[j] == ops[j];
    }
  }

  /** Operation k is the last report of fp or action on it. */
  ghost predicate SeenLast(ops: seq<Op>, k: nat, fp: string) {
    && k < |ops| && Target(ops[k]) == fp && !ops[k].Resolve?
    && forall j :: k < j < |ops| && Target(ops[j]) == fp ==> ops[j].Resolve?
  }

  datatype Text = Title | Detail | Severity

  function Said(op: Op, text: Text): string
    requires op.Report?
  {
    match text
    case Title => op.title
    case Detail => op.detail
    case Severity => op.severity
  }

  function Shown(x: Incident, text: Text): string {
    match text
    case Title => x.title
    case Detail => x.detail
    case Severity => x.severity
  }

  /** Operation k is the last report of fp that gave this text, or the first report if none did. */
  ghost predicate GivenLast(ops: seq<Op>, k: nat, fp: string, text: Text) {
    && k < |ops| && Target(ops[k]) == fp && ops[k].Report? && (k == 0 || Said(ops[k], text) != "")
    && forall j :: k < j < |ops| && Target(ops[j]) == fp && ops[j].Report? ==> Said(ops[j], text) == ""
  }

  /** Operation k is the first resolution of fp after its last report. */
  ghost predicate ResolvedFirst(ops: seq<Op>, k: nat, fp: string) {
    StandingResolution(ops, k, fp) && forall j: nat :: j < k ==> !StandingResolution(ops, j, fp)
  }

  /** The actions taken, and a note for every report that came while fp was resolved. */
  ghost function Noted(ops: seq<Op>, fp: string): seq<Action> {
    if ops == [] then []
    else
      var (before, op) := (ops[..|ops| - 1], ops[|ops| - 1]);
      Noted(before, fp) +
        if Target(op) != fp || op.Resolve? then []
        else if op.LogAction? then [Action(op.now, op.note)]
        else if ResolvedLast(before, fp) then [Action(op.now, "recurred after being resolved — reopened")]
        else []
  }

  ghost predicate SeenThen(ops: seq<Op>, x: Incident) {
    exists k: nat :: SeenLast(ops, k, x.fingerprint) && x.lastSeen == ops[k].now
  }

  ghost predicate ShowsText(ops: seq<Op>, x: Incident, text: Text) {
    exists k: nat :: GivenLast(ops, k, x.fingerprint, text) && Shown(x, text) == Said(ops[k], text)
  }

  ghost predicate ResolvedThen(ops: seq<Op>, x: Incident) {
    exists k: nat :: ResolvedFirst(ops, k, x.fingerprint) &&
      x.resolvedAt == At(ops[k].now) && x.resolution == ops[k].resolution
  }

  /** x as a stretch of operations describes it, field by field. */
  ghost predicate Recorded(ops: seq<Op>, x: Incident)
    requires ops != []
  {
    && x.firstSeen == ops[0].now
    && x.timesSeen == Reports(ops, x.fingerprint)
    && (x.status.Resolved? <==> ResolvedLast(ops, x.fingerprint))
    && SeenThen(ops, x)
    && (forall text :: ShowsText(ops, x, text))
    && (if x.status.Resolved? then ResolvedThen(ops, x) else x.resolvedAt == Unset && x.resolution == "")
    && x.actions == Noted(ops, x.fingerprint)
  }

  lemma {:induction false} StorySeen(ops: seq<Op>)
    requires ops != [] && ops[0].Report?
    ensures SeenThen(ops, Story(ops))
  {
    var n := |ops| - 1;
    if n == 0 {
      SeenFirst(ops[0], ops);
    } else {
      var before, op := ops[..n], ops[n];
      assert ops == before + [op];
      StorySeen(before);
      SeenCarries(before, op, ops);
    }
  }

  lemma SeenFirst(op: Op, ops: seq<Op>)
    requires op.Report? && ops == [op]
    ensures SeenThen(ops, Story(ops))
  {
    assert SeenLast(ops, 0, Target(op));
  }

  lemma SeenCarries(before: seq<Op>, op: Op, ops: seq<Op>)
    requires ops == before + [op] && before != [] && before[0].Report? && SeenThen(before, Story(before))
    ensures SeenThen(ops, Story(ops))
  {
    StoryUnfold(before, op, ops);
    SeenStep(before, op, ops, Story(before));
  }

  lemma SeenStep(before: seq<Op>, op: Op, ops: seq<Op>, x: Incident)
    requires ops == before + [op] && SeenThen(before, x)
    ensures SeenThen(ops, Follow(x, op))
  {
    var fp := x.fingerprint;
    FollowKeepsName(x, op);
    if Target(op) == fp && !op.Resolve? {
      assert SeenLast(ops, |before|, fp);
    } else {
      var k: nat :| SeenLast(before, k, fp) && x.lastSeen == before[k].now;
      assert SeenLast(ops, k, fp);
    }
  }

  lemma FollowKeepsName(x: Incident, op: Op)
    ensures Follow(x, op).fingerprint == x.fingerprint
  {}

  lemma {:induction false} StoryText(ops: seq<Op>, text: Text)
    requires ops != [] && ops[0].Report?
    ensures ShowsText(ops, Story(ops), text)
  {
    var n := |ops| - 1;
    if n == 0 {
      TextFirst(ops[0], ops, text);
    } else {
      var before, op := ops[..n], ops[n];
      assert ops == before + [op];
      StoryText(before, text);
      TextCarries(before, op, ops, text);
    }
  }

  lemma TextFirst(op: Op, ops: seq<Op>, text: Text)
    requires op.Report? && ops == [op]
    ensures ShowsText(ops, Story(ops), text)
  {
    assert GivenLast(ops, 0, Target(op), text);
  }

  lemma TextCarries(before: seq<Op>, op: Op, ops: seq<Op>, text: Text)
    requires ops == before + [op] && before != [] && before[0].Report? && ShowsText(before, Story(before), text)
    ensures ShowsText(ops, Story(ops), text)
  {
    StoryUnfold(before, op, ops);
    TextStep(before, op, ops, Story(before), text);
  }

  lemma TextStep(before: seq<Op>, op: Op, ops: seq<Op>, x: Incident, text: Text)
    requires ops == before + [op] && ShowsText(before, x, text)
    ensures ShowsText(ops, Follow(x, op), text)
  {
    var fp := x.fingerprint;
    FollowKeepsName(x, op);
    if Target(op) == fp && op.Report? && Said(op, text) != "" {
      assert GivenLast(ops, |before|, fp, text);
    } else {
      var k: nat :| GivenLast(before, k, fp, text) && Shown(x, text) == Said(before[k], text);
      assert GivenLast(ops, k, fp, text);
    }
  }

  lemma {:induction false} StoryResolution(ops: seq<Op>)
    requires ops != [] && ops[0].Report?
    ensures var x := Story(ops);
      if x.status.Resolved? then ResolvedThen(ops, x) else x.resolvedAt == Unset && x.resolution == ""
  {
    var n, fp := |ops| - 1, Target(ops[0]);
    if n > 0 {
      var before, op := ops[..n], ops[n];
      StoryResolution(before);
      StoryMeans(before);
      var x := Story(before);
      if x.status.Resolved? && !(Target(op) == fp && op.Report?) {
        var k: nat :| ResolvedFirst(before, k, fp) && x.resolvedAt == At(before[k].now) &&
          x.resolution == before[k].resolution;
        FirstStays(ops, k, fp);
      } else if Target(op) == fp && op.Resolve? {
        FirstHere(ops, fp);
      }
    }
  }

  lemma FirstStays(ops: seq<Op>, k: nat, fp: string)
    requires ops != [] && ResolvedFirst(ops[..|ops| - 1], k, fp)
    requires ops[|ops| - 1].Report? ==> Target(ops[|ops| - 1]) != fp
    ensures ResolvedFirst(ops, k, fp)
  {
    StandingGrows(ops, k, fp);
    forall j: nat | j < k ensures !StandingResolution(ops, j, fp) {
      if StandingResolution(ops, j, fp) { StandingShrinks(ops, j, fp); }
    }
  }

  lemma FirstHere(ops: seq<Op>, fp: string)
    requires ops != [] && ops[|ops| - 1].Resolve? && Target(ops[|ops| - 1]) == fp
    requires !ResolvedLast(ops[..|ops| - 1], fp)
    ensures ResolvedFirst(ops, |ops| - 1, fp)
  {
    forall j: nat | j < |ops| - 1 ensures !StandingResolution(ops, j, fp) {
      if StandingResolution(ops, j, fp) { StandingShrinks(ops, j, fp); }
    }
  }

  lemma {:induction false} StoryActions(ops: seq<Op>)
    requires ops != [] && ops[0].Report?
    ensures Story(ops).actions == Noted(ops, Target(ops[0]))
  {
    var n, fp := |ops| - 1, Target(ops[0]);
    if n == 0 {
      assert ops[..0] == [];
      assert !ResolvedLast(ops[..0], fp);
    } else {
      StoryActions(ops[..n]);
      StoryMeans(ops[..n]);
    }
  }

  /**
   * Over every sequence of operations a stored incident counts the reports since it was created,
   * remembers when that was and when it was last seen, shows the last texts given, is resolved
   * exactly when nothing was reported since the last resolution, with the time and words of the
   * first such resolution, and lists the actions and recurrences in order.
   */
  lemma StoryIsRecorded(ops: seq<Op>)
    requires ops != [] && ops[0].Report?
    ensures Recorded(ops, Story(ops))
  {
    StoryMeans(ops);
    StorySeen(ops);
    StoryResolution(ops);
    StoryActions(ops);
    forall text ensures ShowsText(ops, Story(ops), text) { StoryText(ops, text); }
  }

  lemma StoredMeans(ops: seq<Op>, ledgers: seq<seq<Incident>>, n: nat, x: Incident)
    requires IsRun(ops, ledgers) && n <= |ops| && x in ledgers[n]
    ensures exists k: nat ::
      OnFileSince(ops, ledgers, k, n, x.fingerprint) && Recorded(ops[k..n], x)
  {
    StoredIsStory(ops, ledgers, n, x);
    var k: nat :| TellsStory(ops, ledgers, k, n, x);
    StoryIsRecorded(ops[k..n]);
    assert Recorded(ops[k..n], x);
  }

  // ---------------------------------------------------------------- new reports and the cap

  /**
   * A first report is on file afterwards unless a hundred open incidents, all seen at that
   * second or later, already are.
   */
  lemma NewReportKeptExactly(stored: seq<Incident>, op: Op)
    requires LedgerOk(stored) && op.Report? && Target(op) != "" && !Listed(stored, Target(op))
    ensures Listed(Step(stored, op), Target(op)) <==>
      !(|stored| == MAX_INCIDENTS &&
        forall y :: y in stored ==> y.status.Open? && y.lastSeen >= op.now)
  {
    var loaded, c, cutoff := StableSort(stored, Before), Created(op), Cutoff(op);
    LoadedOk(stored);
    assert !Listed(loaded, Target(op));
    assert Step(stored, op) == Saved(loaded + [c], cutoff);
    KeepMembers(loaded, cutoff);
    assert Keep(loaded + [c], cutoff) == Keep(loaded, cutoff) + [c];
    if |Keep(loaded, cutoff)| < MAX_INCIDENTS {
      assert c in Step(stored, op);
    } else {
      KeepAll(loaded, cutoff);
      LastIn(loaded, c);
    }
  }

  lemma LastIn(full: seq<Incident>, c: Incident)
    requires LedgerOk(full) && Ordered(full, Before) && |full| == MAX_INCIDENTS
    requires !Listed(full, c.fingerprint) && c.status.Open?
    ensures StableSort(full, Before) == full
    ensures |StableSort(full + [c], Before)| == MAX_INCIDENTS + 1
    ensures Listed(StableSort(full + [c], Before)[..MAX_INCIDENTS], c.fingerprint) <==>
      !(forall y :: y in full ==> y.status.Open? && y.lastSeen >= c.lastSeen)
  {
    var n := MAX_INCIDENTS - 1;
    var last := full[n];
    BeforeIsOrder();
    SortOfSorted(full, Before);
    assert (full + [c])[..n + 1] == full;
    var sorted := Insert(full, c, Before);
    assert StableSort(full + [c], Before) == sorted;
    InsertOk(full, c, Before);
    if Before(last, c) {
      assert sorted[..MAX_INCIDENTS] == full;
      forall y | y in full ensures y.status.Open? && y.lastSeen >= c.lastSeen {
        var i :| 0 <= i < |full| && full[i] == y;
        assert i < n ==> Before(full[i], full[n]);
      }
    } else {
      InsertOk(full[..n], c, Before);
      var front := Insert(full[..n], c, Before);
      assert sorted[..MAX_INCIDENTS] == front;
      assert c in multiset(front);
      assert last in full;
    }
  }

  // ---------------------------------------------------------------- what the caller gets back

  datatype Reply = Failed | Found(incident: Incident) | New(incident: Incident)

  /** What `save` leaves in the array it was given: compacted, perhaps sorted, old tail in place. */
  function Compacted(list: seq<Incident>, cutoff: int): seq<Incident> {
    var kept := Keep(list, cutoff);
    (if |kept| > MAX_INCIDENTS then StableSort(kept, Before) else kept) + list[|kept|..]
  }

  lemma CompactedLength(list: seq<Incident>, cutoff: int)
    ensures |Compacted(list, cutoff)| == |list|
  {
    KeepMembers(list, cutoff);
    BeforeIsOrder();
    StableSortOk(Keep(list, cutoff), Before);
  }

  /** Operations answer with the slot they edited, read back after the save. */
  function ReplyTo(stored: seq<Incident>, op: Op): Reply {
    var loaded := StableSort(stored, Before);
    var i := Find(loaded, Target(op));
    if op.Report? && Target(op) == "" then Failed
    else if i < |loaded| then
      if op.Resolve? && loaded[i].status.Resolved? then Found(loaded[i])
      else
        var after := Compacted(loaded[i := Touched(loaded[i], op)], Cutoff(op));
        if i < |after| then Found(after[i]) else Failed
    else if op.Report? then New(Created(op))
    else Failed
  }

  /** The operation on an entry found at i, and on a list without one. */
  lemma FoundAt(stored: seq<Incident>, loaded: seq<Incident>, op: Op, i: nat)
    requires loaded == StableSort(stored, Before)
    requires i < |loaded| && loaded[i].fingerprint == Target(op)
    requires forall j :: 0 <= j < i ==> loaded[j].fingerprint != Target(op)
    requires op.Report? ==> Target(op) != ""
    requires op.Resolve? ==> loaded[i].status.Open?
    ensures Step(stored, op) == Saved(loaded[i := Touched(loaded[i], op)], Cutoff(op))
    ensures var after := Compacted(loaded[i := Touched(loaded[i], op)], Cutoff(op));
      |after| == |loaded| && ReplyTo(stored, op) == Found(after[i])
  {
    assert Find(loaded, Target(op)) == i;
    CompactedLength(loaded[i := Touched(loaded[i], op)], Cutoff(op));
  }

  lemma AlreadyResolved(stored: seq<Incident>, loaded: seq<Incident>, op: Op, i: nat)
    requires loaded == StableSort(stored, Before) && op.Resolve?
    requires i < |loaded| && loaded[i].fingerprint == Target(op) && loaded[i].status.Resolved?
    requires forall j :: 0 <= j < i ==> loaded[j].fingerprint != Target(op)
    ensures Step(stored, op) == stored && ReplyTo(stored, op) == Found(loaded[i])
  {
    assert Find(loaded, Target(op)) == i;
  }

  lemma NotFound(stored: seq<Incident>, loaded: seq<Incident>, op: Op)
    requires loaded == StableSort(stored, Before)
    requires forall j :: 0 <= j < |loaded| ==> loaded[j].fingerprint != Target(op)
    requires op.Report? ==> Target(op) != ""
    ensures op.Report? ==>
      Step(stored, op) == Saved(loaded + [Created(op)], Cutoff(op)) && ReplyTo(stored, op) == New(Created(op))
    ensures !op.Report? ==> Step(stored, op) == stored && ReplyTo(stored, op) == Failed
  {
    assert Find(loaded, Target(op)) == |loaded|;
  }

  /** The slot still holds its entry unless something up to it expired and others moved in. */
  lemma SlotKeptExactly(list: seq<Incident>, i: nat, cutoff: int)
    requires OnePerFingerprint(list) && |list| <= MAX_INCIDENTS && i < |list|
    ensures |Compacted(list, cutoff)| == |list|
    ensures Compacted(list, cutoff)[i] == list[i] <==>
      (|Keep(list, cutoff)| <= i || forall x :: x in list[..i + 1] ==> !Expired(x, cutoff))
  {
    CompactedLength(list, cutoff);
    if forall x :: x in list[..i + 1] ==> !Expired(x, cutoff) {
      FrontStays(list, i, cutoff);
    } else if i < |Keep(list, cutoff)| {
      AnotherMovesIn(list, i, cutoff);
    }
  }

  lemma KeepSplit(list: seq<Incident>, n: nat, cutoff: int)
    requires n <= |list|
    ensures Keep(list, cutoff) == Keep(list[..n], cutoff) + Keep(list[n..], cutoff)
  {
    assert list == list[..n] + list[n..];
    KeepConcat(list[..n], list[n..], cutoff);
  }

  lemma FrontStays(list: seq<Incident>, i: nat, cutoff: int)
    requires i < |list| && forall x :: x in list[..i + 1] ==> !Expired(x, cutoff)
    ensures i < |Keep(list, cutoff)| && Keep(list, cutoff)[i] == list[i]
  {
    KeepSplit(list, i + 1, cutoff);
    KeepAll(list[..i + 1], cutoff);
    assert list[..i + 1][i] == list[i];
  }

  lemma AnotherMovesIn(list: seq<Incident>, i: nat, cutoff: int)
    requires OnePerFingerprint(list) && i < |list| && i < |Keep(list, cutoff)|
    requires !forall x :: x in list[..i + 1] ==> !Expired(x, cutoff)
    ensures Keep(list, cutoff)[i] != list[i]
  {
    var front, rest, kept := list[..i + 1], list[i + 1..], Keep(list, cutoff);
    assert kept == Keep(front, cutoff) + Keep(rest, cutoff) by { KeepSplit(list, i + 1, cutoff); }
    assert |Keep(front, cutoff)| <= i by { KeepMembers(front, cutoff); }
    assert kept[i] in Keep(rest, cutoff);
    assert kept[i] in rest by { KeepMembers(rest, cutoff); }
    var j :| 0 <= j < |rest| && rest[j] == kept[i];
    assert list[i + 1 + j] == kept[i];
  }

  /** An operation answers with the incident it touched exactly when its slot kept it. */
  lemma ReplyIsRightExactly(stored: seq<Incident>, op: Op, x: Incident)
    requires LedgerOk(stored) && x in stored && x.fingerprint == Target(op)
    requires !(op.Resolve? && x.status.Resolved?)
    ensures var loaded := StableSort(stored, Before);
      var i := Find(loaded, Target(op));
      && i < |loaded| && loaded[i] == x
      && var list := loaded[i := Touched(x, op)];
         (ReplyTo(stored, op) == Found(Follow(x, op)) <==>
           (|Keep(list, Cutoff(op))| <= i || forall y :: y in list[..i + 1] ==> !Expired(y, Cutoff(op))))
  {
    var loaded := StableSort(stored, Before);
    var i := Find(loaded, Target(op));
    FindsEntry(stored, op, x);
    FoundAt(stored, loaded, op, i);
    var list := loaded[i := Touched(x, op)];
    assert OnePerFingerprint(list) && |list| <= MAX_INCIDENTS by {
      LoadedOk(stored);
      UpdatedOk(loaded, i, op);
    }
    SlotKeptExactly(list, i, Cutoff(op));
    assert list[i] == Follow(x, op);
  }

  lemma FindsEntry(stored: seq<Incident>, op: Op, x: Incident)
    requires LedgerOk(stored) && x in stored && x.fingerprint == Target(op)
    ensures var loaded := StableSort(stored, Before);
      var i := Find(loaded, Target(op));
      i < |loaded| && loaded[i] == x
  {
    LoadedOk(stored);
    FindsIn(StableSort(stored, Before), x);
  }

  lemma FindsIn(loaded: seq<Incident>, x: Incident)
    requires OnePerFingerprint(loaded) && x in loaded
    ensures Find(loaded, x.fingerprint) < |loaded| && loaded[Find(loaded, x.fingerprint)] == x
  {
    var j :| 0 <= j < |loaded| && loaded[j] == x;
    forall i | 0 <= i < j ensures loaded[i].fingerprint != x.fingerprint {}
    FindIs(loaded, x.fingerprint, j);
  }

  lemma FindIs(list: seq<Incident>, fp: string, j: nat)
    requires j < |list| && list[j].fingerprint == fp
    requires forall i :: 0 <= i < j ==> list[i].fingerprint != fp
    ensures Find(list, fp) == j
  {}

  /** Touching an open incident answers with it, since everything before it is open, except when
      the save, reading a clock a retention period later, drops what was just resolved. */
  lemma OpenReplyIsRight(stored: seq<Incident>, op: Op, x: Incident)
    requires LedgerOk(stored) && x in stored && x.fingerprint == Target(op) && x.status.Open?
    ensures var loaded := StableSort(stored, Before);
      var i := Find(loaded, Target(op));
      && i < |loaded|
      && (ReplyTo(stored, op) == Found(Follow(x, op)) <==>
           !(op.Resolve? && op.now < Cutoff(op)) || |Keep(loaded[i := Touched(x, op)], Cutoff(op))| <= i)
  {
    var loaded := StableSort(stored, Before);
    var i, cutoff, y := Find(loaded, Target(op)), Cutoff(op), Touched(x, op);
    ReplyIsRightExactly(stored, op, x);
    assert Ordered(loaded, Before) by { LoadedOk(stored); }
    OpenFront(loaded, i, y, cutoff);
    TouchedExpires(x, op);
  }

  /** Nothing in front of an open entry has expired. */
  lemma OpenFront(loaded: seq<Incident>, i: nat, y: Incident, cutoff: int)
    requires Ordered(loaded, Before) && i < |loaded| && loaded[i].status.Open?
    ensures (forall z :: z in loaded[i := y][..i + 1] ==> !Expired(z, cutoff)) <==> !Expired(y, cutoff)
  {
    var front := loaded[i := y][..i + 1];
    assert front[i] == y && y in front;
    forall z | z in front ensures z == y || !Expired(z, cutoff) {
      var j :| 0 <= j <= i && front[j] == z;
      if j < i { assert Before(loaded[j], loaded[i]); }
    }
  }

  lemma TouchedExpires(x: Incident, op: Op)
    requires x.status.Open?
    ensures Expired(Touched(x, op), Cutoff(op)) <==> op.Resolve? && op.now < Cutoff(op)
  {}

  /** LogAction is described for open incidents; it fails exactly when nothing is on file. */
  lemma LogActionFailsExactly(stored: seq<Incident>, op: Op)
    requires LedgerOk(stored) && op.LogAction?
    ensures ReplyTo(stored, op) == Failed <==> !Listed(stored, Target(op))
    ensures ReplyTo(stored, op) == Failed ==> Step(stored, op) == stored
  {
    var loaded := StableSort(stored, Before);
    LoadedOk(stored);
    var i := Find(loaded, Target(op));
    if i < |loaded| {
      assert loaded[i] in loaded;
      FoundAt(stored, loaded, op, i);
    } else {
      assert !Listed(stored, Target(op)) by {
        forall x | x in stored ensures x.fingerprint != Target(op) {
          assert x in loaded;
        }
      }
      NotFound(stored, loaded, op);
    }
  }

  /** Whatever its status, the entry found gets the note and keeps its status; it is gone
      afterwards exactly if it had expired. */
  lemma LogActionTouches(stored: seq<Incident>, op: Op, x: Incident)
    requires LedgerOk(stored) && op.LogAction? && x in stored && x.fingerprint == Target(op)
    ensures Touched(x, op).status == x.status && Touched(x, op).actions == x.actions + [Action(op.now, op.note)]
    ensures Touched(x, op) in Step(stored, op) <==> !Expired(x, Cutoff(op))
  {
    var loaded := StableSort(stored, Before);
    var i, y, cutoff := Find(loaded, Target(op)), Touched(x, op), Cutoff(op);
    FindsEntry(stored, op, x);
    FoundAt(stored, loaded, op, i);
    var list := loaded[i := y];
    assert |list| <= MAX_INCIDENTS by { LoadedOk(stored); }
    assert list[i] == y;
    KeepMember(list, cutoff, y);
  }

  // ---------------------------------------------------------------- the store

  lemma KeepStep(list: seq<Incident>, i: nat, cutoff: int)
    requires i < |list|
    ensures Keep(list[..i + 1], cutoff) ==
      Keep(list[..i], cutoff) + if Expired(list[i], cutoff) then [] else [list[i]]
  {
    assert list[..i + 1][..i] == list[..i];
  }

  class Store {
    var stored: seq<Incident>

    constructor ()
      ensures stored == []
    {
      stored := [];
    }

    method Load() returns (list: array<Incident>)
      ensures fresh(list) && list[..] == StableSort(stored, Before)
    {
      var sorted := StableSort(stored, Before);
      list := new Incident[|sorted|](i requires 0 <= i < |sorted| => sorted[i]);
      assert list[..] == sorted;
    }

    /** Drops expired entries by shifting the others down within the caller's array. */
    method Compact(list: array<Incident>, cutoff: int) returns (kept: nat)
      modifies list
      ensures kept <= list.Length && list[..kept] == Keep(old(list[..]), cutoff)
      ensures list[kept..] == old(list[..])[kept..]
    {
      ghost var was := list[..];
      kept := 0;
      for i := 0 to list.Length
        invariant kept <= i && list[..kept] == Keep(was[..i], cutoff)
        invariant forall k :: kept <= k < list.Length ==> list[k] == was[k]
      {
        KeepStep(was, i, cutoff);
        if !Expired(list[i], cutoff) {
          ghost var front := list[..kept];
          list[kept] := list[i];
          assert list[..kept] == front;
          kept := kept + 1;
          assert list[..kept] == front + [was[i]];
        }
      }
      assert was[..list.Length] == was;
    }

    method Save(list: array<Incident>, cutoff: int)
      modifies this, list
      ensures stored == Saved(old(list[..]), cutoff)
      ensures list[..] == Compacted(old(list[..]), cutoff)
    {
      ghost var was := list[..];
      var kept := Compact(list, cutoff);
      if kept > MAX_INCIDENTS { SortFront(list, kept); }
      assert list[..] == list[..kept] + list[kept..];
      stored := if kept > MAX_INCIDENTS then list[..kept][..MAX_INCIDENTS] else list[..kept];
      assert kept == |Keep(was, cutoff)|;
    }

    method SortFront(list: array<Incident>, n: nat)
      requires n <= list.Length
      modifies list
      ensures |StableSort(old(list[..n]), Before)| == n
      ensures list[..n] == StableSort(old(list[..n]), Before)
      ensures list[n..] == old(list[n..])
    {
      BeforeIsOrder();
      StableSortOk(list[..n], Before);
      var sorted := StableSort(list[..n], Before);
      forall k | 0 <= k < n { list[k] := sorted[k]; }
    }

    /** The edits of a report on the incident it found. */
    method Refresh(was: Incident, title: string, detail: string, severity: string, now: nat, ghost op: Op)
      returns (x: Incident)
      requires op.Report? && op.title == title && op.detail == detail && op.severity == severity
      requires op.now == now
      ensures x == Touched(was, op)
    {
      x := was.(status := Open, lastSeen := now, timesSeen := was.timesSeen + 1);
      if was.status == Resolved {
        x := x.(resolvedAt := Unset, resolution := "", actions := x.actions + [Action(now, RECURRED)]);
      }
      if title != "" { x := x.(title := title); }
      if detail != "" { x := x.(detail := detail); }
      if severity != "" { x := x.(severity := severity); }
    }

    /** The first slot filed under fp, or the length of the list. */
    method Search(list: array<Incident>, fp: string) returns (i: nat)
      ensures i <= list.Length && (i < list.Length ==> list[i].fingerprint == fp)
      ensures forall j :: 0 <= j < i ==> list[j].fingerprint != fp
    {
      i := 0;
      while i < list.Length && list[i].fingerprint != fp
        invariant i <= list.Length
        invariant forall j :: 0 <= j < i ==> list[j].fingerprint != fp
      {
        i := i + 1;
      }
    }

    /** Saves the list with x in slot i and reads the slot back. */
    method Put(list: array<Incident>, i: nat, x: Incident, clock: nat, ghost edited: seq<Incident>)
      returns (reply: Reply)
      requires i < list.Length && list[..][i := x] == edited
      modifies this, list
      ensures stored == Saved(edited, clock - RESOLVED_RETENTION)
      ensures |Compacted(edited, clock - RESOLVED_RETENTION)| > i
      ensures reply == Found(Compacted(edited, clock - RESOLVED_RETENTION)[i])
    {
      list[i] := x;
      assert list[..] == edited;
      Save(list, clock - RESOLVED_RETENTION);
      reply := Found(list[i]);
    }

    method Report(fp: string, title: string, detail: string, severity: string, now: nat, clock: nat)
      returns (reply: Reply)
      modifies this
      ensures var op := Op.Report(fp, title, detail, severity, now, clock);
        stored == Step(old(stored), op) && reply == ReplyTo(old(stored), op)
    {
      ghost var op := Op.Report(fp, title, detail, severity, now, clock);
      assert Cutoff(op) == clock - RESOLVED_RETENTION;
      var fingerprint := Normalise(fp);
      if fingerprint == "" { return Failed; }
      var list := Load();
      ghost var loaded := list[..];
      var i := Search(list, fingerprint);
      if i < list.Length {
        FoundAt(stored, loaded, op, i);
        var x := Refresh(list[i], title, detail, severity, now, op);
        reply := Put(list, i, x, clock, loaded[i := x]);
        return;
      }
      NotFound(stored, loaded, op);
      reply := Add(list, Incident(fingerprint, title, detail, severity, Open, now, now, 1, [], Unset, ""), clock);
    }

    /** Saves the list with a new entry at its end. */
    method Add(list: array<Incident>, created: Incident, clock: nat) returns (reply: Reply)
      modifies this
      ensures stored == Saved(old(list[..]) + [created], clock - RESOLVED_RETENTION)
      ensures reply == New(created)
    {
      var longer := new Incident[list.Length + 1]
        (i requires 0 <= i <= list.Length reads list => if i < list.Length then list[i] else created);
      assert longer[..] == list[..] + [created];
      Save(longer, clock - RESOLVED_RETENTION);
      reply := New(created);
    }

    method LogAction(fp: string, note: string, now: nat, clock: nat) returns (reply: Reply)
      modifies this
      ensures var op := Op.LogAction(fp, note, now, clock);
        stored == Step(old(stored), op) && reply == ReplyTo(old(stored), op)
    {
      ghost var op := Op.LogAction(fp, note, now, clock);
      assert Cutoff(op) == clock - RESOLVED_RETENTION;
      var list := Load();
      ghost var loaded := list[..];
      var i := Search(list, Normalise(fp));
      if i < list.Length {
        FoundAt(stored, loaded, op, i);
        var x := list[i].(actions := list[i].actions + [Action(now, note)]);
        x := x.(lastSeen := now);
        assert x == Touched(loaded[i], op);
        reply := Put(list, i, x, clock, loaded[i := x]);
        return;
      }
      NotFound(stored, loaded, op);
      reply := Failed;
    }

    method Resolve(fp: string, resolution: string, now: nat, clock: nat) returns (reply: Reply)
      modifies this
      ensures var op := Op.Resolve(fp, resolution, now, clock);
        stored == Step(old(stored), op) && reply == ReplyTo(old(stored), op)
    {
      ghost var op := Op.Resolve(fp, resolution, now, clock);
      assert Cutoff(op) == clock - RESOLVED_RETENTION;
      var list := Load();
      ghost var loaded := list[..];
      var i := Search(list, Normalise(fp));
      if i < list.Length {
        if list[i].status == Resolved {
          AlreadyResolved(stored, loaded, op, i);
          return Found(list[i]);
        }
        FoundAt(stored, loaded, op, i);
        var x := list[i].(status := Resolved, resolvedAt := At(now), resolution := resolution);
        assert x == Touched(loaded[i], op);
        reply := Put(list, i, x, clock, loaded[i := x]);
        return;
      }
      NotFound(stored, loaded, op);
      reply := Failed;
    }
  }
}
