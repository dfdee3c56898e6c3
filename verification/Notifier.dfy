/**
 * Mail notifications of the central backend (central-backend/src/services/notifier.js):
 * one mail per problem until it goes away, retried while delivery fails, a reminder for
 * approvals that wait too long, and one summary per day.
 */
module Notifier {

  datatype Key = Issue(id: string) | Approval(id: string) | Escalate(id: string)

  datatype Concern = Concern(id: string, severity: string)

  /** When an approval was asked for, in milliseconds; a text that is no date gives Invalid. */
  datatype Stamp = Invalid | At(ms: int)

  datatype Pending = Pending(id: string, importance: string, risk: string, time: Stamp)

  /** What one poll sees, and which of its mails the server accepts. */
  datatype Poll = Poll(
    concerns: seq<Concern>, approvals: seq<Pending>, now: int,
    issueAccepted: nat -> bool, batchAccepted: bool, reminderAccepted: nat -> bool)

  /** One attempt to send: what it is about and whether it was delivered. */
  datatype Mail = Mail(keys: seq<Key>, delivered: bool)

  const HOUR_MS := 3_600_000

  /** High importance or risk, and pending for half of the 48 or 24 hours it may wait. */
  predicate Overdue(a: Pending, now: int) {
    && (a.importance == "high" || a.risk == "high")
    && (a.time.Invalid? || now - a.time.ms >= (if a.risk == "high" then 24 else 12) * HOUR_MS)
  }

  /** How long an approval may wait before it is cancelled. */
  function TimeoutHours(a: Pending): int { if a.risk == "high" then 48 else 24 }

  /** A reminder is due exactly when half of the time an approval of high importance or risk may
      wait has passed, 24 hours or 12, or when nobody can tell; and from then on it stays due. */
  lemma OverdueMeans(a: Pending, now: int, later: int)
    ensures a.time.At? ==>
      (Overdue(a, now) <==>
        || (a.risk == "high" && now >= a.time.ms + 86_400_000)
        || (a.risk != "high" && a.importance == "high" && now >= a.time.ms + 43_200_000))
    ensures a.time.At? && Overdue(a, now) ==> 2 * (now - a.time.ms) >= TimeoutHours(a) * HOUR_MS
    ensures a.time.Invalid? ==> (Overdue(a, now) <==> a.risk == "high" || a.importance == "high")
    ensures now <= later && Overdue(a, now) ==> Overdue(a, later)
  {}

  function Criticals(concerns: seq<Concern>): seq<Concern> {
    if concerns == [] then []
    else
      var n := |concerns| - 1;
      Criticals(concerns[..n]) + if concerns[n].severity == "critical" then [concerns[n]] else []
  }

  // ---------------------------------------------------------------- what a key stands for

  ghost predicate Live(p: Poll, k: Key) {
    match k
    case Issue(id) => exists c :: c in p.concerns && c.severity == "critical" && c.id == id
    case Approval(id) => exists a :: a in p.approvals && a.id == id
    case Escalate(id) => exists a :: a in p.approvals && a.id == id
  }

  /** The mail server accepts a mail that the poll has a reason to send about k: one that asks for
      it by itself, or the one about all new approvals. */
  ghost predicate Granted(p: Poll, k: Key) {
    match k
    case Issue(id) =>
      var urgent := Criticals(p.concerns);
      exists i: nat :: i < |urgent| && urgent[i].id == id && p.issueAccepted(i)
    case Approval(_) => Live(p, k) && p.batchAccepted
    case Escalate(id) =>
      exists i: nat :: i < |p.approvals| && p.approvals[i].id == id && Overdue(p.approvals[i], p.now) &&
        p.reminderAccepted(i)
  }

  /** The poll has a reason to mail about k. */
  ghost predicate Wanted(p: Poll, k: Key) {
    match k
    case Escalate(id) => exists a :: a in p.approvals && a.id == id && Overdue(a, p.now)
    case _ => Live(p, k)
  }

  // ---------------------------------------------------------------- one check on values

  /** An entry a check looks at: its key, whether it asks for mail, and the server's verdict. */
  datatype Entry = Entry(key: Key, wanted: bool, accepted: bool)

  datatype Books = Books(notified: set<Key>, mails: seq<Mail>)

  function Visit(b: Books, e: Entry): Books {
    if e.key in b.notified || !e.wanted then b
    else Books(if e.accepted then b.notified + {e.key} else b.notified,
               b.mails + [Mail([e.key], e.accepted)])
  }

  function VisitAll(b: Books, es: seq<Entry>): Books {
    if es == [] then b else Visit(VisitAll(b, es[..|es| - 1]), es[|es| - 1])
  }

  function IssueEntries(p: Poll): seq<Entry> {
    var cs := Criticals(p.concerns);
    seq(|cs|, i requires 0 <= i < |cs| => Entry(Issue(cs[i].id), true, p.issueAccepted(i)))
  }

  function ReminderEntries(p: Poll): seq<Entry> {
    var pending := p.approvals;
    seq(|pending|, i requires 0 <= i < |pending| =>
      Entry(Escalate(pending[i].id), Overdue(pending[i], p.now), p.reminderAccepted(i)))
  }

  function ApprovalKeys(pending: seq<Pending>): (keys: seq<Key>)
    ensures |keys| == |pending| && forall i :: 0 <= i < |pending| ==> keys[i] == Approval(pending[i].id)
  {
    seq(|pending|, i requires 0 <= i < |pending| => Approval(pending[i].id))
  }

  function Unseen(keys: seq<Key>, notified: set<Key>): seq<Key> {
    if keys == [] then []
    else
      var n := |keys| - 1;
      Unseen(keys[..n], notified) + if keys[n] in notified then [] else [keys[n]]
  }

  function Batch(b: Books, keys: seq<Key>, accepted: bool): Books {
    var unseen := Unseen(keys, b.notified);
    if unseen == [] then b
    else Books(if accepted then b.notified + (set k | k in unseen) else b.notified,
               b.mails + [Mail(unseen, accepted)])
  }

  predicate SameKind(k: Key, l: Key) {
    match k
    case Issue(_) => l.Issue?
    case Approval(_) => l.Approval?
    case Escalate(_) => l.Escalate?
  }

  /** Keys of the kind that are no longer among the live ones are forgotten. */
  function Forget(notified: set<Key>, kind: Key, live: seq<Key>): set<Key> {
    set k | k in notified && (!SameKind(kind, k) || k in live)
  }

  function Keys(es: seq<Entry>): (keys: seq<Key>)
    ensures |keys| == |es| && forall i :: 0 <= i < |es| ==> keys[i] == es[i].key
  {
    seq(|es|, i requires 0 <= i < |es| => es[i].key)
  }

  function CheckIssues(notified: set<Key>, p: Poll): Books {
    var es := IssueEntries(p);
    VisitAll(Books(Forget(notified, Issue(""), Keys(es)), []), es)
  }

  function CheckApprovals(notified: set<Key>, p: Poll): Books {
    var keys := ApprovalKeys(p.approvals);
    Batch(Books(Forget(notified, Approval(""), keys), []), keys, p.batchAccepted)
  }

  function CheckReminders(notified: set<Key>, p: Poll): Books {
    var es := ReminderEntries(p);
    VisitAll(Books(Forget(notified, Escalate(""), Keys(es)), []), es)
  }

  /** The three checks of a poll, one after the other. */
  function OnePoll(notified: set<Key>, p: Poll): Books {
    var issues := CheckIssues(notified, p);
    var approvals := CheckApprovals(issues.notified, p);
    var reminders := CheckReminders(approvals.notified, p);
    Books(reminders.notified, issues.mails + approvals.mails + reminders.mails)
  }

  // ---------------------------------------------------------------- what a check does to one key

  ghost predicate Attempted(mails: seq<Mail>, k: Key) {
    exists m :: m in mails && k in m.keys
  }

  /** How many delivered mails are about k. */
  function Delivered(mails: seq<Mail>, k: Key): nat {
    if mails == [] then 0
    else
      var n := |mails| - 1;
      Delivered(mails[..n], k) + if mails[n].delivered && k in mails[n].keys then 1 else 0
  }

  /**
   * The outcome of a check for one key: mail is attempted exactly when the key is wanted and was
   * not remembered, at most one mail is delivered, one exactly when the server accepts such a
   * mail, and delivery is what makes it remembered.
   */
  ghost predicate Handled(before: bool, wanted: bool, granted: bool, k: Key, b: Books) {
    && (Attempted(b.mails, k) <==> wanted && !before)
    && Delivered(b.mails, k) <= 1
    && (Delivered(b.mails, k) == 1 <==> granted && !before)
    && (k in b.notified <==> before || Delivered(b.mails, k) == 1)
  }

  ghost predicate Asks(es: seq<Entry>, k: Key) {
    exists e :: e in es && e.key == k && e.wanted
  }

  ghost predicate Grants(es: seq<Entry>, k: Key) {
    exists e :: e in es && e.key == k && e.wanted && e.accepted
  }

  lemma {:induction false} VisitAllHandles(notified: set<Key>, es: seq<Entry>, k: Key)
    ensures Handled(k in notified, Asks(es, k), Grants(es, k), k, VisitAll(Books(notified, []), es))
  {
    if es != [] {
      var n := |es| - 1;
      var start := Books(notified, []);
      VisitAllHandles(notified, es[..n], k);
      var b := VisitAll(start, es[..n]);
      AsksStep(es, k);
      VisitHandles(k in notified, Asks(es[..n], k), Grants(es[..n], k), k, b, es[n]);
    }
  }

  lemma AsksStep(es: seq<Entry>, k: Key)
    requires es != []
    ensures Asks(es, k) <==>
      Asks(es[..|es| - 1], k) || (es[|es| - 1].key == k && es[|es| - 1].wanted)
    ensures Grants(es, k) <==>
      Grants(es[..|es| - 1], k) || (es[|es| - 1].key == k && es[|es| - 1].wanted && es[|es| - 1].accepted)
  {
    var n := |es| - 1;
    assert es == es[..n] + [es[n]];
  }

  lemma MailStep(mails: seq<Mail>, m: Mail, k: Key)
    ensures Attempted(mails + [m], k) <==> Attempted(mails, k) || k in m.keys
    ensures Delivered(mails + [m], k) == Delivered(mails, k) + if m.delivered && k in m.keys then 1 else 0
  {
    assert (mails + [m])[..|mails|] == mails;
    if k in m.keys { assert m in mails + [m]; }
    if Attempted(mails, k) {
      var x :| x in mails && k in x.keys;
      assert x in mails + [m];
    }
  }

  lemma {:induction false} DeliveredWasAttempted(mails: seq<Mail>, k: Key)
    ensures Delivered(mails, k) > 0 ==> Attempted(mails, k)
  {
    if mails != [] {
      var n := |mails| - 1;
      DeliveredWasAttempted(mails[..n], k);
      assert mails == mails[..n] + [mails[n]];
      MailStep(mails[..n], mails[n], k);
    }
  }

  lemma VisitHandles(before: bool, wanted: bool, granted: bool, k: Key, b: Books, e: Entry)
    requires Handled(before, wanted, granted, k, b)
    ensures var asks := e.key == k && e.wanted;
      Handled(before, wanted || asks, granted || (asks && e.accepted), k, Visit(b, e))
  {
    DeliveredWasAttempted(b.mails, k);
    if !(e.key in b.notified || !e.wanted) {
      MailStep(b.mails, Mail([e.key], e.accepted), k);
    }
  }

  lemma {:induction false} UnseenMembers(keys: seq<Key>, notified: set<Key>)
    ensures forall k :: k in Unseen(keys, notified) <==> k in keys && k !in notified
  {
    if keys != [] {
      var n := |keys| - 1;
      UnseenMembers(keys[..n], notified);
      assert keys == keys[..n] + [keys[n]];
    }
  }

  lemma BatchHandles(notified: set<Key>, keys: seq<Key>, accepted: bool, k: Key)
    ensures Handled(k in notified, k in keys, k in keys && accepted, k, Batch(Books(notified, []), keys, accepted))
  {
    var unseen := Unseen(keys, notified);
    UnseenMembers(keys, notified);
    if unseen != [] {
      MailStep([], Mail(unseen, accepted), k);
      assert [] + [Mail(unseen, accepted)] == [Mail(unseen, accepted)];
    } else {
      assert k in keys ==> k in notified;
    }
  }

  // ---------------------------------------------------------------- what a poll does to one key

  lemma {:induction false} CriticalMembers(concerns: seq<Concern>)
    ensures forall c :: c in Criticals(concerns) <==> c in concerns && c.severity == "critical"
  {
    if concerns != [] {
      var n := |concerns| - 1;
      CriticalMembers(concerns[..n]);
      assert concerns == concerns[..n] + [concerns[n]];
    }
  }

  lemma IssueEntriesMean(p: Poll, k: Key)
    ensures Asks(IssueEntries(p), k) <==> k.Issue? && Live(p, k)
    ensures k in Keys(IssueEntries(p)) <==> k.Issue? && Live(p, k)
  {
    var cs, es := Criticals(p.concerns), IssueEntries(p);
    CriticalMembers(p.concerns);
    if k.Issue? && Live(p, k) {
      var c :| c in p.concerns && c.severity == "critical" && c.id == k.id;
      assert c in cs;
      var i :| 0 <= i < |cs| && cs[i] == c;
      assert es[i].key == k && es[i] in es && Keys(es)[i] == k;
    }
    if k in Keys(es) {
      var i :| 0 <= i < |es| && Keys(es)[i] == k;
      assert cs[i] in cs && es[i].key == k;
    }
    if Asks(es, k) {
      var e :| e in es && e.key == k && e.wanted;
      var i :| 0 <= i < |es| && es[i] == e;
      assert Keys(es)[i] == k;
    }
  }

  lemma IssueGrants(p: Poll, k: Key)
    ensures Grants(IssueEntries(p), k) <==> k.Issue? && Granted(p, k)
  {
    var urgent, es := Criticals(p.concerns), IssueEntries(p);
    if k.Issue? && Granted(p, k) {
      var i: nat :| i < |urgent| && urgent[i].id == k.id && p.issueAccepted(i);
      assert es[i] == Entry(k, true, true) && es[i] in es;
    }
    if Grants(es, k) {
      var e :| e in es && e.key == k && e.wanted && e.accepted;
      var i :| 0 <= i < |es| && es[i] == e;
      assert urgent[i].id == k.id && p.issueAccepted(i);
    }
  }

  lemma ReminderGrants(p: Poll, k: Key)
    ensures Grants(ReminderEntries(p), k) <==> k.Escalate? && Granted(p, k)
  {
    var es := ReminderEntries(p);
    if k.Escalate? && Granted(p, k) {
      var i: nat :| i < |p.approvals| && p.approvals[i].id == k.id && Overdue(p.approvals[i], p.now) &&
        p.reminderAccepted(i);
      assert es[i] == Entry(k, true, true) && es[i] in es;
    }
    if Grants(es, k) {
      var e :| e in es && e.key == k && e.wanted && e.accepted;
      var i :| 0 <= i < |es| && es[i] == e;
      assert p.approvals[i].id == k.id && p.reminderAccepted(i);
    }
  }

  lemma ApprovalKeysMean(p: Poll, k: Key)
    ensures k in ApprovalKeys(p.approvals) <==> k.Approval? && Live(p, k)
  {
    var keys := ApprovalKeys(p.approvals);
    if k.Approval? && Live(p, k) {
      var a :| a in p.approvals && a.id == k.id;
      var i :| 0 <= i < |p.approvals| && p.approvals[i] == a;
      assert keys[i] == k;
    }
    if k in keys {
      var i :| 0 <= i < |keys| && keys[i] == k;
      assert p.approvals[i] in p.approvals;
    }
  }

  lemma RemindersAsk(p: Poll, k: Key)
    ensures Asks(ReminderEntries(p), k) <==> k.Escalate? && Wanted(p, k)
  {
    var es := ReminderEntries(p);
    if k.Escalate? && Wanted(p, k) {
      var a :| a in p.approvals && a.id == k.id && Overdue(a, p.now);
      var i :| 0 <= i < |p.approvals| && p.approvals[i] == a;
      assert es[i] in es;
    }
    if Asks(es, k) {
      var e :| e in es && e.key == k && e.wanted;
      var i :| 0 <= i < |es| && es[i] == e;
      assert p.approvals[i] in p.approvals;
    }
  }

  lemma ReminderKeys(p: Poll, k: Key)
    ensures k in Keys(ReminderEntries(p)) <==> k.Escalate? && Live(p, k)
  {
    var es := ReminderEntries(p);
    if k.Escalate? && Live(p, k) {
      var a :| a in p.approvals && a.id == k.id;
      var i :| 0 <= i < |p.approvals| && p.approvals[i] == a;
      assert Keys(es)[i] == k;
    }
    if k in Keys(es) {
      var i :| 0 <= i < |es| && Keys(es)[i] == k;
      assert p.approvals[i] in p.approvals;
    }
  }

  lemma {:induction false} MailsConcat(xs: seq<Mail>, ys: seq<Mail>, k: Key)
    ensures Attempted(xs + ys, k) <==> Attempted(xs, k) || Attempted(ys, k)
    ensures Delivered(xs + ys, k) == Delivered(xs, k) + Delivered(ys, k)
  {
    if ys == [] {
      assert xs + ys == xs;
    } else {
      var n := |ys| - 1;
      assert xs + ys == xs + ys[..n] + [ys[n]] && ys == ys[..n] + [ys[n]];
      MailsConcat(xs, ys[..n], k);
      MailStep(xs + ys[..n], ys[n], k);
      MailStep(ys[..n], ys[n], k);
    }
  }

  lemma IssuesHandled(notified: set<Key>, p: Poll, k: Key)
    ensures Handled(k in notified && (k.Issue? ==> Live(p, k)), k.Issue? && Live(p, k), k.Issue? && Granted(p, k), k,
                    CheckIssues(notified, p))
  {
    var es := IssueEntries(p);
    IssueEntriesMean(p, k);
    IssueGrants(p, k);
    VisitAllHandles(Forget(notified, Issue(""), Keys(es)), es, k);
  }

  lemma ApprovalsHandled(notified: set<Key>, p: Poll, k: Key)
    ensures Handled(k in notified && (k.Approval? ==> Live(p, k)), k.Approval? && Live(p, k),
                    k.Approval? && Granted(p, k), k, CheckApprovals(notified, p))
    ensures |CheckApprovals(notified, p).mails| <= 1
  {
    var keys := ApprovalKeys(p.approvals);
    ApprovalKeysMean(p, k);
    BatchHandles(Forget(notified, Approval(""), keys), keys, p.batchAccepted, k);
  }

  lemma RemindersHandled(notified: set<Key>, p: Poll, k: Key)
    ensures Handled(k in notified && (k.Escalate? ==> Live(p, k)), k.Escalate? && Wanted(p, k),
                    k.Escalate? && Granted(p, k), k, CheckReminders(notified, p))
  {
    var es := ReminderEntries(p);
    RemindersAsk(p, k);
    ReminderGrants(p, k);
    ReminderKeys(p, k);
    VisitAllHandles(Forget(notified, Escalate(""), Keys(es)), es, k);
  }

  /**
   * A poll forgets the keys that are gone, mails exactly about those that are wanted and not
   * remembered, delivers at most once per key and remembers what it delivered: whatever it
   * remembers is live.
   */
  lemma PollHandles(notified: set<Key>, p: Poll, k: Key)
    ensures Handled(k in notified && Live(p, k), Wanted(p, k), Granted(p, k), k, OnePoll(notified, p))
    ensures k in OnePoll(notified, p).notified ==> Live(p, k)
  {
    var issues := CheckIssues(notified, p);
    var approvals := CheckApprovals(issues.notified, p);
    var reminders := CheckReminders(approvals.notified, p);
    IssuesHandled(notified, p, k);
    ApprovalsHandled(issues.notified, p, k);
    RemindersHandled(approvals.notified, p, k);
    DeliveredWasAttempted(issues.mails, k);
    DeliveredWasAttempted(approvals.mails, k);
    DeliveredWasAttempted(reminders.mails, k);
    MailsConcat(issues.mails, approvals.mails, k);
    MailsConcat(issues.mails + approvals.mails, reminders.mails, k);
  }

  // ---------------------------------------------------------------- any sequence of polls

  /** The polls of a process: what it remembered before each, and the mails each attempted. */
  datatype Trace = Trace(polls: seq<Poll>, memory: seq<set<Key>>, mails: seq<seq<Mail>>)

  ghost predicate IsTrace(t: Trace) {
    && |t.memory| == |t.polls| + 1 && |t.mails| == |t.polls| && t.memory[0] == {}
    && forall i :: 0 <= i < |t.polls| ==>
         OnePoll(t.memory[i], t.polls[i]) == Books(t.memory[i + 1], t.mails[i])
  }

  /** Poll i delivered mail about k, and k has been live in all polls from then to n. */
  ghost predicate ToldSince(t: Trace, i: nat, n: nat, k: Key)
    requires n <= |t.polls| && |t.mails| == |t.polls|
  {
    i < n && Delivered(t.mails[i], k) == 1 && forall m :: i <= m < n ==> Live(t.polls[m], k)
  }

  ghost predicate Told(t: Trace, n: nat, k: Key)
    requires n <= |t.polls| && |t.mails| == |t.polls|
  {
    exists i: nat :: ToldSince(t, i, n, k)
  }

  lemma ToldStep(t: Trace, m: nat, n: nat, k: Key)
    requires m < |t.polls| && n == m + 1 && |t.mails| == |t.polls|
    ensures Told(t, n, k) <==> Live(t.polls[m], k) && (Told(t, m, k) || Delivered(t.mails[m], k) == 1)
  {
    if i: nat :| ToldSince(t, i, n, k) {
      assert i < m ==> ToldSince(t, i, m, k);
    }
    if Live(t.polls[m], k) {
      if Delivered(t.mails[m], k) == 1 { assert ToldSince(t, m, n, k); }
      if i: nat :| ToldSince(t, i, m, k) { assert ToldSince(t, i, n, k); }
    }
  }

  lemma GrantedIsLive(p: Poll, k: Key)
    ensures Granted(p, k) ==> Live(p, k)
  {
    IssueGrants(p, k);
    IssueEntriesMean(p, k);
    if k.Issue? && Granted(p, k) {
      var e :| e in IssueEntries(p) && e.key == k && e.wanted && e.accepted;
      assert Asks(IssueEntries(p), k);
    }
    if k.Escalate? && Granted(p, k) {
      var i: nat :| i < |p.approvals| && p.approvals[i].id == k.id;
      assert p.approvals[i] in p.approvals;
    }
  }

  lemma PollStep(t: Trace, n: nat, k: Key)
    requires IsTrace(t) && n < |t.polls|
    ensures k in t.memory[n + 1] <==>
      Live(t.polls[n], k) && (k in t.memory[n] || Delivered(t.mails[n], k) == 1)
    ensures Attempted(t.mails[n], k) <==> Wanted(t.polls[n], k) && k !in t.memory[n]
    ensures Delivered(t.mails[n], k) == 1 ==> Attempted(t.mails[n], k) && Live(t.polls[n], k)
    ensures Delivered(t.mails[n], k) <= 1
    ensures Delivered(t.mails[n], k) == 1 <==> Granted(t.polls[n], k) && k !in t.memory[n]
  {
    GrantedIsLive(t.polls[n], k);
    PollHandles(t.memory[n], t.polls[n], k);
    DeliveredWasAttempted(t.mails[n], k);
  }

  /** The memory is exactly that: keys delivered once and live ever since. */
  lemma {:induction false} RememberedExactly(t: Trace, n: nat, k: Key)
    requires IsTrace(t) && n <= |t.polls|
    ensures k in t.memory[n] <==> Told(t, n, k)
  {
    if n > 0 {
      var m := n - 1;
      var live, sent := Live(t.polls[m], k), Delivered(t.mails[m], k) == 1;
      assert k in t.memory[n] <==> live && (k in t.memory[m] || sent) by { PollStep(t, m, k); }
      assert Told(t, n, k) <==> live && (Told(t, m, k) || sent) by { ToldStep(t, m, n, k); }
      assert k in t.memory[m] <==> Told(t, m, k) by { RememberedExactly(t, m, k); }
    }
  }

  /**
   * Mail about a key is attempted at every poll that wants it, except while the key has been
   * live since a mail about it was delivered; so failed mails are retried at every poll, and
   * one is delivered exactly when the server accepts one of them.
   */
  lemma AttemptedExactly(t: Trace, n: nat, k: Key)
    requires IsTrace(t) && n < |t.polls|
    ensures Attempted(t.mails[n], k) <==> Wanted(t.polls[n], k) && !Told(t, n, k)
    ensures Delivered(t.mails[n], k) == 1 <==> Granted(t.polls[n], k) && !Told(t, n, k)
    ensures Delivered(t.mails[n], k) <= 1
  {
    RememberedExactly(t, n, k);
    PollStep(t, n, k);
  }

  /** Two delivered mails about a key are separated by a poll in which the key was absent. */
  lemma MailsSeparated(t: Trace, i: nat, j: nat, k: Key)
    requires IsTrace(t) && i < j < |t.polls|
    requires Delivered(t.mails[i], k) == 1 && Delivered(t.mails[j], k) == 1
    ensures exists m :: i < m < j && !Live(t.polls[m], k)
  {
    assert !Told(t, j, k) by {
      RememberedExactly(t, j, k);
      PollStep(t, j, k);
    }
    assert Live(t.polls[i], k) by { PollStep(t, i, k); }
    assert !ToldSince(t, i, j, k);
  }

  // ---------------------------------------------------------------- the daily summary

  const DAY_MINUTES := 24 * 60

  /** A reading of the clock: minutes since the epoch and the zone's offset from UTC. */
  datatype Clock = Clock(utc: int, offset: int)

  function UtcDate(c: Clock): int { c.utc / DAY_MINUTES }
  function LocalDate(c: Clock): int { (c.utc + c.offset) / DAY_MINUTES }
  function LocalMinute(c: Clock): int { (c.utc + c.offset) % DAY_MINUTES }

  datatype Target = Target(hour: nat, minute: nat)
  datatype LastSummary = Never | On(date: int)

  predicate TooEarly(c: Clock, t: Target) {
    var hours, minutes := LocalMinute(c) / 60, LocalMinute(c) % 60;
    hours < t.hour || (hours == t.hour && minutes < t.minute)
  }

  /** Dates and minutes of the day split the two clocks, and a poll is too early exactly while the
      local minute of the day lies before the target's. */
  lemma ClockMeans(c: Clock, t: Target)
    ensures 0 <= c.utc - UtcDate(c) * DAY_MINUTES < 1440
    ensures 0 <= LocalMinute(c) == c.utc + c.offset - LocalDate(c) * DAY_MINUTES < 1440
    ensures t.minute < 60 ==> (TooEarly(c, t) <==> LocalMinute(c) < t.hour * 60 + t.minute)
  {}

  predicate SummaryDue(last: LastSummary, c: Clock, t: Target) {
    last != On(UtcDate(c)) && !TooEarly(c, t)
  }

  function LastBefore(clocks: seq<Clock>, n: nat, t: Target): LastSummary
    requires n <= |clocks|
  {
    if n == 0 then Never
    else
      var last := LastBefore(clocks, n - 1, t);
      if SummaryDue(last, clocks[n - 1], t) then On(UtcDate(clocks[n - 1])) else last
  }

  predicate SummaryAt(clocks: seq<Clock>, n: nat, t: Target)
    requires n < |clocks|
  {
    SummaryDue(LastBefore(clocks, n, t), clocks[n], t)
  }

  ghost predicate InOrder(clocks: seq<Clock>) {
    forall i, j :: 0 <= i < j < |clocks| ==> clocks[i].utc <= clocks[j].utc
  }

  lemma {:induction false} LastSummaryDate(clocks: seq<Clock>, n: nat, t: Target)
    requires n <= |clocks| && InOrder(clocks)
    ensures LastBefore(clocks, n, t).On? ==>
      exists k: nat :: k < n && !TooEarly(clocks[k], t) && LastBefore(clocks, n, t).date == UtcDate(clocks[k])
    ensures forall k: nat :: k < n && !TooEarly(clocks[k], t) ==>
      LastBefore(clocks, n, t).On? && LastBefore(clocks, n, t).date >= UtcDate(clocks[k])
  {
    if n > 0 {
      var m := n - 1;
      LastSummaryDate(clocks, m, t);
      DatesInOrder(clocks, m);
      if SummaryDue(LastBefore(clocks, m, t), clocks[m], t) {
        assert LastBefore(clocks, n, t) == On(UtcDate(clocks[m]));
      } else {
        assert LastBefore(clocks, n, t) == LastBefore(clocks, m, t);
      }
    }
  }

  /** The summary is attempted at the first poll of a UTC date that is late enough by local time. */
  lemma SummaryExactly(clocks: seq<Clock>, n: nat, t: Target)
    requires n < |clocks| && InOrder(clocks)
    ensures SummaryAt(clocks, n, t) <==>
      && !TooEarly(clocks[n], t)
      && forall k: nat :: k < n && UtcDate(clocks[k]) == UtcDate(clocks[n]) ==> TooEarly(clocks[k], t)
  {
    LastSummaryDate(clocks, n, t);
    DatesInOrder(clocks, n);
  }

  lemma DatesInOrder(clocks: seq<Clock>, n: nat)
    requires n < |clocks| && InOrder(clocks)
    ensures forall k: nat :: k < n ==> UtcDate(clocks[k]) <= UtcDate(clocks[n])
  {}

  lemma SummaryOncePerUtcDate(clocks: seq<Clock>, i: nat, j: nat, t: Target)
    requires i < j < |clocks| && InOrder(clocks) && SummaryAt(clocks, i, t) && SummaryAt(clocks, j, t)
    ensures UtcDate(clocks[i]) < UtcDate(clocks[j])
  {
    SummaryExactly(clocks, i, t);
    SummaryExactly(clocks, j, t);
    DatesInOrder(clocks, j);
  }

  /** The local minute of the day at which the UTC date changes. */
  function UtcMidnight(offset: int): int { offset % DAY_MINUTES }

  function TargetMinute(t: Target): int { t.hour * 60 + t.minute }

  /** Whole days by which local dates are ahead of UTC dates at UTC midnight: 0 east, -1 west. */
  function Side(c: Clock): int { c.offset / DAY_MINUTES }

  /** Where UTC midnight comes no later than the target by local time, two summaries fall on
      different local dates exactly unless the zone crosses UTC westward in between. */
  lemma SummaryLocalDatesExactly(clocks: seq<Clock>, i: nat, j: nat, t: Target)
    requires i < j < |clocks| && InOrder(clocks) && t.hour < 24 && t.minute < 60
    requires UtcMidnight(clocks[i].offset) <= TargetMinute(t) && UtcMidnight(clocks[j].offset) <= TargetMinute(t)
    requires SummaryAt(clocks, i, t) && SummaryAt(clocks, j, t)
    ensures LocalDate(clocks[i]) < LocalDate(clocks[j]) <==>
      Side(clocks[i]) - Side(clocks[j]) < UtcDate(clocks[j]) - UtcDate(clocks[i])
  {
    SummaryExactly(clocks, i, t);
    SummaryExactly(clocks, j, t);
    SameDates(clocks[i], t);
    SameDates(clocks[j], t);
  }

  /** So at most once per local date while the zone does not cross UTC westward. */
  lemma SummaryOncePerLocalDate(clocks: seq<Clock>, i: nat, j: nat, t: Target)
    requires i < j < |clocks| && InOrder(clocks) && t.hour < 24 && t.minute < 60
    requires UtcMidnight(clocks[i].offset) <= TargetMinute(t) && UtcMidnight(clocks[j].offset) <= TargetMinute(t)
    requires Side(clocks[i]) <= Side(clocks[j])
    requires SummaryAt(clocks, i, t) && SummaryAt(clocks, j, t)
    ensures LocalDate(clocks[i]) < LocalDate(clocks[j])
  {
    SummaryOncePerUtcDate(clocks, i, j, t);
    SummaryLocalDatesExactly(clocks, i, j, t);
  }

  /** A zone that goes from UTC to an hour west of it, as the Azores do each autumn, can get two
      summaries at 23:00 on one local date. */
  lemma SummaryTwiceAcrossUtc(t: Target, clocks: seq<Clock>)
    requires t == Target(23, 0) && clocks == [Clock(23 * 60, 0), Clock(24 * 60, -60)]
    ensures InOrder(clocks) && SummaryAt(clocks, 0, t) && SummaryAt(clocks, 1, t)
    ensures LocalDate(clocks[0]) == LocalDate(clocks[1])
  {
    assert LastBefore(clocks, 0, t) == Never;
    assert LastBefore(clocks, 1, t) == On(0);
  }

  lemma SameDates(c: Clock, t: Target)
    requires t.hour < 24 && t.minute < 60 && UtcMidnight(c.offset) <= TargetMinute(t)
    requires !TooEarly(c, t)
    ensures UtcDate(c) == LocalDate(c) - c.offset / DAY_MINUTES
  {}

  /** Otherwise twice on the same local date: at the target and again when the UTC date changes. */
  lemma SummaryTwicePerLocalDate(t: Target, offset: int)
    requires t.hour < 24 && t.minute < 60 && TargetMinute(t) < UtcMidnight(offset)
    ensures var clocks := [Clock(TargetMinute(t) - offset, offset), Clock(UtcMidnight(offset) - offset, offset)];
      && InOrder(clocks) && SummaryAt(clocks, 0, t) && SummaryAt(clocks, 1, t)
      && LocalDate(clocks[0]) == LocalDate(clocks[1])
  {
    var first, second := Clock(TargetMinute(t) - offset, offset), Clock(UtcMidnight(offset) - offset, offset);
    BothLateEnough(first, second, t);
    var clocks := [first, second];
    assert clocks[0] == first && clocks[1] == second;
    assert LastBefore(clocks, 0, t) == Never;
    assert LastBefore(clocks, 1, t) == On(UtcDate(first));
  }

  /** Worse, there every UTC date whose first minute is polled has its summary in that minute,
      which by local time is later than the target, and none at the target. */
  lemma SummaryAtUtcMidnight(clocks: seq<Clock>, n: nat, t: Target)
    requires n < |clocks| && InOrder(clocks) && t.hour < 24 && t.minute < 60
    requires TargetMinute(t) < UtcMidnight(clocks[n].offset)
    requires clocks[n].utc % DAY_MINUTES == 0 && forall k: nat :: k < n ==> UtcDate(clocks[k]) < UtcDate(clocks[n])
    ensures SummaryAt(clocks, n, t) && LocalMinute(clocks[n]) == UtcMidnight(clocks[n].offset)
    ensures forall k: nat :: k < |clocks| && k != n && UtcDate(clocks[k]) == UtcDate(clocks[n]) ==>
      !SummaryAt(clocks, k, t)
  {
    MidnightMinute(clocks[n]);
    NotTooEarly(clocks[n], t);
    SummaryExactly(clocks, n, t);
    forall k: nat | k < |clocks| && k != n && UtcDate(clocks[k]) == UtcDate(clocks[n])
      ensures !SummaryAt(clocks, k, t)
    {
      assert n < k;
      SummaryExactly(clocks, k, t);
    }
  }

  lemma MidnightMinute(c: Clock)
    requires c.utc % DAY_MINUTES == 0
    ensures LocalMinute(c) == UtcMidnight(c.offset)
  {}

  lemma NotTooEarly(c: Clock, t: Target)
    requires t.hour < 24 && t.minute < 60 && TargetMinute(t) <= LocalMinute(c)
    ensures !TooEarly(c, t)
  {}

  lemma BothLateEnough(first: Clock, second: Clock, t: Target)
    requires t.hour < 24 && t.minute < 60 && first.offset == second.offset
    requires TargetMinute(t) < UtcMidnight(first.offset)
    requires first.utc == TargetMinute(t) - first.offset
    requires second.utc == UtcMidnight(second.offset) - second.offset
    ensures !TooEarly(first, t) && !TooEarly(second, t) && first.utc < second.utc
    ensures LocalDate(first) == LocalDate(second) == 0 && UtcDate(first) < UtcDate(second)
  {
    LateEnough(first, t);
    LateEnough(second, t);
    DatesDiffer(first.utc, second.utc, first.offset);
  }

  lemma LateEnough(c: Clock, t: Target)
    requires t.hour < 24 && t.minute < 60 && TargetMinute(t) <= c.utc + c.offset < DAY_MINUTES
    ensures !TooEarly(c, t) && LocalDate(c) == 0
  {}

  lemma DatesDiffer(earlier: int, midnight: int, offset: int)
    requires midnight == offset % DAY_MINUTES - offset && earlier < midnight
    ensures earlier / DAY_MINUTES < midnight / DAY_MINUTES
  {
    assert midnight == -(offset / DAY_MINUTES) * DAY_MINUTES;
  }

  // ---------------------------------------------------------------- the module's state

  class Service {
    const enabled: bool
    const target: Target
    var notified: set<Key>
    var lastSummary: LastSummary

    constructor (enabled: bool, target: Target)
      ensures notified == {} && lastSummary == Never
      ensures this.enabled == enabled && this.target == target
    {
      this.enabled, this.target := enabled, target;
      notified, lastSummary := {}, Never;
    }

    /** Deletes the keys of a kind that are not live, one after the other. */
    method ForgetGone(kind: Key, live: seq<Key>)
      modifies this`notified
      ensures notified == Forget(old(notified), kind, live)
    {
      var todo := notified;
      while todo != {}
        invariant todo <= notified
        invariant notified == Forget(old(notified) - todo, kind, live) + todo
      {
        var key :| key in todo;
        todo := todo - {key};
        if SameKind(kind, key) && key !in live {
          notified := notified - {key};
        }
      }
    }

    method CheckCriticalConcerns(p: Poll) returns (mails: seq<Mail>)
      modifies this`notified
      ensures Books(notified, mails) == CheckIssues(old(notified), p)
    {
      var criticals := Criticals(p.concerns);
      ghost var es := IssueEntries(p);
      ForgetGone(Issue(""), Keys(IssueEntries(p)));
      ghost var start := Books(notified, []);
      mails := [];
      for i := 0 to |criticals|
        invariant Books(notified, mails) == VisitAll(start, es[..i])
      {
        VisitStep(start, es, i);
        var key := Issue(criticals[i].id);
        if key in notified { continue; }
        mails := mails + [Mail([key], p.issueAccepted(i))];
        if p.issueAccepted(i) { notified := notified + {key}; }
      }
      assert es[..|criticals|] == es;
    }

    method CheckPendingApprovals(p: Poll) returns (mails: seq<Mail>)
      modifies this`notified
      ensures Books(notified, mails) == CheckApprovals(old(notified), p)
    {
      var keys := ApprovalKeys(p.approvals);
      ForgetGone(Approval(""), keys);
      var unseen := Unseen(keys, notified);
      if unseen == [] { return []; }
      mails := [Mail(unseen, p.batchAccepted)];
      if p.batchAccepted {
        ghost var was := notified;
        for i := 0 to |unseen|
          invariant notified == was + set k | k in unseen[..i]
        {
          notified := notified + {unseen[i]};
          assert unseen[..i + 1] == unseen[..i] + [unseen[i]];
        }
        assert unseen[..|unseen|] == unseen;
      }
    }

    method CheckEscalations(p: Poll) returns (mails: seq<Mail>)
      modifies this`notified
      ensures Books(notified, mails) == CheckReminders(old(notified), p)
    {
      ghost var es := ReminderEntries(p);
      ForgetGone(Escalate(""), Keys(ReminderEntries(p)));
      ghost var start := Books(notified, []);
      mails := [];
      for i := 0 to |p.approvals|
        invariant Books(notified, mails) == VisitAll(start, es[..i])
      {
        VisitStep(start, es, i);
        var a := p.approvals[i];
        assert es[i] == Entry(Escalate(a.id), Overdue(a, p.now), p.reminderAccepted(i));
        var key := Escalate(a.id);
        if key in notified { continue; }
        if a.importance != "high" && a.risk != "high" { continue; }
        var timeoutHours := if a.risk == "high" then 48 else 24;
        var half := timeoutHours / 2;
        if a.time.At? && p.now - a.time.ms < half * HOUR_MS { continue; }
        mails := mails + [Mail([key], p.reminderAccepted(i))];
        if p.reminderAccepted(i) { notified := notified + {key}; }
      }
      assert es[..|p.approvals|] == es;
    }

    /** Marks the date before attempting, so a failure is not retried. */
    method MaybeSendDailySummary(c: Clock) returns (attempted: bool)
      modifies this`lastSummary
      ensures attempted == SummaryDue(old(lastSummary), c, target)
      ensures lastSummary == if attempted then On(UtcDate(c)) else old(lastSummary)
    {
      if lastSummary == On(UtcDate(c)) { return false; }
      var hours, minutes := LocalMinute(c) / 60, LocalMinute(c) % 60;
      if hours < target.hour || (hours == target.hour && minutes < target.minute) { return false; }
      lastSummary := On(UtcDate(c));
      return true;
    }

    method OnFleetUpdate(p: Poll, c: Clock) returns (mails: seq<Mail>, summary: bool)
      modifies this
      ensures enabled ==>
        && Books(notified, mails) == OnePoll(old(notified), p)
        && summary == SummaryDue(old(lastSummary), c, target)
        && lastSummary == if summary then On(UtcDate(c)) else old(lastSummary)
      ensures !enabled ==>
        mails == [] && !summary && notified == old(notified) && lastSummary == old(lastSummary)
    {
      if !enabled { return [], false; }
      var issues := CheckCriticalConcerns(p);
      var approvals := CheckPendingApprovals(p);
      var reminders := CheckEscalations(p);
      summary := MaybeSendDailySummary(c);
      mails := issues + approvals + reminders;
    }
  }

  lemma VisitStep(b: Books, es: seq<Entry>, i: nat)
    requires i < |es|
    ensures VisitAll(b, es[..i + 1]) == Visit(VisitAll(b, es[..i]), es[i])
  {
    assert es[..i + 1][..i] == es[..i];
  }
}
