/**
 * The tool-use loop of an agent (endpoint-server/a2a/agent/agent.go): the conversation it
 * grows, the tools it executes and when it stops, whatever the model and the tools answer.
 */
module AgentRun {

  datatype ToolCall = ToolCall(id: string, name: string, arguments: string)

  datatype Message =
    | System(text: string)
    | User(text: string)
    | Assistant(text: string, calls: seq<ToolCall>)
    | Tool(text: string, id: string)

  datatype Completion =
    | ApiError
    | NoChoices
    | Choice(finishReason: string, content: string, calls: seq<ToolCall>)

  datatype Outcome = Ok(text: string) | Error(text: string)

  /** What a run depends on: the i-th completion and the outcome of the k-th tool execution.
      The nudge is the fixed text that asks the model to stop repeating a call. */
  datatype World = World(
    system: string, user: string, nudge: string, tools: set<string>,
    completions: nat -> Completion, outcomes: nat -> Outcome, sanitize: string -> string)

  datatype Result =
    | Answer(text: string)
    | Repeated(lastResult: string, count: nat)
    | ApiFailed
    | EmptyResponse
    | OutOfIterations

  function Signature(c: ToolCall): string { c.name + ":" + c.arguments }

  /** Without a colon in tool names, a signature stands for one tool and one argument text. */
  lemma SignatureIdentifies(c: ToolCall, d: ToolCall)
    requires ':' !in c.name && ':' !in d.name
    ensures Signature(c) == Signature(d) <==> c.name == d.name && c.arguments == d.arguments
  {
    if Signature(c) == Signature(d) {
      var s := Signature(c);
      assert s[|c.name|] == ':' && s[|d.name|] == ':';
      assert forall i :: 0 <= i < |c.name| ==> s[i] == c.name[i];
      assert forall i :: 0 <= i < |d.name| ==> s[i] == d.name[i];
      assert c.name == s[..|c.name|] && d.name == s[..|d.name|];
      assert c.arguments == s[|c.name| + 1..] && d.arguments == s[|d.name| + 1..];
    }
  }

  // ---------------------------------------------------------------- what a history of calls means

  predicate Counts(w: World, c: ToolCall, sig: string) {
    c.name in w.tools && Signature(c) == sig
  }

  /** How often a known tool was called with this signature. */
  function Count(w: World, history: seq<ToolCall>, sig: string): nat {
    if history == [] then 0
    else
      var n := |history| - 1;
      Count(w, history[..n], sig) + if Counts(w, history[n], sig) then 1 else 0
  }

  /** A call is executed when it is the first with its signature. */
  predicate IsFirst(w: World, history: seq<ToolCall>, c: ToolCall) {
    c.name in w.tools && Count(w, history, Signature(c)) == 0
  }

  function Executed(w: World, history: seq<ToolCall>): seq<ToolCall> {
    if history == [] then []
    else
      var n := |history| - 1;
      Executed(w, history[..n]) + if IsFirst(w, history[..n], history[n]) then [history[n]] else []
  }

  function OutcomeOf(w: World, history: seq<ToolCall>): Outcome {
    w.outcomes(|Executed(w, history)|)
  }

  /** The sanitised result of the one execution of a signature; empty if it failed or never ran. */
  function ResultOf(w: World, history: seq<ToolCall>, sig: string): string {
    if history == [] then ""
    else
      var n := |history| - 1;
      var (before, c) := (history[..n], history[n]);
      if Counts(w, c, sig) && IsFirst(w, before, c) then
        match OutcomeOf(w, before)
        case Ok(text) => w.sanitize(text)
        case Error(_) => ""
      else ResultOf(w, before, sig)
  }

  /** The text that answers a call after a history of calls. */
  function AnswerTo(w: World, history: seq<ToolCall>, c: ToolCall): string {
    if c.name !in w.tools then "unknown tool: " + c.name
    else if IsFirst(w, history, c) then
      match OutcomeOf(w, history)
      case Ok(text) => w.sanitize(text)
      case Error(text) => "error: " + text
    else ResultOf(w, history, Signature(c)) + w.nudge
  }

  function Answers(w: World, history: seq<ToolCall>, calls: seq<ToolCall>): seq<Message> {
    if calls == [] then []
    else
      var n := |calls| - 1;
      Answers(w, history, calls[..n]) + [Tool(AnswerTo(w, history + calls[..n], calls[n]), calls[n].id)]
  }

  function CallsOf(c: Completion): seq<ToolCall> {
    if c.Choice? then c.calls else []
  }

  /** All calls of the first n completions. */
  function History(w: World, n: nat): seq<ToolCall> {
    if n == 0 then [] else History(w, n - 1) + CallsOf(w.completions(n - 1))
  }

  function Turn(w: World, i: nat): seq<Message> {
    var c := w.completions(i);
    [Assistant(if c.Choice? then c.content else "", CallsOf(c))] + Answers(w, History(w, i), CallsOf(c))
  }

  /** What the n-th request (from 0) carries. */
  function Conversation(w: World, n: nat): seq<Message> {
    if n == 0 then [System(w.system), User(w.user)]
    else Conversation(w, n - 1) + Turn(w, n - 1)
  }

  predicate WantsTools(c: Completion) { c.Choice? && c.finishReason == "tool_calls" }

  /** No known tool was called three times with one signature. */
  ghost predicate NoThird(w: World, history: seq<ToolCall>) {
    forall sig :: Count(w, history, sig) <= 2
  }

  // ---------------------------------------------------------------- properties of a history

  lemma CountStep(w: World, history: seq<ToolCall>, c: ToolCall)
    ensures forall sig ::
      Count(w, history + [c], sig) == Count(w, history, sig) + if Counts(w, c, sig) then 1 else 0
  {
    assert (history + [c])[..|history|] == history;
  }

  lemma ExecutedStep(w: World, history: seq<ToolCall>, c: ToolCall)
    ensures Executed(w, history + [c]) ==
      Executed(w, history) + if IsFirst(w, history, c) then [c] else []
  {
    assert (history + [c])[..|history|] == history;
  }

  lemma ResultStep(w: World, history: seq<ToolCall>, c: ToolCall)
    ensures forall sig ::
      ResultOf(w, history + [c], sig) ==
      if Counts(w, c, sig) && IsFirst(w, history, c) then
        (match OutcomeOf(w, history) case Ok(text) => w.sanitize(text) case Error(_) => "")
      else ResultOf(w, history, sig)
  {
    assert (history + [c])[..|history|] == history;
  }

  /** Exactly the signatures asked for are executed, each once, and only known tools are. */
  lemma {:induction false} ExecutedOnce(w: World, history: seq<ToolCall>)
    ensures forall i, j :: 0 <= i < j < |Executed(w, history)| ==>
      Signature(Executed(w, history)[i]) != Signature(Executed(w, history)[j])
    ensures forall c :: c in Executed(w, history) ==> c.name in w.tools && c in history
    ensures forall sig :: Count(w, history, sig) > 0 <==>
      exists c :: c in Executed(w, history) && Signature(c) == sig
  {
    if history != [] {
      var n := |history| - 1;
      var before, c := history[..n], history[n];
      ExecutedOnce(w, before);
      assert history == before + [c];
      CountStep(w, before, c);
      ExecutedStep(w, before, c);
      if IsFirst(w, before, c) {
        assert c in Executed(w, history);
        assert forall d :: d in Executed(w, before) ==> Signature(d) != Signature(c);
      }
    }
  }

  /** A repeated call is answered from the one execution: empty if that failed. */
  lemma {:induction false} ResultIsThatOfTheFirst(w: World, history: seq<ToolCall>, k: nat)
    requires k < |history| && IsFirst(w, history[..k], history[k])
    ensures ResultOf(w, history, Signature(history[k])) ==
      match OutcomeOf(w, history[..k])
      case Ok(text) => w.sanitize(text)
      case Error(_) => ""
    ensures Count(w, history, Signature(history[k])) > 0
  {
    var n := |history| - 1;
    if k < n {
      assert history[..n][..k] == history[..k];
      ResultIsThatOfTheFirst(w, history[..n], k);
    }
  }

  // ---------------------------------------------------------------- what each call is answered

  /** The signatures of the known tools asked for. */
  ghost function Signatures(w: World, history: seq<ToolCall>): set<string> {
    set c | c in history && c.name in w.tools :: Signature(c)
  }

  ghost predicate FirstAt(w: World, history: seq<ToolCall>, k: nat, sig: string) {
    k < |history| && Counts(w, history[k], sig) && forall j :: 0 <= j < k ==> !Counts(w, history[j], sig)
  }

  /** The outcome of a first call: executions are numbered by the signatures before it. */
  ghost function FirstOutcome(w: World, before: seq<ToolCall>): Outcome {
    w.outcomes(|Signatures(w, before)|)
  }

  /**
   * What a call after these calls has to be answered: an unknown tool is named; the first with
   * its signature gets the sanitised result or the error; a repeat gets the result of the first,
   * empty if that failed, and the nudge.
   */
  ghost predicate RightAnswer(w: World, history: seq<ToolCall>, c: ToolCall, text: string) {
    if c.name !in w.tools then text == "unknown tool: " + c.name
    else if Signature(c) !in Signatures(w, history) then
      match FirstOutcome(w, history)
      case Ok(result) => text == w.sanitize(result)
      case Error(reason) => text == "error: " + reason
    else
      exists k: nat :: FirstAt(w, history, k, Signature(c)) &&
        match FirstOutcome(w, history[..k])
        case Ok(result) => text == w.sanitize(result) + w.nudge
        case Error(_) => text == w.nudge
  }

  lemma SignaturesStep(w: World, history: seq<ToolCall>, c: ToolCall)
    ensures Signatures(w, history + [c]) ==
      Signatures(w, history) + if c.name in w.tools then {Signature(c)} else {}
  {
    forall sig | sig in Signatures(w, history) + (if c.name in w.tools then {Signature(c)} else {})
      ensures sig in Signatures(w, history + [c])
    {
      if sig in Signatures(w, history) {
        var d :| d in history && d.name in w.tools && Signature(d) == sig;
        assert d in history + [c];
      } else {
        assert c in history + [c];
      }
    }
  }

  /** Exactly the signatures asked for were counted, and there was one execution for each. */
  lemma {:induction false} SignaturesCounted(w: World, history: seq<ToolCall>)
    ensures forall sig :: Count(w, history, sig) > 0 <==> sig in Signatures(w, history)
    ensures |Executed(w, history)| == |Signatures(w, history)|
  {
    if history != [] {
      var n := |history| - 1;
      SignaturesCounted(w, history[..n]);
      assert history == history[..n] + [history[n]];
      CountedStep(w, history[..n], history[n]);
    }
  }

  lemma CountedStep(w: World, history: seq<ToolCall>, c: ToolCall)
    requires forall sig :: Count(w, history, sig) > 0 <==> sig in Signatures(w, history)
    requires |Executed(w, history)| == |Signatures(w, history)|
    ensures forall sig :: Count(w, history + [c], sig) > 0 <==> sig in Signatures(w, history + [c])
    ensures |Executed(w, history + [c])| == |Signatures(w, history + [c])|
  {
    var before, after := Signatures(w, history), Signatures(w, history + [c]);
    SignaturesStep(w, history, c);
    assert forall sig :: Count(w, history + [c], sig) > 0 <==> sig in after by { CountStep(w, history, c); }
    ExecutedStep(w, history, c);
    if c.name in w.tools && Signature(c) in before { assert after == before; }
  }

  /** Every signature asked for has a first call, and that one was executed. */
  lemma {:induction false} FirstExists(w: World, history: seq<ToolCall>, sig: string) returns (k: nat)
    requires Count(w, history, sig) > 0
    ensures FirstAt(w, history, k, sig) && IsFirst(w, history[..k], history[k])
    ensures Signature(history[k]) == sig
  {
    var n := |history| - 1;
    if Count(w, history[..n], sig) > 0 {
      k := FirstExists(w, history[..n], sig);
      assert history[..n][..k] == history[..k];
    } else {
      k := n;
      NotCounted(w, history[..n], sig);
    }
  }

  lemma {:induction false} NotCounted(w: World, history: seq<ToolCall>, sig: string)
    requires Count(w, history, sig) == 0
    ensures forall j :: 0 <= j < |history| ==> !Counts(w, history[j], sig)
  {
    if history != [] { NotCounted(w, history[..|history| - 1], sig); }
  }

  lemma AnswerMeans(w: World, history: seq<ToolCall>, c: ToolCall)
    ensures RightAnswer(w, history, c, AnswerTo(w, history, c))
  {
    SignaturesCounted(w, history);
    if c.name in w.tools && Count(w, history, Signature(c)) > 0 {
      var k := FirstExists(w, history, Signature(c));
      ResultIsThatOfTheFirst(w, history, k);
      SignaturesCounted(w, history[..k]);
    }
  }

  /** A message that answers call j of a turn. */
  ghost predicate Settles(w: World, history: seq<ToolCall>, calls: seq<ToolCall>, j: nat, m: Message)
    requires j < |calls|
  {
    m.Tool? && m.id == calls[j].id && RightAnswer(w, history + calls[..j], calls[j], m.text)
  }

  ghost predicate SettlesAll(w: World, history: seq<ToolCall>, calls: seq<ToolCall>, ms: seq<Message>)
    requires |ms| == |calls|
  {
    forall j :: 0 <= j < |calls| ==> Settles(w, history, calls, j, ms[j])
  }

  lemma {:induction false} AnswersMean(w: World, history: seq<ToolCall>, calls: seq<ToolCall>)
    ensures |Answers(w, history, calls)| == |calls|
    ensures SettlesAll(w, history, calls, Answers(w, history, calls))
  {
    if calls != [] {
      var n := |calls| - 1;
      AnswersMean(w, history, calls[..n]);
      AnswerMeans(w, history + calls[..n], calls[n]);
      var front := Answers(w, history, calls[..n]);
      forall j | 0 <= j < n ensures Settles(w, history, calls, j, front[j]) {
        SettlesInPrefix(w, history, calls, n, j, front[j]);
      }
    }
  }

  lemma SettlesInPrefix(w: World, history: seq<ToolCall>, calls: seq<ToolCall>, n: nat, j: nat, m: Message)
    requires j < n <= |calls| && Settles(w, history, calls[..n], j, m)
    ensures Settles(w, history, calls, j, m)
  {
    assert calls[..n][..j] == calls[..j];
  }

  /** Message by message: where turn i starts, what it says and how each of its calls is answered. */
  ghost predicate TellsTurn(w: World, ms: seq<Message>, i: nat) {
    var c, start := w.completions(i), 2 + i + |History(w, i)|;
    && start < start + 1 + |CallsOf(c)| <= |ms|
    && ms[start] == Assistant(if c.Choice? then c.content else "", CallsOf(c))
    && SettlesAll(w, History(w, i), CallsOf(c), ms[start + 1..start + 1 + |CallsOf(c)|])
  }

  ghost predicate TellsTurns(w: World, ms: seq<Message>, n: nat) {
    |ms| == 2 + n + |History(w, n)| && forall i: nat :: i < n ==> TellsTurn(w, ms, i)
  }

  /** Every request carries all turns before it, each call with its answer, and nothing else. */
  lemma {:induction false} ConversationTells(w: World, n: nat)
    ensures TellsTurns(w, Conversation(w, n), n)
  {
    if n > 0 {
      var ms, turn := Conversation(w, n - 1), Turn(w, n - 1);
      ConversationTells(w, n - 1);
      LastTurnTells(w, n - 1, ms);
      forall i: nat | i < n - 1 ensures TellsTurn(w, ms + turn, i) { TellsMore(w, ms, turn, i); }
    }
  }

  lemma LastTurnTells(w: World, i: nat, ms: seq<Message>)
    requires |ms| == 2 + i + |History(w, i)|
    ensures |Turn(w, i)| == 1 + |CallsOf(w.completions(i))|
    ensures TellsTurn(w, ms + Turn(w, i), i)
  {
    var calls, history := CallsOf(w.completions(i)), History(w, i);
    var answers := Answers(w, history, calls);
    AnswersMean(w, history, calls);
    var said := Turn(w, i)[0];
    assert Turn(w, i) == [said] + answers;
    TurnInPlace(ms, said, answers);
  }

  lemma TurnInPlace(ms: seq<Message>, said: Message, answers: seq<Message>)
    ensures var all := ms + ([said] + answers);
      all[|ms|] == said && all[|ms| + 1..|ms| + 1 + |answers|] == answers
  {}

  lemma TellsMore(w: World, ms: seq<Message>, more: seq<Message>, i: nat)
    requires TellsTurn(w, ms, i)
    ensures TellsTurn(w, ms + more, i)
  {
    var first := 3 + i + |History(w, i)|;
    var next := first + |CallsOf(w.completions(i))|;
    assert (ms + more)[first..next] == ms[first..next];
  }

  // ---------------------------------------------------------------- the shape of a conversation

  /** Turns of the assistant, each followed by one tool message per call, in order. */
  predicate Blocks(ms: seq<Message>)
    decreases |ms|
  {
    ms == [] ||
    (ms[0].Assistant? && |ms[0].calls| < |ms| &&
     AnswersAll(ms[1..1 + |ms[0].calls|], ms[0].calls) &&
     Blocks(ms[1 + |ms[0].calls|..]))
  }

  predicate AnswersAll(ms: seq<Message>, calls: seq<ToolCall>)
    requires |ms| == |calls|
  {
    forall j :: 0 <= j < |calls| ==> ms[j].Tool? && ms[j].id == calls[j].id
  }

  predicate WellFormed(ms: seq<Message>) {
    |ms| >= 2 && ms[0].System? && ms[1].User? && Blocks(ms[2..])
  }

  lemma {:induction false} AnswersMatch(w: World, history: seq<ToolCall>, calls: seq<ToolCall>)
    ensures |Answers(w, history, calls)| == |calls|
    ensures AnswersAll(Answers(w, history, calls), calls)
  {
    if calls != [] { AnswersMatch(w, history, calls[..|calls| - 1]); }
  }

  lemma {:induction false} BlocksExtend(ms: seq<Message>, turn: Message, answers: seq<Message>)
    requires Blocks(ms)
    requires turn.Assistant? && |answers| == |turn.calls| && AnswersAll(answers, turn.calls)
    ensures Blocks(ms + [turn] + answers)
    decreases |ms|
  {
    var all := ms + [turn] + answers;
    if ms == [] {
      assert all[1..1 + |turn.calls|] == answers;
    } else {
      var k := 1 + |ms[0].calls|;
      BlocksExtend(ms[k..], turn, answers);
      assert all[1..k] == ms[1..k];
      assert all[k..] == ms[k..] + [turn] + answers;
    }
  }

  /** Every request is the system prompt, the user's input and complete turns. */
  lemma {:induction false} ConversationWellFormed(w: World, n: nat)
    ensures WellFormed(Conversation(w, n))
    ensures Conversation(w, n)[0] == System(w.system) && Conversation(w, n)[1] == User(w.user)
  {
    if n > 0 {
      ConversationWellFormed(w, n - 1);
      TurnIsBlock(w, n - 1);
      BlockExtends(Conversation(w, n - 1), Turn(w, n - 1));
    }
  }

  /** One turn of the assistant with its answers. */
  predicate IsBlock(ms: seq<Message>) {
    ms != [] && ms[0].Assistant? && |ms| == 1 + |ms[0].calls| && AnswersAll(ms[1..], ms[0].calls)
  }

  lemma TurnIsBlock(w: World, i: nat)
    ensures IsBlock(Turn(w, i))
  {
    var calls := CallsOf(w.completions(i));
    AnswersMatch(w, History(w, i), calls);
    assert Turn(w, i)[1..] == Answers(w, History(w, i), calls);
  }

  lemma BlockExtends(ms: seq<Message>, block: seq<Message>)
    requires WellFormed(ms) && IsBlock(block)
    ensures WellFormed(ms + block) && (ms + block)[0] == ms[0] && (ms + block)[1] == ms[1]
  {
    BlocksExtend(ms[2..], block[0], block[1..]);
    assert (ms + block)[2..] == ms[2..] + [block[0]] + block[1..];
  }

  // ---------------------------------------------------------------- the loop

  /** The two maps of a run, read with Go's zero values. */
  function CountIn(counts: map<string, nat>, sig: string): nat {
    if sig in counts then counts[sig] else 0
  }

  function TextIn(last: map<string, string>, sig: string): string {
    if sig in last then last[sig] else ""
  }

  ghost predicate Faithful(w: World, history: seq<ToolCall>, counts: map<string, nat>, last: map<string, string>) {
    && (forall sig :: CountIn(counts, sig) == Count(w, history, sig))
    && (forall sig :: TextIn(last, sig) == ResultOf(w, history, sig))
  }

  lemma FaithfulStep(w: World, history: seq<ToolCall>, c: ToolCall,
                     counts: map<string, nat>, last: map<string, string>)
    requires Faithful(w, history, counts, last)
    ensures c.name !in w.tools ==> Faithful(w, history + [c], counts, last)
    ensures c.name in w.tools ==>
      var sig := Signature(c);
      var counted := counts[sig := CountIn(counts, sig) + 1];
      if IsFirst(w, history, c) && OutcomeOf(w, history).Ok?
      then Faithful(w, history + [c], counted, last[sig := w.sanitize(OutcomeOf(w, history).text)])
      else Faithful(w, history + [c], counted, last)
  {
    CountStep(w, history, c);
    ResultStep(w, history, c);
    if IsFirst(w, history, c) { NoResultYet(w, history, Signature(c)); }
  }

  lemma {:induction false} NoResultYet(w: World, history: seq<ToolCall>, sig: string)
    requires Count(w, history, sig) == 0
    ensures ResultOf(w, history, sig) == ""
  {
    if history != [] { NoResultYet(w, history[..|history| - 1], sig); }
  }

  lemma AnswersStep(w: World, history: seq<ToolCall>, calls: seq<ToolCall>, j: nat)
    requires j < |calls|
    ensures history + calls[..j + 1] == history + calls[..j] + [calls[j]]
    ensures Answers(w, history, calls[..j + 1]) ==
      Answers(w, history, calls[..j]) + [Tool(AnswerTo(w, history + calls[..j], calls[j]), calls[j].id)]
  {
    assert calls[..j + 1][..j] == calls[..j];
  }

  ghost predicate Proceeds(w: World, i: nat) {
    WantsTools(w.completions(i)) && NoThird(w, History(w, i + 1))
  }

  /** A known tool is asked for a third time with the same signature. */
  ghost predicate ThirdTime(w: World, history: seq<ToolCall>, c: ToolCall) {
    c.name in w.tools && Count(w, history, Signature(c)) == 2
  }

  /** How a run of n requests that handled these calls ends, case by case. */
  ghost predicate Ends(w: World, maxIter: int, n: nat, handled: seq<ToolCall>, result: Result) {
    match result
    case OutOfIterations =>
      n == (if maxIter > 0 then maxIter else 0) && handled == History(w, n) &&
      (n > 0 ==> Proceeds(w, n - 1))
    case Answer(text) =>
      n > 0 && handled == History(w, n - 1) &&
      var c := w.completions(n - 1);
      c.Choice? && c.finishReason != "tool_calls" && text == c.content
    case ApiFailed => n > 0 && handled == History(w, n - 1) && w.completions(n - 1).ApiError?
    case EmptyResponse => n > 0 && handled == History(w, n - 1) && w.completions(n - 1).NoChoices?
    case Repeated(lastResult, count) =>
      n > 0 && WantsTools(w.completions(n - 1)) && count == 3 &&
      Repeats(w, History(w, n - 1), CallsOf(w.completions(n - 1)), handled, lastResult)
  }

  /** Some call of a turn is the third of its kind; those before it were handled. */
  ghost predicate Repeats(w: World, history: seq<ToolCall>, calls: seq<ToolCall>,
                          handled: seq<ToolCall>, lastResult: string) {
    exists j: nat :: j < |calls| && handled == history + calls[..j] &&
      ThirdTime(w, handled, calls[j]) && lastResult == ResultOf(w, handled, Signature(calls[j]))
  }

  /** Handling one call keeps a history without thirds unless it is one. */
  lemma NoThirdStep(w: World, history: seq<ToolCall>, c: ToolCall)
    requires NoThird(w, history) && !ThirdTime(w, history, c)
    ensures NoThird(w, history + [c])
  {
    CountStep(w, history, c);
  }

  function Requests(w: World, n: nat): (sent: seq<seq<Message>>)
    ensures |sent| == n
  {
    if n == 0 then [] else Requests(w, n - 1) + [Conversation(w, n - 1)]
  }

  ghost predicate AllProceed(w: World, n: nat) {
    n == 0 || (AllProceed(w, n - 1) && Proceeds(w, n - 1))
  }

  ghost predicate AllButLastProceed(w: World, n: nat) {
    n == 0 || AllProceed(w, n - 1)
  }

  lemma {:induction false} RequestsMean(w: World, n: nat)
    ensures forall i :: 0 <= i < n ==> Requests(w, n)[i] == Conversation(w, i)
  {
    if n > 0 { RequestsMean(w, n - 1); }
  }

  lemma {:induction false} ProceedMeans(w: World, n: nat)
    requires AllProceed(w, n)
    ensures forall i: nat :: i < n ==> Proceeds(w, i)
  {
    if n > 0 { ProceedMeans(w, n - 1); }
  }

  lemma RunMeans(w: World, n: nat, handled: seq<ToolCall>)
    requires AllButLastProceed(w, n)
    ensures forall i :: 0 <= i < n ==>
      Requests(w, n)[i] == Conversation(w, i) && WellFormed(Requests(w, n)[i])
    ensures forall i :: 0 <= i < n ==> TellsTurns(w, Requests(w, n)[i], i)
    ensures forall i: nat :: i < n - 1 ==> Proceeds(w, i)
    ensures forall i, j :: 0 <= i < j < |Executed(w, handled)| ==>
      Signature(Executed(w, handled)[i]) != Signature(Executed(w, handled)[j])
    ensures forall c :: c in Executed(w, handled) ==> c.name in w.tools
  {
    RequestsMean(w, n);
    forall i | 0 <= i < n ensures WellFormed(Conversation(w, i)) && TellsTurns(w, Conversation(w, i), i) {
      ConversationWellFormed(w, i);
      ConversationTells(w, i);
    }
    ExecutedOnce(w, handled);
    if n > 0 { ProceedMeans(w, n - 1); }
  }

  /** The local variables of a run. */
  datatype Session = Session(
    messages: seq<Message>, counts: map<string, nat>, last: map<string, string>,
    handled: seq<ToolCall>, executed: seq<ToolCall>)

  ghost predicate Consistent(w: World, s: Session) {
    && Faithful(w, s.handled, s.counts, s.last)
    && s.executed == Executed(w, s.handled) && NoThird(w, s.handled)
  }

  ghost predicate Tracks(w: World, n: nat, s: Session) {
    Consistent(w, s) && s.messages == Conversation(w, n) && s.handled == History(w, n)
  }

  /**
   * The loop. `sent` is the message list of every request, `handled` the calls it dealt
   * with and `executed` those it passed to a tool.
   */
  method Run(w: World, maxIter: int)
    returns (result: Result, sent: seq<seq<Message>>, handled: seq<ToolCall>, executed: seq<ToolCall>)
    ensures |sent| <= if maxIter > 0 then maxIter else 0
    ensures forall i :: 0 <= i < |sent| ==> sent[i] == Conversation(w, i) && WellFormed(sent[i])
    ensures forall i :: 0 <= i < |sent| ==> TellsTurns(w, sent[i], i)
    ensures forall i: nat :: i < |sent| - 1 ==> Proceeds(w, i)
    ensures executed == Executed(w, handled) && NoThird(w, handled)
    ensures forall i, j :: 0 <= i < j < |executed| ==> Signature(executed[i]) != Signature(executed[j])
    ensures forall c :: c in executed ==> c.name in w.tools
    ensures Ends(w, maxIter, |sent|, handled, result)
  {
    var s;
    result, sent, s := Iterate(w, maxIter);
    handled, executed := s.handled, s.executed;
    RunMeans(w, |sent|, handled);
  }

  lemma StartTracks(w: World, s: Session)
    requires s == Session([System(w.system), User(w.user)], map[], map[], [], [])
    ensures Tracks(w, 0, s)
  {}

  lemma OneMoreRequest(w: World, n: nat)
    ensures Requests(w, n + 1) == Requests(w, n) + [Conversation(w, n)]
    ensures AllProceed(w, n) ==> AllButLastProceed(w, n + 1)
    ensures AllProceed(w, n) && Proceeds(w, n) ==> AllProceed(w, n + 1)
  {}

  method Iterate(w: World, maxIter: int) returns (result: Result, sent: seq<seq<Message>>, s: Session)
    ensures |sent| <= if maxIter > 0 then maxIter else 0
    ensures sent == Requests(w, |sent|) && AllButLastProceed(w, |sent|)
    ensures s.executed == Executed(w, s.handled) && NoThird(w, s.handled)
    ensures Ends(w, maxIter, |sent|, s.handled, result)
  {
    s := Session([System(w.system), User(w.user)], map[], map[], [], []);
    StartTracks(w, s);
    sent := [];
    var limit := if maxIter > 0 then maxIter else 0;
    for iter := 0 to limit
      invariant Tracks(w, iter, s)
      invariant sent == Requests(w, iter) && AllProceed(w, iter)
    {
      var ended;
      sent := sent + [s.messages];
      OneMoreRequest(w, iter);
      ended, result, s := OneIteration(w, iter, s, maxIter);
      if ended { return; }
    }
    result := OutOfIterations;
  }

  /** One request and what its completion leads to. */
  method OneIteration(w: World, iter: nat, s: Session, ghost maxIter: int)
    returns (ended: bool, result: Result, s': Session)
    requires Tracks(w, iter, s)
    ensures s'.executed == Executed(w, s'.handled) && NoThird(w, s'.handled)
    ensures ended ==> !result.OutOfIterations? && Ends(w, maxIter, iter + 1, s'.handled, result)
    ensures !ended ==> Proceeds(w, iter) && Tracks(w, iter + 1, s')
  {
    var completion := w.completions(iter);
    s' := s;
    if completion.ApiError? { return true, ApiFailed, s; }
    if completion.NoChoices? { return true, EmptyResponse, s; }
    if completion.finishReason != "tool_calls" { return true, Answer(completion.content), s; }
    var stopped, lastResult;
    s' := s.(messages := s.messages + [Assistant(completion.content, completion.calls)]);
    s', stopped, lastResult := HandleCalls(w, completion.calls, s');
    return stopped, Repeated(lastResult, 3), s';
  }

  /** The inner loop over the calls of one assistant turn. */
  method HandleCalls(w: World, calls: seq<ToolCall>, before: Session)
    returns (s: Session, stopped: bool, lastResult: string)
    requires Consistent(w, before)
    ensures s.executed == Executed(w, s.handled) && NoThird(w, s.handled)
    ensures !stopped ==>
      && Consistent(w, s) && s.handled == before.handled + calls
      && s.messages == before.messages + Answers(w, before.handled, calls)
    ensures stopped ==> Repeats(w, before.handled, calls, s.handled, lastResult)
  {
    s, stopped, lastResult := before, false, "";
    for j := 0 to |calls|
      invariant s.messages == before.messages + Answers(w, before.handled, calls[..j])
      invariant s.handled == before.handled + calls[..j] && Consistent(w, s)
    {
      AnswersStep(w, before.handled, calls, j);
      s, stopped, lastResult := HandleCall(w, calls[j], s);
      if stopped { return; }
    }
    assert calls[..|calls|] == calls;
  }

  method HandleCall(w: World, call: ToolCall, before: Session)
    returns (s: Session, stopped: bool, lastResult: string)
    requires Consistent(w, before)
    ensures stopped <==> ThirdTime(w, before.handled, call)
    ensures stopped ==>
      && s == before.(counts := s.counts)
      && lastResult == ResultOf(w, before.handled, Signature(call))
    ensures !stopped ==>
      && Consistent(w, s) && s.handled == before.handled + [call]
      && s.messages == before.messages + [Tool(AnswerTo(w, before.handled, call), call.id)]
  {
    s, stopped, lastResult := before, false, "";
    FaithfulStep(w, before.handled, call, before.counts, before.last);
    ExecutedStep(w, before.handled, call);
    if call.name !in w.tools {
      NoThirdStep(w, before.handled, call);
      s := s.(handled := s.handled + [call],
              messages := s.messages + [Tool("unknown tool: " + call.name, call.id)]);
      return;
    }
    var sig := Signature(call);
    var count := CountIn(s.counts, sig) + 1;
    s := s.(counts := s.counts[sig := count]);
    if count >= 3 {
      return s, true, TextIn(s.last, sig);
    }
    NoThirdStep(w, before.handled, call);
    s := s.(handled := s.handled + [call]);
    if count == 2 {
      s := s.(messages := s.messages + [Tool(TextIn(s.last, sig) + w.nudge, call.id)]);
      return;
    }
    var outcome := w.outcomes(|s.executed|);
    s := s.(executed := s.executed + [call]);
    if outcome.Error? {
      s := s.(messages := s.messages + [Tool("error: " + outcome.text, call.id)]);
      return;
    }
    var text := w.sanitize(outcome.text);
    s := s.(last := s.last[sig := text], messages := s.messages + [Tool(text, call.id)]);
  }
}
