/** What a round of tool calls remembers, writes back and counts, said from the calls and the tools. */
module RoundContent {
  import opened Messages
  import opened ShortTerm
  import opened LoopGuard
  import opened Validator
  import opened Executor
  import opened RunSpec
  import opened Runs
  import opened RunPairing
  import opened RunContent

  // ---- Signatures ------------------------------------------------------------------------------

  /** The call and its arguments, in their canonical form, can be remembered. */
  predicate IsSigned(cfg: Config, call: ToolCall) {
    call.fn.Some? && cfg.canonical(call.fn.value.arguments).Some?
  }

  /** What is remembered of the calls: name and canonical arguments of each, up to the first one that
      cannot be. */
  lemma {:induction false} SignaturesSay(cfg: Config, calls: seq<ToolCall>)
    ensures var signatures := Signatures(cfg, calls);
      && (|signatures| == |calls| <==> forall c | c in calls :: IsSigned(cfg, c))
      && (|signatures| < |calls| ==> !IsSigned(cfg, calls[|signatures|]))
      && forall k | 0 <= k < |signatures| ::
           && IsSigned(cfg, calls[k]) && signatures[k].name == calls[k].fn.value.name
           && Some(signatures[k].arguments) == cfg.canonical(calls[k].fn.value.arguments)
  {
    if calls != [] {
      SignaturesSay(cfg, calls[1..]);
      assert calls == [calls[0]] + calls[1..];
      if SignatureOf(cfg, calls[0]).None? {
        assert calls[0] in calls && !IsSigned(cfg, calls[0]);
      } else {
        var rest := Signatures(cfg, calls[1..]);
        assert IsSigned(cfg, calls[0]);
        forall k | 0 <= k < |Signatures(cfg, calls)|
          ensures IsSigned(cfg, calls[k]) && Signatures(cfg, calls)[k].name == calls[k].fn.value.name
          ensures Some(Signatures(cfg, calls)[k].arguments) == cfg.canonical(calls[k].fn.value.arguments)
        {
          if k > 0 {
            assert Signatures(cfg, calls)[k] == rest[k - 1] && calls[k] == calls[1..][k - 1];
          }
        }
      }
    }
  }

  // ---- Answers ---------------------------------------------------------------------------------

  /** The tool cannot be used, or throws. */
  predicate Fails(cfg: Config, call: ToolCall, behaviour: Behaviour) {
    call.fn.None? || call.fn.value.name !in cfg.enabled || behaviour.Throws?
  }

  /** What the model is told of a call: the tool's own output, or its error. */
  function ContentFor(cfg: Config, call: ToolCall, behaviour: Behaviour): string
    requires call.fn.Some?
  {
    if call.fn.value.name !in cfg.enabled then "[ERROR ToolError] tool " + call.fn.value.name + " is not registered or disabled"
    else
      match behaviour
      case Returns(content) => content
      case Throws(errorType, error) => "[ERROR " + errorType + "] " + error
  }

  /** The message that answers this call, from what its tool does. */
  predicate IsAnswerTo(cfg: Config, call: ToolCall, behaviour: Behaviour, m: Message) {
    call.fn.Some? && m == Tool(call.id, call.fn.value.name, ContentFor(cfg, call, behaviour))
  }

  /** The result of this call: its answer, and a failure exactly where it failed. */
  ghost predicate IsResultOf(cfg: Config, call: ToolCall, behaviour: Behaviour, r: ToolResult) {
    && r.call.fn.Some? && IsAnswerTo(cfg, call, behaviour, AnswerOf(r))
    && (r.Errored? <==> Fails(cfg, call, behaviour))
  }

  lemma OneResult(cfg: Config, call: ToolCall, allowed: set<string>, behaviour: Behaviour)
    requires Executable(cfg.rules, call, allowed)
    ensures var r := RunOne(cfg.enabled, cfg.rules, call, behaviour); r.Some? && IsResultOf(cfg, call, behaviour, r.value)
  {
    var name := call.fn.value.name;
    assert "[ERROR " + "ToolError" + "] " == "[ERROR ToolError] ";
    assert "[ERROR ToolError] " + ("tool " + name + " is not registered or disabled")
        == "[ERROR ToolError] tool " + name + " is not registered or disabled";
  }

  /** Each valid call has its own tool's result, in the order of the calls. */
  ghost predicate AreResults(cfg: Config, calls: seq<ToolCall>, behave: nat -> Behaviour, results: seq<ToolResult>) {
    |results| == |calls| && forall k | 0 <= k < |calls| :: IsResultOf(cfg, calls[k], behave(k), results[k])
  }

  lemma OneMoreResult(cfg: Config, calls: seq<ToolCall>, behave: nat -> Behaviour, before: seq<ToolResult>, last: ToolResult)
    requires calls != [] && AreResults(cfg, calls[..|calls| - 1], behave, before)
    requires IsResultOf(cfg, calls[|calls| - 1], behave(|calls| - 1), last)
    ensures AreResults(cfg, calls, behave, before + [last])
  {
    forall k | 0 <= k < |before|
      ensures IsResultOf(cfg, calls[k], behave(k), before[k])
    {
      assert calls[..|calls| - 1][k] == calls[k];
    }
  }

  lemma {:induction false} ResultsSay(cfg: Config, calls: seq<ToolCall>, allowed: set<string>, behave: nat -> Behaviour)
    requires forall c | c in calls :: Executable(cfg.rules, c, allowed)
    ensures var r := ExecuteCalls(cfg.enabled, cfg.rules, calls, behave); r.Some? && AreResults(cfg, calls, behave, r.value)
  {
    if calls != [] {
      var n := |calls| - 1;
      assert calls[n] in calls && forall c | c in calls[..n] :: c in calls;
      ResultsSay(cfg, calls[..n], allowed, behave);
      OneResult(cfg, calls[n], allowed, behave(n));
      OneMoreResult(cfg, calls, behave, ExecuteCalls(cfg.enabled, cfg.rules, calls[..n], behave).value,
                    RunOne(cfg.enabled, cfg.rules, calls[n], behave(n)).value);
    }
  }

  lemma {:induction false} AllCounted(results: seq<ToolResult>)
    ensures CountFailed(results) == |results| <==> forall k | 0 <= k < |results| :: results[k].Errored?
  {
    if results != [] {
      AllCounted(results[..|results| - 1]);
    }
  }

  /** The messages that answer the calls, one each, in their order. */
  ghost predicate AreAnswers(cfg: Config, calls: seq<ToolCall>, behave: nat -> Behaviour, ms: seq<Message>) {
    |ms| == |calls| && forall k | 0 <= k < |calls| :: IsAnswerTo(cfg, calls[k], behave(k), ms[k])
  }

  lemma AnswersSay(cfg: Config, valid: seq<ToolCall>, allowed: set<string>, behave: nat -> Behaviour)
    requires forall c | c in valid :: Executable(cfg.rules, c, allowed)
    ensures AreAnswers(cfg, valid, behave, RoundAnswers(cfg, valid, behave))
  {
    ResultsSay(cfg, valid, allowed, behave);
    var results := ExecuteCalls(cfg.enabled, cfg.rules, valid, behave).value;
    forall k | 0 <= k < |valid|
      ensures IsAnswerTo(cfg, valid[k], behave(k), RoundAnswers(cfg, valid, behave)[k])
    {
      assert IsResultOf(cfg, valid[k], behave(k), results[k]);
    }
  }

  predicate AllFail(cfg: Config, valid: seq<ToolCall>, behave: nat -> Behaviour) {
    forall k | 0 <= k < |valid| :: Fails(cfg, valid[k], behave(k))
  }

  lemma AllFailed(cfg: Config, valid: seq<ToolCall>, allowed: set<string>, behave: nat -> Behaviour)
    requires forall c | c in valid :: Executable(cfg.rules, c, allowed)
    ensures var r := ExecuteCalls(cfg.enabled, cfg.rules, valid, behave);
      r.Some? && (CountFailed(r.value) == |r.value| <==> AllFail(cfg, valid, behave))
  {
    ResultsSay(cfg, valid, allowed, behave);
    var results := ExecuteCalls(cfg.enabled, cfg.rules, valid, behave).value;
    AllCounted(results);
    forall k | 0 <= k < |valid|
      ensures results[k].Errored? <==> Fails(cfg, valid[k], behave(k))
    {
      assert IsResultOf(cfg, valid[k], behave(k), results[k]);
    }
  }

  // ---- A round ---------------------------------------------------------------------------------

  /** Written in turn: all of these messages, or those up to the first that could not be added. */
  ghost predicate WroteUpTo(st: RunState, ms: seq<Message>, r: RunState) {
    && st.log.writes <= r.log.writes <= st.log.writes + ms
    && (!r.log.refused ==> r.log.writes == st.log.writes + ms)
  }

  lemma WroteOneMore(st: RunState, ms: seq<Message>, before: RunState, m: Message, r: RunState)
    requires WroteUpTo(st, ms, before)
    requires if before.log.refused then r == before else r.log.writes == before.log.writes + [m]
    ensures WroteUpTo(st, ms + [m], r)
  {
    assert st.log.writes + (ms + [m]) == st.log.writes + ms + [m];
  }

  /** What recording results does not touch. */
  ghost predicate SameCounts(st: RunState, r: RunState) {
    r.validationFailureRounds == st.validationFailureRounds && r.toolErrorRounds == st.toolErrorRounds && r.toolCallHistory == st.toolCallHistory
  }

  lemma RecordOneWrites(cfg: Config, st: RunState, result: ToolResult)
    requires result.call.fn.Some?
    ensures var r := RecordResult(cfg, st, result); r.log.writes == st.log.writes + [AnswerOf(result)] && SameCounts(st, r)
  {
  }

  lemma {:induction false} RecordResultsWrite(cfg: Config, st: RunState, results: seq<ToolResult>)
    requires HaveFunctions(results) && !st.log.refused
    ensures var r := RecordResults(cfg, st, results); WroteUpTo(st, AnswersOf(results), r) && SameCounts(st, r)
  {
    if results != [] {
      var n := |results| - 1;
      assert results[n] in results;
      var before := RecordResults(cfg, st, results[..n]);
      RecordResultsWrite(cfg, st, results[..n]);
      RecordOneWrites(cfg, before, results[n]);
      AnswersOfPrefix(results, n);
      assert AnswersOf(results) == AnswersOf(results)[..n] + [AnswerOf(results[n])];
      WroteOneMore(st, AnswersOf(results[..n]), before, AnswerOf(results[n]), RecordResults(cfg, st, results));
    }
  }

  /** What running the valid calls leaves: their answers, and the count of rounds that failed altogether. */
  lemma ExecutionSays(cfg: Config, st: RunState, revision: Option<Revision>, valid: seq<ToolCall>, allowed: set<string>, tools: ToolsInput)
    requires valid != [] && (forall c | c in valid :: Executable(cfg.rules, c, allowed)) && !st.log.refused
    ensures var r := ExecuteRound(cfg, st, revision, valid, tools).st;
      && r.validationFailureRounds == st.validationFailureRounds && r.toolCallHistory == st.toolCallHistory
      && if !tools.ToolsRun? then r.log.writes == st.log.writes && r.toolErrorRounds == st.toolErrorRounds
         else
           && WroteUpTo(st, RoundAnswers(cfg, valid, tools.behave), r)
           && (!r.log.refused ==>
                 && r.toolErrorRounds == (if AllFail(cfg, valid, tools.behave) then st.toolErrorRounds + 1 else 0)
                 && (if r.toolErrorRounds > cfg.policy.toolErrorFeedbackRounds then r.status == Failed && r.errorSource == Some(FromTool)
                     else r.status == Running))
  {
    if tools.ToolsRun? {
      ResultsSay(cfg, valid, allowed, tools.behave);
      AllFailed(cfg, valid, allowed, tools.behave);
      RecordResultsWrite(cfg, st.(log := st.log.(roundSize := |valid|)), ExecuteCalls(cfg.enabled, cfg.rules, valid, tools.behave).value);
    }
  }

  /** What feeding the refusals back leaves. */
  lemma FeedingSays(cfg: Config, st: RunState, vs: seq<Violation>)
    requires !st.log.refused
    ensures var r := FeedViolations(cfg, st, vs);
      && WroteUpTo(st, ViolationMessages(vs), r)
      && r.validationFailureRounds == (if vs == [] then 0 else st.validationFailureRounds + 1)
      && r.toolErrorRounds == st.toolErrorRounds && r.toolCallHistory == st.toolCallHistory
  {
    WriteAllShape(cfg.budget, st.(validationFailureRounds := st.validationFailureRounds + 1), ViolationMessages(vs));
  }

  /** Each refusal goes back under the id and name of its call, marked as an error. */
  lemma RefusalsSay(vs: seq<Violation>)
    ensures forall k | 0 <= k < |vs| :: var m := ViolationMessages(vs)[k];
      m.Tool? && m.callId == vs[k].callId && m.name == vs[k].name && "[VALIDATION ERROR] " <= m.content
  {
  }

  /** The last calls remembered, as many as the limit says, are all the same. */
  predicate KeepsRepeating(history: seq<Signature>, max: nat) {
    |history| >= max && forall i | |history| - max <= i < |history| :: history[i] == history[|history| - 1]
  }

  predicate AllSigned(cfg: Config, calls: seq<ToolCall>) {
    forall c | c in calls :: IsSigned(cfg, c)
  }

  /** The refusals of this round are one too many. */
  predicate TooManyRefusals(cfg: Config, st: RunState, allowed: set<string>, calls: seq<ToolCall>) {
    Violations(cfg.rules, calls, allowed) != [] && st.validationFailureRounds + 1 > cfg.policy.validationFeedbackRounds
  }

  /** The tools run. */
  predicate RunsTools(cfg: Config, st: RunState, allowed: set<string>, calls: seq<ToolCall>, tools: ToolsInput) {
    ValidCalls(cfg.rules, calls, allowed) != [] && !TooManyRefusals(cfg, st, allowed, calls) && tools.ToolsRun?
  }

  /** The answers of a round, if its tools run. */
  function AnswersFor(cfg: Config, st: RunState, allowed: set<string>, calls: seq<ToolCall>, tools: ToolsInput): seq<Message> {
    if RunsTools(cfg, st, allowed, calls, tools) then RoundAnswers(cfg, ValidCalls(cfg.rules, calls, allowed), tools.behave) else []
  }

  /** The two counts of a round, each of which ends the run as soon as it exceeds its budget. */
  ghost predicate CountsRight(cfg: Config, st: RunState, allowed: set<string>, calls: seq<ToolCall>, tools: ToolsInput, r: RunState) {
    && (r.status == ValidationFailed ==> TooManyRefusals(cfg, st, allowed, calls)) && r.status != LoopDetected
    && (!r.log.refused ==>
          && (r.status == ValidationFailed <==> TooManyRefusals(cfg, st, allowed, calls))
          && r.validationFailureRounds == (if Violations(cfg.rules, calls, allowed) == [] then 0 else st.validationFailureRounds + 1)
          && if RunsTools(cfg, st, allowed, calls, tools) then
               && r.toolErrorRounds == (if AllFail(cfg, ValidCalls(cfg.rules, calls, allowed), tools.behave) then st.toolErrorRounds + 1 else 0)
               && (r.status == Running <==> r.toolErrorRounds <= cfg.policy.toolErrorFeedbackRounds)
             else r.toolErrorRounds == st.toolErrorRounds)
  }

  /** What a round leaves that can be validated: its messages, as far as they can be added, and its counts. */
  ghost predicate IsRound(cfg: Config, st: RunState, allowed: set<string>, draft: Option<string>, calls: seq<ToolCall>, tools: ToolsInput, r: RunState) {
    && WroteUpTo(st, [Assistant(draft, calls)] + (ViolationMessages(Violations(cfg.rules, calls, allowed)) + AnswersFor(cfg, st, allowed, calls, tools)), r)
    && CountsRight(cfg, st, allowed, calls, tools, r)
  }

  lemma WroteInTurn(a: RunState, ms: seq<Message>, b: RunState, more: seq<Message>, c: RunState)
    requires WroteUpTo(a, ms, b) && !b.log.refused && WroteUpTo(b, more, c)
    ensures WroteUpTo(a, ms + more, c)
  {
    assert a.log.writes + (ms + more) == a.log.writes + ms + more;
  }

  lemma StoppedShort(a: RunState, ms: seq<Message>, b: RunState, more: seq<Message>)
    requires WroteUpTo(a, ms, b) && b.log.refused
    ensures WroteUpTo(a, ms + more, b)
  {
    assert a.log.writes + (ms + more) == a.log.writes + ms + more;
  }

  /** The two ways for a round's calls to be answered: without the tools, or by running them. */
  lemma AnsweredBy(cfg: Config, st: RunState, revision: Option<Revision>, allowed: set<string>, calls: seq<ToolCall>, tools: ToolsInput)
    requires st.status == AwaitingTool && !st.log.refused && !ValidationRaises(cfg.rules, calls, allowed)
    ensures var r := AnswerCalls(cfg, st, revision, allowed, calls, tools).st;
      var vs, valid := Violations(cfg.rules, calls, allowed), ValidCalls(cfg.rules, calls, allowed);
      var fed := FeedViolations(cfg, st, vs);
      && (fed.log.refused || valid == [] || TooManyRefusals(cfg, st, allowed, calls) ==> r == fed || r == fed.(status := Running))
      && (fed.log.refused ==> r.status == AwaitingTool)
      && (!fed.log.refused ==> (fed.status == ValidationFailed <==> TooManyRefusals(cfg, st, allowed, calls)))
      && (!fed.log.refused && TooManyRefusals(cfg, st, allowed, calls) ==> r == fed)
      && (!fed.log.refused && valid == [] && !TooManyRefusals(cfg, st, allowed, calls) ==> r.status == Running)
      && (!fed.log.refused && valid != [] && !TooManyRefusals(cfg, st, allowed, calls) ==>
            fed.status == AwaitingTool && r == ExecuteRound(cfg, fed, revision, valid, tools).st)
  {
    FeedViolationsShape(cfg, st, Violations(cfg.rules, calls, allowed));
  }

  lemma NothingWritten(a: RunState, ms: seq<Message>, b: RunState, c: RunState)
    requires WroteUpTo(a, ms, b) && !b.log.refused && c.log.writes == b.log.writes
    ensures WroteUpTo(a, ms, c)
  {
  }

  lemma AnsweringWrites(cfg: Config, st: RunState, revision: Option<Revision>, allowed: set<string>, calls: seq<ToolCall>, tools: ToolsInput)
    requires st.status == AwaitingTool && !st.log.refused && !ValidationRaises(cfg.rules, calls, allowed)
    ensures var r := AnswerCalls(cfg, st, revision, allowed, calls, tools).st;
      && WroteUpTo(st, ViolationMessages(Violations(cfg.rules, calls, allowed)) + AnswersFor(cfg, st, allowed, calls, tools), r)
      && r.toolCallHistory == st.toolCallHistory
  {
    var vs, valid := Violations(cfg.rules, calls, allowed), ValidCalls(cfg.rules, calls, allowed);
    var refusals, answers := ViolationMessages(vs), AnswersFor(cfg, st, allowed, calls, tools);
    var fed, r := FeedViolations(cfg, st, vs), AnswerCalls(cfg, st, revision, allowed, calls, tools).st;
    FeedingSays(cfg, st, vs);
    AnsweredBy(cfg, st, revision, allowed, calls, tools);
    if fed.log.refused {
      StoppedShort(st, refusals, fed, answers);
    } else if valid == [] || TooManyRefusals(cfg, st, allowed, calls) {
      assert refusals + answers == refusals;
    } else {
      ExecutionSays(cfg, fed, revision, valid, allowed, tools);
      if tools.ToolsRun? {
        WroteInTurn(st, refusals, fed, answers, r);
      } else {
        assert refusals + answers == refusals;
        NothingWritten(st, refusals, fed, ExecuteRound(cfg, fed, revision, valid, tools).st);
      }
    }
  }

  lemma AnsweringCounts(cfg: Config, st: RunState, revision: Option<Revision>, allowed: set<string>, calls: seq<ToolCall>, tools: ToolsInput)
    requires st.status == AwaitingTool && !st.log.refused && !ValidationRaises(cfg.rules, calls, allowed)
    ensures CountsRight(cfg, st, allowed, calls, tools, AnswerCalls(cfg, st, revision, allowed, calls, tools).st)
  {
    var vs, valid := Violations(cfg.rules, calls, allowed), ValidCalls(cfg.rules, calls, allowed);
    var fed := FeedViolations(cfg, st, vs);
    FeedingSays(cfg, st, vs);
    AnsweredBy(cfg, st, revision, allowed, calls, tools);
    if !fed.log.refused && valid != [] && !TooManyRefusals(cfg, st, allowed, calls) {
      ExecutionSays(cfg, fed, revision, valid, allowed, tools);
      ExecuteRoundShape(cfg, fed, revision, valid, tools);
    }
  }

  /** A round that is written, said from the calls, the router's choice and the tools. */
  lemma OpenedRoundSays(cfg: Config, st: RunState, revision: Option<Revision>, allowed: set<string>, draft: Option<string>, calls: seq<ToolCall>, tools: ToolsInput)
    requires !StopsEarly(cfg, st, calls) && !ValidationRaises(cfg.rules, calls, allowed)
    ensures IsRound(cfg, st, allowed, draft, calls, tools, ToolRound(cfg, st, revision, allowed, draft, calls, tools).st)
  {
    var asked, r := RoundOpened(cfg, st, draft, calls), ToolRound(cfg, st, revision, allowed, draft, calls, tools).st;
    var more := ViolationMessages(Violations(cfg.rules, calls, allowed)) + AnswersFor(cfg, st, allowed, calls, tools);
    assert WroteUpTo(st, [Assistant(draft, calls)], asked);
    if asked.log.refused {
      StoppedShort(st, [Assistant(draft, calls)], asked, more);
    } else {
      AnsweringWrites(cfg, asked, revision, allowed, calls, tools);
      AnsweringCounts(cfg, asked, revision, allowed, calls, tools);
      WroteInTurn(st, [Assistant(draft, calls)], asked, more, r);
    }
  }

  lemma RoundRemembers(cfg: Config, st: RunState, revision: Option<Revision>, allowed: set<string>, draft: Option<string>, calls: seq<ToolCall>, tools: ToolsInput)
    ensures ToolRound(cfg, st, revision, allowed, draft, calls, tools).st.toolCallHistory == st.toolCallHistory + Signatures(cfg, calls)
  {
    if Opens(cfg, st, draft, calls) && !ValidationRaises(cfg.rules, calls, allowed) {
      AnsweringWrites(cfg, RoundOpened(cfg, st, draft, calls), revision, allowed, calls, tools);
    }
  }

  lemma StopsEarlyExactly(cfg: Config, st: RunState, calls: seq<ToolCall>)
    ensures StopsEarly(cfg, st, calls) <==>
      !AllSigned(cfg, calls) || KeepsRepeating(st.toolCallHistory + Signatures(cfg, calls), cfg.policy.maxConsecutiveRepeats)
  {
    SignaturesSay(cfg, calls);
    RepeatIffAllEqual(st.toolCallHistory + Signatures(cfg, calls), cfg.policy.maxConsecutiveRepeats);
  }

  /** A round of tool calls in full: what it remembers, when it is stopped as a loop, and else what it
      writes and counts. */
  lemma RoundSays(cfg: Config, st: RunState, revision: Option<Revision>, allowed: set<string>, draft: Option<string>, calls: seq<ToolCall>, tools: ToolsInput)
    ensures var r := ToolRound(cfg, st, revision, allowed, draft, calls, tools).st; var history := st.toolCallHistory + Signatures(cfg, calls);
      && r.toolCallHistory == history
      && if !AllSigned(cfg, calls) || KeepsRepeating(history, cfg.policy.maxConsecutiveRepeats) then
           && r.log.writes == st.log.writes && r.validationFailureRounds == st.validationFailureRounds && r.toolErrorRounds == st.toolErrorRounds
           && r.status == if AllSigned(cfg, calls) then LoopDetected else AwaitingTool
         else if ValidationRaises(cfg.rules, calls, allowed) then WroteUpTo(st, [Assistant(draft, calls)], r)
         else IsRound(cfg, st, allowed, draft, calls, tools, r)
  {
    RoundRemembers(cfg, st, revision, allowed, draft, calls, tools);
    StopsEarlyExactly(cfg, st, calls);
    SignaturesSay(cfg, calls);
    if !StopsEarly(cfg, st, calls) && !ValidationRaises(cfg.rules, calls, allowed) {
      OpenedRoundSays(cfg, st, revision, allowed, draft, calls, tools);
    }
  }

  // ---- Passes and runs -------------------------------------------------------------------------

  /** The pass asks for tools. */
  predicate Calls(cfg: Config, head: Head, input: StepInput) {
    Sends(cfg, head, input) && input.llm.Replied? && input.llm.calls != []
  }

  /** What a pass that asks for tools leaves, said from its head and its inputs. */
  ghost predicate CallsSaid(cfg: Config, st: RunState, input: StepInput, r: RunState)
    requires input.route.Routed? && input.llm.Replied?
  {
    var allowed, draft, calls := NameSet(input.route.names), input.llm.draft, input.llm.calls;
    var history := st.toolCallHistory + Signatures(cfg, calls);
    && r.toolCallHistory == history
    && if !AllSigned(cfg, calls) || KeepsRepeating(history, cfg.policy.maxConsecutiveRepeats) then
         && r.log.writes == st.log.writes && r.validationFailureRounds == st.validationFailureRounds && r.toolErrorRounds == st.toolErrorRounds
         && r.status == if AllSigned(cfg, calls) then LoopDetected else AwaitingTool
       else if ValidationRaises(cfg.rules, calls, allowed) then WroteUpTo(st, [Assistant(draft, calls)], r)
       else IsRound(cfg, st, allowed, draft, calls, input.tools, r)
  }

  lemma StepCalls(cfg: Config, head: Head, input: StepInput)
    requires Calls(cfg, head, input)
    ensures CallsSaid(cfg, head.st, input, RunStep(cfg, head.st, head.revision, input).st)
  {
    var sent := SendRequest(cfg, Asked(cfg, head.st, head.revision), head.revision);
    RepliedShape(cfg, sent, input.llm);
    RoundSays(cfg, RepliedState(cfg, sent, input.llm), head.revision, NameSet(input.route.names), input.llm.draft, input.llm.calls, input.tools);
  }

  lemma ReviewKeepsCounts(cfg: Config, st: RunState, revision: Option<Revision>, draft: Option<string>, critic: CriticInput)
    ensures SameCounts(st, ReviewDraft(cfg, st, revision, draft, critic).st)
  {
  }

  /** Any other pass leaves the memory of calls and the two counts alone. */
  lemma StepWithoutCalls(cfg: Config, head: Head, input: StepInput)
    requires !Calls(cfg, head, input)
    ensures SameCounts(head.st, RunStep(cfg, head.st, head.revision, input).st)
  {
    if Sends(cfg, head, input) {
      var sent := SendRequest(cfg, Asked(cfg, head.st, head.revision), head.revision);
      TokensOnlyEmit(cfg, sent, input.llm.tokens);
      if input.llm.Replied? {
        RepliedShape(cfg, sent, input.llm);
        ReviewKeepsCounts(cfg, RepliedState(cfg, sent, input.llm), head.revision, input.llm.draft, input.critic);
      }
    }
  }

  /** Both counts are within their budgets. */
  predicate InBudget(cfg: Config, st: RunState) {
    st.validationFailureRounds <= cfg.policy.validationFeedbackRounds && st.toolErrorRounds <= cfg.policy.toolErrorFeedbackRounds
  }

  lemma StepStaysInBudget(cfg: Config, head: Head, input: StepInput)
    requires InBudget(cfg, head.st) && !IsTerminal(head.st.status) && !head.st.log.refused
    ensures var r := RunStep(cfg, head.st, head.revision, input);
      r.exit == Returned && !IsTerminal(r.st.status) ==> InBudget(cfg, r.st)
  {
    var r := RunStep(cfg, head.st, head.revision, input);
    RefusedMeansEscaped(cfg, head.st, head.revision, input);
    if Calls(cfg, head, input) {
      StepCalls(cfg, head, input);
      var sent := SendRequest(cfg, Asked(cfg, head.st, head.revision), head.revision);
      RepliedShape(cfg, sent, input.llm);
      ToolRoundShape(cfg, RepliedState(cfg, sent, input.llm), head.revision, NameSet(input.route.names), input.llm.draft, input.llm.calls, input.tools);
    } else {
      StepWithoutCalls(cfg, head, input);
    }
  }

  lemma {:induction false} HeadsStayInBudget(cfg: Config, head: Head, inputs: nat -> StepInput, i: nat)
    requires InBudget(cfg, head.st) && !head.st.log.refused
    ensures forall h | h in Heads(cfg, head, inputs, i) :: InBudget(cfg, h.st)
    decreases PassesLeft(cfg, head.st)
  {
    if !IsTerminal(head.st.status) {
      var r := RunStep(cfg, head.st, head.revision, inputs(i));
      if r.exit == Returned && !IsTerminal(r.st.status) {
        StepUsesPass(cfg, head.st, head.revision, inputs(i));
        StepStaysInBudget(cfg, head, inputs(i));
        RefusedMeansEscaped(cfg, head.st, head.revision, inputs(i));
        HeadsStayInBudget(cfg, Head(r.st, r.revision), inputs, i + 1);
      }
    }
  }

  /** In every run no pass begins with more failed rounds than the budgets allow. */
  lemma RunStaysInBudget(cfg: Config, mem: Memory, prompt: Option<string>, userInput: string, planning: PlanInput, inputs: nat -> StepInput)
    ensures forall h | h in RunHeads(cfg, mem, prompt, userInput, planning, inputs) :: InBudget(cfg, h.st)
  {
    RunIsLaunched(cfg, mem, prompt, userInput, planning, inputs);
    var launched := Launched(cfg, mem, prompt, userInput, planning);
    if launched.Some? {
      var planned := launched.value.cfg;
      HeadsStayInBudget(planned, Head(launched.value.st, None), inputs, 0);
      forall h | h in RunHeads(cfg, mem, prompt, userInput, planning, inputs)
        ensures InBudget(cfg, h.st)
      {
        assert InBudget(planned, h.st);
      }
    }
  }
}
