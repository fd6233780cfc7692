/** Whole runs: they end, they are bounded, and what holds in every one of them. */
module Runs {
  import opened Messages
  import opened ShortTerm
  import opened LoopGuard
  import opened Validator
  import opened Executor
  import opened RunSpec

  function FinalAnswer(st: RunState): Option<string> {
    if st.status == Finished && st.window != [] && st.window[|st.window| - 1].Assistant?
    then st.window[|st.window| - 1].draft
    else None
  }

  function EmitEnd(st: RunState): RunState {
    st.Emit(RunEnd(st.stepCount, st.status == Finished, FinalAnswer(st), st.errorSource, st.stopReason, st.status))
  }

  function CancelRun(st: RunState): RunState {
    EmitEnd(st.Terminate(Canceled, CanceledRun, Some(FromRuntime)))
  }

  datatype RunResult = RunResult(st: RunState, exit: Exit)

  /** A bound on the passes still to come. */
  function PassesLeft(cfg: Config, st: RunState): nat {
    if IsTerminal(st.status) then 0
    else if StepsExhausted(cfg.policy, st.stepCount) then 1
    else 1 + cfg.policy.maxSteps - st.stepCount
  }

  // ---- What the parts of a pass leave alone -----------------------------------------------------

  function RepliedState(cfg: Config, st: RunState, llm: LlmInput): RunState
    requires llm.Replied?
  {
    AfterReply(cfg, st.EmitTokens(cfg, llm.tokens), llm.streamed, llm.calls)
  }

  lemma {:induction false} TokensOnlyEmit(cfg: Config, st: RunState, tokens: seq<string>)
    ensures st.EmitTokens(cfg, tokens).(events := st.events) == st
    ensures forall e | e in st.EmitTokens(cfg, tokens).events :: e in st.events || e.LlmToken?
  {
    if !cfg.hasCritic && tokens != [] {
      TokensOnlyEmit(cfg, st, tokens[..|tokens| - 1]);
    }
  }

  /** A reply emits token and response events and adds one step; nothing else. */
  lemma RepliedShape(cfg: Config, st: RunState, llm: LlmInput)
    requires llm.Replied?
    ensures var r := RepliedState(cfg, st, llm);
            && r.(events := st.events, steps := st.steps, stepCount := st.stepCount) == st
            && r.steps == st.steps + [Step(st.stepCount, LlmCall)] && r.stepCount == st.stepCount + 1
            && forall e | e in r.events :: e in st.events || !e.RunEnd?
  {
    TokensOnlyEmit(cfg, st, llm.tokens);
  }

  function ReasonOf(s: Status): StopReason
    requires IsTerminal(s)
  {
    match s
    case Finished => FinishNormal
    case MaxSteps => StepBudget
    case LoopDetected => Looping
    case ValidationFailed => InvalidCalls
    case Canceled => CanceledRun
    case ReflectionLimit => RevisionBudget
    case _ => Error
  }

  /** The ways a tool round ends: never finished or cancelled, with a reason iff terminal, and by an
      exception as soon as a write raises. */
  predicate ToolExit(st: RunState, revision: Option<Revision>, r: StepResult) {
    && (r.exit == Returned ==> IsTerminal(r.st.status) || (r.revision == revision && r.st.status == Running))
    && (IsTerminal(r.st.status) ==>
          r.st.status != Finished && r.st.status != Canceled && r.st.stopReason == Some(ReasonOf(r.st.status)))
    && (!IsTerminal(r.st.status) ==> r.st.stopReason == st.stopReason && r.exit != AgentRaised)
    && (r.exit == CanceledOut ==> !IsTerminal(r.st.status))
    && (r.st.log.refused ==> st.log.refused || r.exit == Escaped)
  }

  /** All a tool round does once its assistant message is written: it writes tool messages, adds
      tool steps, emits no end, and leaves the revision bookkeeping alone. */
  ghost predicate ToolsOnly(st: RunState, r: RunState) {
    && st.log.writes <= r.log.writes
    && (forall i | |st.log.writes| <= i < |r.log.writes| :: r.log.writes[i].Tool?)
    && st.steps <= r.steps
    && r.stepCount - st.stepCount == |r.steps| - |st.steps|
    && (forall i | |st.steps| <= i < |r.steps| :: r.steps[i] == Step(st.stepCount + (i - |st.steps|), ToolExec))
    && st.events <= r.events
    && (forall i | |st.events| <= i < |r.events| :: r.events[i].ToolResponse?)
    && r.revisionRounds == st.revisionRounds
    && r.log.rejected == st.log.rejected
    && r.log.requests == st.log.requests
    && r.log.reviews == st.log.reviews
  }

  lemma {:induction false} RecordResultsShape(cfg: Config, st: RunState, results: seq<ToolResult>)
    requires HaveFunctions(results)
    ensures var r := RecordResults(cfg, st, results);
            && ToolsOnly(st, r) && st.stepCount <= r.stepCount <= st.stepCount + |results|
            && (!r.log.refused ==> r.stepCount == st.stepCount + |results|)
            && r.status == st.status && r.stopReason == st.stopReason && r.log.roundSize == st.log.roundSize
  {
    if results != [] {
      RecordResultsShape(cfg, st, results[..|results| - 1]);
    }
  }

  lemma {:induction false} RecordResultsStops(cfg: Config, st: RunState, results: seq<ToolResult>, n: nat)
    requires HaveFunctions(results) && n <= |results| && RecordResults(cfg, st, results[..n]).log.refused
    ensures RecordResults(cfg, st, results) == RecordResults(cfg, st, results[..n])
    decreases |results|
  {
    if n < |results| {
      assert results[..|results| - 1][..n] == results[..n];
      RecordResultsStops(cfg, st, results[..|results| - 1], n);
    } else {
      assert results[..n] == results;
    }
  }

  lemma ProcessResultsShape(cfg: Config, st: RunState, results: seq<ToolResult>)
    requires HaveFunctions(results)
    ensures var r := ProcessToolResults(cfg, st, results);
            && ToolsOnly(st, r) && st.stepCount <= r.stepCount <= st.stepCount + |results|
            && (!r.log.refused ==> r.stepCount == st.stepCount + |results|)
            && r.log.roundSize == st.log.roundSize
            && if r.log.refused then r.status == st.status && r.stopReason == st.stopReason
               else if IsTerminal(r.status) then r.status == Failed && r.stopReason == Some(Error)
               else r.status == Running && r.stopReason == st.stopReason
  {
    RecordResultsShape(cfg, st, results);
    var recorded := RecordResults(cfg, st, results);
    var r := ProcessToolResults(cfg, st, results);
    assert r.log == recorded.log && r.steps == recorded.steps && r.events == recorded.events;
    assert r.stepCount == recorded.stepCount && r.revisionRounds == recorded.revisionRounds;
  }

  lemma ToolsOnlyTransitive(a: RunState, b: RunState, c: RunState)
    requires ToolsOnly(a, b) && ToolsOnly(b, c)
    ensures ToolsOnly(a, c)
  {
  }

  lemma ExecuteRoundShape(cfg: Config, st: RunState, revision: Option<Revision>, valid: seq<ToolCall>, tools: ToolsInput)
    ensures var r := ExecuteRound(cfg, st, revision, valid, tools);
            && ToolsOnly(st, r.st) && r.st.log.roundSize == |valid|
            && st.stepCount <= r.st.stepCount <= st.stepCount + |valid|
            && r.revision == revision && (r.st.log.refused ==> st.log.refused || r.exit == Escaped)
            && match r.exit
               case Returned => if IsTerminal(r.st.status) then r.st.status == Failed && r.st.stopReason == Some(Error)
                                else r.st.status == Running && r.st.stopReason == st.stopReason
               case CanceledOut => r.st.status == st.status && r.st.stopReason == st.stopReason
               case AgentRaised => r.st.status == Failed && r.st.stopReason == Some(Error)
               case Escaped => if IsTerminal(r.st.status) then r.st.status == st.status || (r.st.status == Failed && r.st.stopReason == Some(Error))
                               else r.st.status == st.status && r.st.stopReason == st.stopReason
  {
    var begun := st.(log := st.log.(roundSize := |valid|));
    assert ToolsOnly(st, begun);
    if tools.ToolsRun? && ExecuteCalls(cfg.enabled, cfg.rules, valid, tools.behave).Some? {
      var results := ExecuteCalls(cfg.enabled, cfg.rules, valid, tools.behave).value;
      ProcessResultsShape(cfg, begun, results);
      ToolsOnlyTransitive(st, begun, ProcessToolResults(cfg, begun, results));
    }
  }

  /** Writing touches the memory only, as far as it gets. */
  lemma {:induction false} WriteAllShape(b: Budget, st: RunState, ms: seq<Message>)
    ensures var r := st.WriteAll(b, ms);
            && r.(window := st.window, total := st.total, log := st.log) == st
            && r.log.(writes := st.log.writes, refused := st.log.refused) == st.log
            && st.log.writes <= r.log.writes <= st.log.writes + ms
            && (!r.log.refused ==> r.log.writes == st.log.writes + ms)
  {
    if ms != [] {
      var before, last := ms[..|ms| - 1], ms[|ms| - 1];
      WriteAllShape(b, st, before);
      assert st.log.writes + ms == st.log.writes + before + [last];
    }
  }

  lemma {:induction false} WriteAllStops(b: Budget, st: RunState, ms: seq<Message>, n: nat)
    requires n <= |ms| && st.WriteAll(b, ms[..n]).log.refused
    ensures st.WriteAll(b, ms) == st.WriteAll(b, ms[..n])
    decreases |ms|
  {
    if n < |ms| {
      assert ms[..|ms| - 1][..n] == ms[..n];
      WriteAllStops(b, st, ms[..|ms| - 1], n);
    } else {
      assert ms[..n] == ms;
    }
  }

  lemma WriteToolsShape(b: Budget, st: RunState, ms: seq<Message>)
    requires forall m | m in ms :: m.Tool?
    ensures ToolsOnly(st, st.WriteAll(b, ms))
  {
    WriteAllShape(b, st, ms);
    var all := st.log.writes + ms;
    forall i | |st.log.writes| <= i < |all|
      ensures all[i].Tool?
    {
      assert all[i] in ms;
    }
  }

  lemma FeedViolationsShape(cfg: Config, st: RunState, vs: seq<Violation>)
    ensures var r := FeedViolations(cfg, st, vs);
            && ToolsOnly(st, r) && r.steps == st.steps && r.log.roundSize == st.log.roundSize
            && r.toolCallHistory == st.toolCallHistory
            && if vs != [] && !r.log.refused && ValidationExhausted(cfg.policy, st.validationFailureRounds + 1)
               then r.status == ValidationFailed && r.stopReason == Some(InvalidCalls)
               else r.status == st.status && r.stopReason == st.stopReason
  {
    if vs != [] {
      var counted := st.(validationFailureRounds := st.validationFailureRounds + 1);
      WriteAllShape(cfg.budget, counted, ViolationMessages(vs));
      WriteToolsShape(cfg.budget, counted, ViolationMessages(vs));
      assert ToolsOnly(st, counted.WriteAll(cfg.budget, ViolationMessages(vs)));
    }
  }

  lemma ToolsAfterViolations(cfg: Config, st: RunState, fed: RunState, revision: Option<Revision>, valid: seq<ToolCall>, tools: ToolsInput)
    requires ToolsOnly(st, fed) && fed.stepCount == st.stepCount && fed.stopReason == st.stopReason
    requires fed.status == AwaitingTool && !fed.log.refused
    ensures var r := ExecuteRound(cfg, fed, revision, valid, tools);
            && ToolsOnly(st, r.st)
            && st.stepCount <= r.st.stepCount <= st.stepCount + r.st.log.roundSize
            && ToolExit(st, revision, r)
  {
    ExecuteRoundShape(cfg, fed, revision, valid, tools);
    ToolsOnlyTransitive(st, fed, ExecuteRound(cfg, fed, revision, valid, tools).st);
  }

  lemma AnswerCallsShape(cfg: Config, st: RunState, revision: Option<Revision>, allowed: set<string>,
                         calls: seq<ToolCall>, tools: ToolsInput)
    requires st.status == AwaitingTool
    ensures var r := AnswerCalls(cfg, st, revision, allowed, calls, tools);
            && ToolsOnly(st, r.st)
            && st.stepCount <= r.st.stepCount <= st.stepCount + r.st.log.roundSize
            && ToolExit(st, revision, r)
  {
    var vs, valid := Violations(cfg.rules, calls, allowed), ValidCalls(cfg.rules, calls, allowed);
    FeedViolationsShape(cfg, st, vs);
    var fed := FeedViolations(cfg, st, vs);
    if !ValidationRaises(cfg.rules, calls, allowed) && !fed.log.refused && !IsTerminal(fed.status) && valid != [] {
      ToolsAfterViolations(cfg, st, fed, revision, valid, tools);
    }
  }

  /** A round that stops before anything is written. */
  predicate StopsEarly(cfg: Config, st: RunState, calls: seq<ToolCall>) {
    var signatures := Signatures(cfg, calls);
    |signatures| < |calls| || IsConsecutiveRepeat(st.toolCallHistory + signatures, cfg.policy.maxConsecutiveRepeats)
  }

  /** The state in which a tool round's assistant message has just been written. */
  function RoundOpened(cfg: Config, st: RunState, draft: Option<string>, calls: seq<ToolCall>): RunState {
    st.(status := AwaitingTool, toolCallHistory := st.toolCallHistory + Signatures(cfg, calls))
      .Write(cfg.budget, Assistant(draft, calls))
  }

  /** A round whose calls are written without raising, so that they are then answered. */
  predicate Opens(cfg: Config, st: RunState, draft: Option<string>, calls: seq<ToolCall>) {
    !StopsEarly(cfg, st, calls) && !RoundOpened(cfg, st, draft, calls).log.refused
  }

  lemma ToolRoundShape(cfg: Config, st: RunState, revision: Option<Revision>, allowed: set<string>,
                       draft: Option<string>, calls: seq<ToolCall>, tools: ToolsInput)
    ensures var r := ToolRound(cfg, st, revision, allowed, draft, calls, tools);
            && (Opens(cfg, st, draft, calls) ==> ToolsOnly(RoundOpened(cfg, st, draft, calls), r.st))
            && (StopsEarly(cfg, st, calls) ==>
                  r.st.(status := st.status, stopReason := st.stopReason, errorSource := st.errorSource,
                        toolCallHistory := st.toolCallHistory) == st)
            && (!StopsEarly(cfg, st, calls) && !Opens(cfg, st, draft, calls) ==>
                  r.exit == Escaped && r.st == RoundOpened(cfg, st, draft, calls))
            && st.stepCount <= r.st.stepCount <= st.stepCount + r.st.log.roundSize
            && ToolExit(st, revision, r)
  {
    if Opens(cfg, st, draft, calls) {
      AnswerCallsShape(cfg, RoundOpened(cfg, st, draft, calls), revision, allowed, calls, tools);
    }
  }

  // ---- The loop ---------------------------------------------------------------------------------

  lemma ReviewKeepsSteps(cfg: Config, st: RunState, revision: Option<Revision>, draft: Option<string>, critic: CriticInput)
    ensures ReviewDraft(cfg, st, revision, draft, critic).st.stepCount >= st.stepCount
  {
  }

  lemma AskModelAddsSteps(cfg: Config, st: RunState, revision: Option<Revision>, allowed: set<string>, input: StepInput)
    requires AskModel(cfg, st, revision, allowed, input).exit == Returned
    ensures AskModel(cfg, st, revision, allowed, input).st.stepCount > st.stepCount
  {
    RepliedShape(cfg, st, input.llm);
    var replied := RepliedState(cfg, st, input.llm);
    if input.llm.calls != [] {
      ToolRoundShape(cfg, replied, revision, allowed, input.llm.draft, input.llm.calls, input.tools);
    } else {
      ReviewKeepsSteps(cfg, replied, revision, input.llm.draft, input.critic);
    }
  }

  lemma StepUsesPass(cfg: Config, st: RunState, revision: Option<Revision>, input: StepInput)
    requires !IsTerminal(st.status) && RunStep(cfg, st, revision, input).exit == Returned
    ensures PassesLeft(cfg, RunStep(cfg, st, revision, input).st) < PassesLeft(cfg, st)
  {
    if !StepsExhausted(cfg.policy, st.stepCount) && input.route.Routed? {
      AskModelAddsSteps(cfg, SendRequest(cfg, Asked(cfg, st, revision), revision), revision, NameSet(input.route.names), input);
    }
  }

  lemma ReviewRefusedMeansEscaped(cfg: Config, st: RunState, revision: Option<Revision>, draft: Option<string>, critic: CriticInput)
    requires !st.log.refused
    ensures var r := ReviewDraft(cfg, st, revision, draft, critic); r.st.log.refused ==> r.exit == Escaped
  {
  }

  lemma AskRefusedMeansEscaped(cfg: Config, st: RunState, revision: Option<Revision>, allowed: set<string>, input: StepInput)
    requires !st.log.refused
    ensures var r := AskModel(cfg, st, revision, allowed, input); r.st.log.refused ==> r.exit == Escaped
  {
    TokensOnlyEmit(cfg, st, input.llm.tokens);
    if input.llm.Replied? {
      RepliedShape(cfg, st, input.llm);
      var replied := RepliedState(cfg, st, input.llm);
      if input.llm.calls != [] {
        ToolRoundShape(cfg, replied, revision, allowed, input.llm.draft, input.llm.calls, input.tools);
      } else {
        ReviewRefusedMeansEscaped(cfg, replied, revision, input.llm.draft, input.critic);
      }
    }
  }

  /** A write that raises ends its pass with the error escaping. */
  lemma RefusedMeansEscaped(cfg: Config, st: RunState, revision: Option<Revision>, input: StepInput)
    requires !st.log.refused
    ensures var r := RunStep(cfg, st, revision, input); r.st.log.refused ==> r.exit == Escaped
  {
    if !StepsExhausted(cfg.policy, st.stepCount) && input.route.Routed? {
      AskRefusedMeansEscaped(cfg, SendRequest(cfg, Asked(cfg, st, revision), revision), revision, NameSet(input.route.names), input);
    }
  }

  function RunLoop(cfg: Config, st: RunState, revision: Option<Revision>, inputs: nat -> StepInput, i: nat): RunResult
    decreases PassesLeft(cfg, st)
  {
    if IsTerminal(st.status) then RunResult(EmitEnd(st), Returned)
    else
      var r := RunStep(cfg, st, revision, inputs(i));
      match r.exit
      case Returned =>
        StepUsesPass(cfg, st, revision, inputs(i));
        RunLoop(cfg, r.st, r.revision, inputs, i + 1)
      case AgentRaised => RunResult(EmitEnd(r.st), Returned)
      case Escaped => RunResult(r.st, Escaped)
      case CanceledOut => RunResult(CancelRun(r.st), CanceledOut)
  }

  datatype Head = Head(st: RunState, revision: Option<Revision>)

  /** The head of the pass after this one, if there is one. */
  function NextHead(cfg: Config, head: Head, input: StepInput): Option<Head> {
    if IsTerminal(head.st.status) then None
    else
      var r := RunStep(cfg, head.st, head.revision, input);
      if r.exit == Returned then Some(Head(r.st, r.revision)) else None
  }

  /** From one head the loop runs on as from the next. */
  lemma LoopTakesOnePass(cfg: Config, head: Head, inputs: nat -> StepInput, i: nat)
    requires NextHead(cfg, head, inputs(i)).Some?
    ensures var next := NextHead(cfg, head, inputs(i)).value;
            RunLoop(cfg, head.st, head.revision, inputs, i) == RunLoop(cfg, next.st, next.revision, inputs, i + 1)
  {
    StepUsesPass(cfg, head.st, head.revision, inputs(i));
  }

  /** How many passes the loop makes. */
  function PassesMade(cfg: Config, st: RunState, revision: Option<Revision>, inputs: nat -> StepInput, i: nat): nat
    decreases PassesLeft(cfg, st)
  {
    if IsTerminal(st.status) then 0
    else
      var r := RunStep(cfg, st, revision, inputs(i));
      if r.exit == Returned then
        StepUsesPass(cfg, st, revision, inputs(i));
        1 + PassesMade(cfg, r.st, r.revision, inputs, i + 1)
      else 1
  }

  lemma {:induction false} PassesAreBounded(cfg: Config, st: RunState, revision: Option<Revision>, inputs: nat -> StepInput, i: nat)
    ensures PassesMade(cfg, st, revision, inputs, i) <= PassesLeft(cfg, st)
    decreases PassesLeft(cfg, st)
  {
    if !IsTerminal(st.status) && RunStep(cfg, st, revision, inputs(i)).exit == Returned {
      var r := RunStep(cfg, st, revision, inputs(i));
      StepUsesPass(cfg, st, revision, inputs(i));
      PassesAreBounded(cfg, r.st, r.revision, inputs, i + 1);
    }
  }

  // ---- Whole runs -------------------------------------------------------------------------------

  function Idle(mem: Memory): RunState {
    RunState(Pending, None, None, [], 0, [], 0, 0, 0, mem.messages, mem.total, [], Log([], [], [], [], [], 0, false))
  }

  /** The state right after the session memory received the prompt and the user's message; still
      pending if one of them could not be added. */
  function Begin(b: Budget, mem: Memory, prompt: Option<string>, userInput: string): RunState {
    var idle := Idle(mem);
    var prompted := if prompt.Some? && prompt.value != "" && mem.messages == [] then idle.Write(b, System(prompt.value)) else idle;
    if prompted.log.refused then prompted
    else
      var told := prompted.Write(b, User(userInput));
      if told.log.refused then told else told.(status := Running)
  }

  /** A run whose first writes raise escapes before it has emitted anything. */
  function Run(cfg: Config, mem: Memory, prompt: Option<string>, userInput: string,
               planning: PlanInput, inputs: nat -> StepInput): RunResult
  {
    var told := Begin(cfg.budget, mem, prompt, userInput);
    if told.log.refused then RunResult(told, Escaped)
    else
      var begun := told.Emit(RunStart);
      match planning
      case NoPlanner => RunLoop(cfg.(plan := None), begun, None, inputs, 0)
      case Planned(plan) => RunLoop(cfg.(plan := Some(plan)), begun.Emit(PlanCreated), None, inputs, 0)
      case PlanAgentError => RunResult(EmitEnd(begun.Fail(FromPlanner)), Returned)
      case PlanOtherError => RunResult(begun, Escaped)
      case PlanCanceled => RunResult(CancelRun(begun), CanceledOut)
  }

  /** Where the passes of a run start, if it gets that far. */
  datatype Launch = Launch(cfg: Config, st: RunState)

  function Launched(cfg: Config, mem: Memory, prompt: Option<string>, userInput: string, planning: PlanInput): Option<Launch> {
    var told := Begin(cfg.budget, mem, prompt, userInput);
    var begun := told.Emit(RunStart);
    if told.log.refused then None
    else
      match planning
      case NoPlanner => Some(Launch(cfg.(plan := None), begun))
      case Planned(plan) => Some(Launch(cfg.(plan := Some(plan)), begun.Emit(PlanCreated)))
      case _ => None
  }

  /** A run is its passes, or has written nothing but its first messages. */
  lemma RunIsLaunched(cfg: Config, mem: Memory, prompt: Option<string>, userInput: string,
                      planning: PlanInput, inputs: nat -> StepInput)
    ensures var launched := Launched(cfg, mem, prompt, userInput, planning); var r := Run(cfg, mem, prompt, userInput, planning, inputs);
            if launched.Some? then r == RunLoop(launched.value.cfg, launched.value.st, None, inputs, 0)
            else r.st.Mem() == Begin(cfg.budget, mem, prompt, userInput).Mem() && r.st.log == Begin(cfg.budget, mem, prompt, userInput).log
                 && r.st.steps == [] && r.st.stepCount == 0
    ensures var launched := Launched(cfg, mem, prompt, userInput, planning); var told := Begin(cfg.budget, mem, prompt, userInput);
            launched.Some? ==>
              && launched.value.cfg.(plan := cfg.plan) == cfg && launched.value.st.(events := told.events) == told
              && !told.log.refused
  {
  }

  /** Every run ends, after at most one pass more than its step limit. */
  lemma RunMakesFewPasses(cfg: Config, mem: Memory, prompt: Option<string>, userInput: string,
                          planning: PlanInput, inputs: nat -> StepInput)
    ensures var launched := Launched(cfg, mem, prompt, userInput, planning);
            launched.Some? ==> PassesMade(launched.value.cfg, launched.value.st, None, inputs, 0) <= 1 + cfg.policy.maxSteps
  {
    var launched := Launched(cfg, mem, prompt, userInput, planning);
    if launched.Some? {
      PassesAreBounded(launched.value.cfg, launched.value.st, None, inputs, 0);
    }
  }
}
