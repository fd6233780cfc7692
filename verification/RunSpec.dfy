/** One agent run as a function of what the router, the model, the tools and the critic do.

    Every awaited call is an input that may be a result, a framework error, any other error, or
    a cancellation.  A run is bounded by its policy, so the loop below is total. */
module RunSpec {
  import opened Messages
  import opened ShortTerm
  import opened LoopGuard
  import opened Validator
  import opened Executor

  datatype Status =
    | Pending | Running | AwaitingTool
    | Finished | MaxSteps | LoopDetected | ValidationFailed | Failed | Canceled | ReflectionLimit

  predicate IsTerminal(s: Status) {
    !s.Pending? && !s.Running? && !s.AwaitingTool?
  }

  datatype StopReason =
    | FinishNormal | StepBudget | Looping | InvalidCalls | CanceledRun | Error | RevisionBudget

  datatype Source = FromPlanner | FromRouter | FromLlm | FromTool | FromCritic | FromRuntime

  datatype StepKind = LlmCall | ToolExec | Critique

  datatype Step = Step(index: nat, kind: StepKind)

  /** A rejected draft and what the critic said about it. */
  datatype Revision = Revision(draft: string, feedback: string)

  datatype Event =
    | RunStart
    | PlanCreated
    | ToolRouting(step: nat)
    | LlmRequest(step: nat)
    | LlmToken(step: nat, token: Option<string>)
    | LlmResponse(step: nat)
    | ToolResponse(step: nat)
    | CritiqueCompleted(step: nat)
    | RunEnd(step: nat, finished: bool, final: Option<string>, source: Option<Source>,
             reason: Option<StopReason>, status: Status)

  // ---- Inputs --------------------------------------------------------------------------------

  datatype Plan = Plan(routingQuery: string, context: string)

  datatype PlanInput = NoPlanner | Planned(plan: Plan) | PlanAgentError | PlanOtherError | PlanCanceled

  datatype RouteInput = Routed(names: seq<string>) | RouteAgentError | RouteOtherError | RouteCanceled

  /** `tokens` are the text pieces streamed before the outcome. */
  datatype LlmInput =
    | Replied(tokens: seq<string>, streamed: bool, draft: Option<string>, calls: seq<ToolCall>)
    | LlmAgentError(tokens: seq<string>)
    | LlmOtherError(tokens: seq<string>)
    | LlmCanceled(tokens: seq<string>)

  datatype ToolsInput = ToolsRun(behave: nat -> Behaviour) | ToolsAgentError | ToolsOtherError | ToolsCanceled

  datatype CriticInput =
    | Accept
    | Revise(feedback: Option<string>)
    | CriticAgentError | CriticOtherError | CriticCanceled

  datatype StepInput = StepInput(route: RouteInput, llm: LlmInput, tools: ToolsInput, critic: CriticInput)

  // ---- Configuration and state -----------------------------------------------------------------

  datatype Config = Config(
    policy: LoopPolicy,
    budget: Budget,
    rules: Rules,
    enabled: set<string>,
    hasCritic: bool,
    plan: Option<Plan>,
    blank: string -> bool,
    canonical: Arguments -> Option<string>,
    payload: Revision -> string)

  datatype Log = Log(
    writes: seq<Message>,
    requests: seq<seq<Message>>,
    reviews: seq<seq<Message>>,
    queries: seq<string>,
    rejected: seq<Revision>,
    roundSize: nat,
    refused: bool)

  /** The run's state, its session memory and its event stream.  The log records the run: messages
      written, contexts sent to the model and to the critic, routing queries, drafts the critic turned
      down; `roundSize` is the number of valid calls of the latest tool round, and `refused` says that
      the latest write raised. */
  datatype RunState = RunState(
    status: Status,
    stopReason: Option<StopReason>,
    errorSource: Option<Source>,
    steps: seq<Step>,
    stepCount: nat,
    toolCallHistory: seq<Signature>,
    validationFailureRounds: nat,
    toolErrorRounds: nat,
    revisionRounds: nat,
    window: seq<Message>,
    total: int,
    events: seq<Event>,
    log: Log)
  {
    function Mem(): Memory { Memory(window, total) }

    function Emit(e: Event): RunState { this.(events := events + [e]) }

    /** The message goes into the memory, whether the write raises or not. */
    function Write(b: Budget, m: Message): RunState {
      var added := AddTo(b, Mem(), m);
      this.(window := added.memory.messages, total := added.memory.total,
            log := log.(writes := log.writes + [m], refused := added.raised))
    }

    /** Messages are written in turn up to the first write that raises. */
    function WriteAll(b: Budget, ms: seq<Message>): RunState
      decreases |ms|
    {
      if ms == [] then this
      else
        var before := WriteAll(b, ms[..|ms| - 1]);
        if before.log.refused then before else before.Write(b, ms[|ms| - 1])
    }

    function AddStep(kind: StepKind): RunState {
      this.(steps := steps + [Step(stepCount, kind)], stepCount := stepCount + 1)
    }

    function Terminate(s: Status, reason: StopReason, source: Option<Source>): RunState {
      this.(status := s, stopReason := Some(reason), errorSource := source)
    }

    function Fail(source: Source): RunState { Terminate(Failed, Error, Some(source)) }

    function EmitTokens(cfg: Config, tokens: seq<string>): RunState {
      if cfg.hasCritic || tokens == [] then this
      else EmitTokens(cfg, tokens[..|tokens| - 1]).Emit(LlmToken(stepCount, Some(tokens[|tokens| - 1])))
    }
  }

  /** How one pass of the loop ends: normally, or by a framework error, another error, a cancel. */
  datatype Exit = Returned | AgentRaised | Escaped | CanceledOut

  datatype StepResult = StepResult(st: RunState, revision: Option<Revision>, exit: Exit)

  // ---- What is sent and asked -------------------------------------------------------------------

  function Context(b: Budget, window: seq<Message>): (context: seq<Message>) {
    (if b.system.Some? then [b.system.value] else []) + window
  }

  /** The messages sent to the model: the context with the plan and the pending revision. */
  function RequestMessages(cfg: Config, window: seq<Message>, revision: Option<Revision>): (ms: seq<Message>) {
    var context := Context(cfg.budget, window);
    var planned := if cfg.plan.Some? then InsertSystem(context, cfg.plan.value.context) else context;
    if revision.Some? then InsertSystem(planned, cfg.payload(revision.value)) else planned
  }

  function LatestText(window: seq<Message>): string {
    if window == [] then ""
    else
      match window[|window| - 1]
      case Assistant(draft, _) => (if draft.Some? then draft.value else "")
      case other => other.content
  }

  function RouteQuery(cfg: Config, window: seq<Message>, revision: Option<Revision>): string {
    if revision.Some? then revision.value.feedback
    else if cfg.plan.Some? then cfg.plan.value.routingQuery
    else LatestText(window)
  }

  function NameSet(names: seq<string>): set<string> {
    set n | n in names
  }

  /** The state once the routing query is out. */
  function Asked(cfg: Config, st: RunState, revision: Option<Revision>): RunState {
    st.(log := st.log.(queries := st.log.queries + [RouteQuery(cfg, st.window, revision)]))
  }

  // ---- A draft answer ---------------------------------------------------------------------------

  /** The only place that writes an answer. */
  function Commit(cfg: Config, st: RunState, revision: Option<Revision>, answer: string): StepResult {
    var written := st.Write(cfg.budget, Assistant(Some(answer), []));
    if written.log.refused then StepResult(written, revision, Escaped)
    else StepResult(written.Terminate(Finished, FinishNormal, None), None, Returned)
  }

  function Reject(cfg: Config, st: RunState, revision: Option<Revision>, draft: string, feedback: Option<string>): StepResult {
    var note := Revision(draft, if feedback.Some? then feedback.value else "");
    var noted := st.(log := st.log.(rejected := st.log.rejected + [note]));
    if noted.revisionRounds >= cfg.policy.reflectionRevisionRounds then
      StepResult(noted.Terminate(ReflectionLimit, RevisionBudget, None), None, Returned)
    else
      var counted := noted.(revisionRounds := noted.revisionRounds + 1, status := Running);
      if feedback.None? then StepResult(counted.Fail(FromCritic), revision, AgentRaised)
      else StepResult(counted, Some(note), Returned)
  }

  /** The critic's turn; it takes a step whatever comes of it. */
  function Judge(cfg: Config, st: RunState, revision: Option<Revision>, draft: string, critic: CriticInput): StepResult {
    var reviewed := st.(log := st.log.(reviews := st.log.reviews + [Context(cfg.budget, st.window)])).AddStep(Critique);
    match critic
    case CriticCanceled => StepResult(reviewed, revision, CanceledOut)
    case CriticAgentError => StepResult(reviewed.Fail(FromCritic), revision, AgentRaised)
    case CriticOtherError => StepResult(reviewed.Fail(FromCritic), revision, Escaped)
    case Accept => Commit(cfg, reviewed.Emit(CritiqueCompleted(st.stepCount)), revision, draft)
    case Revise(feedback) => Reject(cfg, reviewed.Emit(CritiqueCompleted(st.stepCount)), revision, draft, feedback)
  }

  function ReviewDraft(cfg: Config, st: RunState, revision: Option<Revision>, draft: Option<string>, critic: CriticInput): StepResult {
    if draft.None? || cfg.blank(draft.value) then
      StepResult(st.Fail(FromLlm), revision, AgentRaised)
    else if !cfg.hasCritic then
      Commit(cfg, st, revision, draft.value)
    else if StepsExhausted(cfg.policy, st.stepCount) then
      StepResult(st.Terminate(MaxSteps, StepBudget, None), None, Returned)
    else Judge(cfg, st, revision, draft.value, critic)
  }

  // ---- A round of tool calls --------------------------------------------------------------------

  function CountFailed(results: seq<ToolResult>): (n: nat)
    ensures n <= |results|
  {
    if results == [] then 0
    else CountFailed(results[..|results| - 1]) + if results[|results| - 1].Errored? then 1 else 0
  }

  function AnswerOf(r: ToolResult): Message
    requires r.call.fn.Some?
  {
    Tool(r.call.id, r.call.fn.value.name,
         match r
         case Success(_, content) => content
         case Errored(_, errorType, error) => "[ERROR " + errorType + "] " + error)
  }

  /** The step is there before the message is written, the event only if the write goes through. */
  function RecordResult(cfg: Config, st: RunState, r: ToolResult): RunState
    requires r.call.fn.Some?
  {
    var done := st.AddStep(ToolExec).Write(cfg.budget, AnswerOf(r));
    if done.log.refused then done else done.Emit(ToolResponse(done.stepCount))
  }

  predicate HaveFunctions(results: seq<ToolResult>) {
    forall r | r in results :: r.call.fn.Some?
  }

  function RecordResults(cfg: Config, st: RunState, results: seq<ToolResult>): RunState
    requires HaveFunctions(results)
  {
    if results == [] then st
    else
      var n := |results| - 1;
      assert results[n] in results;
      var before := RecordResults(cfg, st, results[..n]);
      if before.log.refused then before else RecordResult(cfg, before, results[n])
  }

  /** A round of failures only counts against the budget; any other restarts the count. */
  function CountErrorRound(cfg: Config, st: RunState, allFailed: bool): RunState {
    if allFailed then
      var failed := st.(toolErrorRounds := st.toolErrorRounds + 1);
      if ToolErrorsExhausted(cfg.policy, failed.toolErrorRounds) then failed.Fail(FromTool)
      else failed.(status := Running)
    else st.(toolErrorRounds := 0, status := Running)
  }

  function ProcessToolResults(cfg: Config, st: RunState, results: seq<ToolResult>): RunState
    requires HaveFunctions(results)
  {
    var recorded := RecordResults(cfg, st, results);
    if recorded.log.refused then recorded
    else CountErrorRound(cfg, recorded, results != [] && CountFailed(results) == |results|)
  }

  function ExecuteRound(cfg: Config, st: RunState, revision: Option<Revision>, valid: seq<ToolCall>, tools: ToolsInput): StepResult {
    var begun := st.(log := st.log.(roundSize := |valid|));
    match tools
    case ToolsAgentError => StepResult(begun.Fail(FromTool), revision, AgentRaised)
    case ToolsOtherError => StepResult(begun.Fail(FromTool), revision, Escaped)
    case ToolsCanceled => StepResult(begun, revision, CanceledOut)
    case ToolsRun(behave) =>
      match ExecuteCalls(cfg.enabled, cfg.rules, valid, behave)
      case None => StepResult(begun.Fail(FromTool), revision, Escaped)
      case Some(results) =>
        var processed := ProcessToolResults(cfg, begun, results);
        StepResult(processed, revision, if processed.log.refused then Escaped else Returned)
  }

  function ViolationText(v: Violation): string {
    "[VALIDATION ERROR] " +
    match v.reason
    case MissingFunction => "malformed_tool_call: missing function"
    case MissingName => "malformed_tool_call: missing function name"
    case UnknownTool => "unknown_tool: tool '" + v.name + "' is not registered"
    case ToolNotRouted => "tool_not_routed: tool '" + v.name + "' was not selected for this run"
    case ArgumentsNotText => "invalid_arguments: arguments must be a JSON string"
    case ArgumentsNotJson(why) => "invalid_arguments: invalid JSON: " + why
    case ArgumentsNotObject => "invalid_arguments: tool arguments must be a JSON object"
    case SchemaViolated(why) => "schema_validation_failed: " + why
  }

  function ViolationMessage(v: Violation): Message {
    Tool(v.callId, v.name, ViolationText(v))
  }

  function ViolationMessages(vs: seq<Violation>): (ms: seq<Message>)
    ensures |ms| == |vs|
  {
    seq(|vs|, i requires 0 <= i < |vs| => ViolationMessage(vs[i]))
  }

  function CheckViolations(cfg: Config, st: RunState): RunState {
    if ValidationExhausted(cfg.policy, st.validationFailureRounds) then st.Terminate(ValidationFailed, InvalidCalls, None)
    else st
  }

  /** Violations are written back and counted; the round budget may end the run. */
  function FeedViolations(cfg: Config, st: RunState, vs: seq<Violation>): RunState {
    if vs == [] then st.(validationFailureRounds := 0)
    else
      var fed := st.(validationFailureRounds := st.validationFailureRounds + 1).WriteAll(cfg.budget, ViolationMessages(vs));
      if fed.log.refused then fed else CheckViolations(cfg, fed)
  }

  /** The rest of a round whose calls are written: violations first, then the valid calls. */
  function AnswerCalls(cfg: Config, st: RunState, revision: Option<Revision>, allowed: set<string>,
                       calls: seq<ToolCall>, tools: ToolsInput): StepResult
  {
    var valid := ValidCalls(cfg.rules, calls, allowed);
    var fed := FeedViolations(cfg, st, Violations(cfg.rules, calls, allowed));
    if ValidationRaises(cfg.rules, calls, allowed) then StepResult(st, revision, Escaped)
    else if fed.log.refused then StepResult(fed, revision, Escaped)
    else if IsTerminal(fed.status) then StepResult(fed, None, Returned)
    else if valid == [] then StepResult(fed.(status := Running), revision, Returned)
    else ExecuteRound(cfg, fed, revision, valid, tools)
  }

  /** A call without a function, and arguments that cannot be parsed or printed, raise. */
  function SignatureOf(cfg: Config, call: ToolCall): Option<Signature> {
    if call.fn.None? then None
    else
      match cfg.canonical(call.fn.value.arguments)
      case None => None
      case Some(text) => Some(Signature(call.fn.value.name, text))
  }

  /** The signatures of the calls in front of the first one whose signature raises. */
  function Signatures(cfg: Config, calls: seq<ToolCall>): (r: seq<Signature>)
    ensures |r| <= |calls|
  {
    if calls == [] || SignatureOf(cfg, calls[0]).None? then []
    else [SignatureOf(cfg, calls[0]).value] + Signatures(cfg, calls[1..])
  }

  function ToolRound(cfg: Config, st: RunState, revision: Option<Revision>, allowed: set<string>,
                     draft: Option<string>, calls: seq<ToolCall>, tools: ToolsInput): StepResult
  {
    var signatures := Signatures(cfg, calls);
    var tried := st.(status := AwaitingTool, toolCallHistory := st.toolCallHistory + signatures);
    if |signatures| < |calls| then
      StepResult(tried, revision, Escaped)
    else if IsConsecutiveRepeat(tried.toolCallHistory, cfg.policy.maxConsecutiveRepeats) then
      StepResult(tried.Terminate(LoopDetected, Looping, None), None, Returned)
    else
      var written := tried.Write(cfg.budget, Assistant(draft, calls));
      if written.log.refused then StepResult(written, revision, Escaped)
      else AnswerCalls(cfg, written, revision, allowed, calls, tools)
  }

  // ---- One pass of the loop ---------------------------------------------------------------------

  /** A streamed reply with tool calls closes its token events with the calls themselves. */
  function AfterReply(cfg: Config, st: RunState, streamed: bool, calls: seq<ToolCall>): RunState {
    var closed := if streamed && calls != [] && !cfg.hasCritic then st.Emit(LlmToken(st.stepCount, None)) else st;
    closed.Emit(LlmResponse(closed.stepCount)).AddStep(LlmCall)
  }

  function AskModel(cfg: Config, st: RunState, revision: Option<Revision>, allowed: set<string>, input: StepInput): StepResult {
    var sent := st.EmitTokens(cfg, input.llm.tokens);
    match input.llm
    case LlmAgentError(_) => StepResult(sent.Fail(FromLlm), revision, AgentRaised)
    case LlmOtherError(_) => StepResult(sent.Fail(FromLlm), revision, Escaped)
    case LlmCanceled(_) => StepResult(sent, revision, CanceledOut)
    case Replied(_, streamed, draft, calls) =>
      var replied := AfterReply(cfg, sent, streamed, calls);
      if calls != [] then ToolRound(cfg, replied, revision, allowed, draft, calls, input.tools)
      else ReviewDraft(cfg, replied, revision, draft, input.critic)
  }

  function SendRequest(cfg: Config, st: RunState, revision: Option<Revision>): RunState {
    var sent := st.Emit(ToolRouting(st.stepCount)).Emit(LlmRequest(st.stepCount));
    sent.(log := sent.log.(requests := sent.log.requests + [RequestMessages(cfg, st.window, revision)]))
  }

  function RunStep(cfg: Config, st: RunState, revision: Option<Revision>, input: StepInput): StepResult {
    if StepsExhausted(cfg.policy, st.stepCount) then
      StepResult(st.Terminate(MaxSteps, StepBudget, None), None, Returned)
    else if st.window == [] then
      StepResult(st, revision, Escaped)
    else
      var asked := Asked(cfg, st, revision);
      match input.route
      case RouteAgentError => StepResult(asked.Fail(FromRouter), revision, AgentRaised)
      case RouteOtherError => StepResult(asked, revision, Escaped)
      case RouteCanceled => StepResult(asked, revision, CanceledOut)
      case Routed(names) =>
        AskModel(cfg, SendRequest(cfg, asked, revision), revision, NameSet(names), input)
  }
}
