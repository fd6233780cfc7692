/** How passes and runs end, and what a pass hands on, said from the inputs. */
module RunOutcomes {
  import opened Messages
  import opened ShortTerm
  import opened Validator
  import opened Executor
  import opened RunSpec
  import opened Runs
  import opened RunContent
  import opened RoundContent

  // ---- What makes a pass end -------------------------------------------------------------------

  /** No step is left for the pass, or for the critique of its draft. */
  predicate RunsOut(cfg: Config, head: Head, input: StepInput) {
    || head.st.stepCount >= cfg.policy.maxSteps
    || (Drafts(cfg, head, input) && cfg.hasCritic && head.st.stepCount + 1 >= cfg.policy.maxSteps)
  }

  predicate Loops(cfg: Config, head: Head, input: StepInput) {
    && Calls(cfg, head, input) && AllSigned(cfg, input.llm.calls)
    && KeepsRepeating(head.st.toolCallHistory + Signatures(cfg, input.llm.calls), cfg.policy.maxConsecutiveRepeats)
  }

  /** The calls get to be validated, once they are written. */
  predicate IsChecked(cfg: Config, head: Head, input: StepInput) {
    && Calls(cfg, head, input) && AllSigned(cfg, input.llm.calls) && !Loops(cfg, head, input)
    && !ValidationRaises(cfg.rules, input.llm.calls, NameSet(input.route.names))
  }

  predicate Refuses(cfg: Config, head: Head, input: StepInput) {
    IsChecked(cfg, head, input) && TooManyRefusals(cfg, head.st, NameSet(input.route.names), input.llm.calls)
  }

  /** The valid calls get to be executed, once all before them is written. */
  predicate Executes(cfg: Config, head: Head, input: StepInput) {
    && IsChecked(cfg, head, input) && !Refuses(cfg, head, input)
    && ValidCalls(cfg.rules, input.llm.calls, NameSet(input.route.names)) != []
  }

  /** One round too many in which every tool failed. */
  predicate FailsTooOften(cfg: Config, head: Head, input: StepInput) {
    && Executes(cfg, head, input) && input.tools.ToolsRun?
    && AllFail(cfg, ValidCalls(cfg.rules, input.llm.calls, NameSet(input.route.names)), input.tools.behave)
    && head.st.toolErrorRounds + 1 > cfg.policy.toolErrorFeedbackRounds
  }

  /** One rejected draft too many. */
  predicate RejectsTooOften(cfg: Config, head: Head, input: StepInput) {
    IsRejected(cfg, head, input) && head.st.revisionRounds >= cfg.policy.reflectionRevisionRounds
  }

  /** Something is cancelled while the pass waits for it. */
  predicate IsCut(cfg: Config, head: Head, input: StepInput) {
    || (Asks(cfg, head) && input.route.RouteCanceled?)
    || (Sends(cfg, head, input) && input.llm.LlmCanceled?)
    || (Executes(cfg, head, input) && input.tools.ToolsCanceled?)
    || (IsReviewed(cfg, head, input) && input.critic.CriticCanceled?)
  }

  /** An error of the framework, an empty reply and a rejection without feedback among them. */
  predicate Raises(cfg: Config, head: Head, input: StepInput) {
    || (Asks(cfg, head) && input.route.RouteAgentError?)
    || (Sends(cfg, head, input) && input.llm.LlmAgentError?)
    || (Sends(cfg, head, input) && input.llm.Replied? && input.llm.calls == [] && !Drafts(cfg, head, input))
    || (Executes(cfg, head, input) && input.tools.ToolsAgentError?)
    || (IsReviewed(cfg, head, input) && input.critic.CriticAgentError?)
    || (IsRejected(cfg, head, input) && !RejectsTooOften(cfg, head, input) && input.critic.feedback.None?)
  }

  /** Any other error of model, tools or critic, which is recorded before it goes on. */
  predicate Breaks(cfg: Config, head: Head, input: StepInput) {
    || (Sends(cfg, head, input) && input.llm.LlmOtherError?)
    || (Executes(cfg, head, input) && input.tools.ToolsOtherError?)
    || (IsReviewed(cfg, head, input) && input.critic.CriticOtherError?)
  }

  /** An error that nobody records. */
  predicate Slips(cfg: Config, head: Head, input: StepInput) {
    || (head.st.stepCount < cfg.policy.maxSteps && head.st.window == [])
    || (Asks(cfg, head) && input.route.RouteOtherError?)
    || (Calls(cfg, head, input) && !AllSigned(cfg, input.llm.calls))
    || (Calls(cfg, head, input) && !Loops(cfg, head, input) && ValidationRaises(cfg.rules, input.llm.calls, NameSet(input.route.names)))
  }

  /** Each terminal status is set exactly for its reasons; a write that raises comes before most of them. */
  ghost predicate StatusRight(cfg: Config, head: Head, input: StepInput, st: RunState) {
    var written := !st.log.refused;
    && (st.status == Failed <==> written && (Raises(cfg, head, input) || Breaks(cfg, head, input) || FailsTooOften(cfg, head, input)))
    && (st.status == MaxSteps <==> RunsOut(cfg, head, input))
    && (st.status == LoopDetected <==> Loops(cfg, head, input))
    && (st.status == ValidationFailed <==> written && Refuses(cfg, head, input))
    && (st.status == ReflectionLimit <==> RejectsTooOften(cfg, head, input))
    && (st.status == Finished <==> written && IsAccepted(cfg, head, input))
  }

  /** Each way for a pass to end is taken exactly for its reasons. */
  ghost predicate EndsRight(cfg: Config, head: Head, input: StepInput, r: StepResult) {
    var written := !r.st.log.refused;
    && (r.exit == Escaped <==> !written || Breaks(cfg, head, input) || Slips(cfg, head, input))
    && (r.exit == CanceledOut <==> written && IsCut(cfg, head, input))
    && (r.exit == AgentRaised <==> written && Raises(cfg, head, input))
    && StatusRight(cfg, head, input, r.st)
    && r.st.status != Canceled && (r.exit == CanceledOut ==> !IsTerminal(r.st.status))
  }

  /** What the next pass begins with. */
  ghost predicate HandsOn(cfg: Config, head: Head, input: StepInput, r: StepResult) {
    r.exit == Returned && !IsTerminal(r.st.status) ==>
      && r.st.status == Running
      && if IsRejected(cfg, head, input) then r.revision == Some(NoteOf(input)) && r.st.revisionRounds == head.st.revisionRounds + 1
      else r.revision == head.revision && r.st.revisionRounds == head.st.revisionRounds
  }

  // ---- A pass ends so --------------------------------------------------------------------------

  predicate ToolsFail(cfg: Config, st: RunState, valid: seq<ToolCall>, tools: ToolsInput) {
    || tools.ToolsAgentError? || tools.ToolsOtherError?
    || (tools.ToolsRun? && AllFail(cfg, valid, tools.behave) && st.toolErrorRounds + 1 > cfg.policy.toolErrorFeedbackRounds)
  }

  /** What a tool round can end in. */
  ghost predicate RoundEnds(cfg: Config, st: RunState, revision: Option<Revision>, allowed: set<string>, calls: seq<ToolCall>, tools: ToolsInput, r: StepResult) {
    var written, over := !r.st.log.refused, TooManyRefusals(cfg, st, allowed, calls);
    var runs := written && !over && ValidCalls(cfg.rules, calls, allowed) != [];
    && (r.exit == Escaped <==> !written || (runs && tools.ToolsOtherError?))
    && (r.exit == CanceledOut <==> runs && tools.ToolsCanceled?)
    && (r.exit == AgentRaised <==> runs && tools.ToolsAgentError?)
    && (r.st.status == Failed <==> runs && ToolsFail(cfg, st, ValidCalls(cfg.rules, calls, allowed), tools))
    && (r.st.status == ValidationFailed <==> written && over)
    && (r.st.status == Failed || r.st.status == ValidationFailed || !IsTerminal(r.st.status))
    && (r.exit == Returned && !IsTerminal(r.st.status) ==> r.revision == revision && r.st.status == Running)
    && r.st.revisionRounds == st.revisionRounds
  }

  lemma RunningEnds(cfg: Config, st: RunState, revision: Option<Revision>, valid: seq<ToolCall>, allowed: set<string>, tools: ToolsInput)
    requires tools.ToolsRun? && (forall c | c in valid :: Executable(cfg.rules, c, allowed)) && !st.log.refused
    ensures var r := ExecuteRound(cfg, st, revision, valid, tools);
      && r.exit == (if r.st.log.refused then Escaped else Returned) && r.revision == revision
      && r.st.revisionRounds == st.revisionRounds && (r.st.log.refused ==> r.st.status == st.status)
  {
    ResultsSay(cfg, valid, allowed, tools.behave);
    ProcessResultsShape(cfg, st.(log := st.log.(roundSize := |valid|)), ExecuteCalls(cfg.enabled, cfg.rules, valid, tools.behave).value);
  }

  /** What running the valid calls can end in. */
  ghost predicate ExecutionEnded(cfg: Config, st: RunState, revision: Option<Revision>, valid: seq<ToolCall>, tools: ToolsInput, r: StepResult) {
    && (r.exit == Escaped <==> r.st.log.refused || tools.ToolsOtherError?)
    && (r.exit == CanceledOut <==> tools.ToolsCanceled?) && (r.exit == AgentRaised <==> tools.ToolsAgentError?)
    && (r.st.status == Failed <==> !r.st.log.refused && ToolsFail(cfg, st, valid, tools))
    && (r.st.status == Failed || !IsTerminal(r.st.status))
    && r.revision == revision && r.st.revisionRounds == st.revisionRounds && (!tools.ToolsRun? ==> !r.st.log.refused)
    && (r.exit == Returned && !IsTerminal(r.st.status) ==> r.st.status == Running)
  }

  lemma ExecutionEnds(cfg: Config, st: RunState, revision: Option<Revision>, valid: seq<ToolCall>, allowed: set<string>, tools: ToolsInput)
    requires valid != [] && (forall c | c in valid :: Executable(cfg.rules, c, allowed)) && st.status == AwaitingTool && !st.log.refused
    ensures ExecutionEnded(cfg, st, revision, valid, tools, ExecuteRound(cfg, st, revision, valid, tools))
  {
    if tools.ToolsRun? {
      RunningEnds(cfg, st, revision, valid, allowed, tools);
      ExecutionSays(cfg, st, revision, valid, allowed, tools);
    }
  }

  /** A round from the moment its calls are written. */
  lemma AnsweringEnds(cfg: Config, st: RunState, revision: Option<Revision>, allowed: set<string>, calls: seq<ToolCall>, tools: ToolsInput)
    requires st.status == AwaitingTool && !st.log.refused && !ValidationRaises(cfg.rules, calls, allowed)
    ensures RoundEnds(cfg, st, revision, allowed, calls, tools, AnswerCalls(cfg, st, revision, allowed, calls, tools))
  {
    var vs, valid := Violations(cfg.rules, calls, allowed), ValidCalls(cfg.rules, calls, allowed);
    var fed := FeedViolations(cfg, st, vs);
    FeedingSays(cfg, st, vs);
    FeedViolationsShape(cfg, st, vs);
    if !fed.log.refused && valid != [] && !TooManyRefusals(cfg, st, allowed, calls) {
      ExecutionEnds(cfg, fed, revision, valid, allowed, tools);
    }
  }

  /** A whole round, from the reply on. */
  lemma RoundIsEnded(cfg: Config, st: RunState, revision: Option<Revision>, allowed: set<string>, draft: Option<string>, calls: seq<ToolCall>, tools: ToolsInput)
    requires st.status == Running && !st.log.refused
    ensures var r := ToolRound(cfg, st, revision, allowed, draft, calls, tools);
      if !AllSigned(cfg, calls) then r == StepResult(r.st, revision, Escaped) && r.st.status == AwaitingTool && !r.st.log.refused
      else if KeepsRepeating(st.toolCallHistory + Signatures(cfg, calls), cfg.policy.maxConsecutiveRepeats) then
        r.st.status == LoopDetected && r.exit == Returned && !r.st.log.refused
      else if ValidationRaises(cfg.rules, calls, allowed) then r.exit == Escaped && r.st.status == AwaitingTool
      else RoundEnds(cfg, st, revision, allowed, calls, tools, r)
  {
    StopsEarlyExactly(cfg, st, calls);
    SignaturesSay(cfg, calls);
    if Opens(cfg, st, draft, calls) && !ValidationRaises(cfg.rules, calls, allowed) {
      AnsweringEnds(cfg, RoundOpened(cfg, st, draft, calls), revision, allowed, calls, tools);
    }
  }

  lemma CallsEnd(cfg: Config, head: Head, input: StepInput)
    requires Calls(cfg, head, input) && head.st.status == Running && !head.st.log.refused
    ensures var r := RunStep(cfg, head.st, head.revision, input); EndsRight(cfg, head, input, r) && HandsOn(cfg, head, input, r)
  {
    var sent := SendRequest(cfg, Asked(cfg, head.st, head.revision), head.revision);
    RepliedShape(cfg, sent, input.llm);
    RoundIsEnded(cfg, RepliedState(cfg, sent, input.llm), head.revision, NameSet(input.route.names), input.llm.draft, input.llm.calls, input.tools);
  }

  lemma JudgeEnds(cfg: Config, head: Head, input: StepInput, st: RunState)
    requires IsReviewed(cfg, head, input) && st.status == Running && !st.log.refused && st.revisionRounds == head.st.revisionRounds
    ensures var r := Judge(cfg, st, head.revision, input.llm.draft.value, input.critic); EndsRight(cfg, head, input, r) && HandsOn(cfg, head, input, r)
  {
  }

  /** What the review of a draft can end in, from the state behind the reply. */
  lemma ReviewEnds(cfg: Config, head: Head, input: StepInput, st: RunState)
    requires Sends(cfg, head, input) && input.llm.Replied? && input.llm.calls == []
    requires st.status == Running && !st.log.refused && st.stepCount == head.st.stepCount + 1 && st.revisionRounds == head.st.revisionRounds
    ensures var r := ReviewDraft(cfg, st, head.revision, input.llm.draft, input.critic); EndsRight(cfg, head, input, r) && HandsOn(cfg, head, input, r)
  {
    if IsReviewed(cfg, head, input) {
      JudgeEnds(cfg, head, input, st);
    }
  }

  lemma DraftEnds(cfg: Config, head: Head, input: StepInput)
    requires Sends(cfg, head, input) && input.llm.Replied? && input.llm.calls == [] && head.st.status == Running && !head.st.log.refused
    ensures var r := RunStep(cfg, head.st, head.revision, input); EndsRight(cfg, head, input, r) && HandsOn(cfg, head, input, r)
  {
    var sent := SendRequest(cfg, Asked(cfg, head.st, head.revision), head.revision);
    RepliedShape(cfg, sent, input.llm);
    ReviewEnds(cfg, head, input, RepliedState(cfg, sent, input.llm));
  }

  lemma EarlyEnds(cfg: Config, head: Head, input: StepInput)
    requires (!Sends(cfg, head, input) || !input.llm.Replied?) && head.st.status == Running && !head.st.log.refused
    ensures var r := RunStep(cfg, head.st, head.revision, input); EndsRight(cfg, head, input, r) && HandsOn(cfg, head, input, r)
  {
    TokensOnlyEmit(cfg, SendRequest(cfg, Asked(cfg, head.st, head.revision), head.revision), input.llm.tokens);
  }

  /** Main result for one pass: how it ends, if it does, and what it hands on, if it does not. */
  lemma StepEnds(cfg: Config, head: Head, input: StepInput)
    requires head.st.status == Running && !head.st.log.refused
    ensures var r := RunStep(cfg, head.st, head.revision, input); EndsRight(cfg, head, input, r) && HandsOn(cfg, head, input, r)
  {
    if Calls(cfg, head, input) {
      CallsEnd(cfg, head, input);
    } else if Sends(cfg, head, input) && input.llm.Replied? {
      DraftEnds(cfg, head, input);
    } else {
      EarlyEnds(cfg, head, input);
    }
  }

  // ---- A run ends so ---------------------------------------------------------------------------

  /** Nothing in this pass makes it end. */
  ghost predicate KeepsGoing(cfg: Config, head: Head, input: StepInput) {
    && !RunsOut(cfg, head, input) && !Loops(cfg, head, input) && !Refuses(cfg, head, input) && !RejectsTooOften(cfg, head, input)
    && !IsAccepted(cfg, head, input) && !FailsTooOften(cfg, head, input)
    && !IsCut(cfg, head, input) && !Raises(cfg, head, input) && !Breaks(cfg, head, input) && !Slips(cfg, head, input)
  }

  /** How a run ends whose last pass is this one. */
  ghost predicate EndedBy(cfg: Config, head: Head, input: StepInput, r: RunResult) {
    var written := !r.st.log.refused;
    && (r.exit == Escaped <==> !written || Breaks(cfg, head, input) || Slips(cfg, head, input))
    && (r.exit == CanceledOut <==> written && IsCut(cfg, head, input))
    && (r.st.status == Canceled <==> r.exit == CanceledOut)
    && StatusRight(cfg, head, input, r.st)
  }

  /** All passes but the last keep going, and the run ends by the last. */
  ghost predicate EndedByLast(cfg: Config, heads: seq<Head>, inputs: nat -> StepInput, i: nat, r: RunResult) {
    && heads != []
    && (forall k | 0 <= k < |heads| - 1 :: KeepsGoing(cfg, heads[k], inputs(i + k)))
    && EndedBy(cfg, heads[|heads| - 1], inputs(i + |heads| - 1), r)
  }

  lemma GoingOn(cfg: Config, head: Head, inputs: nat -> StepInput, i: nat)
    requires head.st.status == Running && !head.st.log.refused
    requires var r := RunStep(cfg, head.st, head.revision, inputs(i)); r.exit == Returned && !IsTerminal(r.st.status)
    ensures var r := RunStep(cfg, head.st, head.revision, inputs(i));
      && r.st.status == Running && !r.st.log.refused && KeepsGoing(cfg, head, inputs(i))
      && PassesLeft(cfg, r.st) < PassesLeft(cfg, head.st)
      && Heads(cfg, head, inputs, i) == [head] + Heads(cfg, Head(r.st, r.revision), inputs, i + 1)
      && RunLoop(cfg, head.st, head.revision, inputs, i) == RunLoop(cfg, r.st, r.revision, inputs, i + 1)
  {
    StepEnds(cfg, head, inputs(i));
    StepUsesPass(cfg, head.st, head.revision, inputs(i));
  }

  lemma FirstKeepsGoing(cfg: Config, head: Head, rest: seq<Head>, inputs: nat -> StepInput, i: nat, r: RunResult)
    requires KeepsGoing(cfg, head, inputs(i)) && EndedByLast(cfg, rest, inputs, i + 1, r)
    ensures EndedByLast(cfg, [head] + rest, inputs, i, r)
  {
    var heads := [head] + rest;
    forall k | 0 <= k < |heads| - 1
      ensures KeepsGoing(cfg, heads[k], inputs(i + k))
    {
      if k > 0 {
        assert heads[k] == rest[k - 1] && KeepsGoing(cfg, rest[k - 1], inputs(i + 1 + (k - 1)));
      }
    }
  }

  lemma LastEnds(cfg: Config, head: Head, inputs: nat -> StepInput, i: nat)
    requires head.st.status == Running && !head.st.log.refused
    requires var r := RunStep(cfg, head.st, head.revision, inputs(i)); r.exit != Returned || IsTerminal(r.st.status)
    ensures Heads(cfg, head, inputs, i) == [head]
    ensures EndedBy(cfg, head, inputs(i), RunLoop(cfg, head.st, head.revision, inputs, i))
  {
    var r := RunStep(cfg, head.st, head.revision, inputs(i));
    StepEnds(cfg, head, inputs(i));
    if r.exit == Returned {
      StepUsesPass(cfg, head.st, head.revision, inputs(i));
      assert RunLoop(cfg, r.st, r.revision, inputs, i + 1) == RunResult(EmitEnd(r.st), Returned);
    }
  }

  lemma {:induction false} LoopIsEnded(cfg: Config, head: Head, inputs: nat -> StepInput, i: nat)
    requires head.st.status == Running && !head.st.log.refused
    ensures EndedByLast(cfg, Heads(cfg, head, inputs, i), inputs, i, RunLoop(cfg, head.st, head.revision, inputs, i))
    decreases PassesLeft(cfg, head.st)
  {
    var r := RunStep(cfg, head.st, head.revision, inputs(i));
    if r.exit == Returned && !IsTerminal(r.st.status) {
      GoingOn(cfg, head, inputs, i);
      var next := Head(r.st, r.revision);
      LoopIsEnded(cfg, next, inputs, i + 1);
      FirstKeepsGoing(cfg, head, Heads(cfg, next, inputs, i + 1), inputs, i, RunLoop(cfg, head.st, head.revision, inputs, i));
    } else {
      LastEnds(cfg, head, inputs, i);
    }
  }

  /** How a run ends that never gets to a pass: a write that raises, or planning that fails. */
  ghost predicate NeverStarted(planning: PlanInput, r: RunResult) {
    if r.st.log.refused then r.exit == Escaped && r.st.status == Pending
    else
      && (planning.PlanAgentError? || planning.PlanOtherError? || planning.PlanCanceled?)
      && (r.exit == Escaped <==> planning.PlanOtherError?) && (r.exit == CanceledOut <==> planning.PlanCanceled?)
      && r.st.status == match planning
         case PlanAgentError => Failed
         case PlanCanceled => Canceled
         case _ => Running
  }

  /** Main result: every run goes on exactly as long as nothing in a pass makes it end, and ends in the
      status and by the way out that its last pass, or what comes in front of the first, calls for. */
  lemma RunIsEnded(cfg: Config, mem: Memory, prompt: Option<string>, userInput: string, planning: PlanInput, inputs: nat -> StepInput)
    ensures var heads, r := RunHeads(cfg, mem, prompt, userInput, planning, inputs), Run(cfg, mem, prompt, userInput, planning, inputs);
      if heads == [] then NeverStarted(planning, r)
      else EndedByLast(cfg.(plan := PlanOf(planning)), heads, inputs, 0, r)
  {
    RunIsLaunched(cfg, mem, prompt, userInput, planning, inputs);
    var launched := Launched(cfg, mem, prompt, userInput, planning);
    if launched.Some? {
      LoopIsEnded(launched.value.cfg, Head(launched.value.st, None), inputs, 0);
    }
  }
}
