/** The runtime itself: methods that update the run's state, its memory and its event stream in
    place, each proved to do what the specification of a run says. */
module Runtime {
  import opened Messages
  import opened ShortTerm
  import opened LoopGuard
  import opened Validator
  import opened Executor
  import opened RunSpec
  import opened Runs
  import opened RunBounds
  import opened RunDrafts
  import opened RunEnds
  import opened RunPairing

  class RuntimeState {
    var status: Status
    var stopReason: Option<StopReason>
    var errorSource: Option<Source>
    var steps: seq<Step>
    var stepCount: nat
    var toolCallHistory: seq<Signature>
    var validationFailureRounds: nat
    var toolErrorRounds: nat
    var reflectionRevisionRounds: nat
    ghost var log: Log

    /** Running once the first messages are written, which `refused` says they are not. */
    constructor (ghost writes: seq<Message>, ghost refused: bool, status: Status)
      ensures this.status == status && stopReason == None && errorSource == None
      ensures steps == [] && stepCount == 0 && toolCallHistory == []
      ensures validationFailureRounds == toolErrorRounds == reflectionRevisionRounds == 0
      ensures log == Log(writes, [], [], [], [], 0, refused)
    {
      this.status, stopReason, errorSource := status, None, None;
      steps, stepCount, toolCallHistory := [], 0, [];
      validationFailureRounds, toolErrorRounds, reflectionRevisionRounds := 0, 0, 0;
      log := Log(writes, [], [], [], [], 0, refused);
    }
  }

  class AgentRuntime {
    /** What the current run has emitted. */
    var events: seq<Event>

    constructor ()
      ensures events == []
    {
      events := [];
    }

    ghost function Snapshot(state: RuntimeState, memory: BufferMemory): RunState
      reads this, state, memory
    {
      RunState(state.status, state.stopReason, state.errorSource, state.steps, state.stepCount,
               state.toolCallHistory, state.validationFailureRounds, state.toolErrorRounds,
               state.reflectionRevisionRounds, memory.messages, memory.totalTokens, events, state.log)
    }

    method Emit(e: Event)
      modifies `events
      ensures events == old(events) + [e]
    {
      events := events + [e];
    }

    method Terminate(state: RuntimeState, status: Status, reason: StopReason, source: Option<Source>)
      modifies state`status, state`stopReason, state`errorSource
      ensures state.status == status && state.stopReason == Some(reason) && state.errorSource == source
    {
      state.status := status;
      state.stopReason := Some(reason);
      state.errorSource := source;
    }

    method RecordStep(state: RuntimeState, kind: StepKind)
      modifies state`steps, state`stepCount
      ensures state.steps == old(state.steps) + [Step(old(state.stepCount), kind)]
      ensures state.stepCount == old(state.stepCount) + 1
    {
      state.steps := state.steps + [Step(state.stepCount, kind)];
      state.stepCount := state.stepCount + 1;
    }

    method AddMessage(cfg: Config, state: RuntimeState, memory: BufferMemory, m: Message) returns (raised: bool)
      requires memory.budget == cfg.budget
      modifies state`log, memory
      ensures Snapshot(state, memory) == old(Snapshot(state, memory)).Write(cfg.budget, m)
      ensures raised == state.log.refused
    {
      raised := memory.AddMessage(m);
      state.log := state.log.(writes := state.log.writes + [m], refused := raised);
    }

    method AnswerViolations(cfg: Config, state: RuntimeState, memory: BufferMemory, violations: seq<Violation>) returns (raised: bool)
      requires memory.budget == cfg.budget && !state.log.refused
      modifies state`log, memory
      ensures Snapshot(state, memory) == old(Snapshot(state, memory)).WriteAll(cfg.budget, ViolationMessages(violations))
      ensures raised == state.log.refused
    {
      ghost var before, ms := Snapshot(state, memory), ViolationMessages(violations);
      raised := false;
      for i := 0 to |violations|
        invariant Snapshot(state, memory) == before.WriteAll(cfg.budget, ms[..i]) && !state.log.refused && !raised
      {
        assert ms[..i + 1][..i] == ms[..i];
        raised := AddMessage(cfg, state, memory, ViolationMessage(violations[i]));
        if raised {
          WriteAllStops(cfg.budget, before, ms, i + 1);
          return;
        }
      }
      assert ms[..|violations|] == ms;
    }

    method CheckValidationBudget(cfg: Config, state: RuntimeState, memory: BufferMemory) returns (goOn: bool)
      requires !IsTerminal(state.status)
      modifies state`status, state`stopReason, state`errorSource
      ensures Snapshot(state, memory) == CheckViolations(cfg, old(Snapshot(state, memory)))
      ensures goOn <==> !IsTerminal(state.status)
    {
      goOn := !ValidationExhausted(cfg.policy, state.validationFailureRounds);
      if !goOn {
        Terminate(state, ValidationFailed, InvalidCalls, None);
      }
    }

    /** Violations are fed back one message each; no going on when the round budget is used up. */
    method HandleValidationFailure(cfg: Config, state: RuntimeState, memory: BufferMemory, violations: seq<Violation>)
      returns (goOn: bool, raised: bool)
      requires memory.budget == cfg.budget && violations != [] && state.status == AwaitingTool && !state.log.refused
      modifies state, memory
      ensures Snapshot(state, memory) == FeedViolations(cfg, old(Snapshot(state, memory)), violations)
      ensures raised == state.log.refused && (!raised ==> (goOn <==> !IsTerminal(state.status)))
    {
      ghost var before := Snapshot(state, memory);
      state.validationFailureRounds := state.validationFailureRounds + 1;
      raised := AnswerViolations(cfg, state, memory, violations);
      ghost var fed := Snapshot(state, memory);
      assert FeedViolations(cfg, before, violations) == if raised then fed else CheckViolations(cfg, fed);
      goOn := false;
      if !raised {
        goOn := CheckValidationBudget(cfg, state, memory);
      }
    }

    method RecordOne(cfg: Config, state: RuntimeState, memory: BufferMemory, r: ToolResult) returns (raised: bool)
      requires memory.budget == cfg.budget && r.call.fn.Some?
      modifies `events, state`steps, state`stepCount, state`log, memory
      ensures Snapshot(state, memory) == RecordResult(cfg, old(Snapshot(state, memory)), r)
      ensures raised == state.log.refused
    {
      RecordStep(state, ToolExec);
      raised := AddMessage(cfg, state, memory, AnswerOf(r));
      if !raised {
        Emit(ToolResponse(state.stepCount));
      }
    }

    method RecordAll(cfg: Config, state: RuntimeState, memory: BufferMemory, results: seq<ToolResult>) returns (failed: nat, raised: bool)
      requires memory.budget == cfg.budget && HaveFunctions(results) && !state.log.refused
      modifies `events, state`steps, state`stepCount, state`log, memory
      ensures Snapshot(state, memory) == RecordResults(cfg, old(Snapshot(state, memory)), results)
      ensures raised == state.log.refused && (!raised ==> failed == CountFailed(results))
    {
      ghost var before := Snapshot(state, memory);
      failed, raised := 0, false;
      for i := 0 to |results|
        invariant Snapshot(state, memory) == RecordResults(cfg, before, results[..i])
        invariant failed == CountFailed(results[..i]) && !raised && !state.log.refused
      {
        assert results[i] in results && results[..i + 1][..i] == results[..i];
        raised := RecordOne(cfg, state, memory, results[i]);
        if raised {
          RecordResultsStops(cfg, before, results, i + 1);
          return;
        }
        if results[i].Errored? {
          failed := failed + 1;
        }
      }
      assert results[..|results|] == results;
    }

    method CountRound(cfg: Config, state: RuntimeState, memory: BufferMemory, allFailed: bool)
      modifies state`status, state`stopReason, state`errorSource, state`toolErrorRounds
      ensures Snapshot(state, memory) == CountErrorRound(cfg, old(Snapshot(state, memory)), allFailed)
    {
      if allFailed {
        state.toolErrorRounds := state.toolErrorRounds + 1;
        if ToolErrorsExhausted(cfg.policy, state.toolErrorRounds) {
          Terminate(state, Status.Failed, Error, Some(FromTool));
          return;
        }
      } else {
        state.toolErrorRounds := 0;
      }
      state.status := Running;
    }

    method ProcessResults(cfg: Config, state: RuntimeState, memory: BufferMemory, results: seq<ToolResult>) returns (raised: bool)
      requires memory.budget == cfg.budget && HaveFunctions(results) && !state.log.refused
      modifies this, state, memory
      ensures Snapshot(state, memory) == ProcessToolResults(cfg, old(Snapshot(state, memory)), results)
      ensures raised == state.log.refused
    {
      var failed: nat;
      failed, raised := RecordAll(cfg, state, memory, results);
      if !raised {
        CountRound(cfg, state, memory, results != [] && failed == |results|);
      }
    }

    /** The signatures of all calls, or of those in front of the first one whose signature raises. */
    method RecordSignatures(cfg: Config, state: RuntimeState, calls: seq<ToolCall>) returns (complete: bool)
      modifies state`toolCallHistory
      ensures state.toolCallHistory == old(state.toolCallHistory) + Signatures(cfg, calls)
      ensures complete <==> |Signatures(cfg, calls)| == |calls|
    {
      var i := 0;
      while i < |calls| && SignatureOf(cfg, calls[i]).Some?
        invariant 0 <= i <= |calls|
        invariant state.toolCallHistory + Signatures(cfg, calls[i..]) == old(state.toolCallHistory) + Signatures(cfg, calls)
        invariant |Signatures(cfg, calls)| == i + |Signatures(cfg, calls[i..])|
      {
        var signature := SignatureOf(cfg, calls[i]).value;
        assert Signatures(cfg, calls[i..]) == [signature] + Signatures(cfg, calls[i + 1..]) by {
          assert calls[i..][1..] == calls[i + 1..];
        }
        state.toolCallHistory := state.toolCallHistory + [signature];
        i := i + 1;
      }
      complete := i == |calls|;
    }

    method RunToolRound(cfg: Config, state: RuntimeState, memory: BufferMemory, revision: Option<Revision>,
                        allowed: set<string>, draft: Option<string>, calls: seq<ToolCall>, tools: ToolsInput)
      returns (next: Option<Revision>, exit: Exit)
      requires memory.budget == cfg.budget
      modifies this, state, memory
      ensures StepResult(Snapshot(state, memory), next, exit)
              == ToolRound(cfg, old(Snapshot(state, memory)), revision, allowed, draft, calls, tools)
    {
      ghost var before := Snapshot(state, memory);
      state.status := AwaitingTool;
      var complete := RecordSignatures(cfg, state, calls);
      assert Snapshot(state, memory)
          == before.(status := AwaitingTool, toolCallHistory := before.toolCallHistory + Signatures(cfg, calls));
      if !complete {
        return revision, Escaped;
      }
      if IsConsecutiveRepeat(state.toolCallHistory, cfg.policy.maxConsecutiveRepeats) {
        Terminate(state, LoopDetected, Looping, None);
        return None, Returned;
      }
      var raised := AddMessage(cfg, state, memory, Assistant(draft, calls));
      if raised {
        return revision, Escaped;
      }
      next, exit := AnswerToolCalls(cfg, state, memory, revision, allowed, calls, tools);
    }

    method AnswerToolCalls(cfg: Config, state: RuntimeState, memory: BufferMemory, revision: Option<Revision>,
                           allowed: set<string>, calls: seq<ToolCall>, tools: ToolsInput)
      returns (next: Option<Revision>, exit: Exit)
      requires memory.budget == cfg.budget && state.status == AwaitingTool && !state.log.refused
      modifies this, state, memory
      ensures StepResult(Snapshot(state, memory), next, exit)
              == AnswerCalls(cfg, old(Snapshot(state, memory)), revision, allowed, calls, tools)
    {
      var valid, violations, raises := Validate(cfg.rules, calls, allowed);
      if raises {
        return revision, Escaped;
      }
      if violations != [] {
        var goOn, raised := HandleValidationFailure(cfg, state, memory, violations);
        if raised {
          return revision, Escaped;
        }
        if !goOn {
          return None, Returned;
        }
      } else {
        state.validationFailureRounds := 0;
      }
      if valid == [] {
        state.status := Running;
        return revision, Returned;
      }
      next, exit := RunTools(cfg, state, memory, revision, valid, tools);
    }

    method RunTools(cfg: Config, state: RuntimeState, memory: BufferMemory, revision: Option<Revision>,
                    valid: seq<ToolCall>, tools: ToolsInput)
      returns (next: Option<Revision>, exit: Exit)
      requires memory.budget == cfg.budget && !state.log.refused
      modifies this, state, memory
      ensures StepResult(Snapshot(state, memory), next, exit)
              == ExecuteRound(cfg, old(Snapshot(state, memory)), revision, valid, tools)
    {
      state.log := state.log.(roundSize := |valid|);
      next := revision;
      match tools
      case ToolsAgentError =>
        Terminate(state, Status.Failed, Error, Some(FromTool));
        exit := AgentRaised;
      case ToolsOtherError =>
        Terminate(state, Status.Failed, Error, Some(FromTool));
        exit := Escaped;
      case ToolsCanceled =>
        exit := CanceledOut;
      case ToolsRun(behave) =>
        match ExecuteCalls(cfg.enabled, cfg.rules, valid, behave)
        case None =>
          Terminate(state, Status.Failed, Error, Some(FromTool));
          exit := Escaped;
        case Some(results) =>
          var raised := ProcessResults(cfg, state, memory, results);
          exit := if raised then Escaped else Returned;
    }

    method ReviewCandidate(cfg: Config, state: RuntimeState, memory: BufferMemory, revision: Option<Revision>,
                           draft: Option<string>, critic: CriticInput)
      returns (next: Option<Revision>, exit: Exit)
      requires memory.budget == cfg.budget
      modifies this, state, memory
      ensures StepResult(Snapshot(state, memory), next, exit)
              == ReviewDraft(cfg, old(Snapshot(state, memory)), revision, draft, critic)
    {
      next := revision;
      if draft.None? || cfg.blank(draft.value) {
        Terminate(state, Status.Failed, Error, Some(FromLlm));
        return revision, AgentRaised;
      }
      if !cfg.hasCritic {
        next, exit := CommitAnswer(cfg, state, memory, revision, draft.value);
        return;
      }
      if StepsExhausted(cfg.policy, state.stepCount) {
        Terminate(state, MaxSteps, StepBudget, None);
        return None, Returned;
      }
      next, exit := JudgeCandidate(cfg, state, memory, revision, draft.value, critic);
    }

    method CommitAnswer(cfg: Config, state: RuntimeState, memory: BufferMemory, revision: Option<Revision>, answer: string)
      returns (next: Option<Revision>, exit: Exit)
      requires memory.budget == cfg.budget
      modifies state, memory
      ensures StepResult(Snapshot(state, memory), next, exit) == Commit(cfg, old(Snapshot(state, memory)), revision, answer)
    {
      var raised := AddMessage(cfg, state, memory, Assistant(Some(answer), []));
      if raised {
        return revision, Escaped;
      }
      Terminate(state, Finished, FinishNormal, None);
      next, exit := None, Returned;
    }

    method RecordCritiqueStep(cfg: Config, state: RuntimeState, memory: BufferMemory)
      requires memory.budget == cfg.budget
      modifies state`log, state`steps, state`stepCount
      ensures Snapshot(state, memory)
              == var st := old(Snapshot(state, memory)); st.(log := st.log.(reviews := st.log.reviews + [Context(cfg.budget, st.window)])).AddStep(Critique)
    {
      state.log := state.log.(reviews := state.log.reviews + [memory.GetContext()]);
      RecordStep(state, Critique);
    }

    method JudgeCandidate(cfg: Config, state: RuntimeState, memory: BufferMemory, revision: Option<Revision>,
                          draft: string, critic: CriticInput)
      returns (next: Option<Revision>, exit: Exit)
      requires memory.budget == cfg.budget
      modifies this, state, memory
      ensures StepResult(Snapshot(state, memory), next, exit)
              == Judge(cfg, old(Snapshot(state, memory)), revision, draft, critic)
    {
      next := revision;
      var index := state.stepCount;
      RecordCritiqueStep(cfg, state, memory);
      match critic
      case CriticCanceled =>
        exit := CanceledOut;
      case CriticAgentError =>
        Terminate(state, Status.Failed, Error, Some(FromCritic));
        exit := AgentRaised;
      case CriticOtherError =>
        Terminate(state, Status.Failed, Error, Some(FromCritic));
        exit := Escaped;
      case Accept =>
        Emit(CritiqueCompleted(index));
        next, exit := CommitAnswer(cfg, state, memory, revision, draft);
      case Revise(feedback) =>
        Emit(CritiqueCompleted(index));
        next, exit := RejectCandidate(cfg, state, memory, revision, draft, feedback);
    }

    method RejectCandidate(cfg: Config, state: RuntimeState, memory: BufferMemory, revision: Option<Revision>,
                           draft: string, feedback: Option<string>)
      returns (next: Option<Revision>, exit: Exit)
      modifies state
      ensures StepResult(Snapshot(state, memory), next, exit)
              == Reject(cfg, old(Snapshot(state, memory)), revision, draft, feedback)
    {
      state.log := state.log.(rejected := state.log.rejected + [Revision(draft, if feedback.Some? then feedback.value else "")]);
      if state.reflectionRevisionRounds >= cfg.policy.reflectionRevisionRounds {
        Terminate(state, ReflectionLimit, RevisionBudget, None);
        return None, Returned;
      }
      state.reflectionRevisionRounds := state.reflectionRevisionRounds + 1;
      state.status := Running;
      if feedback.None? {
        Terminate(state, Status.Failed, Error, Some(FromCritic));
        return revision, AgentRaised;
      }
      next, exit := Some(Revision(draft, feedback.value)), Returned;
    }

    /** The plan or the revision notice goes right after the leading system messages. */
    static lemma InsertBehind(messages: seq<Message>, content: string, i: nat)
      requires i < |messages| && messages[i].System?
      ensures messages[..i] + InsertSystem(messages[i..], content) == messages[..i + 1] + InsertSystem(messages[i + 1..], content)
    {
      assert messages[i..][1..] == messages[i + 1..];
      assert messages[..i + 1] == messages[..i] + [messages[i]];
    }

    method InsertSystemMessage(messages: seq<Message>, content: string) returns (enriched: seq<Message>)
      ensures enriched == InsertSystem(messages, content)
    {
      var i := 0;
      while i < |messages| && messages[i].System?
        invariant 0 <= i <= |messages|
        invariant InsertSystem(messages, content) == messages[..i] + InsertSystem(messages[i..], content)
      {
        InsertBehind(messages, content, i);
        i := i + 1;
      }
      enriched := messages[..i] + [System(content)] + messages[i..];
    }

    method EmitStreamTokens(cfg: Config, state: RuntimeState, memory: BufferMemory, tokens: seq<string>)
      modifies `events
      ensures Snapshot(state, memory) == old(Snapshot(state, memory)).EmitTokens(cfg, tokens)
    {
      if !cfg.hasCritic {
        ghost var before := Snapshot(state, memory);
        for i := 0 to |tokens|
          invariant Snapshot(state, memory) == before.EmitTokens(cfg, tokens[..i])
        {
          assert tokens[..i + 1][..i] == tokens[..i];
          TokensOnlyEmit(cfg, before, tokens[..i]);
          Emit(LlmToken(state.stepCount, Some(tokens[i])));
        }
        assert tokens[..|tokens|] == tokens;
      }
    }

    method RunStepAsync(cfg: Config, state: RuntimeState, memory: BufferMemory, revision: Option<Revision>, input: StepInput)
      returns (next: Option<Revision>, exit: Exit)
      requires memory.budget == cfg.budget
      modifies this, state, memory
      ensures StepResult(Snapshot(state, memory), next, exit)
              == RunStep(cfg, old(Snapshot(state, memory)), revision, input)
    {
      if StepsExhausted(cfg.policy, state.stepCount) {
        Terminate(state, MaxSteps, StepBudget, None);
        return None, Returned;
      }
      if memory.messages == [] {
        return revision, Escaped;
      }
      next := revision;
      var query := LatestText(memory.messages);
      if cfg.plan.Some? {
        query := cfg.plan.value.routingQuery;
      }
      if revision.Some? {
        query := revision.value.feedback;
      }
      state.log := state.log.(queries := state.log.queries + [query]);
      match input.route
      case RouteAgentError =>
        Terminate(state, Status.Failed, Error, Some(FromRouter));
        exit := AgentRaised;
      case RouteOtherError =>
        exit := Escaped;
      case RouteCanceled =>
        exit := CanceledOut;
      case Routed(names) =>
        PrepareRequest(cfg, state, memory, revision);
        next, exit := CallModel(cfg, state, memory, revision, NameSet(names), input);
    }

    method CallModel(cfg: Config, state: RuntimeState, memory: BufferMemory, revision: Option<Revision>,
                     allowed: set<string>, input: StepInput)
      returns (next: Option<Revision>, exit: Exit)
      requires memory.budget == cfg.budget
      modifies this, state, memory
      ensures StepResult(Snapshot(state, memory), next, exit)
              == AskModel(cfg, old(Snapshot(state, memory)), revision, allowed, input)
    {
      next := revision;
      EmitStreamTokens(cfg, state, memory, input.llm.tokens);
      match input.llm
      case LlmAgentError(_) =>
        Terminate(state, Status.Failed, Error, Some(FromLlm));
        exit := AgentRaised;
      case LlmOtherError(_) =>
        Terminate(state, Status.Failed, Error, Some(FromLlm));
        exit := Escaped;
      case LlmCanceled(_) =>
        exit := CanceledOut;
      case Replied(_, streamed, draft, calls) =>
        RecordReply(cfg, state, memory, streamed, calls);
        if calls != [] {
          next, exit := RunToolRound(cfg, state, memory, revision, allowed, draft, calls, input.tools);
        } else {
          next, exit := ReviewCandidate(cfg, state, memory, revision, draft, input.critic);
        }
    }

    method PrepareRequest(cfg: Config, state: RuntimeState, memory: BufferMemory, revision: Option<Revision>)
      requires memory.budget == cfg.budget
      modifies `events, state`log
      ensures Snapshot(state, memory) == SendRequest(cfg, old(Snapshot(state, memory)), revision)
    {
      Emit(ToolRouting(state.stepCount));
      Emit(LlmRequest(state.stepCount));
      var messages := memory.GetContext();
      if cfg.plan.Some? {
        messages := InsertSystemMessage(messages, cfg.plan.value.context);
      }
      if revision.Some? {
        messages := InsertSystemMessage(messages, cfg.payload(revision.value));
      }
      state.log := state.log.(requests := state.log.requests + [messages]);
    }

    method RecordReply(cfg: Config, state: RuntimeState, memory: BufferMemory, streamed: bool, calls: seq<ToolCall>)
      modifies `events, state`steps, state`stepCount
      ensures Snapshot(state, memory) == AfterReply(cfg, old(Snapshot(state, memory)), streamed, calls)
    {
      if streamed && calls != [] && !cfg.hasCritic {
        Emit(LlmToken(state.stepCount, None));
      }
      Emit(LlmResponse(state.stepCount));
      RecordStep(state, LlmCall);
    }

    /** The one end event, with the answer taken from the memory. */
    method EmitTerminalEvent(state: RuntimeState, memory: BufferMemory)
      modifies `events
      ensures Snapshot(state, memory) == EmitEnd(old(Snapshot(state, memory)))
    {
      var final: Option<string> := None;
      if state.status == Finished && memory.messages != [] {
        var last := memory.messages[|memory.messages| - 1];
        if last.Assistant? {
          final := last.draft;
        }
      }
      Emit(RunEnd(state.stepCount, state.status == Finished, final, state.errorSource, state.stopReason, state.status));
    }

    /** The source has no state of a run whose first writes raise; here it is one that stays pending. */
    method BeginRun(cfg: Config, memory: BufferMemory, prompt: Option<string>, userInput: string)
      returns (state: RuntimeState, raised: bool)
      requires memory.budget == cfg.budget
      modifies `events, memory
      ensures fresh(state) && raised == Begin(cfg.budget, old(memory.State()), prompt, userInput).log.refused == state.log.refused
      ensures Snapshot(state, memory) == var told := Begin(cfg.budget, old(memory.State()), prompt, userInput);
                if raised then told else told.Emit(RunStart)
    {
      events := [];
      ghost var writes: seq<Message> := [];
      if prompt.Some? && prompt.value != "" && memory.messages == [] {
        raised := memory.AddMessage(System(prompt.value));
        writes := [System(prompt.value)];
        if raised {
          state := new RuntimeState(writes, true, Pending);
          return;
        }
      }
      raised := memory.AddMessage(User(userInput));
      state := new RuntimeState(writes + [User(userInput)], raised, if raised then Pending else Running);
      if !raised {
        Emit(RunStart);
      }
    }

    /** A run from the moment its session is leased: prompt and question into the memory, planning,
        then passes until the state is terminal. */
    method RunAcquiredAsync(cfg: Config, memory: BufferMemory, prompt: Option<string>, userInput: string,
                            planning: PlanInput, inputs: nat -> StepInput)
      returns (state: RuntimeState, exit: Exit)
      requires memory.budget == cfg.budget
      modifies this, memory
      ensures fresh(state)
      ensures RunResult(Snapshot(state, memory), exit)
              == Run(cfg, old(memory.State()), prompt, userInput, planning, inputs)
      ensures Counted(cfg, Snapshot(state, memory)) && DraftsIsolated(cfg, Snapshot(state, memory))
      ensures Disciplined(RunResult(Snapshot(state, memory), exit))
      ensures SystemSlot(cfg.budget) && WellPaired(old(memory.messages)) ==>
                PairedLogs(state.log)
                && (WellPaired(memory.messages) <==>
                    !LeavesCallsUnanswered(cfg, old(memory.State()), prompt, userInput, planning, inputs))
    {
      RunIsBounded(cfg, memory.State(), prompt, userInput, planning, inputs);
      RunIsolatesDrafts(cfg, memory.State(), prompt, userInput, planning, inputs);
      RunEndsProperly(cfg, memory.State(), prompt, userInput, planning, inputs);
      if SystemSlot(cfg.budget) && WellPaired(memory.messages) {
        RunIsPaired(cfg, memory.State(), prompt, userInput, planning, inputs);
      }
      state, exit := RunPlanned(cfg, memory, prompt, userInput, planning, inputs);
    }

    method RunPlanned(cfg: Config, memory: BufferMemory, prompt: Option<string>, userInput: string,
                      planning: PlanInput, inputs: nat -> StepInput)
      returns (state: RuntimeState, exit: Exit)
      requires memory.budget == cfg.budget
      modifies this, memory
      ensures fresh(state)
      ensures RunResult(Snapshot(state, memory), exit)
              == Run(cfg, old(memory.State()), prompt, userInput, planning, inputs)
    {
      var raised: bool;
      state, raised := BeginRun(cfg, memory, prompt, userInput);
      if raised {
        return state, Escaped;
      }
      match planning
      case NoPlanner =>
        exit := RunPasses(cfg.(plan := None), state, memory, inputs);
      case Planned(plan) =>
        Emit(PlanCreated);
        exit := RunPasses(cfg.(plan := Some(plan)), state, memory, inputs);
      case PlanAgentError =>
        Terminate(state, Status.Failed, Error, Some(FromPlanner));
        EmitTerminalEvent(state, memory);
        exit := Returned;
      case PlanOtherError =>
        exit := Escaped;
      case PlanCanceled =>
        Terminate(state, Canceled, CanceledRun, Some(FromRuntime));
        EmitTerminalEvent(state, memory);
        exit := CanceledOut;
    }

    method RunPasses(cfg: Config, state: RuntimeState, memory: BufferMemory, inputs: nat -> StepInput) returns (exit: Exit)
      requires memory.budget == cfg.budget
      modifies this, state, memory
      ensures RunResult(Snapshot(state, memory), exit)
              == RunLoop(cfg, old(Snapshot(state, memory)), None, inputs, 0)
    {
      ghost var result := RunLoop(cfg, Snapshot(state, memory), None, inputs, 0);
      var revision: Option<Revision> := None;
      var i := 0;
      while !IsTerminal(state.status)
        invariant RunLoop(cfg, Snapshot(state, memory), revision, inputs, i) == result
        decreases PassesLeft(cfg, Snapshot(state, memory))
      {
        ghost var head := Head(Snapshot(state, memory), revision);
        revision, exit := RunStepAsync(cfg, state, memory, revision, inputs(i));
        match exit {
          case Returned =>
            StepUsesPass(cfg, head.st, head.revision, inputs(i));
            LoopTakesOnePass(cfg, head, inputs, i);
          case AgentRaised =>
            EmitTerminalEvent(state, memory);
            exit := Returned;
            return;
          case Escaped =>
            return;
          case CanceledOut =>
            Terminate(state, Canceled, CanceledRun, Some(FromRuntime));
            EmitTerminalEvent(state, memory);
            return;
        }
        i := i + 1;
      }
      EmitTerminalEvent(state, memory);
      exit := Returned;
    }
  }
}
