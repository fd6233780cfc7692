/** Every run that returns or is cancelled is terminal and says so in one last event. */
module RunEnds {
  import opened Messages
  import opened ShortTerm
  import opened LoopGuard
  import opened RunSpec
  import opened Runs

  ghost predicate Quiet(events: seq<Event>) {
    forall e | e in events :: !e.RunEnd?
  }

  /** A pass is in order: no end was emitted yet, the stop reason is set exactly when the status is
      terminal and then follows from it, and a finished run has just written its answer. */
  ghost predicate InOrder(st: RunState) {
    && Quiet(st.events)
    && (if IsTerminal(st.status) then st.stopReason == Some(ReasonOf(st.status)) else st.stopReason == None)
    && (st.status == Finished ==>
          && st.window != [] && st.log.writes != []
          && st.window[|st.window| - 1] == st.log.writes[|st.log.writes| - 1]
          && st.log.writes[|st.log.writes| - 1].Assistant?
          && st.log.writes[|st.log.writes| - 1].draft.Some?)
  }

  /** A pass that goes on leaves the run running; an agent error has ended it; a cancel has not; and a
      write that raised lets its error escape. */
  predicate GoesOn(r: StepResult) {
    && (r.exit == Returned ==> IsTerminal(r.st.status) || r.st.status == Running)
    && (r.st.log.refused ==> r.exit == Escaped)
    && (r.exit == AgentRaised ==> IsTerminal(r.st.status))
    && (r.exit == CanceledOut ==> !IsTerminal(r.st.status))
    && r.st.status != Canceled
  }

  /** Whatever is written is the newest message of the window. */
  lemma WriteIsLast(b: Budget, st: RunState, m: Message)
    ensures var r := st.Write(b, m); r.window != [] && r.window[|r.window| - 1] == m
  {
    if b.countable(m) {
      TrimKeepsLast(b, Memory(st.window + [m], st.total + b.count(m)));
    }
  }

  lemma CommitInOrder(cfg: Config, st: RunState, revision: Option<Revision>, answer: string)
    requires InOrder(st) && st.status == Running
    ensures var r := Commit(cfg, st, revision, answer);
            InOrder(r.st) && GoesOn(r)
  {
    WriteIsLast(cfg.budget, st, Assistant(Some(answer), []));
  }

  lemma JudgeInOrder(cfg: Config, st: RunState, revision: Option<Revision>, draft: string, critic: CriticInput)
    requires InOrder(st) && st.status == Running && !st.log.refused
    ensures var r := Judge(cfg, st, revision, draft, critic);
            InOrder(r.st) && GoesOn(r)
  {
    if critic.Accept? {
      var reviewed := st.(log := st.log.(reviews := st.log.reviews + [Context(cfg.budget, st.window)])).AddStep(Critique);
      CommitInOrder(cfg, reviewed.Emit(CritiqueCompleted(st.stepCount)), revision, draft);
    }
  }

  lemma ReviewDraftInOrder(cfg: Config, st: RunState, revision: Option<Revision>, draft: Option<string>, critic: CriticInput)
    requires InOrder(st) && st.status == Running && !st.log.refused
    ensures var r := ReviewDraft(cfg, st, revision, draft, critic);
            InOrder(r.st) && GoesOn(r)
  {
    if draft.Some? {
      CommitInOrder(cfg, st, revision, draft.value);
      JudgeInOrder(cfg, st, revision, draft.value, critic);
    }
  }

  lemma QuietExtends(st: RunState, r: RunState)
    requires Quiet(st.events) && ToolsOnly(st, r)
    ensures Quiet(r.events)
  {
    forall k | 0 <= k < |r.events|
      ensures !r.events[k].RunEnd?
    {
      assert k < |st.events| ==> r.events[k] == st.events[k];
    }
  }

  lemma ToolRoundInOrder(cfg: Config, st: RunState, revision: Option<Revision>, allowed: set<string>,
                         draft: Option<string>, calls: seq<ToolCall>, tools: ToolsInput)
    requires InOrder(st) && st.status == Running && !st.log.refused
    ensures var r := ToolRound(cfg, st, revision, allowed, draft, calls, tools);
            InOrder(r.st) && GoesOn(r)
  {
    ToolRoundShape(cfg, st, revision, allowed, draft, calls, tools);
    var r := ToolRound(cfg, st, revision, allowed, draft, calls, tools);
    if !Opens(cfg, st, draft, calls) {
      assert r.st.events == st.events;
    } else {
      QuietExtends(RoundOpened(cfg, st, draft, calls), r.st);
    }
  }

  lemma AskModelInOrder(cfg: Config, st: RunState, revision: Option<Revision>, allowed: set<string>, input: StepInput)
    requires InOrder(st) && st.status == Running && !st.log.refused
    ensures var r := AskModel(cfg, st, revision, allowed, input);
            InOrder(r.st) && GoesOn(r)
  {
    TokensOnlyEmit(cfg, st, input.llm.tokens);
    if input.llm.Replied? {
      RepliedShape(cfg, st, input.llm);
      var replied := RepliedState(cfg, st, input.llm);
      if input.llm.calls != [] {
        ToolRoundInOrder(cfg, replied, revision, allowed, input.llm.draft, input.llm.calls, input.tools);
      } else {
        ReviewDraftInOrder(cfg, replied, revision, input.llm.draft, input.critic);
      }
    }
  }

  lemma StepInOrder(cfg: Config, st: RunState, revision: Option<Revision>, input: StepInput)
    requires InOrder(st) && st.status == Running && !st.log.refused
    ensures var r := RunStep(cfg, st, revision, input);
            InOrder(r.st) && GoesOn(r)
  {
    if !StepsExhausted(cfg.policy, st.stepCount) && input.route.Routed? {
      AskModelInOrder(cfg, SendRequest(cfg, Asked(cfg, st, revision), revision), revision, NameSet(input.route.names), input);
    }
  }

  /** The run is terminal, its reason follows from its status, its only end event is its last
      event, and the answer that event carries is there exactly when the run finished and is then
      the last message written. */
  ghost predicate EndsProperly(r: RunResult) {
    var st := r.st;
    && IsTerminal(st.status)
    && (r.exit == CanceledOut <==> st.status == Canceled)
    && st.stopReason == Some(ReasonOf(st.status))
    && st.events != [] && Quiet(st.events[..|st.events| - 1])
    && var end := st.events[|st.events| - 1];
    && end.RunEnd? && end.step == st.stepCount && end.source == st.errorSource
    && end.status == st.status && end.reason == st.stopReason
    && (end.finished <==> st.status == Finished) && (end.final.Some? <==> st.status == Finished)
    && (st.status == Finished ==>
          st.log.writes != [] && st.log.writes[|st.log.writes| - 1].Assistant?
          && end.final == st.log.writes[|st.log.writes| - 1].draft)
  }

  lemma EmitEndEndsProperly(st: RunState, exit: Exit)
    requires InOrder(st) && IsTerminal(st.status) && (exit == CanceledOut <==> st.status == Canceled)
    ensures EndsProperly(RunResult(EmitEnd(st), exit))
  {
    var done := EmitEnd(st);
    assert done.events[..|done.events| - 1] == st.events;
  }

  /** A run that lets a foreign error escape, as it does when a write raises, emits no end at all;
      every other run ends properly. */
  ghost predicate Disciplined(r: RunResult) {
    && (r.st.log.refused ==> r.exit == Escaped)
    && if r.exit == Escaped then Quiet(r.st.events) else EndsProperly(r)
  }

  lemma {:induction false} LoopEnds(cfg: Config, st: RunState, revision: Option<Revision>, inputs: nat -> StepInput, i: nat)
    requires InOrder(st) && (st.status == Running || IsTerminal(st.status)) && st.status != Canceled && !st.log.refused
    ensures Disciplined(RunLoop(cfg, st, revision, inputs, i))
    decreases PassesLeft(cfg, st)
  {
    if IsTerminal(st.status) {
      EmitEndEndsProperly(st, Returned);
    } else {
      StepInOrder(cfg, st, revision, inputs(i));
      var r := RunStep(cfg, st, revision, inputs(i));
      match r.exit
      case Returned =>
        StepUsesPass(cfg, st, revision, inputs(i));
        LoopEnds(cfg, r.st, r.revision, inputs, i + 1);
      case AgentRaised => EmitEndEndsProperly(r.st, Returned);
      case Escaped =>
      case CanceledOut => EmitEndEndsProperly(r.st.Terminate(Canceled, CanceledRun, Some(FromRuntime)), CanceledOut);
    }
  }

  lemma RunEndsProperly(cfg: Config, mem: Memory, prompt: Option<string>, userInput: string,
                        planning: PlanInput, inputs: nat -> StepInput)
    ensures Disciplined(Run(cfg, mem, prompt, userInput, planning, inputs))
  {
    var told := Begin(cfg.budget, mem, prompt, userInput);
    var begun := told.Emit(RunStart);
    if !told.log.refused {
      assert InOrder(begun) && begun.status == Running;
      match planning
      case NoPlanner => LoopEnds(cfg.(plan := None), begun, None, inputs, 0);
      case Planned(plan) => LoopEnds(cfg.(plan := Some(plan)), begun.Emit(PlanCreated), None, inputs, 0);
      case PlanAgentError => EmitEndEndsProperly(begun.Fail(FromPlanner), Returned);
      case PlanOtherError =>
      case PlanCanceled => EmitEndEndsProperly(begun.Terminate(Canceled, CanceledRun, Some(FromRuntime)), CanceledOut);
    }
  }
}
