/** Drafts stay out of the memory until one is accepted, and revisions stay within their budget. */
module RunDrafts {
  import opened Messages
  import opened ShortTerm
  import opened LoopGuard
  import opened RunSpec
  import opened Runs

  /** An assistant message without tool calls: an answer. */
  predicate IsAnswer(m: Message) {
    m.Assistant? && m.calls == []
  }

  ghost predicate NoAnswer(ms: seq<Message>) {
    forall m | m in ms :: !IsAnswer(m)
  }

  function CountCritiques(steps: seq<Step>): (n: nat) {
    if steps == [] then 0
    else CountCritiques(steps[..|steps| - 1]) + if steps[|steps| - 1].kind == Critique then 1 else 0
  }

  lemma CountSnoc(steps: seq<Step>, s: Step)
    ensures CountCritiques(steps + [s]) == CountCritiques(steps) + if s.kind == Critique then 1 else 0
  {
    assert (steps + [s])[..|steps|] == steps;
  }

  lemma {:induction false} CountSkipsTools(steps: seq<Step>, more: seq<Step>)
    requires steps <= more && forall i | |steps| <= i < |more| :: more[i].kind == ToolExec
    ensures CountCritiques(more) == CountCritiques(steps)
    decreases |more|
  {
    if |steps| == |more| {
      assert steps == more;
    } else {
      CountSkipsTools(steps, more[..|more| - 1]);
    }
  }

  /** While the run goes on: nothing is answered yet, every critique was a rejection, each one a
      counted revision, and the carried revision is the latest rejected draft, if there is one. */
  ghost predicate Drafting(cfg: Config, st: RunState, revision: Option<Revision>) {
    && NoAnswer(st.log.writes) && !st.log.refused
    && CountCritiques(st.steps) == st.revisionRounds == |st.log.rejected|
    && st.revisionRounds <= cfg.policy.reflectionRevisionRounds
    && (revision.None? <==> st.revisionRounds == 0)
    && (revision.Some? ==> revision.value == st.log.rejected[|st.log.rejected| - 1])
  }

  /** The last message written is an answer. */
  predicate EndsInAnswer(ms: seq<Message>) {
    ms != [] && IsAnswer(ms[|ms| - 1])
  }

  /** However the run ends: an answer was written exactly when it finished or the write of that answer
      raised, once and as the last write, and there was at most one critique more than the revision
      limit. */
  ghost predicate DraftsIsolated(cfg: Config, st: RunState) {
    var writes := st.log.writes;
    && (writes != [] ==> NoAnswer(writes[..|writes| - 1]))
    && (st.status == Finished <==> EndsInAnswer(writes) && !st.log.refused)
    && CountCritiques(st.steps) <= cfg.policy.reflectionRevisionRounds + 1
  }

  lemma NoAnswerIsolated(cfg: Config, st: RunState)
    requires NoAnswer(st.log.writes) && st.status != Finished
    requires CountCritiques(st.steps) <= cfg.policy.reflectionRevisionRounds + 1
    ensures DraftsIsolated(cfg, st)
  {
  }

  /** What one pass owes: isolated drafts, no half-finished exit, and `Drafting` if it goes on. */
  ghost predicate PassDrafts(cfg: Config, r: StepResult) {
    && DraftsIsolated(cfg, r.st)
    && (r.exit != Returned ==> r.st.status != Finished)
    && (r.exit == Returned && !IsTerminal(r.st.status) ==> Drafting(cfg, r.st, r.revision))
  }

  lemma ToolsOnlyDrafts(cfg: Config, st: RunState, r: RunState, revision: Option<Revision>)
    requires Drafting(cfg, st, revision) && ToolsOnly(st, r)
    ensures Drafting(cfg, r.(log := r.log.(refused := false)), revision)
  {
    CountSkipsTools(st.steps, r.steps);
    assert forall k | 0 <= k < |r.log.writes| :: k < |st.log.writes| ==> r.log.writes[k] == st.log.writes[k];
  }

  lemma CallsWrittenDrafts(cfg: Config, st: RunState, revision: Option<Revision>, draft: Option<string>, calls: seq<ToolCall>)
    requires Drafting(cfg, st, revision) && calls != []
    ensures var r := RoundOpened(cfg, st, draft, calls); Drafting(cfg, r.(log := r.log.(refused := false)), revision)
  {
  }

  /** A round that stops before its calls are written, or because writing them raises. */
  lemma UnopenedDrafts(cfg: Config, st: RunState, revision: Option<Revision>, draft: Option<string>, calls: seq<ToolCall>, r: StepResult)
    requires Drafting(cfg, st, revision) && calls != [] && !IsTerminal(st.status) && ToolExit(st, revision, r)
    requires r.st.log.writes == st.log.writes || (r.exit == Escaped && r.st.log.writes == st.log.writes + [Assistant(draft, calls)])
    requires r.st.steps == st.steps && r.st.revisionRounds == st.revisionRounds && r.st.log.rejected == st.log.rejected
    ensures PassDrafts(cfg, r)
  {
  }

  lemma ToolRoundDrafts(cfg: Config, st: RunState, revision: Option<Revision>, allowed: set<string>,
                        draft: Option<string>, calls: seq<ToolCall>, tools: ToolsInput)
    requires Drafting(cfg, st, revision) && calls != [] && !IsTerminal(st.status)
    ensures PassDrafts(cfg, ToolRound(cfg, st, revision, allowed, draft, calls, tools))
  {
    var r := ToolRound(cfg, st, revision, allowed, draft, calls, tools);
    ToolRoundShape(cfg, st, revision, allowed, draft, calls, tools);
    if Opens(cfg, st, draft, calls) {
      CallsWrittenDrafts(cfg, st, revision, draft, calls);
      ToolsOnlyDrafts(cfg, RoundOpened(cfg, st, draft, calls), r.st, revision);
    } else {
      UnopenedDrafts(cfg, st, revision, draft, calls, r);
    }
  }

  lemma RejectDrafts(cfg: Config, st: RunState, revision: Option<Revision>, draft: string, feedback: Option<string>)
    requires NoAnswer(st.log.writes) && !IsTerminal(st.status) && !st.log.refused
    requires CountCritiques(st.steps) == st.revisionRounds + 1 == |st.log.rejected| + 1
    requires st.revisionRounds <= cfg.policy.reflectionRevisionRounds
    ensures PassDrafts(cfg, Reject(cfg, st, revision, draft, feedback))
  {
  }

  lemma CommitDrafts(cfg: Config, st: RunState, revision: Option<Revision>, answer: string)
    requires NoAnswer(st.log.writes) && CountCritiques(st.steps) <= cfg.policy.reflectionRevisionRounds + 1
    requires !IsTerminal(st.status)
    ensures PassDrafts(cfg, Commit(cfg, st, revision, answer))
  {
    var writes := Commit(cfg, st, revision, answer).st.log.writes;
    assert writes[..|writes| - 1] == st.log.writes;
  }

  lemma JudgeDrafts(cfg: Config, st: RunState, revision: Option<Revision>, draft: string, critic: CriticInput)
    requires Drafting(cfg, st, revision) && !IsTerminal(st.status)
    ensures PassDrafts(cfg, Judge(cfg, st, revision, draft, critic))
  {
    CountSnoc(st.steps, Step(st.stepCount, Critique));
    var reviewed := st.(log := st.log.(reviews := st.log.reviews + [Context(cfg.budget, st.window)])).AddStep(Critique);
    var told := reviewed.Emit(CritiqueCompleted(st.stepCount));
    match critic
    case Revise(feedback) => RejectDrafts(cfg, told, revision, draft, feedback);
    case Accept => CommitDrafts(cfg, told, revision, draft);
    case _ =>
  }

  /** A pass that ends the run without a review. */
  lemma StoppedDrafts(cfg: Config, st: RunState, revision: Option<Revision>, r: StepResult)
    requires Drafting(cfg, st, revision) && IsTerminal(r.st.status) && r.st.status != Finished
    requires r.st.log.writes == st.log.writes && r.st.steps == st.steps
    ensures PassDrafts(cfg, r)
  {
  }

  lemma ReviewDraftDrafts(cfg: Config, st: RunState, revision: Option<Revision>, draft: Option<string>, critic: CriticInput)
    requires Drafting(cfg, st, revision) && !IsTerminal(st.status)
    ensures PassDrafts(cfg, ReviewDraft(cfg, st, revision, draft, critic))
  {
    var r := ReviewDraft(cfg, st, revision, draft, critic);
    if draft.None? || cfg.blank(draft.value) {
      StoppedDrafts(cfg, st, revision, r);
    } else if !cfg.hasCritic {
      CommitDrafts(cfg, st, revision, draft.value);
    } else if StepsExhausted(cfg.policy, st.stepCount) {
      StoppedDrafts(cfg, st, revision, r);
    } else {
      JudgeDrafts(cfg, st, revision, draft.value, critic);
    }
  }

  lemma AskModelDrafts(cfg: Config, st: RunState, revision: Option<Revision>, allowed: set<string>, input: StepInput)
    requires Drafting(cfg, st, revision) && !IsTerminal(st.status)
    ensures PassDrafts(cfg, AskModel(cfg, st, revision, allowed, input))
  {
    TokensOnlyEmit(cfg, st, input.llm.tokens);
    if input.llm.Replied? {
      RepliedShape(cfg, st, input.llm);
      CountSnoc(st.steps, Step(st.stepCount, LlmCall));
      var replied := RepliedState(cfg, st, input.llm);
      if input.llm.calls != [] {
        ToolRoundDrafts(cfg, replied, revision, allowed, input.llm.draft, input.llm.calls, input.tools);
      } else {
        ReviewDraftDrafts(cfg, replied, revision, input.llm.draft, input.critic);
      }
    }
  }

  lemma StepDrafts(cfg: Config, st: RunState, revision: Option<Revision>, input: StepInput)
    requires Drafting(cfg, st, revision) && !IsTerminal(st.status)
    ensures PassDrafts(cfg, RunStep(cfg, st, revision, input))
  {
    if !StepsExhausted(cfg.policy, st.stepCount) && input.route.Routed? {
      AskModelDrafts(cfg, SendRequest(cfg, Asked(cfg, st, revision), revision), revision, NameSet(input.route.names), input);
    }
  }

  lemma {:induction false} LoopDrafts(cfg: Config, st: RunState, revision: Option<Revision>, inputs: nat -> StepInput, i: nat)
    requires !IsTerminal(st.status) ==> Drafting(cfg, st, revision)
    requires DraftsIsolated(cfg, st)
    ensures DraftsIsolated(cfg, RunLoop(cfg, st, revision, inputs, i).st)
    decreases PassesLeft(cfg, st)
  {
    if !IsTerminal(st.status) {
      StepDrafts(cfg, st, revision, inputs(i));
      var r := RunStep(cfg, st, revision, inputs(i));
      if r.exit == Returned {
        StepUsesPass(cfg, st, revision, inputs(i));
        LoopDrafts(cfg, r.st, r.revision, inputs, i + 1);
      }
    }
  }

  /** From here on, `Drafting` holds at the head of every pass, tool rounds in between or not. */
  ghost predicate HeadsAreDrafting(cfg: Config, st: RunState, revision: Option<Revision>, inputs: nat -> StepInput, i: nat)
    decreases PassesLeft(cfg, st)
  {
    !IsTerminal(st.status) ==>
      Drafting(cfg, st, revision) &&
      var r := RunStep(cfg, st, revision, inputs(i));
      r.exit == Returned ==>
        (StepUsesPass(cfg, st, revision, inputs(i));
         HeadsAreDrafting(cfg, r.st, r.revision, inputs, i + 1))
  }

  lemma {:induction false} LoopHeadsAreDrafting(cfg: Config, st: RunState, revision: Option<Revision>,
                                                inputs: nat -> StepInput, i: nat)
    requires !IsTerminal(st.status) ==> Drafting(cfg, st, revision)
    ensures HeadsAreDrafting(cfg, st, revision, inputs, i)
    decreases PassesLeft(cfg, st)
  {
    if !IsTerminal(st.status) {
      StepDrafts(cfg, st, revision, inputs(i));
      var r := RunStep(cfg, st, revision, inputs(i));
      if r.exit == Returned {
        StepUsesPass(cfg, st, revision, inputs(i));
        LoopHeadsAreDrafting(cfg, r.st, r.revision, inputs, i + 1);
      }
    }
  }

  lemma BeginDrafts(cfg: Config, mem: Memory, prompt: Option<string>, userInput: string)
    ensures var told := Begin(cfg.budget, mem, prompt, userInput);
            DraftsIsolated(cfg, told) && (!told.log.refused ==> Drafting(cfg, told, None))
  {
    NoAnswerIsolated(cfg, Begin(cfg.budget, mem, prompt, userInput));
  }

  /** In every run, at the head of every pass, the carried revision is absent exactly when none was
      used yet, and is otherwise the latest rejected draft. */
  lemma RunHeadsAreDrafting(cfg: Config, mem: Memory, prompt: Option<string>, userInput: string,
                            planning: PlanInput, inputs: nat -> StepInput)
    ensures var launched := Launched(cfg, mem, prompt, userInput, planning);
            launched.Some? ==> HeadsAreDrafting(launched.value.cfg, launched.value.st, None, inputs, 0)
  {
    BeginDrafts(cfg, mem, prompt, userInput);
    RunIsLaunched(cfg, mem, prompt, userInput, planning, inputs);
    var launched := Launched(cfg, mem, prompt, userInput, planning);
    if launched.Some? {
      LoopHeadsAreDrafting(launched.value.cfg, launched.value.st, None, inputs, 0);
    }
  }

  lemma RunIsolatesDrafts(cfg: Config, mem: Memory, prompt: Option<string>, userInput: string,
                          planning: PlanInput, inputs: nat -> StepInput)
    ensures DraftsIsolated(cfg, Run(cfg, mem, prompt, userInput, planning, inputs).st)
  {
    BeginDrafts(cfg, mem, prompt, userInput);
    RunIsLaunched(cfg, mem, prompt, userInput, planning, inputs);
    var launched := Launched(cfg, mem, prompt, userInput, planning);
    if launched.Some? {
      LoopDrafts(launched.value.cfg, launched.value.st, None, inputs, 0);
    }
  }
}
