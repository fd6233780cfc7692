/** Steps are counted, indexed and bounded in every run. */
module RunBounds {
  import opened Messages
  import opened ShortTerm
  import opened LoopGuard
  import opened RunSpec
  import opened Runs

  /** The log is the count, step i carries index i, only tool steps lie past the budget, and they
      are at most as many as the valid calls of the latest tool round. */
  ghost predicate Counted(cfg: Config, st: RunState) {
    && st.stepCount == |st.steps|
    && (forall i | 0 <= i < |st.steps| :: st.steps[i].index == i)
    && (forall i | 0 <= i < |st.steps| && st.steps[i].kind != ToolExec :: i < cfg.policy.maxSteps)
    && st.stepCount <= cfg.policy.maxSteps + st.log.roundSize
  }

  lemma ReviewDraftCounted(cfg: Config, st: RunState, revision: Option<Revision>, draft: Option<string>, critic: CriticInput)
    requires Counted(cfg, st)
    ensures Counted(cfg, ReviewDraft(cfg, st, revision, draft, critic).st)
  {
  }

  lemma ToolRoundCounted(cfg: Config, st: RunState, revision: Option<Revision>, allowed: set<string>,
                         draft: Option<string>, calls: seq<ToolCall>, tools: ToolsInput)
    requires Counted(cfg, st) && st.stepCount <= cfg.policy.maxSteps
    ensures Counted(cfg, ToolRound(cfg, st, revision, allowed, draft, calls, tools).st)
  {
    ToolRoundShape(cfg, st, revision, allowed, draft, calls, tools);
  }

  lemma AskModelCounted(cfg: Config, st: RunState, revision: Option<Revision>, allowed: set<string>, input: StepInput)
    requires Counted(cfg, st) && st.stepCount < cfg.policy.maxSteps
    ensures Counted(cfg, AskModel(cfg, st, revision, allowed, input).st)
  {
    TokensOnlyEmit(cfg, st, input.llm.tokens);
    if input.llm.Replied? {
      RepliedShape(cfg, st, input.llm);
      var replied := RepliedState(cfg, st, input.llm);
      if input.llm.calls != [] {
        ToolRoundCounted(cfg, replied, revision, allowed, input.llm.draft, input.llm.calls, input.tools);
      } else {
        ReviewDraftCounted(cfg, replied, revision, input.llm.draft, input.critic);
      }
    }
  }

  lemma StepCounted(cfg: Config, st: RunState, revision: Option<Revision>, input: StepInput)
    requires Counted(cfg, st)
    ensures Counted(cfg, RunStep(cfg, st, revision, input).st)
  {
    if !StepsExhausted(cfg.policy, st.stepCount) && input.route.Routed? {
      AskModelCounted(cfg, SendRequest(cfg, Asked(cfg, st, revision), revision), revision, NameSet(input.route.names), input);
    }
  }

  lemma {:induction false} LoopCounted(cfg: Config, st: RunState, revision: Option<Revision>, inputs: nat -> StepInput, i: nat)
    requires Counted(cfg, st)
    ensures Counted(cfg, RunLoop(cfg, st, revision, inputs, i).st)
    decreases PassesLeft(cfg, st)
  {
    if !IsTerminal(st.status) {
      StepCounted(cfg, st, revision, inputs(i));
      var r := RunStep(cfg, st, revision, inputs(i));
      if r.exit == Returned {
        StepUsesPass(cfg, st, revision, inputs(i));
        LoopCounted(cfg, r.st, r.revision, inputs, i + 1);
      }
    }
  }

  /** Every run keeps the step bound, however it ends. */
  lemma RunIsBounded(cfg: Config, mem: Memory, prompt: Option<string>, userInput: string,
                     planning: PlanInput, inputs: nat -> StepInput)
    ensures Counted(cfg, Run(cfg, mem, prompt, userInput, planning, inputs).st)
  {
    RunIsLaunched(cfg, mem, prompt, userInput, planning, inputs);
    var launched := Launched(cfg, mem, prompt, userInput, planning);
    if launched.Some? {
      LoopCounted(launched.value.cfg, launched.value.st, None, inputs, 0);
    }
  }
}
