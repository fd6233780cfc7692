/** The answer of a run is the draft of its last pass, and no other. */
module RunAnswers {
  import opened Messages
  import opened ShortTerm
  import opened RunSpec
  import opened Runs
  import opened RunEnds
  import opened RunContent

  /** What the pass from this head leaves if its draft is the answer. */
  ghost predicate IsAnswered(head: Head, input: StepInput, st: RunState) {
    && input.llm.Replied?
    && st.log.writes == head.st.log.writes + [Assistant(input.llm.draft, [])]
    && st.window != [] && st.window[|st.window| - 1] == Assistant(input.llm.draft, [])
  }

  lemma CommitAnswers(cfg: Config, st: RunState, revision: Option<Revision>, answer: string)
    requires !IsTerminal(st.status)
    ensures var r := Commit(cfg, st, revision, answer); var m := Assistant(Some(answer), []);
      && (r.st.status == Finished <==> !r.st.log.refused) && (r.st.status == Finished ==> r.exit == Returned)
      && r.st.log.writes == st.log.writes + [m] && r.st.window != [] && r.st.window[|r.st.window| - 1] == m
  {
    WriteIsLast(cfg.budget, st, Assistant(Some(answer), []));
  }

  lemma JudgeAnswers(cfg: Config, st: RunState, revision: Option<Revision>, draft: string, critic: CriticInput)
    requires !IsTerminal(st.status) && !st.log.refused
    ensures var r := Judge(cfg, st, revision, draft, critic); var m := Assistant(Some(draft), []);
      && (r.st.status == Finished <==> critic.Accept? && !r.st.log.refused) && (r.st.status == Finished ==> r.exit == Returned)
      && (critic.Accept? ==> r.st.log.writes == st.log.writes + [m] && r.st.window != [] && r.st.window[|r.st.window| - 1] == m)
  {
    if critic.Accept? {
      var reviewed := st.(log := st.log.(reviews := st.log.reviews + [Context(cfg.budget, st.window)])).AddStep(Critique);
      CommitAnswers(cfg, reviewed.Emit(CritiqueCompleted(st.stepCount)), revision, draft);
    }
  }

  /** The review part of a pass, from the state behind the reply. */
  lemma ReviewAnswers(cfg: Config, head: Head, input: StepInput, st: RunState)
    requires Sends(cfg, head, input) && input.llm.Replied? && input.llm.calls == []
    requires !IsTerminal(st.status) && !st.log.refused && st.stepCount == head.st.stepCount + 1 && st.log.writes == head.st.log.writes
    ensures var r := ReviewDraft(cfg, st, head.revision, input.llm.draft, input.critic);
      && (r.st.status == Finished <==> IsAccepted(cfg, head, input) && !r.st.log.refused)
      && (r.st.status == Finished ==> r.exit == Returned && IsAnswered(head, input, r.st))
  {
    if input.llm.draft.Some? && !cfg.blank(input.llm.draft.value) {
      if cfg.hasCritic {
        JudgeAnswers(cfg, st, head.revision, input.llm.draft.value, input.critic);
      } else {
        CommitAnswers(cfg, st, head.revision, input.llm.draft.value);
      }
    }
  }

  lemma RepliedAnswers(cfg: Config, head: Head, input: StepInput)
    requires !IsTerminal(head.st.status) && !head.st.log.refused && Sends(cfg, head, input) && input.llm.Replied?
    ensures var r := RunStep(cfg, head.st, head.revision, input);
      && (r.st.status == Finished <==> IsAccepted(cfg, head, input) && !r.st.log.refused)
      && (r.st.status == Finished ==> r.exit == Returned && IsAnswered(head, input, r.st))
  {
    var sent := SendRequest(cfg, Asked(cfg, head.st, head.revision), head.revision);
    RepliedShape(cfg, sent, input.llm);
    var replied := RepliedState(cfg, sent, input.llm);
    if input.llm.calls != [] {
      ToolRoundShape(cfg, replied, head.revision, NameSet(input.route.names), input.llm.draft, input.llm.calls, input.tools);
    } else {
      ReviewAnswers(cfg, head, input, replied);
    }
  }

  /** A pass finishes the run exactly when its draft is accepted and can be written, and then writes that
      very draft. */
  lemma StepAnswers(cfg: Config, head: Head, input: StepInput)
    requires !IsTerminal(head.st.status) && !head.st.log.refused
    ensures var r := RunStep(cfg, head.st, head.revision, input);
      && (r.st.status == Finished <==> IsAccepted(cfg, head, input) && !r.st.log.refused)
      && (r.st.status == Finished ==> r.exit == Returned && IsAnswered(head, input, r.st))
  {
    if Sends(cfg, head, input) {
      if input.llm.Replied? {
        RepliedAnswers(cfg, head, input);
      } else {
        TokensOnlyEmit(cfg, SendRequest(cfg, Asked(cfg, head.st, head.revision), head.revision), input.llm.tokens);
      }
    }
  }

  /** The run's outcome, given its heads: it finished exactly if the draft of the last pass was accepted
      and could be written; that draft is then the last write and the answer of the end event. */
  ghost predicate AnswersRight(cfg: Config, heads: seq<Head>, inputs: nat -> StepInput, i: nat, r: RunResult) {
    if heads == [] then r.st.status != Finished
    else
      var last, input := heads[|heads| - 1], inputs(i + |heads| - 1);
      && (r.st.status == Finished <==> IsAccepted(cfg, last, input) && !r.st.log.refused)
      && (r.st.status == Finished ==>
            && IsAnswered(last, input, r.st) && input.llm.draft.Some? && r.st.events != []
            && var end := r.st.events[|r.st.events| - 1];
            end.RunEnd? && end.finished && end.final == input.llm.draft)
  }

  lemma EarlierHead(cfg: Config, head: Head, rest: seq<Head>, inputs: nat -> StepInput, i: nat, r: RunResult)
    requires rest != [] && AnswersRight(cfg, rest, inputs, i + 1, r)
    ensures AnswersRight(cfg, [head] + rest, inputs, i, r)
  {
    assert ([head] + rest)[|rest|] == rest[|rest| - 1];
  }

  /** A pass that ends the run, and how the run then ends. */
  lemma LastPassAnswers(cfg: Config, head: Head, inputs: nat -> StepInput, i: nat, end: RunResult)
    requires !IsTerminal(head.st.status) && !head.st.log.refused
    requires var r := RunStep(cfg, head.st, head.revision, inputs(i));
      if IsTerminal(r.st.status) && r.exit == Returned then end == RunResult(EmitEnd(r.st), Returned)
      else r.exit != Returned && end.st.status != Finished && end.st.log == r.st.log
    ensures AnswersRight(cfg, [head], inputs, i, end)
  {
    StepAnswers(cfg, head, inputs(i));
  }

  lemma {:induction false} LoopAnswers(cfg: Config, head: Head, inputs: nat -> StepInput, i: nat)
    requires !IsTerminal(head.st.status) && !head.st.log.refused
    ensures AnswersRight(cfg, Heads(cfg, head, inputs, i), inputs, i, RunLoop(cfg, head.st, head.revision, inputs, i))
    decreases PassesLeft(cfg, head.st)
  {
    var r := RunStep(cfg, head.st, head.revision, inputs(i));
    if r.exit == Returned && !IsTerminal(r.st.status) {
      RefusedMeansEscaped(cfg, head.st, head.revision, inputs(i));
      StepUsesPass(cfg, head.st, head.revision, inputs(i));
      var next := Head(r.st, r.revision);
      LoopAnswers(cfg, next, inputs, i + 1);
      EarlierHead(cfg, head, Heads(cfg, next, inputs, i + 1), inputs, i, RunLoop(cfg, head.st, head.revision, inputs, i));
    } else {
      if r.exit == Returned {
        StepUsesPass(cfg, head.st, head.revision, inputs(i));
        LoopTakesOnePass(cfg, head, inputs, i);
        assert RunLoop(cfg, r.st, r.revision, inputs, i + 1) == RunResult(EmitEnd(r.st), Returned);
      }
      assert Heads(cfg, head, inputs, i) == [head];
      assert r.st.status == Finished ==> r.exit == Returned by {
        StepAnswers(cfg, head, inputs(i));
      }
      LastPassAnswers(cfg, head, inputs, i, RunLoop(cfg, head.st, head.revision, inputs, i));
    }
  }

  /** Main result: a run finishes exactly when the last reply of the model is a draft without calls, not
      blank, accepted if there is a critic, and can be written; that draft, and no other, is then the last
      message of the run and the answer it reports. */
  lemma AnswerIsTheLastDraft(cfg: Config, mem: Memory, prompt: Option<string>, userInput: string, planning: PlanInput, inputs: nat -> StepInput)
    ensures AnswersRight(cfg, RunHeads(cfg, mem, prompt, userInput, planning, inputs), inputs, 0,
                         Run(cfg, mem, prompt, userInput, planning, inputs))
  {
    RunIsLaunched(cfg, mem, prompt, userInput, planning, inputs);
    var launched := Launched(cfg, mem, prompt, userInput, planning);
    if launched.Some? {
      LoopAnswers(launched.value.cfg, Head(launched.value.st, None), inputs, 0);
    }
  }

  lemma {:induction false} NotesUnplanned(cfg: Config, plan: Option<Plan>, heads: seq<Head>, inputs: nat -> StepInput, i: nat)
    ensures NotesOf(cfg.(plan := plan), heads, inputs, i) == NotesOf(cfg, heads, inputs, i)
  {
    if heads != [] {
      NotesUnplanned(cfg, plan, heads[1..], inputs, i + 1);
    }
  }

  lemma {:induction false} NotesWithoutLast(cfg: Config, heads: seq<Head>, inputs: nat -> StepInput, i: nat)
    requires heads != [] && !IsRejected(cfg, heads[|heads| - 1], inputs(i + |heads| - 1))
    ensures NotesOf(cfg, heads, inputs, i) == NotesOf(cfg, heads[..|heads| - 1], inputs, i)
  {
    if |heads| > 1 {
      NotesWithoutLast(cfg, heads[1..], inputs, i + 1);
      assert heads[1..][..|heads| - 2] == heads[..|heads| - 1][1..];
    }
  }

  /** An accepted draft is no pass's rejected one: the rejections of a finished run are those of the passes
      before its last. */
  lemma RejectedBeforeAnswer(cfg: Config, mem: Memory, prompt: Option<string>, userInput: string, planning: PlanInput, inputs: nat -> StepInput)
    requires Run(cfg, mem, prompt, userInput, planning, inputs).st.status == Finished
    ensures var heads := RunHeads(cfg, mem, prompt, userInput, planning, inputs);
      && heads != []
      && Run(cfg, mem, prompt, userInput, planning, inputs).st.log.rejected == NotesOf(cfg, heads[..|heads| - 1], inputs, 0)
  {
    var heads := RunHeads(cfg, mem, prompt, userInput, planning, inputs);
    AnswerIsTheLastDraft(cfg, mem, prompt, userInput, planning, inputs);
    RunSays(cfg, mem, prompt, userInput, planning, inputs);
    NotesUnplanned(cfg, PlanOf(planning), heads, inputs, 0);
    NotesWithoutLast(cfg, heads, inputs, 0);
  }
}
