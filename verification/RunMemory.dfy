/** The window of a session through its runs: it is the window of everything ever written to it. */
module RunMemory {
  import opened Messages
  import opened ShortTerm
  import opened LoopGuard
  import opened Validator
  import opened Executor
  import opened RunSpec
  import opened Runs

  /** What the run wrote, without a last message whose write raised. */
  function Counted(log: Log): seq<Message> {
    if log.refused && log.writes != [] then log.writes[..|log.writes| - 1] else log.writes
  }

  /** The memory after the history `h` of the session and the writes of this run.  A last write that
      raised left a message that cannot be counted behind the window of all before it. */
  ghost predicate IsMemoryAfter(b: Budget, h: seq<Message>, st: RunState) {
    if st.log.refused then
      && st.log.writes != [] && !b.countable(st.log.writes[|st.log.writes| - 1])
      && var window := Feed(b, h + Counted(st.log));
      && IsMemoryOf(b, Memory(window, st.total), h + Counted(st.log))
      && st.window == window + [st.log.writes[|st.log.writes| - 1]]
    else IsMemoryOf(b, st.Mem(), h + st.log.writes)
  }

  /** `first` are the earliest writes, as far as the run got, and no later one is a system message. */
  ghost predicate BeginsWith(first: seq<Message>, log: Log) {
    && (first <= log.writes || (log.refused && log.writes <= first))
    && forall i | |first| <= i < |log.writes| :: !log.writes[i].System?
  }

  ghost predicate Follows(b: Budget, h: seq<Message>, first: seq<Message>, st: RunState) {
    IsMemoryAfter(b, h, st) && BeginsWith(first, st.log)
  }

  lemma WriteIsMemory(b: Budget, h: seq<Message>, st: RunState, m: Message)
    requires !st.log.refused && IsMemoryAfter(b, h, st)
    ensures IsMemoryAfter(b, h, st.Write(b, m))
  {
    MemoryOfAdds(b, st.Mem(), h + st.log.writes, m);
    assert h + st.log.writes + [m] == h + (st.log.writes + [m]);
    assert (st.log.writes + [m])[..|st.log.writes|] == st.log.writes;
  }

  lemma WriteFollows(b: Budget, h: seq<Message>, first: seq<Message>, st: RunState, m: Message)
    requires Follows(b, h, first, st) && !st.log.refused && !m.System?
    ensures Follows(b, h, first, st.Write(b, m))
  {
    WriteIsMemory(b, h, st, m);
  }

  lemma {:induction false} WriteAllFollows(b: Budget, h: seq<Message>, first: seq<Message>, st: RunState, ms: seq<Message>)
    requires Follows(b, h, first, st) && !st.log.refused && forall m | m in ms :: !m.System?
    ensures Follows(b, h, first, st.WriteAll(b, ms))
  {
    if ms != [] {
      var rest, last := ms[..|ms| - 1], ms[|ms| - 1];
      assert last in ms && forall m | m in rest :: m in ms;
      WriteAllFollows(b, h, first, st, rest);
      if !st.WriteAll(b, rest).log.refused {
        WriteFollows(b, h, first, st.WriteAll(b, rest), last);
      }
    }
  }

  lemma {:induction false} RecordResultsFollows(cfg: Config, h: seq<Message>, first: seq<Message>, st: RunState, results: seq<ToolResult>)
    requires HaveFunctions(results) && Follows(cfg.budget, h, first, st) && !st.log.refused
    ensures Follows(cfg.budget, h, first, RecordResults(cfg, st, results))
  {
    if results != [] {
      var n := |results| - 1;
      assert results[n] in results;
      RecordResultsFollows(cfg, h, first, st, results[..n]);
      if !RecordResults(cfg, st, results[..n]).log.refused {
        WriteFollows(cfg.budget, h, first, RecordResults(cfg, st, results[..n]).AddStep(ToolExec), AnswerOf(results[n]));
      }
    }
  }

  lemma ExecuteRoundFollows(cfg: Config, h: seq<Message>, first: seq<Message>, st: RunState, revision: Option<Revision>,
                            valid: seq<ToolCall>, tools: ToolsInput)
    requires Follows(cfg.budget, h, first, st) && !st.log.refused
    ensures Follows(cfg.budget, h, first, ExecuteRound(cfg, st, revision, valid, tools).st)
  {
    var begun := st.(log := st.log.(roundSize := |valid|));
    if tools.ToolsRun? && ExecuteCalls(cfg.enabled, cfg.rules, valid, tools.behave).Some? {
      var results := ExecuteCalls(cfg.enabled, cfg.rules, valid, tools.behave).value;
      RecordResultsFollows(cfg, h, first, begun, results);
      var recorded, r := RecordResults(cfg, begun, results), ProcessToolResults(cfg, begun, results);
      assert r.Mem() == recorded.Mem() && r.log == recorded.log;
    }
  }

  lemma FeedViolationsFollows(cfg: Config, h: seq<Message>, first: seq<Message>, st: RunState, vs: seq<Violation>)
    requires Follows(cfg.budget, h, first, st) && !st.log.refused
    ensures Follows(cfg.budget, h, first, FeedViolations(cfg, st, vs))
  {
    WriteAllFollows(cfg.budget, h, first, st.(validationFailureRounds := st.validationFailureRounds + 1), ViolationMessages(vs));
  }

  lemma AnswerCallsFollows(cfg: Config, h: seq<Message>, first: seq<Message>, st: RunState, revision: Option<Revision>,
                           allowed: set<string>, calls: seq<ToolCall>, tools: ToolsInput)
    requires Follows(cfg.budget, h, first, st) && !st.log.refused
    ensures Follows(cfg.budget, h, first, AnswerCalls(cfg, st, revision, allowed, calls, tools).st)
  {
    var vs, valid := Violations(cfg.rules, calls, allowed), ValidCalls(cfg.rules, calls, allowed);
    var fed := FeedViolations(cfg, st, vs);
    FeedViolationsFollows(cfg, h, first, st, vs);
    if !fed.log.refused {
      ExecuteRoundFollows(cfg, h, first, fed, revision, valid, tools);
    }
  }

  lemma ToolRoundFollows(cfg: Config, h: seq<Message>, first: seq<Message>, st: RunState, revision: Option<Revision>,
                         allowed: set<string>, draft: Option<string>, calls: seq<ToolCall>, tools: ToolsInput)
    requires Follows(cfg.budget, h, first, st) && !st.log.refused
    ensures var r := ToolRound(cfg, st, revision, allowed, draft, calls, tools);
            Follows(cfg.budget, h, first, r.st)
  {
    if !StopsEarly(cfg, st, calls) {
      var tried := st.(status := AwaitingTool, toolCallHistory := st.toolCallHistory + Signatures(cfg, calls));
      WriteFollows(cfg.budget, h, first, tried, Assistant(draft, calls));
      if Opens(cfg, st, draft, calls) {
        AnswerCallsFollows(cfg, h, first, RoundOpened(cfg, st, draft, calls), revision, allowed, calls, tools);
      }
    }
  }

  lemma JudgeFollows(cfg: Config, h: seq<Message>, first: seq<Message>, st: RunState, revision: Option<Revision>,
                     draft: string, critic: CriticInput)
    requires Follows(cfg.budget, h, first, st) && !st.log.refused
    ensures Follows(cfg.budget, h, first, Judge(cfg, st, revision, draft, critic).st)
  {
    var reviewed := st.(log := st.log.(reviews := st.log.reviews + [Context(cfg.budget, st.window)])).AddStep(Critique);
    WriteFollows(cfg.budget, h, first, reviewed.Emit(CritiqueCompleted(st.stepCount)), Assistant(Some(draft), []));
  }

  lemma ReviewDraftFollows(cfg: Config, h: seq<Message>, first: seq<Message>, st: RunState, revision: Option<Revision>,
                           draft: Option<string>, critic: CriticInput)
    requires Follows(cfg.budget, h, first, st) && !st.log.refused
    ensures Follows(cfg.budget, h, first, ReviewDraft(cfg, st, revision, draft, critic).st)
  {
    if draft.Some? {
      WriteFollows(cfg.budget, h, first, st, Assistant(draft, []));
      JudgeFollows(cfg, h, first, st, revision, draft.value, critic);
    }
  }

  lemma AskModelFollows(cfg: Config, h: seq<Message>, first: seq<Message>, st: RunState, revision: Option<Revision>,
                        allowed: set<string>, input: StepInput)
    requires Follows(cfg.budget, h, first, st) && !st.log.refused
    ensures var r := AskModel(cfg, st, revision, allowed, input);
            Follows(cfg.budget, h, first, r.st)
  {
    TokensOnlyEmit(cfg, st, input.llm.tokens);
    if input.llm.Replied? {
      RepliedShape(cfg, st, input.llm);
      var replied := RepliedState(cfg, st, input.llm);
      if input.llm.calls != [] {
        ToolRoundFollows(cfg, h, first, replied, revision, allowed, input.llm.draft, input.llm.calls, input.tools);
      } else {
        ReviewDraftFollows(cfg, h, first, replied, revision, input.llm.draft, input.critic);
      }
    }
  }

  lemma StepFollows(cfg: Config, h: seq<Message>, first: seq<Message>, st: RunState, revision: Option<Revision>, input: StepInput)
    requires Follows(cfg.budget, h, first, st) && !st.log.refused
    ensures var r := RunStep(cfg, st, revision, input);
            Follows(cfg.budget, h, first, r.st)
  {
    if !StepsExhausted(cfg.policy, st.stepCount) && st.window != [] && input.route.Routed? {
      AskModelFollows(cfg, h, first, SendRequest(cfg, Asked(cfg, st, revision), revision), revision, NameSet(input.route.names), input);
    }
  }

  lemma LogAndMemoryFollow(b: Budget, h: seq<Message>, first: seq<Message>, st: RunState, r: RunState)
    requires Follows(b, h, first, st) && r.Mem() == st.Mem() && r.log == st.log
    ensures Follows(b, h, first, r)
  {
  }

  lemma {:induction false} LoopFollows(cfg: Config, h: seq<Message>, first: seq<Message>, st: RunState, revision: Option<Revision>,
                                       inputs: nat -> StepInput, i: nat)
    requires Follows(cfg.budget, h, first, st) && !st.log.refused
    ensures Follows(cfg.budget, h, first, RunLoop(cfg, st, revision, inputs, i).st)
    decreases PassesLeft(cfg, st)
  {
    if !IsTerminal(st.status) {
      StepFollows(cfg, h, first, st, revision, inputs(i));
      var r := RunStep(cfg, st, revision, inputs(i));
      if r.exit == Returned {
        StepUsesPass(cfg, st, revision, inputs(i));
        RefusedMeansEscaped(cfg, st, revision, inputs(i));
        LoopFollows(cfg, h, first, r.st, r.revision, inputs, i + 1);
      } else {
        LogAndMemoryFollow(cfg.budget, h, first, r.st, RunLoop(cfg, st, revision, inputs, i).st);
      }
    } else {
      LogAndMemoryFollow(cfg.budget, h, first, st, EmitEnd(st));
    }
  }

  /** What a run writes before its first pass. */
  function FirstWrites(window: seq<Message>, prompt: Option<string>, userInput: string): seq<Message> {
    if prompt.Some? && prompt.value != "" && window == [] then [System(prompt.value), User(userInput)] else [User(userInput)]
  }

  lemma BeginIsMemory(b: Budget, h: seq<Message>, mem: Memory, prompt: Option<string>, userInput: string)
    requires IsMemoryOf(b, mem, h)
    ensures IsMemoryAfter(b, h, Begin(b, mem, prompt, userInput))
  {
    var idle := Idle(mem);
    assert h + [] == h;
    if prompt.Some? && prompt.value != "" && mem.messages == [] {
      WriteIsMemory(b, h, idle, System(prompt.value));
      var prompted := idle.Write(b, System(prompt.value));
      if !prompted.log.refused {
        WriteIsMemory(b, h, prompted, User(userInput));
      }
    } else {
      WriteIsMemory(b, h, idle, User(userInput));
    }
  }

  lemma BeginWritesFirst(b: Budget, mem: Memory, prompt: Option<string>, userInput: string)
    ensures BeginsWith(FirstWrites(mem.messages, prompt, userInput), Begin(b, mem, prompt, userInput).log)
  {
    assert [] + [User(userInput)] == [User(userInput)];
    if prompt.Some? && prompt.value != "" && mem.messages == [] {
      assert [] + [System(prompt.value)] == [System(prompt.value)];
      assert [System(prompt.value)] + [User(userInput)] == [System(prompt.value), User(userInput)];
    }
  }

  /** Main result: every run leaves the memory of the session's whole history followed by everything
      the run wrote, and writes no system message behind its first writes.  A write raises exactly when
      its message cannot be counted, and is the run's last. */
  lemma WindowFollowsHistory(cfg: Config, h: seq<Message>, mem: Memory, prompt: Option<string>, userInput: string,
                             planning: PlanInput, inputs: nat -> StepInput)
    requires IsMemoryOf(cfg.budget, mem, h)
    ensures Follows(cfg.budget, h, FirstWrites(mem.messages, prompt, userInput), Run(cfg, mem, prompt, userInput, planning, inputs).st)
  {
    BeginIsMemory(cfg.budget, h, mem, prompt, userInput);
    BeginWritesFirst(cfg.budget, mem, prompt, userInput);
    RunIsLaunched(cfg, mem, prompt, userInput, planning, inputs);
    var launched := Launched(cfg, mem, prompt, userInput, planning);
    if launched.Some? {
      LoopFollows(launched.value.cfg, h, FirstWrites(mem.messages, prompt, userInput), launched.value.st, None, inputs, 0);
    }
  }

  lemma Cancel(a: seq<Message>, b: seq<Message>, m: Message)
    ensures a + [m] == b + [m] <==> a == b
  {
    assert (a + [m])[..|a|] == a && (b + [m])[..|b|] == b;
  }

  /** What was counted of a session that began with a system message stays whole exactly as long as it
      fits the budget. */
  lemma AllStays(b: Budget, h: seq<Message>, st: RunState)
    requires IsMemoryAfter(b, h, st) && NonNegative(b, h + Counted(st.log))
    requires h + st.log.writes != [] && (h + st.log.writes)[0].System?
    ensures var all := h + Counted(st.log);
            st.window == h + st.log.writes <==> |all| <= 1 || Fits(b, all)
  {
    var all := h + Counted(st.log);
    if all != [] {
      assert all[0] == (h + st.log.writes)[0];
      AllStaysIffItFits(b, all);
    }
    if st.log.refused {
      var last := st.log.writes[|st.log.writes| - 1];
      assert h + st.log.writes == all + [last];
      Cancel(Feed(b, all), all, last);
    }
  }

  lemma PromptInSuffix(all: seq<Message>, s: nat, prompt: Message)
    requires s <= |all| && all != [] && all[0] == prompt && prompt.System?
    requires forall i | 1 <= i < |all| :: !all[i].System?
    ensures prompt in all[s..] <==> s == 0
    ensures all[s..] == all <==> s == 0
  {
    if s > 0 {
      assert forall i | 0 <= i < |all[s..]| :: all[s..][i] == all[s + i];
    } else {
      assert all[s..] == all;
    }
  }

  lemma PromptOfHistory(b: Budget, all: seq<Message>, prompt: Message)
    requires NonNegative(b, all) && all != [] && all[0] == prompt && prompt.System?
    requires forall i | 1 <= i < |all| :: !all[i].System?
    ensures prompt in Feed(b, all) <==> Feed(b, all) == all
  {
    var s := FeedIsBatch(b, all);
    PromptInSuffix(all, s, prompt);
  }

  lemma PromptBeforeRefused(b: Budget, all: seq<Message>, last: Message, prompt: Message)
    requires NonNegative(b, all) && prompt.System? && (all + [last])[0] == prompt
    requires forall i | 1 <= i < |all + [last]| :: !(all + [last])[i].System?
    ensures prompt in Feed(b, all) + [last] <==> Feed(b, all) + [last] == all + [last]
  {
    Cancel(Feed(b, all), all, last);
    if all != [] {
      assert last == (all + [last])[|all|];
      assert all[0] == prompt && forall i | 1 <= i < |all| :: all[i] == (all + [last])[i];
      PromptOfHistory(b, all, prompt);
    }
  }

  /** The prompt is in the window exactly when nothing was evicted. */
  lemma PromptIsFirst(b: Budget, st: RunState, prompt: Message)
    requires IsMemoryAfter(b, [], st) && NonNegative(b, Counted(st.log))
    requires st.log.writes != [] && st.log.writes[0] == prompt && prompt.System?
    requires forall i | 1 <= i < |st.log.writes| :: !st.log.writes[i].System?
    ensures prompt in st.window <==> st.window == st.log.writes
  {
    var all := Counted(st.log);
    assert [] + all == all;
    if st.log.refused {
      var last := st.log.writes[|st.log.writes| - 1];
      assert st.log.writes == all + [last];
      PromptBeforeRefused(b, all, last, prompt);
    } else {
      PromptOfHistory(b, all, prompt);
    }
  }

  lemma FollowedPrompt(b: Budget, prompt: string, userInput: string, st: RunState)
    requires Follows(b, [], [System(prompt), User(userInput)], st) && NonNegative(b, Counted(st.log)) && st.log.writes != []
    ensures System(prompt) in st.window <==> |Counted(st.log)| <= 1 || Fits(b, Counted(st.log))
  {
    assert [] + st.log.writes == st.log.writes && [] + Counted(st.log) == Counted(st.log);
    assert st.log.writes[0] == System(prompt);
    PromptIsFirst(b, st, System(prompt));
    AllStays(b, [], st);
  }

  /** The prompt is in the evictable window: after any run on a new session it is there exactly when
      everything counted so far fits the budget. */
  lemma PromptStaysIffAllFits(cfg: Config, prompt: string, userInput: string, planning: PlanInput, inputs: nat -> StepInput)
    requires prompt != ""
    ensures var st := Run(cfg, Memory([], Total(cfg.budget, [])), Some(prompt), userInput, planning, inputs).st;
            NonNegative(cfg.budget, Counted(st.log)) ==>
              (System(prompt) in st.window <==> |Counted(st.log)| <= 1 || Fits(cfg.budget, Counted(st.log)))
  {
    var mem := Memory([], Total(cfg.budget, []));
    var st := Run(cfg, mem, Some(prompt), userInput, planning, inputs).st;
    WindowFollowsHistory(cfg, [], mem, Some(prompt), userInput, planning, inputs);
    if NonNegative(cfg.budget, Counted(st.log)) {
      FollowedPrompt(cfg.budget, prompt, userInput, st);
    }
  }

  /** The same over the whole history of a session, whatever runs it had before. */
  lemma HistoryStaysIffItFits(cfg: Config, h: seq<Message>, mem: Memory, prompt: Option<string>, userInput: string,
                              planning: PlanInput, inputs: nat -> StepInput)
    requires IsMemoryOf(cfg.budget, mem, h) && h != [] && h[0].System?
    ensures var st := Run(cfg, mem, prompt, userInput, planning, inputs).st; var all := h + Counted(st.log);
            NonNegative(cfg.budget, all) ==> (st.window == h + st.log.writes <==> |all| == 1 || Fits(cfg.budget, all))
  {
    var st := Run(cfg, mem, prompt, userInput, planning, inputs).st;
    WindowFollowsHistory(cfg, h, mem, prompt, userInput, planning, inputs);
    if NonNegative(cfg.budget, h + Counted(st.log)) {
      AllStays(cfg.budget, h, st);
    }
  }
}
