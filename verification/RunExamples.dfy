/** Inputs on which a run breaks what it keeps otherwise: calls stay unanswered, or an answer is
    written although the run did not finish. */
module RunExamples {
  import opened Messages
  import opened ShortTerm
  import opened TokenCounter
  import opened LoopGuard
  import opened Validator
  import opened Executor
  import opened RunSpec
  import opened Runs
  import opened RunPairing

  const SPECIAL := "<|endoftext|>"

  /** A tokenizer that refuses its special token. */
  function SmallEncode(text: string): Option<nat> {
    if text == SPECIAL then None else Some(1)
  }

  /** One tool named "t" that accepts every argument, the code's own counter, a roomy budget and the
      default limits. */
  function SmallConfig(): Config {
    Config(Limits(100, 3, 1, 1, 1), CodeBudget(SmallEncode, None, 100),
           Rules({"t"}, text => Object, (name, text) => Meets), {"t"}, false, None,
           text => text == "", arguments => Some(""), note => "")
  }

  const NEW := Memory([], 0)

  /** The head of the first pass of every run below. */
  function SmallHead(): RunState {
    Begin(SmallConfig().budget, NEW, None, "q").Emit(RunStart)
  }

  lemma SmallBegin()
    ensures SmallHead() == Idle(Memory([User("q")], 6)).(status := Running, events := [RunStart], log := Log([User("q")], [], [], [], [], 0, false))
    ensures Exact(SmallConfig().budget, SmallHead().Mem())
  {
    var b := SmallConfig().budget;
    assert [User("q")] == [] + [User("q")] && b.count(User("q")) == 6;
    assert AddTo(b, NEW, User("q")) == Added(Memory([User("q")], 6), false);
    assert [User("q")][1..] == [];
  }

  lemma SmallLaunched()
    ensures Launched(SmallConfig(), NEW, None, "q", NoPlanner) == Some(Launch(SmallConfig().(plan := None), SmallHead()))
    ensures var st := SmallHead(); st.window != [] && st.stepCount == 0 && st.status == Running
  {
    SmallBegin();
  }

  function AskTool(id: string, arguments: Arguments): ToolCall {
    ToolCall(id, Some(Function("t", arguments)))
  }

  /** A model that asks for the tool in every pass. */
  function Asking(calls: seq<ToolCall>, tools: ToolsInput): nat -> StepInput {
    i => StepInput(Routed(["t"]), Replied([], false, None, calls), tools, Accept)
  }

  lemma OpenPass(cfg: Config, st: RunState, inputs: nat -> StepInput)
    requires !IsTerminal(st.status) && LeavesOpen(cfg, st, inputs(0))
    ensures RunLeavesOpen(cfg, st, None, inputs, 0)
  {
  }

  lemma AskingLeavesOpen(cfg: Config, st: RunState, calls: seq<ToolCall>, tools: ToolsInput)
    requires st.stepCount < cfg.policy.maxSteps && st.window != [] && calls != []
    requires RoundLeftOpen(cfg, st, {"t"}, None, calls, tools)
    ensures LeavesOpen(cfg, st, Asking(calls, tools)(0))
  {
    assert NameSet(["t"]) == {"t"};
  }

  lemma OpenPassLeavesOpen(calls: seq<ToolCall>, tools: ToolsInput)
    requires calls != [] && RoundLeftOpen(SmallConfig().(plan := None), SmallHead(), {"t"}, None, calls, tools)
    ensures !WellPaired(Run(SmallConfig(), NEW, None, "q", NoPlanner, Asking(calls, tools)).st.window)
  {
    var cfg, st, inputs := SmallConfig().(plan := None), SmallHead(), Asking(calls, tools);
    SmallLaunched();
    AskingLeavesOpen(cfg, st, calls, tools);
    OpenPass(cfg, st, inputs);
    RunIsPaired(SmallConfig(), NEW, None, "q", NoPlanner, inputs);
  }

  lemma StructuredGoesOn(cfg: Config, st: RunState)
    requires cfg == SmallConfig().(plan := None) && st.toolCallHistory == []
    ensures !StopsEarly(cfg, st, [AskTool("a", Structured)])
  {
    assert [AskTool("a", Structured)][1..] == [];
  }

  /** Arguments that are an object: counting them raises, and the call stays in the window unanswered. */
  lemma StructuredCallsLeaveOpen()
    ensures !WellPaired(Run(SmallConfig(), NEW, None, "q", NoPlanner, Asking([AskTool("a", Structured)], ToolsRun(n => Returns("")))).st.window)
  {
    var cfg, calls := SmallConfig().(plan := None), [AskTool("a", Structured)];
    var st, tools := SmallHead(), ToolsRun(n => Returns(""));
    assert st.toolCallHistory == [] by {
      SmallBegin();
    }
    assert RoundLeftOpen(cfg, st, {"t"}, None, calls, tools) by {
      StructuredGoesOn(cfg, st);
      assert !CallCountable(SmallEncode, calls[0]) && !cfg.budget.countable(Assistant(None, calls));
    }
    OpenPassLeavesOpen(calls, tools);
  }

  lemma AskToolIsFine(id: string)
    requires id != SPECIAL
    ensures CallCountable(SmallEncode, AskTool(id, Text("{}"))) && Executable(SmallConfig().rules, AskTool(id, Text("{}")), {"t"})
  {
  }

  lemma OneCallIsValid()
    ensures var calls := [AskTool("a", Text("{}"))];
      ValidCalls(SmallConfig().rules, calls, {"t"}) == calls && Violations(SmallConfig().rules, calls, {"t"}) == []
  {
    var calls := [AskTool("a", Text("{}"))];
    var rules := SmallConfig().rules;
    AskToolIsFine("a");
    assert calls[..0] == [] && [] + [calls[0]] == calls;
    assert ValidateOne(rules, calls[0], {"t"}).Passes?;
    assert ValidCalls(rules, [], {"t"}) == [] && Violations(rules, [], {"t"}) == [];
  }

  /** A run that is cancelled while its tool runs. */
  lemma CanceledToolsLeaveOpen()
    ensures !WellPaired(Run(SmallConfig(), NEW, None, "q", NoPlanner, Asking([AskTool("a", Text("{}"))], ToolsCanceled)).st.window)
  {
    var cfg, calls := SmallConfig().(plan := None), [AskTool("a", Text("{}"))];
    SmallBegin();
    OneCallIsValid();
    assert calls[1..] == [];
    assert !StopsEarly(cfg, SmallHead(), calls);
    OpenPassLeavesOpen(calls, ToolsCanceled);
  }

  lemma TwoCallsAreValid()
    ensures var calls := [AskTool("a", Text("{}")), AskTool("b", Text("{}"))];
      ValidCalls(SmallConfig().rules, calls, {"t"}) == calls && Violations(SmallConfig().rules, calls, {"t"}) == []
  {
    var calls := [AskTool("a", Text("{}")), AskTool("b", Text("{}"))];
    AskToolIsFine("a");
    AskToolIsFine("b");
    assert calls[..1] == [calls[0]];
    OneCallIsValid();
  }

  /** The first tool's output holds the special token. */
  function SpecialFirst(n: nat): Behaviour {
    Returns(if n == 0 then SPECIAL else "")
  }

  lemma FineToolsReturn(id: string, content: string)
    ensures var call := AskTool(id, Text("{}"));
      RunOne(SmallConfig().enabled, SmallConfig().rules, call, Returns(content)) == Some(Success(call, content))
  {
  }

  lemma SpecialResults()
    ensures var calls := [AskTool("a", Text("{}")), AskTool("b", Text("{}"))];
      ExecuteCalls(SmallConfig().enabled, SmallConfig().rules, calls, SpecialFirst)
      == Some([Success(calls[0], SPECIAL), Success(calls[1], "")])
  {
    var cfg, calls := SmallConfig(), [AskTool("a", Text("{}")), AskTool("b", Text("{}"))];
    FineToolsReturn("a", SPECIAL);
    FineToolsReturn("b", "");
    assert calls[..1] == [calls[0]] && calls[..1][..0] == [];
    assert [] + [Success(calls[0], SPECIAL)] == [Success(calls[0], SPECIAL)];
    assert ExecuteCalls(cfg.enabled, cfg.rules, calls[..1][..0], SpecialFirst) == Some([]);
    assert ExecuteCalls(cfg.enabled, cfg.rules, calls[..1], SpecialFirst) == Some([Success(calls[0], SPECIAL)]);
    assert SpecialFirst(1) == Returns("");
    assert [Success(calls[0], SPECIAL)] + [Success(calls[1], "")] == [Success(calls[0], SPECIAL), Success(calls[1], "")];
  }

  lemma SpecialAnswers(cfg: Config)
    requires cfg == SmallConfig().(plan := None)
    ensures var calls := [AskTool("a", Text("{}")), AskTool("b", Text("{}"))];
      !CountableButLast(cfg.budget, RoundAnswers(cfg, calls, SpecialFirst))
  {
    var calls := [AskTool("a", Text("{}")), AskTool("b", Text("{}"))];
    SpecialResults();
    var answers := RoundAnswers(cfg, calls, SpecialFirst);
    assert answers[0] == Tool("a", "t", SPECIAL);
    assert !Countable(SmallEncode, answers[0]) && answers[..1][0] in answers[..1];
  }

  lemma TwoCallsGoOn(cfg: Config, st: RunState)
    requires cfg == SmallConfig().(plan := None) && st.toolCallHistory == []
    ensures !StopsEarly(cfg, st, [AskTool("a", Text("{}")), AskTool("b", Text("{}"))])
  {
    var calls := [AskTool("a", Text("{}")), AskTool("b", Text("{}"))];
    assert calls[1..] == [calls[1]] && calls[1..][1..] == [];
    assert |Signatures(cfg, calls)| == 2;
  }

  /** Two calls, and the first result cannot be counted: writing it raises, so the second call is never
      answered. */
  lemma RefusedResultLeavesOpen()
    ensures !WellPaired(Run(SmallConfig(), NEW, None, "q", NoPlanner,
      Asking([AskTool("a", Text("{}")), AskTool("b", Text("{}"))], ToolsRun(SpecialFirst))).st.window)
  {
    var cfg, calls := SmallConfig().(plan := None), [AskTool("a", Text("{}")), AskTool("b", Text("{}"))];
    var st, tools := SmallHead(), ToolsRun(SpecialFirst);
    assert Exact(cfg.budget, st.Mem()) && st.toolCallHistory == [] by {
      SmallBegin();
    }
    assert RoundLeftOpen(cfg, st, {"t"}, None, calls, tools) by {
      TwoCallsGoOn(cfg, st);
      TwoCallsAreValid();
      SpecialAnswers(cfg);
      RoundLeftOpenOfExact(cfg, st, {"t"}, None, calls, tools);
    }
    OpenPassLeavesOpen(calls, tools);
  }

  /** A model that answers with the special token at once. */
  function Answering(i: nat): StepInput {
    StepInput(Routed(["t"]), Replied([], false, Some(SPECIAL), []), ToolsCanceled, Accept)
  }

  /** A pass whose answer cannot be counted. */
  lemma AnswerIsRefused(cfg: Config, st: RunState)
    requires cfg == SmallConfig().(plan := None) && st.stepCount == 0 && st.window != []
    ensures var r := RunStep(cfg, st, None, Answering(0)); var answer := Assistant(Some(SPECIAL), []);
      && r.exit == Escaped && r.st.status == st.status && r.st.log.refused
      && r.st.log.writes == st.log.writes + [answer] && r.st.window == st.window + [answer]
  {
    var sent := SendRequest(cfg, Asked(cfg, st, None), None);
    var replied := RepliedState(cfg, sent, Answering(0).llm);
    RepliedShape(cfg, sent, Answering(0).llm);
    assert !Countable(SmallEncode, Assistant(Some(SPECIAL), []));
    assert RunStep(cfg, st, None, Answering(0)) == Commit(cfg, replied, None, SPECIAL);
  }

  lemma EscapeEndsTheLoop(cfg: Config, st: RunState, inputs: nat -> StepInput)
    requires !IsTerminal(st.status) && RunStep(cfg, st, None, inputs(0)).exit == Escaped
    ensures RunLoop(cfg, st, None, inputs, 0) == RunResult(RunStep(cfg, st, None, inputs(0)).st, Escaped)
  {
  }

  lemma SmallRunEscapes()
    ensures var r := RunLoop(SmallConfig().(plan := None), SmallHead(), None, Answering, 0);
      && r.exit == Escaped && r.st.status == Running && r.st.log.refused
      && r.st.log.writes == [User("q")] + [Assistant(Some(SPECIAL), [])] == r.st.window
  {
    var cfg, st := SmallConfig().(plan := None), SmallHead();
    assert st.log.writes == [User("q")] == st.window by {
      SmallBegin();
    }
    SmallLaunched();
    AnswerIsRefused(cfg, st);
    EscapeEndsTheLoop(cfg, st, Answering);
  }

  /** An answer that cannot be counted: writing it raises before the run is finished, so the answer is
      in the window of a run that ended with an error. */
  lemma RefusedAnswerIsWritten()
    ensures var r := Run(SmallConfig(), NEW, None, "q", NoPlanner, Answering);
      && r.exit == Escaped && r.st.status == Running && r.st.log.refused
      && r.st.log.writes == [User("q"), Assistant(Some(SPECIAL), [])] == r.st.window
  {
    SmallLaunched();
    RunIsLaunched(SmallConfig(), NEW, None, "q", NoPlanner, Answering);
    SmallRunEscapes();
    assert [User("q")] + [Assistant(Some(SPECIAL), [])] == [User("q"), Assistant(Some(SPECIAL), [])];
  }
}
