/** Tool messages stay paired with the calls they answer, at every request of every run. */
module RunPairing {
  import opened Messages
  import opened ShortTerm
  import opened LoopGuard
  import opened Validator
  import opened Executor
  import opened RunSpec
  import opened Runs

  // ---- What an add does to pairing -------------------------------------------------------------

  lemma WriteKeepsPaired(b: Budget, mem: Memory, m: Message)
    requires WellPaired(mem.messages) && !m.Tool? && !OpensRound(m)
    ensures WellPaired(AddTo(b, mem, m).memory.messages)
  {
    AppendPlain(mem.messages, m);
    if b.countable(m) {
      TrimKeepsPaired(b, Memory(mem.messages + [m], mem.total + b.count(m)));
    }
  }

  lemma WriteOpens(b: Budget, mem: Memory, m: Message)
    requires WellPaired(mem.messages) && OpensRound(m)
    ensures OpenRound(AddTo(b, mem, m).memory.messages, CallIds(m.calls))
  {
    AppendCalls(mem.messages, m);
    if b.countable(m) {
      TrimKeepsOpen(b, Memory(mem.messages + [m], mem.total + b.count(m)), CallIds(m.calls));
    }
  }

  lemma WriteSettles(b: Budget, mem: Memory, m: Message, owed: multiset<string>)
    requires OpenRound(mem.messages, owed) && m.Tool? && m.callId in owed
    ensures OpenRound(AddTo(b, mem, m).memory.messages, owed - multiset{m.callId})
  {
    AppendAnswer(mem.messages, m, owed);
    if b.countable(m) {
      TrimKeepsOpen(b, Memory(mem.messages + [m], mem.total + b.count(m)), owed - multiset{m.callId});
    }
  }

  lemma TakeOne(owed: multiset<string>, ids: multiset<string>, id: string)
    requires ids + multiset{id} <= owed
    ensures id in owed - ids && (owed - ids) - multiset{id} == owed - (ids + multiset{id}) && ids <= owed
  {
    assert (ids + multiset{id})[id] == ids[id] + 1;
  }

  predicate AllTools(ms: seq<Message>) {
    forall m | m in ms :: m.Tool?
  }

  lemma AnswerIdsLast(ms: seq<Message>)
    requires ms != [] && AllTools(ms)
    ensures var before := ms[..|ms| - 1];
            AllTools(before) && AnswerIds(ms) == AnswerIds(before) + multiset{ms[|ms| - 1].callId}
  {
    assert ms == ms[..|ms| - 1] + [ms[|ms| - 1]] && ms[|ms| - 1] in ms;
    AnswerIdsSnoc(ms[..|ms| - 1], ms[|ms| - 1]);
  }

  /** Each tool message settles its id, as far as the messages get in. */
  lemma {:induction false} AnswersSettle(b: Budget, mem: Memory, ms: seq<Message>, owed: multiset<string>)
    requires OpenRound(mem.messages, owed) && AllTools(ms) && AnswerIds(ms) <= owed
    ensures OpenRound(AddAll(b, mem, ms).memory.messages, owed - AnswerIds(ms[..Reached(b, mem, ms)]))
  {
    if ms == [] {
      assert owed - AnswerIds(ms[..0]) == owed;
    } else {
      var before, last := ms[..|ms| - 1], ms[|ms| - 1];
      AnswerIdsLast(ms);
      TakeOne(owed, AnswerIds(before), last.callId);
      AnswersSettle(b, mem, before, owed);
      if CutShort(b, mem, ms) {
        assert before[..Reached(b, mem, before)] == ms[..Reached(b, mem, before)];
      } else {
        assert before[..Reached(b, mem, before)] == before && ms[..|ms|] == ms && last in ms;
        WriteSettles(b, AddAll(b, mem, before).memory, last, owed - AnswerIds(before));
      }
    }
  }

  lemma SomeIdsLeft(ms: seq<Message>, n: nat, rest: multiset<string>)
    requires AllTools(ms) && n <= |ms|
    ensures var owed := rest + AnswerIds(ms);
            owed - AnswerIds(ms[..n]) == rest + AnswerIds(ms[n..])
    ensures AnswerIds(ms[n..]) == multiset{} <==> n == |ms|
  {
    assert ms == ms[..n] + ms[n..];
    AnswerIdsAppend(ms[..n], ms[n..]);
    if n < |ms| {
      assert ms[n..][0] in ms && ms[n].callId in AnswerIds(ms[n..]);
    }
  }

  /** Answers to everything that is owed but `rest`: what is owed in the end, and whether that is nothing. */
  lemma AnswersLeave(b: Budget, mem: Memory, ms: seq<Message>, rest: multiset<string>)
    requires OpenRound(mem.messages, rest + AnswerIds(ms)) && AllTools(ms)
    ensures var after := AddAll(b, mem, ms).memory.messages;
            && (!CutShort(b, mem, ms) ==> OpenRound(after, rest))
            && (WellPaired(after) <==> rest == multiset{} && !CutShort(b, mem, ms))
  {
    var n := Reached(b, mem, ms);
    AnswersSettle(b, mem, ms, rest + AnswerIds(ms));
    SomeIdsLeft(ms, n, rest);
    OpenRoundSettled(AddAll(b, mem, ms).memory.messages, rest + AnswerIds(ms[n..]));
    assert rest + multiset{} == rest;
  }

  // ---- Violations and results as tool messages -------------------------------------------------

  /** Writing in turn is adding in turn. */
  lemma {:induction false} WriteAllAdds(b: Budget, st: RunState, ms: seq<Message>)
    requires !st.log.refused
    ensures var r := st.WriteAll(b, ms); Added(r.Mem(), r.log.refused) == AddAll(b, st.Mem(), ms)
  {
    if ms != [] {
      WriteAllAdds(b, st, ms[..|ms| - 1]);
    }
  }

  function AnswersOf(results: seq<ToolResult>): (ms: seq<Message>)
    requires HaveFunctions(results)
    ensures |ms| == |results| && AllTools(ms)
  {
    seq(|results|, i requires 0 <= i < |results| => assert results[i] in results; AnswerOf(results[i]))
  }

  lemma AnswersOfPrefix(results: seq<ToolResult>, n: nat)
    requires HaveFunctions(results) && n <= |results|
    ensures HaveFunctions(results[..n]) && AnswersOf(results[..n]) == AnswersOf(results)[..n]
  {
  }

  lemma RecordResultAdds(cfg: Config, st: RunState, r: ToolResult)
    requires r.call.fn.Some?
    ensures var done := RecordResult(cfg, st, r); Added(done.Mem(), done.log.refused) == AddTo(cfg.budget, st.Mem(), AnswerOf(r))
  {
  }

  /** So is recording results. */
  lemma {:induction false} RecordResultsAdds(cfg: Config, st: RunState, results: seq<ToolResult>)
    requires HaveFunctions(results) && !st.log.refused
    ensures var r := RecordResults(cfg, st, results);
            Added(r.Mem(), r.log.refused) == AddAll(cfg.budget, st.Mem(), AnswersOf(results))
  {
    if results != [] {
      var n := |results| - 1;
      assert results[n] in results;
      RecordResultsAdds(cfg, st, results[..n]);
      AnswersOfPrefix(results, n);
      var before := RecordResults(cfg, st, results[..n]);
      if !before.log.refused {
        RecordResultAdds(cfg, before, results[n]);
      }
    }
  }

  lemma {:induction false} ViolationIdsAnswered(vs: seq<Violation>)
    ensures AllTools(ViolationMessages(vs)) && AnswerIds(ViolationMessages(vs)) == ViolationIds(vs)
  {
    if vs != [] {
      ViolationIdsAnswered(vs[..|vs| - 1]);
      assert ViolationMessages(vs)[..|vs| - 1] == ViolationMessages(vs[..|vs| - 1]);
      AnswerIdsLast(ViolationMessages(vs));
    }
  }

  lemma {:induction false} ResultIdsAnswered(results: seq<ToolResult>, calls: seq<ToolCall>)
    requires HaveFunctions(results) && |results| == |calls| && forall i | 0 <= i < |calls| :: results[i].call == calls[i]
    ensures AnswerIds(AnswersOf(results)) == CallIds(calls)
  {
    if results != [] {
      var n := |results| - 1;
      assert results[n] in results;
      ResultIdsAnswered(results[..n], calls[..n]);
      assert AnswerIds(AnswersOf(results)) == AnswerIds(AnswersOf(results[..n])) + multiset{calls[n].id} by {
        AnswersOfPrefix(results, n);
        AnswerIdsLast(AnswersOf(results));
      }
      CallIdsLast(calls);
    }
  }

  /** Writing violations back settles the refused ids exactly as far as the writes get, whatever is
      evicted meanwhile. */
  lemma ViolationsSettle(b: Budget, st: RunState, vs: seq<Violation>, rest: multiset<string>)
    requires !st.log.refused && OpenRound(st.window, rest + ViolationIds(vs))
    ensures var cut := CutShort(b, st.Mem(), ViolationMessages(vs)); var after := st.WriteAll(b, ViolationMessages(vs)).window;
            (!cut ==> OpenRound(after, rest)) && (WellPaired(after) <==> rest == multiset{} && !cut)
  {
    ViolationIdsAnswered(vs);
    WriteAllAdds(b, st, ViolationMessages(vs));
    AnswersLeave(b, st.Mem(), ViolationMessages(vs), rest);
  }

  /** Recording one result per call settles what those calls owe exactly if only the last write raises,
      if any. */
  lemma ResultsSettle(cfg: Config, st: RunState, results: seq<ToolResult>, calls: seq<ToolCall>)
    requires HaveFunctions(results) && |results| == |calls| && forall i | 0 <= i < |calls| :: results[i].call == calls[i]
    requires !st.log.refused && OpenRound(st.window, CallIds(calls))
    ensures WellPaired(RecordResults(cfg, st, results).window) <==> !CutShort(cfg.budget, st.Mem(), AnswersOf(results))
  {
    ResultIdsAnswered(results, calls);
    RecordResultsAdds(cfg, st, results);
    assert multiset{} + CallIds(calls) == CallIds(calls);
    AnswersLeave(cfg.budget, st.Mem(), AnswersOf(results), multiset{});
  }

  // ---- One tool round --------------------------------------------------------------------------

  /** The answers that the executor's results amount to. */
  function RoundAnswers(cfg: Config, valid: seq<ToolCall>, behave: nat -> Behaviour): (ms: seq<Message>) {
    match ExecuteCalls(cfg.enabled, cfg.rules, valid, behave)
    case None => []
    case Some(results) => AnswersOf(results)
  }

  /** Calls in the window that no tool message will answer: validating them raises, a write in front of the last answer raises,
      the validation budget ends the run beside valid calls, or the executor does not come back with
      results. */
  predicate LeftUnanswered(cfg: Config, mem: Memory, failures: nat, allowed: set<string>, calls: seq<ToolCall>, tools: ToolsInput) {
    var refusals, valid := ViolationMessages(Violations(cfg.rules, calls, allowed)), ValidCalls(cfg.rules, calls, allowed);
    var fed := AddAll(cfg.budget, mem, refusals);
    if ValidationRaises(cfg.rules, calls, allowed) then true
    else if valid == [] then CutShort(cfg.budget, mem, refusals)
    else
      || fed.raised
      || (refusals != [] && ValidationExhausted(cfg.policy, failures + 1))
      || !tools.ToolsRun?
      || CutShort(cfg.budget, fed.memory, RoundAnswers(cfg, valid, tools.behave))
  }

  /** The round's calls are written and then stay unanswered; so they do if their own write raises. */
  predicate RoundLeftOpen(cfg: Config, st: RunState, allowed: set<string>, draft: Option<string>, calls: seq<ToolCall>, tools: ToolsInput) {
    !StopsEarly(cfg, st, calls) &&
    var asked := AddTo(cfg.budget, st.Mem(), Assistant(draft, calls));
    asked.raised || LeftUnanswered(cfg, asked.memory, st.validationFailureRounds, allowed, calls, tools)
  }

  lemma ExecuteRoundWrites(cfg: Config, st: RunState, revision: Option<Revision>, valid: seq<ToolCall>, tools: ToolsInput)
    ensures var window := ExecuteRound(cfg, st, revision, valid, tools).st.window;
            if tools.ToolsRun? && ExecuteCalls(cfg.enabled, cfg.rules, valid, tools.behave).Some? then
              var begun := st.(log := st.log.(roundSize := |valid|));
              window == RecordResults(cfg, begun, ExecuteCalls(cfg.enabled, cfg.rules, valid, tools.behave).value).window
            else window == st.window
  {
  }

  lemma ExecuteRoundPaired(cfg: Config, st: RunState, revision: Option<Revision>, valid: seq<ToolCall>,
                           allowed: set<string>, tools: ToolsInput)
    requires !st.log.refused && OpenRound(st.window, CallIds(valid)) && valid != []
    requires forall c | c in valid :: Executable(cfg.rules, c, allowed)
    ensures WellPaired(ExecuteRound(cfg, st, revision, valid, tools).st.window)
            <==> tools.ToolsRun? && !CutShort(cfg.budget, st.Mem(), RoundAnswers(cfg, valid, tools.behave))
  {
    ExecuteRoundWrites(cfg, st, revision, valid, tools);
    if tools.ToolsRun? {
      ValidatedCallsNeverRaise(cfg.enabled, cfg.rules, valid, allowed, tools.behave);
      var results := ExecuteCalls(cfg.enabled, cfg.rules, valid, tools.behave).value;
      ResultsSettle(cfg, st.(log := st.log.(roundSize := |valid|)), results, valid);
    } else {
      assert valid[0].id in CallIds(valid);
      OpenRoundSettled(st.window, CallIds(valid));
    }
  }

  lemma FeedViolationsWrites(cfg: Config, st: RunState, vs: seq<Violation>)
    ensures var counted := st.(validationFailureRounds := st.validationFailureRounds + 1);
            var fed, written := FeedViolations(cfg, st, vs), counted.WriteAll(cfg.budget, ViolationMessages(vs));
            fed.Mem() == written.Mem() && fed.log == written.log
  {
  }

  lemma FeedViolationsAdds(cfg: Config, st: RunState, vs: seq<Violation>)
    requires !st.log.refused
    ensures var fed := FeedViolations(cfg, st, vs);
            Added(fed.Mem(), fed.log.refused) == AddAll(cfg.budget, st.Mem(), ViolationMessages(vs))
  {
    FeedViolationsWrites(cfg, st, vs);
    WriteAllAdds(cfg.budget, st.(validationFailureRounds := st.validationFailureRounds + 1), ViolationMessages(vs));
  }

  lemma FeedViolationsSettles(cfg: Config, st: RunState, vs: seq<Violation>, rest: multiset<string>)
    requires !st.log.refused && OpenRound(st.window, rest + ViolationIds(vs))
    ensures var cut := CutShort(cfg.budget, st.Mem(), ViolationMessages(vs)); var fed := FeedViolations(cfg, st, vs);
            (!cut ==> OpenRound(fed.window, rest)) && (WellPaired(fed.window) <==> rest == multiset{} && !cut)
  {
    var counted := st.(validationFailureRounds := st.validationFailureRounds + 1);
    assert FeedViolations(cfg, st, vs).window == counted.WriteAll(cfg.budget, ViolationMessages(vs)).window by {
      FeedViolationsWrites(cfg, st, vs);
    }
    ViolationsSettle(cfg.budget, counted, vs, rest);
  }

  lemma RefusedCallsPaired(cfg: Config, st: RunState, revision: Option<Revision>, allowed: set<string>,
                           calls: seq<ToolCall>, tools: ToolsInput)
    requires st.status == AwaitingTool && !st.log.refused
    requires !ValidationRaises(cfg.rules, calls, allowed) && ValidCalls(cfg.rules, calls, allowed) == []
    requires OpenRound(st.window, multiset{} + ViolationIds(Violations(cfg.rules, calls, allowed)))
    ensures WellPaired(AnswerCalls(cfg, st, revision, allowed, calls, tools).st.window)
            <==> !CutShort(cfg.budget, st.Mem(), ViolationMessages(Violations(cfg.rules, calls, allowed)))
  {
    FeedViolationsSettles(cfg, st, Violations(cfg.rules, calls, allowed), multiset{});
  }

  lemma CheckedCallsPaired(cfg: Config, st: RunState, revision: Option<Revision>, allowed: set<string>,
                           calls: seq<ToolCall>, tools: ToolsInput)
    requires st.status == AwaitingTool && !st.log.refused
    requires !ValidationRaises(cfg.rules, calls, allowed) && ValidCalls(cfg.rules, calls, allowed) != []
    requires OpenRound(st.window, CallIds(ValidCalls(cfg.rules, calls, allowed)) + ViolationIds(Violations(cfg.rules, calls, allowed)))
    ensures WellPaired(AnswerCalls(cfg, st, revision, allowed, calls, tools).st.window)
            <==> !LeftUnanswered(cfg, st.Mem(), st.validationFailureRounds, allowed, calls, tools)
  {
    var vs, valid := Violations(cfg.rules, calls, allowed), ValidCalls(cfg.rules, calls, allowed);
    var fed := FeedViolations(cfg, st, vs);
    assert valid[0].id in CallIds(valid);
    FeedViolationsSettles(cfg, st, vs, CallIds(valid));
    FeedViolationsAdds(cfg, st, vs);
    FeedViolationsShape(cfg, st, vs);
    if !fed.log.refused && !IsTerminal(fed.status) {
      ExecuteRoundPaired(cfg, fed, revision, valid, allowed, tools);
    }
  }

  lemma AnswerCallsPaired(cfg: Config, st: RunState, revision: Option<Revision>, allowed: set<string>,
                          calls: seq<ToolCall>, tools: ToolsInput)
    requires st.status == AwaitingTool && !st.log.refused && OpenRound(st.window, CallIds(calls)) && calls != []
    ensures WellPaired(AnswerCalls(cfg, st, revision, allowed, calls, tools).st.window)
            <==> !LeftUnanswered(cfg, st.Mem(), st.validationFailureRounds, allowed, calls, tools)
  {
    if ValidationRaises(cfg.rules, calls, allowed) {
      assert calls[0].id in CallIds(calls);
      OpenRoundSettled(st.window, CallIds(calls));
    } else {
      PartitionKeepsIds(cfg.rules, calls, allowed);
      if ValidCalls(cfg.rules, calls, allowed) == [] {
        RefusedCallsPaired(cfg, st, revision, allowed, calls, tools);
      } else {
        CheckedCallsPaired(cfg, st, revision, allowed, calls, tools);
      }
    }
  }

  lemma ToolRoundPaired(cfg: Config, st: RunState, revision: Option<Revision>, allowed: set<string>,
                        draft: Option<string>, calls: seq<ToolCall>, tools: ToolsInput)
    requires WellPaired(st.window) && calls != []
    ensures WellPaired(ToolRound(cfg, st, revision, allowed, draft, calls, tools).st.window)
            <==> !RoundLeftOpen(cfg, st, allowed, draft, calls, tools)
  {
    if !StopsEarly(cfg, st, calls) {
      WriteOpens(cfg.budget, st.Mem(), Assistant(draft, calls));
      if Opens(cfg, st, draft, calls) {
        AnswerCallsPaired(cfg, RoundOpened(cfg, st, draft, calls), revision, allowed, calls, tools);
      } else {
        assert calls[0].id in CallIds(calls);
        OpenRoundSettled(RoundOpened(cfg, st, draft, calls).window, CallIds(calls));
      }
    }
  }

  predicate CountableButLast(b: Budget, ms: seq<Message>) {
    ms != [] ==> AllCountable(b, ms[..|ms| - 1])
  }

  lemma ExactCutsShort(b: Budget, mem: Memory, ms: seq<Message>)
    requires Exact(b, mem)
    ensures CutShort(b, mem, ms) <==> !CountableButLast(b, ms)
  {
    if ms != [] {
      ExactAddsAll(b, mem, ms[..|ms| - 1]);
    }
  }

  /** While no count has raised before, the condition is one on the messages: every call, refusal and
      answer can be counted, but for the last of them. */
  lemma RoundLeftOpenOfExact(cfg: Config, st: RunState, allowed: set<string>, draft: Option<string>, calls: seq<ToolCall>, tools: ToolsInput)
    requires Exact(cfg.budget, st.Mem()) && !StopsEarly(cfg, st, calls)
    ensures var refusals, valid := ViolationMessages(Violations(cfg.rules, calls, allowed)), ValidCalls(cfg.rules, calls, allowed);
            RoundLeftOpen(cfg, st, allowed, draft, calls, tools) <==>
              || !cfg.budget.countable(Assistant(draft, calls))
              || ValidationRaises(cfg.rules, calls, allowed)
              || if valid == [] then !CountableButLast(cfg.budget, refusals)
                 else || !AllCountable(cfg.budget, refusals)
                      || (refusals != [] && ValidationExhausted(cfg.policy, st.validationFailureRounds + 1))
                      || !tools.ToolsRun?
                      || !CountableButLast(cfg.budget, RoundAnswers(cfg, valid, tools.behave))
  {
    var refusals, valid := ViolationMessages(Violations(cfg.rules, calls, allowed)), ValidCalls(cfg.rules, calls, allowed);
    ExactAdds(cfg.budget, st.Mem(), Assistant(draft, calls));
    var asked := AddTo(cfg.budget, st.Mem(), Assistant(draft, calls));
    if !asked.raised {
      ExactCutsShort(cfg.budget, asked.memory, refusals);
      ExactAddsAll(cfg.budget, asked.memory, refusals);
      var fed := AddAll(cfg.budget, asked.memory, refusals);
      if !fed.raised && tools.ToolsRun? {
        ExactCutsShort(cfg.budget, fed.memory, RoundAnswers(cfg, valid, tools.behave));
      }
    }
  }

  // ---- Whole runs ------------------------------------------------------------------------------

  /** This pass writes calls that stay unanswered. */
  predicate LeavesOpen(cfg: Config, st: RunState, input: StepInput) {
    && !StepsExhausted(cfg.policy, st.stepCount) && st.window != []
    && input.route.Routed? && input.llm.Replied? && input.llm.calls != []
    && RoundLeftOpen(cfg, st, NameSet(input.route.names), input.llm.draft, input.llm.calls, input.tools)
  }

  ghost predicate PairedLogs(log: Log) {
    (forall c | c in log.requests :: WellPaired(c)) && (forall c | c in log.reviews :: WellPaired(c))
  }

  /** The memory's system slot holds a system message, if anything. */
  predicate SystemSlot(b: Budget) {
    b.system.Some? ==> b.system.value.System?
  }

  lemma ContextPaired(b: Budget, window: seq<Message>)
    requires SystemSlot(b) && WellPaired(window)
    ensures WellPaired(Context(b, window))
  {
    var context := Context(b, window);
    if b.system.Some? {
      assert context[1..] == window;
    } else {
      assert context == window;
    }
  }

  lemma RequestPaired(cfg: Config, window: seq<Message>, revision: Option<Revision>)
    requires SystemSlot(cfg.budget) && WellPaired(window)
    ensures WellPaired(RequestMessages(cfg, window, revision))
  {
    var context := Context(cfg.budget, window);
    ContextPaired(cfg.budget, window);
    if cfg.plan.Some? {
      InsertSystemPaired(context, cfg.plan.value.context);
    }
    if revision.Some? {
      InsertSystemPaired(if cfg.plan.Some? then InsertSystem(context, cfg.plan.value.context) else context,
                         cfg.payload(revision.value));
    }
  }

  lemma JudgePaired(cfg: Config, st: RunState, revision: Option<Revision>, draft: string, critic: CriticInput)
    requires SystemSlot(cfg.budget) && WellPaired(st.window) && PairedLogs(st.log)
    ensures var r := Judge(cfg, st, revision, draft, critic);
            WellPaired(r.st.window) && PairedLogs(r.st.log)
  {
    ContextPaired(cfg.budget, st.window);
    if critic.Accept? {
      WriteKeepsPaired(cfg.budget, st.Mem(), Assistant(Some(draft), []));
    }
  }

  lemma ReviewDraftPaired(cfg: Config, st: RunState, revision: Option<Revision>, draft: Option<string>, critic: CriticInput)
    requires SystemSlot(cfg.budget) && WellPaired(st.window) && PairedLogs(st.log)
    ensures var r := ReviewDraft(cfg, st, revision, draft, critic);
            WellPaired(r.st.window) && PairedLogs(r.st.log)
  {
    if draft.Some? {
      WriteKeepsPaired(cfg.budget, st.Mem(), Assistant(draft, []));
      JudgePaired(cfg, st, revision, draft.value, critic);
    }
  }

  lemma AskModelPaired(cfg: Config, st: RunState, revision: Option<Revision>, allowed: set<string>, input: StepInput)
    requires SystemSlot(cfg.budget) && WellPaired(st.window) && PairedLogs(st.log)
    ensures var r := AskModel(cfg, st, revision, allowed, input);
            PairedLogs(r.st.log)
            && (WellPaired(r.st.window) <==>
                !(input.llm.Replied? && input.llm.calls != [] && RoundLeftOpen(cfg, st, allowed, input.llm.draft, input.llm.calls, input.tools)))
  {
    TokensOnlyEmit(cfg, st, input.llm.tokens);
    if input.llm.Replied? {
      RepliedShape(cfg, st, input.llm);
      var replied := RepliedState(cfg, st, input.llm);
      if input.llm.calls != [] {
        ToolRoundPaired(cfg, replied, revision, allowed, input.llm.draft, input.llm.calls, input.tools);
        ToolRoundShape(cfg, replied, revision, allowed, input.llm.draft, input.llm.calls, input.tools);
      } else {
        ReviewDraftPaired(cfg, replied, revision, input.llm.draft, input.critic);
      }
    }
  }

  lemma StepPaired(cfg: Config, st: RunState, revision: Option<Revision>, input: StepInput)
    requires SystemSlot(cfg.budget) && WellPaired(st.window) && PairedLogs(st.log)
    ensures var r := RunStep(cfg, st, revision, input);
            PairedLogs(r.st.log) && (WellPaired(r.st.window) <==> !LeavesOpen(cfg, st, input))
  {
    if !StepsExhausted(cfg.policy, st.stepCount) && st.window != [] && input.route.Routed? {
      RequestPaired(cfg, st.window, revision);
      AskModelPaired(cfg, SendRequest(cfg, Asked(cfg, st, revision), revision), revision, NameSet(input.route.names), input);
    }
  }

  /** Some pass of the run leaves calls open; it is then the last one. */
  predicate RunLeavesOpen(cfg: Config, st: RunState, revision: Option<Revision>, inputs: nat -> StepInput, i: nat)
    decreases PassesLeft(cfg, st)
  {
    !IsTerminal(st.status) &&
    (LeavesOpen(cfg, st, inputs(i)) ||
     var r := RunStep(cfg, st, revision, inputs(i));
     r.exit == Returned &&
     (StepUsesPass(cfg, st, revision, inputs(i));
      RunLeavesOpen(cfg, r.st, r.revision, inputs, i + 1)))
  }

  lemma CutShortEscapes(cfg: Config, st: RunState, revision: Option<Revision>, valid: seq<ToolCall>, tools: ToolsInput)
    requires !st.log.refused && (tools.ToolsRun? ==> CutShort(cfg.budget, st.Mem(), RoundAnswers(cfg, valid, tools.behave)))
    ensures ExecuteRound(cfg, st, revision, valid, tools).exit != Returned
  {
    if tools.ToolsRun? && ExecuteCalls(cfg.enabled, cfg.rules, valid, tools.behave).Some? {
      RecordResultsAdds(cfg, st.(log := st.log.(roundSize := |valid|)),
                        ExecuteCalls(cfg.enabled, cfg.rules, valid, tools.behave).value);
    }
  }

  lemma AnswerEndsOpen(cfg: Config, st: RunState, revision: Option<Revision>, allowed: set<string>,
                       calls: seq<ToolCall>, tools: ToolsInput)
    requires st.status == AwaitingTool && !st.log.refused
    requires LeftUnanswered(cfg, st.Mem(), st.validationFailureRounds, allowed, calls, tools)
    ensures var r := AnswerCalls(cfg, st, revision, allowed, calls, tools);
            IsTerminal(r.st.status) || r.exit != Returned
  {
    var vs, valid := Violations(cfg.rules, calls, allowed), ValidCalls(cfg.rules, calls, allowed);
    var fed := FeedViolations(cfg, st, vs);
    FeedViolationsAdds(cfg, st, vs);
    FeedViolationsShape(cfg, st, vs);
    if !ValidationRaises(cfg.rules, calls, allowed) && !fed.log.refused && !IsTerminal(fed.status) {
      CutShortEscapes(cfg, fed, revision, valid, tools);
    }
  }

  lemma OpenEndsTheRun(cfg: Config, st: RunState, revision: Option<Revision>, input: StepInput)
    requires LeavesOpen(cfg, st, input)
    ensures var r := RunStep(cfg, st, revision, input);
            IsTerminal(r.st.status) || r.exit != Returned
  {
    var sent := SendRequest(cfg, Asked(cfg, st, revision), revision);
    RepliedShape(cfg, sent, input.llm);
    var replied := RepliedState(cfg, sent, input.llm);
    if Opens(cfg, replied, input.llm.draft, input.llm.calls) {
      AnswerEndsOpen(cfg, RoundOpened(cfg, replied, input.llm.draft, input.llm.calls), revision, NameSet(input.route.names),
                     input.llm.calls, input.tools);
    }
  }

  /** Main result: every context sent to the model or to the critic is well paired, and the window
      the run leaves behind is well paired exactly when no pass left calls unanswered. */
  lemma {:induction false} LoopPaired(cfg: Config, st: RunState, revision: Option<Revision>, inputs: nat -> StepInput, i: nat)
    requires SystemSlot(cfg.budget) && WellPaired(st.window) && PairedLogs(st.log)
    ensures var r := RunLoop(cfg, st, revision, inputs, i);
            PairedLogs(r.st.log) && (WellPaired(r.st.window) <==> !RunLeavesOpen(cfg, st, revision, inputs, i))
    decreases PassesLeft(cfg, st)
  {
    if !IsTerminal(st.status) {
      StepPaired(cfg, st, revision, inputs(i));
      var r := RunStep(cfg, st, revision, inputs(i));
      if r.exit == Returned {
        StepUsesPass(cfg, st, revision, inputs(i));
        if LeavesOpen(cfg, st, inputs(i)) {
          OpenEndsTheRun(cfg, st, revision, inputs(i));
        } else {
          LoopPaired(cfg, r.st, r.revision, inputs, i + 1);
        }
      }
    }
  }

  /** The passes of a run, by how its planning went. */
  predicate LeavesCallsUnanswered(cfg: Config, mem: Memory, prompt: Option<string>, userInput: string,
                                  planning: PlanInput, inputs: nat -> StepInput)
  {
    var launched := Launched(cfg, mem, prompt, userInput, planning);
    launched.Some? && RunLeavesOpen(launched.value.cfg, launched.value.st, None, inputs, 0)
  }

  lemma BeginPaired(b: Budget, mem: Memory, prompt: Option<string>, userInput: string)
    requires WellPaired(mem.messages)
    ensures var told := Begin(b, mem, prompt, userInput); WellPaired(told.window) && PairedLogs(told.log)
  {
    if prompt.Some? && prompt.value != "" && mem.messages == [] {
      WriteKeepsPaired(b, mem, System(prompt.value));
      WriteKeepsPaired(b, AddTo(b, mem, System(prompt.value)).memory, User(userInput));
    } else {
      WriteKeepsPaired(b, mem, User(userInput));
    }
  }

  lemma RunIsPaired(cfg: Config, mem: Memory, prompt: Option<string>, userInput: string,
                    planning: PlanInput, inputs: nat -> StepInput)
    requires SystemSlot(cfg.budget) && WellPaired(mem.messages)
    ensures var r := Run(cfg, mem, prompt, userInput, planning, inputs);
            PairedLogs(r.st.log)
            && (WellPaired(r.st.window) <==> !LeavesCallsUnanswered(cfg, mem, prompt, userInput, planning, inputs))
  {
    var told, launched := Begin(cfg.budget, mem, prompt, userInput), Launched(cfg, mem, prompt, userInput, planning);
    BeginPaired(cfg.budget, mem, prompt, userInput);
    RunIsLaunched(cfg, mem, prompt, userInput, planning, inputs);
    if launched.Some? {
      assert launched.value.st.window == told.window && launched.value.st.log == told.log;
      LoopPaired(launched.value.cfg, launched.value.st, None, inputs, 0);
    }
  }

}
