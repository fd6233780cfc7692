/** What a run shows of itself: the events and the steps of each pass, and whom a failure is blamed on. */
module RunEvents {
  import opened Messages
  import opened Validator
  import opened Executor
  import opened RunSpec
  import opened Runs
  import opened RunContent
  import opened RoundContent

  // ---- Tool steps ------------------------------------------------------------------------------

  function ToolSteps(first: nat, n: nat): seq<Step> {
    seq(n, j requires 0 <= j < n => Step(first + j, ToolExec))
  }

  /** An event per recorded result, each with the count of steps behind it. */
  function ToolEvents(first: nat, n: nat): seq<Event> {
    seq(n, j requires 0 <= j < n => ToolResponse(first + 1 + j))
  }

  /** Each result takes a step, and then shows up unless its write raised. */
  ghost predicate ShowsResults(st: RunState, n: nat, r: RunState) {
    && r.stepCount == st.stepCount + n && r.steps == st.steps + ToolSteps(st.stepCount, n)
    && if r.log.refused && n > 0 then r.events == st.events + ToolEvents(st.stepCount, n - 1)
       else r.events == st.events + ToolEvents(st.stepCount, n)
  }

  lemma NothingShown(st: RunState, r: RunState)
    requires r.stepCount == st.stepCount && r.steps == st.steps && r.events == st.events
    ensures ShowsResults(st, 0, r)
  {
    assert st.steps + [] == st.steps && st.events + [] == st.events;
  }

  lemma OneMoreResult(st: RunState, n: nat, before: RunState, r: RunState)
    requires ShowsResults(st, n, before) && !before.log.refused
    requires r.stepCount == before.stepCount + 1 && r.steps == before.steps + [Step(before.stepCount, ToolExec)]
    requires r.events == if r.log.refused then before.events else before.events + [ToolResponse(before.stepCount + 1)]
    ensures ShowsResults(st, n + 1, r)
  {
    assert ToolSteps(st.stepCount, n + 1) == ToolSteps(st.stepCount, n) + [Step(st.stepCount + n, ToolExec)];
    assert ToolEvents(st.stepCount, n + 1) == ToolEvents(st.stepCount, n) + [ToolResponse(st.stepCount + 1 + n)];
  }

  lemma OneRecordShows(cfg: Config, st: RunState, result: ToolResult)
    requires result.call.fn.Some?
    ensures var r := RecordResult(cfg, st, result);
      && r.stepCount == st.stepCount + 1 && r.steps == st.steps + [Step(st.stepCount, ToolExec)]
      && r.events == if r.log.refused then st.events else st.events + [ToolResponse(st.stepCount + 1)]
  {
  }

  lemma OneMoreShows(cfg: Config, st: RunState, n: nat, before: RunState, result: ToolResult)
    requires ShowsResults(st, n, before) && !before.log.refused && result.call.fn.Some?
    ensures ShowsResults(st, n + 1, RecordResult(cfg, before, result))
  {
    OneRecordShows(cfg, before, result);
    OneMoreResult(st, n, before, RecordResult(cfg, before, result));
  }

  lemma RecordsInTurn(cfg: Config, st: RunState, results: seq<ToolResult>)
    requires HaveFunctions(results) && results != []
    ensures HaveFunctions(results[..|results| - 1]) && results[|results| - 1].call.fn.Some?
    ensures var before := RecordResults(cfg, st, results[..|results| - 1]);
      RecordResults(cfg, st, results) == if before.log.refused then before else RecordResult(cfg, before, results[|results| - 1])
  {
    assert results[|results| - 1] in results;
  }

  lemma {:induction false} RecordingShows(cfg: Config, st: RunState, results: seq<ToolResult>) returns (n: nat)
    requires HaveFunctions(results) && !st.log.refused
    ensures n <= |results| && ShowsResults(st, n, RecordResults(cfg, st, results))
    ensures !RecordResults(cfg, st, results).log.refused ==> n == |results|
  {
    if results == [] {
      n := 0;
      NothingShown(st, st);
    } else {
      RecordsInTurn(cfg, st, results);
      var before := RecordResults(cfg, st, results[..|results| - 1]);
      n := RecordingShows(cfg, st, results[..|results| - 1]);
      if !before.log.refused {
        OneMoreShows(cfg, st, n, before, results[|results| - 1]);
        n := n + 1;
      }
    }
  }

  lemma ExecutionShows(cfg: Config, st: RunState, revision: Option<Revision>, valid: seq<ToolCall>, allowed: set<string>, tools: ToolsInput)
    returns (n: nat)
    requires (forall c | c in valid :: Executable(cfg.rules, c, allowed)) && !st.log.refused
    ensures var r := ExecuteRound(cfg, st, revision, valid, tools).st;
      && n <= |valid| && ShowsResults(st, n, r) && (!tools.ToolsRun? ==> n == 0) && (tools.ToolsRun? && !r.log.refused ==> n == |valid|)
  {
    n := 0;
    if tools.ToolsRun? {
      ResultsSay(cfg, valid, allowed, tools.behave);
      var begun := st.(log := st.log.(roundSize := |valid|));
      n := RecordingShows(cfg, begun, ExecuteCalls(cfg.enabled, cfg.rules, valid, tools.behave).value);
    } else {
      assert st.steps + [] == st.steps && st.events + [] == st.events;
    }
  }

  lemma FeedingShows(cfg: Config, st: RunState, vs: seq<Violation>)
    ensures var r := FeedViolations(cfg, st, vs); r.stepCount == st.stepCount && r.steps == st.steps && r.events == st.events
  {
    WriteAllShape(cfg.budget, st.(validationFailureRounds := st.validationFailureRounds + 1), ViolationMessages(vs));
  }

  lemma ShownFrom(a: RunState, b: RunState, n: nat, r: RunState)
    requires b.stepCount == a.stepCount && b.steps == a.steps && b.events == a.events && ShowsResults(b, n, r)
    ensures ShowsResults(a, n, r)
  {
  }

  lemma AnsweringShows(cfg: Config, st: RunState, revision: Option<Revision>, allowed: set<string>, calls: seq<ToolCall>, tools: ToolsInput)
    returns (n: nat)
    requires st.status == AwaitingTool && !st.log.refused
    ensures var r := AnswerCalls(cfg, st, revision, allowed, calls, tools).st;
      && ShowsResults(st, n, r) && n <= |ValidCalls(cfg.rules, calls, allowed)|
      && (!RunsTools(cfg, st, allowed, calls, tools) || ValidationRaises(cfg.rules, calls, allowed) ==> n == 0)
      && (RunsTools(cfg, st, allowed, calls, tools) && !ValidationRaises(cfg.rules, calls, allowed) && !r.log.refused ==>
            n == |ValidCalls(cfg.rules, calls, allowed)|)
  {
    var vs, valid := Violations(cfg.rules, calls, allowed), ValidCalls(cfg.rules, calls, allowed);
    var fed, r := FeedViolations(cfg, st, vs), AnswerCalls(cfg, st, revision, allowed, calls, tools).st;
    n := 0;
    if ValidationRaises(cfg.rules, calls, allowed) {
      NothingShown(st, r);
    } else {
      FeedingShows(cfg, st, vs);
      AnsweredBy(cfg, st, revision, allowed, calls, tools);
      if !fed.log.refused && valid != [] && !TooManyRefusals(cfg, st, allowed, calls) {
        n := ExecutionShows(cfg, fed, revision, valid, allowed, tools);
        ShownFrom(st, fed, n, r);
      } else {
        NothingShown(st, r);
      }
    }
  }

  lemma RoundShows(cfg: Config, st: RunState, revision: Option<Revision>, allowed: set<string>, draft: Option<string>, calls: seq<ToolCall>, tools: ToolsInput)
    returns (n: nat)
    ensures ShowsResults(st, n, ToolRound(cfg, st, revision, allowed, draft, calls, tools).st)
    ensures n <= |ValidCalls(cfg.rules, calls, allowed)| && (n > 0 ==> RunsTools(cfg, st, allowed, calls, tools))
  {
    var r := ToolRound(cfg, st, revision, allowed, draft, calls, tools).st;
    if Opens(cfg, st, draft, calls) {
      var asked := RoundOpened(cfg, st, draft, calls);
      n := AnsweringShows(cfg, asked, revision, allowed, calls, tools);
      ShownFrom(st, asked, n, r);
    } else {
      n := 0;
      NothingShown(st, r);
    }
  }

  // ---- A pass ----------------------------------------------------------------------------------

  function TokenEvents(step: nat, tokens: seq<string>): seq<Event> {
    seq(|tokens|, j requires 0 <= j < |tokens| => LlmToken(step, Some(tokens[j])))
  }

  /** What a pass shows up to the model's reply: routing, request, the tokens unless a critic is to see the
      draft first, and the reply if there is one. */
  function EventsBeforeReview(cfg: Config, head: Head, input: StepInput): seq<Event> {
    var k := head.st.stepCount;
    if !Sends(cfg, head, input) then []
    else
      [ToolRouting(k), LlmRequest(k)]
      + (if cfg.hasCritic then [] else TokenEvents(k, input.llm.tokens))
      + (if input.llm.Replied? && input.llm.streamed && input.llm.calls != [] && !cfg.hasCritic then [LlmToken(k, None)] else [])
      + if input.llm.Replied? then [LlmResponse(k)] else []
  }

  /** The critic has come to a decision. */
  predicate IsJudged(cfg: Config, head: Head, input: StepInput) {
    IsReviewed(cfg, head, input) && (input.critic.Accept? || input.critic.Revise?)
  }

  /** The events and steps of one pass; `n` is the number of tool results it recorded. */
  ghost predicate Shows(cfg: Config, head: Head, input: StepInput, n: nat, r: RunState) {
    var k, st := head.st.stepCount, head.st;
    if !Sends(cfg, head, input) || !input.llm.Replied? then
      n == 0 && r.events == st.events + EventsBeforeReview(cfg, head, input) && r.steps == st.steps
    else if input.llm.calls != [] then
      && r.steps == st.steps + [Step(k, LlmCall)] + ToolSteps(k + 1, n)
      && r.events == st.events + EventsBeforeReview(cfg, head, input) + ToolEvents(k + 1, if r.log.refused && n > 0 then n - 1 else n)
    else
      && n == 0
      && r.steps == st.steps + [Step(k, LlmCall)] + (if IsReviewed(cfg, head, input) then [Step(k + 1, Critique)] else [])
      && r.events == st.events + EventsBeforeReview(cfg, head, input) + if IsJudged(cfg, head, input) then [CritiqueCompleted(k + 1)] else []
  }

  lemma {:induction false} TokensShow(cfg: Config, st: RunState, tokens: seq<string>)
    ensures st.EmitTokens(cfg, tokens).events == st.events + (if cfg.hasCritic then [] else TokenEvents(st.stepCount, tokens))
    ensures st.EmitTokens(cfg, tokens).(events := st.events) == st
  {
    TokensOnlyEmit(cfg, st, tokens);
    if !cfg.hasCritic && tokens != [] {
      var before := tokens[..|tokens| - 1];
      TokensShow(cfg, st, before);
      assert TokenEvents(st.stepCount, tokens) == TokenEvents(st.stepCount, before) + [LlmToken(st.stepCount, Some(tokens[|before|]))];
    }
  }

  lemma SentShows(cfg: Config, head: Head, input: StepInput)
    requires Sends(cfg, head, input)
    ensures var sent := SendRequest(cfg, Asked(cfg, head.st, head.revision), head.revision);
      && sent.events == head.st.events + [ToolRouting(head.st.stepCount), LlmRequest(head.st.stepCount)]
      && sent.steps == head.st.steps && sent.stepCount == head.st.stepCount
      && sent.EmitTokens(cfg, input.llm.tokens).events
         == head.st.events + ([ToolRouting(head.st.stepCount), LlmRequest(head.st.stepCount)]
                              + if cfg.hasCritic then [] else TokenEvents(head.st.stepCount, input.llm.tokens))
  {
    TokensShow(cfg, SendRequest(cfg, Asked(cfg, head.st, head.revision), head.revision), input.llm.tokens);
  }

  lemma RepliedShows(cfg: Config, head: Head, input: StepInput)
    requires Sends(cfg, head, input) && input.llm.Replied?
    ensures var replied := RepliedState(cfg, SendRequest(cfg, Asked(cfg, head.st, head.revision), head.revision), input.llm);
      && replied.events == head.st.events + EventsBeforeReview(cfg, head, input)
      && replied.steps == head.st.steps + [Step(head.st.stepCount, LlmCall)] && replied.stepCount == head.st.stepCount + 1
  {
    var sent := SendRequest(cfg, Asked(cfg, head.st, head.revision), head.revision);
    SentShows(cfg, head, input);
    RepliedShape(cfg, sent, input.llm);
    TokensOnlyEmit(cfg, sent, input.llm.tokens);
  }

  lemma ReviewShows(cfg: Config, head: Head, input: StepInput, st: RunState)
    requires Sends(cfg, head, input) && input.llm.Replied? && input.llm.calls == [] && st.stepCount == head.st.stepCount + 1
    ensures var r := ReviewDraft(cfg, st, head.revision, input.llm.draft, input.critic).st;
      && r.steps == st.steps + (if IsReviewed(cfg, head, input) then [Step(st.stepCount, Critique)] else [])
      && r.events == st.events + if IsJudged(cfg, head, input) then [CritiqueCompleted(st.stepCount)] else []
  {
    assert st.steps + [] == st.steps && st.events + [] == st.events;
  }

  lemma PartialShows(cfg: Config, head: Head, input: StepInput)
    requires Sends(cfg, head, input) && !input.llm.Replied?
    ensures EventsBeforeReview(cfg, head, input)
      == [ToolRouting(head.st.stepCount), LlmRequest(head.st.stepCount)] + if cfg.hasCritic then [] else TokenEvents(head.st.stepCount, input.llm.tokens)
  {
  }

  lemma CallsShow(cfg: Config, head: Head, input: StepInput) returns (n: nat)
    requires Calls(cfg, head, input)
    ensures Shows(cfg, head, input, n, RunStep(cfg, head.st, head.revision, input).st)
    ensures n <= |ValidCalls(cfg.rules, input.llm.calls, NameSet(input.route.names))|
  {
    RepliedShows(cfg, head, input);
    var replied := RepliedState(cfg, SendRequest(cfg, Asked(cfg, head.st, head.revision), head.revision), input.llm);
    n := RoundShows(cfg, replied, head.revision, NameSet(input.route.names), input.llm.draft, input.llm.calls, input.tools);
  }

  lemma DraftShows(cfg: Config, head: Head, input: StepInput)
    requires Sends(cfg, head, input) && input.llm.Replied? && input.llm.calls == []
    ensures Shows(cfg, head, input, 0, RunStep(cfg, head.st, head.revision, input).st)
  {
    RepliedShows(cfg, head, input);
    ReviewShows(cfg, head, input, RepliedState(cfg, SendRequest(cfg, Asked(cfg, head.st, head.revision), head.revision), input.llm));
  }

  lemma FailureShows(cfg: Config, head: Head, input: StepInput)
    requires Sends(cfg, head, input) && !input.llm.Replied?
    ensures Shows(cfg, head, input, 0, RunStep(cfg, head.st, head.revision, input).st)
  {
    SentShows(cfg, head, input);
    TokensShow(cfg, SendRequest(cfg, Asked(cfg, head.st, head.revision), head.revision), input.llm.tokens);
    PartialShows(cfg, head, input);
  }

  /** Main result for one pass: its events and steps, in order and under the right numbers. */
  lemma StepShows(cfg: Config, head: Head, input: StepInput) returns (n: nat)
    ensures Shows(cfg, head, input, n, RunStep(cfg, head.st, head.revision, input).st)
    ensures n > 0 ==> Calls(cfg, head, input) && n <= |ValidCalls(cfg.rules, input.llm.calls, NameSet(input.route.names))|
  {
    n := 0;
    if Calls(cfg, head, input) {
      n := CallsShow(cfg, head, input);
    } else if Sends(cfg, head, input) && input.llm.Replied? {
      DraftShows(cfg, head, input);
    } else if Sends(cfg, head, input) {
      FailureShows(cfg, head, input);
    } else {
      assert head.st.events + [] == head.st.events;
    }
  }

  // ---- Failures --------------------------------------------------------------------------------

  /** Whose fault it is that this pass failed. */
  ghost predicate IsToBlame(cfg: Config, head: Head, input: StepInput, source: Source) {
    match source
    case FromRouter => Asks(cfg, head) && input.route.RouteAgentError?
    case FromLlm =>
      Sends(cfg, head, input)
      && (input.llm.LlmAgentError? || input.llm.LlmOtherError?
          || (input.llm.Replied? && input.llm.calls == [] && (input.llm.draft.None? || cfg.blank(input.llm.draft.value))))
    case FromTool => Calls(cfg, head, input) && !input.tools.ToolsCanceled?
    case FromCritic =>
      IsReviewed(cfg, head, input)
      && (input.critic.CriticAgentError? || input.critic.CriticOtherError? || input.critic == Revise(None))
    case FromPlanner => false
    case FromRuntime => false
  }

  lemma ReviewBlames(cfg: Config, head: Head, input: StepInput, st: RunState)
    requires Sends(cfg, head, input) && input.llm.Replied? && input.llm.calls == [] && !IsTerminal(st.status) && st.stepCount == head.st.stepCount + 1
    ensures var r := ReviewDraft(cfg, st, head.revision, input.llm.draft, input.critic).st;
      r.status == Failed ==> r.errorSource.Some? && IsToBlame(cfg, head, input, r.errorSource.value)
  {
  }

  lemma ExecutionBlames(cfg: Config, st: RunState, revision: Option<Revision>, valid: seq<ToolCall>, tools: ToolsInput)
    requires st.status == AwaitingTool
    ensures var r := ExecuteRound(cfg, st, revision, valid, tools).st;
      r.status == Failed ==> r.errorSource == Some(FromTool) && !tools.ToolsCanceled?
  {
    if tools.ToolsRun? && ExecuteCalls(cfg.enabled, cfg.rules, valid, tools.behave).Some? {
      RecordResultsShape(cfg, st.(log := st.log.(roundSize := |valid|)), ExecuteCalls(cfg.enabled, cfg.rules, valid, tools.behave).value);
    }
  }

  lemma RoundBlames(cfg: Config, st: RunState, revision: Option<Revision>, allowed: set<string>, draft: Option<string>, calls: seq<ToolCall>, tools: ToolsInput)
    requires !IsTerminal(st.status)
    ensures var r := ToolRound(cfg, st, revision, allowed, draft, calls, tools).st;
      r.status == Failed ==> r.errorSource == Some(FromTool) && !tools.ToolsCanceled?
  {
    if Opens(cfg, st, draft, calls) && !ValidationRaises(cfg.rules, calls, allowed) {
      var asked := RoundOpened(cfg, st, draft, calls);
      var fed := FeedViolations(cfg, asked, Violations(cfg.rules, calls, allowed));
      FeedViolationsShape(cfg, asked, Violations(cfg.rules, calls, allowed));
      if fed.status == AwaitingTool {
        ExecutionBlames(cfg, fed, revision, ValidCalls(cfg.rules, calls, allowed), tools);
      }
    }
  }

  /** A pass that fails blames the party whose input made it fail. */
  lemma StepBlames(cfg: Config, head: Head, input: StepInput)
    requires !IsTerminal(head.st.status)
    ensures var r := RunStep(cfg, head.st, head.revision, input).st;
      r.status == Failed ==> r.errorSource.Some? && IsToBlame(cfg, head, input, r.errorSource.value)
  {
    if Sends(cfg, head, input) {
      var sent := SendRequest(cfg, Asked(cfg, head.st, head.revision), head.revision);
      TokensOnlyEmit(cfg, sent, input.llm.tokens);
      if input.llm.Replied? {
        RepliedShape(cfg, sent, input.llm);
        var replied := RepliedState(cfg, sent, input.llm);
        if input.llm.calls != [] {
          RoundBlames(cfg, replied, head.revision, NameSet(input.route.names), input.llm.draft, input.llm.calls, input.tools);
        } else {
          ReviewBlames(cfg, head, input, replied);
        }
      }
    }
  }
}
