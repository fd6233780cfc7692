/** What a run asks, sends, has reviewed, turns down and answers, said pass by pass from its inputs. */
module RunContent {
  import opened Messages
  import opened ShortTerm
  import opened Validator
  import opened Executor
  import opened RunSpec
  import opened Runs

  // ---- What a pass should say ------------------------------------------------------------------

  /** The pass gets as far as to ask the router. */
  predicate Asks(cfg: Config, head: Head) {
    head.st.stepCount < cfg.policy.maxSteps && head.st.window != []
  }

  /** The model is asked. */
  predicate Sends(cfg: Config, head: Head, input: StepInput) {
    Asks(cfg, head) && input.route.Routed?
  }

  /** The model answers with a draft that is not blank. */
  predicate Drafts(cfg: Config, head: Head, input: StepInput) {
    && Sends(cfg, head, input) && input.llm.Replied? && input.llm.calls == []
    && input.llm.draft.Some? && !cfg.blank(input.llm.draft.value)
  }

  /** The critic gets to see the draft, for which there is a step left. */
  predicate IsReviewed(cfg: Config, head: Head, input: StepInput) {
    Drafts(cfg, head, input) && cfg.hasCritic && head.st.stepCount + 1 < cfg.policy.maxSteps
  }

  predicate IsRejected(cfg: Config, head: Head, input: StepInput) {
    IsReviewed(cfg, head, input) && input.critic.Revise?
  }

  /** The draft is the answer: accepted, or without a critic to ask. */
  predicate IsAccepted(cfg: Config, head: Head, input: StepInput) {
    if cfg.hasCritic then IsReviewed(cfg, head, input) && input.critic.Accept? else Drafts(cfg, head, input)
  }

  function TextOf(m: Message): string {
    match m
    case System(content) => content
    case User(content) => content
    case Assistant(draft, _) => if draft.Some? then draft.value else ""
    case Tool(_, _, content) => content
  }

  /** The routing query: a pending revision's feedback, else the plan's query, else the newest message. */
  function QueryOf(cfg: Config, head: Head): string
    requires head.st.window != []
  {
    if head.revision.Some? then head.revision.value.feedback
    else if cfg.plan.Some? then cfg.plan.value.routingQuery
    else TextOf(head.st.window[|head.st.window| - 1])
  }

  /** The system message, if any, and the window. */
  function Conversation(cfg: Config, window: seq<Message>): seq<Message> {
    if cfg.budget.system.Some? then [cfg.budget.system.value] + window else window
  }

  /** How many system messages come first. */
  function Leading(ms: seq<Message>): (n: nat)
    ensures n <= |ms| && (forall i | 0 <= i < n :: ms[i].System?) && (n < |ms| ==> !ms[n].System?)
  {
    if ms != [] && ms[0].System? then 1 + Leading(ms[1..]) else 0
  }

  /** The conversation, with the plan and then the pending revision behind its leading system messages. */
  function RequestOf(cfg: Config, head: Head): seq<Message> {
    var all := Conversation(cfg, head.st.window);
    var n := Leading(all);
    all[..n]
    + (if cfg.plan.Some? then [System(cfg.plan.value.context)] else [])
    + (if head.revision.Some? then [System(cfg.payload(head.revision.value))] else [])
    + all[n..]
  }

  function NoteOf(input: StepInput): Revision
    requires input.llm.Replied? && input.llm.draft.Some? && input.critic.Revise?
  {
    Revision(input.llm.draft.value, if input.critic.feedback.Some? then input.critic.feedback.value else "")
  }

  /** A log whose four lists are longer by what one pass says. */
  ghost predicate Says(cfg: Config, head: Head, input: StepInput, log: Log) {
    && log.queries == head.st.log.queries + (if Asks(cfg, head) then [QueryOf(cfg, head)] else [])
    && log.requests == head.st.log.requests + (if Sends(cfg, head, input) then [RequestOf(cfg, head)] else [])
    && log.reviews == head.st.log.reviews + (if IsReviewed(cfg, head, input) then [Conversation(cfg, head.st.window)] else [])
    && log.rejected == head.st.log.rejected + if IsRejected(cfg, head, input) then [NoteOf(input)] else []
  }

  // ---- A pass says it --------------------------------------------------------------------------

  lemma {:induction false} InsertedBehindLeading(ms: seq<Message>, content: string)
    ensures InsertSystem(ms, content) == ms[..Leading(ms)] + [System(content)] + ms[Leading(ms)..]
  {
    if ms != [] && ms[0].System? {
      InsertedBehindLeading(ms[1..], content);
    }
  }

  lemma {:induction false} LeadingOfInserted(front: seq<Message>, rest: seq<Message>)
    requires (forall i | 0 <= i < |front| :: front[i].System?) && (rest != [] ==> !rest[0].System?)
    ensures Leading(front + rest) == |front|
  {
    var n := Leading(front + rest);
    assert forall i | 0 <= i < |front| :: (front + rest)[i] == front[i];
    assert rest != [] ==> (front + rest)[|front|] == rest[0];
  }

  lemma InsertBehind(front: seq<Message>, rest: seq<Message>, content: string)
    requires (forall i | 0 <= i < |front| :: front[i].System?) && (rest != [] ==> !rest[0].System?)
    ensures InsertSystem(front + rest, content) == (front + [System(content)]) + rest
  {
    LeadingOfInserted(front, rest);
    InsertedBehindLeading(front + rest, content);
    assert (front + rest)[..|front|] == front && (front + rest)[|front|..] == rest;
  }

  /** The two insertions, one behind the other. */
  lemma InsertTwo(front: seq<Message>, rest: seq<Message>, first: Option<string>, second: Option<string>)
    requires (forall i | 0 <= i < |front| :: front[i].System?) && (rest != [] ==> !rest[0].System?)
    ensures var once := if first.Some? then InsertSystem(front + rest, first.value) else front + rest;
      (if second.Some? then InsertSystem(once, second.value) else once)
      == front + (if first.Some? then [System(first.value)] else []) + (if second.Some? then [System(second.value)] else []) + rest
  {
    var more := front + if first.Some? then [System(first.value)] else [];
    if first.Some? {
      InsertBehind(front, rest, first.value);
    } else {
      assert more == front;
    }
    if second.Some? {
      InsertBehind(more, rest, second.value);
    } else {
      assert more + [] == more;
    }
  }

  lemma RequestIs(cfg: Config, head: Head)
    ensures RequestMessages(cfg, head.st.window, head.revision) == RequestOf(cfg, head)
  {
    var all := Conversation(cfg, head.st.window);
    var front, rest := all[..Leading(all)], all[Leading(all)..];
    assert Context(cfg.budget, head.st.window) == all == front + rest;
    InsertTwo(front, rest, if cfg.plan.Some? then Some(cfg.plan.value.context) else None,
              if head.revision.Some? then Some(cfg.payload(head.revision.value)) else None);
  }

  lemma SentSays(cfg: Config, head: Head)
    requires head.st.window != []
    ensures var sent := SendRequest(cfg, Asked(cfg, head.st, head.revision), head.revision);
      && sent.log == head.st.log.(queries := head.st.log.queries + [QueryOf(cfg, head)], requests := head.st.log.requests + [RequestOf(cfg, head)])
      && sent.(events := head.st.events, log := head.st.log) == head.st
  {
    RequestIs(cfg, head);
  }

  lemma {:induction false} RecordResultsLog(cfg: Config, st: RunState, results: seq<ToolResult>)
    requires HaveFunctions(results)
    ensures var log := RecordResults(cfg, st, results).log; log.(writes := st.log.writes, refused := st.log.refused) == st.log
  {
    if results != [] {
      RecordResultsLog(cfg, st, results[..|results| - 1]);
    }
  }

  /** A tool round only writes. */
  ghost predicate OnlyWrites(st: RunState, r: RunState) {
    r.log.(writes := st.log.writes, refused := st.log.refused, roundSize := st.log.roundSize) == st.log
  }

  lemma ExecuteRoundOnlyWrites(cfg: Config, st: RunState, revision: Option<Revision>, valid: seq<ToolCall>, tools: ToolsInput)
    ensures OnlyWrites(st, ExecuteRound(cfg, st, revision, valid, tools).st)
  {
    var begun := st.(log := st.log.(roundSize := |valid|));
    if tools.ToolsRun? && ExecuteCalls(cfg.enabled, cfg.rules, valid, tools.behave).Some? {
      RecordResultsLog(cfg, begun, ExecuteCalls(cfg.enabled, cfg.rules, valid, tools.behave).value);
    }
  }

  lemma FeedOnlyWrites(cfg: Config, st: RunState, vs: seq<Violation>)
    ensures OnlyWrites(st, FeedViolations(cfg, st, vs))
  {
    WriteAllShape(cfg.budget, st.(validationFailureRounds := st.validationFailureRounds + 1), ViolationMessages(vs));
  }

  lemma AnswerOnlyWrites(cfg: Config, st: RunState, revision: Option<Revision>, allowed: set<string>, calls: seq<ToolCall>, tools: ToolsInput)
    ensures OnlyWrites(st, AnswerCalls(cfg, st, revision, allowed, calls, tools).st)
  {
    var fed := FeedViolations(cfg, st, Violations(cfg.rules, calls, allowed));
    assert OnlyWrites(st, fed) by {
      FeedOnlyWrites(cfg, st, Violations(cfg.rules, calls, allowed));
    }
    ExecuteRoundOnlyWrites(cfg, fed, revision, ValidCalls(cfg.rules, calls, allowed), tools);
  }

  lemma ToolRoundOnlyWrites(cfg: Config, st: RunState, revision: Option<Revision>, allowed: set<string>,
                        draft: Option<string>, calls: seq<ToolCall>, tools: ToolsInput)
    ensures OnlyWrites(st, ToolRound(cfg, st, revision, allowed, draft, calls, tools).st)
  {
    if Opens(cfg, st, draft, calls) {
      AnswerOnlyWrites(cfg, RoundOpened(cfg, st, draft, calls), revision, allowed, calls, tools);
    }
  }

  lemma ReviewSays(cfg: Config, head: Head, input: StepInput, st: RunState)
    requires Sends(cfg, head, input) && input.llm.Replied? && input.llm.calls == []
    requires st.stepCount == head.st.stepCount + 1 && st.window == head.st.window
    ensures var log := ReviewDraft(cfg, st, head.revision, input.llm.draft, input.critic).st.log;
      && log.queries == st.log.queries && log.requests == st.log.requests
      && log.reviews == st.log.reviews + (if IsReviewed(cfg, head, input) then [Conversation(cfg, head.st.window)] else [])
      && log.rejected == st.log.rejected + if IsRejected(cfg, head, input) then [NoteOf(input)] else []
  {
    assert Context(cfg.budget, st.window) == Conversation(cfg, head.st.window);
  }

  /** The pass behind a reply. */
  lemma RepliedSays(cfg: Config, head: Head, input: StepInput)
    requires Sends(cfg, head, input) && input.llm.Replied?
    ensures Says(cfg, head, input, RunStep(cfg, head.st, head.revision, input).st.log)
  {
    var sent := SendRequest(cfg, Asked(cfg, head.st, head.revision), head.revision);
    SentSays(cfg, head);
    RepliedShape(cfg, sent, input.llm);
    var replied := RepliedState(cfg, sent, input.llm);
    if input.llm.calls != [] {
      ToolRoundOnlyWrites(cfg, replied, head.revision, NameSet(input.route.names), input.llm.draft, input.llm.calls, input.tools);
    } else {
      ReviewSays(cfg, head, input, replied);
    }
  }

  /** Every pass adds to the four lists exactly what it should say. */
  lemma StepSays(cfg: Config, head: Head, input: StepInput)
    ensures Says(cfg, head, input, RunStep(cfg, head.st, head.revision, input).st.log)
  {
    if Sends(cfg, head, input) {
      if input.llm.Replied? {
        RepliedSays(cfg, head, input);
      } else {
        SentSays(cfg, head);
        TokensOnlyEmit(cfg, SendRequest(cfg, Asked(cfg, head.st, head.revision), head.revision), input.llm.tokens);
      }
    }
  }

  // ---- Whole runs ------------------------------------------------------------------------------

  /** The heads of the passes that a run makes from here on. */
  function Heads(cfg: Config, head: Head, inputs: nat -> StepInput, i: nat): seq<Head>
    decreases PassesLeft(cfg, head.st)
  {
    if IsTerminal(head.st.status) then []
    else
      var r := RunStep(cfg, head.st, head.revision, inputs(i));
      if r.exit == Returned then
        StepUsesPass(cfg, head.st, head.revision, inputs(i));
        [head] + Heads(cfg, Head(r.st, r.revision), inputs, i + 1)
      else [head]
  }

  function QueriesOf(cfg: Config, heads: seq<Head>): seq<string> {
    if heads == [] then []
    else (if Asks(cfg, heads[0]) then [QueryOf(cfg, heads[0])] else []) + QueriesOf(cfg, heads[1..])
  }

  function RequestsOf(cfg: Config, heads: seq<Head>, inputs: nat -> StepInput, i: nat): seq<seq<Message>> {
    if heads == [] then []
    else (if Sends(cfg, heads[0], inputs(i)) then [RequestOf(cfg, heads[0])] else []) + RequestsOf(cfg, heads[1..], inputs, i + 1)
  }

  function ReviewsOf(cfg: Config, heads: seq<Head>, inputs: nat -> StepInput, i: nat): seq<seq<Message>> {
    if heads == [] then []
    else
      (if IsReviewed(cfg, heads[0], inputs(i)) then [Conversation(cfg, heads[0].st.window)] else [])
      + ReviewsOf(cfg, heads[1..], inputs, i + 1)
  }

  function NotesOf(cfg: Config, heads: seq<Head>, inputs: nat -> StepInput, i: nat): seq<Revision> {
    if heads == [] then []
    else (if IsRejected(cfg, heads[0], inputs(i)) then [NoteOf(inputs(i))] else []) + NotesOf(cfg, heads[1..], inputs, i + 1)
  }

  /** The four lists grew by what these passes say. */
  ghost predicate AllSaid(cfg: Config, heads: seq<Head>, inputs: nat -> StepInput, i: nat, before: Log, after: Log) {
    && after.queries == before.queries + QueriesOf(cfg, heads)
    && after.requests == before.requests + RequestsOf(cfg, heads, inputs, i)
    && after.reviews == before.reviews + ReviewsOf(cfg, heads, inputs, i)
    && after.rejected == before.rejected + NotesOf(cfg, heads, inputs, i)
  }

  lemma OneMoreSays(cfg: Config, head: Head, rest: seq<Head>, inputs: nat -> StepInput, i: nat, log: Log, after: Log)
    requires Says(cfg, head, inputs(i), log) && AllSaid(cfg, rest, inputs, i + 1, log, after)
    ensures AllSaid(cfg, [head] + rest, inputs, i, head.st.log, after)
  {
    assert ([head] + rest)[1..] == rest;
  }

  lemma {:induction false} LoopSays(cfg: Config, head: Head, inputs: nat -> StepInput, i: nat)
    ensures AllSaid(cfg, Heads(cfg, head, inputs, i), inputs, i, head.st.log, RunLoop(cfg, head.st, head.revision, inputs, i).st.log)
    decreases PassesLeft(cfg, head.st)
  {
    if !IsTerminal(head.st.status) {
      var r := RunStep(cfg, head.st, head.revision, inputs(i));
      StepSays(cfg, head, inputs(i));
      if r.exit == Returned {
        StepUsesPass(cfg, head.st, head.revision, inputs(i));
        LoopSays(cfg, Head(r.st, r.revision), inputs, i + 1);
        OneMoreSays(cfg, head, Heads(cfg, Head(r.st, r.revision), inputs, i + 1), inputs, i, r.st.log,
                    RunLoop(cfg, head.st, head.revision, inputs, i).st.log);
      } else {
        OneMoreSays(cfg, head, [], inputs, i, r.st.log, r.st.log);
        assert [head] + [] == [head];
      }
    }
  }

  function PlanOf(planning: PlanInput): Option<Plan> {
    match planning
    case Planned(plan) => Some(plan)
    case _ => None
  }

  /** The heads of a whole run. */
  function RunHeads(cfg: Config, mem: Memory, prompt: Option<string>, userInput: string, planning: PlanInput, inputs: nat -> StepInput): seq<Head> {
    var launched := Launched(cfg, mem, prompt, userInput, planning);
    if launched.None? then [] else Heads(launched.value.cfg, Head(launched.value.st, None), inputs, 0)
  }

  /** Main result: over a whole run, every routing query, every request to the model, every conversation
      shown to the critic and every rejected draft is what its pass should say, in order, and there are
      no others. */
  lemma RunSays(cfg: Config, mem: Memory, prompt: Option<string>, userInput: string, planning: PlanInput, inputs: nat -> StepInput)
    ensures var log := Run(cfg, mem, prompt, userInput, planning, inputs).st.log;
      var heads, planned := RunHeads(cfg, mem, prompt, userInput, planning, inputs), cfg.(plan := PlanOf(planning));
      && log.queries == QueriesOf(planned, heads) && log.requests == RequestsOf(planned, heads, inputs, 0)
      && log.reviews == ReviewsOf(planned, heads, inputs, 0) && log.rejected == NotesOf(planned, heads, inputs, 0)
  {
    var launched := Launched(cfg, mem, prompt, userInput, planning);
    RunIsLaunched(cfg, mem, prompt, userInput, planning, inputs);
    if launched.Some? {
      assert launched.value.cfg == cfg.(plan := PlanOf(planning));
      LoopSays(launched.value.cfg, Head(launched.value.st, None), inputs, 0);
    }
  }
}
