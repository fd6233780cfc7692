/** The reply that a run works with, when it comes from a stream: what the run emits and decides on is
    what the chunks of the stream were. */
module StreamRuns {
  import M = Messages
  import opened Stream
  import opened RunSpec
  import opened Runs

  function ToolCallOf(c: Call): M.ToolCall {
    M.ToolCall(c.id, M.Some(M.Function(c.name, M.Text(c.arguments))))
  }

  function ToolCallsOf(calls: M.Option<seq<Call>>): seq<M.ToolCall> {
    if calls.None? then [] else seq(|calls.value|, i requires 0 <= i < |calls.value| => ToolCallOf(calls.value[i]))
  }

  /** The model's turn of a pass, as its stream decides it; a stream that breaks or ends without a finish
      is an error of the framework. */
  function Heeded(chunks: seq<Chunk>): LlmInput {
    var tokens := TokensOf(Read(chunks));
    match Received(chunks)
    case None => LlmAgentError(tokens)
    case Some(reply) => Replied(tokens, true, reply.text, ToolCallsOf(reply.calls))
  }

  function EventOf(step: nat, e: TokenEvent): Event {
    match e
    case Token(text) => LlmToken(step, M.Some(text))
    case ToolCalls(_) => LlmToken(step, M.None)
  }

  function TokenEventsOf(step: nat, es: seq<TokenEvent>): (events: seq<Event>)
    ensures |events| == |es|
  {
    seq(|es|, i requires 0 <= i < |es| => EventOf(step, es[i]))
  }

  lemma {:induction false} TokensAreEmitted(cfg: Config, st: RunState, tokens: seq<string>)
    requires !cfg.hasCritic
    ensures st.EmitTokens(cfg, tokens).events == st.events + TokenEventsOf(st.stepCount, TokenEvents(tokens))
    ensures st.EmitTokens(cfg, tokens).stepCount == st.stepCount
  {
    if tokens != [] {
      var before := tokens[..|tokens| - 1];
      TokensAreEmitted(cfg, st, before);
      TokensOnlyEmit(cfg, st, before);
      assert TokenEventsOf(st.stepCount, TokenEvents(tokens))
          == TokenEventsOf(st.stepCount, TokenEvents(before)) + [LlmToken(st.stepCount, M.Some(tokens[|before|]))];
    }
  }

  lemma OneMoreEvent(step: nat, es: seq<TokenEvent>, e: TokenEvent)
    ensures TokenEventsOf(step, es + [e]) == TokenEventsOf(step, es) + [EventOf(step, e)]
  {
  }

  /** The same id, name and arguments. */
  predicate SameCall(c: Call, t: M.ToolCall) {
    t.id == c.id && t.fn.Some? && t.fn.value.name == c.name && t.fn.value.arguments == M.Text(c.arguments)
  }

  predicate SameCalls(cs: M.Option<seq<Call>>, ts: seq<M.ToolCall>) {
    && |ts| == (if cs.Some? then |cs.value| else 0)
    && forall k | 0 <= k < |ts| :: SameCall(cs.value[k], ts[k])
  }

  /** The draft is the concatenation of the tokens and the calls are the reader's, one by one. */
  lemma HeededIsReceived(chunks: seq<Chunk>)
    ensures var llm := Heeded(chunks); var shown := Concat(llm.tokens);
      && llm.tokens == TokensOf(Read(chunks)) && (llm.Replied? <==> Finishes(chunks))
      && if Finishes(chunks) then
           && llm.streamed && llm.draft == (if shown == "" then M.None else M.Some(shown))
           && Received(chunks).Some? && llm.calls == ToolCallsOf(Received(chunks).value.calls)
           && SameCalls(FinalCalls(chunks), llm.calls)
           && Emitted(chunks) == TokenEvents(llm.tokens) + if llm.calls != [] then [ToolCalls(Received(chunks).value.calls.value)] else []
         else Emitted(chunks) == TokenEvents(llm.tokens)
  {
    ReplyIsWhatWasEmitted(chunks);
  }

  lemma ReplyEvents(cfg: Config, st: RunState, llm: LlmInput)
    requires llm.Replied? && llm.streamed
    ensures RepliedState(cfg, st, llm).events == st.EmitTokens(cfg, llm.tokens).events
      + (if llm.calls != [] && !cfg.hasCritic then [LlmToken(st.stepCount, M.None)] else []) + [LlmResponse(st.stepCount)]
  {
    TokensOnlyEmit(cfg, st, llm.tokens);
  }

  lemma StreamedReplyIsShown(cfg: Config, st: RunState, chunks: seq<Chunk>)
    requires Heeded(chunks).Replied?
    ensures RepliedState(cfg, st, Heeded(chunks)).events
      == st.events + (if cfg.hasCritic then [] else TokenEventsOf(st.stepCount, Emitted(chunks))) + [LlmResponse(st.stepCount)]
  {
    var llm := Heeded(chunks);
    assert llm.streamed && Emitted(chunks) == TokenEvents(llm.tokens) + (if llm.calls != [] then [ToolCalls(Received(chunks).value.calls.value)] else []) by {
      HeededIsReceived(chunks);
    }
    ReplyEvents(cfg, st, llm);
    if !cfg.hasCritic {
      TokensAreEmitted(cfg, st, llm.tokens);
      var shown := TokenEventsOf(st.stepCount, TokenEvents(llm.tokens));
      if llm.calls != [] {
        OneMoreEvent(st.stepCount, TokenEvents(llm.tokens), ToolCalls(Received(chunks).value.calls.value));
        assert st.events + (shown + [LlmToken(st.stepCount, M.None)]) == st.events + shown + [LlmToken(st.stepCount, M.None)];
      } else {
        assert Emitted(chunks) == TokenEvents(llm.tokens);
      }
    }
  }

  /** Main result: without a critic a run emits exactly the events of the reader, token by token and then
      the calls, in front of its response; with a critic it emits none of them. */
  lemma RunHeedsItsStream(cfg: Config, st: RunState, chunks: seq<Chunk>)
    ensures var llm := Heeded(chunks);
      var shown := if cfg.hasCritic then [] else TokenEventsOf(st.stepCount, Emitted(chunks));
      if llm.Replied? then RepliedState(cfg, st, llm).events == st.events + shown + [LlmResponse(st.stepCount)]
      else st.EmitTokens(cfg, llm.tokens).events == st.events + shown
  {
    HeededIsReceived(chunks);
    if Heeded(chunks).Replied? {
      StreamedReplyIsShown(cfg, st, chunks);
    } else if !cfg.hasCritic {
      TokensAreEmitted(cfg, st, Heeded(chunks).tokens);
    }
  }
}
