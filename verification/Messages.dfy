/** Chat messages, turn blocks, and what it means for tool messages to be paired.

    A message list is well paired when every assistant message that carries tool calls is
    followed at once by exactly one tool message per call id, counted as a multiset, and no
    tool message stands anywhere else.  `OpenRound` is the same thing for a list whose last
    round still owes answers. */
module Messages {

  datatype Option<+T> = None | Some(value: T)

  /** The arguments of a call are JSON text.  `Absent` is an empty value that is no text, such as
      null; `Structured` is any other value that is no text, such as a parsed object. */
  datatype Arguments = Text(text: string) | Absent | Structured

  datatype Function = Function(name: string, arguments: Arguments)

  datatype ToolCall = ToolCall(id: string, fn: Option<Function>)

  datatype Message =
    | System(content: string)
    | User(content: string)
    | Assistant(draft: Option<string>, calls: seq<ToolCall>)
    | Tool(callId: string, name: string, content: string)

  /** An assistant message whose `tool_calls` is present and not empty. */
  predicate OpensRound(m: Message) {
    m.Assistant? && m.calls != []
  }

  function LeadingTools(ms: seq<Message>): (n: nat)
    ensures n <= |ms|
    ensures forall i | 0 <= i < n :: ms[i].Tool?
    ensures n < |ms| ==> !ms[n].Tool?
  {
    if ms != [] && ms[0].Tool? then 1 + LeadingTools(ms[1..]) else 0
  }

  /** Length of the turn block at the front of `ms`. */
  function BlockSize(ms: seq<Message>): (n: nat)
    requires ms != []
    ensures 1 <= n <= |ms|
    ensures forall i | 1 <= i < n :: OpensRound(ms[0]) && ms[i].Tool?
    ensures n < |ms| && OpensRound(ms[0]) ==> !ms[n].Tool?
  {
    if OpensRound(ms[0]) then 1 + LeadingTools(ms[1..]) else 1
  }

  function CallIds(calls: seq<ToolCall>): (ids: multiset<string>) {
    if calls == [] then multiset{} else multiset{calls[0].id} + CallIds(calls[1..])
  }

  function AnswerIds(ms: seq<Message>): (ids: multiset<string>) {
    if ms == [] then multiset{}
    else (if ms[0].Tool? then multiset{ms[0].callId} else multiset{}) + AnswerIds(ms[1..])
  }

  ghost predicate WellPaired(ms: seq<Message>)
    decreases |ms|
  {
    ms == [] ||
    if OpensRound(ms[0]) then
      var n := BlockSize(ms);
      AnswerIds(ms[1..n]) == CallIds(ms[0].calls) && WellPaired(ms[n..])
    else
      !ms[0].Tool? && WellPaired(ms[1..])
  }

  /** Well paired up to the last block, which still owes answers to the calls in `owed`. */
  ghost predicate OpenRound(ms: seq<Message>, owed: multiset<string>)
    decreases |ms|
  {
    ms != [] &&
    if !OpensRound(ms[0]) then
      !ms[0].Tool? && OpenRound(ms[1..], owed)
    else
      var n := BlockSize(ms);
      if n == |ms| then AnswerIds(ms[1..]) + owed == CallIds(ms[0].calls)
      else AnswerIds(ms[1..n]) == CallIds(ms[0].calls) && OpenRound(ms[n..], owed)
  }

  lemma {:induction false} CallIdsAppend(a: seq<ToolCall>, b: seq<ToolCall>)
    ensures CallIds(a + b) == CallIds(a) + CallIds(b)
  {
    if a == [] {
      assert a + b == b;
    } else {
      assert (a + b)[1..] == a[1..] + b;
      CallIdsAppend(a[1..], b);
    }
  }

  lemma CallIdsSnoc(calls: seq<ToolCall>, c: ToolCall)
    ensures CallIds(calls + [c]) == CallIds(calls) + multiset{c.id}
  {
    CallIdsAppend(calls, [c]);
    assert [c][1..] == [];
    assert CallIds([c]) == multiset{c.id};
  }

  lemma CallIdsLast(calls: seq<ToolCall>)
    requires calls != []
    ensures CallIds(calls) == CallIds(calls[..|calls| - 1]) + multiset{calls[|calls| - 1].id}
  {
    CallIdsSnoc(calls[..|calls| - 1], calls[|calls| - 1]);
    assert calls[..|calls| - 1] + [calls[|calls| - 1]] == calls;
  }

  lemma {:induction false} AnswerIdsAppend(a: seq<Message>, b: seq<Message>)
    ensures AnswerIds(a + b) == AnswerIds(a) + AnswerIds(b)
  {
    if a == [] {
      assert a + b == b;
    } else {
      assert (a + b)[1..] == a[1..] + b;
      AnswerIdsAppend(a[1..], b);
    }
  }

  lemma AnswerIdsSnoc(ms: seq<Message>, m: Message)
    requires m.Tool?
    ensures AnswerIds(ms + [m]) == AnswerIds(ms) + multiset{m.callId}
  {
    AnswerIdsAppend(ms, [m]);
    assert [m][1..] == [];
  }

  lemma {:induction false} LeadingToolsAppend(ms: seq<Message>, m: Message)
    ensures LeadingTools(ms + [m]) ==
            LeadingTools(ms) + (if LeadingTools(ms) == |ms| && m.Tool? then 1 else 0)
  {
    if ms != [] && ms[0].Tool? {
      assert (ms + [m])[1..] == ms[1..] + [m];
      LeadingToolsAppend(ms[1..], m);
    } else if ms == [] {
      assert ms + [m] == [m];
      assert [m][1..] == [];
    }
  }

  /** Appending a message lengthens the front block only when that block reaches the end. */
  lemma BlockSizeAppend(ms: seq<Message>, m: Message)
    requires ms != []
    ensures BlockSize(ms + [m]) ==
            BlockSize(ms) + (if OpensRound(ms[0]) && BlockSize(ms) == |ms| && m.Tool? then 1 else 0)
  {
    assert (ms + [m])[1..] == ms[1..] + [m];
    LeadingToolsAppend(ms[1..], m);
  }

  /** A user, system or plain assistant message keeps a well paired list well paired. */
  lemma {:induction false} AppendPlain(ms: seq<Message>, m: Message)
    requires WellPaired(ms) && !m.Tool? && !OpensRound(m)
    ensures WellPaired(ms + [m])
    decreases |ms|
  {
    var all := ms + [m];
    if ms == [] {
      assert all == [m] && all[1..] == [];
    } else {
      BlockSizeAppend(ms, m);
      var n := BlockSize(ms);
      assert all[n..] == ms[n..] + [m] && all[1..n] == ms[1..n];
      AppendPlain(ms[n..], m);
    }
  }

  /** An assistant message with tool calls opens a round that owes every one of its ids. */
  lemma {:induction false} AppendCalls(ms: seq<Message>, m: Message)
    requires WellPaired(ms) && OpensRound(m)
    ensures OpenRound(ms + [m], CallIds(m.calls))
    decreases |ms|
  {
    var all := ms + [m];
    if ms == [] {
      assert all == [m] && all[1..] == [];
    } else {
      BlockSizeAppend(ms, m);
      var n := BlockSize(ms);
      assert all[n..] == ms[n..] + [m] && all[1..n] == ms[1..n];
      AppendCalls(ms[n..], m);
    }
  }

  lemma Settle(answered: multiset<string>, owed: multiset<string>, id: string)
    requires id in owed
    ensures (answered + multiset{id}) + (owed - multiset{id}) == answered + owed
  {
  }

  /** The answer joins the last block. */
  lemma AnswerLastBlock(ms: seq<Message>, m: Message, owed: multiset<string>)
    requires ms != [] && OpensRound(ms[0]) && BlockSize(ms) == |ms|
    requires AnswerIds(ms[1..]) + owed == CallIds(ms[0].calls) && m.Tool? && m.callId in owed
    ensures OpenRound(ms + [m], owed - multiset{m.callId})
  {
    var all := ms + [m];
    BlockSizeAppend(ms, m);
    assert all[0] == ms[0] && BlockSize(all) == |all|;
    assert all[1..] == ms[1..] + [m];
    AnswerIdsSnoc(ms[1..], m);
    Settle(AnswerIds(ms[1..]), owed, m.callId);
  }

  /** Behind a complete front round, appending happens in what follows it. */
  lemma BehindFrontRound(ms: seq<Message>, m: Message, owed: multiset<string>)
    requires ms != [] && OpensRound(ms[0]) && BlockSize(ms) < |ms|
    requires AnswerIds(ms[1..BlockSize(ms)]) == CallIds(ms[0].calls)
    requires OpenRound(ms[BlockSize(ms)..] + [m], owed)
    ensures OpenRound(ms + [m], owed)
  {
    var n, all := BlockSize(ms), ms + [m];
    assert all[0] == ms[0] && BlockSize(all) == n < |all| by {
      BlockSizeAppend(ms, m);
    }
    assert all[n..] == ms[n..] + [m];
    assert all[1..n] == ms[1..n];
  }

  /** A tool message that answers an owed id settles exactly that id. */
  lemma {:induction false} AppendAnswer(ms: seq<Message>, m: Message, owed: multiset<string>)
    requires OpenRound(ms, owed) && m.Tool? && m.callId in owed
    ensures OpenRound(ms + [m], owed - multiset{m.callId})
    decreases |ms|
  {
    var n := BlockSize(ms);
    if !OpensRound(ms[0]) {
      assert (ms + [m])[1..] == ms[1..] + [m];
      AppendAnswer(ms[1..], m, owed);
    } else if n == |ms| {
      AnswerLastBlock(ms, m, owed);
    } else {
      AppendAnswer(ms[n..], m, owed);
      BehindFrontRound(ms, m, owed - multiset{m.callId});
    }
  }

  /** An open round is a well paired list exactly when nothing is owed any more. */
  lemma {:induction false} OpenRoundSettled(ms: seq<Message>, owed: multiset<string>)
    requires OpenRound(ms, owed)
    ensures WellPaired(ms) <==> owed == multiset{}
    decreases |ms|
  {
    var n := BlockSize(ms);
    if !OpensRound(ms[0]) {
      OpenRoundSettled(ms[1..], owed);
    } else if n == |ms| {
      assert ms[1..n] == ms[1..];
    } else {
      OpenRoundSettled(ms[n..], owed);
    }
  }

  /** The list with one more system message right after its leading system messages. */
  function InsertSystem(ms: seq<Message>, content: string): (r: seq<Message>) {
    if ms != [] && ms[0].System? then [ms[0]] + InsertSystem(ms[1..], content)
    else [System(content)] + ms
  }

  lemma {:induction false} InsertSystemPaired(ms: seq<Message>, content: string)
    requires WellPaired(ms)
    ensures WellPaired(InsertSystem(ms, content))
  {
    var r := InsertSystem(ms, content);
    if ms != [] && ms[0].System? {
      InsertSystemPaired(ms[1..], content);
      assert r[1..] == InsertSystem(ms[1..], content);
    } else {
      assert r[1..] == ms;
    }
  }
}
