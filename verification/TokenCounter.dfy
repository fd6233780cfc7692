/** The token count of one message, with the tokenizer left as a parameter. */
module TokenCounter {
  import opened Messages
  import opened ShortTerm
  import opened Manager

  /** The number of tokens, unless the tokenizer refuses the text, as it does with special tokens. */
  type Encoder = string -> Option<nat>

  predicate Encodes(encode: Encoder, text: string) {
    text == "" || encode(text).Some?
  }

  function CountText(encode: Encoder, text: string): (n: nat) {
    if text != "" && encode(text).Some? then encode(text).value else 0
  }

  /** Structured arguments are no text, and a call without a function has nothing to look into. */
  predicate CallCountable(encode: Encoder, c: ToolCall) {
    && c.fn.Some? && Encodes(encode, c.fn.value.name)
    && match c.fn.value.arguments
       case Text(text) => Encodes(encode, text)
       case Absent => true
       case Structured => false
  }

  /** The count goes through without raising. */
  predicate Countable(encode: Encoder, m: Message) {
    match m
    case System(content) => Encodes(encode, "system") && Encodes(encode, content)
    case User(content) => Encodes(encode, "user") && Encodes(encode, content)
    case Assistant(draft, calls) =>
      && Encodes(encode, "assistant") && (draft.Some? ==> Encodes(encode, draft.value))
      && forall c | c in calls :: CallCountable(encode, c)
    case Tool(callId, name, content) =>
      Encodes(encode, "tool") && Encodes(encode, content) && Encodes(encode, name) && Encodes(encode, callId)
  }

  function CountCalls(encode: Encoder, calls: seq<ToolCall>): int {
    if calls == [] then 0
    else
      (match calls[0].fn
       case None => 0
       case Some(fn) =>
         CountText(encode, fn.name) + if fn.arguments.Text? then CountText(encode, fn.arguments.text) else 0)
      - 1 + CountCalls(encode, calls[1..])
  }

  /** What a count that goes through gives. */
  function CountMessage(encode: Encoder, m: Message): int {
    match m
    case System(content) => 4 + CountText(encode, "system") + CountText(encode, content)
    case User(content) => 4 + CountText(encode, "user") + CountText(encode, content)
    case Assistant(draft, calls) =>
      4 + CountText(encode, "assistant")
      + (if draft.Some? then CountText(encode, draft.value) else 0)
      + CountCalls(encode, calls)
    case Tool(callId, name, content) =>
      4 + CountText(encode, "tool") + CountText(encode, content)
      + CountText(encode, name) + CountText(encode, callId)
  }

  function CallTexts(calls: seq<ToolCall>): (texts: seq<string>) {
    if calls == [] then []
    else
      (match calls[0].fn
       case None => []
       case Some(fn) => [fn.name] + if fn.arguments.Text? then [fn.arguments.text] else [])
      + CallTexts(calls[1..])
  }

  /** Every text of a message, its role included. */
  function TextsIn(m: Message): (texts: seq<string>) {
    match m
    case System(content) => ["system", content]
    case User(content) => ["user", content]
    case Assistant(draft, calls) => ["assistant"] + (if draft.Some? then [draft.value] else []) + CallTexts(calls)
    case Tool(callId, name, content) => ["tool", content, name, callId]
  }

  function SumOfTexts(encode: Encoder, texts: seq<string>): nat {
    if texts == [] then 0 else CountText(encode, texts[0]) + SumOfTexts(encode, texts[1..])
  }

  lemma {:induction false} SumOfTextsAppend(encode: Encoder, a: seq<string>, b: seq<string>)
    ensures SumOfTexts(encode, a + b) == SumOfTexts(encode, a) + SumOfTexts(encode, b)
  {
    if a == [] {
      assert a + b == b;
    } else {
      assert (a + b)[1..] == a[1..] + b;
      SumOfTextsAppend(encode, a[1..], b);
    }
  }

  lemma OneText(encode: Encoder, text: string)
    ensures SumOfTexts(encode, [text]) == CountText(encode, text)
  {
    assert [text][1..] == [];
  }

  lemma TwoTexts(encode: Encoder, a: string, b: string)
    ensures SumOfTexts(encode, [a, b]) == CountText(encode, a) + CountText(encode, b)
  {
    OneText(encode, b);
    assert [a, b][1..] == [b];
  }

  lemma {:induction false} CallTextsCount(encode: Encoder, calls: seq<ToolCall>)
    ensures CountCalls(encode, calls) == SumOfTexts(encode, CallTexts(calls)) - |calls|
  {
    if calls != [] {
      CallTextsCount(encode, calls[1..]);
      var fn := calls[0].fn;
      if fn.Some? {
        OneText(encode, fn.value.name);
        if fn.value.arguments.Text? {
          OneText(encode, fn.value.arguments.text);
          SumOfTextsAppend(encode, [fn.value.name], [fn.value.arguments.text]);
        } else {
          assert [fn.value.name] + [] == [fn.value.name];
        }
        SumOfTextsAppend(encode, [fn.value.name] + (if fn.value.arguments.Text? then [fn.value.arguments.text] else []), CallTexts(calls[1..]));
      } else {
        assert [] + CallTexts(calls[1..]) == CallTexts(calls[1..]);
      }
    }
  }

  /** A message counts four, and each of its texts once, less one for each of its calls. */
  lemma EveryTextCounts(encode: Encoder, m: Message)
    ensures CountMessage(encode, m) == 4 + SumOfTexts(encode, TextsIn(m)) - if m.Assistant? then |m.calls| else 0
  {
    if m.Assistant? {
      var drafted := if m.draft.Some? then [m.draft.value] else [];
      CallTextsCount(encode, m.calls);
      OneText(encode, "assistant");
      if m.draft.Some? {
        OneText(encode, m.draft.value);
      }
      SumOfTextsAppend(encode, ["assistant"], drafted);
      SumOfTextsAppend(encode, ["assistant"] + drafted, CallTexts(m.calls));
    } else {
      match m
      case System(content) => TwoTexts(encode, "system", content);
      case User(content) => TwoTexts(encode, "user", content);
      case Tool(callId, name, content) =>
        TwoTexts(encode, "tool", content);
        TwoTexts(encode, name, callId);
        SumOfTextsAppend(encode, ["tool", content], [name, callId]);
        assert TextsIn(m) == ["tool", content] + [name, callId];
    }
  }

  lemma {:induction false} CallsCountable(encode: Encoder, calls: seq<ToolCall>)
    ensures (forall c | c in calls :: CallCountable(encode, c)) <==>
      && (forall t | t in CallTexts(calls) :: Encodes(encode, t))
      && forall c | c in calls :: c.fn.Some? && !c.fn.value.arguments.Structured?
  {
    if calls != [] {
      var fn := calls[0].fn;
      var own := if fn.None? then [] else [fn.value.name] + if fn.value.arguments.Text? then [fn.value.arguments.text] else [];
      CallsCountable(encode, calls[1..]);
      assert calls == [calls[0]] + calls[1..];
      assert CallTexts(calls) == own + CallTexts(calls[1..]);
      assert CallCountable(encode, calls[0]) <==>
        calls[0].fn.Some? && !calls[0].fn.value.arguments.Structured? && forall t | t in own :: Encodes(encode, t);
    }
  }

  /** It can be counted exactly if the tokenizer takes every one of them, and its calls have functions and
      no structured arguments. */
  lemma CountableExactly(encode: Encoder, m: Message)
    ensures Countable(encode, m) <==>
      && (forall t | t in TextsIn(m) :: Encodes(encode, t))
      && (m.Assistant? ==> forall c | c in m.calls :: c.fn.Some? && !c.fn.value.arguments.Structured?)
  {
    if m.Assistant? {
      CallsCountable(encode, m.calls);
    }
  }

  /** The budget of a memory that counts as the code does. */
  function CodeBudget(encode: Encoder, system: Option<Message>, max: int): Budget {
    Budget(m => CountMessage(encode, m), m => Countable(encode, m), system, max)
  }

  // ---- While calls bring text --------------------------------------------------------------

  /** No text that the tokenizer takes is worth nothing. */
  ghost predicate TextCounts(encode: Encoder) {
    forall t | t != "" && encode(t).Some? :: encode(t).value >= 1
  }

  /** Every call brings a name or arguments. */
  predicate BringsText(m: Message) {
    m.Assistant? ==>
      forall c | c in m.calls :: c.fn.Some? ==> c.fn.value.name != "" || c.fn.value.arguments !in {Text(""), Absent}
  }

  /** A call that brings text pays for the token taken off it. */
  lemma {:induction false} TextCallsCountUp(encode: Encoder, calls: seq<ToolCall>)
    requires BringsText(Assistant(None, calls)) && TextCounts(encode) && forall c | c in calls :: CallCountable(encode, c)
    ensures CountCalls(encode, calls) >= 0
  {
    if calls != [] {
      assert calls[0] in calls;
      assert forall c | c in calls[1..] :: c in calls;
      TextCallsCountUp(encode, calls[1..]);
    }
  }

  lemma CountIsPositive(encode: Encoder, m: Message)
    requires Countable(encode, m) && BringsText(m) && TextCounts(encode)
    ensures CountMessage(encode, m) >= 5
  {
    if m.Assistant? {
      TextCallsCountUp(encode, m.calls);
    }
  }

  /** Under the code's own counter, a history that can be counted and whose calls all bring text has
      the batch window, and that window survives save and load. */
  lemma TextHistoriesKeepTheirWindow(encode: Encoder, system: Option<Message>, max: int, h: seq<Message>)
    requires TextCounts(encode) && forall m | m in h :: Countable(encode, m) && BringsText(m)
    ensures var b := CodeBudget(encode, system, max);
            IsBatchWindow(b, h, Feed(b, h)) && Feed(b, Feed(b, h)) == Feed(b, h)
  {
    var b := CodeBudget(encode, system, max);
    forall m | m in h
      ensures b.count(m) >= 0
    {
      CountIsPositive(encode, m);
    }
    var s := FeedIsBatch(b, h);
    WindowIsFromHistory(b, h);
    SaveLoadIdentity(b, h);
  }

  // ---- Calls that bring none ---------------------------------------------------------------

  function BlankCalls(n: nat): (calls: seq<ToolCall>) {
    if n == 0 then [] else [ToolCall("", Some(Function("", Text(""))))] + BlankCalls(n - 1)
  }

  lemma {:induction false} BlankCallsCountDown(encode: Encoder, n: nat)
    ensures CountCalls(encode, BlankCalls(n)) + n == 0
    ensures forall c | c in BlankCalls(n) :: CallCountable(encode, c)
  {
    if n > 0 {
      BlankCallsCountDown(encode, n - 1);
      assert BlankCalls(n)[1..] == BlankCalls(n - 1);
    }
  }

  /** With enough unnamed calls a message counts below zero, so under every tokenizer that takes the
      roles there is a budget and a history that can be counted whose window is not the batch window. */
  lemma BlankCallsBreakBatch(encode: Encoder) returns (max: int, h: seq<Message>)
    requires Encodes(encode, "user") && Encodes(encode, "assistant")
    ensures var b := CodeBudget(encode, None, max); AllCountable(b, h) && !IsBatchWindow(b, h, Feed(b, h))
  {
    var x, m := User(""), Assistant(None, BlankCalls(5 + CountText(encode, "assistant")));
    BlankCallsCountDown(encode, 5 + CountText(encode, "assistant"));
    max, h := 2 * CountMessage(encode, x) - 1, [x, x, m];
    NegativeCountBreaksBatch(CodeBudget(encode, None, max), x, m);
  }
}
