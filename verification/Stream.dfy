/** Reassembly of a streamed reply: tool-call fragments arrive interleaved, text in tokens. */
module Stream {
  import opened Messages

  datatype FunctionDelta = FunctionDelta(name: string, arguments: string)

  /** A piece of the tool call at `index`; what the provider leaves out is empty. */
  datatype Fragment = Fragment(index: int, id: string, fn: Option<FunctionDelta>)

  /** `Broken` stands for an exception raised by the provider's iterator. */
  datatype Chunk = NoChoices | Delta(content: string, fragments: seq<Fragment>, finish: Option<string>) | Broken

  datatype Call = Call(id: string, name: string, arguments: string)

  datatype StreamChunk = StreamChunk(content: string, calls: Option<seq<Call>>, finish: Option<string>)

  // ---- Per index -------------------------------------------------------------------------------

  predicate Sound(fragments: seq<Fragment>) {
    forall f | f in fragments :: f.fn.Some?
  }

  /** The name a fragment carries, if any; its pieces of arguments. */
  function NameIn(f: Fragment): string {
    if f.fn.Some? then f.fn.value.name else ""
  }

  function ArgumentsIn(f: Fragment): string {
    if f.fn.Some? then f.fn.value.arguments else ""
  }

  function Merge(slot: Call, f: Fragment): Call {
    Call(
      if f.id != "" then f.id else slot.id,
      if NameIn(f) != "" then NameIn(f) else slot.name,
      slot.arguments + ArgumentsIn(f))
  }

  /** The fragments of one call, in order of arrival. */
  function Of(fragments: seq<Fragment>, index: int): seq<Fragment> {
    if fragments == [] then []
    else
      var last := fragments[|fragments| - 1];
      Of(fragments[..|fragments| - 1], index) + if last.index == index then [last] else []
  }

  function Assemble(own: seq<Fragment>): Call {
    if own == [] then Call("", "", "")
    else Merge(Assemble(own[..|own| - 1]), own[|own| - 1])
  }

  predicate Increasing(s: seq<int>) {
    forall i, j | 0 <= i < j < |s| :: s[i] < s[j]
  }

  function Insert(x: int, s: seq<int>): seq<int> {
    if s == [] || x < s[0] then [x] + s
    else if x == s[0] then s
    else [s[0]] + Insert(x, s[1..])
  }

  function Sorted(s: seq<int>): seq<int> {
    if s == [] then [] else Insert(s[|s| - 1], Sorted(s[..|s| - 1]))
  }

  function IndexList(fragments: seq<Fragment>): seq<int> {
    seq(|fragments|, i requires 0 <= i < |fragments| => fragments[i].index)
  }

  /** The calls, one per index, ordered by index. */
  function Assembled(fragments: seq<Fragment>): seq<Call> {
    var indices := Sorted(IndexList(fragments));
    seq(|indices|, k requires 0 <= k < |indices| => Assemble(Of(fragments, indices[k])))
  }

  lemma {:induction false} InsertFacts(x: int, s: seq<int>)
    requires Increasing(s)
    ensures Increasing(Insert(x, s)) && forall y :: y in Insert(x, s) <==> y == x || y in s
  {
    if s != [] && x > s[0] {
      var rest := Insert(x, s[1..]);
      InsertFacts(x, s[1..]);
      assert s == [s[0]] + s[1..];
      forall k | 0 <= k < |rest|
        ensures rest[k] > s[0]
      {
        assert rest[k] in rest;
      }
    }
  }

  lemma {:induction false} SortedFacts(s: seq<int>)
    ensures Increasing(Sorted(s)) && forall y :: y in Sorted(s) <==> y in s
  {
    if s != [] {
      SortedFacts(s[..|s| - 1]);
      InsertFacts(s[|s| - 1], Sorted(s[..|s| - 1]));
      assert s == s[..|s| - 1] + [s[|s| - 1]];
    }
  }

  /** An increasing list is determined by its elements. */
  lemma {:induction false} IncreasingIsUnique(a: seq<int>, b: seq<int>)
    requires Increasing(a) && Increasing(b) && forall y :: y in a <==> y in b
    ensures a == b
  {
    if a == [] {
      assert forall i | 0 <= i < |b| :: b[i] in a;
    } else {
      assert a[0] in b && b[0] in a && a[0] == b[0];
      assert a == [a[0]] + a[1..] && b == [b[0]] + b[1..];
      forall y
        ensures y in a[1..] <==> y in b[1..]
      {
        assert y in a[1..] <==> y in a && y != a[0];
        assert y in b[1..] <==> y in b && y != b[0];
      }
      IncreasingIsUnique(a[1..], b[1..]);
    }
  }

  lemma {:induction false} OfIsEmpty(fragments: seq<Fragment>, index: int)
    ensures Of(fragments, index) != [] <==> index in IndexList(fragments)
  {
    if fragments != [] {
      var before, last := fragments[..|fragments| - 1], fragments[|fragments| - 1];
      OfIsEmpty(before, index);
      assert IndexList(fragments) == IndexList(before) + [last.index];
    }
  }

  // ---- What a slot ends up holding -------------------------------------------------------------

  function Concat(texts: seq<string>): string {
    if texts == [] then "" else Concat(texts[..|texts| - 1]) + texts[|texts| - 1]
  }

  function LastNonEmpty(texts: seq<string>): string {
    if texts == [] then ""
    else if texts[|texts| - 1] != "" then texts[|texts| - 1]
    else LastNonEmpty(texts[..|texts| - 1])
  }

  function IdsOf(own: seq<Fragment>): seq<string> {
    seq(|own|, i requires 0 <= i < |own| => own[i].id)
  }

  function NamesOf(own: seq<Fragment>): seq<string> {
    seq(|own|, i requires 0 <= i < |own| => NameIn(own[i]))
  }

  function ArgumentsOf(own: seq<Fragment>): seq<string> {
    seq(|own|, i requires 0 <= i < |own| => ArgumentsIn(own[i]))
  }

  /** A call has its last given id and name, and all its argument pieces in order. */
  lemma {:induction false} AssembleIs(own: seq<Fragment>)
    ensures Assemble(own) == Call(LastNonEmpty(IdsOf(own)), LastNonEmpty(NamesOf(own)), Concat(ArgumentsOf(own)))
  {
    if own != [] {
      var before := own[..|own| - 1];
      AssembleIs(before);
      assert IdsOf(own)[..|before|] == IdsOf(before);
      assert NamesOf(own)[..|before|] == NamesOf(before);
      assert ArgumentsOf(own)[..|before|] == ArgumentsOf(before);
    }
  }

  // ---- The whole stream ------------------------------------------------------------------------

  predicate Fails(chunk: Chunk) {
    chunk.Broken? || (chunk.Delta? && !Sound(chunk.fragments))
  }

  predicate Ends(chunk: Chunk) {
    Fails(chunk) || (chunk.Delta? && chunk.finish.Some?)
  }

  /** The position of the chunk that ends the stream, or the length when none does. */
  function Stop(chunks: seq<Chunk>): (n: nat)
    ensures n <= |chunks| && (forall k | 0 <= k < n :: !Ends(chunks[k])) && (n < |chunks| ==> Ends(chunks[n]))
  {
    if chunks == [] || Ends(chunks[0]) then 0 else 1 + Stop(chunks[1..])
  }

  function FragmentsOf(chunks: seq<Chunk>): seq<Fragment> {
    if chunks == [] then []
    else
      var last := chunks[|chunks| - 1];
      FragmentsOf(chunks[..|chunks| - 1]) + if last.Delta? then last.fragments else []
  }

  function TokensOf(chunks: seq<Chunk>): (tokens: seq<string>)
    ensures forall t | t in tokens :: t != ""
  {
    if chunks == [] then []
    else
      var last := chunks[|chunks| - 1];
      TokensOf(chunks[..|chunks| - 1]) + if last.Delta? && last.content != "" then [last.content] else []
  }

  predicate Finishes(chunks: seq<Chunk>) {
    Stop(chunks) < |chunks| && !Fails(chunks[Stop(chunks)])
  }

  /** The chunks that are looked at. */
  function Read(chunks: seq<Chunk>): seq<Chunk> {
    if Stop(chunks) < |chunks| then chunks[..Stop(chunks) + 1] else chunks
  }

  function FinalCalls(chunks: seq<Chunk>): Option<seq<Call>> {
    var fragments := FragmentsOf(Read(chunks));
    if fragments == [] then None else Some(Assembled(fragments))
  }

  function Contents(tokens: seq<string>): seq<StreamChunk> {
    seq(|tokens|, i requires 0 <= i < |tokens| => StreamChunk(tokens[i], None, None))
  }

  function Yielded(chunks: seq<Chunk>): seq<StreamChunk> {
    var contents := Contents(TokensOf(Read(chunks)));
    if Finishes(chunks) then contents + [StreamChunk("", FinalCalls(chunks), chunks[Stop(chunks)].finish)] else contents
  }

  // ---- The loop --------------------------------------------------------------------------------

  ghost predicate SlotHolds(order: seq<int>, slots: map<int, Call>, seen: seq<Fragment>, i: int) {
    && (i in order <==> i in slots)
    && (i in slots <==> Of(seen, i) != [])
    && (i in slots ==> slots[i] == Assemble(Of(seen, i)))
  }

  /** The dict of slots, `order` its keys, after these fragments. */
  ghost predicate Holds(order: seq<int>, slots: map<int, Call>, seen: seq<Fragment>) {
    forall i :: SlotHolds(order, slots, seen, i)
  }

  lemma OfSnoc(seen: seq<Fragment>, f: Fragment, i: int)
    ensures Of(seen + [f], i) == if i == f.index then Of(seen, i) + [f] else Of(seen, i)
  {
    assert (seen + [f])[..|seen|] == seen;
  }

  function Put(slots: map<int, Call>, f: Fragment): map<int, Call> {
    slots[f.index := Merge(if f.index in slots then slots[f.index] else Call("", "", ""), f)]
  }

  lemma HoldsStep(order: seq<int>, slots: map<int, Call>, seen: seq<Fragment>, f: Fragment)
    requires Holds(order, slots, seen)
    ensures Holds(if f.index in slots then order else order + [f.index], Put(slots, f), seen + [f])
  {
    var keys, after := if f.index in slots then order else order + [f.index], Put(slots, f);
    forall i
      ensures SlotHolds(keys, after, seen + [f], i)
    {
      assert SlotHolds(order, slots, seen, i);
      OfSnoc(seen, f, i);
      assert (Of(seen, i) + [f])[..|Of(seen, i)|] == Of(seen, i);
    }
  }

  lemma HoldsAtEnd(order: seq<int>, slots: map<int, Call>, seen: seq<Fragment>)
    requires Holds(order, slots, seen)
    ensures Sorted(order) == Sorted(IndexList(seen))
    ensures order == [] <==> seen == []
  {
    forall i
      ensures i in order <==> i in IndexList(seen)
    {
      assert SlotHolds(order, slots, seen, i);
      OfIsEmpty(seen, i);
    }
    SortedFacts(order);
    SortedFacts(IndexList(seen));
    IncreasingIsUnique(Sorted(order), Sorted(IndexList(seen)));
    if seen != [] {
      assert IndexList(seen)[0] in order;
    }
  }

  lemma YieldStep(chunks: seq<Chunk>, n: nat)
    requires n < |chunks|
    ensures var chunk := chunks[n];
      && TokensOf(chunks[..n + 1]) == (if chunk.Delta? && chunk.content != "" then TokensOf(chunks[..n]) + [chunk.content] else TokensOf(chunks[..n]))
      && FragmentsOf(chunks[..n + 1]) == if chunk.Delta? then FragmentsOf(chunks[..n]) + chunk.fragments else FragmentsOf(chunks[..n])
  {
    assert chunks[..n + 1][..n] == chunks[..n];
  }

  lemma {:induction false} StopIs(chunks: seq<Chunk>, n: nat)
    requires n <= |chunks| && (forall k | 0 <= k < n :: !Ends(chunks[k])) && (n < |chunks| ==> Ends(chunks[n]))
    ensures Stop(chunks) == n
  {
  }

  /** The fragments of one chunk; stops where one has no function part. */
  method AddFragments(order: seq<int>, slots: map<int, Call>, ghost seen: seq<Fragment>, fragments: seq<Fragment>)
    returns (ok: bool, order': seq<int>, slots': map<int, Call>)
    requires Holds(order, slots, seen)
    ensures ok <==> Sound(fragments)
    ensures ok ==> Holds(order', slots', seen + fragments)
  {
    order', slots' := order, slots;
    assert seen + fragments[..0] == seen;
    for k := 0 to |fragments|
      invariant Holds(order', slots', seen + fragments[..k])
      invariant Sound(fragments[..k])
    {
      var f := fragments[k];
      if f.fn.None? {
        assert f in fragments;
        return false, order', slots';
      }
      HoldsStep(order', slots', seen + fragments[..k], f);
      assert seen + fragments[..k + 1] == seen + fragments[..k] + [f];
      order', slots' := if f.index in slots' then order' else order' + [f.index], Put(slots', f);
    }
    assert fragments[..|fragments|] == fragments;
    ok := true;
  }

  lemma ContentsSnoc(tokens: seq<string>, token: string)
    ensures Contents(tokens + [token]) == Contents(tokens) + [StreamChunk(token, None, None)]
  {
  }

  // What is yielded, from the point where the stream ends.

  lemma YieldedToEnd(chunks: seq<Chunk>)
    requires forall k | 0 <= k < |chunks| :: !Ends(chunks[k])
    ensures Stop(chunks) == |chunks| && Yielded(chunks) == Contents(TokensOf(chunks))
  {
    StopIs(chunks, |chunks|);
  }

  lemma YieldedOnFailure(chunks: seq<Chunk>, n: nat)
    requires n < |chunks| && (forall k | 0 <= k < n :: !Ends(chunks[k])) && Fails(chunks[n])
    ensures Stop(chunks) == n && Yielded(chunks) == Contents(TokensOf(chunks[..n + 1]))
  {
    StopIs(chunks, n);
    assert Read(chunks) == chunks[..n + 1];
  }

  lemma YieldedOnFinish(chunks: seq<Chunk>, n: nat)
    requires n < |chunks| && (forall k | 0 <= k < n :: !Ends(chunks[k])) && Ends(chunks[n]) && !Fails(chunks[n])
    ensures Stop(chunks) == n
    ensures var fragments := FragmentsOf(chunks[..n + 1]);
      var calls := if fragments == [] then None else Some(Assembled(fragments));
      Yielded(chunks) == Contents(TokensOf(chunks[..n + 1])) + [StreamChunk("", calls, chunks[n].finish)]
  {
    StopIs(chunks, n);
    assert Read(chunks) == chunks[..n + 1];
  }

  method FinishCalls(order: seq<int>, slots: map<int, Call>, ghost seen: seq<Fragment>) returns (calls: Option<seq<Call>>)
    requires Holds(order, slots, seen)
    ensures calls == if seen == [] then None else Some(Assembled(seen))
  {
    HoldsAtEnd(order, slots, seen);
    SortedFacts(order);
    if order == [] {
      return None;
    }
    var indices := Sorted(order);
    forall i | i in order
      ensures i in slots && slots[i] == Assemble(Of(seen, i))
    {
      assert SlotHolds(order, slots, seen, i);
    }
    var list := seq(|indices|, k requires 0 <= k < |indices| => assert indices[k] in order; slots[indices[k]]);
    assert list == Assembled(seen);
    calls := Some(list);
  }

  /** Fragments merge into slots as they come; the first finish reason closes the calls. */
  method StreamReply(chunks: seq<Chunk>) returns (yielded: seq<StreamChunk>, failed: bool)
    ensures yielded == Yielded(chunks)
    ensures failed <==> Stop(chunks) < |chunks| && Fails(chunks[Stop(chunks)])
  {
    yielded := [];
    var order: seq<int>, slots: map<int, Call> := [], map[];
    for n := 0 to |chunks|
      invariant forall k | 0 <= k < n :: !Ends(chunks[k])
      invariant yielded == Contents(TokensOf(chunks[..n]))
      invariant Holds(order, slots, FragmentsOf(chunks[..n]))
    {
      var chunk := chunks[n];
      YieldStep(chunks, n);
      if chunk.Broken? {
        YieldedOnFailure(chunks, n);
        return yielded, true;
      }
      if chunk.NoChoices? {
        continue;
      }
      if chunk.content != "" {
        ContentsSnoc(TokensOf(chunks[..n]), chunk.content);
        yielded := yielded + [StreamChunk(chunk.content, None, None)];
      }
      var ok: bool;
      ok, order, slots := AddFragments(order, slots, FragmentsOf(chunks[..n]), chunk.fragments);
      if !ok {
        YieldedOnFailure(chunks, n);
        return yielded, true;
      }
      if chunk.finish.Some? {
        YieldedOnFinish(chunks, n);
        var calls := FinishCalls(order, slots, FragmentsOf(chunks[..n + 1]));
        yielded := yielded + [StreamChunk("", calls, chunk.finish)];
        return yielded, false;
      }
    }
    YieldedToEnd(chunks);
    assert chunks[..|chunks|] == chunks;
    failed := false;
  }

  // ---- The reader ------------------------------------------------------------------------------

  /** What the agent makes of a reply. */
  datatype Reply = Reply(text: Option<string>, calls: Option<seq<Call>>)

  datatype TokenEvent = Token(text: string) | ToolCalls(calls: seq<Call>)

  function FirstFinish(yielded: seq<StreamChunk>): (n: nat)
    ensures n <= |yielded| && (forall k | 0 <= k < n :: yielded[k].finish.None?) && (n < |yielded| ==> yielded[n].finish.Some?)
  {
    if yielded == [] || yielded[0].finish.Some? then 0 else 1 + FirstFinish(yielded[1..])
  }

  /** Reading goes on up to the first finish. */
  function Heard(yielded: seq<StreamChunk>): seq<StreamChunk> {
    if FirstFinish(yielded) < |yielded| then yielded[..FirstFinish(yielded) + 1] else yielded
  }

  function PartsOf(heard: seq<StreamChunk>): seq<string> {
    if heard == [] then []
    else
      var last := heard[|heard| - 1];
      PartsOf(heard[..|heard| - 1]) + if last.content != "" then [last.content] else []
  }

  predicate HasCalls(calls: Option<seq<Call>>) {
    calls.Some? && calls.value != []
  }

  function EventsOf(heard: seq<StreamChunk>): seq<TokenEvent> {
    if heard == [] then []
    else
      var last := heard[|heard| - 1];
      EventsOf(heard[..|heard| - 1])
      + (if last.content != "" then [Token(last.content)] else [])
      + if last.finish.Some? && HasCalls(last.calls) then [ToolCalls(last.calls.value)] else []
  }

  lemma HeardSnoc(heard: seq<StreamChunk>, last: StreamChunk)
    ensures PartsOf(heard + [last]) == if last.content != "" then PartsOf(heard) + [last.content] else PartsOf(heard)
    ensures var tokens := if last.content != "" then EventsOf(heard) + [Token(last.content)] else EventsOf(heard);
      EventsOf(heard + [last]) == if last.finish.Some? && HasCalls(last.calls) then tokens + [ToolCalls(last.calls.value)] else tokens
  {
    assert (heard + [last])[..|heard|] == heard;
  }

  function ReplyOf(heard: seq<StreamChunk>): Reply
    requires heard != []
  {
    var text, calls := Concat(PartsOf(heard)), heard[|heard| - 1].calls;
    Reply(if text != "" then Some(text) else None, if HasCalls(calls) then calls else None)
  }

  lemma {:induction false} FirstFinishIs(yielded: seq<StreamChunk>, n: nat)
    requires n <= |yielded| && (forall k | 0 <= k < n :: yielded[k].finish.None?) && (n < |yielded| ==> yielded[n].finish.Some?)
    ensures FirstFinish(yielded) == n
  {
  }

  function ReplyIn(yielded: seq<StreamChunk>): Option<Reply> {
    if FirstFinish(yielded) < |yielded| then Some(ReplyOf(Heard(yielded))) else None
  }

  lemma ReplyIs(yielded: seq<StreamChunk>, n: nat)
    requires n < |yielded| && yielded[n].finish.Some? && forall k | 0 <= k < n :: yielded[k].finish.None?
    ensures Heard(yielded) == yielded[..n + 1]
    ensures var text, calls := Concat(PartsOf(yielded[..n + 1])), yielded[n].calls;
      ReplyIn(yielded) == Some(Reply(if text != "" then Some(text) else None, if HasCalls(calls) then calls else None))
  {
    FirstFinishIs(yielded, n);
  }

  lemma NoReply(yielded: seq<StreamChunk>)
    requires forall k | 0 <= k < |yielded| :: yielded[k].finish.None?
    ensures ReplyIn(yielded) == None && Heard(yielded) == yielded
  {
    FirstFinishIs(yielded, |yielded|);
  }

  /** Collects a reply and emits its tokens; a stream without a finish gives no reply. */
  method ReadReply(yielded: seq<StreamChunk>, emitTokens: bool) returns (reply: Option<Reply>, events: seq<TokenEvent>)
    ensures reply == ReplyIn(yielded)
    ensures events == if emitTokens then EventsOf(Heard(yielded)) else []
  {
    events := [];
    var parts: seq<string> := [];
    for n := 0 to |yielded|
      invariant parts == PartsOf(yielded[..n])
      invariant events == if emitTokens then EventsOf(yielded[..n]) else []
      invariant forall k | 0 <= k < n :: yielded[k].finish.None?
    {
      var chunk := yielded[n];
      assert yielded[..n + 1] == yielded[..n] + [chunk];
      HeardSnoc(yielded[..n], chunk);
      if chunk.content != "" {
        parts := parts + [chunk.content];
        if emitTokens {
          events := events + [Token(chunk.content)];
        }
      }
      if chunk.finish.Some? {
        ReplyIs(yielded, n);
        var text := Concat(parts);
        if HasCalls(chunk.calls) && emitTokens {
          events := events + [ToolCalls(chunk.calls.value)];
        }
        return Some(Reply(if text != "" then Some(text) else None, if HasCalls(chunk.calls) then chunk.calls else None)), events;
      }
    }
    NoReply(yielded);
    assert yielded[..|yielded|] == yielded;
    reply := None;
  }

  // ---- Client and reader together --------------------------------------------------------------

  /** The reply to a stream of chunks. */
  function Received(chunks: seq<Chunk>): Option<Reply> {
    ReplyIn(Yielded(chunks))
  }

  function Emitted(chunks: seq<Chunk>): seq<TokenEvent> {
    EventsOf(Heard(Yielded(chunks)))
  }

  function TokenEvents(tokens: seq<string>): seq<TokenEvent> {
    seq(|tokens|, i requires 0 <= i < |tokens| => Token(tokens[i]))
  }

  lemma {:induction false} ContentsAreHeard(tokens: seq<string>)
    requires forall t | t in tokens :: t != ""
    ensures PartsOf(Contents(tokens)) == tokens && EventsOf(Contents(tokens)) == TokenEvents(tokens)
  {
    if tokens != [] {
      var before, last := tokens[..|tokens| - 1], tokens[|tokens| - 1];
      assert tokens == before + [last];
      assert last in tokens && forall t | t in before :: t in tokens;
      ContentsAreHeard(before);
      ContentsSnoc(before, last);
      HeardSnoc(Contents(before), StreamChunk(last, None, None));
      assert TokenEvents(tokens) == TokenEvents(before) + [Token(last)];
    }
  }

  lemma HeardIsYielded(chunks: seq<Chunk>)
    ensures Heard(Yielded(chunks)) == Yielded(chunks)
    ensures FirstFinish(Yielded(chunks)) < |Yielded(chunks)| <==> Finishes(chunks)
  {
    FirstFinishIs(Yielded(chunks), |Yielded(chunks)| - if Finishes(chunks) then 1 else 0);
  }

  /** The reply's text is the concatenation of the emitted tokens; its calls are the assembled ones. */
  lemma ReplyIsWhatWasEmitted(chunks: seq<Chunk>)
    ensures Received(chunks).Some? <==> Finishes(chunks)
    ensures Finishes(chunks) ==>
      && var tokens := TokensOf(Read(chunks)); var calls := FinalCalls(chunks);
      && Received(chunks) == Some(Reply(if Concat(tokens) != "" then Some(Concat(tokens)) else None, if HasCalls(calls) then calls else None))
      && Emitted(chunks) == TokenEvents(tokens) + if HasCalls(calls) then [ToolCalls(calls.value)] else []
    ensures !Finishes(chunks) ==> Emitted(chunks) == TokenEvents(TokensOf(Read(chunks)))
  {
    var tokens := TokensOf(Read(chunks));
    HeardIsYielded(chunks);
    ContentsAreHeard(tokens);
    if Finishes(chunks) {
      var last := StreamChunk("", FinalCalls(chunks), chunks[Stop(chunks)].finish);
      HeardSnoc(Contents(tokens), last);
      assert PartsOf(Yielded(chunks)) == tokens;
    } else {
      assert Yielded(chunks) == Contents(tokens);
    }
  }

  lemma SameCalls(a: seq<Fragment>, b: seq<Fragment>)
    requires forall i :: Of(a, i) == Of(b, i)
    ensures Assembled(a) == Assembled(b) && (a == [] <==> b == [])
  {
    forall i
      ensures i in IndexList(a) <==> i in IndexList(b)
    {
      OfIsEmpty(a, i);
      OfIsEmpty(b, i);
    }
    SortedFacts(IndexList(a));
    SortedFacts(IndexList(b));
    IncreasingIsUnique(Sorted(IndexList(a)), Sorted(IndexList(b)));
    assert a != [] ==> IndexList(a)[0] in IndexList(b);
    assert b != [] ==> IndexList(b)[0] in IndexList(a);
  }

  /** Only the order within each index, and within the text, matters. */
  lemma InterleavingDoesNotMatter(a: seq<Chunk>, b: seq<Chunk>)
    requires Finishes(a) && Finishes(b)
    requires Concat(TokensOf(Read(a))) == Concat(TokensOf(Read(b)))
    requires forall i :: Of(FragmentsOf(Read(a)), i) == Of(FragmentsOf(Read(b)), i)
    ensures Received(a) == Received(b)
  {
    ReplyIsWhatWasEmitted(a);
    ReplyIsWhatWasEmitted(b);
    SameCalls(FragmentsOf(Read(a)), FragmentsOf(Read(b)));
  }

  /** One call per index, in index order, each made of exactly the fragments of its index. */
  lemma AssembledIsOnePerIndex(fragments: seq<Fragment>, index: int) returns (k: nat)
    requires index in IndexList(fragments)
    ensures var own := Of(fragments, index); var indices := Sorted(IndexList(fragments));
      && Increasing(indices) && |Assembled(fragments)| == |indices| && k < |indices| && indices[k] == index
      && Assembled(fragments)[k] == Call(LastNonEmpty(IdsOf(own)), LastNonEmpty(NamesOf(own)), Concat(ArgumentsOf(own)))
  {
    SortedFacts(IndexList(fragments));
    AssembleIs(Of(fragments, index));
    k :| 0 <= k < |Sorted(IndexList(fragments))| && Sorted(IndexList(fragments))[k] == index;
  }

  // ---- The whole reply, from the chunks themselves ---------------------------------------------

  function ContentIn(chunk: Chunk): string {
    if chunk.Delta? then chunk.content else ""
  }

  function FragmentsIn(chunk: Chunk): seq<Fragment> {
    if chunk.Delta? then chunk.fragments else []
  }

  /** All texts of the chunks, joined. */
  function JoinedContent(chunks: seq<Chunk>): string {
    if chunks == [] then "" else JoinedContent(chunks[..|chunks| - 1]) + ContentIn(chunks[|chunks| - 1])
  }

  /** The fragments of one index in all the chunks, in order of arrival. */
  function Arrived(chunks: seq<Chunk>, index: int): seq<Fragment> {
    if chunks == [] then [] else Arrived(chunks[..|chunks| - 1], index) + Of(FragmentsIn(chunks[|chunks| - 1]), index)
  }

  lemma ConcatSnoc(texts: seq<string>, last: string)
    ensures Concat(texts + [last]) == Concat(texts) + last
  {
    assert (texts + [last])[..|texts|] == texts;
  }

  /** Nothing that the model said is lost or said twice. */
  lemma {:induction false} TokensAreTheContent(chunks: seq<Chunk>)
    ensures Concat(TokensOf(chunks)) == JoinedContent(chunks)
  {
    if chunks != [] {
      TokensAreTheContent(chunks[..|chunks| - 1]);
      var before, last := TokensOf(chunks[..|chunks| - 1]), ContentIn(chunks[|chunks| - 1]);
      if last == "" {
        assert TokensOf(chunks) == before;
      } else {
        assert TokensOf(chunks) == before + [last];
        ConcatSnoc(before, last);
      }
    }
  }

  lemma {:induction false} OfAppend(a: seq<Fragment>, b: seq<Fragment>, index: int)
    ensures Of(a + b, index) == Of(a, index) + Of(b, index)
  {
    if b == [] {
      assert a + b == a;
    } else {
      assert (a + b)[..|a + b| - 1] == a + b[..|b| - 1];
      OfAppend(a, b[..|b| - 1], index);
    }
  }

  /** No fragment is lost, used twice or used for another index. */
  lemma {:induction false} FragmentsAreTheArrived(chunks: seq<Chunk>, index: int)
    ensures Of(FragmentsOf(chunks), index) == Arrived(chunks, index)
  {
    if chunks != [] {
      FragmentsAreTheArrived(chunks[..|chunks| - 1], index);
      OfAppend(FragmentsOf(chunks[..|chunks| - 1]), FragmentsIn(chunks[|chunks| - 1]), index);
    }
  }

  lemma {:induction false} OfListed(fragments: seq<Fragment>, index: int)
    ensures index in IndexList(fragments) <==> Of(fragments, index) != []
  {
    OfIsEmpty(fragments, index);
  }

  /** One call for each index that anything arrived for, in order of the indexes, made of what arrived. */
  ghost predicate AreTheCalls(chunks: seq<Chunk>, indexes: seq<int>, calls: seq<Call>) {
    && Increasing(indexes) && |calls| == |indexes|
    && (forall i :: i in indexes <==> Arrived(chunks, i) != [])
    && forall k | 0 <= k < |indexes| ::
         var own := Arrived(chunks, indexes[k]);
         calls[k] == Call(LastNonEmpty(IdsOf(own)), LastNonEmpty(NamesOf(own)), Concat(ArgumentsOf(own)))
  }

  lemma AssembledAreTheCalls(chunks: seq<Chunk>) returns (indexes: seq<int>)
    ensures AreTheCalls(chunks, indexes, Assembled(FragmentsOf(chunks)))
  {
    var fragments := FragmentsOf(chunks);
    indexes := Sorted(IndexList(fragments));
    SortedFacts(IndexList(fragments));
    forall i
      ensures i in indexes <==> Arrived(chunks, i) != []
    {
      FragmentsAreTheArrived(chunks, i);
      OfListed(fragments, i);
    }
    forall k | 0 <= k < |indexes|
      ensures var own := Arrived(chunks, indexes[k]);
        Assembled(fragments)[k] == Call(LastNonEmpty(IdsOf(own)), LastNonEmpty(NamesOf(own)), Concat(ArgumentsOf(own)))
    {
      FragmentsAreTheArrived(chunks, indexes[k]);
      AssembleIs(Of(fragments, indexes[k]));
    }
  }

  /** The calls of a reply, if any. */
  function CallsIn(reply: Reply): seq<Call> {
    if reply.calls.Some? then reply.calls.value else []
  }

  lemma ReplyCalls(chunks: seq<Chunk>)
    requires Finishes(chunks)
    ensures Received(chunks).Some? && CallsIn(Received(chunks).value) == Assembled(FragmentsOf(Read(chunks)))
  {
    ReplyIsWhatWasEmitted(chunks);
    if FragmentsOf(Read(chunks)) == [] {
      assert IndexList(FragmentsOf(Read(chunks))) == [];
    }
  }

  lemma ReplyText(chunks: seq<Chunk>)
    requires Finishes(chunks)
    ensures var text := JoinedContent(Read(chunks));
      Received(chunks).Some? && Received(chunks).value.text == if text == "" then None else Some(text)
  {
    ReplyIsWhatWasEmitted(chunks);
    TokensAreTheContent(Read(chunks));
  }

  /** The text is all that arrived of it, and the calls are made of all that arrived for them. */
  ghost predicate IsAllThatArrived(read: seq<Chunk>, indexes: seq<int>, reply: Reply) {
    && reply.text == (if JoinedContent(read) == "" then None else Some(JoinedContent(read)))
    && AreTheCalls(read, indexes, CallsIn(reply))
  }

  lemma ReadIsReplied(chunks: seq<Chunk>) returns (indexes: seq<int>)
    requires Finishes(chunks)
    ensures Received(chunks).Some? && IsAllThatArrived(Read(chunks), indexes, Received(chunks).value)
  {
    ReplyText(chunks);
    ReplyCalls(chunks);
    indexes := AssembledAreTheCalls(Read(chunks));
  }

  /** Main result: the reply to a stream is all that arrived up to the first chunk with a finish. */
  lemma ReplyIsAllThatArrived(chunks: seq<Chunk>, n: nat) returns (indexes: seq<int>)
    requires n < |chunks| && Ends(chunks[n]) && !Fails(chunks[n]) && forall k | 0 <= k < n :: !Ends(chunks[k])
    ensures Received(chunks).Some? && IsAllThatArrived(chunks[..n + 1], indexes, Received(chunks).value)
  {
    StopIs(chunks, n);
    indexes := ReadIsReplied(chunks);
  }
}
