/** The sliding-window memory, proved equal to a batch definition over the whole history. */
module ShortTerm {
  import opened Messages

  /** What a window is measured against.  `count` stands for the token counter, which raises on every
      message that is not `countable`. */
  datatype Budget = Budget(count: Message -> int, countable: Message -> bool, system: Option<Message>, maxTokens: int)

  function Sum(count: Message -> int, ms: seq<Message>): int {
    if ms == [] then 0 else count(ms[0]) + Sum(count, ms[1..])
  }

  function Total(b: Budget, ms: seq<Message>): int {
    (if b.system.Some? then b.count(b.system.value) else 0) + Sum(b.count, ms)
  }

  predicate Fits(b: Budget, ms: seq<Message>) {
    Total(b, ms) <= b.maxTokens
  }

  /** None of these messages counts below zero. */
  predicate NonNegative(b: Budget, ms: seq<Message>) {
    forall m | m in ms :: b.count(m) >= 0
  }

  predicate AllCountable(b: Budget, ms: seq<Message>) {
    forall m | m in ms :: b.countable(m)
  }

  predicate SystemCountable(b: Budget) {
    b.system.Some? ==> b.countable(b.system.value)
  }

  // ---- The memory as it is kept ------------------------------------------------------------

  /** The window and the running total.  Once a count has raised, the total need not be the window's. */
  datatype Memory = Memory(messages: seq<Message>, total: int)

  /** A memory after an operation on it, and whether that operation raised. */
  datatype Added = Added(memory: Memory, raised: bool)

  /** Whole blocks leave from the front while the running total is over budget; the last block stays.
      An evicted message that cannot be counted raises, with its block gone but not taken off. */
  function TrimTo(b: Budget, mem: Memory): (r: Added)
    decreases |mem.messages|
  {
    var ms := mem.messages;
    if mem.total <= b.maxTokens || |ms| <= 1 || BlockSize(ms) == |ms| then Added(mem, false)
    else
      var popped, rest := ms[..BlockSize(ms)], ms[BlockSize(ms)..];
      if AllCountable(b, popped) then TrimTo(b, Memory(rest, mem.total - Sum(b.count, popped)))
      else Added(Memory(rest, mem.total), true)
  }

  /** A message that cannot be counted raises when it is in the window already. */
  function AddTo(b: Budget, mem: Memory, m: Message): (r: Added) {
    var extended := mem.messages + [m];
    if b.countable(m) then TrimTo(b, Memory(extended, mem.total + b.count(m)))
    else Added(Memory(extended, mem.total), true)
  }

  /** Messages are added in turn up to the first one that raises. */
  function AddAll(b: Budget, mem: Memory, ms: seq<Message>): (r: Added) {
    if ms == [] then Added(mem, false)
    else
      var before := AddAll(b, mem, ms[..|ms| - 1]);
      if before.raised then before else AddTo(b, before.memory, ms[|ms| - 1])
  }

  /** Some message in front of the last one raises. */
  predicate CutShort(b: Budget, mem: Memory, ms: seq<Message>) {
    ms != [] && AddAll(b, mem, ms[..|ms| - 1]).raised
  }

  /** How many of the messages get into the window. */
  function Reached(b: Budget, mem: Memory, ms: seq<Message>): (n: nat)
    ensures n <= |ms|
    ensures n == |ms| <==> !CutShort(b, mem, ms)
    ensures !AddAll(b, mem, ms).raised ==> n == |ms|
  {
    if CutShort(b, mem, ms) then Reached(b, mem, ms[..|ms| - 1]) else |ms|
  }

  // ---- The window while no count raises ----------------------------------------------------

  /** Whole blocks leave from the front while the window is over budget; the last block stays. */
  function Trim(b: Budget, ms: seq<Message>): (r: seq<Message>)
    ensures |r| <= |ms|
    decreases |ms|
  {
    if Fits(b, ms) || |ms| <= 1 || BlockSize(ms) == |ms| then ms
    else Trim(b, ms[BlockSize(ms)..])
  }

  function Add(b: Budget, window: seq<Message>, m: Message): (r: seq<Message>) {
    Trim(b, window + [m])
  }

  /** The window after the messages of `history` were added one by one to an empty memory. */
  function Feed(b: Budget, history: seq<Message>): (window: seq<Message>) {
    if history == [] then []
    else Add(b, Feed(b, history[..|history| - 1]), history[|history| - 1])
  }

  predicate Exact(b: Budget, mem: Memory) {
    mem.total == Total(b, mem.messages) && AllCountable(b, mem.messages)
  }

  lemma {:induction false} SumAppend(count: Message -> int, x: seq<Message>, y: seq<Message>)
    ensures Sum(count, x + y) == Sum(count, x) + Sum(count, y)
  {
    if x == [] {
      assert x + y == y;
    } else {
      assert (x + y)[1..] == x[1..] + y;
      SumAppend(count, x[1..], y);
    }
  }

  lemma {:induction false} ExactTrims(b: Budget, mem: Memory)
    requires Exact(b, mem)
    ensures var r := TrimTo(b, mem);
            !r.raised && Exact(b, r.memory) && r.memory.messages == Trim(b, mem.messages)
    decreases |mem.messages|
  {
    var ms := mem.messages;
    if !Fits(b, ms) && |ms| > 1 && BlockSize(ms) != |ms| {
      var popped, rest := ms[..BlockSize(ms)], ms[BlockSize(ms)..];
      assert ms == popped + rest;
      SumAppend(b.count, popped, rest);
      ExactTrims(b, Memory(rest, mem.total - Sum(b.count, popped)));
    }
  }

  /** Of an exact memory an add raises exactly for a message that cannot be counted, and otherwise
      gives the trimmed extended window with its recount. */
  lemma ExactAdds(b: Budget, mem: Memory, m: Message)
    requires Exact(b, mem)
    ensures var r := AddTo(b, mem, m);
            && (r.raised <==> !b.countable(m))
            && (!r.raised ==> Exact(b, r.memory) && r.memory.messages == Add(b, mem.messages, m))
            && (r.raised ==> r.memory == Memory(mem.messages + [m], mem.total))
  {
    if b.countable(m) {
      SumAppend(b.count, mem.messages, [m]);
      ExactTrims(b, Memory(mem.messages + [m], mem.total + b.count(m)));
    }
  }

  lemma {:induction false} ExactAddsAll(b: Budget, mem: Memory, ms: seq<Message>)
    requires Exact(b, mem)
    ensures var r := AddAll(b, mem, ms);
            (r.raised <==> !AllCountable(b, ms)) && (!r.raised ==> Exact(b, r.memory))
  {
    if ms != [] {
      var before, last := ms[..|ms| - 1], ms[|ms| - 1];
      ExactAddsAll(b, mem, before);
      assert ms == before + [last];
      if AllCountable(b, before) {
        ExactAdds(b, AddAll(b, mem, before).memory, last);
      }
    }
  }

  /** First `gone` went and were taken off the total; then, if the trim raised, `lost` went with a message
      that cannot be counted. */
  ghost predicate IsTrimmed(b: Budget, mem: Memory, gone: seq<Message>, lost: seq<Message>, r: Added) {
    && mem.messages == gone + lost + r.memory.messages
    && AllCountable(b, gone) && r.memory.total == mem.total - Sum(b.count, gone)
    && (if r.raised then !AllCountable(b, lost) else lost == [])
  }

  lemma TrimOneMore(b: Budget, popped: seq<Message>, rest: Memory, total: int, gone: seq<Message>, lost: seq<Message>, r: Added)
    requires AllCountable(b, popped) && rest.total == total - Sum(b.count, popped) && IsTrimmed(b, rest, gone, lost, r)
    ensures IsTrimmed(b, Memory(popped + rest.messages, total), popped + gone, lost, r)
  {
    SumAppend(b.count, popped, gone);
    assert popped + (gone + lost + r.memory.messages) == popped + gone + lost + r.memory.messages;
  }

  /** What a trim does to any memory, whatever its total. */
  lemma {:induction false} TrimSays(b: Budget, mem: Memory) returns (gone: seq<Message>, lost: seq<Message>)
    ensures IsTrimmed(b, mem, gone, lost, TrimTo(b, mem))
    decreases |mem.messages|
  {
    var ms := mem.messages;
    gone, lost := [], [];
    if mem.total > b.maxTokens && |ms| > 1 && BlockSize(ms) != |ms| {
      var popped, rest := ms[..BlockSize(ms)], ms[BlockSize(ms)..];
      assert ms == popped + rest;
      if AllCountable(b, popped) {
        var more: seq<Message>;
        more, lost := TrimSays(b, Memory(rest, mem.total - Sum(b.count, popped)));
        TrimOneMore(b, popped, Memory(rest, mem.total - Sum(b.count, popped)), mem.total, more, lost, TrimTo(b, mem));
        gone := popped + more;
      } else {
        lost := popped;
      }
    }
  }

  /** The memory after exactly these messages, none of which raised. */
  predicate IsMemoryOf(b: Budget, mem: Memory, history: seq<Message>) {
    mem == Memory(Feed(b, history), Total(b, Feed(b, history))) && AllCountable(b, history)
  }

  // ---- The batch definition ----------------------------------------------------------------

  /** The message at `i` is a tool result that belongs to an earlier assistant's round. */
  ghost predicate Attached(h: seq<Message>, i: nat)
    requires i < |h|
  {
    h[i].Tool? && exists j :: 0 <= j < i && OpensRound(h[j]) && forall k | j < k < i :: h[k].Tool?
  }

  /** The suffix from `s` is the longest suffix, cut where a block starts, that fits the budget
      with the system message, or the last block when no such suffix fits. */
  ghost predicate IsBatchStart(b: Budget, h: seq<Message>, s: nat) {
    if h == [] then s == 0
    else
      && s < |h|
      && !Attached(h, s)
      && (forall c: nat | c < s && !Attached(h, c) :: !Fits(b, h[c..]))
      && (Fits(b, h[s..]) || forall c: nat | s < c < |h| :: Attached(h, c))
  }

  ghost predicate IsBatchWindow(b: Budget, h: seq<Message>, w: seq<Message>) {
    exists s: nat :: s <= |h| && IsBatchStart(b, h, s) && w == h[s..]
  }

  lemma BatchStartUnique(b: Budget, h: seq<Message>, s: nat, t: nat)
    requires IsBatchStart(b, h, s) && IsBatchStart(b, h, t)
    ensures s == t
  {
  }

  // ---- The incremental trimmer meets it ----------------------------------------------------

  lemma {:induction false} SumNonNegative(b: Budget, ms: seq<Message>)
    requires NonNegative(b, ms)
    ensures Sum(b.count, ms) >= 0
  {
    if ms != [] {
      SumNonNegative(b, ms[1..]);
    }
  }

  /** The block that starts at `s` owns every message before its end, and the next one is a start. */
  lemma BlockOfHistory(h: seq<Message>, s: nat)
    requires s < |h| && !Attached(h, s)
    ensures var e := s + BlockSize(h[s..]);
            && e <= |h|
            && (forall i: nat | s < i < e :: Attached(h, i))
            && (e < |h| ==> !Attached(h, e))
  {
    var w := h[s..];
    var e := s + BlockSize(w);
    forall i: nat | s < i < e
      ensures Attached(h, i)
    {
      assert w[i - s].Tool? && OpensRound(h[s]);
      assert forall k | s < k < i :: w[k - s] == h[k];
    }
    assert e < |h| ==> w[e - s] == h[e];
  }

  /** Trimming from a start below which nothing fits ends at the batch start. */
  lemma {:induction false} TrimFindsBatchStart(b: Budget, h: seq<Message>, s: nat) returns (t: nat)
    requires s < |h| && !Attached(h, s)
    requires forall c: nat | c < s && !Attached(h, c) :: !Fits(b, h[c..])
    ensures t <= |h| && IsBatchStart(b, h, t) && Trim(b, h[s..]) == h[t..]
    decreases |h| - s
  {
    var w := h[s..];
    BlockOfHistory(h, s);
    if Fits(b, w) || BlockSize(w) == |w| {
      t := s;
    } else {
      var e := s + BlockSize(w);
      assert w[BlockSize(w)..] == h[e..];
      forall c: nat | c < e && !Attached(h, c)
        ensures !Fits(b, h[c..])
      {
        assert c <= s;
      }
      t := TrimFindsBatchStart(b, h, e);
    }
  }

  lemma AttachedIsStable(h: seq<Message>, m: Message, i: nat)
    requires i < |h|
    ensures Attached(h + [m], i) <==> Attached(h, i)
  {
    var all := h + [m];
    assert forall k | 0 <= k < |h| :: all[k] == h[k];
    if Attached(all, i) {
      var j :| 0 <= j < i && OpensRound(all[j]) && forall k | j < k < i :: all[k].Tool?;
      assert OpensRound(h[j]) && forall k | j < k < i :: h[k].Tool?;
    }
  }

  /** Main result: of a history without negative counts, adding one by one gives the batch window. */
  lemma {:induction false} FeedIsBatch(b: Budget, h: seq<Message>) returns (s: nat)
    requires NonNegative(b, h)
    ensures s <= |h| && IsBatchStart(b, h, s) && Feed(b, h) == h[s..]
    decreases |h|
  {
    if h == [] {
      s := 0;
    } else {
      var g, m := h[..|h| - 1], h[|h| - 1];
      assert g + [m] == h;
      var u := FeedIsBatch(b, g);
      assert g[u..] + [m] == h[u..];
      if g == [] {
        assert !Attached(h, 0);
      } else {
        AttachedIsStable(g, m, u);
      }
      forall c: nat | c < u && !Attached(h, c)
        ensures !Fits(b, h[c..])
      {
        AttachedIsStable(g, m, c);
        assert h[c..] == g[c..] + [m];
        SumAppend(b.count, g[c..], [m]);
        SumNonNegative(b, [m]);
      }
      s := TrimFindsBatchStart(b, h, u);
    }
  }

  /** What was added is kept whole exactly when it fits or is a single message; a first message that
      opens no round, such as the prompt of a session, is there exactly that long. */
  lemma AllStaysIffItFits(b: Budget, h: seq<Message>)
    requires NonNegative(b, h) && h != [] && !OpensRound(h[0])
    ensures Feed(b, h) == h <==> |h| == 1 || Fits(b, h)
  {
    var s := FeedIsBatch(b, h);
    assert h[0..] == h && !Attached(h, 0) && (|h| > 1 ==> !Attached(h, 1));
  }

  lemma SumPair(count: Message -> int, x: Message, y: Message)
    ensures Sum(count, [x]) == count(x) && Sum(count, [x, y]) == count(x) + count(y)
  {
    assert [x][1..] == [] && [x, y][1..] == [y] && [y][1..] == [];
  }

  /** A negative count lets an evicted message fit again, which the trimmer cannot undo. */
  lemma NegativeCountBreaksBatch(b: Budget, x: Message, m: Message)
    requires x.User? && b.count(x) > 0 && b.count(m) < 0
    requires b.system == None && b.maxTokens == 2 * b.count(x) - 1
    ensures Feed(b, [x, x, m]) == [x, m]
    ensures !IsBatchWindow(b, [x, x, m], [x, m])
  {
    var h := [x, x, m];
    assert h[..2] == [x, x] && [x, x][..1] == [x] && [x][..0] == [];
    assert [x, x][1..] == [x] && [x, m][1..] == [m] && [x][1..] == [] && [m][1..] == [];
    assert h[1..] == [x, m];
    assert Feed(b, [x]) == [x];
    assert [x] + [x] == [x, x];
    SumPair(b.count, x, x);
    assert Feed(b, [x, x]) == [x];
    assert [x] + [m] == [x, m];
    SumPair(b.count, x, m);
    assert h == [x] + [x, m];
    SumAppend(b.count, [x], [x, m]);
    assert !Attached(h, 0) && h[0..] == h;
    assert !IsBatchStart(b, h, 1);
  }

  /** Exactly when the trimmer is the batch definition on every history that can be counted, under
      every budget: when the counter never goes below zero on what it counts. */
  lemma BatchIffNonNegative(count: Message -> int, countable: Message -> bool, x: Message)
    requires x.User? && countable(x) && count(x) > 0
    ensures (forall m: Message | countable(m) :: count(m) >= 0) <==>
            (forall system: Option<Message>, max: int, h: seq<Message> ::
               var b := Budget(count, countable, system, max);
               AllCountable(b, h) ==> IsBatchWindow(b, h, Feed(b, h)))
  {
    if forall m: Message | countable(m) :: count(m) >= 0 {
      forall system: Option<Message>, max: int, h: seq<Message> | AllCountable(Budget(count, countable, system, max), h)
        ensures IsBatchWindow(Budget(count, countable, system, max), h, Feed(Budget(count, countable, system, max), h))
      {
        var s := FeedIsBatch(Budget(count, countable, system, max), h);
      }
    } else {
      var m: Message :| countable(m) && count(m) < 0;
      var b := Budget(count, countable, None, 2 * count(x) - 1);
      NegativeCountBreaksBatch(b, x, m);
      assert AllCountable(b, [x, x, m]) && !IsBatchWindow(b, [x, x, m], Feed(b, [x, x, m]));
    }
  }

  // ---- What trimming does to pairing -------------------------------------------------------

  lemma {:induction false} TrimKeepsPaired(b: Budget, mem: Memory)
    requires WellPaired(mem.messages)
    ensures WellPaired(TrimTo(b, mem).memory.messages)
    decreases |mem.messages|
  {
    var ms := mem.messages;
    if mem.total > b.maxTokens && |ms| > 1 && BlockSize(ms) != |ms| {
      TrimKeepsPaired(b, Memory(ms[BlockSize(ms)..], mem.total - Sum(b.count, ms[..BlockSize(ms)])));
    }
  }

  lemma {:induction false} TrimKeepsOpen(b: Budget, mem: Memory, owed: multiset<string>)
    requires OpenRound(mem.messages, owed)
    ensures OpenRound(TrimTo(b, mem).memory.messages, owed)
    decreases |mem.messages|
  {
    var ms := mem.messages;
    if mem.total > b.maxTokens && |ms| > 1 && BlockSize(ms) != |ms| {
      TrimKeepsOpen(b, Memory(ms[BlockSize(ms)..], mem.total - Sum(b.count, ms[..BlockSize(ms)])), owed);
    }
  }

  /** The newest message survives every trim. */
  lemma {:induction false} TrimKeepsLast(b: Budget, mem: Memory)
    requires mem.messages != []
    ensures var r := TrimTo(b, mem).memory.messages; r != [] && r[|r| - 1] == mem.messages[|mem.messages| - 1]
    decreases |mem.messages|
  {
    var ms := mem.messages;
    if mem.total > b.maxTokens && |ms| > 1 && BlockSize(ms) != |ms| {
      TrimKeepsLast(b, Memory(ms[BlockSize(ms)..], mem.total - Sum(b.count, ms[..BlockSize(ms)])));
    }
  }

  lemma {:induction false} TrimIsSuffix(b: Budget, ms: seq<Message>)
    ensures Trim(b, ms) == ms[|ms| - |Trim(b, ms)|..]
    decreases |ms|
  {
    if Trim(b, ms) != ms {
      TrimIsSuffix(b, ms[BlockSize(ms)..]);
    }
  }

  /** The window holds nothing but what was added. */
  lemma {:induction false} WindowIsFromHistory(b: Budget, h: seq<Message>)
    ensures forall m | m in Feed(b, h) :: m in h
  {
    if h != [] {
      var before, last := h[..|h| - 1], h[|h| - 1];
      WindowIsFromHistory(b, before);
      TrimIsSuffix(b, Feed(b, before) + [last]);
      assert h == before + [last];
    }
  }

  lemma WindowIsCountable(b: Budget, h: seq<Message>)
    requires AllCountable(b, h)
    ensures AllCountable(b, Feed(b, h))
  {
    WindowIsFromHistory(b, h);
  }

  /** What one more message does to the memory of a history. */
  lemma MemoryOfAdds(b: Budget, mem: Memory, h: seq<Message>, m: Message)
    requires IsMemoryOf(b, mem, h)
    ensures var r := AddTo(b, mem, m);
            && (r.raised <==> !b.countable(m))
            && (!r.raised ==> IsMemoryOf(b, r.memory, h + [m]))
            && (r.raised ==> r.memory == Memory(Feed(b, h) + [m], mem.total))
  {
    WindowIsCountable(b, h);
    ExactAdds(b, mem, m);
    assert (h + [m])[..|h|] == h;
  }

  // ---- Settled windows: what save and load rely on -----------------------------------------

  /** What every trim leaves: the window fits, or it is a single block. */
  ghost predicate Settled(b: Budget, w: seq<Message>) {
    w == [] || Fits(b, w) || BlockSize(w) == |w|
  }

  lemma {:induction false} TrimIsSettled(b: Budget, ms: seq<Message>)
    ensures Settled(b, Trim(b, ms))
    decreases |ms|
  {
    if ms != [] && Trim(b, ms) != ms {
      TrimIsSettled(b, ms[BlockSize(ms)..]);
    }
  }

  lemma {:induction false} FeedIsSettled(b: Budget, h: seq<Message>)
    ensures Settled(b, Feed(b, h))
  {
    if h != [] {
      TrimIsSettled(b, Feed(b, h[..|h| - 1]) + [h[|h| - 1]]);
    }
  }

  /** A block reaches to the first message that is not a tool message. */
  lemma BlockSizeIs(w: seq<Message>, n: nat)
    requires 1 <= n <= |w| && OpensRound(w[0])
    requires forall i | 1 <= i < n :: w[i].Tool?
    requires n < |w| ==> !w[n].Tool?
    ensures BlockSize(w) == n
  {
    var k := BlockSize(w);
    assert !(k < n);
    assert !(n < k);
  }

  lemma PrefixOfBlock(w: seq<Message>, n: nat)
    requires w != [] && BlockSize(w) == |w| && 0 < n <= |w|
    ensures BlockSize(w[..n]) == n
  {
    var p := w[..n];
    if n > 1 {
      assert OpensRound(w[0]) by {
        assert w[1].Tool?;
      }
      assert forall i | 1 <= i < n :: p[i] == w[i];
      BlockSizeIs(p, n);
    }
  }

  /** Re-adding the messages of a settled window evicts nothing, at no point. */
  lemma {:induction false} FeedSettledIsIdentity(b: Budget, w: seq<Message>, n: nat)
    requires NonNegative(b, w) && Settled(b, w) && n <= |w|
    ensures Feed(b, w[..n]) == w[..n]
  {
    if n > 0 {
      FeedSettledIsIdentity(b, w, n - 1);
      var p := w[..n];
      assert p[..n - 1] == w[..n - 1] && p[..n - 1] + [p[n - 1]] == p;
      if Fits(b, w) {
        assert w == p + w[n..];
        SumAppend(b.count, p, w[n..]);
        SumNonNegative(b, w[n..]);
      } else {
        PrefixOfBlock(w, n);
      }
    }
  }

  // ---- The class ---------------------------------------------------------------------------

  class BufferMemory {
    const budget: Budget
    var messages: seq<Message>
    var totalTokens: int
    /** Every message added since construction or the last clear. */
    ghost var history: seq<Message>

    function State(): Memory
      reads this
    {
      Memory(messages, totalTokens)
    }

    /** Since construction or the last clear no count has raised. */
    ghost predicate Unbroken()
      reads this
    {
      IsMemoryOf(budget, State(), history)
    }

    constructor (budget: Budget)
      requires SystemCountable(budget)
      ensures Unbroken() && this.budget == budget && messages == [] && history == []
    {
      this.budget := budget;
      messages, history := [], [];
      totalTokens := if budget.system.Some? then budget.count(budget.system.value) else 0;
    }

    /** A system message that cannot be counted raises, and there is no memory. */
    static method Create(budget: Budget) returns (memory: Option<BufferMemory>)
      ensures memory.Some? <==> SystemCountable(budget)
      ensures memory.Some? ==>
                && fresh(memory.value) && memory.value.Unbroken() && memory.value.budget == budget
                && memory.value.messages == [] && memory.value.history == []
    {
      if !SystemCountable(budget) {
        return None;
      }
      var created := new BufferMemory(budget);
      memory := Some(created);
    }

    /** The message is in the window and, if it can be counted, counted, before anything is evicted. */
    method AddMessage(m: Message) returns (raised: bool)
      modifies this
      ensures Added(State(), raised) == AddTo(budget, old(State()), m) && history == old(history) + [m]
      ensures old(Unbroken()) ==> (raised <==> !budget.countable(m)) && (!raised ==> Unbroken())
    {
      if IsMemoryOf(budget, State(), history) {
        MemoryOfAdds(budget, State(), history, m);
      }
      history := history + [m];
      messages := messages + [m];
      if !budget.countable(m) {
        return true;
      }
      totalTokens := totalTokens + budget.count(m);
      raised := TrimWindow();
    }

    method TrimWindow() returns (raised: bool)
      modifies `messages, `totalTokens
      ensures Added(State(), raised) == TrimTo(budget, old(State()))
    {
      while totalTokens > budget.maxTokens && |messages| > 1
        invariant TrimTo(budget, State()) == TrimTo(budget, old(State()))
        decreases |messages|
      {
        var blockSize := CountTurnBlockSize(0);
        if blockSize >= |messages| {
          break;
        }
        var popped := messages[..blockSize];
        assert messages[0..] == messages;
        messages := messages[blockSize..];
        var spent := SumOf(popped);
        if spent.None? {
          return true;
        }
        totalTokens := totalTokens - spent.value;
      }
      raised := false;
    }

    /** Counting stops, and raises, at the first message that cannot be counted. */
    method SumOf(ms: seq<Message>) returns (n: Option<int>)
      ensures n == if AllCountable(budget, ms) then Some(Sum(budget.count, ms)) else None
    {
      var sum := 0;
      for i := 0 to |ms|
        invariant sum == Sum(budget.count, ms[..i]) && AllCountable(budget, ms[..i])
      {
        assert ms[..i + 1] == ms[..i] + [ms[i]];
        if !budget.countable(ms[i]) {
          return None;
        }
        SumAppend(budget.count, ms[..i], [ms[i]]);
        sum := sum + budget.count(ms[i]);
      }
      assert ms[..|ms|] == ms;
      n := Some(sum);
    }

    method CountTurnBlockSize(start: nat) returns (n: nat)
      requires start < |messages|
      ensures n == BlockSize(messages[start..])
    {
      var m := messages[start];
      if OpensRound(m) {
        n := 1;
        var i := start + 1;
        while i < |messages| && messages[i].Tool?
          invariant start < i <= |messages| && n == i - start
          invariant forall k | start < k < i :: messages[k].Tool?
        {
          n := n + 1;
          i := i + 1;
        }
        BlockSizeIs(messages[start..], n);
      } else {
        n := 1;
      }
    }

    /** The system message, if any, in front of the window. */
    function GetContext(): (context: seq<Message>)
      reads this
    {
      (if budget.system.Some? then [budget.system.value] else []) + messages
    }

    /** The window is emptied first, so it is empty even if counting the system message raises. */
    method Clear() returns (raised: bool)
      modifies this
      ensures messages == [] && history == []
      ensures raised <==> !SystemCountable(budget)
      ensures if raised then totalTokens == 0 else Unbroken()
    {
      messages, history := [], [];
      totalTokens := 0;
      raised := !SystemCountable(budget);
      if !raised && budget.system.Some? {
        totalTokens := totalTokens + budget.count(budget.system.value);
      }
    }

    /** The window is the batch window of everything added, and the running total its recount. */
    lemma WindowIsBatch()
      requires Unbroken() && NonNegative(budget, history)
      ensures IsBatchWindow(budget, history, messages)
      ensures totalTokens == Total(budget, messages)
    {
      var s := FeedIsBatch(budget, history);
    }
  }
}
