/** Sessions in memory and on disk: the cache of windows over a lossless store. */
module Manager {
  import opened Messages
  import opened ShortTerm

  datatype Stored = Stored(system: Option<Message>, messages: seq<Message>)

  /** A window that went through save and load under the same budget comes back as it was, as long as
      none of its own messages counts below zero. */
  lemma SaveLoadIdentity(b: Budget, history: seq<Message>)
    requires NonNegative(b, Feed(b, history))
    ensures Feed(b, Feed(b, history)) == Feed(b, history)
  {
    var w := Feed(b, history);
    FeedIsSettled(b, history);
    FeedSettledIsIdentity(b, w, |w|);
    assert w[..|w|] == w;
  }

  class MemoryManager {
    const count: Message -> int
    const countable: Message -> bool
    const maxTokens: int
    var cache: map<string, BufferMemory>
    /** The session table: what was written is what is read. */
    var store: map<string, Stored>

    function BudgetFor(system: Option<Message>): Budget {
      Budget(count, countable, system, maxTokens)
    }

    ghost predicate Valid()
      reads this
    {
      && (forall s | s in cache :: cache[s].budget == BudgetFor(cache[s].budget.system))
      && (forall s, t | s in cache && t in cache && s != t :: cache[s] != cache[t])
    }

    constructor (count: Message -> int, countable: Message -> bool, maxTokens: int, store: map<string, Stored>)
      ensures Valid() && cache == map[] && this.store == store
      ensures this.count == count && this.countable == countable && this.maxTokens == maxTokens
    {
      this.count, this.countable, this.maxTokens := count, countable, maxTokens;
      this.cache, this.store := map[], store;
    }

    /** A new session whose system message cannot be counted raises and is not cached. */
    method GetOrCreate(session: string, system: Option<Message>) returns (memory: Option<BufferMemory>)
      requires Valid()
      modifies `cache
      ensures Valid()
      ensures memory.None? <==> session !in old(cache) && !SystemCountable(BudgetFor(system))
      ensures memory.None? || session in old(cache) ==> cache == old(cache)
      ensures session in old(cache) ==> memory == Some(cache[session])
      ensures session !in old(cache) && memory.Some? ==>
                && fresh(memory.value) && cache == old(cache)[session := memory.value]
                && memory.value.Unbroken() && memory.value.messages == [] && memory.value.budget == BudgetFor(system)
    {
      if session !in cache {
        var created := BufferMemory.Create(BudgetFor(system));
        if created.None? {
          return None;
        }
        cache := cache[session := created.value];
      }
      memory := Some(cache[session]);
    }

    /** Writes the cached window down; fails, changing nothing, when the session is not cached. */
    method Save(session: string) returns (ok: bool)
      requires Valid()
      modifies `store
      ensures ok <==> session in cache
      ensures store == if !ok then old(store)
                       else old(store)[session := Stored(cache[session].budget.system, cache[session].messages)]
    {
      ok := session in cache;
      if ok {
        var memory := cache[session];
        store := store[session := Stored(memory.budget.system, memory.messages)];
      }
    }

    predicate RowCountable(row: Stored) {
      SystemCountable(BudgetFor(row.system)) && AllCountable(BudgetFor(row.system), row.messages)
    }

    /** The cached memory if there is one, else the stored window re-added message by message.  A
        stored message that cannot be counted raises, and the session stays uncached. */
    method Load(session: string) returns (memory: Option<BufferMemory>, raised: bool)
      requires Valid()
      modifies `cache
      ensures Valid()
      ensures raised <==> session !in old(cache) && session in store && !RowCountable(store[session])
      ensures memory.None? <==> raised || (session !in old(cache) && session !in store)
      ensures session in old(cache) ==> cache == old(cache) && memory == Some(cache[session])
      ensures memory.None? ==> cache == old(cache)
      ensures session !in old(cache) && memory.Some? ==>
                && fresh(memory.value) && memory.value.Unbroken()
                && cache == old(cache)[session := memory.value]
                && memory.value.budget == BudgetFor(store[session].system)
                && memory.value.messages == Feed(memory.value.budget, store[session].messages)
    {
      if session in cache {
        return Some(cache[session]), false;
      }
      if session !in store {
        return None, false;
      }
      var row := store[session];
      var created := BufferMemory.Create(BudgetFor(row.system));
      if created.None? {
        return None, true;
      }
      var loaded := created.value;
      for i := 0 to |row.messages|
        invariant fresh(loaded) && loaded.Unbroken() && loaded.budget == BudgetFor(row.system)
        invariant loaded.history == row.messages[..i]
        invariant cache == old(cache) && Valid()
        modifies loaded
      {
        raised := loaded.AddMessage(row.messages[i]);
        if raised {
          return None, true;
        }
        assert row.messages[..i + 1] == row.messages[..i] + [row.messages[i]];
      }
      assert row.messages[..|row.messages|] == row.messages;
      cache := cache[session := loaded];
      memory, raised := Some(loaded), false;
    }

    method DeleteSession(session: string)
      requires Valid()
      modifies `cache, `store
      ensures Valid() && cache == old(cache) - {session} && store == old(store) - {session}
    {
      cache := cache - {session};
      store := store - {session};
    }

    /** A restart between save and load loses nothing: a second manager over the same store and
        settings gives the session back with the same system message, window and total, unless counting
        the window again raises. */
    method SaveAndReopen(session: string) returns (memory: Option<BufferMemory>)
      requires Valid() && session in cache
      requires NonNegative(cache[session].budget, cache[session].messages)
      modifies `store
      ensures memory.Some? <==> SystemCountable(cache[session].budget) && AllCountable(cache[session].budget, cache[session].messages)
      ensures memory.Some? ==> fresh(memory.value) && memory.value.Unbroken() && memory.value.budget == cache[session].budget
      ensures memory.Some? && Settled(cache[session].budget, cache[session].messages) ==>
                && memory.value.messages == cache[session].messages
                && memory.value.totalTokens == Total(cache[session].budget, cache[session].messages)
      ensures cache[session].Unbroken() && SystemCountable(cache[session].budget) ==>
                && memory.Some? && memory.value.messages == cache[session].messages
                && memory.value.totalTokens == cache[session].totalTokens
    {
      var saved := Save(session);
      var reopened := new MemoryManager(count, countable, maxTokens, store);
      var raised: bool;
      memory, raised := reopened.Load(session);
      var kept := cache[session];
      if Settled(kept.budget, kept.messages) {
        FeedSettledIsIdentity(kept.budget, kept.messages, |kept.messages|);
        assert kept.messages[..|kept.messages|] == kept.messages;
      }
      if IsMemoryOf(kept.budget, kept.State(), kept.history) {
        WindowIsCountable(kept.budget, kept.history);
        FeedIsSettled(kept.budget, kept.history);
      }
    }
  }
}
