/** The router's LRU cache: what a route does to it, when a route trips over it, and that otherwise
    a cached route is the route that embeds everything afresh. */
module RouterCache {
  import opened Lists
  import opened Messages
  import opened Router

  /** The ordered dict: its keys from least to most recently used, and what they map to. */
  datatype Cache = Cache(keys: seq<string>, vectors: map<string, Vector>)

  ghost predicate Agree(c: Cache) {
    NoRepeats(c.keys) && forall t :: t in c.keys <==> t in c.vectors
  }

  /** Between two routes: the two parts agree and the bound holds. */
  ghost predicate WellKept(c: Cache, size: nat) {
    Agree(c) && |c.keys| <= size
  }

  function Without(keys: seq<string>, text: string): seq<string> {
    if keys == [] then []
    else if keys[0] == text then Without(keys[1..], text)
    else [keys[0]] + Without(keys[1..], text)
  }

  function MoveToEnd(keys: seq<string>, text: string): seq<string> {
    Without(keys, text) + [text]
  }

  /** The keys after the first `n` texts were moved to the end, one by one. */
  function Touch(keys: seq<string>, texts: seq<string>, n: nat): seq<string>
    requires n <= |texts|
  {
    if n == 0 then keys else MoveToEnd(Touch(keys, texts, n - 1), texts[n - 1])
  }

  function DropOldest(c: Cache): Cache
    requires c.keys != []
  {
    Cache(c.keys[1..], c.vectors - {c.keys[0]})
  }

  function Evict(c: Cache, size: nat): Cache
    decreases |c.keys|
  {
    if |c.keys| <= size then c
    else Evict(DropOldest(c), size)
  }

  function Store(c: Cache, text: string, vector: Vector, size: nat): Cache {
    Evict(Cache(MoveToEnd(c.keys, text), c.vectors[text := vector]), size)
  }

  function StoreFirst(c: Cache, texts: seq<string>, vectors: seq<Vector>, n: nat, size: nat): Cache
    requires n <= |texts| == |vectors|
  {
    if n == 0 then c else Store(StoreFirst(c, texts, vectors, n - 1, size), texts[n - 1], vectors[n - 1], size)
  }

  function Missing(c: Cache, texts: seq<string>): (missing: seq<string>)
    ensures |missing| <= |texts|
    ensures forall t :: t in missing <==> t in texts && t !in c.vectors
  {
    if texts == [] then []
    else (if texts[0] in c.vectors then [] else [texts[0]]) + Missing(c, texts[1..])
  }

  /** How many of the texts are found before the first one that is not. */
  function FoundUpTo(c: Cache, texts: seq<string>): (n: nat)
    ensures n <= |texts| && (forall i | 0 <= i < n :: texts[i] in c.vectors) && (n < |texts| ==> texts[n] !in c.vectors)
  {
    if texts == [] || texts[0] !in c.vectors then 0 else 1 + FoundUpTo(c, texts[1..])
  }

  function Lookup(c: Cache, texts: seq<string>): seq<Vector>
    requires forall t | t in texts :: t in c.vectors
  {
    seq(|texts|, i requires 0 <= i < |texts| => c.vectors[texts[i]])
  }

  // ---- One route -------------------------------------------------------------------------------

  datatype Embedded = Failed(error: Error) | Vectors(vectors: seq<Vector>)

  /** The reply to a batch, or what is wrong with it. */
  function Embedding(reply: Reply, batch: nat): (r: Embedded)
    ensures r.Vectors? ==> |r.vectors| == batch
  {
    if reply.Raised? then Failed(EmbeddingFailed)
    else if reply.NotABatch? || |reply.vectors| != batch then Failed(UnexpectedBatchSize)
    else if exists v | v in reply.vectors :: !WellFormed(v) then Failed(InvalidVector)
    else Vectors(seq(batch, i requires 0 <= i < batch => assert WellFormed(reply.vectors[i]); Validated(reply.vectors[i]).value))
  }

  function StoreMissing(c: Cache, texts: seq<string>, vectors: seq<Vector>, size: nat): Cache
    requires |vectors| == |Missing(c, texts)|
  {
    StoreFirst(c, Missing(c, texts), vectors, |vectors|, size)
  }

  /** Use of the cache, once the query and the missing texts are embedded. */
  function UseCache(s: Settings, c: Cache, schemas: seq<Schema>, names: seq<string>, texts: seq<string>, vectors: seq<Vector>)
    : (Outcome, Cache)
    requires |schemas| == |names| == |texts| && |vectors| == 1 + |Missing(c, texts)|
  {
    var stored := StoreMissing(c, texts, vectors[1..], s.cacheSize);
    var found := FoundUpTo(stored, texts);
    var after := Cache(Touch(stored.keys, texts, found), stored.vectors);
    if found < |texts| then (Refused(CacheInvariantViolated), after)
    else (Choose(s, schemas, names, vectors[0], Lookup(stored, texts)), after)
  }

  function RouteStep(s: Settings, c: Cache, query: string, schemas: seq<Schema>, embed: seq<string> -> Reply): (Outcome, Cache) {
    match CheckRequest(s, query, schemas)
    case NothingToRoute => (Routed(Route([], [])), c)
    case Rejected(error) => (Refused(error), c)
    case Proceed(names, texts) =>
      var missing := Missing(c, texts);
      match Embedding(embed([query] + missing), 1 + |missing|)
      case Failed(error) => (Refused(error), c)
      case Vectors(vectors) => UseCache(s, c, schemas, names, texts, vectors)
  }

  // ---- What storing does to the keys -----------------------------------------------------------

  lemma {:induction false} WithoutFacts(keys: seq<string>, text: string)
    ensures forall t :: t in Without(keys, text) <==> t in keys && t != text
    ensures NoRepeats(keys) ==> NoRepeats(Without(keys, text))
    ensures NoRepeats(keys) ==> |Without(keys, text)| == |keys| - (if text in keys then 1 else 0)
    ensures text !in keys ==> Without(keys, text) == keys
  {
    if keys != [] {
      WithoutFacts(keys[1..], text);
      assert keys == [keys[0]] + keys[1..];
      if NoRepeats(keys) {
        assert keys[0] !in keys[1..];
        assert keys[0] !in Without(keys[1..], text);
      }
    }
  }

  lemma {:induction false} WithoutAppend(a: seq<string>, b: seq<string>, text: string)
    ensures Without(a + b, text) == Without(a, text) + Without(b, text)
  {
    if a == [] {
      assert a + b == b;
    } else {
      assert (a + b)[1..] == a[1..] + b;
      WithoutAppend(a[1..], b, text);
    }
  }

  lemma {:induction false} TouchFacts(keys: seq<string>, texts: seq<string>, n: nat)
    requires n <= |texts| && NoRepeats(keys)
    ensures NoRepeats(Touch(keys, texts, n)) && |Touch(keys, texts, n)| <= |keys| + n
    ensures forall t :: t in Touch(keys, texts, n) <==> t in keys || t in texts[..n]
    ensures (forall t | t in texts[..n] :: t in keys) ==> |Touch(keys, texts, n)| == |keys|
  {
    if n > 0 {
      var before := Touch(keys, texts, n - 1);
      TouchFacts(keys, texts, n - 1);
      WithoutFacts(before, texts[n - 1]);
      assert texts[..n] == texts[..n - 1] + [texts[n - 1]];
    }
  }

  /** How many of the oldest keys give way when `more` new ones come in. */
  function Overflow(keys: seq<string>, more: nat, size: nat): nat {
    if |keys| + more <= size then 0 else |keys| + more - size
  }

  lemma DropOldestAgrees(c: Cache)
    requires Agree(c) && c.keys != []
    ensures Agree(DropOldest(c))
  {
    NoRepeatsTail(c.keys);
    var rest := DropOldest(c);
    forall t
      ensures t in rest.keys <==> t in rest.vectors
    {
      assert t in c.keys <==> t == c.keys[0] || t in c.keys[1..];
    }
  }

  lemma {:induction false} EvictKeys(c: Cache, size: nat)
    requires Agree(c)
    ensures Evict(c, size).keys == c.keys[Overflow(c.keys, 0, size)..]
    ensures WellKept(Evict(c, size), size)
    decreases |c.keys|
  {
    if |c.keys| > size {
      DropOldestAgrees(c);
      EvictKeys(DropOldest(c), size);
    }
  }

  /** Evicting changes no vector that stays. */
  lemma {:induction false} EvictValues(c: Cache, size: nat)
    ensures forall t | t in Evict(c, size).vectors :: t in c.vectors && Evict(c, size).vectors[t] == c.vectors[t]
    decreases |c.keys|
  {
    if |c.keys| > size {
      EvictValues(DropOldest(c), size);
    }
  }

  lemma StoreFacts(c: Cache, text: string, vector: Vector, size: nat)
    requires Agree(c) && size > 0
    ensures var r := Store(c, text, vector, size); var moved := MoveToEnd(c.keys, text);
      && r.keys == moved[Overflow(moved, 0, size)..] && WellKept(r, size)
      && forall t | t in r.vectors :: if t == text then r.vectors[t] == vector else t in c.vectors && r.vectors[t] == c.vectors[t]
  {
    WithoutFacts(c.keys, text);
    var extended := Cache(MoveToEnd(c.keys, text), c.vectors[text := vector]);
    EvictKeys(extended, size);
    EvictValues(extended, size);
  }

  /** One new text stored behind other new ones: it takes its place from an old key. */
  lemma StoreBehind(c: Cache, older: seq<string>, recent: seq<string>, text: string, vector: Vector, size: nat)
    requires WellKept(c, size) && c.keys == older + recent && text !in older
    requires |MoveToEnd(recent, text)| <= size
    ensures var m := MoveToEnd(recent, text); var over := Overflow(older, |m|, size);
      over <= |older| && Store(c, text, vector, size).keys == older[over..] + m
    ensures WellKept(Store(c, text, vector, size), size)
  {
    var m := MoveToEnd(recent, text);
    WithoutAppend(older, recent, text);
    WithoutFacts(older, text);
    StoreFacts(c, text, vector, size);
    assert MoveToEnd(c.keys, text) == older + m;
  }

  lemma OverflowInSteps(keys: seq<string>, m: nat, n: nat, size: nat)
    requires |keys| <= size && m <= n <= size
    ensures var over := Overflow(keys, m, size); var more := Overflow(keys[over..], n, size);
      over + more == Overflow(keys, n, size) && keys[over..][more..] == keys[Overflow(keys, n, size)..]
  {
  }

  /** New texts push out the oldest keys, never each other. */
  lemma {:induction false} StoreFirstFacts(c: Cache, texts: seq<string>, vectors: seq<Vector>, n: nat, size: nat)
    requires WellKept(c, size) && n <= |texts| == |vectors| <= size
    requires forall t | t in texts :: t !in c.keys
    ensures |Touch([], texts, n)| <= n && Overflow(c.keys, |Touch([], texts, n)|, size) <= |c.keys|
    ensures StoreFirst(c, texts, vectors, n, size).keys == c.keys[Overflow(c.keys, |Touch([], texts, n)|, size)..] + Touch([], texts, n)
    ensures WellKept(StoreFirst(c, texts, vectors, n, size), size)
  {
    TouchFacts([], texts, n);
    if n > 0 {
      var before := StoreFirst(c, texts, vectors, n - 1, size);
      StoreFirstFacts(c, texts, vectors, n - 1, size);
      TouchFacts([], texts, n - 1);
      var m, text := Touch([], texts, n - 1), texts[n - 1];
      WithoutFacts(m, text);
      var over := Overflow(c.keys, |m|, size);
      OverflowInSteps(c.keys, |m|, |MoveToEnd(m, text)|, size);
      assert text in texts;
      StoreBehind(before, c.keys[over..], m, text, vectors[n - 1], size);
    }
  }

  // ---- When a route trips over its own cache ---------------------------------------------------

  function NewTexts(c: Cache, texts: seq<string>): set<string> {
    set t | t in texts && t !in c.vectors
  }

  /** The keys that the new texts push out: the least recently used ones. */
  function PushedOut(c: Cache, texts: seq<string>, size: nat): seq<string> {
    var over := Overflow(c.keys, |NewTexts(c, texts)|, size);
    if over <= |c.keys| then c.keys[..over] else c.keys
  }

  /** One of the texts is itself pushed out by the others. */
  predicate Trips(c: Cache, texts: seq<string>, size: nat) {
    exists t | t in texts :: t in PushedOut(c, texts, size)
  }

  lemma {:induction false} CountNoRepeats(s: seq<string>, elements: set<string>)
    requires NoRepeats(s) && forall t :: t in s <==> t in elements
    ensures |s| == |elements|
  {
    if s == [] {
      assert elements == {};
    } else {
      assert s == [s[0]] + s[1..];
      CountNoRepeats(s[1..], elements - {s[0]});
    }
  }

  /** The missing texts, each once, in the order of their last storing. */
  function NewKeys(c: Cache, texts: seq<string>): seq<string> {
    Touch([], Missing(c, texts), |Missing(c, texts)|)
  }

  lemma NewKeysAreTheNewTexts(c: Cache, texts: seq<string>)
    ensures |NewKeys(c, texts)| == |NewTexts(c, texts)|
    ensures forall t :: t in NewKeys(c, texts) <==> t in texts && t !in c.vectors
  {
    var missing := Missing(c, texts);
    TouchFacts([], missing, |missing|);
    assert missing[..|missing|] == missing;
    CountNoRepeats(NewKeys(c, texts), NewTexts(c, texts));
  }

  /** After a store the cache holds the old keys that were not pushed out, then the new texts. */
  lemma KeysAfterStore(c: Cache, texts: seq<string>, vectors: seq<Vector>, size: nat)
    requires WellKept(c, size) && |texts| <= size && |vectors| == |Missing(c, texts)|
    ensures var r := StoreMissing(c, texts, vectors, size); var out := PushedOut(c, texts, size);
      WellKept(r, size) && |out| <= |c.keys| && out == c.keys[..|out|] && r.keys == c.keys[|out|..] + NewKeys(c, texts)
  {
    StoreFirstFacts(c, Missing(c, texts), vectors, |vectors|, size);
    assert |NewKeys(c, texts)| == |NewTexts(c, texts)| by {
      NewKeysAreTheNewTexts(c, texts);
    }
  }

  lemma IsStored(c: Cache, texts: seq<string>, vectors: seq<Vector>, size: nat, t: string)
    requires WellKept(c, size) && |texts| <= size && |vectors| == |Missing(c, texts)|
    ensures var r := StoreMissing(c, texts, vectors, size);
      && (t in texts ==> (t in r.vectors <==> t !in PushedOut(c, texts, size)))
      && (t in r.keys ==> t in c.keys || t in texts)
  {
    var r, out := StoreMissing(c, texts, vectors, size), PushedOut(c, texts, size);
    KeysAfterStore(c, texts, vectors, size);
    NewKeysAreTheNewTexts(c, texts);
    NoRepeatsSplit(c.keys, |out|, t);
    assert t in r.vectors <==> t in r.keys;
    assert t in r.keys <==> t in c.keys[|out|..] || t in NewKeys(c, texts);
  }

  lemma StoredKeys(c: Cache, texts: seq<string>, vectors: seq<Vector>, size: nat)
    requires WellKept(c, size) && |texts| <= size && |vectors| == |Missing(c, texts)|
    ensures var r := StoreMissing(c, texts, vectors, size);
      && WellKept(r, size)
      && (forall t | t in texts :: t in r.vectors <==> t !in PushedOut(c, texts, size))
      && (forall t :: t in r.keys ==> t in c.keys || t in texts)
  {
    KeysAfterStore(c, texts, vectors, size);
    forall t
      ensures t in texts ==> (t in StoreMissing(c, texts, vectors, size).vectors <==> t !in PushedOut(c, texts, size))
      ensures t in StoreMissing(c, texts, vectors, size).keys ==> t in c.keys || t in texts
    {
      IsStored(c, texts, vectors, size, t);
    }
  }

  // ---- The cache holds what the embedder would say ---------------------------------------------

  function Pointwise(f: string -> RawVector, batch: seq<string>): Reply {
    Batch(seq(|batch|, i requires 0 <= i < |batch| => f(batch[i])))
  }

  /** The embedder is a function of the text, as far as it answers at all. */
  ghost predicate Faithful(f: string -> RawVector, embed: seq<string> -> Reply) {
    forall batch | embed(batch).Batch? && |embed(batch).vectors| == |batch| :: embed(batch) == Pointwise(f, batch)
  }

  ghost predicate Consistent(f: string -> RawVector, c: Cache) {
    forall t | t in c.vectors :: Validated(f(t)) == Some(c.vectors[t])
  }

  lemma StoreOneKeepsConsistent(f: string -> RawVector, c: Cache, text: string, vector: Vector, size: nat)
    requires Agree(c) && size > 0 && Consistent(f, c) && Validated(f(text)) == Some(vector)
    ensures Consistent(f, Store(c, text, vector, size))
  {
    StoreFacts(c, text, vector, size);
  }

  lemma {:induction false} StoreKeepsConsistent(f: string -> RawVector, c: Cache, texts: seq<string>, vectors: seq<Vector>, n: nat, size: nat)
    requires WellKept(c, size) && n <= |texts| == |vectors| <= size && Consistent(f, c)
    requires forall t | t in texts :: t !in c.keys
    requires forall i | 0 <= i < |texts| :: Validated(f(texts[i])) == Some(vectors[i])
    ensures Consistent(f, StoreFirst(c, texts, vectors, n, size))
  {
    if n > 0 {
      var before := StoreFirst(c, texts, vectors, n - 1, size);
      assert Consistent(f, before) by {
        StoreKeepsConsistent(f, c, texts, vectors, n - 1, size);
      }
      assert WellKept(before, size) by {
        StoreFirstFacts(c, texts, vectors, n - 1, size);
      }
      StoreOneKeepsConsistent(f, before, texts[n - 1], vectors[n - 1], size);
    }
  }

  // ---- Routing without a cache -----------------------------------------------------------------

  /** The route that embeds the query and every tool text afresh. */
  function FreshRoute(s: Settings, f: string -> RawVector, query: string, schemas: seq<Schema>): Outcome {
    match CheckRequest(s, query, schemas)
    case NothingToRoute => Routed(Route([], []))
    case Rejected(error) => Refused(error)
    case Proceed(names, texts) =>
      match Embedding(Pointwise(f, [query] + texts), 1 + |texts|)
      case Failed(error) => Refused(error)
      case Vectors(vectors) => Choose(s, schemas, names, vectors[0], vectors[1..])
  }

  predicate AllEmbed(f: string -> RawVector, texts: seq<string>) {
    forall t | t in texts :: WellFormed(f(t))
  }

  predicate ProviderFails(reply: Reply, batch: nat) {
    !reply.Batch? || |reply.vectors| != batch
  }

  function AllVectors(f: string -> RawVector, texts: seq<string>): (vectors: seq<Vector>)
    requires AllEmbed(f, texts)
    ensures |vectors| == |texts| && forall i | 0 <= i < |texts| :: Validated(f(texts[i])) == Some(vectors[i])
  {
    seq(|texts|, i requires 0 <= i < |texts| => assert texts[i] in texts; Validated(f(texts[i])).value)
  }

  /** What a faithful provider's good reply amounts to. */
  lemma GoodReply(f: string -> RawVector, batch: seq<string>)
    ensures Embedding(Pointwise(f, batch), |batch|) ==
      if AllEmbed(f, batch) then Vectors(AllVectors(f, batch)) else Failed(InvalidVector)
  {
    var reply := Pointwise(f, batch);
    if AllEmbed(f, batch) {
      forall v | v in reply.vectors
        ensures WellFormed(v)
      {
        var i :| 0 <= i < |batch| && v == f(batch[i]);
        assert batch[i] in batch;
      }
      assert Embedding(reply, |batch|).vectors == AllVectors(f, batch);
    } else {
      var t :| t in batch && !WellFormed(f(t));
      var i :| 0 <= i < |batch| && batch[i] == t;
      assert reply.vectors[i] == f(t);
    }
  }

  /** Of a good batch only the texts that were missing matter: the others were cached. */
  lemma MissingDecides(f: string -> RawVector, c: Cache, query: string, texts: seq<string>)
    requires Consistent(f, c)
    ensures AllEmbed(f, [query] + Missing(c, texts)) <==> AllEmbed(f, [query] + texts)
  {
    forall t | t in [query] + texts && t !in [query] + Missing(c, texts)
      ensures WellFormed(f(t))
    {
      assert t in c.vectors;
      assert Validated(f(t)) == Some(c.vectors[t]);
    }
  }
}
