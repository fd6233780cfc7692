/** Cached routing refines cacheless routing, for one route and for every sequence of them; and the
    router itself, as the class it is. */
module RouterRuns {
  import opened Messages
  import opened Router
  import opened RouterCache
  import Text

  // ---- One route -------------------------------------------------------------------------------

  /** With a provider that answers, the route comes out as the cacheless one, except exactly when the
      texts push one of their own number out of the cache. */
  function Expected(s: Settings, f: string -> RawVector, c: Cache, query: string, schemas: seq<Schema>, embed: seq<string> -> Reply): Outcome {
    match CheckRequest(s, query, schemas)
    case NothingToRoute => FreshRoute(s, f, query, schemas)
    case Rejected(_) => FreshRoute(s, f, query, schemas)
    case Proceed(names, texts) =>
      var batch := [query] + Missing(c, texts);
      var reply := embed(batch);
      if reply.Raised? then Refused(EmbeddingFailed)
      else if ProviderFails(reply, |batch|) then Refused(UnexpectedBatchSize)
      else if AllEmbed(f, [query] + texts) && Trips(c, texts, s.cacheSize) then Refused(CacheInvariantViolated)
      else FreshRoute(s, f, query, schemas)
  }

  /** The vectors of the missing texts, the query's own first. */
  ghost predicate Match(f: string -> RawVector, batch: seq<string>, vectors: seq<Vector>) {
    |vectors| == |batch| && forall i | 0 <= i < |batch| :: Validated(f(batch[i])) == Some(vectors[i])
  }

  lemma StoredIsGood(f: string -> RawVector, c: Cache, texts: seq<string>, vectors: seq<Vector>, size: nat)
    requires WellKept(c, size) && Consistent(f, c) && |texts| <= size && Match(f, Missing(c, texts), vectors)
    ensures var stored := StoreMissing(c, texts, vectors, size);
      && WellKept(stored, size) && Consistent(f, stored)
      && (FoundUpTo(stored, texts) < |texts| <==> Trips(c, texts, size))
      && (forall t :: t in stored.keys ==> t in c.keys || t in texts)
  {
    StoredKeys(c, texts, vectors, size);
    StoreKeepsConsistent(f, c, Missing(c, texts), vectors, |vectors|, size);
  }

  lemma TouchedIsGood(f: string -> RawVector, c: Cache, texts: seq<string>, n: nat, size: nat)
    requires WellKept(c, size) && Consistent(f, c) && n <= |texts| && forall i | 0 <= i < n :: texts[i] in c.vectors
    ensures var after := Cache(Touch(c.keys, texts, n), c.vectors);
      WellKept(after, size) && Consistent(f, after) && forall t :: t in after.keys <==> t in c.keys
  {
    TouchFacts(c.keys, texts, n);
  }

  lemma LookupIsFresh(f: string -> RawVector, c: Cache, texts: seq<string>)
    requires Consistent(f, c) && forall t | t in texts :: t in c.vectors
    ensures AllEmbed(f, texts) && Lookup(c, texts) == AllVectors(f, texts)
  {
    forall t | t in texts
      ensures WellFormed(f(t))
    {
      assert Validated(f(t)) == Some(c.vectors[t]);
    }
    forall i | 0 <= i < |texts|
      ensures Lookup(c, texts)[i] == AllVectors(f, texts)[i]
    {
      assert texts[i] in texts && Validated(f(texts[i])) == Some(c.vectors[texts[i]]);
    }
  }

  lemma UseCacheFacts(s: Settings, f: string -> RawVector, c: Cache, schemas: seq<Schema>, names: seq<string>, texts: seq<string>, vectors: seq<Vector>)
    requires WellKept(c, s.cacheSize) && Consistent(f, c) && |schemas| == |names| == |texts| <= s.cacheSize
    requires |vectors| == 1 + |Missing(c, texts)| && Match(f, Missing(c, texts), vectors[1..])
    ensures var (outcome, after) := UseCache(s, c, schemas, names, texts, vectors);
      && WellKept(after, s.cacheSize) && Consistent(f, after)
      && (forall t :: t in after.keys ==> t in c.keys || t in texts)
      && (Trips(c, texts, s.cacheSize) ==> outcome == Refused(CacheInvariantViolated))
      && (!Trips(c, texts, s.cacheSize) ==> AllEmbed(f, texts) && outcome == Choose(s, schemas, names, vectors[0], AllVectors(f, texts)))
  {
    StoredIsGood(f, c, texts, vectors[1..], s.cacheSize);
    var stored := StoreMissing(c, texts, vectors[1..], s.cacheSize);
    var found := FoundUpTo(stored, texts);
    TouchedIsGood(f, stored, texts, found, s.cacheSize);
    if found == |texts| {
      LookupIsFresh(f, stored, texts);
    }
  }

  /** A good batch is one vector for the query and one for each missing text. */
  lemma BatchSplits(f: string -> RawVector, query: string, missing: seq<string>)
    requires AllEmbed(f, [query] + missing)
    ensures var vectors := AllVectors(f, [query] + missing);
      Validated(f(query)) == Some(vectors[0]) && Match(f, missing, vectors[1..])
  {
    var batch := [query] + missing;
    assert batch[0] == query;
    assert forall i | 0 <= i < |missing| :: batch[i + 1] == missing[i];
  }

  lemma FreshVectors(s: Settings, f: string -> RawVector, query: string, schemas: seq<Schema>)
    requires CheckRequest(s, query, schemas).Proceed?
    ensures var check := CheckRequest(s, query, schemas);
      if AllEmbed(f, [query] + check.texts) then
        WellFormed(f(query)) && AllEmbed(f, check.texts)
        && FreshRoute(s, f, query, schemas) == Choose(s, schemas, check.names, Validated(f(query)).value, AllVectors(f, check.texts))
      else FreshRoute(s, f, query, schemas) == Refused(InvalidVector)
  {
    var texts := CheckRequest(s, query, schemas).texts;
    var all := [query] + texts;
    GoodReply(f, all);
    if AllEmbed(f, all) {
      BatchSplits(f, query, texts);
      assert all[0] == query && AllVectors(f, all)[1..] == AllVectors(f, texts);
    }
  }

  lemma StepOnGoodBatch(s: Settings, f: string -> RawVector, c: Cache, query: string, schemas: seq<Schema>, embed: seq<string> -> Reply)
    requires CheckRequest(s, query, schemas).Proceed?
    requires var batch := [query] + Missing(c, CheckRequest(s, query, schemas).texts);
      embed(batch) == Pointwise(f, batch) && AllEmbed(f, batch)
    ensures var check := CheckRequest(s, query, schemas); var batch := [query] + Missing(c, check.texts);
      RouteStep(s, c, query, schemas, embed) == UseCache(s, c, schemas, check.names, check.texts, AllVectors(f, batch))
  {
    GoodReply(f, [query] + Missing(c, CheckRequest(s, query, schemas).texts));
  }

  lemma StepOnBadBatch(s: Settings, f: string -> RawVector, c: Cache, query: string, schemas: seq<Schema>, embed: seq<string> -> Reply)
    requires CheckRequest(s, query, schemas).Proceed?
    requires var batch := [query] + Missing(c, CheckRequest(s, query, schemas).texts);
      embed(batch) == Pointwise(f, batch) && !AllEmbed(f, batch)
    ensures RouteStep(s, c, query, schemas, embed) == (Refused(InvalidVector), c)
  {
    GoodReply(f, [query] + Missing(c, CheckRequest(s, query, schemas).texts));
  }

  /** The part of a route behind a good reply of the provider. */
  lemma AnsweredRoute(s: Settings, f: string -> RawVector, c: Cache, query: string, schemas: seq<Schema>, embed: seq<string> -> Reply)
    requires WellKept(c, s.cacheSize) && Consistent(f, c) && CheckRequest(s, query, schemas).Proceed?
    requires var batch := [query] + Missing(c, CheckRequest(s, query, schemas).texts); embed(batch) == Pointwise(f, batch)
    ensures var (outcome, after) := RouteStep(s, c, query, schemas, embed); var texts := CheckRequest(s, query, schemas).texts;
      && WellKept(after, s.cacheSize) && Consistent(f, after)
      && (forall t :: t in after.keys ==> t in c.keys || t in texts)
      && (if !AllEmbed(f, [query] + texts) then outcome == Refused(InvalidVector) && after == c
          else if Trips(c, texts, s.cacheSize) then outcome == Refused(CacheInvariantViolated)
          else outcome == FreshRoute(s, f, query, schemas))
  {
    var check := CheckRequest(s, query, schemas);
    var texts, missing := check.texts, Missing(c, check.texts);
    assert AllEmbed(f, [query] + missing) <==> AllEmbed(f, [query] + texts) by {
      MissingDecides(f, c, query, texts);
    }
    if AllEmbed(f, [query] + missing) {
      var vectors := AllVectors(f, [query] + missing);
      StepOnGoodBatch(s, f, c, query, schemas, embed);
      BatchSplits(f, query, missing);
      UseCacheFacts(s, f, c, schemas, check.names, texts, vectors);
      FreshVectors(s, f, query, schemas);
    } else {
      StepOnBadBatch(s, f, c, query, schemas, embed);
    }
  }

  /** Main result for one route. */
  lemma CachedRouteIsFresh(s: Settings, f: string -> RawVector, c: Cache, query: string, schemas: seq<Schema>, embed: seq<string> -> Reply)
    requires WellKept(c, s.cacheSize) && Consistent(f, c) && Faithful(f, embed)
    ensures var (outcome, after) := RouteStep(s, c, query, schemas, embed);
      && outcome == Expected(s, f, c, query, schemas, embed)
      && WellKept(after, s.cacheSize) && Consistent(f, after)
      && (outcome.Refused? && outcome.error !in {CacheInvariantViolated, DimensionMismatch} ==> after == c)
      && (var check := CheckRequest(s, query, schemas);
          forall t :: t in after.keys ==> t in c.keys || (check.Proceed? && t in check.texts))
  {
    var check := CheckRequest(s, query, schemas);
    if check.Proceed? {
      var batch := [query] + Missing(c, check.texts);
      if !ProviderFails(embed(batch), |batch|) {
        AnsweredRoute(s, f, c, query, schemas, embed);
        FreshVectors(s, f, query, schemas);
      }
    }
  }

  // ---- Sequences of routes ---------------------------------------------------------------------

  /** One call of the router; each may find the provider in another mood. */
  datatype Call = Call(query: string, schemas: seq<Schema>, embed: seq<string> -> Reply)

  function Step(s: Settings, c: Cache, call: Call): (Outcome, Cache) {
    RouteStep(s, c, call.query, call.schemas, call.embed)
  }

  function CacheAfter(s: Settings, calls: seq<Call>): Cache {
    if calls == [] then Cache([], map[])
    else Step(s, CacheAfter(s, calls[..|calls| - 1]), calls[|calls| - 1]).1
  }

  /** The outcome of the last of these calls. */
  function LastOutcome(s: Settings, calls: seq<Call>): Outcome
    requires calls != []
  {
    Step(s, CacheAfter(s, calls[..|calls| - 1]), calls[|calls| - 1]).0
  }

  /** The tool texts a call works with. */
  function TextsOf(s: Settings, call: Call): set<string> {
    match CheckRequest(s, call.query, call.schemas)
    case Proceed(_, texts) => set t | t in texts
    case _ => {}
  }

  function TextsSeen(s: Settings, calls: seq<Call>): set<string> {
    if calls == [] then {} else TextsSeen(s, calls[..|calls| - 1]) + TextsOf(s, calls[|calls| - 1])
  }

  lemma {:induction false} ReachableCache(s: Settings, f: string -> RawVector, calls: seq<Call>)
    requires forall call | call in calls :: Faithful(f, call.embed)
    ensures WellKept(CacheAfter(s, calls), s.cacheSize) && Consistent(f, CacheAfter(s, calls))
    ensures forall t | t in CacheAfter(s, calls).keys :: t in TextsSeen(s, calls)
  {
    if calls != [] {
      var before, last := calls[..|calls| - 1], calls[|calls| - 1];
      ReachableCache(s, f, before);
      CachedRouteIsFresh(s, f, CacheAfter(s, before), last.query, last.schemas, last.embed);
    }
  }

  /** Main result: over any run with a provider that is a function of the text, whatever is routed is
      what embedding everything afresh would route, from a cache that never outgrows its bound. */
  lemma CachedRoutingRefinesFresh(s: Settings, f: string -> RawVector, calls: seq<Call>)
    requires calls != [] && forall call | call in calls :: Faithful(f, call.embed)
    ensures var last := calls[|calls| - 1]; var outcome := LastOutcome(s, calls);
      && (outcome.Routed? ==> outcome == FreshRoute(s, f, last.query, last.schemas))
      && outcome == Expected(s, f, CacheAfter(s, calls[..|calls| - 1]), last.query, last.schemas, last.embed)
      && |CacheAfter(s, calls).keys| <= s.cacheSize
  {
    var before, last := calls[..|calls| - 1], calls[|calls| - 1];
    ReachableCache(s, f, before);
    ReachableCache(s, f, calls);
    CachedRouteIsFresh(s, f, CacheAfter(s, before), last.query, last.schemas, last.embed);
  }

  lemma {:induction false} SubsetSize(a: set<string>, b: set<string>)
    requires a <= b
    ensures |a| <= |b|
  {
    assert b == a + (b - a);
  }

  lemma RoomForAll(c: Cache, texts: seq<string>, seen: set<string>, size: nat)
    requires WellKept(c, size) && |seen| <= size
    requires (forall t | t in c.keys :: t in seen) && forall t | t in texts :: t in seen
    ensures !Trips(c, texts, size)
  {
    var kept := set t | t in c.keys;
    CountNoRepeats(c.keys, kept);
    assert kept !! NewTexts(c, texts);
    SubsetSize(kept + NewTexts(c, texts), seen);
    assert PushedOut(c, texts, size) == [];
  }

  lemma FreshNeverTrips(s: Settings, f: string -> RawVector, query: string, schemas: seq<Schema>)
    ensures FreshRoute(s, f, query, schemas) != Refused(CacheInvariantViolated)
  {
    if CheckRequest(s, query, schemas).Proceed? {
      FreshVectors(s, f, query, schemas);
    }
  }

  lemma RoomyMeansNoTrip(s: Settings, f: string -> RawVector, c: Cache, query: string, schemas: seq<Schema>, embed: seq<string> -> Reply)
    requires var check := CheckRequest(s, query, schemas); check.Proceed? ==> !Trips(c, check.texts, s.cacheSize)
    ensures Expected(s, f, c, query, schemas, embed) != Refused(CacheInvariantViolated)
  {
    FreshNeverTrips(s, f, query, schemas);
  }

  /** While all the tool texts seen so far fit in the cache, no route trips over it. */
  lemma RoomyCacheNeverTrips(s: Settings, f: string -> RawVector, calls: seq<Call>)
    requires calls != [] && forall call | call in calls :: Faithful(f, call.embed)
    requires |TextsSeen(s, calls)| <= s.cacheSize
    ensures LastOutcome(s, calls) != Refused(CacheInvariantViolated)
  {
    var before, last := calls[..|calls| - 1], calls[|calls| - 1];
    var c := CacheAfter(s, before);
    ReachableCache(s, f, before);
    CachedRouteIsFresh(s, f, c, last.query, last.schemas, last.embed);
    var check := CheckRequest(s, last.query, last.schemas);
    if check.Proceed? {
      RoomForAll(c, check.texts, TextsSeen(s, calls), s.cacheSize);
    }
    RoomyMeansNoTrip(s, f, c, last.query, last.schemas, last.embed);
  }

  // ---- A cache of two, and {A, B} before {A, C} -------------------------------------------------

  function Tool(name: string): Schema {
    Schema(Some(name), Some(name))
  }

  function One(text: string): RawVector {
    Listed([Finite(1.0)])
  }

  function Ones(batch: seq<string>): Reply {
    Pointwise(One, batch)
  }

  lemma OnesEmbed(texts: seq<string>)
    ensures AllEmbed(One, texts)
  {
    assert [Finite(1.0)][0] != Finite(0.0);
  }

  lemma TwoTools(s: Settings, a: string, b: string)
    requires s.cacheSize == 2 && s.maxQueryChars >= 1 && a != b && a != "" && b != ""
    ensures CheckRequest(s, "q", [Tool(a), Tool(b)]) == Proceed([a, b], [a, b])
  {
    var tools := [Tool(a), Tool(b)];
    assert "q"[0] in "q" && !Text.IsSpace('q');
    assert Names(tools) == [a, b] && Texts(tools) == [a, b];
  }

  lemma TouchTwo(a: string, b: string)
    requires a != b
    ensures Touch([], [a, b], 2) == [a, b] && Touch([a, b], [a, b], 2) == [a, b]
  {
    assert Touch([], [a, b], 1) == [a];
    assert Without([b], a) == [b] && Without([a], b) == [a];
    assert Touch([a, b], [a, b], 1) == [b, a];
  }

  lemma FoundIs(c: Cache, texts: seq<string>, n: nat)
    requires n <= |texts| && (forall i | 0 <= i < n :: texts[i] in c.vectors) && (n < |texts| ==> texts[n] !in c.vectors)
    ensures FoundUpTo(c, texts) == n
  {
  }

  lemma StoreTwo(a: string, b: string, vectors: seq<Vector>)
    requires a != b && |vectors| == 2
    ensures Missing(Cache([], map[]), [a, b]) == [a, b]
    ensures var stored := StoreMissing(Cache([], map[]), [a, b], vectors, 2);
      stored.keys == [a, b] && FoundUpTo(stored, [a, b]) == 2
  {
    var c, texts := Cache([], map[]), [a, b];
    assert texts[1..] == [b] && Missing(c, [b]) == [b] && Missing(c, texts) == texts;
    TouchTwo(a, b);
    StoreFirstFacts(c, texts, vectors, 2, 2);
    FoundIs(StoreMissing(c, texts, vectors, 2), texts, 2);
  }

  lemma FirstRouteFills(s: Settings, a: string, b: string)
    requires s.cacheSize == 2 && s.maxQueryChars >= 1 && a != b && a != "" && b != ""
    ensures RouteStep(s, Cache([], map[]), "q", [Tool(a), Tool(b)], Ones).1.keys == [a, b]
  {
    var batch := ["q"] + [a, b];
    TwoTools(s, a, b);
    OnesEmbed(batch);
    GoodReply(One, batch);
    StoreTwo(a, b, AllVectors(One, batch)[1..]);
    TouchTwo(a, b);
  }

  lemma PushedOutOfTwo(cache: Cache, a: string, b: string, c: string)
    requires cache.keys == [a, b] && WellKept(cache, 2) && c != a && c != b
    ensures Trips(cache, [a, c], 2)
  {
    var texts := [a, c];
    assert a in cache.keys && c !in cache.keys;
    assert NewTexts(cache, texts) == {c};
    assert PushedOut(cache, texts, 2) == [a];
    assert texts[0] in PushedOut(cache, texts, 2);
  }

  /** The error that the source marks as unreachable is reached. */
  lemma SmallCacheTrips(s: Settings, a: string, b: string, c: string)
    requires s.cacheSize == 2 && s.maxQueryChars >= 1
    requires a != b && a != c && b != c && a != "" && b != "" && c != ""
    ensures Faithful(One, Ones)
    ensures LastOutcome(s, [Call("q", [Tool(a), Tool(b)], Ones), Call("q", [Tool(a), Tool(c)], Ones)]) == Refused(CacheInvariantViolated)
  {
    var first, second := Call("q", [Tool(a), Tool(b)], Ones), Call("q", [Tool(a), Tool(c)], Ones);
    assert [first][..0] == [] && [first, second][..1] == [first];
    var cache := CacheAfter(s, [first]);
    assert cache == Step(s, CacheAfter(s, []), first).1;
    FirstRouteFills(s, a, b);
    ReachableCache(s, One, [first]);
    PushedOutOfTwo(cache, a, b, c);
    TwoTools(s, a, c);
    OnesEmbed(["q"] + [a, c]);
    AnsweredRoute(s, One, cache, "q", second.schemas, Ones);
  }

  // ---- The class -------------------------------------------------------------------------------

  lemma UseKeepsCache(s: Settings, c: Cache, schemas: seq<Schema>, names: seq<string>, texts: seq<string>, vectors: seq<Vector>)
    requires WellKept(c, s.cacheSize) && |schemas| == |names| == |texts| <= s.cacheSize && |vectors| == 1 + |Missing(c, texts)|
    ensures WellKept(UseCache(s, c, schemas, names, texts, vectors).1, s.cacheSize)
  {
    StoredKeys(c, texts, vectors[1..], s.cacheSize);
    var stored := StoreMissing(c, texts, vectors[1..], s.cacheSize);
    TouchFacts(stored.keys, texts, FoundUpTo(stored, texts));
  }

  lemma RouteKeepsCache(s: Settings, c: Cache, query: string, schemas: seq<Schema>, embed: seq<string> -> Reply)
    requires WellKept(c, s.cacheSize)
    ensures WellKept(RouteStep(s, c, query, schemas, embed).1, s.cacheSize)
  {
    var check := CheckRequest(s, query, schemas);
    if check.Proceed? {
      var missing := Missing(c, check.texts);
      var embedded := Embedding(embed([query] + missing), 1 + |missing|);
      if embedded.Vectors? {
        UseKeepsCache(s, c, schemas, check.names, check.texts, embedded.vectors);
      }
    }
  }

  class EmbeddingRouter {
    const settings: Settings
    var keys: seq<string>
    var vectors: map<string, Vector>

    ghost predicate Valid()
      reads this
    {
      WellKept(Contents(), settings.cacheSize)
    }

    function Contents(): Cache
      reads this
    {
      Cache(keys, vectors)
    }

    constructor (settings: Settings)
      requires 0.0 <= settings.threshold <= 1.0 && settings.topK > 0 && settings.cacheSize > 0 && settings.maxQueryChars > 0
      ensures this.settings == settings && Valid() && Contents() == Cache([], map[])
    {
      this.settings := settings;
      keys, vectors := [], map[];
    }

    method StoreVectors(texts: seq<string>, incoming: seq<Vector>)
      requires |texts| == |incoming|
      modifies this
      ensures Contents() == StoreFirst(old(Contents()), texts, incoming, |texts|, settings.cacheSize)
    {
      for i := 0 to |texts|
        invariant Contents() == StoreFirst(old(Contents()), texts, incoming, i, settings.cacheSize)
      {
        vectors := vectors[texts[i] := incoming[i]];
        keys := MoveToEnd(keys, texts[i]);
        ghost var over := Contents();
        while |keys| > settings.cacheSize
          invariant Evict(Contents(), settings.cacheSize) == Evict(over, settings.cacheSize)
        {
          keys, vectors := keys[1..], vectors - {keys[0]};
        }
      }
    }

    method ReadVectors(texts: seq<string>) returns (found: Option<seq<Vector>>)
      modifies this
      ensures var n := FoundUpTo(old(Contents()), texts);
        && Contents() == Cache(Touch(old(keys), texts, n), old(vectors))
        && found == if n < |texts| then None else Some(Lookup(old(Contents()), texts))
    {
      var read: seq<Vector> := [];
      for i := 0 to |texts|
        invariant vectors == old(vectors) && keys == Touch(old(keys), texts, i) && |read| == i
        invariant forall k | 0 <= k < i :: texts[k] in vectors && read[k] == vectors[texts[k]]
      {
        if texts[i] !in vectors {
          FoundIs(old(Contents()), texts, i);
          return None;
        }
        keys := MoveToEnd(keys, texts[i]);
        read := read + [vectors[texts[i]]];
      }
      FoundIs(old(Contents()), texts, |texts|);
      assert read == Lookup(old(Contents()), texts);
      found := Some(read);
    }

    /** `embed` stands for the awaited provider; the route lock makes the rest one step. */
    method Route(query: string, schemas: seq<Schema>, embed: seq<string> -> Reply) returns (outcome: Outcome)
      requires Valid()
      modifies this
      ensures Valid()
      ensures (outcome, Contents()) == RouteStep(settings, old(Contents()), query, schemas, embed)
    {
      RouteKeepsCache(settings, Contents(), query, schemas, embed);
      var check := CheckRequest(settings, query, schemas);
      if check.NothingToRoute? {
        return Routed(Router.Route([], []));
      }
      if check.Rejected? {
        return Refused(check.error);
      }
      var missing := Missing(Contents(), check.texts);
      var embedded := Embedding(embed([query] + missing), 1 + |missing|);
      if embedded.Failed? {
        return Refused(embedded.error);
      }
      StoreVectors(missing, embedded.vectors[1..]);
      var found := ReadVectors(check.texts);
      if found.None? {
        return Refused(CacheInvariantViolated);
      }
      outcome := Choose(settings, schemas, check.names, embedded.vectors[0], found.value);
    }
  }
}
