/** Tool routing through a bounded LRU cache of tool vectors, proved to refine routing without one. */
module Router {
  import opened Lists
  import opened Messages
  import opened Ranking
  import opened Text

  type Vector = seq<real>

  // ---- What the embedder returns ---------------------------------------------------------------

  datatype Number = Finite(value: real) | NotFinite | NotNumeric

  datatype RawVector = NotAList | Listed(values: seq<Number>)

  datatype Reply = Raised | NotABatch | Batch(vectors: seq<RawVector>)

  predicate WellFormed(raw: RawVector) {
    && raw.Listed?
    && (forall v | v in raw.values :: v.Finite?)
    && exists i | 0 <= i < |raw.values| :: raw.values[i] != Finite(0.0)
  }

  /** The vector, unless it is empty, zero, or holds something that is not a finite number. */
  function Validated(raw: RawVector): Option<Vector> {
    if WellFormed(raw) then Some(seq(|raw.values|, i requires 0 <= i < |raw.values| => raw.values[i].value)) else None
  }

  method ValidateVector(raw: RawVector) returns (vector: Option<Vector>)
    ensures vector == Validated(raw)
    ensures vector.Some? <==>
      && raw.Listed? && (forall k | 0 <= k < |raw.values| :: raw.values[k].Finite?)
      && exists k | 0 <= k < |raw.values| :: raw.values[k] != Finite(0.0)
    ensures vector.Some? ==> |vector.value| == |raw.values| && forall k | 0 <= k < |raw.values| :: raw.values[k] == Finite(vector.value[k])
  {
    if raw.NotAList? || raw.values == [] {
      return None;
    }
    var values: Vector := [];
    var any := false;
    for i := 0 to |raw.values|
      invariant |values| == i && forall k | 0 <= k < i :: raw.values[k] == Finite(values[k])
      invariant any <==> exists k | 0 <= k < i :: raw.values[k] != Finite(0.0)
    {
      if !raw.values[i].Finite? {
        assert !raw.values[i].Finite? && raw.values[i] in raw.values;
        return None;
      }
      values := values + [raw.values[i].value];
      any := any || raw.values[i].value != 0.0;
    }
    if !any {
      return None;
    }
    assert values == seq(|raw.values|, i requires 0 <= i < |raw.values| => raw.values[i].value);
    vector := Some(values);
  }

  // ---- Requests --------------------------------------------------------------------------------

  /** A tool schema: its function name and the text that is embedded for it, `None` where the schema
      has no usable one. */
  datatype Schema = Schema(name: Option<string>, text: Option<string>)

  datatype Settings = Settings(
    threshold: real, topK: nat, cacheSize: nat, maxQueryChars: nat,
    similarity: (Vector, Vector) -> real)

  datatype Error =
    | QueryTooLong | InvalidSchema | DuplicateNames | CacheTooSmall
    | EmbeddingFailed | UnexpectedBatchSize | InvalidVector
    | CacheInvariantViolated | DimensionMismatch

  datatype ToolScore = ToolScore(name: string, score: real)

  datatype Route = Route(selected: seq<Schema>, ranked: seq<ToolScore>)

  datatype Outcome = Routed(route: Route) | Refused(error: Error)

  predicate IsNamed(schema: Schema) {
    schema.name.Some? && schema.name.value != ""
  }

  predicate Usable(schemas: seq<Schema>) {
    forall s | s in schemas :: IsNamed(s) && s.text.Some?
  }

  function Names(schemas: seq<Schema>): seq<string>
    requires forall s | s in schemas :: IsNamed(s)
  {
    seq(|schemas|, i requires 0 <= i < |schemas| => assert IsNamed(schemas[i]); schemas[i].name.value)
  }

  function Texts(schemas: seq<Schema>): seq<string>
    requires forall s | s in schemas :: s.text.Some?
  {
    seq(|schemas|, i requires 0 <= i < |schemas| => schemas[i].text.value)
  }

  datatype Check = NothingToRoute | Rejected(error: Error) | Proceed(names: seq<string>, texts: seq<string>)

  function CheckRequest(s: Settings, query: string, schemas: seq<Schema>): (check: Check)
    ensures check.Proceed? ==>
      && schemas != [] && Usable(schemas) && NoRepeats(check.names)
      && check.names == Names(schemas) && check.texts == Texts(schemas) && |check.texts| <= s.cacheSize
  {
    if schemas == [] || IsBlank(query) then NothingToRoute
    else if |query| > s.maxQueryChars then Rejected(QueryTooLong)
    else if exists t | t in schemas :: !IsNamed(t) then Rejected(InvalidSchema)
    else if !NoRepeats(Names(schemas)) then Rejected(DuplicateNames)
    else if exists t | t in schemas :: t.text.None? then Rejected(InvalidSchema)
    else if |schemas| > s.cacheSize then Rejected(CacheTooSmall)
    else Proceed(Names(schemas), Texts(schemas))
  }

  // ---- Ranking ---------------------------------------------------------------------------------

  predicate SameDimension(query: Vector, vectors: seq<Vector>) {
    forall v | v in vectors :: |v| == |query|
  }

  function Scores(s: Settings, query: Vector, vectors: seq<Vector>): (scores: seq<Scored>) {
    seq(|vectors|, i requires 0 <= i < |vectors| => Scored(i, s.similarity(query, vectors[i])))
  }

  predicate Indexes(ranked: seq<Scored>, n: nat) {
    forall e | e in ranked :: e.index < n
  }

  function Selected(schemas: seq<Schema>, chosen: seq<Scored>): seq<Schema>
    requires Indexes(chosen, |schemas|)
  {
    seq(|chosen|, i requires 0 <= i < |chosen| => schemas[chosen[i].index])
  }

  function ToolScores(names: seq<string>, ranked: seq<Scored>): seq<ToolScore>
    requires Indexes(ranked, |names|)
  {
    seq(|ranked|, i requires 0 <= i < |ranked| => ToolScore(names[ranked[i].index], ranked[i].score))
  }

  lemma {:induction false} AtLeastKeepsIndexes(threshold: real, ranked: seq<Scored>, n: nat)
    requires Indexes(ranked, n)
    ensures Indexes(AtLeast(threshold, ranked), n)
  {
    if ranked != [] {
      assert Indexes(ranked[1..], n);
      AtLeastKeepsIndexes(threshold, ranked[1..], n);
    }
  }

  lemma RankKeepsIndexes(s: Settings, query: Vector, vectors: seq<Vector>)
    ensures Indexes(Rank(Scores(s, query, vectors)), |vectors|) && |Rank(Scores(s, query, vectors))| == |vectors|
    ensures Ranked(Rank(Scores(s, query, vectors)))
  {
    var scores := Scores(s, query, vectors);
    RankIsRanked(scores);
    assert |multiset(Rank(scores))| == |Rank(scores)| && |multiset(scores)| == |scores|;
    forall e | e in Rank(scores)
      ensures e.index < |vectors|
    {
      assert e in multiset(scores);
    }
  }

  function Choose(s: Settings, schemas: seq<Schema>, names: seq<string>, query: Vector, vectors: seq<Vector>): Outcome
    requires |schemas| == |names| == |vectors|
  {
    if !SameDimension(query, vectors) then Refused(DimensionMismatch)
    else
      var ranked := Rank(Scores(s, query, vectors));
      RankKeepsIndexes(s, query, vectors);
      AtLeastKeepsIndexes(s.threshold, ranked, |schemas|);
      Routed(Route(Selected(schemas, Head(AtLeast(s.threshold, ranked), s.topK)), ToolScores(names, ranked)))
  }

  /** `order` ranks all the schemas: by descending score, ties as they were given. */
  ghost predicate IsRanking(s: Settings, query: Vector, vectors: seq<Vector>, order: seq<nat>) {
    && |order| == |vectors|
    && (forall i | 0 <= i < |order| :: order[i] < |vectors|)
    && forall i, j | 0 <= i < j < |order| ::
      Before(Scored(order[i], s.similarity(query, vectors[order[i]])), Scored(order[j], s.similarity(query, vectors[order[j]])))
  }

  lemma RankIsRanking(s: Settings, query: Vector, vectors: seq<Vector>) returns (order: seq<nat>)
    ensures IsRanking(s, query, vectors, order)
    ensures var ranked := Rank(Scores(s, query, vectors));
      |ranked| == |order| && forall i | 0 <= i < |order| :: ranked[i] == Scored(order[i], s.similarity(query, vectors[order[i]]))
  {
    var scores := Scores(s, query, vectors);
    var ranked := Rank(scores);
    RankKeepsIndexes(s, query, vectors);
    order := seq(|ranked|, i requires 0 <= i < |ranked| => ranked[i].index);
    forall i | 0 <= i < |ranked|
      ensures order[i] < |vectors| && ranked[i] == Scored(order[i], s.similarity(query, vectors[order[i]]))
    {
      assert ranked[i] in multiset(scores);
      assert ranked[i] in scores;
    }
  }

  lemma ChosenRoute(s: Settings, schemas: seq<Schema>, names: seq<string>, query: Vector, vectors: seq<Vector>) returns (n: nat)
    requires |schemas| == |names| == |vectors| && SameDimension(query, vectors)
    ensures var ranked := Rank(Scores(s, query, vectors));
      && n <= s.topK && n <= |ranked| == |vectors| && Indexes(ranked, |schemas|) && Indexes(ranked[..n], |schemas|)
      && Choose(s, schemas, names, query, vectors) == Routed(Route(Selected(schemas, ranked[..n]), ToolScores(names, ranked)))
      && (forall i | 0 <= i < n :: ranked[i].score >= s.threshold)
      && (n < s.topK ==> forall i | n <= i < |ranked| :: ranked[i].score < s.threshold)
  {
    var ranked := Rank(Scores(s, query, vectors));
    RankKeepsIndexes(s, query, vectors);
    n := TopIsPrefix(s.threshold, ranked, s.topK);
    AtLeastKeepsIndexes(s.threshold, ranked, |schemas|);
  }

  /** The selection is the top of the ranking: as many as allowed, of those that reach the threshold. */
  lemma SelectionIsTopOfRanking(s: Settings, schemas: seq<Schema>, names: seq<string>, query: Vector, vectors: seq<Vector>)
    returns (order: seq<nat>)
    requires |schemas| == |names| == |vectors| && SameDimension(query, vectors)
    ensures IsRanking(s, query, vectors, order)
    ensures var route := Choose(s, schemas, names, query, vectors).route;
      && |route.selected| <= s.topK && |route.selected| <= |route.ranked| == |order|
      && (forall i | 0 <= i < |order| :: route.ranked[i] == ToolScore(names[order[i]], s.similarity(query, vectors[order[i]])))
      && (forall i | 0 <= i < |route.selected| :: route.selected[i] == schemas[order[i]] && route.ranked[i].score >= s.threshold)
      && (|route.selected| < s.topK ==> forall i | |route.selected| <= i < |order| :: route.ranked[i].score < s.threshold)
  {
    order := RankIsRanking(s, query, vectors);
    var n := ChosenRoute(s, schemas, names, query, vectors);
  }
}
