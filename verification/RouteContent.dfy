/** What a route chooses, said from the embedder's own numbers, the schemas and the settings. */
module RouteContent {
  import opened Messages
  import opened Router
  import opened RouterCache
  import opened RouterRuns
  import Text

  /** The vector holds the numbers that the embedder returned, in order. */
  ghost predicate Reads(raw: RawVector, v: Vector) {
    raw.Listed? && |v| == |raw.values| && forall k | 0 <= k < |v| :: raw.values[k] == Finite(v[k])
  }

  /** The numbers that the embedder returns for the query and for the text of each schema. */
  ghost predicate ReadsAll(f: string -> RawVector, query: string, schemas: seq<Schema>, asked: Vector, vectors: seq<Vector>) {
    && Reads(f(query), asked) && |vectors| == |schemas|
    && forall i | 0 <= i < |schemas| :: schemas[i].text.Some? && Reads(f(schemas[i].text.value), vectors[i])
  }

  /** All schemas by descending similarity to the query, ties as given, and the selection from the top of
      them: those that reach the threshold, and no more than allowed. */
  ghost predicate IsRouteBy(s: Settings, schemas: seq<Schema>, asked: Vector, vectors: seq<Vector>, order: seq<nat>, route: Route)
    requires |vectors| == |schemas|
  {
    && IsRanking(s, asked, vectors, order) && |route.ranked| == |order| && |route.selected| <= |order|
    && (forall i | 0 <= i < |order| ::
          && schemas[order[i]].name.Some?
          && route.ranked[i] == ToolScore(schemas[order[i]].name.value, s.similarity(asked, vectors[order[i]])))
    && (forall i | 0 <= i < |route.selected| :: route.selected[i] == schemas[order[i]] && s.similarity(asked, vectors[order[i]]) >= s.threshold)
    && |route.selected| <= s.topK
    && (|route.selected| < s.topK ==> forall i | |route.selected| <= i < |order| :: s.similarity(asked, vectors[order[i]]) < s.threshold)
  }

  lemma ValidatedReads(raw: RawVector, v: Vector)
    requires Validated(raw) == Some(v)
    ensures Reads(raw, v)
  {
    forall k | 0 <= k < |v|
      ensures raw.values[k] == Finite(v[k])
    {
      assert raw.values[k] in raw.values;
    }
  }

  /** A route that embeds everything afresh, said outright. */
  lemma FreshRouteSays(s: Settings, f: string -> RawVector, query: string, schemas: seq<Schema>)
    returns (asked: Vector, vectors: seq<Vector>, order: seq<nat>)
    requires CheckRequest(s, query, schemas).Proceed? && FreshRoute(s, f, query, schemas).Routed?
    ensures ReadsAll(f, query, schemas, asked, vectors)
    ensures IsRouteBy(s, schemas, asked, vectors, order, FreshRoute(s, f, query, schemas).route)
  {
    var check := CheckRequest(s, query, schemas);
    FreshVectors(s, f, query, schemas);
    asked, vectors := Validated(f(query)).value, AllVectors(f, check.texts);
    ValidatedReads(f(query), asked);
    forall i | 0 <= i < |schemas|
      ensures schemas[i].text.Some? && Reads(f(schemas[i].text.value), vectors[i])
    {
      assert schemas[i] in schemas && check.texts[i] == schemas[i].text.value;
      ValidatedReads(f(check.texts[i]), vectors[i]);
    }
    order := SelectionIsTopOfRanking(s, schemas, check.names, asked, vectors);
    forall i | 0 <= i < |order|
      ensures schemas[order[i]].name.Some? && check.names[order[i]] == schemas[order[i]].name.value
    {
      assert schemas[order[i]] in schemas && IsNamed(schemas[order[i]]);
    }
  }

  /** What is asked for at all: tools, and a query that is not blank. */
  predicate IsRequest(query: string, schemas: seq<Schema>) {
    schemas != [] && !Text.IsBlank(query)
  }

  lemma NothingForNothing(s: Settings, query: string, schemas: seq<Schema>)
    ensures CheckRequest(s, query, schemas).NothingToRoute? <==> !IsRequest(query, schemas)
  {
  }

  /** Main result: whatever the router routes over any run, from whatever its cache holds, is this choice
      by the embedder's own numbers for this query and these tools; and without a request it is empty. */
  lemma RoutedSays(s: Settings, f: string -> RawVector, calls: seq<Call>)
    returns (asked: Vector, vectors: seq<Vector>, order: seq<nat>)
    requires calls != [] && forall call | call in calls :: Faithful(f, call.embed)
    requires LastOutcome(s, calls).Routed?
    ensures var last := calls[|calls| - 1]; var route := LastOutcome(s, calls).route;
      if !IsRequest(last.query, last.schemas) then route == Route([], [])
      else ReadsAll(f, last.query, last.schemas, asked, vectors) && IsRouteBy(s, last.schemas, asked, vectors, order, route)
  {
    var last := calls[|calls| - 1];
    CachedRoutingRefinesFresh(s, f, calls);
    NothingForNothing(s, last.query, last.schemas);
    if IsRequest(last.query, last.schemas) {
      asked, vectors, order := FreshRouteSays(s, f, last.query, last.schemas);
    } else {
      asked, vectors, order := [], [], [];
    }
  }
}
