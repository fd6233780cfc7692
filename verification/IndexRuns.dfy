/** Runs of indexing calls, and the pipeline itself as the class it is. */
module IndexRuns {
  import opened Lists
  import opened Messages
  import opened Text
  import opened VectorStore
  import opened KeywordIndex
  import opened Pipeline
  import opened Indexing

  const EMPTY := Stores([], map[], map[])

  function After(c: Config, calls: seq<Call>): Stores {
    if calls == [] then EMPTY else Step(c, After(c, calls[..|calls| - 1]), calls[|calls| - 1]).1
  }

  /** How the last of these calls ended. */
  function ResultOf(c: Config, calls: seq<Call>): Result
    requires calls != []
  {
    Step(c, After(c, calls[..|calls| - 1]), calls[|calls| - 1]).0
  }

  function LatestMap(c: Config, calls: seq<Call>): map<string, seq<Entry>> {
    if calls == [] then map[]
    else LatestStep(c, LatestMap(c, calls[..|calls| - 1]), calls[|calls| - 1], ResultOf(c, calls))
  }

  /** What the last call on `path` that got as far as to replace its chunks has left: its chunks with
      their vectors, or nothing when the store refused them. */
  function Latest(c: Config, calls: seq<Call>, path: string): seq<Entry> {
    if calls == [] then []
    else
      var before, last := calls[..|calls| - 1], calls[|calls| - 1];
      if last.path != path then Latest(c, before, path)
      else match ResultOf(c, calls)
        case Indexed(_) => NewEntries(c, last)
        case Failed(Refused(_)) => []
        case Failed(_) => Latest(c, before, path)
  }

  lemma {:induction false} LatestMapIs(c: Config, calls: seq<Call>, path: string)
    ensures LatestOf(LatestMap(c, calls), path) == Latest(c, calls, path)
  {
    if calls != [] {
      LatestMapIs(c, calls[..|calls| - 1], path);
    }
  }

  lemma EmptyIsGood(c: Config)
    ensures Inv(c, EMPTY, map[])
  {
    forall path
      ensures PathOk(EMPTY, map[], path)
    {
    }
    if c.keyword {
      forall id
        ensures MirrorsAt(EMPTY.entries, EMPTY.docs, id)
      {
      }
    }
  }

  lemma {:induction false} RunKeepsInv(c: Config, calls: seq<Call>)
    ensures Inv(c, After(c, calls), LatestMap(c, calls))
  {
    if calls == [] {
      EmptyIsGood(c);
    } else {
      var before, last := calls[..|calls| - 1], calls[|calls| - 1];
      RunKeepsInv(c, before);
      StepKeepsInv(c, After(c, before), LatestMap(c, before), last);
    }
  }

  /** Main result: after any calls, failed ones included, the vector store holds for each document
      exactly its latest chunks, in order and under unique ids, and the keyword index the same. */
  lemma StoresHoldLatest(c: Config, calls: seq<Call>, path: string)
    ensures var s := After(c, calls);
      && From(s.entries, path) == Latest(c, calls, path)
      && NoRepeats(IdsOf(s.entries)) && (forall e | e in s.entries :: EntryOk(e))
      && (c.keyword ==> Mirrors(s.entries, s.docs))
  {
    RunKeepsInv(c, calls);
    assert PathOk(After(c, calls), LatestMap(c, calls), path);
    LatestMapIs(c, calls, path);
  }

  /** A call touches no other document. */
  lemma OthersUntouched(c: Config, calls: seq<Call>, path: string)
    requires calls != [] && calls[|calls| - 1].path != path
    ensures From(After(c, calls).entries, path) == From(After(c, calls[..|calls| - 1]).entries, path)
  {
    StoresHoldLatest(c, calls, path);
    StoresHoldLatest(c, calls[..|calls| - 1], path);
  }

  /** A call fails exactly when the file has no text, the embedding fails, or its vectors do not go
      with the chunks and with what the other documents hold; ids are never the reason. */
  lemma WhenACallFails(c: Config, calls: seq<Call>)
    requires calls != []
    ensures var call := calls[|calls| - 1]; var before := After(c, calls[..|calls| - 1]); var result := ResultOf(c, calls);
      if LoadOf(call.texts).Unusable? then result == Failed(LoadOf(call.texts).error)
      else
        var chunks := CallChunks(c, call); var vectors := call.embed(TextsOf(chunks));
        if vectors.None? then result == Failed(EmbeddingFailed)
        else if BadVectors(Cleared(c, before, call.path).entries, |chunks|, vectors.value) then
          result.Failed? && result.error.Refused? && result.error.error in {VectorCount, NotTwoDimensional, WrongDimension}
        else result == Indexed(|chunks|)
  {
    var call, before := calls[|calls| - 1], calls[..|calls| - 1];
    RunKeepsInv(c, before);
    if LoadOf(call.texts).Pages? {
      var chunks := CallChunks(c, call);
      CallChunksOk(c, call);
      var vectors := call.embed(TextsOf(chunks));
      if vectors.Some? {
        ReplaceOutcome(c, After(c, before), LatestMap(c, before), call.path, chunks, vectors.value);
      }
    }
  }

  /** The chunks of this call are embedded, but into nothing that can take the old ones' place. */
  predicate LosesChunks(c: Config, before: Stores, call: Call)
    requires LoadOf(call.texts).Pages?
  {
    var chunks := CallChunks(c, call);
    var vectors := call.embed(TextsOf(chunks));
    vectors.Some? && (chunks == [] || BadVectors(Cleared(c, before, call.path).entries, |chunks|, vectors.value))
  }

  /** A document that was stored is lost by a call exactly when the call gets as far as to replace it and
      then has nothing that the store takes: no chunks, or vectors that do not fit. */
  lemma WhenADocumentIsLost(c: Config, calls: seq<Call>)
    requires calls != [] && From(After(c, calls[..|calls| - 1]).entries, calls[|calls| - 1].path) != []
    ensures var call := calls[|calls| - 1]; var before := After(c, calls[..|calls| - 1]);
      From(After(c, calls).entries, call.path) == []
      <==> LoadOf(call.texts).Pages? && LosesChunks(c, before, call)
  {
    var call, before := calls[|calls| - 1], calls[..|calls| - 1];
    StoresHoldLatest(c, calls, call.path);
    StoresHoldLatest(c, before, call.path);
    WhenACallFails(c, calls);
  }

  // ---- An embedding service of one dimension ---------------------------------------------------

  /** One vector per text, all of dimension `d`. */
  ghost predicate Steady(embed: seq<string> -> Option<seq<Vector>>, d: nat) {
    forall texts :: embed(texts).Some? && |embed(texts).value| == |texts| && Uniform(embed(texts).value, d)
  }

  ghost predicate AllOf(entries: seq<Entry>, d: nat) {
    forall e | e in entries :: |e.vector| == d
  }

  lemma StepKeepsDimension(c: Config, s: Stores, call: Call, d: nat)
    requires AllOf(s.entries, d) && Steady(call.embed, d)
    ensures AllOf(Step(c, s, call).1.entries, d)
  {
    if LoadOf(call.texts).Pages? {
      var chunks := CallChunks(c, call);
      var vectors := call.embed(TextsOf(chunks)).value;
      WithoutMembers(s.entries, LedgerOf(s, call.path));
      if Replace(c, s, call.path, chunks, vectors).0.Indexed? {
        ReplaceIsAdded(c, s, call.path, chunks, vectors);
      }
    }
  }

  lemma {:induction false} RunKeepsDimension(c: Config, calls: seq<Call>, d: nat)
    requires forall call | call in calls :: Steady(call.embed, d)
    ensures AllOf(After(c, calls).entries, d)
  {
    if calls != [] {
      var before, last := calls[..|calls| - 1], calls[|calls| - 1];
      RunKeepsDimension(c, before, d);
      StepKeepsDimension(c, After(c, before), last, d);
    }
  }

  /** With such a service, every file that has text is indexed, at any point of any run. */
  lemma SteadyServiceAlwaysIndexes(c: Config, calls: seq<Call>, d: nat)
    requires calls != [] && forall call | call in calls :: Steady(call.embed, d)
    requires LoadOf(calls[|calls| - 1].texts).Pages?
    ensures ResultOf(c, calls) == Indexed(|CallChunks(c, calls[|calls| - 1])|)
  {
    var before, last := calls[..|calls| - 1], calls[|calls| - 1];
    RunKeepsDimension(c, before, d);
    WhenACallFails(c, calls);
    WithoutMembers(After(c, before).entries, LedgerOf(After(c, before), last.path));
    assert last in calls;
    var chunks := CallChunks(c, last);
    assert last.embed(TextsOf(chunks)).Some?;
    assert !BadVectors(Cleared(c, After(c, before), last.path).entries, |chunks|, last.embed(TextsOf(chunks)).value);
  }

  // ---- A refused call, concretely ----------------------------------------------------------------

  function OnePiece(text: string): seq<string> {
    [text]
  }

  function OneEach(texts: seq<string>): Option<seq<Vector>> {
    Some(seq(|texts|, _ => [1.0]))
  }

  function NoneAtAll(texts: seq<string>): Option<seq<Vector>> {
    Some([])
  }

  lemma OnePageFile(path: string, embed: seq<string> -> Option<seq<Vector>>)
    ensures LoadOf(Some(["x"])) == Pages([Page(1, "x")])
    ensures |CallChunks(Config(OnePiece, true), Call(path, Some(["x"]), embed))| == 1
  {
    assert "x"[0] in "x" && !IsSpace('x');
    assert ["x"][..0] == [] && PagesOf(["x"]) == [Page(1, "x")];
    assert [Page(1, "x")][..0] == [];
    assert |PageChunks(path, Page(1, "x"), OnePiece)| == |OnePiece("x")| == 1;
    assert ChunksOf(path, [], OnePiece) == [];
  }

  /** A file of one page, indexed, and indexed again while the embedding service returns no vectors:
      the second call is refused and the document is gone. */
  lemma RefusedReindexLosesTheDocument(path: string)
    ensures var c := Config(OnePiece, true);
      var first, again := Call(path, Some(["x"]), OneEach), Call(path, Some(["x"]), NoneAtAll);
      && From(After(c, [first]).entries, path) != []
      && ResultOf(c, [first, again]).Failed? && ResultOf(c, [first, again]).error.Refused?
      && From(After(c, [first, again]).entries, path) == []
  {
    var c := Config(OnePiece, true);
    var first, again := Call(path, Some(["x"]), OneEach), Call(path, Some(["x"]), NoneAtAll);
    OnePageFile(path, OneEach);
    OnePageFile(path, NoneAtAll);
    assert Steady(OneEach, 1);
    SteadyServiceAlwaysIndexes(c, [first], 1);
    StoresHoldLatest(c, [first], path);
    assert [first, again][..1] == [first];
    WhenACallFails(c, [first, again]);
    WhenADocumentIsLost(c, [first, again]);
  }

  // ---- Indexing the same file again ------------------------------------------------------------

  lemma {:induction false} WithoutAppend(a: seq<Entry>, b: seq<Entry>, ids: seq<string>)
    ensures Without(a + b, ids) == Without(a, ids) + Without(b, ids)
  {
    if a == [] {
      assert a + b == b;
    } else {
      assert (a + b)[1..] == a[1..] + b;
      WithoutAppend(a[1..], b, ids);
    }
  }

  lemma {:induction false} WithoutNone(entries: seq<Entry>, ids: seq<string>)
    requires forall i | 0 <= i < |entries| :: entries[i].id !in ids
    ensures Without(entries, ids) == entries
  {
    if entries != [] {
      WithoutNone(entries[1..], ids);
    }
  }

  lemma {:induction false} WithoutAll(entries: seq<Entry>, ids: seq<string>)
    requires forall i | 0 <= i < |entries| :: entries[i].id in ids
    ensures Without(entries, ids) == []
  {
    if entries != [] {
      WithoutAll(entries[1..], ids);
    }
  }

  lemma DropUndoesPut(docs: map<string, Document>, chunks: seq<Chunk>)
    requires NoRepeats(ChunkIds(chunks)) && forall id | id in ChunkIds(chunks) :: id !in docs
    ensures Drop(PutFirst(docs, chunks, |chunks|), ChunkIds(chunks)) == docs
  {
    var put := PutFirst(docs, chunks, |chunks|);
    assert ChunkIds(chunks)[..|chunks|] == ChunkIds(chunks);
    forall id
      ensures id in Drop(put, ChunkIds(chunks)) <==> id in docs
      ensures id in docs ==> Drop(put, ChunkIds(chunks))[id] == docs[id]
    {
      PutFirstFacts(docs, chunks, |chunks|, id);
    }
  }

  /** Clearing a document right after it was added takes back exactly what was added. */
  lemma ClearUndoesAdd(c: Config, s: Stores, latest: map<string, seq<Entry>>, path: string, chunks: seq<Chunk>, vectors: seq<Vector>)
    requires Inv(c, s, latest) && ChunksOk(path, chunks) && |vectors| == |chunks|
    requires forall e | e in s.entries :: !IsFrom(e, path)
    ensures var back := Cleared(c, Added(c, s, path, chunks, vectors), path); back.entries == s.entries && back.docs == s.docs
  {
    var ids, more := ChunkIds(chunks), Zip(ChunkIds(chunks), vectors, MetadataOf(chunks));
    NoIdIsTaken(path, s.entries, chunks);
    forall i | 0 <= i < |s.entries|
      ensures s.entries[i].id !in ids
    {
      assert s.entries[i].id == IdsOf(s.entries)[i];
    }
    WithoutAppend(s.entries, more, ids);
    WithoutNone(s.entries, ids);
    forall i | 0 <= i < |more|
      ensures more[i].id in ids
    {
      assert more[i].id == ids[i];
    }
    WithoutAll(more, ids);
    if c.keyword {
      forall id | id in ids
        ensures id !in s.docs
      {
        assert MirrorsAt(s.entries, s.docs, id);
      }
      DropUndoesPut(s.docs, chunks);
    }
  }

  /** Replacing a document by what it already is changes nothing at all. */
  lemma ReplaceTwice(c: Config, s: Stores, latest: map<string, seq<Entry>>, path: string, chunks: seq<Chunk>, vectors: seq<Vector>)
    requires Inv(c, s, latest) && ChunksOk(path, chunks) && Replace(c, s, path, chunks, vectors).0.Indexed?
    ensures Replace(c, Replace(c, s, path, chunks, vectors).1, path, chunks, vectors) == Replace(c, s, path, chunks, vectors)
  {
    var cleared, after := Cleared(c, s, path), Replace(c, s, path, chunks, vectors).1;
    ClearKeepsInv(c, s, latest, path);
    ReplaceIsAdded(c, s, path, chunks, vectors);
    ClearUndoesAdd(c, cleared, latest[path := []], path, chunks, Taken(chunks, vectors));
    ReplaceIsAdded(c, after, path, chunks, vectors);
    assert after.ledger[path := ChunkIds(chunks)] == after.ledger;
  }

  /** Main result on re-indexing: the same file, cut and embedded the same, leaves everything as it was. */
  lemma ReindexIsIdempotent(c: Config, calls: seq<Call>, call: Call)
    requires ResultOf(c, calls + [call]).Indexed?
    ensures After(c, calls + [call, call]) == After(c, calls + [call])
    ensures ResultOf(c, calls + [call, call]) == ResultOf(c, calls + [call])
  {
    assert (calls + [call])[..|calls|] == calls;
    assert (calls + [call, call])[..|calls| + 1] == calls + [call];
    RunKeepsInv(c, calls);
    var chunks := CallChunks(c, call);
    CallChunksOk(c, call);
    ReplaceTwice(c, After(c, calls), LatestMap(c, calls), call.path, chunks, call.embed(TextsOf(chunks)).value);
  }

  // ---- The class -------------------------------------------------------------------------------

  class RagPipeline {
    const cut: string -> seq<string>
    const store: FaissVectorStore
    const keyword: Bm25Index?
    var ledger: map<string, seq<string>>

    ghost predicate Valid()
      reads this, store, keyword
    {
      store.Valid() && (keyword != null ==> keyword.Valid())
    }

    ghost function Configured(): Config {
      Config(cut, keyword != null)
    }

    ghost function State(): Stores
      requires Valid()
      reads this, store, keyword
    {
      Stores(store.Entries(), if keyword != null then keyword.Contents() else map[], ledger)
    }

    constructor (cut: string -> seq<string>, store: FaissVectorStore, keyword: Bm25Index?)
      requires store.Valid() && (keyword != null ==> keyword.Valid())
      ensures this.cut == cut && this.store == store && this.keyword == keyword && Valid() && ledger == map[]
    {
      this.cut, this.store, this.keyword := cut, store, keyword;
      ledger := map[];
    }

    method ClearOld(path: string)
      requires Valid()
      modifies store, keyword
      ensures Valid() && State() == Cleared(Configured(), old(State()), path)
    {
      var gone := if path in ledger then ledger[path] else [];
      store.Delete(gone);
      if keyword != null {
        keyword.Delete(gone);
      }
    }

    method AddKeywords(chunks: seq<Chunk>)
      requires Valid() && keyword != null
      modifies keyword
      ensures Valid() && State() == old(State()).(docs := PutFirst(old(State()).docs, chunks, |chunks|))
    {
      for n := 0 to |chunks|
        invariant Valid() && store.Entries() == old(store.Entries())
        invariant keyword.Contents() == PutFirst(old(keyword.Contents()), chunks, n)
      {
        keyword.Add(chunks[n].id, chunks[n].text, chunks[n].metadata);
      }
    }

    /** `texts` stands for the file, `embed` for the embedding service. */
    method IndexPdf(path: string, texts: Option<seq<string>>, embed: seq<string> -> Option<seq<Vector>>) returns (result: Result)
      requires Valid()
      modifies this, store, keyword
      ensures Valid()
      ensures (result, State()) == Step(Configured(), old(State()), Call(path, texts, embed))
    {
      var loaded := LoadPdf(texts);
      if loaded.Unusable? {
        return Failed(loaded.error);
      }
      var chunks := CutPages(path, loaded.pages, cut);
      var vectors := embed(TextsOf(chunks));
      if vectors.None? {
        return Failed(EmbeddingFailed);
      }
      ClearOld(path);
      var error := store.Add(ChunkIds(chunks), vectors.value, Some(MetadataOf(chunks)));
      if error.Some? {
        return Failed(Refused(error.value));
      }
      if keyword != null {
        AddKeywords(chunks);
      }
      ledger := ledger[path := ChunkIds(chunks)];
      result := Indexed(|chunks|);
    }
  }
}
