/** What indexing does to the two stores and the ledger, over any run of calls. */
module Indexing {
  import opened Lists
  import opened Messages
  import opened VectorStore
  import opened KeywordIndex
  import opened Pipeline

  datatype Config = Config(cut: string -> seq<string>, keyword: bool)

  datatype Stores = Stores(entries: seq<Entry>, docs: map<string, Document>, ledger: map<string, seq<string>>)

  datatype Result = Indexed(count: nat) | Failed(error: IndexError)

  /** One call: the file's page texts if it can be read, and the embedding service at that time. */
  datatype Call = Call(path: string, texts: Option<seq<string>>, embed: seq<string> -> Option<seq<Vector>>)

  function TextsOf(chunks: seq<Chunk>): seq<string> {
    seq(|chunks|, i requires 0 <= i < |chunks| => chunks[i].text)
  }

  function MetadataOf(chunks: seq<Chunk>): seq<Metadata> {
    seq(|chunks|, i requires 0 <= i < |chunks| => chunks[i].metadata)
  }

  function LedgerOf(s: Stores, path: string): seq<string> {
    if path in s.ledger then s.ledger[path] else []
  }

  function PutFirst(docs: map<string, Document>, chunks: seq<Chunk>, n: nat): map<string, Document>
    requires n <= |chunks|
  {
    if n == 0 then docs else Put(PutFirst(docs, chunks, n - 1), chunks[n - 1].id, chunks[n - 1].text, chunks[n - 1].metadata)
  }

  function CallChunks(c: Config, call: Call): seq<Chunk>
    requires LoadOf(call.texts).Pages?
  {
    ChunksOf(call.path, LoadOf(call.texts).pages, c.cut)
  }

  /** The part of a call behind a successful embedding. */
  function Replace(c: Config, s: Stores, path: string, chunks: seq<Chunk>, vectors: seq<Vector>): (Result, Stores) {
    var gone := LedgerOf(s, path);
    var kept := Without(s.entries, gone);
    var docs := if c.keyword then Drop(s.docs, gone) else s.docs;
    var error := AddError(kept, ChunkIds(chunks), vectors, Some(MetadataOf(chunks)));
    if error.Some? then (Failed(Refused(error.value)), Stores(kept, docs, s.ledger))
    else (Indexed(|chunks|), Stores(
      AfterAdd(kept, ChunkIds(chunks), vectors, Some(MetadataOf(chunks))),
      if c.keyword then PutFirst(docs, chunks, |chunks|) else docs,
      s.ledger[path := ChunkIds(chunks)]))
  }

  function Step(c: Config, s: Stores, call: Call): (Result, Stores) {
    match LoadOf(call.texts)
    case Unusable(error) => (Failed(error), s)
    case Pages(pages) =>
      var chunks := CallChunks(c, call);
      var vectors := call.embed(TextsOf(chunks));
      if vectors.None? then (Failed(EmbeddingFailed), s)
      else Replace(c, s, call.path, chunks, vectors.value)
  }

  // ---- The map that the stores refine ----------------------------------------------------------

  /** The entries a successful call is to leave behind. */
  function NewEntries(c: Config, call: Call): seq<Entry> {
    if LoadOf(call.texts).Unusable? then []
    else
      var chunks := CallChunks(c, call);
      var vectors := call.embed(TextsOf(chunks));
      if vectors.None? || |vectors.value| != |chunks| then []
      else Zip(ChunkIds(chunks), vectors.value, MetadataOf(chunks))
  }

  function LatestStep(c: Config, latest: map<string, seq<Entry>>, call: Call, result: Result): map<string, seq<Entry>> {
    match result
    case Indexed(_) => latest[call.path := NewEntries(c, call)]
    case Failed(Refused(_)) => latest[call.path := []]
    case Failed(_) => latest
  }

  function LatestOf(latest: map<string, seq<Entry>>, path: string): seq<Entry> {
    if path in latest then latest[path] else []
  }

  predicate IsFrom(e: Entry, path: string) {
    e.metadata.place.Some? && e.metadata.place.value.source == path
  }

  /** The entries of one document, in their order. */
  function From(entries: seq<Entry>, path: string): seq<Entry> {
    if entries == [] then []
    else if IsFrom(entries[0], path) then [entries[0]] + From(entries[1..], path)
    else From(entries[1..], path)
  }

  lemma {:induction false} FromMembers(entries: seq<Entry>, path: string)
    ensures forall e :: e in From(entries, path) <==> e in entries && IsFrom(e, path)
  {
    if entries != [] {
      FromMembers(entries[1..], path);
      assert entries == [entries[0]] + entries[1..];
    }
  }

  lemma {:induction false} FromAppend(a: seq<Entry>, b: seq<Entry>, path: string)
    ensures From(a + b, path) == From(a, path) + From(b, path)
  {
    if a == [] {
      assert a + b == b;
    } else {
      assert (a + b)[1..] == a[1..] + b;
      FromAppend(a[1..], b, path);
    }
  }

  lemma {:induction false} FromAll(entries: seq<Entry>, path: string)
    requires forall e | e in entries :: IsFrom(e, path)
    ensures From(entries, path) == entries
  {
    if entries != [] {
      FromAll(entries[1..], path);
    }
  }

  lemma {:induction false} FromNone(entries: seq<Entry>, path: string)
    requires forall e | e in entries :: !IsFrom(e, path)
    ensures From(entries, path) == []
  {
    if entries != [] {
      FromNone(entries[1..], path);
    }
  }

  /** Deleting exactly one document's ids leaves the others as they were. */
  lemma {:induction false} FromWithout(entries: seq<Entry>, ids: seq<string>, gone: string, path: string)
    requires forall e | e in entries :: e.id in ids <==> IsFrom(e, gone)
    requires path != gone
    ensures From(Without(entries, ids), path) == From(entries, path)
  {
    if entries != [] {
      var rest := Without(entries[1..], ids);
      FromWithout(entries[1..], ids, gone, path);
      assert entries[0] in entries;
      if entries[0].id !in ids {
        assert ([entries[0]] + rest)[1..] == rest;
      }
    }
  }

  // ---- The invariant ---------------------------------------------------------------------------

  ghost predicate EntryOk(e: Entry) {
    e.metadata.place.Some? && e.metadata.text.Some? && IsLabelled(e.metadata.place.value.source, e.id, e.metadata)
  }

  /** An id this document may own. */
  ghost predicate IsOwn(path: string, id: string) {
    exists page: nat, index: nat :: id == ChunkId(path, page, index)
  }

  /** One document: the store holds its latest chunks, the ledger knows all their ids, and no others
      than its own. */
  ghost predicate PathOk(s: Stores, latest: map<string, seq<Entry>>, path: string) {
    && From(s.entries, path) == LatestOf(latest, path)
    && (forall e | e in LatestOf(latest, path) :: e.id in LedgerOf(s, path))
    && forall id | id in LedgerOf(s, path) :: IsOwn(path, id)
  }

  /** The keyword index has a document for an entry, and the same one. */
  ghost predicate MirrorsAt(entries: seq<Entry>, docs: map<string, Document>, id: string) {
    && (id in docs ==> exists e :: e in entries && e.id == id)
    && forall e | e in entries && e.id == id && e.metadata.text.Some? :: id in docs && docs[id] == Document(e.metadata.text.value, e.metadata)
  }

  ghost predicate Mirrors(entries: seq<Entry>, docs: map<string, Document>) {
    forall id :: MirrorsAt(entries, docs, id)
  }

  ghost predicate Inv(c: Config, s: Stores, latest: map<string, seq<Entry>>) {
    && NoRepeats(IdsOf(s.entries))
    && (forall e | e in s.entries :: EntryOk(e))
    && (forall path :: PathOk(s, latest, path))
    && (if c.keyword then Mirrors(s.entries, s.docs) else s.docs == map[])
  }

  /** The ledger entry of a document names exactly its entries, so far as they are there. */
  lemma LedgerIsExact(c: Config, s: Stores, latest: map<string, seq<Entry>>, path: string, e: Entry)
    requires Inv(c, s, latest) && e in s.entries
    ensures e.id in LedgerOf(s, path) <==> IsFrom(e, path)
  {
    assert PathOk(s, latest, path) && EntryOk(e);
    FromMembers(s.entries, path);
    if e.id in LedgerOf(s, path) {
      assert IsOwn(path, e.id);
      var page: nat, index: nat :| e.id == ChunkId(path, page, index);
      var place := e.metadata.place.value;
      ChunkIdIsInjective(path, page, index, place.source, place.page, place.chunkIndex);
    }
  }

  /** What is left once a document's old chunks are deleted. */
  function Cleared(c: Config, s: Stores, path: string): Stores {
    Stores(Without(s.entries, LedgerOf(s, path)), if c.keyword then Drop(s.docs, LedgerOf(s, path)) else s.docs, s.ledger)
  }

  lemma MirrorsWithout(entries: seq<Entry>, docs: map<string, Document>, ids: seq<string>)
    requires Mirrors(entries, docs)
    ensures Mirrors(Without(entries, ids), Drop(docs, ids))
  {
    WithoutMembers(entries, ids);
    forall id
      ensures MirrorsAt(Without(entries, ids), Drop(docs, ids), id)
    {
      assert MirrorsAt(entries, docs, id);
      if id in Drop(docs, ids) {
        var e :| e in entries && e.id == id;
        assert e in Without(entries, ids);
      }
    }
  }

  lemma ClearKeepsInv(c: Config, s: Stores, latest: map<string, seq<Entry>>, path: string)
    requires Inv(c, s, latest)
    ensures Inv(c, Cleared(c, s, path), latest[path := []])
    ensures forall e | e in Cleared(c, s, path).entries :: !IsFrom(e, path)
  {
    var t, after := Cleared(c, s, path), latest[path := []];
    var ids := LedgerOf(s, path);
    WithoutMembers(s.entries, ids);
    WithoutNoRepeats(s.entries, ids);
    forall e | e in s.entries
      ensures e.id in ids <==> IsFrom(e, path)
    {
      LedgerIsExact(c, s, latest, path, e);
    }
    FromNone(t.entries, path);
    forall other
      ensures PathOk(t, after, other)
    {
      assert PathOk(s, latest, other);
      if other != path {
        FromWithout(s.entries, ids, path, other);
      }
    }
    if c.keyword {
      MirrorsWithout(s.entries, s.docs, ids);
    }
  }

  // ---- Adding a document's chunks --------------------------------------------------------------

  /** Chunks as a call cuts them. */
  ghost predicate ChunksOk(path: string, chunks: seq<Chunk>) {
    NoRepeats(ChunkIds(chunks)) && exists bound: nat :: PagesBelow(chunks, path, bound)
  }

  lemma CallChunksOk(c: Config, call: Call)
    requires LoadOf(call.texts).Pages?
    ensures ChunksOk(call.path, CallChunks(c, call))
  {
    var pages := LoadOf(call.texts).pages;
    PagesAscend(call.texts.value);
    ChunkIdsAreUnique(call.path, pages, c.cut);
  }

  lemma NewEntryFacts(path: string, chunks: seq<Chunk>, vectors: seq<Vector>, e: Entry)
    requires ChunksOk(path, chunks) && |vectors| == |chunks| && e in Zip(ChunkIds(chunks), vectors, MetadataOf(chunks))
    ensures IsFrom(e, path) && EntryOk(e) && e.id in ChunkIds(chunks) && IsOwn(path, e.id)
    ensures exists i :: 0 <= i < |chunks| && chunks[i].id == e.id && e.metadata == chunks[i].metadata && e.metadata.text == Some(chunks[i].text)
  {
    var i :| 0 <= i < |chunks| && e == Entry(chunks[i].id, vectors[i], chunks[i].metadata);
    assert e.id == ChunkIds(chunks)[i];
    var place := e.metadata.place.value;
    assert e.id == ChunkId(path, place.page, place.chunkIndex);
  }

  /** Another document's entries have other ids. */
  lemma OthersDiffer(path: string, e: Entry, id: string)
    requires EntryOk(e) && !IsFrom(e, path) && IsOwn(path, id)
    ensures e.id != id
  {
    var page: nat, index: nat :| id == ChunkId(path, page, index);
    if e.id == id {
      var place := e.metadata.place.value;
      ChunkIdIsInjective(path, page, index, place.source, place.page, place.chunkIndex);
    }
  }

  lemma ChunkIdsAreOwn(path: string, chunks: seq<Chunk>, id: string)
    requires ChunksOk(path, chunks) && id in ChunkIds(chunks)
    ensures IsOwn(path, id)
  {
    var i :| 0 <= i < |chunks| && chunks[i].id == id;
    var place := chunks[i].metadata.place.value;
    assert id == ChunkId(path, place.page, place.chunkIndex);
  }

  /** The ids a call brings are none of those still there. */
  lemma NoIdIsTaken(path: string, entries: seq<Entry>, chunks: seq<Chunk>)
    requires forall e | e in entries :: EntryOk(e) && !IsFrom(e, path)
    requires ChunksOk(path, chunks)
    ensures forall id | id in ChunkIds(chunks) :: id !in IdsOf(entries)
  {
    forall id | id in ChunkIds(chunks)
      ensures id !in IdsOf(entries)
    {
      ChunkIdsAreOwn(path, chunks, id);
      forall i | 0 <= i < |entries|
        ensures entries[i].id != id
      {
        OthersDiffer(path, entries[i], id);
      }
    }
  }

  lemma {:induction false} PutFirstFacts(docs: map<string, Document>, chunks: seq<Chunk>, n: nat, id: string)
    requires n <= |chunks| && NoRepeats(ChunkIds(chunks))
    ensures id in PutFirst(docs, chunks, n) <==> id in docs || id in ChunkIds(chunks)[..n]
    ensures id !in ChunkIds(chunks)[..n] && id in docs ==> PutFirst(docs, chunks, n)[id] == docs[id]
    ensures forall i | 0 <= i < n && chunks[i].id == id :: id in PutFirst(docs, chunks, n) && PutFirst(docs, chunks, n)[id] == Document(chunks[i].text, WithText(chunks[i].metadata, chunks[i].text))
  {
    if n > 0 {
      PutFirstFacts(docs, chunks, n - 1, id);
      var ids := ChunkIds(chunks);
      assert ids[..n] == ids[..n - 1] + [ids[n - 1]];
      assert ids[n - 1] == chunks[n - 1].id;
      assert forall i | 0 <= i < n - 1 :: chunks[i].id == ids[i] != ids[n - 1];
    }
  }

  lemma MirrorsAppend(path: string, entries: seq<Entry>, docs: map<string, Document>, chunks: seq<Chunk>, vectors: seq<Vector>)
    requires Mirrors(entries, docs) && ChunksOk(path, chunks) && |vectors| == |chunks|
    requires forall id | id in ChunkIds(chunks) :: id !in IdsOf(entries)
    ensures Mirrors(entries + Zip(ChunkIds(chunks), vectors, MetadataOf(chunks)), PutFirst(docs, chunks, |chunks|))
  {
    var more := Zip(ChunkIds(chunks), vectors, MetadataOf(chunks));
    var docs' := PutFirst(docs, chunks, |chunks|);
    forall id
      ensures MirrorsAt(entries + more, docs', id)
    {
      assert MirrorsAt(entries, docs, id);
      PutFirstFacts(docs, chunks, |chunks|, id);
      assert ChunkIds(chunks)[..|chunks|] == ChunkIds(chunks);
      forall e | e in entries && e.id == id
        ensures id !in ChunkIds(chunks)
      {
        var k :| 0 <= k < |entries| && entries[k] == e;
        assert IdsOf(entries)[k] == id;
      }
      forall e | e in more && e.id == id
        ensures id in docs' && docs'[id] == Document(e.metadata.text.value, e.metadata)
      {
        NewEntryFacts(path, chunks, vectors, e);
      }
      if id in ChunkIds(chunks) {
        var i :| 0 <= i < |chunks| && ChunkIds(chunks)[i] == id;
        assert more[i] in entries + more && more[i].id == id;
      }
    }
  }

  function Added(c: Config, s: Stores, path: string, chunks: seq<Chunk>, vectors: seq<Vector>): Stores
    requires |vectors| == |chunks|
  {
    Stores(
      s.entries + Zip(ChunkIds(chunks), vectors, MetadataOf(chunks)),
      if c.keyword then PutFirst(s.docs, chunks, |chunks|) else s.docs,
      s.ledger[path := ChunkIds(chunks)])
  }

  lemma PathAfterAdd(c: Config, s: Stores, latest: map<string, seq<Entry>>, path: string, chunks: seq<Chunk>, vectors: seq<Vector>, other: string)
    requires PathOk(s, latest, other) && ChunksOk(path, chunks) && |vectors| == |chunks|
    requires forall e | e in s.entries :: !IsFrom(e, path)
    ensures PathOk(Added(c, s, path, chunks, vectors), latest[path := Zip(ChunkIds(chunks), vectors, MetadataOf(chunks))], other)
  {
    var more := Zip(ChunkIds(chunks), vectors, MetadataOf(chunks));
    forall e | e in more
      ensures IsFrom(e, path) && e.id in ChunkIds(chunks)
    {
      NewEntryFacts(path, chunks, vectors, e);
    }
    FromAppend(s.entries, more, other);
    if other == path {
      FromNone(s.entries, path);
      FromAll(more, path);
      forall id | id in ChunkIds(chunks)
        ensures IsOwn(path, id)
      {
        ChunkIdsAreOwn(path, chunks, id);
      }
    } else {
      FromNone(more, other);
    }
  }

  lemma AddKeepsInv(c: Config, s: Stores, latest: map<string, seq<Entry>>, path: string, chunks: seq<Chunk>, vectors: seq<Vector>)
    requires Inv(c, s, latest) && ChunksOk(path, chunks) && |vectors| == |chunks|
    requires forall e | e in s.entries :: !IsFrom(e, path)
    ensures Inv(c, Added(c, s, path, chunks, vectors), latest[path := Zip(ChunkIds(chunks), vectors, MetadataOf(chunks))])
  {
    var more := Zip(ChunkIds(chunks), vectors, MetadataOf(chunks));
    var t := Added(c, s, path, chunks, vectors);
    NoIdIsTaken(path, s.entries, chunks);
    NoRepeatsAppend(IdsOf(s.entries), ChunkIds(chunks));
    assert IdsOf(t.entries) == IdsOf(s.entries) + ChunkIds(chunks);
    forall e | e in more
      ensures EntryOk(e)
    {
      NewEntryFacts(path, chunks, vectors, e);
    }
    var after := latest[path := more];
    forall other
      ensures PathOk(t, after, other)
    {
      assert PathOk(s, latest, other);
      PathAfterAdd(c, s, latest, path, chunks, vectors, other);
    }
    if c.keyword {
      MirrorsAppend(path, s.entries, s.docs, chunks, vectors);
    }
  }

  // ---- Calls -----------------------------------------------------------------------------------

  /** Why a batch of a document's own vectors can be refused, after its old chunks are gone. */
  predicate BadVectors(entries: seq<Entry>, count: nat, vectors: seq<Vector>) {
    count > 0 && (|vectors| != count || !Uniform(vectors, |vectors[0]|) || (entries != [] && |vectors[0]| != DimensionOf(entries)))
  }

  /** The two errors about ids cannot occur; what remains is the embedding service's doing. */
  lemma ReplaceOutcome(c: Config, s: Stores, latest: map<string, seq<Entry>>, path: string, chunks: seq<Chunk>, vectors: seq<Vector>)
    requires Inv(c, s, latest) && ChunksOk(path, chunks)
    ensures var (result, after) := Replace(c, s, path, chunks, vectors);
      && result.Failed? == BadVectors(Cleared(c, s, path).entries, |chunks|, vectors)
      && (result.Failed? ==> result.error.Refused? && result.error.error in {VectorCount, NotTwoDimensional, WrongDimension} && after == Cleared(c, s, path))
      && (result.Indexed? ==> result.count == |chunks|)
  {
    ClearKeepsInv(c, s, latest, path);
    NoIdIsTaken(path, Cleared(c, s, path).entries, chunks);
    if chunks == [] {
      assert ChunkIds(chunks) == [];
    }
  }

  /** A document without chunks takes no vectors, however many there are. */
  function Taken(chunks: seq<Chunk>, vectors: seq<Vector>): seq<Vector> {
    if chunks == [] then [] else vectors
  }

  lemma ReplaceIsAdded(c: Config, s: Stores, path: string, chunks: seq<Chunk>, vectors: seq<Vector>)
    requires Replace(c, s, path, chunks, vectors).0.Indexed?
    ensures |Taken(chunks, vectors)| == |chunks|
    ensures Replace(c, s, path, chunks, vectors).1 == Added(c, Cleared(c, s, path), path, chunks, Taken(chunks, vectors))
  {
    if chunks == [] {
      assert ChunkIds(chunks) == [];
      assert Batch([], vectors, Some(MetadataOf(chunks))) == Zip([], [], []);
    } else {
      assert ChunkIds(chunks) != [];
    }
  }

  lemma ReplaceKeepsInv(c: Config, s: Stores, latest: map<string, seq<Entry>>, path: string, chunks: seq<Chunk>, vectors: seq<Vector>)
    requires Inv(c, s, latest) && ChunksOk(path, chunks)
    ensures var (result, after) := Replace(c, s, path, chunks, vectors);
      Inv(c, after, latest[path :=
        if result.Indexed? && |vectors| == |chunks| then Zip(ChunkIds(chunks), vectors, MetadataOf(chunks)) else []])
  {
    ClearKeepsInv(c, s, latest, path);
    ReplaceOutcome(c, s, latest, path, chunks, vectors);
    if Replace(c, s, path, chunks, vectors).0.Indexed? {
      ReplaceIsAdded(c, s, path, chunks, vectors);
      var own := Zip(ChunkIds(chunks), Taken(chunks, vectors), MetadataOf(chunks));
      AddKeepsInv(c, Cleared(c, s, path), latest[path := []], path, chunks, Taken(chunks, vectors));
      assert latest[path := []][path := own] == latest[path := own];
    }
  }

  /** Main result for one call: whatever its outcome, the stores go on holding what they should. */
  lemma StepKeepsInv(c: Config, s: Stores, latest: map<string, seq<Entry>>, call: Call)
    requires Inv(c, s, latest)
    ensures var (result, after) := Step(c, s, call); Inv(c, after, LatestStep(c, latest, call, result))
  {
    if LoadOf(call.texts).Pages? {
      var chunks := CallChunks(c, call);
      CallChunksOk(c, call);
      var vectors := call.embed(TextsOf(chunks));
      if vectors.Some? {
        ReplaceOutcome(c, s, latest, call.path, chunks, vectors.value);
        ReplaceKeepsInv(c, s, latest, call.path, chunks, vectors.value);
      }
    }
  }
}
