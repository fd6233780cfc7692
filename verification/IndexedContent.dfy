/** What an indexed document is: one entry for each piece of each page that has text, said outright. */
module IndexedContent {
  import opened Messages
  import opened Text
  import opened VectorStore
  import opened KeywordIndex
  import opened Pipeline
  import opened Indexing
  import opened IndexRuns

  /** A piece of a file: the position of its page, and of the piece within the page. */
  datatype Spot = Spot(page: nat, index: nat)

  /** The spot of a piece that is to be indexed. */
  predicate IsSpot(cut: string -> seq<string>, texts: seq<string>, at: Spot) {
    at.page < |texts| && !IsBlank(texts[at.page]) && at.index < |cut(texts[at.page])|
  }

  function PieceAt(cut: string -> seq<string>, texts: seq<string>, at: Spot): string
    requires IsSpot(cut, texts, at)
  {
    cut(texts[at.page])[at.index]
  }

  predicate Precedes(a: Spot, b: Spot) {
    a.page < b.page || (a.page == b.page && a.index < b.index)
  }

  /** All pieces of the file that are to be indexed, each once, in the order of pages and pieces. */
  ghost predicate ListsAll(cut: string -> seq<string>, texts: seq<string>, spots: seq<Spot>) {
    && (forall k | 0 <= k < |spots| :: IsSpot(cut, texts, spots[k]))
    && (forall j, k | 0 <= j < k < |spots| :: Precedes(spots[j], spots[k]))
    && forall at | IsSpot(cut, texts, at) :: at in spots
  }

  function PiecesAt(cut: string -> seq<string>, texts: seq<string>, spots: seq<Spot>): (pieces: seq<string>)
    requires forall k | 0 <= k < |spots| :: IsSpot(cut, texts, spots[k])
  {
    seq(|spots|, k requires 0 <= k < |spots| => PieceAt(cut, texts, spots[k]))
  }

  /** The entry of one piece: its id and place say where it is from, with pages counted from one, its
      text is the piece, and its vector the given one. */
  predicate IsEntryOf(path: string, at: Spot, piece: string, vector: Vector, e: Entry) {
    && e.id == path + ":" + Decimal(at.page + 1) + ":" + Decimal(at.index)
    && e.metadata.place == Some(Place(at.index, path, at.page + 1))
    && e.metadata.text == Some(piece)
    && e.vector == vector
  }

  /** These entries are the file of this call, with what the embedding service says of its pieces. */
  ghost predicate IsFileOf(c: Config, call: Call, entries: seq<Entry>) {
    call.texts.Some? &&
    exists spots: seq<Spot> ::
      && ListsAll(c.cut, call.texts.value, spots) && |entries| == |spots|
      && var pieces := PiecesAt(c.cut, call.texts.value, spots);
      && call.embed(pieces).Some? && (spots != [] ==> |call.embed(pieces).value| == |spots|)
      && forall k | 0 <= k < |spots| :: IsEntryOf(call.path, spots[k], pieces[k], call.embed(pieces).value[k], entries[k])
  }

  // ---- Cutting ---------------------------------------------------------------------------------

  function PageSpots(page: nat, count: nat): seq<Spot> {
    seq(count, i requires 0 <= i < count => Spot(page, i))
  }

  function SpotsOf(cut: string -> seq<string>, texts: seq<string>): seq<Spot> {
    if texts == [] then []
    else
      var n := |texts| - 1;
      SpotsOf(cut, texts[..n]) + if IsBlank(texts[n]) then [] else PageSpots(n, |cut(texts[n])|)
  }

  lemma {:induction false} SpotsAreSpots(cut: string -> seq<string>, texts: seq<string>)
    ensures forall k | 0 <= k < |SpotsOf(cut, texts)| :: IsSpot(cut, texts, SpotsOf(cut, texts)[k])
  {
    if texts != [] {
      var n := |texts| - 1;
      SpotsAreSpots(cut, texts[..n]);
      var before := SpotsOf(cut, texts[..n]);
      forall k | 0 <= k < |SpotsOf(cut, texts)|
        ensures IsSpot(cut, texts, SpotsOf(cut, texts)[k])
      {
        if k < |before| {
          assert IsSpot(cut, texts[..n], before[k]);
        }
      }
    }
  }

  lemma {:induction false} SpotsAscend(cut: string -> seq<string>, texts: seq<string>)
    ensures forall j, k | 0 <= j < k < |SpotsOf(cut, texts)| :: Precedes(SpotsOf(cut, texts)[j], SpotsOf(cut, texts)[k])
  {
    if texts != [] {
      var n := |texts| - 1;
      SpotsAscend(cut, texts[..n]);
      SpotsAreSpots(cut, texts[..n]);
      var before, all := SpotsOf(cut, texts[..n]), SpotsOf(cut, texts);
      forall j, k | 0 <= j < k < |all|
        ensures Precedes(all[j], all[k])
      {
        if j < |before| <= k {
          assert IsSpot(cut, texts[..n], before[j]);
        }
      }
    }
  }

  lemma {:induction false} SpotsAreAll(cut: string -> seq<string>, texts: seq<string>, at: Spot)
    requires IsSpot(cut, texts, at)
    ensures at in SpotsOf(cut, texts)
  {
    var n := |texts| - 1;
    if at.page == n {
      assert PageSpots(n, |cut(texts[n])|)[at.index] == at;
    } else {
      SpotsAreAll(cut, texts[..n], at);
    }
  }

  lemma SpotsListAll(cut: string -> seq<string>, texts: seq<string>)
    ensures ListsAll(cut, texts, SpotsOf(cut, texts))
  {
    SpotsAreSpots(cut, texts);
    SpotsAscend(cut, texts);
    forall at | IsSpot(cut, texts, at)
      ensures at in SpotsOf(cut, texts)
    {
      SpotsAreAll(cut, texts, at);
    }
  }

  /** The chunk of one piece. */
  predicate IsChunkOf(path: string, at: Spot, piece: string, chunk: Chunk) {
    && chunk.id == path + ":" + Decimal(at.page + 1) + ":" + Decimal(at.index)
    && chunk.metadata.place == Some(Place(at.index, path, at.page + 1))
    && chunk.metadata.text == Some(piece) && chunk.text == piece
  }

  ghost predicate AreThePieces(cut: string -> seq<string>, path: string, texts: seq<string>, spots: seq<Spot>, chunks: seq<Chunk>) {
    |chunks| == |spots| && forall k | 0 <= k < |spots| ::
      IsSpot(cut, texts, spots[k]) && IsChunkOf(path, spots[k], PieceAt(cut, texts, spots[k]), chunks[k])
  }

  lemma PageIsItsPieces(cut: string -> seq<string>, path: string, texts: seq<string>)
    requires texts != [] && !IsBlank(texts[|texts| - 1])
    ensures var n := |texts| - 1;
      AreThePieces(cut, path, texts, PageSpots(n, |cut(texts[n])|), PageChunks(path, Page(n + 1, texts[n]), cut))
  {
  }

  lemma OneMorePage(cut: string -> seq<string>, path: string, texts: seq<string>)
    requires texts != []
    ensures var n := |texts| - 1;
      ChunksOf(path, PagesOf(texts), cut)
      == ChunksOf(path, PagesOf(texts[..n]), cut) + if IsBlank(texts[n]) then [] else PageChunks(path, Page(n + 1, texts[n]), cut)
  {
    var pages, before := PagesOf(texts), PagesOf(texts[..|texts| - 1]);
    if IsBlank(texts[|texts| - 1]) {
      assert pages == before;
    } else {
      assert pages == before + [Page(|texts|, texts[|texts| - 1])] && pages[..|pages| - 1] == before;
    }
  }

  lemma PiecesAppend(cut: string -> seq<string>, path: string, texts: seq<string>, a: seq<Spot>, b: seq<Spot>, x: seq<Chunk>, y: seq<Chunk>)
    requires texts != [] && AreThePieces(cut, path, texts[..|texts| - 1], a, x) && AreThePieces(cut, path, texts, b, y)
    ensures AreThePieces(cut, path, texts, a + b, x + y)
  {
    forall k | 0 <= k < |a|
      ensures IsSpot(cut, texts, a[k]) && IsChunkOf(path, a[k], PieceAt(cut, texts, a[k]), x[k])
    {
      assert IsSpot(cut, texts[..|texts| - 1], a[k]);
    }
  }

  /** Cutting makes a chunk of each piece, in order. */
  lemma {:induction false} ChunksAreThePieces(cut: string -> seq<string>, path: string, texts: seq<string>)
    ensures AreThePieces(cut, path, texts, SpotsOf(cut, texts), ChunksOf(path, PagesOf(texts), cut))
  {
    if texts != [] {
      var n := |texts| - 1;
      ChunksAreThePieces(cut, path, texts[..n]);
      OneMorePage(cut, path, texts);
      var before, chunks := SpotsOf(cut, texts[..n]), ChunksOf(path, PagesOf(texts[..n]), cut);
      if IsBlank(texts[n]) {
        PiecesAppend(cut, path, texts, before, [], chunks, []);
      } else {
        PageIsItsPieces(cut, path, texts);
        PiecesAppend(cut, path, texts, before, PageSpots(n, |cut(texts[n])|), chunks, PageChunks(path, Page(n + 1, texts[n]), cut));
      }
    }
  }

  // ---- What the stores hold --------------------------------------------------------------------

  lemma NewEntriesAreTheFile(c: Config, call: Call)
    requires LoadOf(call.texts).Pages?
    requires var chunks := CallChunks(c, call); var vectors := call.embed(TextsOf(chunks));
      vectors.Some? && (chunks != [] ==> |vectors.value| == |chunks|)
    ensures IsFileOf(c, call, NewEntries(c, call)) && |NewEntries(c, call)| == |CallChunks(c, call)|
  {
    var texts, chunks := call.texts.value, CallChunks(c, call);
    var spots := SpotsOf(c.cut, texts);
    SpotsListAll(c.cut, texts);
    ChunksAreThePieces(c.cut, call.path, texts);
    var pieces := PiecesAt(c.cut, texts, spots);
    assert TextsOf(chunks) == pieces by {
      forall k | 0 <= k < |spots|
        ensures TextsOf(chunks)[k] == pieces[k]
      {
        assert IsChunkOf(call.path, spots[k], PieceAt(c.cut, texts, spots[k]), chunks[k]);
      }
    }
    var entries := NewEntries(c, call);
    if spots != [] {
      forall k | 0 <= k < |spots|
        ensures IsEntryOf(call.path, spots[k], pieces[k], call.embed(pieces).value[k], entries[k])
      {
        assert IsChunkOf(call.path, spots[k], PieceAt(c.cut, texts, spots[k]), chunks[k]);
      }
    }
  }

  lemma IndexedIsTheFile(c: Config, calls: seq<Call>)
    requires calls != [] && ResultOf(c, calls).Indexed?
    ensures var call := calls[|calls| - 1];
      && LoadOf(call.texts).Pages? && IsFileOf(c, call, NewEntries(c, call)) && ResultOf(c, calls).count == |NewEntries(c, call)|
  {
    WhenACallFails(c, calls);
    NewEntriesAreTheFile(c, calls[|calls| - 1]);
  }

  /** The keyword index holds the same texts under the same ids. */
  ghost predicate SameInKeywords(c: Config, s: Stores, entries: seq<Entry>) {
    c.keyword ==> forall k | 0 <= k < |entries| ::
      && entries[k].id in s.docs && entries[k].metadata.text.Some?
      && s.docs[entries[k].id] == Document(entries[k].metadata.text.value, entries[k].metadata)
  }

  lemma StoredIsInKeywords(c: Config, calls: seq<Call>, path: string)
    ensures SameInKeywords(c, After(c, calls), From(After(c, calls).entries, path))
  {
    var s := After(c, calls);
    StoresHoldLatest(c, calls, path);
    FromMembers(s.entries, path);
    if c.keyword {
      forall k | 0 <= k < |From(s.entries, path)|
        ensures var e := From(s.entries, path)[k];
          e.id in s.docs && e.metadata.text.Some? && s.docs[e.id] == Document(e.metadata.text.value, e.metadata)
      {
        var e := From(s.entries, path)[k];
        assert e in From(s.entries, path) && EntryOk(e);
        assert MirrorsAt(s.entries, s.docs, e.id);
      }
    }
  }

  /** Main result for a call that succeeds: both stores then hold, for its path, exactly the pieces of the
      pages that have text, in order, each with its own text, place and vector. */
  lemma IndexedContentIsTheFile(c: Config, calls: seq<Call>)
    requires calls != [] && ResultOf(c, calls).Indexed?
    ensures var call := calls[|calls| - 1]; var stored := From(After(c, calls).entries, call.path);
      && IsFileOf(c, call, stored) && |stored| == ResultOf(c, calls).count
      && SameInKeywords(c, After(c, calls), stored)
  {
    StoresHoldLatest(c, calls, calls[|calls| - 1].path);
    IndexedIsTheFile(c, calls);
    StoredIsInKeywords(c, calls, calls[|calls| - 1].path);
  }

  /** The last of these calls is for another path, or fails before it replaces anything. */
  predicate LastLeavesAlone(c: Config, calls: seq<Call>, path: string)
    requires calls != []
  {
    calls[|calls| - 1].path == path ==> ResultOf(c, calls).Failed? && !ResultOf(c, calls).error.Refused?
  }

  /** So does every call after the first `m`. */
  predicate AloneSince(c: Config, calls: seq<Call>, m: nat, path: string)
    requires m <= |calls|
  {
    m == |calls| || (LastLeavesAlone(c, calls, path) && AloneSince(c, calls[..|calls| - 1], m, path))
  }

  lemma LatestOfOneMore(c: Config, calls: seq<Call>, path: string)
    requires calls != [] && Latest(c, calls, path) != []
    ensures var last := calls[|calls| - 1];
      if last.path == path && ResultOf(c, calls).Indexed? then Latest(c, calls, path) == NewEntries(c, last)
      else LastLeavesAlone(c, calls, path) && Latest(c, calls, path) == Latest(c, calls[..|calls| - 1], path)
  {
  }

  lemma {:induction false} LatestIsSomeFile(c: Config, calls: seq<Call>, path: string) returns (done: seq<Call>)
    requires Latest(c, calls, path) != []
    ensures done != [] && done <= calls && done[|done| - 1].path == path && ResultOf(c, done).Indexed?
    ensures IsFileOf(c, done[|done| - 1], Latest(c, calls, path)) && AloneSince(c, calls, |done|, path)
  {
    LatestOfOneMore(c, calls, path);
    if calls[|calls| - 1].path == path && ResultOf(c, calls).Indexed? {
      done := calls;
      IndexedIsTheFile(c, calls);
    } else {
      done := LatestIsSomeFile(c, calls[..|calls| - 1], path);
    }
  }

  /** Main result over any calls: whatever the stores hold for a path is the file of one call that was
      indexed, and no later call on that path got as far as to replace it. */
  lemma StoredIsSomeFile(c: Config, calls: seq<Call>, path: string) returns (done: seq<Call>)
    requires From(After(c, calls).entries, path) != []
    ensures done != [] && done <= calls && done[|done| - 1].path == path && ResultOf(c, done).Indexed?
    ensures IsFileOf(c, done[|done| - 1], From(After(c, calls).entries, path)) && AloneSince(c, calls, |done|, path)
    ensures SameInKeywords(c, After(c, calls), From(After(c, calls).entries, path))
  {
    StoresHoldLatest(c, calls, path);
    done := LatestIsSomeFile(c, calls, path);
    StoredIsInKeywords(c, calls, path);
  }
}
