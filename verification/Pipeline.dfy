/** Indexing documents into two stores with a ledger of what to delete, proved to keep exactly the
    latest chunks of every document. */
module Pipeline {
  import opened Lists
  import opened Messages
  import opened Text
  import opened VectorStore

  // ---- Pages and chunks ------------------------------------------------------------------------

  datatype Page = Page(number: nat, text: string)

  /** The pages that have text, numbered from one by their place in the file. */
  function PagesOf(texts: seq<string>): (pages: seq<Page>) {
    if texts == [] then []
    else
      var last := texts[|texts| - 1];
      PagesOf(texts[..|texts| - 1]) + if IsBlank(last) then [] else [Page(|texts|, last)]
  }

  datatype IndexError = CannotRead | NoText | EmbeddingFailed | Refused(error: StoreError)

  datatype Loaded = Unusable(error: IndexError) | Pages(pages: seq<Page>)

  function LoadOf(texts: Option<seq<string>>): Loaded {
    if texts.None? then Unusable(CannotRead)
    else if PagesOf(texts.value) == [] then Unusable(NoText)
    else Pages(PagesOf(texts.value))
  }

  /** `texts` is what the reader extracts page by page, `None` when it cannot read the file. */
  method LoadPdf(texts: Option<seq<string>>) returns (loaded: Loaded)
    ensures loaded == LoadOf(texts)
  {
    if texts.None? {
      return Unusable(CannotRead);
    }
    var pages := [];
    for n := 0 to |texts.value|
      invariant pages == PagesOf(texts.value[..n])
    {
      assert texts.value[..n + 1][..n] == texts.value[..n];
      if !IsBlank(texts.value[n]) {
        pages := pages + [Page(n + 1, texts.value[n])];
      }
    }
    assert texts.value[..|texts.value|] == texts.value;
    return if pages == [] then Unusable(NoText) else Pages(pages);
  }

  datatype Chunk = Chunk(id: string, text: string, metadata: Metadata)

  function ChunkId(path: string, page: nat, index: nat): string {
    path + ":" + Decimal(page) + ":" + Decimal(index)
  }

  function ChunkOf(path: string, page: nat, index: nat, text: string): Chunk {
    Chunk(ChunkId(path, page, index), text, Metadata(Some(Place(index, path, page)), Some(text)))
  }

  function PageChunks(path: string, page: Page, cut: string -> seq<string>): seq<Chunk> {
    var pieces := cut(page.text);
    seq(|pieces|, i requires 0 <= i < |pieces| => ChunkOf(path, page.number, i, pieces[i]))
  }

  function ChunksOf(path: string, pages: seq<Page>, cut: string -> seq<string>): seq<Chunk> {
    if pages == [] then []
    else ChunksOf(path, pages[..|pages| - 1], cut) + PageChunks(path, pages[|pages| - 1], cut)
  }

  /** `cut` stands for the splitting of a page's text. */
  method CutPages(path: string, pages: seq<Page>, cut: string -> seq<string>) returns (chunks: seq<Chunk>)
    ensures chunks == ChunksOf(path, pages, cut)
  {
    chunks := [];
    for n := 0 to |pages|
      invariant chunks == ChunksOf(path, pages[..n], cut)
    {
      ghost var before := chunks;
      var pieces := cut(pages[n].text);
      for i := 0 to |pieces|
        invariant chunks == before + PageChunks(path, pages[n], cut)[..i]
      {
        chunks := chunks + [ChunkOf(path, pages[n].number, i, pieces[i])];
      }
      assert pages[..n + 1][..n] == pages[..n];
    }
    assert pages[..|pages|] == pages;
  }

  // ---- Ids are unique --------------------------------------------------------------------------

  /** Paths may hold colons; the numbers behind them cannot. */
  lemma ChunkIdIsInjective(p: string, m: nat, i: nat, q: string, n: nat, j: nat)
    requires ChunkId(p, m, i) == ChunkId(q, n, j)
    ensures p == q && m == n && i == j
  {
    DecimalHasNoColon(i);
    DecimalHasNoColon(j);
    LastColonSplits(p + ":" + Decimal(m), Decimal(i), q + ":" + Decimal(n), Decimal(j));
    DecimalHasNoColon(m);
    DecimalHasNoColon(n);
    LastColonSplits(p, Decimal(m), q, Decimal(n));
    DecimalIsInjective(m, n);
    DecimalIsInjective(i, j);
  }

  /** The chunk says where it comes from, and its id says the same. */
  ghost predicate IsLabelled(path: string, id: string, metadata: Metadata) {
    metadata.place.Some? && metadata.place.value.source == path
    && id == ChunkId(path, metadata.place.value.page, metadata.place.value.chunkIndex)
  }

  function ChunkIds(chunks: seq<Chunk>): seq<string> {
    seq(|chunks|, i requires 0 <= i < |chunks| => chunks[i].id)
  }

  ghost predicate PagesBelow(chunks: seq<Chunk>, path: string, bound: nat) {
    forall i | 0 <= i < |chunks| ::
      IsLabelled(path, chunks[i].id, chunks[i].metadata) && chunks[i].metadata.place.value.page <= bound
      && chunks[i].metadata.text == Some(chunks[i].text)
  }

  lemma {:induction false} PagesAscend(texts: seq<string>)
    ensures forall i | 0 <= i < |PagesOf(texts)| :: 1 <= PagesOf(texts)[i].number <= |texts|
    ensures forall i, j | 0 <= i < j < |PagesOf(texts)| :: PagesOf(texts)[i].number < PagesOf(texts)[j].number
  {
    if texts != [] {
      PagesAscend(texts[..|texts| - 1]);
    }
  }

  lemma PageChunkIds(path: string, page: Page, cut: string -> seq<string>)
    ensures NoRepeats(ChunkIds(PageChunks(path, page, cut))) && PagesBelow(PageChunks(path, page, cut), path, page.number)
  {
    var chunks := PageChunks(path, page, cut);
    forall i, j | 0 <= i < j < |chunks|
      ensures chunks[i].id != chunks[j].id
    {
      if chunks[i].id == chunks[j].id {
        ChunkIdIsInjective(path, page.number, i, path, page.number, j);
      }
    }
  }

  /** No id is minted twice for one document. */
  lemma {:induction false} ChunkIdsAreUnique(path: string, pages: seq<Page>, cut: string -> seq<string>)
    requires forall i, j | 0 <= i < j < |pages| :: pages[i].number < pages[j].number
    ensures NoRepeats(ChunkIds(ChunksOf(path, pages, cut)))
    ensures PagesBelow(ChunksOf(path, pages, cut), path, if pages == [] then 0 else pages[|pages| - 1].number)
  {
    if pages != [] {
      var before, last := pages[..|pages| - 1], pages[|pages| - 1];
      ChunkIdsAreUnique(path, before, cut);
      PageChunkIds(path, last, cut);
      var a, b := ChunksOf(path, before, cut), PageChunks(path, last, cut);
      forall i, j | 0 <= i < |a| && 0 <= j < |b|
        ensures a[i].id != b[j].id
      {
        if a[i].id == b[j].id {
          var place := a[i].metadata.place.value;
          ChunkIdIsInjective(path, place.page, place.chunkIndex, path, last.number, j);
        }
      }
      NoRepeatsAppend(ChunkIds(a), ChunkIds(b));
      assert ChunkIds(a + b) == ChunkIds(a) + ChunkIds(b);
    }
  }
}
