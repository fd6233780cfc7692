/** The keyword index: four dicts that are always about the same documents. */
module KeywordIndex {
  import opened Messages
  import opened VectorStore

  /** What the index knows of a document. */
  datatype Document = Document(text: string, metadata: Metadata)

  function WithText(metadata: Metadata, text: string): Metadata {
    metadata.(text := Some(text))
  }

  function Put(docs: map<string, Document>, id: string, text: string, metadata: Metadata): map<string, Document> {
    docs[id := Document(text, WithText(metadata, text))]
  }

  function Drop(docs: map<string, Document>, ids: seq<string>): map<string, Document> {
    map id | id in docs && id !in ids :: docs[id]
  }

  // ---- The four dicts --------------------------------------------------------------------------

  datatype Tables = Tables(docs: map<string, string>, termFreqs: map<string, multiset<string>>, docLengths: map<string, nat>, metadata: map<string, Metadata>)

  /** The dicts agree on whether there is such a document, and on what is in it. */
  ghost predicate AgreeOn(t: Tables, tokenize: string -> seq<string>, id: string) {
    && (id in t.docs <==> id in t.termFreqs)
    && (id in t.docs <==> id in t.docLengths)
    && (id in t.docs <==> id in t.metadata)
    && (id in t.docs ==>
      && t.termFreqs[id] == multiset(tokenize(t.docs[id]))
      && t.docLengths[id] == |tokenize(t.docs[id])|
      && t.metadata[id].text == Some(t.docs[id]))
  }

  ghost predicate Aligned(t: Tables, tokenize: string -> seq<string>) {
    forall id :: AgreeOn(t, tokenize, id)
  }

  function Join(docs: map<string, string>, metadata: map<string, Metadata>): map<string, Document> {
    map id | id in docs && id in metadata :: Document(docs[id], metadata[id])
  }

  function PutInto(t: Tables, tokenize: string -> seq<string>, id: string, text: string, metadata: Metadata): Tables {
    Tables(
      t.docs[id := text],
      t.termFreqs[id := multiset(tokenize(text))],
      t.docLengths[id := |tokenize(text)|],
      t.metadata[id := WithText(metadata, text)])
  }

  function DropFrom(t: Tables, id: string): Tables {
    Tables(t.docs - {id}, t.termFreqs - {id}, t.docLengths - {id}, t.metadata - {id})
  }

  lemma PutKeepsAligned(t: Tables, tokenize: string -> seq<string>, id: string, text: string, metadata: Metadata)
    requires Aligned(t, tokenize)
    ensures var t' := PutInto(t, tokenize, id, text, metadata);
      Aligned(t', tokenize) && Join(t'.docs, t'.metadata) == Put(Join(t.docs, t.metadata), id, text, metadata)
  {
    var t' := PutInto(t, tokenize, id, text, metadata);
    forall other
      ensures AgreeOn(t', tokenize, other)
    {
      assert AgreeOn(t, tokenize, other);
    }
  }

  lemma DropKeepsAligned(t: Tables, tokenize: string -> seq<string>, id: string)
    requires Aligned(t, tokenize)
    ensures var t' := DropFrom(t, id);
      Aligned(t', tokenize) && Join(t'.docs, t'.metadata) == Drop(Join(t.docs, t.metadata), [id])
  {
    var t' := DropFrom(t, id);
    forall other
      ensures AgreeOn(t', tokenize, other)
    {
      assert AgreeOn(t, tokenize, other);
    }
  }

  lemma DropOne(docs: map<string, Document>, ids: seq<string>, id: string)
    ensures Drop(Drop(docs, ids), [id]) == Drop(docs, ids + [id])
  {
  }

  class Bm25Index {
    const tokenize: string -> seq<string>
    var docs: map<string, string>
    var termFreqs: map<string, multiset<string>>
    var docLengths: map<string, nat>
    var metadata: map<string, Metadata>

    ghost function AllTables(): Tables
      reads this
    {
      Tables(docs, termFreqs, docLengths, metadata)
    }

    ghost predicate Valid()
      reads this
    {
      Aligned(AllTables(), tokenize)
    }

    ghost function Contents(): map<string, Document>
      reads this
    {
      Join(docs, metadata)
    }

    constructor (tokenize: string -> seq<string>)
      ensures Valid() && Contents() == map[] && this.tokenize == tokenize
    {
      this.tokenize := tokenize;
      docs, termFreqs, docLengths, metadata := map[], map[], map[], map[];
    }

    method Add(id: string, text: string, described: Metadata)
      requires Valid()
      modifies this
      ensures Valid() && Contents() == Put(old(Contents()), id, text, described)
    {
      PutKeepsAligned(AllTables(), tokenize, id, text, described);
      var tokens := tokenize(text);
      docs := docs[id := text];
      termFreqs := termFreqs[id := multiset(tokens)];
      docLengths := docLengths[id := |tokens|];
      metadata := metadata[id := WithText(described, text)];
    }

    /** Unknown ids are ignored. */
    method Delete(ids: seq<string>)
      requires Valid()
      modifies this
      ensures Valid() && Contents() == Drop(old(Contents()), ids)
    {
      for i := 0 to |ids|
        invariant Valid() && Contents() == Drop(old(Contents()), ids[..i])
      {
        DropKeepsAligned(AllTables(), tokenize, ids[i]);
        DropOne(old(Contents()), ids[..i], ids[i]);
        docs := docs - {ids[i]};
        termFreqs := termFreqs - {ids[i]};
        docLengths := docLengths - {ids[i]};
        metadata := metadata - {ids[i]};
        assert ids[..i + 1] == ids[..i] + [ids[i]];
      }
      assert ids[..|ids|] == ids;
    }
  }
}
