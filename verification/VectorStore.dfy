/** The vector store: four aligned sequences behind add, delete and update. */
module VectorStore {
  import opened Lists
  import opened Messages

  type Vector = seq<real>

  datatype Place = Place(chunkIndex: nat, source: string, page: nat)

  /** The metadata dict: where a chunk comes from, and its text, as far as they are given. */
  datatype Metadata = Metadata(place: Option<Place>, text: Option<string>)

  const BLANK := Metadata(None, None)

  /** One stored vector, seen as a whole. */
  datatype Entry = Entry(id: string, vector: Vector, metadata: Metadata)

  /** The flat index: rows of one dimension. */
  datatype Index = Index(dimension: nat, rows: seq<Vector>)

  datatype StoreError = VectorCount | MetadataCount | DuplicateIds | ExistingIds | NotTwoDimensional | WrongDimension

  predicate Uniform(vectors: seq<Vector>, dimension: nat) {
    forall i | 0 <= i < |vectors| :: |vectors[i]| == dimension
  }

  function IdsOf(entries: seq<Entry>): seq<string> {
    seq(|entries|, i requires 0 <= i < |entries| => entries[i].id)
  }

  function Zip(ids: seq<string>, vectors: seq<Vector>, metadata: seq<Metadata>): (entries: seq<Entry>)
    requires |ids| == |vectors| == |metadata|
    ensures IdsOf(entries) == ids
  {
    seq(|ids|, i requires 0 <= i < |ids| => Entry(ids[i], vectors[i], metadata[i]))
  }

  lemma ZipAppend(ids: seq<string>, vectors: seq<Vector>, metadata: seq<Metadata>, ids': seq<string>, vectors': seq<Vector>, metadata': seq<Metadata>)
    requires |ids| == |vectors| == |metadata| && |ids'| == |vectors'| == |metadata'|
    ensures Zip(ids + ids', vectors + vectors', metadata + metadata') == Zip(ids, vectors, metadata) + Zip(ids', vectors', metadata')
  {
  }

  /** The entries whose ids are not among `ids`, in their order. */
  function Without(entries: seq<Entry>, ids: seq<string>): seq<Entry> {
    if entries == [] then []
    else if entries[0].id in ids then Without(entries[1..], ids)
    else [entries[0]] + Without(entries[1..], ids)
  }

  lemma {:induction false} WithoutMembers(entries: seq<Entry>, ids: seq<string>)
    ensures forall e :: e in Without(entries, ids) <==> e in entries && e.id !in ids
  {
    if entries != [] {
      WithoutMembers(entries[1..], ids);
      assert entries == [entries[0]] + entries[1..];
    }
  }

  lemma {:induction false} WithoutSize(entries: seq<Entry>, ids: seq<string>)
    ensures |Without(entries, ids)| <= |entries|
    ensures |Without(entries, ids)| == |entries| ==> Without(entries, ids) == entries
  {
    if entries != [] {
      WithoutSize(entries[1..], ids);
    }
  }

  /** The positions from `i` on whose ids are not among `gone`. */
  function KeepFrom(ids: seq<string>, gone: seq<string>, i: nat): (keep: seq<nat>)
    requires i <= |ids|
    ensures forall k | 0 <= k < |keep| :: i <= keep[k] < |ids|
    ensures |keep| <= |ids| - i
    decreases |ids| - i
  {
    if i == |ids| then []
    else if ids[i] in gone then KeepFrom(ids, gone, i + 1)
    else [i] + KeepFrom(ids, gone, i + 1)
  }

  function Pick<T>(list: seq<T>, keep: seq<nat>): seq<T>
    requires forall k | 0 <= k < |keep| :: keep[k] < |list|
  {
    seq(|keep|, k requires 0 <= k < |keep| => list[keep[k]])
  }

  lemma {:induction false} PickIsWithout(entries: seq<Entry>, ids: seq<string>, gone: seq<string>, i: nat)
    requires i <= |entries| && ids == IdsOf(entries)
    ensures Pick(entries, KeepFrom(ids, gone, i)) == Without(entries[i..], gone)
    decreases |entries| - i
  {
    if i < |entries| {
      PickIsWithout(entries, ids, gone, i + 1);
      assert entries[i..][1..] == entries[i + 1..];
      var rest := KeepFrom(ids, gone, i + 1);
      if ids[i] in gone {
        assert KeepFrom(ids, gone, i) == rest;
      } else {
        assert Pick(entries, [i] + rest) == [entries[i]] + Pick(entries, rest);
      }
    }
  }

  lemma {:induction false} WithoutNoRepeats(entries: seq<Entry>, ids: seq<string>)
    requires NoRepeats(IdsOf(entries))
    ensures NoRepeats(IdsOf(Without(entries, ids)))
    ensures forall id | id in IdsOf(Without(entries, ids)) :: id in IdsOf(entries)
  {
    if entries != [] {
      NoRepeatsTail(IdsOf(entries));
      assert IdsOf(entries[1..]) == IdsOf(entries)[1..];
      WithoutNoRepeats(entries[1..], ids);
      var rest := IdsOf(Without(entries[1..], ids));
      if entries[0].id !in ids {
        NoRepeatsAppend([entries[0].id], rest);
        assert IdsOf(Without(entries, ids)) == [entries[0].id] + rest;
      } else {
        assert IdsOf(Without(entries, ids)) == rest;
      }
    }
  }

  /** The dimension every vector of a non-empty store has. */
  function DimensionOf(entries: seq<Entry>): nat
    requires entries != []
  {
    |entries[0].vector|
  }

  /** Why a batch is refused, in the order of the checks. */
  function AddError(entries: seq<Entry>, ids: seq<string>, vectors: seq<Vector>, metadata: Option<seq<Metadata>>): Option<StoreError> {
    if ids == [] then None
    else if |ids| != |vectors| then Some(VectorCount)
    else if metadata.Some? && |metadata.value| != |ids| then Some(MetadataCount)
    else if !NoRepeats(ids) then Some(DuplicateIds)
    else if exists id | id in ids :: id in IdsOf(entries) then Some(ExistingIds)
    else if !Uniform(vectors, |vectors[0]|) then Some(NotTwoDimensional)
    else if entries != [] && |vectors[0]| != DimensionOf(entries) then Some(WrongDimension)
    else None
  }

  lemma StoredUnder(entries: seq<Entry>, id: string)
    ensures id in IdsOf(entries) ==> exists e :: e in entries && e.id == id
  {
    if id in IdsOf(entries) {
      var k :| 0 <= k < |entries| && IdsOf(entries)[k] == id;
      assert entries[k] in entries && entries[k].id == id;
    }
  }

  lemma IdIsListed(entries: seq<Entry>, e: Entry)
    requires e in entries
    ensures e.id in IdsOf(entries)
  {
    var k :| 0 <= k < |entries| && entries[k] == e;
    assert IdsOf(entries)[k] == e.id;
  }

  /** A batch that goes with the store: as many vectors as ids, and metadata if any, under new ids without
      repeats, all vectors of one dimension, and that of the store. */
  ghost predicate GoesWith(entries: seq<Entry>, ids: seq<string>, vectors: seq<Vector>, metadata: Option<seq<Metadata>>) {
    && |vectors| == |ids| && (metadata.Some? ==> |metadata.value| == |ids|)
    && (forall i, j | 0 <= i < j < |ids| :: ids[i] != ids[j]) && (forall e | e in entries :: e.id !in ids)
    && (forall v, w | v in vectors && w in vectors :: |v| == |w|)
    && forall v | v in vectors && entries != [] :: |v| == |entries[0].vector|
  }

  /** A batch is taken exactly if it is empty or goes with the store; a refusal says what is amiss. */
  lemma AddErrorSays(entries: seq<Entry>, ids: seq<string>, vectors: seq<Vector>, metadata: Option<seq<Metadata>>)
    ensures AddError(entries, ids, vectors, metadata).None? <==> ids == [] || GoesWith(entries, ids, vectors, metadata)
    ensures match AddError(entries, ids, vectors, metadata)
      case None => true
      case Some(VectorCount) => |vectors| != |ids|
      case Some(MetadataCount) => metadata.Some? && |metadata.value| != |ids|
      case Some(DuplicateIds) => exists i, j :: 0 <= i < j < |ids| && ids[i] == ids[j]
      case Some(ExistingIds) => exists e | e in entries :: e.id in ids
      case Some(NotTwoDimensional) => exists v, w | v in vectors && w in vectors :: |v| != |w|
      case Some(WrongDimension) => entries != [] && forall v | v in vectors :: |v| != |entries[0].vector|
  {
    forall e | e in entries
      ensures e.id in IdsOf(entries)
    {
      IdIsListed(entries, e);
    }
    forall id | id in ids && id in IdsOf(entries)
      ensures exists e :: e in entries && e.id == id
    {
      StoredUnder(entries, id);
    }
    if ids != [] && |ids| == |vectors| {
      assert vectors[0] in vectors && forall i | 0 <= i < |vectors| :: vectors[i] in vectors;
    }
  }

  function Batch(ids: seq<string>, vectors: seq<Vector>, metadata: Option<seq<Metadata>>): seq<Entry>
    requires ids != [] ==> |ids| == |vectors| && (metadata.Some? ==> |metadata.value| == |ids|)
  {
    if ids == [] then [] else Zip(ids, vectors, if metadata.Some? then metadata.value else seq(|ids|, _ => BLANK))
  }

  /** What the store holds after an attempt to add. */
  function AfterAdd(entries: seq<Entry>, ids: seq<string>, vectors: seq<Vector>, metadata: Option<seq<Metadata>>): seq<Entry> {
    if AddError(entries, ids, vectors, metadata).Some? then entries else entries + Batch(ids, vectors, metadata)
  }

  /** What the store holds after an attempt to update. */
  function AfterUpdate(entries: seq<Entry>, ids: seq<string>, vectors: seq<Vector>, metadata: Option<seq<Metadata>>): seq<Entry> {
    AfterAdd(Without(entries, ids), ids, vectors, metadata)
  }

  /** An update is not atomic: it loses an id that was stored exactly when the add behind the delete is
      refused and some stored entry was to be updated. */
  lemma UpdateLosesExactlyWhenRefused(entries: seq<Entry>, ids: seq<string>, vectors: seq<Vector>, metadata: Option<seq<Metadata>>)
    ensures (exists e | e in entries :: e.id !in IdsOf(AfterUpdate(entries, ids, vectors, metadata)))
            <==> AddError(Without(entries, ids), ids, vectors, metadata).Some? && exists e | e in entries :: e.id in ids
  {
    var kept, after := Without(entries, ids), AfterUpdate(entries, ids, vectors, metadata);
    WithoutMembers(entries, ids);
    if AddError(kept, ids, vectors, metadata).Some? {
      forall e | e in entries
        ensures e.id in IdsOf(after) ==> e.id !in ids
      {
        StoredUnder(after, e.id);
      }
      forall e | e in entries && e.id !in ids
        ensures e.id in IdsOf(after)
      {
        IdIsListed(after, e);
      }
    } else {
      forall e | e in entries
        ensures e.id in IdsOf(after)
      {
        assert IdsOf(after) == IdsOf(kept) + ids;
        if e.id !in ids {
          IdIsListed(kept, e);
        }
      }
    }
  }

  /** One stored vector, updated with none: refused, and gone. */
  lemma RefusedUpdateLosesTheEntry(id: string, vector: Vector)
    ensures var entries := [Entry(id, vector, BLANK)];
            && AddError(Without(entries, [id]), [id], [], None) == Some(VectorCount)
            && AfterUpdate(entries, [id], [], None) == []
  {
    var entries := [Entry(id, vector, BLANK)];
    assert entries[0].id in [id] && Without(entries[1..], [id]) == [];
  }

  class FaissVectorStore {
    var index: Option<Index>
    var ids: seq<string>
    var vectors: seq<Vector>
    var metadata: seq<Metadata>

    /** The sequences are aligned, ids are unique, and the index is there exactly for a non-empty
        store, with one row per vector, all of its dimension. */
    ghost predicate Valid()
      reads this
    {
      && |ids| == |vectors| == |metadata|
      && NoRepeats(ids)
      && (index.None? <==> ids == [])
      && (index.Some? ==> index.value.rows == vectors && Uniform(vectors, index.value.dimension))
    }

    ghost function Entries(): (entries: seq<Entry>)
      requires Valid()
      reads this
      ensures IdsOf(entries) == ids
    {
      Zip(ids, vectors, metadata)
    }

    constructor ()
      ensures Valid() && Entries() == []
    {
      index := None;
      ids, vectors, metadata := [], [], [];
    }

    method Add(newIds: seq<string>, newVectors: seq<Vector>, newMetadata: Option<seq<Metadata>>) returns (error: Option<StoreError>)
      requires Valid()
      modifies this
      ensures Valid()
      ensures error == AddError(old(Entries()), newIds, newVectors, newMetadata)
      ensures Entries() == AfterAdd(old(Entries()), newIds, newVectors, newMetadata)
    {
      if newIds == [] {
        assert Entries() + [] == Entries();
        return None;
      }
      if |newIds| != |newVectors| {
        return Some(VectorCount);
      }
      var described := if newMetadata.Some? then newMetadata.value else seq(|newIds|, _ => BLANK);
      if |described| != |newIds| {
        return Some(MetadataCount);
      }
      if !NoRepeats(newIds) {
        return Some(DuplicateIds);
      }
      if exists id | id in newIds :: id in ids {
        return Some(ExistingIds);
      }
      if !Uniform(newVectors, |newVectors[0]|) {
        return Some(NotTwoDimensional);
      }
      if index.None? {
        index := Some(Index(|newVectors[0]|, []));
      } else if |newVectors[0]| != index.value.dimension {
        return Some(WrongDimension);
      }
      Extend(newIds, newVectors, described);
      error := None;
    }

    method Extend(newIds: seq<string>, newVectors: seq<Vector>, newMetadata: seq<Metadata>)
      requires |ids| == |vectors| == |metadata| && NoRepeats(ids)
      requires index.Some? && index.value.rows == vectors && Uniform(vectors, index.value.dimension)
      requires newIds != [] && |newIds| == |newVectors| == |newMetadata| && Uniform(newVectors, index.value.dimension)
      requires NoRepeats(newIds) && forall id | id in newIds :: id !in ids
      modifies this
      ensures Valid()
      ensures Entries() == old(Zip(ids, vectors, metadata)) + Zip(newIds, newVectors, newMetadata)
    {
      NoRepeatsAppend(ids, newIds);
      ZipAppend(ids, vectors, metadata, newIds, newVectors, newMetadata);
      index := Some(Index(index.value.dimension, index.value.rows + newVectors));
      ids := ids + newIds;
      vectors := vectors + newVectors;
      metadata := metadata + newMetadata;
    }

    /** Rebuilds the sequences without the given ids; unknown ids are ignored. */
    method Delete(gone: seq<string>)
      requires Valid()
      modifies this
      ensures Valid()
      ensures Entries() == Without(old(Entries()), gone)
    {
      var keep := KeepFrom(ids, gone, 0);
      ghost var entries := Entries();
      PickIsWithout(entries, ids, gone, 0);
      assert entries[0..] == entries;
      WithoutSize(entries, gone);
      WithoutNoRepeats(entries, gone);
      if |keep| == |ids| {
        return;
      }
      ids, vectors, metadata := Pick(ids, keep), Pick(vectors, keep), Pick(metadata, keep);
      assert Zip(ids, vectors, metadata) == Pick(entries, keep);
      if ids == [] {
        index := None;
        return;
      }
      index := Some(Index(index.value.dimension, vectors));
    }

    /** Not atomic: a refused add leaves the ids deleted. */
    method Update(newIds: seq<string>, newVectors: seq<Vector>, newMetadata: Option<seq<Metadata>>) returns (error: Option<StoreError>)
      requires Valid()
      modifies this
      ensures Valid()
      ensures error == AddError(Without(old(Entries()), newIds), newIds, newVectors, newMetadata)
      ensures Entries() == AfterUpdate(old(Entries()), newIds, newVectors, newMetadata)
    {
      Delete(newIds);
      error := Add(newIds, newVectors, newMetadata);
    }
  }
}
