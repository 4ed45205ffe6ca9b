/** `_save` followed by `_load` refines the store. */
module VectorStoreLoad {
  import opened Collections
  import opened VectorStore

  ghost predicate RecordsLoaded(snap: Snapshot, st: Store, order: seq<nat>) {
    && st.index == snap.index && st.nextId == snap.nextId
    && st.records.order == order
    && (forall id :: id in st.records.at <==> id in order)
    && (forall id | id in order :: id in snap.records.at && st.records.at[id] == snap.records.at[id])
  }

  ghost predicate HashesLoaded(snap: Snapshot, idByHash: map<string, nat>, order: seq<nat>) {
    && (forall id | id in order :: id in snap.records.at && snap.records.at[id].contentHash in idByHash)
    && (forall h | h in idByHash ::
          idByHash[h] in order && idByHash[h] in snap.records.at && snap.records.at[idByHash[h]].contentHash == h)
  }

  ghost predicate ChunksLoaded(snap: Snapshot, idByChunk: map<string, nat>, order: seq<nat>) {
    && (forall id | id in order :: id in snap.records.at && snap.records.at[id].chunkId in idByChunk)
    && (forall c | c in idByChunk ::
          idByChunk[c] in order && idByChunk[c] in snap.records.at && snap.records.at[idByChunk[c]].chunkId == c)
  }

  lemma LoadOneRecord(snap: Snapshot, st: Store, order: seq<nat>, id: nat)
    requires RecordsLoaded(snap, st, order) && id !in order && id in snap.records.at
    ensures RecordsLoaded(snap, LoadOne(st, id, snap.records.at[id]), order + [id])
  {
    assert forall i :: i in order + [id] <==> i in order || i == id;
  }

  lemma LoadOneHash(snap: Snapshot, idByHash: map<string, nat>, order: seq<nat>, id: nat)
    requires HashesLoaded(snap, idByHash, order) && id in snap.records.at
    ensures HashesLoaded(snap, idByHash[snap.records.at[id].contentHash := id], order + [id])
  {
    assert forall i :: i in order + [id] <==> i in order || i == id;
  }

  lemma LoadOneChunk(snap: Snapshot, idByChunk: map<string, nat>, order: seq<nat>, id: nat)
    requires ChunksLoaded(snap, idByChunk, order) && id in snap.records.at
    ensures ChunksLoaded(snap, idByChunk[snap.records.at[id].chunkId := id], order + [id])
  {
    assert forall i :: i in order + [id] <==> i in order || i == id;
  }

  /** The loop of `_load` restores the records and files every one under its hash and chunk id. */
  lemma {:induction false} LoadRecordsSpec(snap: Snapshot, order: seq<nat>)
    requires NoDup(order) && forall id | id in order :: id in snap.records.at
    ensures var st := LoadRecords(EMPTY.(index := snap.index, nextId := snap.nextId), order, snap.records.at);
      RecordsLoaded(snap, st, order) && HashesLoaded(snap, st.idByHash, order)
        && ChunksLoaded(snap, st.idByChunk, order)
  {
    if order != [] {
      var init, last := order[..|order| - 1], order[|order| - 1];
      assert order == init + [last];
      NoDupAppend(init, last);
      LoadRecordsSpec(snap, init);
      var mid := LoadRecords(EMPTY.(index := snap.index, nextId := snap.nextId), init, snap.records.at);
      hide RecordsLoaded, HashesLoaded, ChunksLoaded;
      LoadOneRecord(snap, mid, init, last);
      LoadOneHash(snap, mid.idByHash, init, last);
      LoadOneChunk(snap, mid.idByChunk, init, last);
    }
  }

  /** A full inverse is determined by the records. */
  lemma InverseIsUnique(at: map<nat, ChunkRecord>, a: map<string, nat>, b: map<string, nat>)
    requires Inverse(at, a) && Inverse(at, b)
    ensures a == b
  {
  }

  lemma InverseIsInjective(at: map<nat, ChunkRecord>, idByChunk: map<string, nat>)
    requires Inverse(at, idByChunk)
    ensures forall i, j | i in at && j in at && at[i].chunkId == at[j].chunkId :: i == j
  {
  }

  lemma LoadedInverse(snap: Snapshot, idByChunk: map<string, nat>)
    requires snap.records.Valid() && ChunksLoaded(snap, idByChunk, snap.records.order)
    requires forall i, j | i in snap.records.at && j in snap.records.at
               && snap.records.at[i].chunkId == snap.records.at[j].chunkId :: i == j
    ensures Inverse(snap.records.at, idByChunk)
  {
  }

  lemma LoadKeepsRecords(st: Store)
    requires RecordsInv(st)
    ensures var back := Load(Save(st));
      && back.index == st.index && back.records == st.records && back.nextId == st.nextId
      && back.idByChunk == st.idByChunk
  {
    var snap, back := Save(st), Load(Save(st));
    LoadRecordsSpec(snap, snap.records.order);
    InverseIsInjective(st.records.at, st.idByChunk);
    LoadedInverse(snap, back.idByChunk);
    hide HashesLoaded, ChunksLoaded, LoadRecords, NoDup, IdsBelow, Inverse;
    assert back.records.at == st.records.at;
    InverseIsUnique(st.records.at, back.idByChunk, st.idByChunk);
  }

  /** Loading what was saved: everything but the hash map is identical, the hash map is sound, every
      hash known before is still known, and every live record's hash is found. */
  lemma LoadSaved(st: Store)
    requires Inv(st)
    ensures var back := Load(Save(st));
      && Inv(back)
      && back.index == st.index && back.records == st.records && back.nextId == st.nextId
      && back.idByChunk == st.idByChunk
      && (forall h | h in st.idByHash :: h in back.idByHash)
      && (forall id | id in st.records.at :: st.records.at[id].contentHash in back.idByHash)
  {
    LoadKeepsRecords(st);
    LoadRecordsSpec(Save(st), st.records.order);
    forall h | h in st.idByHash ensures h in Load(Save(st)).idByHash {
      assert st.idByHash[h] in st.records.order;
    }
  }
}
