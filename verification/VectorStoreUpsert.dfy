/** What `FaissVectorStore.upsert` keeps, for batches of any shape, and exactly when it keeps the
    five structures in step. */
module VectorStoreUpsert {
  import opened Collections
  import opened VectorStore

  lemma {:induction false} RemoveIdMembers(index: seq<Entry>, id: nat)
    ensures forall e :: e in RemoveId(index, id) <==> e in index && e.id != id
  {
    if index != [] {
      var init, last := index[..|index| - 1], index[|index| - 1];
      assert index == init + [last];
      RemoveIdMembers(init, id);
    }
  }

  /** On the id column, removal is list removal. */
  lemma {:induction false} RemoveIdColumn(index: seq<Entry>, id: nat)
    ensures Ids(RemoveId(index, id)) == Without(Ids(index), id)
  {
    if index != [] {
      var init, last := index[..|index| - 1], index[|index| - 1];
      assert index == init + [last];
      RemoveIdColumn(init, id);
      IdsAppend(init, last);
      IdsAppend(RemoveId(init, id), last);
      assert Ids(index)[..|index| - 1] == Ids(init);
    }
  }

  lemma InversePut(at: map<nat, ChunkRecord>, idByChunk: map<string, nat>, id: nat, record: ChunkRecord)
    requires Inverse(at, idByChunk)
    requires record.chunkId in idByChunk ==> idByChunk[record.chunkId] == id
    requires record.chunkId !in idByChunk ==> id !in at
    ensures Inverse(at[id := record], idByChunk[record.chunkId := id])
  {
  }

  lemma AllocateOneKeeps(st: Store, record: ChunkRecord)
    requires RecordsInv(st)
    ensures RecordsInv(AllocateOne(st, record))
  {
    var id := IdFor(st, record);
    st.records.PutValid(id, record);
    InversePut(st.records.at, st.idByChunk, id, record);
  }

  /** The index rows and records whose id is not in `ids` are untouched, and ids keep their chunk. */
  ghost predicate Untouched(st: Store, after: Store, ids: seq<nat>) {
    && st.nextId <= after.nextId
    && (forall id | id in after.records.at && id !in ids ::
          id in st.records.at && after.records.at[id] == st.records.at[id])
    && (forall id | id in st.records.at ::
          id in after.records.at && after.records.at[id].chunkId == st.records.at[id].chunkId)
    && (forall id | id in after.records.at && id < st.nextId :: id in st.records.at)
  }

  /** Every record of the batch is filed under the id collected for it. */
  ghost predicate Filed(batch: seq<ChunkRecord>, after: Store, ids: seq<nat>) {
    && |ids| == |batch|
    && forall k | 0 <= k < |batch| ::
         batch[k].chunkId in after.idByChunk && after.idByChunk[batch[k].chunkId] == ids[k]
  }

  lemma AllocateOneUntouched(st: Store, mid: Store, ids: seq<nat>, record: ChunkRecord)
    requires RecordsInv(st) && RecordsInv(mid) && Untouched(st, mid, ids)
    ensures Untouched(st, AllocateOne(mid, record), ids + [IdFor(mid, record)])
  {
    var id := IdFor(mid, record);
    var after := AllocateOne(mid, record);
    assert after.records.at == mid.records.at[id := record];
    forall i | i in after.records.at && i !in ids + [id]
      ensures i in st.records.at && after.records.at[i] == st.records.at[i]
    {
      assert i in ids + [id] <==> i in ids || i == id;
    }
  }

  lemma AllocateStep(st: Store, batch: seq<ChunkRecord>)
    requires batch != []
    ensures var init, last := batch[..|batch| - 1], batch[|batch| - 1];
      && Allocate(st, batch) == AllocateOne(Allocate(st, init), last)
      && AllocatedIds(st, batch) == AllocatedIds(st, init) + [IdFor(Allocate(st, init), last)]
  {
  }

  lemma AllocateNone(st: Store)
    ensures Allocate(st, []) == st && AllocatedIds(st, []) == []
  {
  }

  lemma AllocateNext(st: Store, batch: seq<ChunkRecord>, i: nat)
    requires i < |batch|
    ensures Allocate(st, batch[..i + 1]) == AllocateOne(Allocate(st, batch[..i]), batch[i])
    ensures AllocatedIds(st, batch[..i + 1])
            == AllocatedIds(st, batch[..i]) + [IdFor(Allocate(st, batch[..i]), batch[i])]
  {
    assert batch[..i + 1][..i] == batch[..i];
    AllocateStep(st, batch[..i + 1]);
  }

  lemma AllocateOneFiled(batch: seq<ChunkRecord>, mid: Store, ids: seq<nat>, record: ChunkRecord)
    requires Filed(batch, mid, ids)
    ensures Filed(batch + [record], AllocateOne(mid, record), ids + [IdFor(mid, record)])
  {
  }

  /** The loop of `upsert`, for a batch of any shape. */
  lemma {:induction false} AllocateKeeps(st: Store, batch: seq<ChunkRecord>)
    requires RecordsInv(st)
    ensures RecordsInv(Allocate(st, batch))
    ensures Untouched(st, Allocate(st, batch), AllocatedIds(st, batch))
    ensures Filed(batch, Allocate(st, batch), AllocatedIds(st, batch))
  {
    if batch != [] {
      hide *;
      var init, last := batch[..|batch| - 1], batch[|batch| - 1];
      var mid, ids := Allocate(st, init), AllocatedIds(st, init);
      AllocateStep(st, batch);
      assert batch == init + [last];
      AllocateKeeps(st, init);
      AllocateOneKeeps(mid, last);
      AllocateOneUntouched(st, mid, ids, last);
      AllocateOneFiled(init, mid, ids, last);
    }
  }

  /** The rows that survive the loop: those whose id was not handed to the batch. */
  ghost predicate RowsKept(st: Store, after: Store, ids: seq<nat>) {
    && (forall e :: e in after.index <==> e in st.index && e.id !in ids)
    && NoDup(Ids(after.index))
  }

  lemma AllocateOneRows(st: Store, mid: Store, ids: seq<nat>, record: ChunkRecord)
    requires Inv(st) && RecordsInv(mid) && Untouched(st, mid, ids) && RowsKept(st, mid, ids)
    ensures RowsKept(st, AllocateOne(mid, record), ids + [IdFor(mid, record)])
  {
    var id := IdFor(mid, record);
    var after := AllocateOne(mid, record);
    RemoveIdMembers(mid.index, id);
    RemoveIdColumn(mid.index, id);
    WithoutSpec(Ids(mid.index), id);
    forall e ensures e in after.index <==> e in st.index && e.id !in ids + [id] {
      assert e.id in ids + [id] <==> e.id in ids || e.id == id;
      if e in st.index {
        RowIsLive(st, e);
      }
    }
  }

  lemma RowIsLive(st: Store, e: Entry)
    requires Inv(st) && e in st.index
    ensures e.id in st.records.at && e.id < st.nextId
  {
    var i :| 0 <= i < |st.index| && st.index[i] == e;
    assert Ids(st.index)[i] == e.id;
  }

  lemma {:induction false} AllocateRows(st: Store, batch: seq<ChunkRecord>)
    requires Inv(st)
    ensures RowsKept(st, Allocate(st, batch), AllocatedIds(st, batch))
  {
    if batch != [] {
      var init, last := batch[..|batch| - 1], batch[|batch| - 1];
      AllocateStep(st, batch);
      AllocateKeeps(st, init);
      hide *;
      AllocateRows(st, init);
      AllocateOneRows(st, Allocate(st, init), AllocatedIds(st, init), last);
    }
  }

  /** The hash map after the loop: batch hashes point to the last record with that hash. */
  ghost predicate Hashed(st: Store, batch: seq<ChunkRecord>, after: Store, ids: seq<nat>) {
    && |ids| == |batch|
    && (forall h | h in after.idByHash ::
          || (exists k :: 0 <= k < |batch| && batch[k].contentHash == h && after.idByHash[h] == ids[k])
          || (h in st.idByHash && after.idByHash[h] == st.idByHash[h] && !HashIn(batch, h)))
    && (forall h | h in st.idByHash || HashIn(batch, h) :: h in after.idByHash)
  }

  ghost predicate HashIn(batch: seq<ChunkRecord>, h: string) {
    exists r :: r in batch && r.contentHash == h
  }

  lemma AllocateOneHashed(st: Store, batch: seq<ChunkRecord>, mid: Store, ids: seq<nat>, record: ChunkRecord)
    requires Hashed(st, batch, mid, ids)
    ensures Hashed(st, batch + [record], AllocateOne(mid, record), ids + [IdFor(mid, record)])
  {
    var after, all, ids' := AllocateOne(mid, record), batch + [record], ids + [IdFor(mid, record)];
    assert all[|batch|] == record && ids'[|batch|] == IdFor(mid, record);
    forall h ensures HashIn(all, h) <==> HashIn(batch, h) || h == record.contentHash {
      if HashIn(batch, h) {
        var r :| r in batch && r.contentHash == h;
        assert r in all;
      }
      assert record in all;
    }
    forall h | h in after.idByHash && h != record.contentHash
      ensures (exists k :: 0 <= k < |all| && all[k].contentHash == h && after.idByHash[h] == ids'[k])
              || (h in st.idByHash && after.idByHash[h] == st.idByHash[h] && !HashIn(all, h))
    {
      if k :| 0 <= k < |batch| && batch[k].contentHash == h && mid.idByHash[h] == ids[k] {
        assert all[k].contentHash == h && after.idByHash[h] == ids'[k];
      }
    }
  }

  lemma {:induction false} AllocateHashed(st: Store, batch: seq<ChunkRecord>)
    ensures Hashed(st, batch, Allocate(st, batch), AllocatedIds(st, batch))
  {
    if batch != [] {
      hide *;
      var init, last := batch[..|batch| - 1], batch[|batch| - 1];
      AllocateStep(st, batch);
      AllocateHashed(st, init);
      assert batch == init + [last];
      AllocateOneHashed(st, init, Allocate(st, init), AllocatedIds(st, init), last);
    }
  }

  /** Every record of the batch is stored as given. */
  ghost predicate Stored(batch: seq<ChunkRecord>, after: Store, ids: seq<nat>) {
    && |ids| == |batch|
    && forall k | 0 <= k < |batch| :: ids[k] in after.records.at && after.records.at[ids[k]] == batch[k]
  }

  lemma AllocateOneStores(batch: seq<ChunkRecord>, mid: Store, ids: seq<nat>, record: ChunkRecord)
    requires RecordsInv(mid) && Filed(batch, mid, ids) && Stored(batch, mid, ids)
    requires DistinctChunks(batch + [record])
    ensures Stored(batch + [record], AllocateOne(mid, record), ids + [IdFor(mid, record)])
  {
    var all := batch + [record];
    forall k | 0 <= k < |batch| ensures ids[k] != IdFor(mid, record) {
      assert all[k].chunkId != all[|batch|].chunkId;
    }
  }

  lemma {:induction false} AllocateStores(st: Store, batch: seq<ChunkRecord>)
    requires RecordsInv(st) && DistinctChunks(batch)
    ensures Stored(batch, Allocate(st, batch), AllocatedIds(st, batch))
  {
    if batch != [] {
      var init, last := batch[..|batch| - 1], batch[|batch| - 1];
      assert DistinctChunks(init);
      hide *;
      AllocateStep(st, batch);
      assert batch == init + [last];
      AllocateStores(st, init);
      AllocateKeeps(st, init);
      AllocateOneStores(init, Allocate(st, init), AllocatedIds(st, init), last);
    }
  }

  lemma {:induction false} DistinctIds(st: Store, batch: seq<ChunkRecord>)
    requires RecordsInv(st)
    ensures NoDup(AllocatedIds(st, batch)) <==> DistinctChunks(batch)
  {
    AllocateKeeps(st, batch);
    var ids, after := AllocatedIds(st, batch), Allocate(st, batch);
    forall i, j | 0 <= i < j < |batch|
      ensures ids[i] == ids[j] <==> batch[i].chunkId == batch[j].chunkId
    {
      assert after.records.at[ids[i]].chunkId == batch[i].chunkId;
      assert after.records.at[ids[j]].chunkId == batch[j].chunkId;
    }
  }

  lemma RowsColumn(ids: seq<nat>, vectors: seq<Vector>)
    requires |ids| == |vectors|
    ensures Ids(Rows(ids, vectors)) == ids
  {
  }

  /** The index after an upsert has one row per live id exactly when the batch repeats no chunk id. */
  lemma UpsertIndex(st: Store, batch: seq<ChunkRecord>, vectors: seq<Vector>)
    requires Inv(st) && |batch| == |vectors| > 0
    ensures var after := Upsert(st, batch, vectors).value;
      && (NoDup(Ids(after.index)) <==> DistinctChunks(batch))
      && (forall id :: id in Ids(after.index) <==> id in after.records.at)
  {
    var mid, ids := Allocate(st, batch), AllocatedIds(st, batch);
    var after := Upsert(st, batch, vectors).value;
    AllocateKeeps(st, batch);
    AllocateRows(st, batch);
    DistinctIds(st, batch);
    IdsConcat(mid.index, Rows(ids, vectors));
    RowsColumn(ids, vectors);
    NoDupConcat(Ids(mid.index), ids);
    assert Ids(after.index) == Ids(mid.index) + ids;
    RowsMatchRecords(st, batch);
  }

  lemma KeptIds(st: Store, mid: Store, ids: seq<nat>)
    requires RowsKept(st, mid, ids)
    ensures forall id :: id in Ids(mid.index) <==> id in Ids(st.index) && id !in ids
  {
    forall id ensures id in Ids(mid.index) <==> id in Ids(st.index) && id !in ids {
      if id in Ids(mid.index) {
        var i :| 0 <= i < |mid.index| && Ids(mid.index)[i] == id;
        assert mid.index[i] in st.index;
        var j :| 0 <= j < |st.index| && st.index[j] == mid.index[i];
        assert Ids(st.index)[j] == id;
      }
      if id in Ids(st.index) && id !in ids {
        var i :| 0 <= i < |st.index| && Ids(st.index)[i] == id;
        assert st.index[i] in mid.index;
        var j :| 0 <= j < |mid.index| && mid.index[j] == st.index[i];
        assert Ids(mid.index)[j] == id;
      }
    }
  }

  lemma RowsMatchRecords(st: Store, batch: seq<ChunkRecord>)
    requires Inv(st)
    ensures var mid, ids := Allocate(st, batch), AllocatedIds(st, batch);
      && (forall id :: id in Ids(mid.index) ==> id !in ids)
      && (forall id :: id in Ids(mid.index) || id in ids <==> id in mid.records.at)
  {
    var mid, ids := Allocate(st, batch), AllocatedIds(st, batch);
    AllocateKeeps(st, batch);
    AllocateRows(st, batch);
    KeptIds(st, mid, ids);
    forall id | id in ids ensures id in mid.records.at {
      var k :| 0 <= k < |ids| && ids[k] == id;
      assert mid.idByChunk[batch[k].chunkId] == id;
    }
  }

  /** With distinct chunk ids the hash map stays sound exactly when no entry is left stale. */
  lemma UpsertHashes(st: Store, batch: seq<ChunkRecord>)
    requires Inv(st) && DistinctChunks(batch)
    ensures HashInv(Allocate(st, batch)) <==> NoStaleHash(st, batch)
  {
    var mid := Allocate(st, batch);
    if NoStaleHash(st, batch) {
      AllocateKeeps(st, batch);
      AllocateStores(st, batch);
      AllocateHashed(st, batch);
      hide Allocate, AllocatedIds, RecordsInv;
      forall h | h in mid.idByHash
        ensures mid.idByHash[h] in mid.records.at && mid.records.at[mid.idByHash[h]].contentHash == h
      {
        if !HashIn(batch, h) {
          StaleOrKept(st, batch, h);
        }
      }
    }
    if HashInv(mid) {
      hide Inv, RecordsInv, Allocate;
      forall r | r in batch && r.chunkId in st.idByChunk && st.idByChunk[r.chunkId] in st.records.at {
        RenewedHash(st, batch, r);
      }
    }
  }

  /** A hash entry whose record the batch re-files under another hash is renewed by the batch. */
  lemma RenewedHash(st: Store, batch: seq<ChunkRecord>, r: ChunkRecord)
    requires Inv(st) && DistinctChunks(batch) && HashInv(Allocate(st, batch))
    requires r in batch && r.chunkId in st.idByChunk && st.idByChunk[r.chunkId] in st.records.at
    ensures var id := st.idByChunk[r.chunkId];
      var was := st.records.at[id].contentHash;
      was in st.idByHash && st.idByHash[was] == id ==> exists r' :: r' in batch && r'.contentHash == was
  {
    var k :| 0 <= k < |batch| && batch[k] == r;
    var id := st.idByChunk[r.chunkId];
    var was := st.records.at[id].contentHash;
    RefiledRecord(st, batch, k);
    AllocateHashed(st, batch);
    hide *;
    if was in st.idByHash && st.idByHash[was] == id {
      Renewed(st, batch, Allocate(st, batch), AllocatedIds(st, batch), r, id, was);
    }
  }

  lemma Renewed(st: Store, batch: seq<ChunkRecord>, mid: Store, ids: seq<nat>, r: ChunkRecord, id: nat, was: string)
    requires Hashed(st, batch, mid, ids) && HashInv(mid)
    requires r in batch && id in mid.records.at && mid.records.at[id] == r
    requires was in st.idByHash && st.idByHash[was] == id
    ensures exists r' :: r' in batch && r'.contentHash == was
  {
    hide DistinctChunks;
  }

  /** A re-upserted chunk keeps its id and the id now denotes the new record. */
  lemma RefiledRecord(st: Store, batch: seq<ChunkRecord>, k: nat)
    requires RecordsInv(st) && DistinctChunks(batch)
    requires k < |batch| && batch[k].chunkId in st.idByChunk
    ensures var mid, id := Allocate(st, batch), st.idByChunk[batch[k].chunkId];
      id in mid.records.at && mid.records.at[id] == batch[k]
  {
    var mid, ids := Allocate(st, batch), AllocatedIds(st, batch);
    var id := st.idByChunk[batch[k].chunkId];
    AllocateKeeps(st, batch);
    AllocateStores(st, batch);
    hide Allocate, AllocatedIds, DistinctChunks, IdsBelow;
    assert mid.records.at[id].chunkId == batch[k].chunkId;
    assert ids[k] == id;
  }

  lemma StaleOrKept(st: Store, batch: seq<ChunkRecord>, h: string)
    requires Inv(st) && DistinctChunks(batch) && NoStaleHash(st, batch)
    requires h in Allocate(st, batch).idByHash && !HashIn(batch, h)
    ensures var mid := Allocate(st, batch);
      mid.idByHash[h] in mid.records.at && mid.records.at[mid.idByHash[h]].contentHash == h
  {
    var mid, ids := Allocate(st, batch), AllocatedIds(st, batch);
    AllocateKeeps(st, batch);
    AllocateStores(st, batch);
    AllocateHashed(st, batch);
    hide Allocate, AllocatedIds;
    forall k | 0 <= k < |batch| ensures batch[k].contentHash != h {
      assert batch[k] in batch;
    }
    var id := st.idByHash[h];
    assert mid.idByHash[h] == id;
    forall k | 0 <= k < |batch| ensures ids[k] != id {
      var r := batch[k];
      assert r in batch && mid.records.at[ids[k]].chunkId == r.chunkId;
      assert r.chunkId in st.idByChunk && st.idByChunk[r.chunkId] == id ==> HashIn(batch, h);
    }
  }

  /** Upserting keeps the five structures in step exactly when the batch repeats no chunk id and
      leaves no stale hash entry. */
  lemma UpsertKeepsInv(st: Store, batch: seq<ChunkRecord>, vectors: seq<Vector>)
    requires Inv(st) && |batch| == |vectors| > 0
    ensures Inv(Upsert(st, batch, vectors).value) <==> DistinctChunks(batch) && NoStaleHash(st, batch)
  {
    var mid := Allocate(st, batch);
    var after := Upsert(st, batch, vectors).value;
    AllocateKeeps(st, batch);
    UpsertIndex(st, batch, vectors);
    assert after == mid.(index := after.index);
    hide Upsert, Allocate, AllocatedIds, DistinctChunks, NoStaleHash, NoDup, Ids, IdsBelow, Inverse;
    assert RecordsInv(after);
    assert HashInv(after) <==> HashInv(mid);
    if DistinctChunks(batch) {
      UpsertHashes(st, batch);
    }
  }

  // Fresh batches ----------------------------------------------------------

  /** The chunk ids of the batch are new to the store and pairwise different. */
  ghost predicate FreshBatch(st: Store, batch: seq<ChunkRecord>) {
    && DistinctChunks(batch)
    && forall r | r in batch :: r.chunkId !in st.idByChunk
  }

  /** The store gained exactly the batch: old records and rows stay, each new record has its vector. */
  ghost predicate Gained(st: Store, after: Store, batch: seq<ChunkRecord>, vectors: seq<Vector>, ids: seq<nat>) {
    && |batch| == |vectors| == |ids|
    && (forall id | id in st.records.at :: id in after.records.at && after.records.at[id] == st.records.at[id])
    && (forall k | 0 <= k < |ids| ::
          ids[k] !in st.records.at && ids[k] in after.records.at && after.records.at[ids[k]] == batch[k])
    && (forall id | id in after.records.at :: id in st.records.at || id in ids)
    && (forall e | e in after.index :: e in st.index || exists k :: 0 <= k < |ids| && e == Entry(ids[k], vectors[k]))
  }

  lemma FreshIdsAreNew(st: Store, batch: seq<ChunkRecord>)
    requires RecordsInv(st) && FreshBatch(st, batch)
    ensures forall k | 0 <= k < |batch| :: AllocatedIds(st, batch)[k] !in st.records.at
  {
    var mid, ids := Allocate(st, batch), AllocatedIds(st, batch);
    AllocateKeeps(st, batch);
    hide Allocate, AllocatedIds, DistinctChunks;
    forall k | 0 <= k < |batch| ensures ids[k] !in st.records.at {
      assert batch[k] in batch;
      assert mid.records.at[ids[k]].chunkId == batch[k].chunkId;
    }
  }

  lemma FreshLeavesNoStaleHash(st: Store, batch: seq<ChunkRecord>)
    requires FreshBatch(st, batch)
    ensures DistinctChunks(batch) && NoStaleHash(st, batch)
  {
    hide DistinctChunks;
  }

  lemma UpsertUnfold(st: Store, batch: seq<ChunkRecord>, vectors: seq<Vector>)
    requires |batch| == |vectors| > 0
    ensures Upsert(st, batch, vectors).Ok?
    ensures var after, mid := Upsert(st, batch, vectors).value, Allocate(st, batch);
      after.records == mid.records && after.index == mid.index + Rows(AllocatedIds(st, batch), vectors)
  {
    hide Allocate, AllocatedIds;
  }

  lemma RowsGained(st: Store, mid: Store, ids: seq<nat>, vectors: seq<Vector>, e: Entry)
    requires RowsKept(st, mid, ids) && |ids| == |vectors| && e in mid.index + Rows(ids, vectors)
    ensures e in st.index || exists k :: 0 <= k < |ids| && e == Entry(ids[k], vectors[k])
  {
    if e !in mid.index {
      var k :| 0 <= k < |ids| && Rows(ids, vectors)[k] == e;
    }
  }

  lemma GainedFrom(st: Store, mid: Store, after: Store, batch: seq<ChunkRecord>, vectors: seq<Vector>, ids: seq<nat>)
    requires Untouched(st, mid, ids) && Stored(batch, mid, ids) && RowsKept(st, mid, ids)
    requires |batch| == |vectors| == |ids|
    requires forall k | 0 <= k < |ids| :: ids[k] !in st.records.at
    requires after.records == mid.records && after.index == mid.index + Rows(ids, vectors)
    ensures Gained(st, after, batch, vectors, ids)
  {
    hide Rows, RowsKept;
    forall e | e in after.index
      ensures e in st.index || exists k :: 0 <= k < |ids| && e == Entry(ids[k], vectors[k])
    {
      RowsGained(st, mid, ids, vectors, e);
    }
  }

  /** Upserting a batch of new chunks keeps the five structures in step and adds exactly the batch. */
  lemma FreshUpsert(st: Store, batch: seq<ChunkRecord>, vectors: seq<Vector>)
    requires Inv(st) && FreshBatch(st, batch) && |batch| == |vectors| > 0
    ensures var after := Upsert(st, batch, vectors).value;
      Inv(after) && Gained(st, after, batch, vectors, AllocatedIds(st, batch))
  {
    assert RecordsInv(st);
    hide *;
    FreshLeavesNoStaleHash(st, batch);
    UpsertUnfold(st, batch, vectors);
    UpsertKeepsInv(st, batch, vectors);
    FreshIdsAreNew(st, batch);
    AllocateKeeps(st, batch);
    AllocateStores(st, batch);
    AllocateRows(st, batch);
    GainedFrom(st, Allocate(st, batch), Upsert(st, batch, vectors).value, batch, vectors, AllocatedIds(st, batch));
  }
}
