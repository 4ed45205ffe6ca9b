/** The mutable store of ml-service/app/embeddings/vector_store.py. Its lock makes every method
    atomic, so each method is specified by the function of VectorStore it implements. */
module FaissVectorStores {
  import opened Collections
  import V = VectorStore
  import VectorStoreUpsert

  /** The persistence directory: the index file and the metadata file, written together. */
  class Disk {
    var snapshot: Option<V.Snapshot>

    constructor ()
      ensures snapshot == None
    {
      snapshot := None;
    }
  }

  class FaissVectorStore {
    const disk: Disk?
    var index: seq<V.Entry>
    var records: Dict<nat, V.ChunkRecord>
    var idByChunk: map<string, nat>
    var idByHash: map<string, nat>
    var nextId: nat

    ghost function View(): V.Store
      reads this
    {
      V.Store(index, records, idByChunk, idByHash, nextId)
    }

    /** What is on disk is what loading it now would be loaded from. */
    ghost predicate Synced()
      reads this, disk
    {
      disk != null ==>
        match disk.snapshot
        case Some(snap) => snap == V.Save(View())
        case None => View() == V.EMPTY
    }

    constructor (disk: Disk?)
      ensures this.disk == disk
      ensures View() == if disk == null || disk.snapshot == None then V.EMPTY else V.Load(disk.snapshot.value)
    {
      this.disk := disk;
      index, records, idByChunk, idByHash, nextId := [], Dict([], map[]), map[], map[], 0;
      new;
      if disk != null && disk.snapshot.Some? {
        LoadFrom(disk.snapshot.value);
      }
    }

    method LoadFrom(snap: V.Snapshot)
      requires View() == V.EMPTY
      modifies this
      ensures View() == V.Load(snap)
    {
      index, nextId := snap.index, snap.nextId;
      ghost var start := V.EMPTY.(index := snap.index, nextId := snap.nextId);
      var order := snap.records.order;
      for i := 0 to |order|
        invariant View() == V.LoadRecords(start, order[..i], snap.records.at)
      {
        var id := order[i];
        assert order[..i + 1][..i] == order[..i];
        if id in snap.records.at {
          var record := snap.records.at[id];
          records := records.Put(id, record);
          idByChunk := idByChunk[record.chunkId := id];
          idByHash := idByHash[record.contentHash := id];
        }
      }
      assert order[..|order|] == order;
    }

    method Save()
      modifies disk
      ensures Synced()
    {
      if disk != null {
        disk.snapshot := Some(V.Snapshot(index, records, nextId));
      }
    }

    /** The loop of `upsert`: files every record and collects the ids. */
    method AllocateIds(batch: seq<V.ChunkRecord>) returns (ids: seq<nat>)
      modifies this
      ensures View() == V.Allocate(old(View()), batch) && ids == V.AllocatedIds(old(View()), batch)
    {
      hide V.Allocate, V.AllocatedIds, V.RemoveId;
      ghost var st := View();
      VectorStoreUpsert.AllocateNone(st);
      ids := [];
      for i := 0 to |batch|
        invariant View() == V.Allocate(st, batch[..i])
        invariant ids == V.AllocatedIds(st, batch[..i])
      {
        VectorStoreUpsert.AllocateNext(st, batch, i);
        var record := batch[i];
        var id;
        if record.chunkId in idByChunk {
          id := idByChunk[record.chunkId];
          index := V.RemoveId(index, id);
        } else {
          id := nextId;
          nextId := nextId + 1;
        }
        records := records.Put(id, record);
        idByChunk := idByChunk[record.chunkId := id];
        idByHash := idByHash[record.contentHash := id];
        ids := ids + [id];
      }
      assert batch[..|batch|] == batch;
    }

    method Upsert(batch: seq<V.ChunkRecord>, vectors: seq<V.Vector>) returns (error: Option<V.StoreError>)
      modifies this, disk
      ensures match V.Upsert(old(View()), batch, vectors)
              case Ok(after) => error == None && View() == after
              case Err(e) => error == Some(e) && View() == old(View())
      ensures old(Synced()) ==> Synced()
    {
      if |batch| != |vectors| {
        return Some(V.LengthMismatch);
      }
      if |vectors| == 0 {
        return None;
      }
      ghost var st := View();
      var ids := AllocateIds(batch);
      index := index + V.Rows(ids, vectors);
      Save();
      error := None;
    }

    method DeleteByDocument(documentId: string) returns (count: nat)
      modifies this, disk
      ensures (View(), count) == V.Delete(old(View()), documentId)
      ensures old(Synced()) ==> Synced()
    {
      var ids := V.IdsOfDocument(V.Store(index, records, idByChunk, idByHash, nextId), documentId);
      if ids == [] {
        return 0;
      }
      index := V.RemoveIds(index, ids);
      ghost var st := View();
      for i := 0 to |ids|
        invariant View() == V.ForgetAll(st, ids[..i])
      {
        var id := ids[i];
        assert ids[..i + 1][..i] == ids[..i];
        if id in records.at {
          var record := records.at[id];
          records := records.Remove(id);
          idByChunk := idByChunk - {record.chunkId};
          if record.contentHash in idByHash && idByHash[record.contentHash] == id {
            idByHash := idByHash - {record.contentHash};
          }
        }
      }
      assert ids[..|ids|] == ids;
      Save();
      count := |ids|;
    }

    method GetByChunkId(chunkId: string) returns (record: Option<V.ChunkRecord>)
      ensures record == V.GetByChunk(View(), chunkId)
    {
      if chunkId !in idByChunk {
        return None;
      }
      var id := idByChunk[chunkId];
      record := if id in records.at then Some(records.at[id]) else None;
    }

    method GetByContentHash(contentHash: string) returns (record: Option<V.ChunkRecord>)
      ensures record == V.GetByHash(View(), contentHash)
    {
      if contentHash !in idByHash {
        return None;
      }
      var id := idByHash[contentHash];
      record := if id in records.at then Some(records.at[id]) else None;
    }

    method GetVectorByContentHash(contentHash: string) returns (vector: Option<V.Vector>)
      ensures vector == V.VectorByHash(View(), contentHash)
    {
      if contentHash !in idByHash {
        return None;
      }
      vector := V.Reconstruct(index, idByHash[contentHash]);
    }

    /** A search nothing interferes with: every lookup sees the searched store. */
    method Search(query: V.Vector, topK: int) returns (r: Result<seq<V.ScoredChunk>, V.StoreError>)
      ensures r.Err? <==> index != [] && topK <= 0
      ensures r.Ok? ==>
        var hits := if index == [] then [] else V.TopK(index, query, topK as nat);
        r.value == V.Resolve(hits, V.Steady(View(), |hits|))
    {
      if |index| == 0 {
        return Ok([]);
      }
      var k := if topK <= |index| then topK else |index|;
      if k <= 0 {
        return Err(V.NonPositiveK);
      }
      var hits := V.TopK(index, query, k);
      assert hits == V.TopK(index, query, topK) by { CutAtLength(query, topK); }
      var results := [];
      ghost var views := V.Steady(View(), |hits|);
      for i := 0 to |hits|
        invariant results == V.Resolve(hits[..i], views[..i])
      {
        assert hits[..i + 1][..i] == hits[..i] && views[..i + 1][..i] == views[..i];
        assert views[i] == View();
        var id := hits[i].0;
        if id in records.at {
          results := results + [V.ScoredChunk(records.at[id], hits[i].1)];
        }
      }
      assert hits[..|hits|] == hits && views[..|hits|] == views;
      r := Ok(results);
    }

    /** Asking for more than the index holds is asking for all of it. */
    lemma CutAtLength(query: V.Vector, k: nat)
      ensures k > |index| ==> V.TopK(index, query, k) == V.TopK(index, query, |index|)
    {
      SortDescSorted(index, V.ScoreOf(query));
      assert |multiset(SortDesc(index, V.ScoreOf(query)))| == |multiset(index)|;
    }
  }
}
