/** The embedding cache of ChunkAndEmbed is transparent: whatever interleaves, every stored vector
    is what the model makes of the stored text. */
module EmbeddingCache {
  import opened Collections
  import opened Chunking
  import opened VectorStore
  import opened VectorStoreUpsert
  import opened VectorStoreDelete
  import opened VectorStoreLoad
  import opened VectorStoreRuns
  import opened EmbeddingSystem

  /** Every row of the index is the embedding of its record's text, filed under the text's hash. */
  ghost predicate TrueStore(st: Store, model: Model) {
    && Inv(st)
    && (forall id | id in st.records.at :: st.records.at[id].contentHash == model.hash(st.records.at[id].text))
    && (forall e | e in st.index :: e.id in st.records.at && e.vector == model.embed(st.records.at[e.id].text))
  }

  /** The vectors an RPC carries are those of its chunks. */
  ghost predicate TrueRpc(p: Rpc, model: Model) {
    match p
    case Looking(_, chunks, _, next, cached) =>
      && chunks != [] && HashedChunks(chunks, model)
      && (forall i | i in cached :: i < |chunks| && cached[i] == model.embed(chunks[i].text))
    case Ready(_, chunks, _, vectors) =>
      && chunks != [] && HashedChunks(chunks, model)
      && |vectors| == |chunks|
      && (forall i | 0 <= i < |chunks| :: vectors[i] == model.embed(chunks[i].text))
    case _ => true
  }

  ghost predicate Transparent(s: System, model: Model) {
    && TrueStore(s.store, model)
    && (forall c | c in s.store.idByChunk :: c in s.issued)
    && (forall r | r in s.rpcs :: TrueRpc(s.rpcs[r], model))
  }

  lemma LookupIsTrue(st: Store, p: Rpc, model: Model)
    requires Injective(model.hash) && TrueStore(st, model)
    requires p.Looking? && p.next < |p.chunks| && TrueRpc(p, model)
    ensures TrueRpc(AfterLookup(p, st), model)
  {
    var chunk := p.chunks[p.next];
    HashLookups(st, chunk.contentHash);
    assert chunk in p.chunks;
    if VectorByHash(st, chunk.contentHash).Some? {
      var e := Entry(st.idByHash[chunk.contentHash], VectorByHash(st, chunk.contentHash).value);
      assert e in st.index;
      assert model.hash(st.records.at[e.id].text) == model.hash(chunk.text);
    }
  }

  lemma FreshRecords(st: Store, chunks: seq<Chunk>, ids: seq<string>, documentId: string, metadata: map<string, string>)
    requires |chunks| == |ids| && NoDup(ids) && forall c | c in ids :: c !in st.idByChunk
    ensures FreshBatch(st, RecordsFor(chunks, ids, documentId, metadata))
  {
    var records := RecordsFor(chunks, ids, documentId, metadata);
    forall i, j | 0 <= i < j < |records| ensures records[i].chunkId != records[j].chunkId {
      assert ids[i] != ids[j];
    }
    forall r | r in records ensures r.chunkId !in st.idByChunk {
      var i :| 0 <= i < |records| && records[i] == r;
      assert ids[i] in ids;
    }
  }

  /** Storing fresh records with their true vectors keeps the store true. */
  lemma UpsertIsTrue(st: Store, batch: seq<ChunkRecord>, vectors: seq<Vector>, model: Model)
    requires TrueStore(st, model) && FreshBatch(st, batch) && |batch| == |vectors| > 0
    requires forall r | r in batch :: r.contentHash == model.hash(r.text)
    requires forall k | 0 <= k < |batch| :: vectors[k] == model.embed(batch[k].text)
    ensures TrueStore(Upsert(st, batch, vectors).value, model)
    ensures forall c | c in Upsert(st, batch, vectors).value.idByChunk ::
      c in st.idByChunk || exists r :: r in batch && r.chunkId == c
  {
    var after, ids := Upsert(st, batch, vectors).value, AllocatedIds(st, batch);
    FreshUpsert(st, batch, vectors);
    hide Upsert, AllocatedIds, FreshBatch;
    GainedIsTrue(st, after, batch, vectors, ids, model);
  }

  lemma GainedIsTrue(
    st: Store, after: Store, batch: seq<ChunkRecord>, vectors: seq<Vector>, ids: seq<nat>, model: Model)
    requires TrueStore(st, model) && Inv(after) && Gained(st, after, batch, vectors, ids)
    requires forall r | r in batch :: r.contentHash == model.hash(r.text)
    requires forall k | 0 <= k < |batch| :: vectors[k] == model.embed(batch[k].text)
    ensures TrueStore(after, model)
    ensures forall c | c in after.idByChunk :: c in st.idByChunk || exists r :: r in batch && r.chunkId == c
  {
    assert RecordsInv(st) && RecordsInv(after);
    hide Inv, NoDup, IdsBelow;
    forall id | id in after.records.at
      ensures after.records.at[id] in batch || (id in st.records.at && after.records.at[id] == st.records.at[id])
    {
      if id !in st.records.at {
        var k :| 0 <= k < |ids| && ids[k] == id;
      }
    }
    forall c | c in after.idByChunk && c !in st.idByChunk ensures exists r :: r in batch && r.chunkId == c {
      assert after.records.at[after.idByChunk[c]].chunkId == c;
    }
  }

  /** Storing what an RPC carries keeps the store true. */
  lemma StoredIsTrue(st: Store, p: Rpc, ids: seq<string>, model: Model)
    requires TrueStore(st, model) && p.Ready? && TrueRpc(p, model)
    requires |ids| == |p.chunks| && NoDup(ids) && forall c | c in ids :: c !in st.idByChunk
    ensures var records := RecordsFor(p.chunks, ids, p.documentId, p.metadata);
      var after := StoreAfter(st, records, p.vectors);
      TrueStore(after, model) && forall c | c in after.idByChunk :: c in st.idByChunk || c in ids
  {
    var records := RecordsFor(p.chunks, ids, p.documentId, p.metadata);
    FreshRecords(st, p.chunks, ids, p.documentId, p.metadata);
    forall x | x in records ensures x.contentHash == model.hash(x.text) && x.chunkId in ids {
      var i :| 0 <= i < |records| && records[i] == x;
      assert p.chunks[i] in p.chunks;
    }
    hide TrueStore, FreshBatch, NoDup;
    UpsertIsTrue(st, records, p.vectors, model);
  }

  lemma UpsertStep(s: System, r: nat, ids: seq<string>, model: Model)
    requires Transparent(s, model) && r in s.rpcs && CanUpsert(s.rpcs[r], ids, s.issued)
    ensures Transparent(AfterUpsert(s, r, s.rpcs[r], ids), model)
  {
    var p := s.rpcs[r];
    StoredIsTrue(s.store, p, ids, model);
    CarriesNothing(p.documentId, RecordsFor(p.chunks, ids, p.documentId, p.metadata), 0, model);
    hide TrueStore, TrueRpc, NoDup, StoreAfter, RecordsFor;
  }

  lemma CarriesNothing(documentId: string, records: seq<ChunkRecord>, done: nat, model: Model)
    ensures TrueRpc(Indexing(documentId, records, done), model)
  {
  }

  lemma DeleteIsTrue(st: Store, documentId: string, model: Model)
    requires TrueStore(st, model)
    ensures TrueStore(Delete(st, documentId).0, model)
    ensures forall c | c in Delete(st, documentId).0.idByChunk :: c in st.idByChunk
  {
    DeleteSpec(st, documentId);
    DeleteKeepsInv(st, documentId);
  }

  /** One step of any RPC, failures and restarts included, keeps the cache transparent. */
  lemma StepIsTransparent(s: System, step: Step, model: Model)
    requires Injective(model.hash) && Transparent(s, model) && Enabled(s, step, model)
    ensures Transparent(Apply(s, step, model), model)
  {
    match step
    case Lookup(r) =>
      LookupIsTrue(s.store, s.rpcs[r], model);
    case UpsertStore(r, ids) =>
      UpsertStep(s, r, ids, model);
    case ClearStore(r) =>
      DeleteIsTrue(s.store, s.rpcs[r].documentId, model);
    case Restart =>
      LoadSaved(s.store);
    case RestartEmpty =>
      assert Inv(EMPTY);
    case EmbedMissing(r) =>
      assert TrueRpc(s.rpcs[r], model);
    case _ =>
  }

  /** Every vector in the store is the embedding of its text, after every possible run. */
  lemma {:induction false} CacheIsTransparent(steps: seq<Step>, model: Model)
    requires Injective(model.hash) && Possible(START, steps, model)
    ensures Transparent(After(START, steps, model), model)
  {
    if steps == [] {
      assert Inv(EMPTY);
    } else {
      CacheIsTransparent(steps[..|steps| - 1], model);
      StepIsTransparent(After(START, steps[..|steps| - 1], model), steps[|steps| - 1], model);
    }
  }

  /** A restart may move a hash to another record, but never changes the vector it leads to. */
  lemma RestartKeepsVectors(st: Store, model: Model)
    requires Injective(model.hash) && TrueStore(st, model)
    ensures TrueStore(Load(Save(st)), model)
    ensures forall h | h in st.idByHash ::
      VectorByHash(st, h).Some? && VectorByHash(Load(Save(st)), h) == VectorByHash(st, h)
  {
    var back := Load(Save(st));
    LoadSaved(st);
    assert TrueStore(back, model);
    hide Load, Save;
    forall h | h in st.idByHash
      ensures VectorByHash(st, h).Some? && VectorByHash(back, h) == VectorByHash(st, h)
    {
      CachedVector(st, h, model);
      CachedVector(back, h, model);
    }
  }

  /** What a true store caches for a hash is the embedding of any text with that hash. */
  lemma CachedVector(st: Store, h: string, model: Model)
    requires Injective(model.hash) && TrueStore(st, model) && h in st.idByHash
    ensures VectorByHash(st, h).Some?
    ensures forall text | model.hash(text) == h :: VectorByHash(st, h).value == model.embed(text)
    ensures exists text :: model.hash(text) == h
  {
    HashLookups(st, h);
    var id := st.idByHash[h];
    assert Entry(id, VectorByHash(st, h).value) in st.index;
    assert model.hash(st.records.at[id].text) == h;
  }
}
