/** The vector store and the keyword index agree: the index lags exactly by the records not yet indexed,
    and at rest the two hold the same chunks, as long as every step is calm. StoreQuiescence.dfy shows
    that calm is exactly what this needs. */
module StoreAgreement {
  import opened Collections
  import opened VectorStore
  import opened VectorStoreUpsert
  import opened VectorStoreDelete
  import opened VectorStoreLoad
  import opened EmbeddingSystem
  import opened EmbeddingCache
  import K = Keywords

  /** What both stores know of a chunk. */
  datatype Content = Content(documentId: string, text: string)

  ghost function InStore(st: Store): map<string, Content>
    requires RecordsInv(st)
  {
    map c | c in st.idByChunk ::
      Content(st.records.at[st.idByChunk[c]].documentId, st.records.at[st.idByChunk[c]].text)
  }

  ghost function InIndex(k: K.Keywords): map<string, Content>
    requires k.Valid()
  {
    map c | c in k.texts.at :: Content(k.documents.at[c], k.texts.at[c])
  }

  /** The chunk ids an RPC has stored but not indexed yet. */
  function PendingOf(p: Rpc): seq<string> {
    if p.Indexing? && p.done <= |p.records| then Map(p.records[p.done..], (r: ChunkRecord) => r.chunkId) else []
  }

  ghost predicate Pending(rpcs: map<nat, Rpc>, c: string) {
    exists r :: r in rpcs && c in PendingOf(rpcs[r])
  }

  /** The document was deleted from the store but not from the index yet. */
  ghost predicate Doomed(rpcs: map<nat, Rpc>, documentId: string) {
    exists r :: r in rpcs && rpcs[r] == StoreCleared(documentId)
  }

  /** The index holds the stored chunks except the pending ones, and nothing else except chunks of
      documents whose deletion is half done. */
  ghost predicate Lagging(store: map<string, Content>, index: map<string, Content>, rpcs: map<nat, Rpc>) {
    && (forall c | c in store :: !Pending(rpcs, c) ==> c in index && index[c] == store[c])
    && (forall c | c in store :: Pending(rpcs, c) ==> c !in index)
    && (forall c | c in index :: c in store || Doomed(rpcs, index[c].documentId))
    && (forall c | c in store :: !Doomed(rpcs, store[c].documentId))
  }

  /** The records an RPC still has to index are in the store. */
  ghost predicate PendingStored(store: map<string, Content>, p: Rpc) {
    p.Indexing? ==>
      && p.done <= |p.records|
      && NoDup(Map(p.records, (r: ChunkRecord) => r.chunkId))
      && forall j | p.done <= j < |p.records| ::
           && p.records[j].documentId == p.documentId
           && p.records[j].chunkId in store
           && store[p.records[j].chunkId] == Content(p.documentId, p.records[j].text)
  }

  /** No chunk waits for two RPCs. */
  ghost predicate DisjointPending(rpcs: map<nat, Rpc>) {
    forall q, r, c | q in rpcs && r in rpcs && c in PendingOf(rpcs[q]) && c in PendingOf(rpcs[r]) :: q == r
  }

  ghost predicate InStep(s: System, model: Model) {
    && Transparent(s, model)
    && s.keywords.Valid()
    && Lagging(InStore(s.store), InIndex(s.keywords), s.rpcs)
    && (forall r | r in s.rpcs :: PendingStored(InStore(s.store), s.rpcs[r]))
    && DisjointPending(s.rpcs)
    && (forall c | c in s.keywords.texts.at :: c in s.issued)
  }

  /** No RPC has chunks of the document waiting to be indexed. */
  ghost predicate Indexed(rpcs: map<nat, Rpc>, documentId: string) {
    forall q | q in rpcs && rpcs[q].documentId == documentId :: PendingOf(rpcs[q]) == []
  }

  /** The index holds no chunk of the document. */
  ghost predicate Absent(k: K.Keywords, documentId: string)
    requires k.Valid()
  {
    forall c | c in k.documents.at :: k.documents.at[c] != documentId
  }

  /** What may be given up: an RPC with nothing left to index, and a deletion that left nothing behind or
      that another deletion of the same document will finish. */
  ghost predicate MayAbandon(s: System, r: nat)
    requires r in s.rpcs && s.keywords.Valid()
  {
    && PendingOf(s.rpcs[r]) == []
    && (s.rpcs[r].StoreCleared? ==>
          Doomed(s.rpcs - {r}, s.rpcs[r].documentId) || Absent(s.keywords, s.rpcs[r].documentId))
  }

  /** Nothing is stored under a half-deleted document, no document is deleted while chunks of it wait to
      be indexed, and nothing is given up half way. All other steps are free to overlap. */
  ghost predicate Calm(s: System, step: Step)
    requires s.keywords.Valid()
  {
    match step
    case UpsertStore(r, _) => r in s.rpcs ==> !Doomed(s.rpcs, s.rpcs[r].documentId)
    case ClearStore(r) => r in s.rpcs ==> Indexed(s.rpcs, s.rpcs[r].documentId)
    case Abandon(r) => r in s.rpcs ==> MayAbandon(s, r)
    case _ => true
  }

  // ---------------------------------------------------------------- steps that touch no store

  /** Replacing or dropping an RPC that is not pending and not half deleted changes neither predicate. */
  lemma QuietStep(before: map<nat, Rpc>, after: map<nat, Rpc>, r: nat)
    requires forall q :: q != r ==> (q in before <==> q in after) && (q in before ==> before[q] == after[q])
    requires r in before ==> PendingOf(before[r]) == [] && !before[r].StoreCleared?
    requires r in after ==> PendingOf(after[r]) == [] && !after[r].StoreCleared?
    ensures forall c :: Pending(before, c) <==> Pending(after, c)
    ensures forall d :: Doomed(before, d) <==> Doomed(after, d)
  {
    forall c ensures Pending(before, c) <==> Pending(after, c) {
      if q :| q in before && c in PendingOf(before[q]) { assert q in after && c in PendingOf(after[q]); }
      if q :| q in after && c in PendingOf(after[q]) { assert q in before && c in PendingOf(before[q]); }
    }
    forall d ensures Doomed(before, d) <==> Doomed(after, d) {
      if q :| q in before && before[q] == StoreCleared(d) { assert q in after && after[q] == StoreCleared(d); }
      if q :| q in after && after[q] == StoreCleared(d) { assert q in before && before[q] == StoreCleared(d); }
    }
  }

  /** Pending chunks stay disjoint when RPCs only lose some. */
  lemma FewerPending(before: map<nat, Rpc>, after: map<nat, Rpc>)
    requires DisjointPending(before)
    requires forall q, c | q in after && c in PendingOf(after[q]) :: q in before && c in PendingOf(before[q])
    ensures DisjointPending(after)
  {
    hide PendingOf;
  }

  lemma PendingIsStored(store: map<string, Content>, p: Rpc, c: string)
    requires PendingStored(store, p) && c in PendingOf(p)
    ensures p.Indexing? && c in store && store[c].documentId == p.documentId
  {
    var j :| 0 <= j < |PendingOf(p)| && PendingOf(p)[j] == c;
    assert p.records[p.done + j].chunkId == c;
  }

  lemma LaggingTransfers(
    store: map<string, Content>, index: map<string, Content>, before: map<nat, Rpc>, after: map<nat, Rpc>)
    requires Lagging(store, index, before)
    requires forall c :: Pending(before, c) <==> Pending(after, c)
    requires forall d :: Doomed(before, d) <==> Doomed(after, d)
    ensures Lagging(store, index, after)
  {
    hide Pending, Doomed;
  }

  // ---------------------------------------------------------------- steps that do

  ghost function ContentOf(record: ChunkRecord): Content {
    Content(record.documentId, record.text)
  }

  ghost predicate Among(records: seq<ChunkRecord>, c: string) {
    exists i :: 0 <= i < |records| && records[i].chunkId == c
  }

  /** The contents after an upsert: what was there, and the new records. */
  ghost predicate Grown(store: map<string, Content>, after: map<string, Content>, records: seq<ChunkRecord>) {
    && (forall c | c in store :: c in after && after[c] == store[c])
    && (forall c | c in after && c !in store :: Among(records, c))
    && (forall i | 0 <= i < |records| ::
          records[i].chunkId in after && after[records[i].chunkId] == ContentOf(records[i]))
  }

  /** Fresh chunks enter the store and become pending. */
  lemma GrowStore(
    store: map<string, Content>, index: map<string, Content>, rpcs: map<nat, Rpc>, r: nat,
    records: seq<ChunkRecord>, after: map<string, Content>, documentId: string)
    requires Lagging(store, index, rpcs) && !Doomed(rpcs, documentId)
    requires r in rpcs && rpcs[r].Ready? && rpcs[r].documentId == documentId
    requires NewHere(records, store, index, documentId) && Grown(store, after, records)
    ensures Lagging(after, index, rpcs[r := Indexing(documentId, records, 0)])
  {
    NewPending(rpcs, r, records, documentId);
    hide *;
    GrownLags(store, index, rpcs, rpcs[r := Indexing(documentId, records, 0)], records, after, documentId);
  }

  ghost predicate NewHere(
    records: seq<ChunkRecord>, store: map<string, Content>, index: map<string, Content>, documentId: string)
  {
    forall i | 0 <= i < |records| ::
      records[i].documentId == documentId && records[i].chunkId !in store && records[i].chunkId !in index
  }

  /** A grown content map, read chunk by chunk. */
  lemma GrownChunk(
    store: map<string, Content>, index: map<string, Content>, after: map<string, Content>,
    records: seq<ChunkRecord>, documentId: string, c: string)
    requires NewHere(records, store, index, documentId) && Grown(store, after, records)
    ensures c in store ==> !Among(records, c) && c in after && after[c] == store[c]
    ensures Among(records, c) ==> c in after && c !in store && c !in index && after[c].documentId == documentId
    ensures c in after ==> c in store || Among(records, c)
  {
  }

  lemma GrownLags(
    store: map<string, Content>, index: map<string, Content>, rpcs: map<nat, Rpc>, rpcs': map<nat, Rpc>,
    records: seq<ChunkRecord>, after: map<string, Content>, documentId: string)
    requires Lagging(store, index, rpcs) && !Doomed(rpcs, documentId)
    requires NewHere(records, store, index, documentId) && Grown(store, after, records)
    requires forall c :: Pending(rpcs', c) <==> Pending(rpcs, c) || Among(records, c)
    requires forall d :: Doomed(rpcs', d) <==> Doomed(rpcs, d)
    ensures Lagging(after, index, rpcs')
  {
    forall c
      ensures c in store ==> !Among(records, c) && c in after && after[c] == store[c]
      ensures Among(records, c) ==> c in after && c !in store && c !in index && after[c].documentId == documentId
      ensures c in after ==> c in store || Among(records, c)
    {
      GrownChunk(store, index, after, records, documentId, c);
    }
    hide Pending, Doomed, Among, Grown, NewHere;
  }

  lemma NewPending(rpcs: map<nat, Rpc>, r: nat, records: seq<ChunkRecord>, documentId: string)
    requires r in rpcs && rpcs[r].Ready?
    ensures var rpcs' := rpcs[r := Indexing(documentId, records, 0)];
      && (forall c :: Pending(rpcs', c) <==>
            Pending(rpcs, c) || Among(records, c))
      && (forall d :: Doomed(rpcs', d) <==> Doomed(rpcs, d))
  {
    var p := Indexing(documentId, records, 0);
    var rpcs' := rpcs[r := p];
    assert PendingOf(p) == Map(records, (x: ChunkRecord) => x.chunkId);
    forall c ensures Pending(rpcs', c) <==> Pending(rpcs, c) || Among(records, c) {
      if q :| q in rpcs && c in PendingOf(rpcs[q]) { assert q in rpcs' && c in PendingOf(rpcs'[q]); }
      if i :| 0 <= i < |records| && records[i].chunkId == c {
        assert PendingOf(p)[i] == c;
        assert r in rpcs' && c in PendingOf(rpcs'[r]);
      }
    }
    forall d ensures Doomed(rpcs', d) <==> Doomed(rpcs, d) {
      if q :| q in rpcs && rpcs[q] == StoreCleared(d) { assert q in rpcs' && rpcs'[q] == StoreCleared(d); }
      if q :| q in rpcs' && rpcs'[q] == StoreCleared(d) { assert q in rpcs && rpcs[q] == StoreCleared(d); }
    }
  }

  /** The next pending chunk of an RPC. */
  ghost predicate NextPending(store: map<string, Content>, rpcs: map<nat, Rpc>, r: nat, record: ChunkRecord) {
    && r in rpcs && rpcs[r].Indexing? && rpcs[r].done < |rpcs[r].records| && rpcs[r].records[rpcs[r].done] == record
    && PendingStored(store, rpcs[r])
    && DisjointPending(rpcs)
  }

  lemma OwnPending(p: Rpc)
    requires p.Indexing? && p.done < |p.records| && NoDup(Map(p.records, (r: ChunkRecord) => r.chunkId))
    ensures forall c :: c in PendingOf(p) <==> c == p.records[p.done].chunkId || c in PendingOf(OneMore(p))
    ensures p.records[p.done].chunkId !in PendingOf(OneMore(p))
  {
    var p' := OneMore(p);
    var column := Map(p.records, (x: ChunkRecord) => x.chunkId);
    assert PendingOf(p) == column[p.done..] && PendingOf(p') == column[p.done + 1..];
    assert column[p.done..] == [column[p.done]] + column[p.done + 1..];
    NoDupSplit(column, p.done);
  }

  lemma IndexedIsNoLongerPending(store: map<string, Content>, rpcs: map<nat, Rpc>, r: nat, record: ChunkRecord)
    requires NextPending(store, rpcs, r, record)
    ensures var rpcs' := rpcs[r := OneMore(rpcs[r])];
      && Pending(rpcs, record.chunkId)
      && (forall c :: Pending(rpcs', c) <==> Pending(rpcs, c) && c != record.chunkId)
      && (forall d :: Doomed(rpcs', d) <==> Doomed(rpcs, d))
  {
    var rpcs' := rpcs[r := OneMore(rpcs[r])];
    assert PendingStored(store, rpcs[r]);
    OwnPending(rpcs[r]);
    assert forall q, c | q in rpcs && q != r && c in PendingOf(rpcs[q]) :: c != record.chunkId;
    hide PendingOf, PendingStored, NextPending;
    assert record.chunkId in PendingOf(rpcs[r]);
    forall c ensures Pending(rpcs', c) <==> Pending(rpcs, c) && c != record.chunkId {
      if q :| q in rpcs && c in PendingOf(rpcs[q]) && c != record.chunkId {
        assert q in rpcs' && c in PendingOf(rpcs'[q]);
      }
      if q :| q in rpcs' && c in PendingOf(rpcs'[q]) {
        assert q in rpcs && c in PendingOf(rpcs[q]);
      }
    }
    forall d ensures Doomed(rpcs', d) <==> Doomed(rpcs, d) {
      if q :| q in rpcs && rpcs[q] == StoreCleared(d) { assert q in rpcs' && rpcs'[q] == StoreCleared(d); }
      if q :| q in rpcs' && rpcs'[q] == StoreCleared(d) { assert q in rpcs && rpcs[q] == StoreCleared(d); }
    }
  }

  /** Indexing the next record catches up by exactly that chunk. */
  lemma CatchUp(
    store: map<string, Content>, index: map<string, Content>, rpcs: map<nat, Rpc>, r: nat, record: ChunkRecord)
    requires Lagging(store, index, rpcs) && NextPending(store, rpcs, r, record)
    ensures Lagging(store, index[record.chunkId := ContentOf(record)],
                    rpcs[r := OneMore(rpcs[r])])
  {
    IndexedIsNoLongerPending(store, rpcs, r, record);
    NextIsStored(store, rpcs, r, record);
    hide *;
    CaughtUp(store, index, rpcs, rpcs[r := OneMore(rpcs[r])], record);
  }

  lemma NextIsStored(store: map<string, Content>, rpcs: map<nat, Rpc>, r: nat, record: ChunkRecord)
    requires NextPending(store, rpcs, r, record)
    ensures record.chunkId in store && store[record.chunkId] == ContentOf(record)
  {
    hide DisjointPending, NoDup;
  }

  lemma CaughtUp(
    store: map<string, Content>, index: map<string, Content>, rpcs: map<nat, Rpc>, rpcs': map<nat, Rpc>,
    record: ChunkRecord)
    requires Lagging(store, index, rpcs)
    requires record.chunkId in store && store[record.chunkId] == ContentOf(record)
    requires forall c :: Pending(rpcs', c) <==> Pending(rpcs, c) && c != record.chunkId
    requires forall d :: Doomed(rpcs', d) <==> Doomed(rpcs, d)
    ensures Lagging(store, index[record.chunkId := ContentOf(record)], rpcs')
  {
    hide Pending, Doomed;
  }

  lemma DoomedNow(rpcs: map<nat, Rpc>, r: nat, documentId: string)
    requires r in rpcs && rpcs[r] == Deleting(documentId)
    ensures var rpcs' := rpcs[r := StoreCleared(documentId)];
      && (forall c :: Pending(rpcs', c) <==> Pending(rpcs, c))
      && (forall d :: Doomed(rpcs', d) <==> Doomed(rpcs, d) || d == documentId)
  {
    var rpcs' := rpcs[r := StoreCleared(documentId)];
    forall c ensures Pending(rpcs', c) <==> Pending(rpcs, c) {
      if q :| q in rpcs && c in PendingOf(rpcs[q]) { assert q in rpcs' && c in PendingOf(rpcs'[q]); }
      if q :| q in rpcs' && c in PendingOf(rpcs'[q]) { assert q in rpcs && c in PendingOf(rpcs[q]); }
    }
    forall d ensures Doomed(rpcs', d) <==> Doomed(rpcs, d) || d == documentId {
      if q :| q in rpcs && rpcs[q] == StoreCleared(d) { assert q in rpcs' && rpcs'[q] == StoreCleared(d); }
      if q :| q in rpcs' && rpcs'[q] == StoreCleared(d) { assert q == r || (q in rpcs && rpcs[q] == StoreCleared(d)); }
      assert rpcs'[r] == StoreCleared(documentId);
    }
  }

  /** The store drops the document; the index still has it. */
  lemma ShrinkStore(
    store: map<string, Content>, after: map<string, Content>, index: map<string, Content>,
    rpcs: map<nat, Rpc>, r: nat, documentId: string)
    requires Lagging(store, index, rpcs) && r in rpcs && rpcs[r] == Deleting(documentId)
    requires after == map c | c in store && store[c].documentId != documentId :: store[c]
    ensures Lagging(after, index, rpcs[r := StoreCleared(documentId)])
  {
    DoomedNow(rpcs, r, documentId);
    hide Pending, Doomed, PendingOf;
  }

  /** A finished deletion leaves the documents of the other half-done deletions, perhaps the same one. */
  lemma OneDeletionLess(rpcs: map<nat, Rpc>, r: nat, documentId: string)
    requires r in rpcs && rpcs[r] == StoreCleared(documentId)
    ensures Doomed(rpcs, documentId)
    ensures (forall c :: Pending(rpcs - {r}, c) <==> Pending(rpcs, c))
    ensures (forall d :: d != documentId ==> (Doomed(rpcs - {r}, d) <==> Doomed(rpcs, d)))
    ensures Doomed(rpcs - {r}, documentId) ==> forall d :: Doomed(rpcs - {r}, d) <==> Doomed(rpcs, d)
  {
    var rpcs' := rpcs - {r};
    forall c ensures Pending(rpcs', c) <==> Pending(rpcs, c) {
      if q :| q in rpcs && c in PendingOf(rpcs[q]) { assert q in rpcs' && c in PendingOf(rpcs'[q]); }
      if q :| q in rpcs' && c in PendingOf(rpcs'[q]) { assert q in rpcs && c in PendingOf(rpcs[q]); }
    }
    forall d ensures Doomed(rpcs', d) ==> Doomed(rpcs, d)
             ensures Doomed(rpcs, d) && d != documentId ==> Doomed(rpcs', d) {
      if q :| q in rpcs && rpcs[q] == StoreCleared(d) && d != documentId {
        assert q in rpcs' && rpcs'[q] == StoreCleared(d);
      }
      if q :| q in rpcs' && rpcs'[q] == StoreCleared(d) { assert q in rpcs && rpcs[q] == StoreCleared(d); }
    }
  }

  /** The index drops the document as well. */
  lemma ShrinkIndex(
    store: map<string, Content>, index: map<string, Content>, after: map<string, Content>,
    rpcs: map<nat, Rpc>, r: nat, documentId: string)
    requires Lagging(store, index, rpcs)
    requires r in rpcs && rpcs[r] == StoreCleared(documentId)
    requires after == map c | c in index && index[c].documentId != documentId :: index[c]
    ensures Lagging(store, after, rpcs - {r})
  {
    OneDeletionLess(rpcs, r, documentId);
    hide Pending, Doomed, PendingOf;
  }

  // ---------------------------------------------------------------- restart

  /** The startup loop of `server.py` indexes exactly the listed records. */
  lemma {:induction false} ReindexSpec(order: seq<nat>, at: map<nat, ChunkRecord>, idByChunk: map<string, nat>)
    requires Inverse(at, idByChunk) && forall id | id in order :: id in at
    ensures var k := Reindex(order, at);
      && k.Valid()
      && (forall c :: c in k.texts.at <==> c in idByChunk && idByChunk[c] in order)
      && (forall c | c in k.texts.at :: Content(k.documents.at[c], k.texts.at[c]) == ContentOf(at[idByChunk[c]]))
  {
    if order != [] {
      var init, id := order[..|order| - 1], order[|order| - 1];
      var k := Reindex(init, at);
      assert order == init + [id];
      ReindexSpec(init, at, idByChunk);
      K.PutValid(k, at[id].chunkId, at[id].documentId, at[id].text);
      hide K.Keywords.Valid, Dict.Valid;
    }
  }

  lemma RestartAgrees(st: Store)
    requires Inv(st)
    ensures var back := Load(Save(st));
      var k := Reindex(back.records.order, back.records.at);
      && Inv(back) && k.Valid()
      && InIndex(k) == InStore(back) && InStore(back) == InStore(st)
  {
    LoadSaved(st);
    ReindexSpec(st.records.order, st.records.at, st.idByChunk);
    ReindexedIsStored(st, Reindex(st.records.order, st.records.at));
  }

  lemma ReindexedIsStored(st: Store, k: K.Keywords)
    requires RecordsInv(st) && k.Valid()
    requires forall c :: c in k.texts.at <==> c in st.idByChunk && st.idByChunk[c] in st.records.order
    requires forall c | c in k.texts.at ::
      Content(k.documents.at[c], k.texts.at[c]) == ContentOf(st.records.at[st.idByChunk[c]])
    ensures InIndex(k) == InStore(st)
  {
    hide NoDup, IdsBelow;
  }

  // ---------------------------------------------------------------- one step

  lemma NothingPending(before: map<string, Content>, after: map<string, Content>, p: Rpc)
    requires PendingStored(before, p) && forall c | c in before :: c in after && after[c] == before[c]
    ensures PendingStored(after, p)
  {
  }

  lemma InStepIntro(s: System, model: Model)
    requires Transparent(s, model) && Inv(s.store) && s.keywords.Valid()
    requires Lagging(InStore(s.store), InIndex(s.keywords), s.rpcs)
    requires forall r | r in s.rpcs :: PendingStored(InStore(s.store), s.rpcs[r])
    requires DisjointPending(s.rpcs)
    requires forall c | c in s.keywords.texts.at :: c in s.issued
    ensures InStep(s, model)
  {
  }

  lemma InStepElim(s: System, model: Model)
    requires InStep(s, model)
    ensures Transparent(s, model) && Inv(s.store) && s.keywords.Valid()
    ensures Lagging(InStore(s.store), InIndex(s.keywords), s.rpcs)
    ensures forall r | r in s.rpcs :: PendingStored(InStore(s.store), s.rpcs[r])
    ensures DisjointPending(s.rpcs)
    ensures forall c | c in s.keywords.texts.at :: c in s.issued
    ensures forall c | c in s.store.idByChunk :: c in s.issued
    ensures forall r | r in s.rpcs :: TrueRpc(s.rpcs[r], model)
    ensures RecordsInv(s.store)
  {
  }

  lemma NotIndexing(store: map<string, Content>, p: Rpc)
    requires !p.Indexing?
    ensures PendingStored(store, p)
  {
  }

  /** Starting, looking up, embedding and finishing touch neither store. */
  lemma QuietIsInStep(s: System, after: System, r: nat, model: Model)
    requires InStep(s, model) && Transparent(after, model)
    requires after.store == s.store && after.keywords == s.keywords && s.issued <= after.issued
    requires forall q :: q != r ==> (q in s.rpcs <==> q in after.rpcs) && (q in s.rpcs ==> s.rpcs[q] == after.rpcs[q])
    requires r in s.rpcs ==> PendingOf(s.rpcs[r]) == [] && !s.rpcs[r].StoreCleared?
    requires r in after.rpcs ==> !after.rpcs[r].Indexing? && !after.rpcs[r].StoreCleared?
    ensures InStep(after, model)
  {
    QuietStep(s.rpcs, after.rpcs, r);
    LaggingTransfers(InStore(s.store), InIndex(s.keywords), s.rpcs, after.rpcs);
    if r in after.rpcs { NotIndexing(InStore(after.store), after.rpcs[r]); }
    InStepElim(s, model);
    FewerPending(s.rpcs, after.rpcs);
    hide *;
    InStepIntro(after, model);
  }

  /** The store after an upsert holds what it held, plus the new records' contents. */
  lemma UpsertGrows(st: Store, p: Rpc, ids: seq<string>)
    requires Inv(st) && p.Ready? && |ids| == |p.chunks| == |p.vectors| > 0
    requires NoDup(ids) && forall c | c in ids :: c !in st.idByChunk
    ensures var records := RecordsFor(p.chunks, ids, p.documentId, p.metadata);
      var after := StoreAfter(st, records, p.vectors);
      Inv(after) && Grown(InStore(st), InStore(after), records)
  {
    var records := RecordsFor(p.chunks, ids, p.documentId, p.metadata);
    FreshRecords(st, p.chunks, ids, p.documentId, p.metadata);
    FreshUpsert(st, records, p.vectors);
    hide RecordsFor, FreshBatch, NoDup, Ids, HashInv, RecordsInv, Gained;
    assert RecordsInv(st) && RecordsInv(StoreAfter(st, records, p.vectors));
    GainedContents(st, StoreAfter(st, records, p.vectors), records, p.vectors, AllocatedIds(st, records));
  }

  lemma FreshPending(store: map<string, Content>, records: seq<ChunkRecord>, documentId: string)
    requires NoDup(Map(records, (r: ChunkRecord) => r.chunkId))
    requires forall i | 0 <= i < |records| ::
      && records[i].documentId == documentId && records[i].chunkId in store
      && store[records[i].chunkId] == ContentOf(records[i])
    ensures PendingStored(store, Indexing(documentId, records, 0))
  {
    hide NoDup;
  }

  lemma RecordsForSpec(p: Rpc, ids: seq<string>, issued: set<string>)
    requires CanUpsert(p, ids, issued)
    ensures var records := RecordsFor(p.chunks, ids, p.documentId, p.metadata);
      && NoDup(Map(records, (r: ChunkRecord) => r.chunkId))
      && forall i | 0 <= i < |records| :: records[i].documentId == p.documentId && records[i].chunkId !in issued
  {
    var records := RecordsFor(p.chunks, ids, p.documentId, p.metadata);
    assert Map(records, (x: ChunkRecord) => x.chunkId) == ids;
    forall i | 0 <= i < |records| ensures records[i].chunkId !in issued {
      assert records[i].chunkId == ids[i] && ids[i] in ids;
    }
  }

  /** An RPC stores its records: the index lags by them, and they are in the store. */
  lemma GrowAll(
    store: map<string, Content>, index: map<string, Content>, rpcs: map<nat, Rpc>, r: nat,
    records: seq<ChunkRecord>, after: map<string, Content>, documentId: string)
    requires Lagging(store, index, rpcs) && DisjointPending(rpcs) && !Doomed(rpcs, documentId)
    requires forall q | q in rpcs :: PendingStored(store, rpcs[q])
    requires r in rpcs && rpcs[r].Ready? && rpcs[r].documentId == documentId
    requires forall i | 0 <= i < |records| ::
      records[i].documentId == documentId && records[i].chunkId !in store && records[i].chunkId !in index
    requires NoDup(Map(records, (x: ChunkRecord) => x.chunkId)) && Grown(store, after, records)
    ensures var rpcs' := rpcs[r := Indexing(documentId, records, 0)];
      && Lagging(after, index, rpcs') && DisjointPending(rpcs')
      && forall q | q in rpcs' :: PendingStored(after, rpcs'[q])
  {
    var rpcs' := rpcs[r := Indexing(documentId, records, 0)];
    GrowStore(store, index, rpcs, r, records, after, documentId);
    RecordsEntered(store, after, records);
    FreshPending(after, records, documentId);
    NewIsDisjoint(store, rpcs, r, records, documentId);
    hide Lagging, DisjointPending, PendingStored, Grown, NoDup;
    forall q | q in rpcs' ensures PendingStored(after, rpcs'[q]) {
      if q != r { NothingPending(store, after, rpcs[q]); }
    }
  }

  lemma NewIsDisjoint(
    store: map<string, Content>, rpcs: map<nat, Rpc>, r: nat, records: seq<ChunkRecord>, documentId: string)
    requires DisjointPending(rpcs) && r in rpcs && forall q | q in rpcs :: PendingStored(store, rpcs[q])
    requires forall i | 0 <= i < |records| :: records[i].chunkId !in store
    ensures DisjointPending(rpcs[r := Indexing(documentId, records, 0)])
  {
    var p := Indexing(documentId, records, 0);
    forall q, c | q in rpcs && c in PendingOf(rpcs[q]) ensures c !in PendingOf(p) {
      PendingIsStored(store, rpcs[q], c);
      assert PendingOf(p) == Map(records, (x: ChunkRecord) => x.chunkId);
    }
    hide PendingOf, PendingStored;
  }

  lemma UpsertLags(s: System, r: nat, ids: seq<string>, model: Model)
    requires InStep(s, model) && r in s.rpcs && CanUpsert(s.rpcs[r], ids, s.issued)
    requires !Doomed(s.rpcs, s.rpcs[r].documentId)
    ensures Inv(AfterUpsert(s, r, s.rpcs[r], ids).store)
    ensures var after := AfterUpsert(s, r, s.rpcs[r], ids);
      && DisjointPending(after.rpcs)
      && Lagging(InStore(after.store), InIndex(s.keywords), after.rpcs)
      && (forall q | q in after.rpcs :: PendingStored(InStore(after.store), after.rpcs[q]))
  {
    var p := s.rpcs[r];
    var records := RecordsFor(p.chunks, ids, p.documentId, p.metadata);
    InStepElim(s, model);
    RecordsForSpec(p, ids, s.issued);
    assert TrueRpc(p, model) ==> |p.vectors| == |p.chunks| > 0;
    hide InStep, Transparent, TrueRpc, Inv, NoDup, Lagging, DisjointPending, Doomed, PendingStored, Grown, RecordsFor,
      StoreAfter;
    UpsertGrows(s.store, p, ids);
    GrowAll(InStore(s.store), InIndex(s.keywords), s.rpcs, r, records,
            InStore(StoreAfter(s.store, records, p.vectors)), p.documentId);
  }

  lemma RecordsEntered(store: map<string, Content>, after: map<string, Content>, records: seq<ChunkRecord>)
    requires Grown(store, after, records)
    ensures forall c | c in store :: c in after && after[c] == store[c]
    ensures forall i | 0 <= i < |records| ::
      records[i].chunkId in after && after[records[i].chunkId] == ContentOf(records[i])
  {
  }

  lemma UpsertIsInStep(s: System, r: nat, ids: seq<string>, model: Model)
    requires InStep(s, model) && r in s.rpcs && CanUpsert(s.rpcs[r], ids, s.issued)
    requires !Doomed(s.rpcs, s.rpcs[r].documentId)
    ensures InStep(AfterUpsert(s, r, s.rpcs[r], ids), model)
  {
    var p, after := s.rpcs[r], AfterUpsert(s, r, s.rpcs[r], ids);
    InStepElim(s, model);
    UpsertStep(s, r, ids, model);
    UpsertLags(s, r, ids, model);
    assert after.keywords == s.keywords && forall c | c in s.issued :: c in after.issued;
    hide *;
    InStepIntro(after, model);
  }

  lemma GainedContents(st: Store, after: Store, batch: seq<ChunkRecord>, vectors: seq<Vector>, ids: seq<nat>)
    requires RecordsInv(st) && RecordsInv(after) && Gained(st, after, batch, vectors, ids)
    ensures Grown(InStore(st), InStore(after), batch)
  {
    hide NoDup, IdsBelow;
    forall c | c in InStore(after) && c !in InStore(st)
      ensures Among(batch, c)
    {
      var id := after.idByChunk[c];
      assert id !in st.records.at;
      var k :| 0 <= k < |ids| && ids[k] == id;
      assert batch[k].chunkId == c;
    }
  }

  lemma IndexedContents(k: K.Keywords, record: ChunkRecord)
    requires k.Valid()
    ensures var k' := K.Put(k, record.chunkId, record.documentId, record.text);
      && k'.Valid()
      && InIndex(k') == InIndex(k)[record.chunkId := ContentOf(record)]
      && (forall c | c in k'.texts.at :: c in k.texts.at || c == record.chunkId)
  {
    K.PutValid(k, record.chunkId, record.documentId, record.text);
    hide NoDup;
  }

  lemma AllStored(store: map<string, Content>, rpcs: map<nat, Rpc>, r: nat)
    requires forall q | q in rpcs :: PendingStored(store, rpcs[q])
    requires r in rpcs && rpcs[r].Indexing? && rpcs[r].done < |rpcs[r].records|
    ensures var rpcs' := rpcs[r := OneMore(rpcs[r])];
      forall q | q in rpcs' :: PendingStored(store, rpcs'[q])
    ensures rpcs[r].records[rpcs[r].done].chunkId in store
  {
    assert PendingStored(store, rpcs[r]);
    LessPending(store, rpcs[r]);
    hide PendingStored;
  }

  lemma IndexingUnfold(s: System, r: nat)
    requires r in s.rpcs && s.rpcs[r].Indexing? && s.rpcs[r].done < |s.rpcs[r].records|
    ensures var after, record := AfterIndexing(s, r, s.rpcs[r]), s.rpcs[r].records[s.rpcs[r].done];
      && after.store == s.store && after.issued == s.issued
      && after.keywords == K.Put(s.keywords, record.chunkId, record.documentId, record.text)
      && after.rpcs == s.rpcs[r := OneMore(s.rpcs[r])]
      && after.rpcs[r].Indexing?
  {
  }

  lemma IndexingIsInStep(s: System, r: nat, model: Model)
    requires InStep(s, model)
    requires r in s.rpcs && s.rpcs[r].Indexing? && s.rpcs[r].done < |s.rpcs[r].records|
    ensures InStep(AfterIndexing(s, r, s.rpcs[r]), model)
  {
    hide *;
    var p, after := s.rpcs[r], AfterIndexing(s, r, s.rpcs[r]);
    var record := p.records[p.done];
    InStepElim(s, model);
    IndexingUnfold(s, r);
    StepIsCarried(s, after, r, model);
    IndexedContents(s.keywords, record);
    AllStored(InStore(s.store), s.rpcs, r);
    LessIsPending(s.rpcs, r);
    FewerPending(s.rpcs, after.rpcs);
    RecordIsKnown(s, record.chunkId);
    NextIsPending(InStore(s.store), s.rpcs, r);
    CatchUp(InStore(s.store), InIndex(s.keywords), s.rpcs, r, record);
    InStepIntro(after, model);
  }

  lemma LessIsPending(rpcs: map<nat, Rpc>, r: nat)
    requires r in rpcs && rpcs[r].Indexing?
    ensures forall q, c | q in rpcs && c in PendingOf(rpcs[r := OneMore(rpcs[r])][q]) :: c in PendingOf(rpcs[q])
  {
    var p := rpcs[r];
    if p.done < |p.records| {
      assert PendingOf(p)[1..] == PendingOf(OneMore(p));
    }
  }

  lemma NextIsPending(store: map<string, Content>, rpcs: map<nat, Rpc>, r: nat)
    requires forall q | q in rpcs :: PendingStored(store, rpcs[q])
    requires DisjointPending(rpcs)
    requires r in rpcs && rpcs[r].Indexing? && rpcs[r].done < |rpcs[r].records|
    ensures NextPending(store, rpcs, r, rpcs[r].records[rpcs[r].done])
  {
    hide PendingStored, DisjointPending;
  }

  lemma RecordIsKnown(s: System, c: string)
    requires RecordsInv(s.store) && c in InStore(s.store)
    requires forall x | x in s.store.idByChunk :: x in s.issued
    ensures c in s.issued
  {
  }

  lemma LessPending(store: map<string, Content>, p: Rpc)
    requires PendingStored(store, p) && p.Indexing? && p.done < |p.records|
    ensures PendingStored(store, OneMore(p))
  {
  }

  lemma StepIsCarried(s: System, after: System, r: nat, model: Model)
    requires InStep(s, model)
    requires after.store == s.store && after.issued == s.issued
    requires forall q | q in after.rpcs ::
      (q in s.rpcs && after.rpcs[q] == s.rpcs[q]) || after.rpcs[q].Indexing? || after.rpcs[q].StoreCleared?
    ensures Transparent(after, model)
  {
  }

  lemma InStoreDeleted(st: Store, documentId: string)
    requires RecordsInv(st)
    ensures RecordsInv(Delete(st, documentId).0)
    ensures InStore(Delete(st, documentId).0)
            == map c | c in InStore(st) && InStore(st)[c].documentId != documentId :: InStore(st)[c]
  {
    DeleteSpec(st, documentId);
    hide Delete;
  }

  lemma InIndexDeleted(k: K.Keywords, documentId: string)
    requires k.Valid()
    ensures K.Delete(k, documentId).0.Valid()
    ensures InIndex(K.Delete(k, documentId).0)
            == map c | c in InIndex(k) && InIndex(k)[c].documentId != documentId :: InIndex(k)[c]
  {
    K.DeleteSpec(k, documentId);
    hide K.Delete;
  }

  lemma ClearingIsTransparent(s: System, r: nat, model: Model)
    requires Transparent(s, model) && r in s.rpcs && s.rpcs[r].Deleting?
    ensures Transparent(AfterClearing(s, r, s.rpcs[r].documentId), model)
  {
    DeleteIsTrue(s.store, s.rpcs[r].documentId, model);
    hide TrueStore, Delete, Inv;
  }

  lemma TransparentInv(s: System, model: Model)
    requires Transparent(s, model)
    ensures Inv(s.store) && RecordsInv(s.store)
  {
  }

  lemma ClearingUnfold(s: System, r: nat, d: string)
    requires r in s.rpcs && s.rpcs[r].documentId == d
    ensures var after := AfterClearing(s, r, d);
      && after.store == Delete(s.store, d).0 && after.keywords == s.keywords && after.issued == s.issued
      && after.rpcs == s.rpcs[r := StoreCleared(d)]
  {
  }

  lemma ClearingIsInStep(s: System, r: nat, model: Model)
    requires InStep(s, model) && r in s.rpcs && s.rpcs[r].Deleting? && Indexed(s.rpcs, s.rpcs[r].documentId)
    ensures InStep(AfterClearing(s, r, s.rpcs[r].documentId), model)
  {
    hide *;
    var d := s.rpcs[r].documentId;
    var after := AfterClearing(s, r, d);
    InStepElim(s, model);
    ClearingIsTransparent(s, r, model);
    TransparentInv(after, model);
    ClearingUnfold(s, r, d);
    InStoreDeleted(s.store, d);
    assert s.rpcs[r] == Deleting(d);
    ShrinkStore(InStore(s.store), InStore(after.store), InIndex(s.keywords), s.rpcs, r, d);
    StillAllStored(InStore(s.store), InStore(after.store), s.rpcs, r, d);
    ClearedIsDisjoint(s.rpcs, r, d);
    InStepIntro(after, model);
  }

  lemma ClearedIsDisjoint(rpcs: map<nat, Rpc>, r: nat, documentId: string)
    requires DisjointPending(rpcs) && r in rpcs
    ensures DisjointPending(rpcs[r := StoreCleared(documentId)]) && DisjointPending(rpcs - {r})
  {
    assert PendingOf(StoreCleared(documentId)) == [];
    hide PendingOf;
  }

  lemma StillAllStored(
    store: map<string, Content>, after: map<string, Content>, rpcs: map<nat, Rpc>, r: nat, documentId: string)
    requires forall q | q in rpcs :: PendingStored(store, rpcs[q])
    requires Indexed(rpcs, documentId) && r in rpcs
    requires after == map c | c in store && store[c].documentId != documentId :: store[c]
    ensures var rpcs' := rpcs[r := StoreCleared(documentId)];
      forall q | q in rpcs' :: PendingStored(after, rpcs'[q])
  {
    NotIndexing(after, StoreCleared(documentId));
    hide PendingStored, PendingOf;
    forall q | q in rpcs && q != r ensures PendingStored(after, rpcs[q]) {
      StillStored(store, after, rpcs[q], documentId);
    }
  }

  lemma StillStored(store: map<string, Content>, after: map<string, Content>, p: Rpc, documentId: string)
    requires PendingStored(store, p) && (p.documentId == documentId ==> PendingOf(p) == [])
    requires after == map c | c in store && store[c].documentId != documentId :: store[c]
    ensures PendingStored(after, p)
  {
    assert p.Indexing? && p.done <= |p.records| ==> |PendingOf(p)| == |p.records| - p.done;
  }

  lemma DeletedWereIndexed(k: K.Keywords, documentId: string)
    requires k.Valid()
    ensures forall c | c in K.Delete(k, documentId).0.texts.at :: c in k.texts.at
  {
    K.DeleteSpec(k, documentId);
    hide K.Delete;
  }

  lemma KeywordsClearedIsInStep(s: System, r: nat, model: Model)
    requires InStep(s, model) && r in s.rpcs && s.rpcs[r].StoreCleared?
    ensures InStep(s.(keywords := K.Delete(s.keywords, s.rpcs[r].documentId).0, rpcs := s.rpcs - {r}), model)
  {
    hide *;
    var d := s.rpcs[r].documentId;
    var after := s.(keywords := K.Delete(s.keywords, d).0, rpcs := s.rpcs - {r});
    InStepElim(s, model);
    StepIsCarried(s, after, r, model);
    InIndexDeleted(s.keywords, d);
    DeletedWereIndexed(s.keywords, d);
    assert s.rpcs[r] == StoreCleared(d);
    ShrinkIndex(InStore(s.store), InIndex(s.keywords), InIndex(after.keywords), s.rpcs, r, d);
    ClearedIsDisjoint(s.rpcs, r, d);
    InStepIntro(after, model);
  }

  /** A restart needs no calm: whatever state the index was in, it matches the store again. */
  lemma RestartIsInStep(s: System, model: Model)
    requires Transparent(s, model)
    ensures InStep(AfterRestart(s), model)
  {
    var after := AfterRestart(s);
    RestartIsTransparent(s, model);
    RestartAgrees(s.store);
    hide RecordsInv, K.Keywords.Valid, Load, Save, Reindex;
    assert Transparent(after, model) && Inv(after.store);
    EmptyIsLevel(InStore(after.store));
    assert forall c | c in after.keywords.texts.at :: c in InIndex(after.keywords) && c in InStore(after.store);
    assert forall c | c in after.store.idByChunk :: c in after.issued;
    hide *;
    InStepIntro(after, model);
  }

  lemma RestartIsTransparent(s: System, model: Model)
    requires Transparent(s, model)
    ensures Transparent(AfterRestart(s), model)
  {
    LoadSaved(s.store);
  }

  lemma EmptyIsLevel(store: map<string, Content>)
    ensures Lagging(store, store, map[]) && DisjointPending(map[])
  {
  }

  /** Nothing stored, nothing indexed and nothing running: the start, and a restart without a directory. */
  lemma NothingIsInStep(issued: set<string>, model: Model)
    ensures InStep(System(EMPTY, K.NONE, map[], issued), model)
  {
    assert Inv(EMPTY);
    EmptyIsLevel(map[]);
    assert InStore(EMPTY) == map[] && InIndex(K.NONE) == map[];
  }

  // ---------------------------------------------------------------- every run

  predicate IsQuiet(step: Step) {
    step.StartEmbed? || step.StartDelete? || step.Lookup? || step.EmbedMissing? || step.Finish?
  }

  lemma QuietUnfold(s: System, step: Step, model: Model)
    requires Enabled(s, step, model) && IsQuiet(step)
    ensures var after, r := Apply(s, step, model), step.r;
      && after.store == s.store && after.keywords == s.keywords && after.issued == s.issued
      && (forall q :: q != r ==> (q in s.rpcs <==> q in after.rpcs) && (q in s.rpcs ==> s.rpcs[q] == after.rpcs[q]))
      && (r in s.rpcs ==> PendingOf(s.rpcs[r]) == [] && !s.rpcs[r].StoreCleared?)
      && (r in after.rpcs ==> !after.rpcs[r].Indexing? && !after.rpcs[r].StoreCleared?)
  {
    hide HashedChunks, Stacked, VectorByHash;
  }

  lemma QuietStepIsInStep(s: System, step: Step, model: Model)
    requires InStep(s, model) && Enabled(s, step, model) && Transparent(Apply(s, step, model), model)
    requires IsQuiet(step)
    ensures InStep(Apply(s, step, model), model)
  {
    InStepElim(s, model);
    QuietUnfold(s, step, model);
    hide *;
    QuietIsInStep(s, Apply(s, step, model), step.r, model);
  }

  lemma AbandonUnfold(s: System, r: nat, model: Model)
    requires r in s.rpcs
    ensures Enabled(s, Abandon(r), model) && Apply(s, Abandon(r), model) == s.(rpcs := s.rpcs - {r})
  {
  }

  /** Giving up what may be given up leaves the stores in step. */
  lemma AbandonIsInStep(s: System, r: nat, model: Model)
    requires InStep(s, model) && r in s.rpcs && MayAbandon(s, r)
    ensures InStep(s.(rpcs := s.rpcs - {r}), model)
  {
    var after := s.(rpcs := s.rpcs - {r});
    assert PendingOf(s.rpcs[r]) == [];
    InStepElim(s, model);
    StepIsCarried(s, after, r, model);
    if s.rpcs[r].StoreCleared? {
      assert s.rpcs[r] == StoreCleared(s.rpcs[r].documentId);
      GivenUp(InStore(s.store), s.keywords, s.rpcs, r, s.rpcs[r].documentId);
      ClearedIsDisjoint(s.rpcs, r, s.rpcs[r].documentId);
      hide *;
      InStepIntro(after, model);
    } else {
      hide *;
      QuietIsInStep(s, after, r, model);
    }
  }

  lemma GivenUp(store: map<string, Content>, k: K.Keywords, rpcs: map<nat, Rpc>, r: nat, documentId: string)
    requires k.Valid() && Lagging(store, InIndex(k), rpcs) && r in rpcs && rpcs[r] == StoreCleared(documentId)
    requires Doomed(rpcs - {r}, documentId) || Absent(k, documentId)
    ensures Lagging(store, InIndex(k), rpcs - {r})
  {
    OneDeletionLess(rpcs, r, documentId);
    if Doomed(rpcs - {r}, documentId) {
      hide *;
      LaggingTransfers(store, InIndex(k), rpcs, rpcs - {r});
    } else {
      AbsentContents(k, documentId);
      hide *;
      GivenNothing(store, InIndex(k), rpcs, rpcs - {r}, documentId);
    }
  }

  lemma AbsentContents(k: K.Keywords, documentId: string)
    requires k.Valid() && Absent(k, documentId)
    ensures forall c | c in InIndex(k) :: InIndex(k)[c].documentId != documentId
  {
    hide NoDup;
    forall c | c in InIndex(k) ensures InIndex(k)[c].documentId != documentId {
      assert c in k.texts.order && c in k.documents.at;
    }
  }

  lemma GivenNothing(
    store: map<string, Content>, index: map<string, Content>, rpcs: map<nat, Rpc>, rpcs': map<nat, Rpc>,
    documentId: string)
    requires Lagging(store, index, rpcs) && Doomed(rpcs, documentId)
    requires forall c | c in index :: index[c].documentId != documentId
    requires forall c :: Pending(rpcs', c) <==> Pending(rpcs, c)
    requires !Doomed(rpcs', documentId) && forall d :: d != documentId ==> (Doomed(rpcs', d) <==> Doomed(rpcs, d))
    ensures Lagging(store, index, rpcs')
  {
    hide Pending, Doomed;
  }

  /** Every calm step keeps the stores in step. */
  lemma StepIsInStep(s: System, step: Step, model: Model)
    requires Injective(model.hash) && InStep(s, model) && Enabled(s, step, model)
    requires s.keywords.Valid() && Calm(s, step)
    ensures InStep(Apply(s, step, model), model)
  {
    InStepElim(s, model);
    StepIsTransparent(s, step, model);
    if IsQuiet(step) {
      hide *;
      QuietStepIsInStep(s, step, model);
    } else {
      StepUnfold(s, step, model);
      CalmUnfold(s, step);
      hide Apply, Enabled, Calm, InStep, Transparent, Doomed, Indexed, MayAbandon, CanUpsert, AfterUpsert,
        AfterIndexing, AfterClearing, AfterRestart, Lagging, PendingStored, DisjointPending, Inv, RecordsInv, InStore,
        InIndex, TrueRpc, K.Keywords.Valid, K.Delete;
      match step
      case UpsertStore(r, ids) => UpsertIsInStep(s, r, ids, model);
      case IndexOne(r) => IndexingIsInStep(s, r, model);
      case ClearStore(r) => ClearingIsInStep(s, r, model);
      case ClearKeywords(r) => KeywordsClearedIsInStep(s, r, model);
      case Abandon(r) => AbandonIsInStep(s, r, model);
      case Restart => RestartIsInStep(s, model);
      case RestartEmpty => NothingIsInStep(s.issued, model);
    }
  }

  /** The steps that are not quiet, unfolded. */
  lemma StepUnfold(s: System, step: Step, model: Model)
    requires Enabled(s, step, model)
    ensures match step
      case UpsertStore(r, ids) =>
        r in s.rpcs && CanUpsert(s.rpcs[r], ids, s.issued) && Apply(s, step, model) == AfterUpsert(s, r, s.rpcs[r], ids)
      case IndexOne(r) =>
        && r in s.rpcs && s.rpcs[r].Indexing? && s.rpcs[r].done < |s.rpcs[r].records|
        && Apply(s, step, model) == AfterIndexing(s, r, s.rpcs[r])
      case ClearStore(r) =>
        r in s.rpcs && s.rpcs[r].Deleting? && Apply(s, step, model) == AfterClearing(s, r, s.rpcs[r].documentId)
      case ClearKeywords(r) =>
        && r in s.rpcs && s.rpcs[r].StoreCleared?
        && Apply(s, step, model)
           == s.(keywords := K.Delete(s.keywords, s.rpcs[r].documentId).0, rpcs := s.rpcs - {r})
      case Abandon(r) => r in s.rpcs && Apply(s, step, model) == s.(rpcs := s.rpcs - {r})
      case Restart => Apply(s, step, model) == AfterRestart(s)
      case RestartEmpty => Apply(s, step, model) == s.(store := EMPTY, keywords := K.NONE, rpcs := map[])
      case _ => IsQuiet(step)
  {
    hide AfterUpsert, AfterIndexing, AfterClearing, AfterRestart, K.Delete;
  }

  lemma CalmUnfold(s: System, step: Step)
    requires s.keywords.Valid() && Calm(s, step)
    ensures match step
      case UpsertStore(r, _) => r in s.rpcs ==> !Doomed(s.rpcs, s.rpcs[r].documentId)
      case ClearStore(r) => r in s.rpcs ==> Indexed(s.rpcs, s.rpcs[r].documentId)
      case Abandon(r) => r in s.rpcs ==> MayAbandon(s, r)
      case _ => true
  {
    hide Doomed, Indexed, MayAbandon;
  }

  /** All steps of a run from `s` but `except` are calm, wherever they are taken while the index is well formed. */
  ghost predicate CalmBut(s: System, steps: seq<Step>, except: set<Step>, model: Model)
    requires Possible(s, steps, model)
  {
    steps != [] ==>
      && CalmBut(s, steps[..|steps| - 1], except, model)
      && (steps[|steps| - 1] in except || CalmAt(After(s, steps[..|steps| - 1], model), steps[|steps| - 1]))
  }

  ghost predicate CalmAt(s: System, step: Step) {
    s.keywords.Valid() ==> Calm(s, step)
  }

  ghost predicate CalmRun(steps: seq<Step>, model: Model)
    requires Possible(START, steps, model)
  {
    CalmBut(START, steps, {}, model)
  }

  /** Calm steps keep the stores in step, from wherever they are. */
  lemma {:induction false} CalmStepsStayInStep(s: System, steps: seq<Step>, model: Model)
    requires Injective(model.hash) && InStep(s, model) && Possible(s, steps, model) && CalmBut(s, steps, {}, model)
    ensures InStep(After(s, steps, model), model)
  {
    if steps != [] {
      var init := steps[..|steps| - 1];
      CalmStepsStayInStep(s, init, model);
      InStepElim(After(s, init, model), model);
      hide InStep, Calm, Enabled, Apply, K.Keywords.Valid;
      StepIsInStep(After(s, init, model), steps[|steps| - 1], model);
    }
  }

  /** In every calm run the keyword index holds exactly the stored chunks that are not pending, plus
      only chunks of documents whose deletion is half done. */
  lemma StoresStayInStep(steps: seq<Step>, model: Model)
    requires Injective(model.hash) && Possible(START, steps, model) && CalmRun(steps, model)
    ensures InStep(After(START, steps, model), model)
  {
    NothingIsInStep({}, model);
    hide InStep, Possible, After, CalmBut;
    CalmStepsStayInStep(START, steps, model);
  }

  lemma RestAgrees(s: System, model: Model)
    requires InStep(s, model) && s.rpcs == map[]
    ensures Agree(s)
  {
    InStepElim(s, model);
    hide InStep, Transparent, Inv, InStore, InIndex, Lagging;
    LevelIsEqual(InStore(s.store), InIndex(s.keywords));
  }

  /** At rest the two stores hold the same chunks, documents and texts. */
  lemma StoresAgreeAtRest(steps: seq<Step>, model: Model)
    requires Injective(model.hash) && Possible(START, steps, model) && CalmRun(steps, model)
    requires After(START, steps, model).rpcs == map[]
    ensures Agree(After(START, steps, model))
  {
    StoresStayInStep(steps, model);
    hide *;
    RestAgrees(After(START, steps, model), model);
  }

  /** Both stores hold the same chunks, documents and texts. */
  ghost predicate Agree(s: System) {
    RecordsInv(s.store) && s.keywords.Valid() && InIndex(s.keywords) == InStore(s.store)
  }

  lemma LevelIsEqual(store: map<string, Content>, index: map<string, Content>)
    requires Lagging(store, index, map[])
    ensures index == store
  {
    assert forall c :: !Pending(map[], c);
    assert forall d :: !Doomed(map[], d);
  }

  /** A whole deletion, taken in one go. */
  lemma DeletionSteps(s: System, q: nat, documentId: string, model: Model)
    requires q !in s.rpcs
    ensures Enabled(s, StartDelete(q, documentId), model)
    ensures var s1 := Apply(s, StartDelete(q, documentId), model);
      && Enabled(s1, ClearStore(q), model)
      && var s2 := Apply(s1, ClearStore(q), model);
      && Enabled(s2, ClearKeywords(q), model)
      && Apply(s2, ClearKeywords(q), model) == Erased(s, documentId)
  {
    hide Delete, K.Delete;
    assert s.rpcs[q := Deleting(documentId)][q := StoreCleared(documentId)] - {q} == s.rpcs;
  }

  ghost function Erased(s: System, documentId: string): System {
    s.(store := Delete(s.store, documentId).0, keywords := K.Delete(s.keywords, documentId).0)
  }
}
