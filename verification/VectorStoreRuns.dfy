/** The vector store over whole runs: the invariant, the stability of ids and what searching sees. */
module VectorStoreRuns {
  import opened Collections
  import opened VectorStore
  import opened VectorStoreUpsert
  import opened VectorStoreDelete
  import opened VectorStoreLoad

  lemma {:induction false} ReconstructSpec(index: seq<Entry>, id: nat)
    ensures match Reconstruct(index, id)
      case Some(v) => Entry(id, v) in index
      case None => id !in Ids(index)
  {
    if index != [] {
      ReconstructSpec(index[..|index| - 1], id);
      IdsAppend(index[..|index| - 1], index[|index| - 1]);
      assert index == index[..|index| - 1] + [index[|index| - 1]];
    }
  }

  /** Under the invariant every known hash leads to a record with that hash and to its vector. */
  lemma HashLookups(st: Store, h: string)
    requires Inv(st)
    ensures h in st.idByHash <==> GetByHash(st, h).Some?
    ensures h in st.idByHash <==> VectorByHash(st, h).Some?
    ensures h in st.idByHash ==>
      && GetByHash(st, h).value.contentHash == h
      && Entry(st.idByHash[h], VectorByHash(st, h).value) in st.index
  {
    if h in st.idByHash {
      ReconstructSpec(st.index, st.idByHash[h]);
    }
  }

  datatype Op =
    | UpsertOp(batch: seq<ChunkRecord>, vectors: seq<Vector>)
    | DeleteOp(documentId: string)
    | RestartOp

  /** One locked operation, or a restart of a persistent store; a rejected upsert changes nothing. */
  function ApplyOp(st: Store, op: Op): Store {
    match op
    case UpsertOp(batch, vectors) => (match Upsert(st, batch, vectors) case Ok(after) => after case Err(_) => st)
    case DeleteOp(documentId) => Delete(st, documentId).0
    case RestartOp => Load(Save(st))
  }

  function Run(st: Store, ops: seq<Op>): Store {
    if ops == [] then st else ApplyOp(Run(st, ops[..|ops| - 1]), ops[|ops| - 1])
  }

  /** Ids never change their chunk and are never handed out twice. */
  ghost predicate IdsStable(st: Store, after: Store) {
    && st.nextId <= after.nextId
    && forall id | id in after.records.at && id < st.nextId ::
         id in st.records.at && after.records.at[id].chunkId == st.records.at[id].chunkId
  }

  lemma ApplyOpStable(st: Store, op: Op)
    requires RecordsInv(st)
    ensures RecordsInv(ApplyOp(st, op)) && IdsStable(st, ApplyOp(st, op))
  {
    match op
    case UpsertOp(batch, vectors) =>
      AllocateKeeps(st, batch);
    case DeleteOp(documentId) =>
      DeleteSpec(st, documentId);
    case RestartOp =>
      LoadKeepsRecords(st);
  }

  /** Over every run, of any batches, deletions and restarts, an id keeps denoting one chunk. */
  lemma {:induction false} RunStable(st: Store, ops: seq<Op>)
    requires RecordsInv(st)
    ensures RecordsInv(Run(st, ops)) && IdsStable(st, Run(st, ops))
  {
    if ops != [] {
      var mid := Run(st, ops[..|ops| - 1]);
      RunStable(st, ops[..|ops| - 1]);
      ApplyOpStable(mid, ops[|ops| - 1]);
    }
  }

  /** Every upsert of the run meets a state in which it is clean. */
  ghost predicate CleanRun(st: Store, ops: seq<Op>) {
    ops != [] ==>
      var init, last := ops[..|ops| - 1], ops[|ops| - 1];
      && CleanRun(st, init)
      && (last.UpsertOp? && |last.batch| == |last.vectors| ==>
            DistinctChunks(last.batch) && NoStaleHash(Run(st, init), last.batch))
  }

  /** The five structures stay in step over every clean run, restarts included. */
  lemma {:induction false} RunKeepsInv(st: Store, ops: seq<Op>)
    requires Inv(st) && CleanRun(st, ops)
    ensures Inv(Run(st, ops))
  {
    if ops != [] {
      var mid := Run(st, ops[..|ops| - 1]);
      RunKeepsInv(st, ops[..|ops| - 1]);
      match ops[|ops| - 1]
      case UpsertOp(batch, vectors) =>
        if |batch| == |vectors| > 0 { UpsertKeepsInv(mid, batch, vectors); }
      case DeleteOp(documentId) => DeleteKeepsInv(mid, documentId);
      case RestartOp => LoadSaved(mid);
    }
  }

  /** A document's deletion can take a hash away from other live records with that content; a restart
      gives it back. */
  lemma DeletionForgetsSharedHash(st: Store, documentId: string, h: string, id: nat)
    requires Inv(st)
    requires h in st.idByHash && OfDoc(st, st.idByHash[h], documentId)
    requires id in st.records.at && st.records.at[id].contentHash == h && !OfDoc(st, id, documentId)
    ensures var after := Delete(st, documentId).0;
      && GetById(after, id) == Some(st.records.at[id])
      && GetByHash(after, h) == None
      && GetByHash(Load(Save(after)), h).Some?
  {
    var after := Delete(st, documentId).0;
    DeleteSpec(st, documentId);
    DeleteKeepsInv(st, documentId);
    LoadSaved(after);
    HashLookups(Load(Save(after)), h);
    assert after.records.at[id].contentHash == h;
  }

  /** It happens after three clean operations: two documents with the same chunk, then one is deleted. */
  lemma SharedHashRun(text: string, h: string, v: Vector)
    ensures var a, b := ChunkRecord("a", "A", text, 0, h, map[]), ChunkRecord("b", "B", text, 0, h, map[]);
      var ops := [UpsertOp([a], [v]), UpsertOp([b], [v]), DeleteOp("B")];
      var st := Run(EMPTY, ops);
      && CleanRun(EMPTY, ops)
      && GetByChunk(st, "a") == Some(a) && GetByHash(st, h) == None
      && GetByHash(Load(Save(st)), h).Some?
  {
    var a, b := ChunkRecord("a", "A", text, 0, h, map[]), ChunkRecord("b", "B", text, 0, h, map[]);
    var ops := [UpsertOp([a], [v]), UpsertOp([b], [v]), DeleteOp("B")];
    var one, two := Run(EMPTY, ops[..1]), Run(EMPTY, ops[..2]);
    RunNext(EMPTY, ops, 0);
    RunNext(EMPTY, ops, 1);
    RunNext(EMPTY, ops, 2);
    assert ops[..2][..1] == ops[..1] && ops[..1][..0] == ops[..0] == [] && ops[..3] == ops;
    UpsertOneNew(EMPTY, a, v);
    UpsertOneNew(one, b, v);
    assert CleanRun(EMPTY, ops[..0]) && CleanRun(EMPTY, ops[..1]) && CleanRun(EMPTY, ops[..2]);
    RunKeepsInv(EMPTY, ops[..2]);
    hide Upsert, Delete, Inv, NoStaleHash, DistinctChunks, Load, Save;
    DeletionForgetsSharedHash(two, "B", h, 0);
    DeleteSpec(two, "B");
  }

  lemma RunNext(st: Store, ops: seq<Op>, i: nat)
    requires i < |ops|
    ensures Run(st, ops[..i + 1]) == ApplyOp(Run(st, ops[..i]), ops[i])
  {
    assert ops[..i + 1][..i] == ops[..i];
    hide ApplyOp;
  }

  /** Upserting one new chunk files it under the next id. */
  lemma UpsertOneNew(st: Store, record: ChunkRecord, v: Vector)
    requires record.chunkId !in st.idByChunk
    ensures Upsert(st, [record], [v]).Ok?
    ensures var after := Upsert(st, [record], [v]).value;
      && after.records == st.records.Put(st.nextId, record) && after.nextId == st.nextId + 1
      && after.idByChunk == st.idByChunk[record.chunkId := st.nextId]
      && after.idByHash == st.idByHash[record.contentHash := st.nextId]
    ensures DistinctChunks([record]) && NoStaleHash(st, [record])
  {
    assert [record][..0] == [];
    assert Allocate(st, [record]) == AllocateOne(st, record);
  }

  // ---------------------------------------------------------------- searching

  lemma TopKIsTopK(index: seq<Entry>, query: Vector, k: nat)
    requires NoDup(Ids(index))
    ensures IsTopK(index, query, k, TopK(index, query, k))
  {
    hide Score, SortDesc;
    var sorted := SortDesc(index, ScoreOf(query));
    var cut := Slice(sorted, k);
    var hits := TopK(index, query, k);
    SortDescSorted(index, ScoreOf(query));
    IdsOfPermutation(index, sorted);
    assert |multiset(index)| == |multiset(sorted)|;
    forall i, j | 0 <= i < j < |cut| ensures HitIds(hits)[i] != HitIds(hits)[j] {
      assert Ids(sorted)[i] != Ids(sorted)[j];
    }
    forall h | h in hits ensures exists e :: e in index && h == (e.id, Score(query, e.vector)) {
      var i :| 0 <= i < |hits| && hits[i] == h;
      assert sorted[i] in multiset(sorted);
    }
    forall e, h | e in index && h in hits && e.id !in HitIds(hits)
      ensures Score(query, e.vector) <= h.1
    {
      var i :| 0 <= i < |hits| && hits[i] == h;
      assert e in multiset(sorted);
      var j :| 0 <= j < |sorted| && sorted[j] == e;
      assert forall l | 0 <= l < |cut| :: HitIds(hits)[l] == sorted[l].id;
    }
  }

  lemma IdsOfPermutation(a: seq<Entry>, b: seq<Entry>)
    requires multiset(a) == multiset(b) && NoDup(Ids(a))
    ensures NoDup(Ids(b))
  {
    forall i, j | 0 <= i < j < |a| ensures a[i] != a[j] { assert Ids(a)[i] != Ids(a)[j]; }
    PermutationNoDup(a, b);
    forall i, j | 0 <= i < j < |b| ensures Ids(b)[i] != Ids(b)[j] {
      assert b[i] in a && b[j] in a && b[i] != b[j];
      var k :| 0 <= k < |a| && a[k] == b[i];
      var l :| 0 <= l < |a| && a[l] == b[j];
      assert Ids(a)[k] == b[i].id && Ids(a)[l] == b[j].id;
    }
  }

  /** `r` is the search hit at position `i`, live when looked up, and the chunk the search meant. */
  ghost predicate FromHit(st: Store, hits: seq<(nat, real)>, views: seq<Store>, i: nat, r: ScoredChunk) {
    && i < |hits| == |views|
    && GetById(views[i], hits[i].0) == Some(r.chunk)
    && r.score == hits[i].1
    && hits[i].0 in st.records.at
    && r.chunk.chunkId == st.records.at[hits[i].0].chunkId
  }

  /** The results stem from hits at increasing positions below `n`. */
  ghost predicate FromHits(st: Store, hits: seq<(nat, real)>, views: seq<Store>, n: nat, rs: seq<ScoredChunk>)
    decreases |rs|, 1
  {
    rs != [] ==> exists i: nat :: i < n && LastFrom(st, hits, views, i, rs)
  }

  ghost predicate LastFrom(st: Store, hits: seq<(nat, real)>, views: seq<Store>, i: nat, rs: seq<ScoredChunk>)
    requires rs != []
    decreases |rs|, 0
  {
    && FromHit(st, hits, views, i, rs[|rs| - 1])
    && FromHits(st, hits, views, i, rs[..|rs| - 1])
  }

  lemma {:induction false} FromHitsWider(
    st: Store, hits: seq<(nat, real)>, views: seq<Store>, n: nat, m: nat, rs: seq<ScoredChunk>)
    requires FromHits(st, hits, views, n, rs) && n <= m
    ensures FromHits(st, hits, views, m, rs)
  {
    if rs != [] {
      var i: nat :| i < n && LastFrom(st, hits, views, i, rs);
    }
  }

  lemma {:induction false} FromHitsExtend(
    st: Store, hits: seq<(nat, real)>, views: seq<Store>, h: (nat, real), v: Store, n: nat, rs: seq<ScoredChunk>)
    requires |hits| == |views| && FromHits(st, hits, views, n, rs)
    ensures FromHits(st, hits + [h], views + [v], n, rs)
    decreases |rs|
  {
    if rs != [] {
      var i: nat :| i < n && LastFrom(st, hits, views, i, rs);
      FromHitsExtend(st, hits, views, h, v, i, rs[..|rs| - 1]);
      assert LastFrom(st, hits + [h], views + [v], i, rs);
    }
  }

  lemma FromHitsSnoc(
    st: Store, hits: seq<(nat, real)>, views: seq<Store>, n: nat, rs: seq<ScoredChunk>, r: ScoredChunk)
    requires FromHits(st, hits, views, n, rs) && FromHit(st, hits, views, n, r)
    ensures FromHits(st, hits, views, n + 1, rs + [r])
  {
    hide FromHit;
    var all := rs + [r];
    assert all[..|all| - 1] == rs && all[|all| - 1] == r;
    assert LastFrom(st, hits, views, n, all);
  }

  /** Whatever the store does while the hits of a search on `st` are looked up one by one, each
      result is a hit of the search, in search order, live at its lookup and the right chunk. */
  lemma {:induction false} ResolveSpec(st: Store, hits: seq<(nat, real)>, views: seq<Store>)
    requires |views| == |hits|
    requires RecordsInv(st) && forall h | h in hits :: h.0 in st.records.at
    requires forall v | v in views :: IdsStable(st, v)
    ensures FromHits(st, hits, views, |hits|, Resolve(hits, views))
  {
    if hits != [] {
      var n := |hits| - 1;
      var hit, view, hits', views' := hits[n], views[n], hits[..n], views[..n];
      var init := Resolve(hits', views');
      assert view in views && hit in hits;
      assert hits == hits' + [hit] && views == views' + [view];
      ResolveStep(st, hits, views);
      ResolveSpec(st, hits', views');
      hide *;
      FromHitsExtend(st, hits', views', hit, view, n, init);
      FromHitsWider(st, hits, views, n, n + 1, init);
      if Resolve(hits, views) != init {
        FromHitsSnoc(st, hits, views, n, init, Resolve(hits, views)[|init|]);
      }
    }
  }

  lemma ResolveStep(st: Store, hits: seq<(nat, real)>, views: seq<Store>)
    requires |views| == |hits| > 0
    requires RecordsInv(st) && hits[|hits| - 1].0 in st.records.at && IdsStable(st, views[|hits| - 1])
    ensures var n := |hits| - 1;
      var init, all := Resolve(hits[..n], views[..n]), Resolve(hits, views);
      || all == init
      || (|all| == |init| + 1 && all == init + [all[|init|]] && FromHit(st, hits, views, n, all[|init|]))
  {
  }

  /** Every result is one of the hits below `n`. */
  lemma {:induction false} FromHitsMember(
    st: Store, hits: seq<(nat, real)>, views: seq<Store>, n: nat, rs: seq<ScoredChunk>, k: nat) returns (i: nat)
    requires FromHits(st, hits, views, n, rs) && k < |rs|
    ensures i < n && FromHit(st, hits, views, i, rs[k])
    decreases |rs|
  {
    i :| i < n && LastFrom(st, hits, views, i, rs);
    if k < |rs| - 1 {
      i := FromHitsMember(st, hits, views, i, rs[..|rs| - 1], k);
    }
  }

  lemma DifferentHits(st: Store, hits: seq<(nat, real)>, i: nat, j: nat)
    requires RecordsInv(st) && NoDup(HitIds(hits)) && i < j < |hits|
    requires hits[i].0 in st.records.at && hits[j].0 in st.records.at
    ensures st.records.at[hits[i].0].chunkId != st.records.at[hits[j].0].chunkId
  {
    assert HitIds(hits)[i] != HitIds(hits)[j];
  }

  /** No chunk comes twice and scores do not rise. */
  lemma {:induction false} FromHitsOrdered(
    st: Store, hits: seq<(nat, real)>, views: seq<Store>, n: nat, rs: seq<ScoredChunk>)
    requires RecordsInv(st) && NoDup(HitIds(hits)) && FromHits(st, hits, views, n, rs)
    requires forall i, j :: 0 <= i <= j < |hits| ==> hits[i].1 >= hits[j].1
    ensures NoDup(ChunkIds(rs))
    ensures forall i, j :: 0 <= i <= j < |rs| ==> rs[i].score >= rs[j].score
    decreases |rs|
  {
    if rs != [] {
      var init, last := rs[..|rs| - 1], rs[|rs| - 1];
      var i: nat :| i < n && LastFrom(st, hits, views, i, rs);
      FromHitsOrdered(st, hits, views, i, init);
      hide FromHits, RecordsInv, GetById, NoDup;
      forall k | 0 <= k < |init|
        ensures init[k].chunk.chunkId != last.chunk.chunkId && init[k].score >= last.score
      {
        var j := FromHitsMember(st, hits, views, i, init, k);
        DifferentHits(st, hits, j, i);
      }
      assert ChunkIds(rs) == ChunkIds(init) + [last.chunk.chunkId];
      NoDupAppend(ChunkIds(init), last.chunk.chunkId);
    }
  }
}
