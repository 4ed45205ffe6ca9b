/** What the unlocked lookups of a search can see: operations that are half done. Ids keep their chunk even
    then, so every result is the right chunk. */
module VectorStoreViews {
  import opened Collections
  import opened VectorStore
  import opened VectorStoreUpsert
  import opened VectorStoreDelete
  import opened VectorStoreRuns

  /** The store after `n` turns of the loop of an operation; a restart shows nothing in between. */
  function Visible(st: Store, op: Op, n: nat): Store {
    match op
    case UpsertOp(batch, vectors) => if |batch| == |vectors| then Allocate(st, Slice(batch, n)) else st
    case DeleteOp(documentId) =>
      var ids := IdsOfDocument(st, documentId);
      ForgetAll(st.(index := RemoveIds(st.index, ids)), Slice(ids, n))
    case RestartOp => st
  }

  /** A state a lookup can see some time after `st`: whole operations, and perhaps a part of one more. */
  ghost predicate SeenAfter(st: Store, view: Store) {
    exists ops, op, n :: view == Visible(Run(st, ops), op, n)
  }

  lemma HalfUpsertStable(st: Store, batch: seq<ChunkRecord>)
    requires RecordsInv(st)
    ensures IdsStable(st, Allocate(st, batch))
  {
    AllocateKeeps(st, batch);
    hide Allocate, AllocatedIds;
  }

  lemma HalfDeleteStable(st: Store, documentId: string, n: nat)
    requires RecordsInv(st)
    ensures IdsStable(st, Visible(st, DeleteOp(documentId), n))
  {
    var ids := IdsOfDocument(st, documentId);
    var part, bare := Slice(ids, n), st.(index := RemoveIds(st.index, ids));
    DocumentIds(st, documentId);
    assert NoDup(part);
    forall id | id in part ensures id in st.records.at {
      assert id in ids && OfDoc(st, id, documentId);
    }
    hide NoDup, IdsOfDocument, RemoveIds, ForgetAll;
    ForgetAllSpec(bare, part);
  }

  lemma VisibleIsStable(st: Store, op: Op, n: nat)
    requires RecordsInv(st)
    ensures IdsStable(st, Visible(st, op, n))
  {
    match op
    case UpsertOp(batch, vectors) => HalfUpsertStable(st, Slice(batch, n));
    case DeleteOp(documentId) => HalfDeleteStable(st, documentId, n);
    case RestartOp =>
  }

  lemma StableFurther(st: Store, mid: Store, after: Store)
    requires IdsStable(st, mid) && IdsStable(mid, after)
    ensures IdsStable(st, after)
  {
  }

  /** Whatever is seen later, an id still denotes its chunk. */
  lemma SeenIsStable(st: Store, view: Store)
    requires RecordsInv(st) && SeenAfter(st, view)
    ensures IdsStable(st, view)
  {
    var ops, op, n :| view == Visible(Run(st, ops), op, n);
    RunStable(st, ops);
    VisibleIsStable(Run(st, ops), op, n);
    hide *;
    StableFurther(st, Run(st, ops), view);
  }

  lemma NothingSeen(st: Store)
    ensures SeenAfter(st, st)
  {
    assert st == Visible(Run(st, []), RestartOp, 0);
  }

  lemma HitsAreLive(st: Store, query: Vector, k: nat, hits: seq<(nat, real)>)
    requires Inv(st) && IsTopK(st.index, query, k, hits)
    ensures NoDup(HitIds(hits)) && |hits| <= k
    ensures forall h | h in hits :: h.0 in st.records.at
    ensures forall i, j :: 0 <= i <= j < |hits| ==> hits[i].1 >= hits[j].1
  {
    hide NoDup, Score, Inv;
    forall h | h in hits ensures h.0 in st.records.at {
      var e :| e in st.index && h == (e.id, Score(query, e.vector));
      RowIsLive(st, e);
    }
  }

  /** A search whose hits are looked up one by one while other operations run and stand half done: each
      result is a hit, in search order, live at its lookup and the right chunk, and none comes twice. */
  lemma SearchDuringOperations(st: Store, query: Vector, k: nat, hits: seq<(nat, real)>, views: seq<Store>)
    requires Inv(st) && IsTopK(st.index, query, k, hits) && |views| == |hits|
    requires forall v | v in views :: SeenAfter(st, v)
    ensures var r := Resolve(hits, views);
      && FromHits(st, hits, views, |hits|, r)
      && NoDup(ChunkIds(r))
      && forall i, j :: 0 <= i <= j < |r| ==> r[i].score >= r[j].score
  {
    HitsAreLive(st, query, k, hits);
    assert RecordsInv(st);
    hide *;
    forall v | v in views ensures IdsStable(st, v) { SeenIsStable(st, v); }
    ResolveSpec(st, hits, views);
    FromHitsOrdered(st, hits, views, |hits|, Resolve(hits, views));
  }
}
