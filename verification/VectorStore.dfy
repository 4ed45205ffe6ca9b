/** ml-service/app/embeddings/vector_store.py as a value: the FAISS index entries, the record
    dictionary, the two lookup maps and the id counter, with every locked operation as a
    function. FaissVectorStore.dfy holds the mutable class that implements these functions. */
module VectorStore {
  import opened Collections

  type Vector = seq<real>

  datatype ChunkRecord = ChunkRecord(
    chunkId: string, documentId: string, text: string, chunkIndex: nat, contentHash: string,
    metadata: map<string, string>)

  /** One row of the IndexIDMap2; the index itself does not forbid two rows with one id. */
  datatype Entry = Entry(id: nat, vector: Vector)

  datatype Store = Store(
    index: seq<Entry>,
    records: Dict<nat, ChunkRecord>,
    idByChunk: map<string, nat>,
    idByHash: map<string, nat>,
    nextId: nat)

  datatype ScoredChunk = ScoredChunk(chunk: ChunkRecord, score: real)

  datatype StoreError = LengthMismatch | NonPositiveK

  const EMPTY := Store([], Dict([], map[]), map[], map[], 0)

  function Ids(index: seq<Entry>): seq<nat> {
    Map(index, (e: Entry) => e.id)
  }

  lemma IdsAppend(index: seq<Entry>, e: Entry)
    ensures Ids(index + [e]) == Ids(index) + [e.id]
  {
  }

  lemma IdsConcat(a: seq<Entry>, b: seq<Entry>)
    ensures Ids(a + b) == Ids(a) + Ids(b)
  {
  }

  // ---------------------------------------------------------------- operations

  /** `remove_ids` for one id: every row with that id goes. */
  function RemoveId(index: seq<Entry>, id: nat): seq<Entry> {
    if index == [] then []
    else
      var init, last := index[..|index| - 1], index[|index| - 1];
      RemoveId(init, id) + if last.id == id then [] else [last]
  }

  /** `remove_ids` for a batch. */
  function RemoveIds(index: seq<Entry>, ids: seq<nat>): seq<Entry> {
    if index == [] then []
    else
      var init, last := index[..|index| - 1], index[|index| - 1];
      RemoveIds(init, ids) + if last.id in ids then [] else [last]
  }

  /** The id the next record of a batch is filed under. */
  function IdFor(st: Store, record: ChunkRecord): nat {
    if record.chunkId in st.idByChunk then st.idByChunk[record.chunkId] else st.nextId
  }

  /** One turn of the loop of `upsert`. */
  function AllocateOne(st: Store, record: ChunkRecord): Store {
    var id := IdFor(st, record);
    var known := record.chunkId in st.idByChunk;
    Store(
      if known then RemoveId(st.index, id) else st.index,
      st.records.Put(id, record),
      st.idByChunk[record.chunkId := id],
      st.idByHash[record.contentHash := id],
      if known then st.nextId else st.nextId + 1)
  }

  /** The loop of `upsert` over a batch. */
  function Allocate(st: Store, batch: seq<ChunkRecord>): Store {
    if batch == [] then st else AllocateOne(Allocate(st, batch[..|batch| - 1]), batch[|batch| - 1])
  }

  /** The ids the loop collects. */
  function AllocatedIds(st: Store, batch: seq<ChunkRecord>): (ids: seq<nat>)
    ensures |ids| == |batch|
  {
    if batch == [] then []
    else
      var init, last := batch[..|batch| - 1], batch[|batch| - 1];
      AllocatedIds(st, init) + [IdFor(Allocate(st, init), last)]
  }

  /** The rows `add_with_ids` appends. */
  function Rows(ids: seq<nat>, vectors: seq<Vector>): seq<Entry>
    requires |ids| == |vectors|
  {
    seq(|ids|, i requires 0 <= i < |ids| => Entry(ids[i], vectors[i]))
  }

  function Upsert(st: Store, batch: seq<ChunkRecord>, vectors: seq<Vector>): Result<Store, StoreError> {
    if |batch| != |vectors| then Err(LengthMismatch)
    else if |vectors| == 0 then Ok(st)
    else
      var after := Allocate(st, batch);
      Ok(after.(index := after.index + Rows(AllocatedIds(st, batch), vectors)))
  }

  /** `ids_to_remove`, in dictionary order. */
  function IdsOfDocument(st: Store, documentId: string): seq<nat> {
    OfDocument(st.records.order, st.records.at, documentId)
  }

  function OfDocument(order: seq<nat>, at: map<nat, ChunkRecord>, documentId: string): seq<nat> {
    if order == [] then []
    else
      var id := order[|order| - 1];
      OfDocument(order[..|order| - 1], at, documentId)
      + if id in at && at[id].documentId == documentId then [id] else []
  }

  /** One turn of the loop of `delete_by_document`; the index rows are gone already. */
  function ForgetOne(st: Store, id: nat): Store
    requires id in st.records.at
  {
    var record := st.records.at[id];
    st.(records := st.records.Remove(id),
        idByChunk := st.idByChunk - {record.chunkId},
        idByHash := if record.contentHash in st.idByHash && st.idByHash[record.contentHash] == id
                    then st.idByHash - {record.contentHash} else st.idByHash)
  }

  predicate OfDoc(st: Store, id: nat, documentId: string) {
    id in st.records.at && st.records.at[id].documentId == documentId
  }

  function DocumentSet(st: Store, documentId: string): set<nat> {
    set id | id in st.records.at && OfDoc(st, id, documentId)
  }

  /** The loop of `delete_by_document`; ids that are gone already are skipped. */
  function ForgetAll(st: Store, ids: seq<nat>): Store {
    if ids == [] then st
    else
      var mid, id := ForgetAll(st, ids[..|ids| - 1]), ids[|ids| - 1];
      if id in mid.records.at then ForgetOne(mid, id) else mid
  }

  /** `delete_by_document`: the new store and the number of deleted chunks. */
  function Delete(st: Store, documentId: string): (Store, nat) {
    var ids := IdsOfDocument(st, documentId);
    if ids == [] then (st, 0)
    else (ForgetAll(st.(index := RemoveIds(st.index, ids)), ids), |ids|)
  }

  /** What `_save` writes: the index file and the metadata file. */
  datatype Snapshot = Snapshot(index: seq<Entry>, records: Dict<nat, ChunkRecord>, nextId: nat)

  function Save(st: Store): Snapshot {
    Snapshot(st.index, st.records, st.nextId)
  }

  /** The loop of `_load` over the saved records, in file order. */
  function LoadRecords(st: Store, order: seq<nat>, at: map<nat, ChunkRecord>): Store {
    if order == [] then st
    else
      var mid, id := LoadRecords(st, order[..|order| - 1], at), order[|order| - 1];
      if id in at then LoadOne(mid, id, at[id]) else mid
  }

  function LoadOne(st: Store, id: nat, record: ChunkRecord): Store {
    st.(records := st.records.Put(id, record),
        idByChunk := st.idByChunk[record.chunkId := id],
        idByHash := st.idByHash[record.contentHash := id])
  }

  function Load(snap: Snapshot): Store {
    LoadRecords(EMPTY.(index := snap.index, nextId := snap.nextId), snap.records.order, snap.records.at)
  }

  /** `get_by_chunk_id`. */
  function GetByChunk(st: Store, chunkId: string): Option<ChunkRecord> {
    if chunkId in st.idByChunk then GetById(st, st.idByChunk[chunkId]) else None
  }

  function GetById(st: Store, id: nat): Option<ChunkRecord> {
    if id in st.records.at then Some(st.records.at[id]) else None
  }

  /** `get_by_content_hash`. */
  function GetByHash(st: Store, h: string): Option<ChunkRecord> {
    if h in st.idByHash then GetById(st, st.idByHash[h]) else None
  }

  /** `reconstruct`: the last row stored under the id. */
  function Reconstruct(index: seq<Entry>, id: nat): Option<Vector> {
    if index == [] then None
    else if index[|index| - 1].id == id then Some(index[|index| - 1].vector)
    else Reconstruct(index[..|index| - 1], id)
  }

  /** `get_vector_by_content_hash`. */
  function VectorByHash(st: Store, h: string): Option<Vector> {
    if h in st.idByHash then Reconstruct(st.index, st.idByHash[h]) else None
  }

  /** Searching: `NonPositiveK` stands for FAISS's own assertion on k. */
  ghost predicate IsTopK(index: seq<Entry>, query: Vector, k: nat, hits: seq<(nat, real)>) {
    && |hits| == (if k <= |index| then k else |index|)
    && NoDup(HitIds(hits))
    && (forall h | h in hits :: exists e :: e in index && h == (e.id, Score(query, e.vector)))
    && (forall i, j :: 0 <= i <= j < |hits| ==> hits[i].1 >= hits[j].1)
    && (forall e, h | e in index && h in hits && e.id !in HitIds(hits) :: Score(query, e.vector) <= h.1)
  }

  function ChunkIds(hits: seq<ScoredChunk>): seq<string> {
    Map(hits, (h: ScoredChunk) => h.chunk.chunkId)
  }

  /** A store nothing changes while `n` lookups are made. */
  function Steady(st: Store, n: nat): seq<Store> {
    seq(n, i => st)
  }

  /** FAISS's exhaustive search: the index sorted by score, cut at `k`. */
  function TopK(index: seq<Entry>, query: Vector, k: nat): seq<(nat, real)> {
    Map(Slice(SortDesc(index, ScoreOf(query)), k), AsHit(query))
  }

  function ScoreOf(query: Vector): Entry -> real {
    (e: Entry) => Score(query, e.vector)
  }

  function AsHit(query: Vector): Entry -> (nat, real) {
    (e: Entry) => (e.id, Score(query, e.vector))
  }

  function HitIds(hits: seq<(nat, real)>): seq<nat> {
    Map(hits, (h: (nat, real)) => h.0)
  }

  /** Inner product. */
  function Score(a: Vector, b: Vector): real {
    if a == [] || b == [] then 0.0 else a[0] * b[0] + Score(a[1..], b[1..])
  }

  /** The score is the inner product: it grows with each coordinate by the product of the changes. */
  lemma {:induction false} ScoreIsInnerProduct(a: Vector, b: Vector, i: nat, x: real)
    requires i < |a| && i < |b|
    ensures Score(a, b[i := x]) == Score(a, b) + a[i] * (x - b[i])
  {
    if i == 0 {
      assert b[0 := x][1..] == b[1..];
    } else {
      ScoreIsInnerProduct(a[1..], b[1..], i - 1, x);
      assert b[i := x][1..] == b[1..][i - 1 := x];
    }
  }

  lemma {:induction false} ScoreOfNothing(a: Vector, b: Vector)
    requires forall i | 0 <= i < |b| :: b[i] == 0.0
    ensures Score(a, b) == 0.0
  {
    if a != [] && b != [] {
      ScoreOfNothing(a[1..], b[1..]);
    }
  }

  /** The unlocked record lookups of `search`: `views[i]` is the store when hit `i` is looked up. */
  function Resolve(hits: seq<(nat, real)>, views: seq<Store>): seq<ScoredChunk>
    requires |views| == |hits|
  {
    if hits == [] then []
    else
      var n := |hits| - 1;
      Resolve(hits[..n], views[..n])
      + match GetById(views[n], hits[n].0)
        case Some(record) => [ScoredChunk(record, hits[n].1)]
        case None => []
  }

  // ---------------------------------------------------------------- invariant

  /** The five structures are in step. */
  ghost predicate Inv(st: Store) {
    && RecordsInv(st)
    && NoDup(Ids(st.index))
    && (forall id :: id in Ids(st.index) <==> id in st.records.at)
    && HashInv(st)
  }

  ghost predicate RecordsInv(st: Store) {
    && st.records.Valid()
    && IdsBelow(st.records.at, st.nextId)
    && Inverse(st.records.at, st.idByChunk)
  }

  ghost predicate IdsBelow(at: map<nat, ChunkRecord>, nextId: nat) {
    forall id | id in at :: id < nextId
  }

  /** The chunk map is the exact inverse of the records' chunk ids. */
  ghost predicate Inverse(at: map<nat, ChunkRecord>, idByChunk: map<string, nat>) {
    && (forall c | c in idByChunk :: idByChunk[c] in at && at[idByChunk[c]].chunkId == c)
    && (forall id | id in at :: at[id].chunkId in idByChunk && idByChunk[at[id].chunkId] == id)
  }

  /** Every hash entry points to a live record with that hash. */
  ghost predicate HashInv(st: Store) {
    forall h | h in st.idByHash ::
      st.idByHash[h] in st.records.at && st.records.at[st.idByHash[h]].contentHash == h
  }

  /** The chunk ids of a batch are pairwise different. */
  ghost predicate DistinctChunks(batch: seq<ChunkRecord>) {
    forall i, j :: 0 <= i < j < |batch| ==> batch[i].chunkId != batch[j].chunkId
  }

  /** No record of the batch takes its id away from a hash entry that nothing renews. */
  ghost predicate NoStaleHash(st: Store, batch: seq<ChunkRecord>) {
    forall r | r in batch && r.chunkId in st.idByChunk && st.idByChunk[r.chunkId] in st.records.at ::
      var id := st.idByChunk[r.chunkId];
      var was := st.records.at[id].contentHash;
      was in st.idByHash && st.idByHash[was] == id ==> exists r' :: r' in batch && r'.contentHash == was
  }
}
