/** ml-service/app/servicers/embeddings.py as a state machine. Every await hands control to other
    requests, so an RPC is a sequence of steps, each one locked store or index operation, and the
    system interleaves the steps of all running RPCs. Restarting follows ml-service/app/server.py. */
module EmbeddingSystem {
  import opened Collections
  import opened Chunking
  import opened VectorStore
  import K = Keywords

  /** The embedding model, one text at a time, and the content hash. */
  datatype Model = Model(embed: string -> Vector, hash: string -> string)

  ghost predicate Injective(hash: string -> string) {
    forall a, b :: hash(a) == hash(b) ==> a == b
  }

  datatype Rpc =
    // ChunkAndEmbed: chunks before `next` were looked up, hits were copied into `cached`.
    | Looking(
        documentId: string, chunks: seq<Chunk>, metadata: map<string, string>, next: nat, cached: map<nat, Vector>)
    // All vectors are at hand, nothing is stored yet.
    | Ready(documentId: string, chunks: seq<Chunk>, metadata: map<string, string>, vectors: seq<Vector>)
    // Stored; records before `done` are in the keyword index.
    | Indexing(documentId: string, records: seq<ChunkRecord>, done: nat)
    // DeleteDocumentEmbeddings before and after the store was told.
    | Deleting(documentId: string)
    | StoreCleared(documentId: string)

  /** `issued` collects every chunk id ever drawn, so that fresh means never drawn before. */
  datatype System = System(store: Store, keywords: K.Keywords, rpcs: map<nat, Rpc>, issued: set<string>)

  const START := System(EMPTY, K.NONE, map[], {})

  datatype Step =
    | StartEmbed(r: nat, documentId: string, chunks: seq<Chunk>, metadata: map<string, string>)
    | Lookup(r: nat)
    | EmbedMissing(r: nat)
    | UpsertStore(r: nat, ids: seq<string>)
    | IndexOne(r: nat)
    | Finish(r: nat)
    | StartDelete(r: nat, documentId: string)
    | ClearStore(r: nat)
    | ClearKeywords(r: nat)
    | Abandon(r: nat)  // the RPC fails or is cancelled at an await
    | Restart
    | RestartEmpty  // a restart of a server that keeps no directory

  /** The chunks carry the hashes of their texts, as the chunker makes them. */
  predicate HashedChunks(chunks: seq<Chunk>, model: Model) {
    forall c | c in chunks :: c.contentHash == model.hash(c.text)
  }

  function RecordFor(chunk: Chunk, id: string, documentId: string, metadata: map<string, string>): ChunkRecord {
    ChunkRecord(id, documentId, chunk.text, chunk.index, chunk.contentHash, metadata)
  }

  function RecordsFor(
    chunks: seq<Chunk>, ids: seq<string>, documentId: string, metadata: map<string, string>)
    : (records: seq<ChunkRecord>)
    requires |chunks| == |ids|
    ensures |records| == |chunks|
  {
    seq(|chunks|, i requires 0 <= i < |chunks| => RecordFor(chunks[i], ids[i], documentId, metadata))
  }

  /** `_stack_vectors` after the model filled in what the cache did not have. */
  function Stacked(chunks: seq<Chunk>, cached: map<nat, Vector>, model: Model): seq<Vector> {
    seq(|chunks|, i requires 0 <= i < |chunks| => if i in cached then cached[i] else model.embed(chunks[i].text))
  }

  /** `server.py`: the keyword index is filled from every loaded record, in dictionary order. */
  function Reindex(order: seq<nat>, at: map<nat, ChunkRecord>): K.Keywords {
    if order == [] then K.NONE
    else
      var k, id := Reindex(order[..|order| - 1], at), order[|order| - 1];
      if id in at then K.Put(k, at[id].chunkId, at[id].documentId, at[id].text) else k
  }

  ghost predicate Enabled(s: System, step: Step, model: Model) {
    match step
    case StartEmbed(r, _, chunks, _) => r !in s.rpcs && chunks != [] && HashedChunks(chunks, model)
    case Lookup(r) => r in s.rpcs && s.rpcs[r].Looking? && s.rpcs[r].next < |s.rpcs[r].chunks|
    case EmbedMissing(r) => r in s.rpcs && s.rpcs[r].Looking? && s.rpcs[r].next == |s.rpcs[r].chunks|
    case UpsertStore(r, ids) => r in s.rpcs && CanUpsert(s.rpcs[r], ids, s.issued)
    case IndexOne(r) => r in s.rpcs && s.rpcs[r].Indexing? && s.rpcs[r].done < |s.rpcs[r].records|
    case Finish(r) => r in s.rpcs && s.rpcs[r].Indexing? && s.rpcs[r].done == |s.rpcs[r].records|
    case StartDelete(r, _) => r !in s.rpcs
    case ClearStore(r) => r in s.rpcs && s.rpcs[r].Deleting?
    case ClearKeywords(r) => r in s.rpcs && s.rpcs[r].StoreCleared?
    case Abandon(r) => r in s.rpcs
    case Restart => true
    case RestartEmpty => true
  }

  /** The ids drawn for the records are new and pairwise different. */
  ghost predicate CanUpsert(p: Rpc, ids: seq<string>, issued: set<string>) {
    && p.Ready?
    && |ids| == |p.chunks| && NoDup(ids) && forall c | c in ids :: c !in issued
  }

  ghost function Apply(s: System, step: Step, model: Model): System
    requires Enabled(s, step, model)
  {
    match step
    case StartEmbed(r, documentId, chunks, metadata) =>
      s.(rpcs := s.rpcs[r := Looking(documentId, chunks, metadata, 0, map[])])
    case Lookup(r) => s.(rpcs := s.rpcs[r := AfterLookup(s.rpcs[r], s.store)])
    case EmbedMissing(r) =>
      var p := s.rpcs[r];
      s.(rpcs := s.rpcs[r := Ready(p.documentId, p.chunks, p.metadata, Stacked(p.chunks, p.cached, model))])
    case UpsertStore(r, ids) => AfterUpsert(s, r, s.rpcs[r], ids)
    case IndexOne(r) => AfterIndexing(s, r, s.rpcs[r])
    case Finish(r) => s.(rpcs := s.rpcs - {r})
    case StartDelete(r, documentId) => s.(rpcs := s.rpcs[r := Deleting(documentId)])
    case ClearStore(r) => AfterClearing(s, r, s.rpcs[r].documentId)
    case ClearKeywords(r) =>
      s.(keywords := K.Delete(s.keywords, s.rpcs[r].documentId).0, rpcs := s.rpcs - {r})
    case Abandon(r) => s.(rpcs := s.rpcs - {r})
    case Restart => AfterRestart(s)
    case RestartEmpty => s.(store := EMPTY, keywords := K.NONE, rpcs := map[])
  }

  ghost function AfterUpsert(s: System, r: nat, p: Rpc, ids: seq<string>): System
    requires p.Ready? && |ids| == |p.chunks|
  {
    var records := RecordsFor(p.chunks, ids, p.documentId, p.metadata);
    s.(store := StoreAfter(s.store, records, p.vectors),
       rpcs := s.rpcs[r := Indexing(p.documentId, records, 0)],
       issued := s.issued + ToSet(ids))
  }

  ghost function AfterIndexing(s: System, r: nat, p: Rpc): System
    requires p.Indexing? && p.done < |p.records|
  {
    var record := p.records[p.done];
    s.(keywords := K.Put(s.keywords, record.chunkId, record.documentId, record.text),
       rpcs := s.rpcs[r := OneMore(p)])
  }

  function OneMore(p: Rpc): Rpc
    requires p.Indexing?
  {
    Indexing(p.documentId, p.records, p.done + 1)
  }

  ghost function AfterClearing(s: System, r: nat, documentId: string): System {
    s.(store := Delete(s.store, documentId).0, rpcs := s.rpcs[r := StoreCleared(documentId)])
  }

  ghost function AfterRestart(s: System): System {
    var store := Load(Save(s.store));
    s.(store := store, keywords := Reindex(store.records.order, store.records.at), rpcs := map[])
  }

  function AfterLookup(p: Rpc, store: Store): Rpc
    requires p.Looking? && p.next < |p.chunks|
  {
    match VectorByHash(store, p.chunks[p.next].contentHash)
    case Some(v) => p.(next := p.next + 1, cached := p.cached[p.next := v])
    case None => p.(next := p.next + 1)
  }

  function StoreAfter(store: Store, records: seq<ChunkRecord>, vectors: seq<Vector>): Store {
    match Upsert(store, records, vectors) case Ok(after) => after case Err(_) => store
  }

  /** The steps can be taken one after the other from `s`. */
  ghost predicate Possible(s: System, steps: seq<Step>, model: Model)
    decreases |steps|, 0
  {
    steps != [] ==>
      && Possible(s, steps[..|steps| - 1], model)
      && Enabled(After(s, steps[..|steps| - 1], model), steps[|steps| - 1], model)
  }

  ghost function After(s: System, steps: seq<Step>, model: Model): System
    requires Possible(s, steps, model)
    decreases |steps|, 1
  {
    if steps == [] then s
    else Apply(After(s, steps[..|steps| - 1], model), steps[|steps| - 1], model)
  }

  lemma Extend(s: System, steps: seq<Step>, step: Step, model: Model)
    requires Possible(s, steps, model) && Enabled(After(s, steps, model), step, model)
    ensures Possible(s, steps + [step], model)
    ensures After(s, steps + [step], model) == Apply(After(s, steps, model), step, model)
  {
    assert (steps + [step])[..|steps|] == steps;
    hide Enabled, Apply;
  }
}
