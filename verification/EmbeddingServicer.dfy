/** ChunkAndEmbed and DeleteDocumentEmbeddings of ml-service/app/servicers/embeddings.py as sequential
    code over the two mutable stores. Run without interruption they are a run of EmbeddingSystem. */
module EmbeddingServicers {
  import opened Collections
  import opened Chunking
  import opened VectorStore
  import opened VectorStoreUpsert
  import opened EmbeddingSystem
  import K = Keywords
  import F = FaissVectorStores
  import I = KeywordIndexes

  const DEFAULT_CHUNK_SIZE_CHARS := 1000
  const DEFAULT_OVERLAP_CHARS := 150

  datatype Stage = StageChunking | StageDeduping | StageEmbedding | StageUpserting | StageComplete

  datatype Progress = Progress(stage: Stage, total: nat, processed: nat, skipped: nat, chunkIds: seq<string>)

  /** `chunk_size_tokens` and `chunk_overlap_tokens` with Python's `or`: 0 stands for the default. */
  function OrDefault(value: int, default: nat): int {
    if value == 0 then default else value
  }

  /** The vectors the lookups of the first `n` chunks find in one and the same store. */
  function CachedIn(st: Store, chunks: seq<Chunk>, n: nat): (cached: map<nat, Vector>)
    requires n <= |chunks|
    ensures forall i | i in cached :: i < n
  {
    if n == 0 then map[]
    else
      match VectorByHash(st, chunks[n - 1].contentHash)
      case Some(v) => CachedIn(st, chunks, n - 1)[n - 1 := v]
      case None => CachedIn(st, chunks, n - 1)
  }

  /** The keyword index after the first `n` records were added. */
  function IndexedUpTo(k: K.Keywords, records: seq<ChunkRecord>, n: nat): K.Keywords
    requires n <= |records|
  {
    if n == 0 then k
    else
      var r := records[n - 1];
      K.Put(IndexedUpTo(k, records, n - 1), r.chunkId, r.documentId, r.text)
  }

  function NonBlank(metadata: map<string, string>): map<string, string> {
    map k | k in metadata && metadata[k] != "" :: metadata[k]
  }

  function Uuids(uuid: nat -> string, n: nat): (ids: seq<string>)
    ensures |ids| == n
  {
    seq(n, i requires 0 <= i < n => uuid(i))
  }

  /** A chunk is looked up exactly when the store knows its hash, and the count of hits is the size. */
  lemma {:induction false} CachedInSpec(st: Store, chunks: seq<Chunk>, n: nat)
    requires n <= |chunks|
    ensures forall i | 0 <= i < n ::
      (i in CachedIn(st, chunks, n) <==> VectorByHash(st, chunks[i].contentHash).Some?)
      && (i in CachedIn(st, chunks, n) ==> VectorByHash(st, chunks[i].contentHash) == Some(CachedIn(st, chunks, n)[i]))
  {
    if n > 0 {
      hide VectorByHash;
      CachedInSpec(st, chunks, n - 1);
    }
  }

  // ---------------------------------------------------------------- what is stored

  /** The chunk with id `c` is stored with the request's document and non-blank metadata, its position, its text
      and the text's hash, under the vector cached for the hash or else a fresh one, and it is indexed. */
  ghost predicate IsEmbedded(
    before: Store, st: Store, k: K.Keywords, model: Model, c: string, documentId: string, index: nat, text: string,
    metadata: map<string, string>)
  {
    && c in st.idByChunk && st.idByChunk[c] in st.records.at
    && (var r := st.records.at[st.idByChunk[c]];
        && r.chunkId == c && r.documentId == documentId && r.chunkIndex == index
        && r.text == text && r.contentHash == model.hash(text)
        && (forall key :: key in r.metadata <==> key in metadata && metadata[key] != "")
        && (forall key | key in r.metadata :: r.metadata[key] == metadata[key]))
    && Entry(
         st.idByChunk[c],
         match VectorByHash(before, model.hash(text)) case Some(v) => v case None => model.embed(text)) in st.index
    && c in k.texts.at && k.texts.at[c] == text
    && c in k.documents.at && k.documents.at[c] == documentId
  }

  /** Pairwise different among the first `n`. */
  ghost predicate DistinctIdsTo(uuid: nat -> string, n: nat) {
    forall i, j :: 0 <= i < j < n ==> uuid(i) != uuid(j)
  }

  /** An upsert files every record of a batch that repeats no chunk id, under its vector. */
  lemma FiledRecord(st: Store, records: seq<ChunkRecord>, vectors: seq<Vector>, i: nat)
    requires RecordsInv(st) && DistinctChunks(records) && |records| == |vectors| && i < |records|
    ensures var after, c := StoreAfter(st, records, vectors), records[i].chunkId;
      && c in after.idByChunk && after.idByChunk[c] in after.records.at
      && after.records.at[after.idByChunk[c]] == records[i]
      && Entry(after.idByChunk[c], vectors[i]) in after.index
  {
    var mid, ids := Allocate(st, records), AllocatedIds(st, records);
    var after := StoreAfter(st, records, vectors);
    AllocateKeeps(st, records);
    AllocateStores(st, records);
    assert after == mid.(index := mid.index + Rows(ids, vectors));
    hide Allocate, AllocatedIds, StoreAfter, Upsert, DistinctChunks, RecordsInv;
    assert after.index[|mid.index| + i] == Rows(ids, vectors)[i] == Entry(ids[i], vectors[i]);
  }

  lemma {:induction false} IndexedRecord(k: K.Keywords, records: seq<ChunkRecord>, n: nat, i: nat)
    requires DistinctChunks(records) && i < n <= |records|
    ensures var after, r := IndexedUpTo(k, records, n), records[i];
      && r.chunkId in after.texts.at && after.texts.at[r.chunkId] == r.text
      && r.chunkId in after.documents.at && after.documents.at[r.chunkId] == r.documentId
  {
    if i < n - 1 {
      assert records[i].chunkId != records[n - 1].chunkId;
      IndexedRecord(k, records, n - 1, i);
    }
  }

  lemma RecordsAre(chunks: seq<Chunk>, uuid: nat -> string, documentId: string, metadata: map<string, string>)
    ensures var records := RecordsFor(chunks, Uuids(uuid, |chunks|), documentId, metadata);
      && |records| == |chunks|
      && (DistinctIdsTo(uuid, |chunks|) ==> DistinctChunks(records))
      && forall i | 0 <= i < |chunks| ::
           records[i] == ChunkRecord(
             uuid(i), documentId, chunks[i].text, chunks[i].index, chunks[i].contentHash, metadata)
  {
  }

  lemma NonBlankSpec(metadata: map<string, string>)
    ensures forall k :: k in NonBlank(metadata) <==> k in metadata && metadata[k] != ""
    ensures forall k | k in NonBlank(metadata) :: NonBlank(metadata)[k] == metadata[k]
  {
  }

  lemma VectorOf(st: Store, chunks: seq<Chunk>, model: Model, i: nat)
    requires i < |chunks|
    ensures Stacked(chunks, CachedIn(st, chunks, |chunks|), model)[i]
            == match VectorByHash(st, chunks[i].contentHash) case Some(v) => v case None => model.embed(chunks[i].text)
  {
    CachedInSpec(st, chunks, |chunks|);
    hide CachedIn, VectorByHash;
  }

  lemma StoredAndIndexed(
    st: Store, k: K.Keywords, model: Model, chunks: seq<Chunk>, uuid: nat -> string, documentId: string,
    metadata: map<string, string>, i: nat)
    requires RecordsInv(st) && DistinctIdsTo(uuid, |chunks|) && i < |chunks|
    requires chunks[i].index == i && chunks[i].contentHash == model.hash(chunks[i].text)
    ensures var records := RecordsFor(chunks, Uuids(uuid, |chunks|), documentId, NonBlank(metadata));
      var vectors := Stacked(chunks, CachedIn(st, chunks, |chunks|), model);
      IsEmbedded(st, StoreAfter(st, records, vectors), IndexedUpTo(k, records, |chunks|), model, uuid(i), documentId, i,
        chunks[i].text, metadata)
  {
    var records := RecordsFor(chunks, Uuids(uuid, |chunks|), documentId, NonBlank(metadata));
    var vectors := Stacked(chunks, CachedIn(st, chunks, |chunks|), model);
    assert |vectors| == |chunks|;
    RecordsAre(chunks, uuid, documentId, NonBlank(metadata));
    NonBlankSpec(metadata);
    VectorOf(st, chunks, model, i);
    hide RecordsFor, Uuids, Stacked, CachedIn, StoreAfter, IndexedUpTo, NonBlank, RecordsInv, DistinctChunks,
      VectorByHash, DistinctIdsTo;
    FiledRecord(st, records, vectors, i);
    IndexedRecord(k, records, |chunks|, i);
  }

  /** Every text is embedded under its own id and position. */
  ghost predicate AllEmbedded(
    before: Store, st: Store, k: K.Keywords, model: Model, texts: seq<string>, uuid: nat -> string, documentId: string,
    metadata: map<string, string>)
  {
    forall i | 0 <= i < |texts| :: IsEmbedded(before, st, k, model, uuid(i), documentId, i, texts[i], metadata)
  }

  lemma AllStoredAndIndexed(
    st: Store, k: K.Keywords, model: Model, texts: seq<string>, uuid: nat -> string, documentId: string,
    metadata: map<string, string>)
    requires RecordsInv(st) && DistinctIdsTo(uuid, |texts|)
    ensures var chunks := Numbered(texts, model.hash);
      var records := RecordsFor(chunks, Uuids(uuid, |chunks|), documentId, NonBlank(metadata));
      var vectors := Stacked(chunks, CachedIn(st, chunks, |chunks|), model);
      AllEmbedded(st, StoreAfter(st, records, vectors), IndexedUpTo(k, records, |chunks|), model, texts, uuid,
        documentId, metadata)
  {
    var chunks := Numbered(texts, model.hash);
    NumberedTexts(texts, model.hash);
    hide Numbered, IsEmbedded, RecordsInv, DistinctIdsTo, RecordsFor, Uuids, NonBlank, Stacked, CachedIn, StoreAfter,
      IndexedUpTo;
    assert |chunks| == |texts|;
    forall i | 0 <= i < |texts|
      ensures IsEmbedded(st,
        StoreAfter(st, RecordsFor(chunks, Uuids(uuid, |chunks|), documentId, NonBlank(metadata)),
          Stacked(chunks, CachedIn(st, chunks, |chunks|), model)),
        IndexedUpTo(k, RecordsFor(chunks, Uuids(uuid, |chunks|), documentId, NonBlank(metadata)), |chunks|),
        model, uuid(i), documentId, i, texts[i], metadata)
    {
      StoredAndIndexed(st, k, model, chunks, uuid, documentId, metadata, i);
    }
  }

  /** The stores and the progress stream after the chunks with these texts were embedded. */
  ghost predicate Embeds(
    model: Model, texts: seq<string>, uuid: nat -> string, documentId: string, metadata: map<string, string>,
    before: Store, k: K.Keywords, after: Store, k': K.Keywords, progress: seq<Progress>)
  {
    var chunks := Numbered(texts, model.hash);
    var n, ids := |chunks|, Uuids(uuid, |chunks|);
    var cached := CachedIn(before, chunks, n);
    var records := RecordsFor(chunks, ids, documentId, NonBlank(metadata));
    var skipped := |cached|;
    && after == (if n == 0 then before else StoreAfter(before, records, Stacked(chunks, cached, model)))
    && k' == IndexedUpTo(k, records, n)
    && progress == if n == 0 then [Progress(StageChunking, 0, 0, 0, []), Progress(StageComplete, 0, 0, 0, [])]
       else [Progress(StageChunking, n, 0, 0, []), Progress(StageDeduping, n, 0, 0, []),
             Progress(StageEmbedding, n, skipped, skipped, []), Progress(StageUpserting, n, n, skipped, []),
             Progress(StageComplete, n, n, skipped, ids)]
  }

  lemma EmbedsAll(
    model: Model, texts: seq<string>, uuid: nat -> string, documentId: string, metadata: map<string, string>,
    before: Store, k: K.Keywords, after: Store, k': K.Keywords, progress: seq<Progress>)
    requires Embeds(model, texts, uuid, documentId, metadata, before, k, after, k', progress)
    ensures RecordsInv(before) && DistinctIdsTo(uuid, |texts|) ==>
      AllEmbedded(before, after, k', model, texts, uuid, documentId, metadata)
  {
    if texts == [] {
      hide RecordsInv, Embeds, IsEmbedded;
    } else if RecordsInv(before) && DistinctIdsTo(uuid, |texts|) {
      NumberedTexts(texts, model.hash);
      hide RecordsInv, DistinctIdsTo, Numbered, AllEmbedded, RecordsFor, Uuids, CachedIn, Stacked, StoreAfter,
        IndexedUpTo, NonBlank;
      AllStoredAndIndexed(before, k, model, texts, uuid, documentId, metadata);
    }
  }

  class EmbeddingServicer {
    const model: Model
    const store: F.FaissVectorStore
    const keywordIndex: I.KeywordIndex

    constructor (model: Model, store: F.FaissVectorStore, keywordIndex: I.KeywordIndex)
      ensures this.model == model && this.store == store && this.keywordIndex == keywordIndex
    {
      this.model, this.store, this.keywordIndex := model, store, keywordIndex;
    }

    /** The DEDUPING loop: what the store knows is copied out, the rest is listed for the model. */
    method Dedupe(chunks: seq<Chunk>)
      returns (cached: map<nat, Vector>, texts: seq<string>, indices: seq<nat>, skipped: nat)
      ensures cached == CachedIn(store.View(), chunks, |chunks|) && skipped == |cached|
      ensures |texts| == |indices|
      ensures forall k | 0 <= k < |indices| ::
        indices[k] < |chunks| && indices[k] !in cached && texts[k] == chunks[indices[k]].text
      ensures forall i | 0 <= i < |chunks| :: i in cached || i in indices
    {
      hide VectorByHash;
      cached, texts, indices, skipped := map[], [], [], 0;
      for i := 0 to |chunks|
        invariant cached == CachedIn(store.View(), chunks, i) && skipped == |cached|
        invariant |texts| == |indices|
        invariant forall k | 0 <= k < |indices| ::
          indices[k] < i && indices[k] !in cached && texts[k] == chunks[indices[k]].text
        invariant forall j | 0 <= j < i :: j in cached || j in indices
      {
        var existing := store.GetVectorByContentHash(chunks[i].contentHash);
        if existing.Some? {
          cached := cached[i := existing.value];
          skipped := skipped + 1;
        } else {
          texts := texts + [chunks[i].text];
          indices := indices + [i];
        }
      }
    }

    /** The EMBEDDING step and `_stack_vectors`: every chunk has a vector, cached or fresh. */
    method EmbedMissing(chunks: seq<Chunk>, cached: map<nat, Vector>, texts: seq<string>, indices: seq<nat>)
      returns (vectors: seq<Vector>)
      requires |texts| == |indices|
      requires forall i | i in cached :: i < |chunks|
      requires forall k | 0 <= k < |indices| ::
        indices[k] < |chunks| && indices[k] !in cached && texts[k] == chunks[indices[k]].text
      requires forall i | 0 <= i < |chunks| :: i in cached || i in indices
      ensures vectors == Stacked(chunks, cached, model)
    {
      var all := cached;
      var made := Map(texts, model.embed);
      for k := 0 to |indices|
        invariant forall i: nat | i in all ::
          i < |chunks| && all[i] == (if i in cached then cached[i] else model.embed(chunks[i].text))
        invariant forall i | i in cached :: i in all
        invariant forall j | 0 <= j < k :: indices[j] in all
      {
        all := all[indices[k] := made[k]];
      }
      assert forall i | i in indices :: i in all;
      vectors := seq(|chunks|, i requires 0 <= i < |chunks| => all[i]);
    }

    /** One whole ChunkAndEmbed: the sizes are checked before anything happens; otherwise the store gains
        one record per chunk under its vector, the index the same chunks, and the progress is reported. */
    method ChunkAndEmbed(
      documentId: string, rawText: string, chunkSize: int, chunkOverlap: int, metadata: map<string, string>,
      uuid: nat -> string)
      returns (progress: seq<Progress>, error: Option<ChunkerError>)
      requires keywordIndex.Valid()
      modifies store, store.disk, keywordIndex
      ensures keywordIndex.Valid() && (old(store.Synced()) ==> store.Synced())
      ensures var size := if chunkSize == 0 then DEFAULT_CHUNK_SIZE_CHARS else chunkSize;
        var overlap := if chunkOverlap == 0 then DEFAULT_OVERLAP_CHARS else chunkOverlap;
        && (error == None <==> 0 <= overlap < size)
        && (error != None ==>
              progress == [] && store.View() == old(store.View()) && keywordIndex.View() == old(keywordIndex.View()))
        && (error == None ==>
              var texts := ChunkTexts(rawText, size, overlap);
              && Embeds(model, texts, uuid, documentId, metadata, old(store.View()), old(keywordIndex.View()),
                   store.View(), keywordIndex.View(), progress)
              && (RecordsInv(old(store.View())) && DistinctIdsTo(uuid, |texts|) ==>
                    AllEmbedded(
                      old(store.View()), store.View(), keywordIndex.View(), model, texts, uuid, documentId, metadata)))
    {
      hide Embeds, AllEmbedded, RecordsInv, DistinctIdsTo, ChunkTexts, I.KeywordIndex.Valid;
      ghost var st, k := store.View(), keywordIndex.View();
      progress, error := EmbedText(documentId, rawText, chunkSize, chunkOverlap, metadata, uuid);
      if error == None {
        ghost var texts := ChunkTexts(
          rawText, OrDefault(chunkSize, DEFAULT_CHUNK_SIZE_CHARS), OrDefault(chunkOverlap, DEFAULT_OVERLAP_CHARS));
        EmbedsAll(model, texts, uuid, documentId, metadata, st, k, store.View(), keywordIndex.View(), progress);
      }
    }

    method EmbedText(
      documentId: string, rawText: string, chunkSize: int, chunkOverlap: int, metadata: map<string, string>,
      uuid: nat -> string)
      returns (progress: seq<Progress>, error: Option<ChunkerError>)
      requires keywordIndex.Valid()
      modifies store, store.disk, keywordIndex
      ensures keywordIndex.Valid() && (old(store.Synced()) ==> store.Synced())
      ensures var size := OrDefault(chunkSize, DEFAULT_CHUNK_SIZE_CHARS);
        var overlap := OrDefault(chunkOverlap, DEFAULT_OVERLAP_CHARS);
        && (error == None <==> 0 <= overlap < size)
        && (error != None ==>
              progress == [] && store.View() == old(store.View()) && keywordIndex.View() == old(keywordIndex.View()))
        && (error == None ==>
              Embeds(model, ChunkTexts(rawText, size, overlap), uuid, documentId, metadata, old(store.View()),
                old(keywordIndex.View()), store.View(), keywordIndex.View(), progress))
    {
      hide ChunkTexts, Upsert, CachedIn, Stacked, Conserves, GoodChunks, GreedyLayout, OpensWithTail, UnitsOf,
        K.Keywords.Valid, I.KeywordIndex.Valid, StoreAfter, NonBlank, RecordsFor, Uuids;
      var size := OrDefault(chunkSize, DEFAULT_CHUNK_SIZE_CHARS);
      var overlap := OrDefault(chunkOverlap, DEFAULT_OVERLAP_CHARS);
      var chunker := Chunker.Create(size, overlap);
      if chunker.Err? {
        return [], Some(chunker.error);
      }
      var chunks := chunker.value.Chunks(rawText, model.hash);
      error := None;
      progress := [Progress(StageChunking, |chunks|, 0, 0, [])];
      if chunks == [] {
        progress := progress + [Progress(StageComplete, 0, 0, 0, [])];
        return;
      }
      var rest := EmbedChunks(documentId, chunks, metadata, uuid);
      progress := progress + rest;
    }

    /** ChunkAndEmbed from DEDUPING on. */
    method EmbedChunks(documentId: string, chunks: seq<Chunk>, metadata: map<string, string>, uuid: nat -> string)
      returns (progress: seq<Progress>)
      requires keywordIndex.Valid() && chunks != []
      modifies store, store.disk, keywordIndex
      ensures keywordIndex.Valid() && (old(store.Synced()) ==> store.Synced())
      ensures var n, ids := |chunks|, Uuids(uuid, |chunks|);
        var cached := CachedIn(old(store.View()), chunks, n);
        var records := RecordsFor(chunks, ids, documentId, NonBlank(metadata));
        var skipped := |cached|;
        && store.View() == StoreAfter(old(store.View()), records, Stacked(chunks, cached, model))
        && keywordIndex.View() == IndexedUpTo(old(keywordIndex.View()), records, n)
        && progress == [Progress(StageDeduping, n, 0, 0, []),
                        Progress(StageEmbedding, n, skipped, skipped, []), Progress(StageUpserting, n, n, skipped, []),
                        Progress(StageComplete, n, n, skipped, ids)]
    {
      hide Upsert, CachedIn, Stacked, K.Keywords.Valid, I.KeywordIndex.Valid;
      progress := [Progress(StageDeduping, |chunks|, 0, 0, [])];
      var cached, texts, indices, skipped := Dedupe(chunks);
      progress := progress + [Progress(StageEmbedding, |chunks|, skipped, skipped, [])];
      var vectors := EmbedMissing(chunks, cached, texts, indices);
      progress := progress + [Progress(StageUpserting, |chunks|, |chunks|, skipped, [])];
      var ids := Uuids(uuid, |chunks|);
      var records := RecordsFor(chunks, ids, documentId, NonBlank(metadata));
      StoreBoth(records, vectors);
      progress := progress + [Progress(StageComplete, |chunks|, |chunks|, skipped, ids)];
    }

    /** The UPSERTING step: the store takes all records at once, the index one after the other. */
    method StoreBoth(records: seq<ChunkRecord>, vectors: seq<Vector>)
      requires keywordIndex.Valid()
      modifies store, store.disk, keywordIndex
      ensures keywordIndex.Valid() && (old(store.Synced()) ==> store.Synced())
      ensures store.View() == StoreAfter(old(store.View()), records, vectors)
      ensures keywordIndex.View() == IndexedUpTo(old(keywordIndex.View()), records, |records|)
    {
      hide Upsert, I.KeywordIndex.Valid;
      var _ := store.Upsert(records, vectors);
      ghost var st, k := store.View(), keywordIndex.View();
      ghost var synced := store.Synced();
      for i := 0 to |records|
        invariant keywordIndex.Valid() && store.View() == st && store.Synced() == synced
        invariant keywordIndex.View() == IndexedUpTo(k, records, i)
        modifies keywordIndex
      {
        keywordIndex.Upsert(records[i].chunkId, records[i].documentId, records[i].text);
      }
    }

    /** The store is cleared first, then the index; the answer counts the store's chunks. */
    method DeleteDocumentEmbeddings(documentId: string) returns (deleted: nat)
      requires keywordIndex.Valid()
      modifies store, store.disk, keywordIndex
      ensures keywordIndex.Valid() && (old(store.Synced()) ==> store.Synced())
      ensures (store.View(), deleted) == Delete(old(store.View()), documentId)
      ensures keywordIndex.View() == K.Delete(old(keywordIndex.View()), documentId).0
    {
      hide Delete, K.Delete, I.KeywordIndex.Valid;
      deleted := store.DeleteByDocument(documentId);
      var _ := keywordIndex.DeleteByDocument(documentId);
    }
  }

  /** A request for chunks of at most 150 characters is refused unless it also names an overlap, because
      the default overlap applies; and no request can ask for chunks without overlap. */
  lemma SmallChunksNeedAnOverlap(size: int, overlap: int)
    ensures 0 < size <= DEFAULT_OVERLAP_CHARS ==>
      Chunker.Create(OrDefault(size, DEFAULT_CHUNK_SIZE_CHARS), OrDefault(0, DEFAULT_OVERLAP_CHARS))
      == Err(OverlapOutOfRange)
    ensures var c := Chunker.Create(OrDefault(size, DEFAULT_CHUNK_SIZE_CHARS),
      OrDefault(overlap, DEFAULT_OVERLAP_CHARS));
      c.Ok? ==> c.value.overlap > 0
  {
  }

  // ---------------------------------------------------------------- refinement

  /** Where the lookups of an uninterrupted ChunkAndEmbed lead. */
  ghost function LookedUp(
    s: System, r: nat, documentId: string, chunks: seq<Chunk>, metadata: map<string, string>, n: nat): System
    requires n <= |chunks|
  {
    s.(rpcs := s.rpcs[r := Looking(documentId, chunks, metadata, n, CachedIn(s.store, chunks, n))])
  }

  lemma LookupsAreARun(
    s: System, r: nat, documentId: string, chunks: seq<Chunk>, metadata: map<string, string>, model: Model)
    returns (steps: seq<Step>)
    requires r !in s.rpcs && chunks != [] && HashedChunks(chunks, model)
    ensures Possible(s, steps, model)
    ensures After(s, steps, model) == LookedUp(s, r, documentId, chunks, metadata, |chunks|)
  {
    steps := StartIsARun(s, r, documentId, chunks, metadata, model);
    hide *;
    for n := 0 to |chunks|
      invariant Possible(s, steps, model)
      invariant After(s, steps, model) == LookedUp(s, r, documentId, chunks, metadata, n)
    {
      LookupNext(s, r, documentId, chunks, metadata, n, model);
      Extend(s, steps, Lookup(r), model);
      steps := steps + [Lookup(r)];
    }
  }

  lemma StartIsARun(
    s: System, r: nat, documentId: string, chunks: seq<Chunk>, metadata: map<string, string>, model: Model)
    returns (steps: seq<Step>)
    requires r !in s.rpcs && chunks != [] && HashedChunks(chunks, model)
    ensures Possible(s, steps, model)
    ensures After(s, steps, model) == LookedUp(s, r, documentId, chunks, metadata, 0)
  {
    hide HashedChunks, VectorByHash;
    assert Possible(s, [], model);
    Extend(s, [], StartEmbed(r, documentId, chunks, metadata), model);
    steps := [] + [StartEmbed(r, documentId, chunks, metadata)];
  }

  lemma LookupNext(
    s: System, r: nat, documentId: string, chunks: seq<Chunk>, metadata: map<string, string>, n: nat, model: Model)
    requires n < |chunks|
    ensures var at := LookedUp(s, r, documentId, chunks, metadata, n);
      Enabled(at, Lookup(r), model)
        && Apply(at, Lookup(r), model) == LookedUp(s, r, documentId, chunks, metadata, n + 1)
  {
    hide VectorByHash;
  }

  /** Where indexing leads after `n` records. */
  ghost function IndexedTo(s: System, r: nat, documentId: string, records: seq<ChunkRecord>, n: nat): System
    requires n <= |records|
  {
    s.(keywords := IndexedUpTo(s.keywords, records, n), rpcs := s.rpcs[r := Indexing(documentId, records, n)])
  }

  lemma IndexNext(s: System, r: nat, documentId: string, records: seq<ChunkRecord>, n: nat, model: Model)
    requires n < |records|
    ensures var at := IndexedTo(s, r, documentId, records, n);
      Enabled(at, IndexOne(r), model) && Apply(at, IndexOne(r), model) == IndexedTo(s, r, documentId, records, n + 1)
  {
    hide K.Put;
    var at := IndexedTo(s, r, documentId, records, n);
    assert Apply(at, IndexOne(r), model) == AfterIndexing(at, r, at.rpcs[r]);
    assert at.rpcs[r := Indexing(documentId, records, n + 1)] == s.rpcs[r := Indexing(documentId, records, n + 1)];
  }

  lemma IndexingIsARun(
    s: System, before: seq<Step>, t: System, r: nat, documentId: string, records: seq<ChunkRecord>, model: Model)
    returns (steps: seq<Step>)
    requires Possible(s, before, model) && After(s, before, model) == IndexedTo(t, r, documentId, records, 0)
    requires r !in t.rpcs
    ensures Possible(s, steps, model)
    ensures After(s, steps, model) == t.(keywords := IndexedUpTo(t.keywords, records, |records|))
  {
    steps := before;
    hide *;
    for n := 0 to |records|
      invariant Possible(s, steps, model)
      invariant After(s, steps, model) == IndexedTo(t, r, documentId, records, n)
    {
      IndexNext(t, r, documentId, records, n, model);
      Extend(s, steps, IndexOne(r), model);
      steps := steps + [IndexOne(r)];
    }
    FinishLast(t, r, documentId, records, model);
    Extend(s, steps, Finish(r), model);
    steps := steps + [Finish(r)];
  }

  lemma FinishLast(t: System, r: nat, documentId: string, records: seq<ChunkRecord>, model: Model)
    requires r !in t.rpcs
    ensures var at := IndexedTo(t, r, documentId, records, |records|);
      Enabled(at, Finish(r), model)
        && Apply(at, Finish(r), model) == t.(keywords := IndexedUpTo(t.keywords, records, |records|))
  {
    assert t.rpcs[r := Indexing(documentId, records, |records|)] - {r} == t.rpcs;
  }

  /** An uninterrupted ChunkAndEmbed is a run of the state machine, so all its theorems apply. */
  lemma EmbeddingIsARun(
    s: System, r: nat, documentId: string, chunks: seq<Chunk>, metadata: map<string, string>, ids: seq<string>,
    model: Model)
    returns (steps: seq<Step>)
    requires r !in s.rpcs && chunks != [] && HashedChunks(chunks, model)
    requires |ids| == |chunks| && NoDup(ids) && forall c | c in ids :: c !in s.issued
    ensures Possible(s, steps, model)
    ensures var records := RecordsFor(chunks, ids, documentId, metadata);
      After(s, steps, model) == s.(
        store := StoreAfter(s.store, records, Stacked(chunks, CachedIn(s.store, chunks, |chunks|), model)),
        keywords := IndexedUpTo(s.keywords, records, |chunks|),
        issued := s.issued + ToSet(ids))
  {
    var records := RecordsFor(chunks, ids, documentId, metadata);
    var vectors := Stacked(chunks, CachedIn(s.store, chunks, |chunks|), model);
    var t := s.(store := StoreAfter(s.store, records, vectors), issued := s.issued + ToSet(ids));
    hide *;
    steps := LookupsAreARun(s, r, documentId, chunks, metadata, model);
    ReadyNext(s, r, documentId, chunks, metadata, model);
    Extend(s, steps, EmbedMissing(r), model);
    steps := steps + [EmbedMissing(r)];
    StoredNext(s, r, documentId, chunks, metadata, ids, vectors, model);
    Extend(s, steps, UpsertStore(r, ids), model);
    steps := steps + [UpsertStore(r, ids)];
    steps := IndexingIsARun(s, steps, t, r, documentId, records, model);
  }

  lemma ReadyNext(
    s: System, r: nat, documentId: string, chunks: seq<Chunk>, metadata: map<string, string>, model: Model)
    ensures var at := LookedUp(s, r, documentId, chunks, metadata, |chunks|);
      var vectors := Stacked(chunks, CachedIn(s.store, chunks, |chunks|), model);
      && Enabled(at, EmbedMissing(r), model)
      && Apply(at, EmbedMissing(r), model) == s.(rpcs := s.rpcs[r := Ready(documentId, chunks, metadata, vectors)])
  {
    hide CachedIn, Stacked;
    var looking := Looking(documentId, chunks, metadata, |chunks|, CachedIn(s.store, chunks, |chunks|));
    var ready := Ready(
      documentId, chunks, metadata, Stacked(chunks, CachedIn(s.store, chunks, |chunks|), model));
    assert s.rpcs[r := looking][r := ready] == s.rpcs[r := ready];
  }

  lemma StoredNext(
    s: System, r: nat, documentId: string, chunks: seq<Chunk>, metadata: map<string, string>, ids: seq<string>,
    vectors: seq<Vector>, model: Model)
    requires |ids| == |chunks| && NoDup(ids) && forall c | c in ids :: c !in s.issued
    ensures var at := s.(rpcs := s.rpcs[r := Ready(documentId, chunks, metadata, vectors)]);
      var records := RecordsFor(chunks, ids, documentId, metadata);
      var t := s.(store := StoreAfter(s.store, records, vectors), issued := s.issued + ToSet(ids));
      && Enabled(at, UpsertStore(r, ids), model)
      && Apply(at, UpsertStore(r, ids), model) == IndexedTo(t, r, documentId, records, 0)
  {
    hide RecordsFor, StoreAfter, NoDup;
    var ready, indexing := Ready(documentId, chunks, metadata, vectors),
      Indexing(documentId, RecordsFor(chunks, ids, documentId, metadata), 0);
    assert s.rpcs[r := ready][r := indexing] == s.rpcs[r := indexing];
  }
}
