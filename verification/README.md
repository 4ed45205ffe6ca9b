# Verified model of the financial AI platform's core

A Dafny 4.11 model of the parts of the platform where state, concurrency and arithmetic meet:

- **Retrieval engine** (ml-service): the FAISS-backed vector store with its five structures, the embedding
  cache inside `ChunkAndEmbed`, the lazily rebuilt keyword index, rank fusion and `retrieve`.
- **Chunker** (ml-service): the two-level splitter, the hard split and the greedy packer with overlap.
- **Citations** (ml-service): numbered prompts, the fake client's streamed answer and the citation scan.
- **Worker pool and ingestion jobs** (gateway-go): the bounded pool, uploads with deduplication, the job
  pipeline and the in-memory repositories.
- **Evaluation metrics** (ml-service) and the **conversation store** (gateway-go).

`dafny verify dfyconfig.toml` checks everything.

## How it is organised

| files | content |
|---|---|
| Collections, Text | Python lists, dictionaries and the stable sort; white space and `strip` |
| Chunking, ChunkCuts, ChunkBounds | the chunker: methods with the source's loops, proved against functions of the text; where it cuts; texts that reach its bounds |
| VectorStore | the store as a value; VectorStoreUpsert, VectorStoreDelete, VectorStoreLoad and VectorStoreRuns prove what its operations keep, VectorStoreViews what a search sees of half-done ones; FaissVectorStore is the mutable class |
| Keywords, KeywordIndex | the index as a value, and the class with its dirty flag |
| EmbeddingSystem | `ChunkAndEmbed`, `DeleteDocumentEmbeddings` and restarts as interleaved steps; EmbeddingCache and StoreAgreement are the theorems about all runs, StoreOverlap gives the runs that disagree and StoreQuiescence shows that StoreAgreement's guards are exact; EmbeddingServicer is the sequential code, refining the steps |
| Fusion, FusionBounds, Retrieval, PostFilter | reciprocal rank fusion and its bounds, `retrieve`, and when filtering late is exact |
| RetrievalAfterRuns, HybridBounds | what `retrieve` answers after any run, in terms of the stored texts; stores and requests that reach the bound on top_k |
| Markers, Citations | printing and scanning `[N]`, and the round trip |
| WorkerPool | the pool's goroutines as steps |
| Ingestion | uploads, workers and repositories as interleaved steps; JobLifecycle, JobDrain and UploadDedup are the theorems about all runs, UploadOverlap shows that UploadDedup's condition is exact; IngestionService is the sequential code, refining the steps |
| Evaluation, Conversation | scores and percentiles; the capped session histories |

Concurrency is modelled as a state machine whose steps are the atomic actions of the code: one locked store or
repository operation, one channel action, one awaited call. Theorems are about every run of the machine. Objects
that the source mutates are classes; each method is tied to a function of the old state, and the theorems are
proved about these functions. The embedding model, SHA-256, the tokenizer, BM25+ scores, the extractor, the
embedder's answer, UUIDs and clocks are parameters. Scores are exact rationals (Dafny's `real`).

## What the proofs found

- **Deletion can hide cached content** (VectorStoreRuns.DeletionForgetsSharedHash, SharedHashRun): deleting the document
  that owns a hash entry makes the hash unknown although another live chunk has the same content; a restart finds it
  again.
- **Three guards are exactly what agreement of the two stores needs** (StoreQuiescence.CalmIsExact): nothing is stored
  under a half-deleted document, no document is deleted while chunks of it wait to be indexed, and no RPC is given up
  with chunks waiting or with a deletion half done. As long as every step meets them, the stores agree whenever no RPC
  runs. After any step that breaks one, from any state reached until then, the system can go on with guarded steps only
  and come to rest with the stores in disagreement; it need not, since a lucky order of the remaining steps or a restart
  repairs it. The code enforces none of the guards. StoreOverlap.EmbedOverDeletionDisagrees,
  DeletionOverIndexingDisagrees, AbandonedEmbedDisagrees and AbandonedDeletionDisagrees are short runs from the start.
- **Uploads are deduplicated exactly while windows are separate** (UploadOverlap.OverlapIsExact): a check for a content
  can lead to two documents if and only if another upload has found it missing and not created it yet.
- **A repeat can fail while the first upload is still enrolling** (UploadDedup.DuplicateIsAnswered,
  UploadOverlap.JobMissingHappens): between the creation of the document and of its job, a second upload of the same
  bytes finds the document, no job, and returns an error.
- **A refused upload cannot be repeated** (UploadDedup.RefusedUploadIsStuck, UploadOverlap.RefusalHappens): after
  ErrQueueFull the document and its pending job stay; uploading the same bytes again always returns that job, which
  nothing will ever process. Every pool, however large, can refuse.
- **ErrQueueFull does not need busy workers** (WorkerPool.RefusesBesideIdleWorker): the comment of `Submit` says it is
  returned "if every worker is busy and the buffer is already at capacity"; a full buffer alone is enough, also while a
  worker is on its way back to its select.
- **Small chunk sizes are refused** (EmbeddingServicers.SmallChunksNeedAnOverlap): a request with a chunk size of at
  most 150 and no overlap fails, because the default overlap of 150 applies; overlap 0 cannot be requested.
- **Consensus wins exactly below 61 squared** (Fusion.ConsensusExact, FusionBounds.ConsensusLoses): a chunk found at
  ranks p and q (counted from 0) beats every chunk found by one search if and only if p * q < 3721. So top_k = 12 is
  the largest for which hybrid answers always list consensus first: for every larger one a store and an index that
  agree answer some request otherwise (HybridBounds.ThirteenIsTooMany).

## Model

| member | source | states |
|---|---|---|
| Text.StripSpec | ml-service/app/embeddings/chunking.py:53-124 | `strip` cuts exactly the white space before the first and after the last other character |
| Text.NonSpaceJoin | ml-service/app/embeddings/chunking.py:95-106 | joining two texts with a blank and stripping keeps the content of both, in order |
| Chunking.MatchEnd | ml-service/app/embeddings/chunking.py:19-26 | the separator match is the longest one, as greedy repetition finds it |
| Chunking.SplitConserves | ml-service/app/embeddings/chunking.py:61-83 | splitting at either pattern drops white space only |
| ChunkCuts.SplitSpec | ml-service/app/embeddings/chunking.py:19-26 | the pieces and the cut-out gaps rebuild the text; a paragraph gap is a line break, white space and a line break, a sentence gap all the white space behind '.', '!' or '?', each as long as possible; no piece holds another |
| Chunking.HardSplitSpec | ml-service/app/embeddings/chunking.py:127-128 | the slices are non-empty, at most `size` long and conserve the content |
| ChunkCuts.HardSplitSlices | ml-service/app/embeddings/chunking.py:127-128 | the slices concatenate to the text and all but the last have exactly `size` characters |
| ChunkCuts.ParagraphInPlace | ml-service/app/embeddings/chunking.py:66-83 | a paragraph that fits is one unit, stripped; a longer one contributes the units of its sentences, in its place |
| ChunkCuts.SentenceInPlace | ml-service/app/embeddings/chunking.py:74-82 | a sentence that fits is one unit, stripped; a longer one is sliced, in its place |
| Chunking.OverlapTail | ml-service/app/embeddings/chunking.py:113-124 | without overlap nothing, of a short text all, else the last `overlap` characters from behind the first blank among them, if there is one; a stripped text with positive overlap always carries something over |
| Chunking.ParagraphsUnitsSpec | ml-service/app/embeddings/chunking.py:61-83 | the units fit the size, begin with content and conserve the content of all paragraphs |
| Chunking.Chunker.Create | ml-service/app/embeddings/chunking.py:40-50 | accepted exactly when 0 <= overlap < size; the size is checked first |
| Chunking.Chunker.SplitIntoUnits | ml-service/app/embeddings/chunking.py:61-83 | the nested loops compute the unit list, which fits the size and conserves the text |
| Chunking.Chunker.Pack | ml-service/app/embeddings/chunking.py:85-111 | the packing loop computes the chunk list whose conservation, bound and greediness are proved |
| Chunking.PackConserves | ml-service/app/embeddings/chunking.py:85-111 | every chunk is its predecessor's overlap tail and a fresh part; the fresh parts concatenate to the units' content |
| Chunking.PackIsGood | ml-service/app/embeddings/chunking.py:85-111 | every chunk has content and at most size + overlap + 1 characters, at most size without overlap |
| Chunking.PackIsGreedy | ml-service/app/embeddings/chunking.py:85-111 | a chunk is closed only when the next unit would exceed the size |
| Chunking.PackOpens | ml-service/app/embeddings/chunking.py:95-124 | every later chunk opens with the overlap tail of the one before it, up to white space around the tail |
| Chunking.GreedyLayoutIsUnique | ml-service/app/embeddings/chunking.py:85-111 | the greedy layout by cut points determines the chunks |
| ChunkBounds.OversizedUnitNeverOpens | ml-service/app/embeddings/chunking.py:95-109 | no unit of the splitter exceeds the size, so the last `else` of the packing loop is never taken |
| ChunkBounds.LongestChunk | ml-service/app/embeddings/chunking.py:52-128 | for every size and overlap a text has a chunk exactly as long as the bound allows |
| Chunking.ChunkTextsSpec | ml-service/app/embeddings/chunking.py:52-128 | for every text and valid budget: conservation, length bound, greediness, each chunk opening with its predecessor's tail, and no chunks exactly for blank text |
| Chunking.Chunker.Chunks | ml-service/app/embeddings/chunking.py:52-59 | the chunker's result has all these properties; chunk i has index i and the hash of its text |
| VectorStoreUpsert.AllocateKeeps | ml-service/app/embeddings/vector_store.py:102-118 | the upsert loop keeps the chunk map an exact inverse, for a batch of any shape |
| VectorStoreUpsert.UpsertIndex | ml-service/app/embeddings/vector_store.py:96-121 | after an upsert the index has the live ids, each once exactly when the batch repeats no chunk id |
| VectorStoreUpsert.UpsertHashes | ml-service/app/embeddings/vector_store.py:102-118 | every hash entry stays sound exactly when no re-upsert leaves a stale entry |
| VectorStoreUpsert.UpsertKeepsInv | ml-service/app/embeddings/vector_store.py:96-121 | upsert keeps all five structures in step if and only if the batch repeats no chunk id and leaves no stale hash |
| VectorStoreUpsert.FreshUpsert | ml-service/app/embeddings/vector_store.py:96-121 | a batch of new chunks adds exactly its records and vectors and keeps everything else |
| VectorStoreDelete.DeleteSpec | ml-service/app/embeddings/vector_store.py:123-145 | deletion removes exactly the document's records, rows and chunk ids and counts them |
| VectorStoreDelete.DeleteKeepsInv | ml-service/app/embeddings/vector_store.py:123-145 | deletion keeps the invariant and drops a hash exactly when its entry points into the document |
| VectorStoreLoad.LoadKeepsRecords | ml-service/app/embeddings/vector_store.py:190-239 | saving and loading restores index, records, next id and chunk map |
| VectorStoreLoad.LoadSaved | ml-service/app/embeddings/vector_store.py:190-239 | after loading, every hash known before and every live record's hash is found |
| VectorStoreRuns.HashLookups | ml-service/app/embeddings/vector_store.py:178-188 | a known hash leads to a live record with that hash and to that record's vector |
| VectorStoreRuns.RunStable | ml-service/app/embeddings/vector_store.py:82-239 | over any run of upserts, deletions and restarts no id ever denotes two chunks |
| VectorStoreRuns.RunKeepsInv | ml-service/app/embeddings/vector_store.py:82-239 | the five structures stay in step over every run of clean batches, deletions and restarts |
| VectorStoreRuns.DeletionForgetsSharedHash | ml-service/app/embeddings/vector_store.py:134-142 | a deletion can make the hash of a live record unknown until the next load |
| VectorStoreRuns.SharedHashRun | ml-service/app/embeddings/vector_store.py:134-142 | three clean operations from the empty store after which a live record's hash is unknown |
| VectorStoreRuns.TopKIsTopK | ml-service/app/embeddings/vector_store.py:147-153 | sorting and cutting meets the top-k contract assumed of FAISS |
| VectorStore.ScoreIsInnerProduct | ml-service/app/embeddings/vector_store.py:87-87 | the score changes with each coordinate by the product of the other vector's coordinate and the change |
| VectorStoreRuns.ResolveSpec | ml-service/app/embeddings/vector_store.py:155-162 | whatever happens during the unlocked lookups, each result is a hit, live when looked up and the right chunk |
| VectorStoreViews.SearchDuringOperations | ml-service/app/embeddings/vector_store.py:147-162 | the same while operations stand half done under the unlocked lookups: each result is a hit, the right chunk, once, by falling score |
| VectorStoreViews.SeenIsStable | ml-service/app/embeddings/vector_store.py:96-162 | no operation, complete or half done, ever gives an id to another chunk |
| VectorStoreRuns.FromHitsOrdered | ml-service/app/embeddings/vector_store.py:155-162 | search results repeat no chunk and their scores do not rise |
| FaissVectorStores.FaissVectorStore.constructor | ml-service/app/embeddings/vector_store.py:82-94 | a new store is empty or what its directory holds |
| FaissVectorStores.FaissVectorStore.LoadFrom | ml-service/app/embeddings/vector_store.py:211-239 | the load loop rebuilds all maps from the saved records |
| FaissVectorStores.FaissVectorStore.AllocateIds | ml-service/app/embeddings/vector_store.py:102-118 | the loop files every record and collects its id |
| FaissVectorStores.FaissVectorStore.Upsert | ml-service/app/embeddings/vector_store.py:96-121 | the store becomes the upsert's value, or nothing changes on unequal lengths; the disk stays in step |
| FaissVectorStores.FaissVectorStore.DeleteByDocument | ml-service/app/embeddings/vector_store.py:123-145 | the store becomes the deletion's value and the count is returned; the disk stays in step |
| FaissVectorStores.FaissVectorStore.Search | ml-service/app/embeddings/vector_store.py:147-162 | the top-k hits of the index, resolved to records |
| FaissVectorStores.FaissVectorStore.Save | ml-service/app/embeddings/vector_store.py:190-209 | what is on disk is what loading would restore |
| FaissVectorStores.FaissVectorStore.GetByChunkId | ml-service/app/embeddings/vector_store.py:164-167 | the record filed under the chunk id, if any |
| FaissVectorStores.FaissVectorStore.GetByContentHash | ml-service/app/embeddings/vector_store.py:178-181 | the record the hash map points at, if any |
| FaissVectorStores.FaissVectorStore.GetVectorByContentHash | ml-service/app/embeddings/vector_store.py:183-188 | the vector of the record the hash map points at, if any |
| Keywords.RankingSpec | ml-service/app/search/keyword_index.py:74-95 | exactly the chunks sharing a token with the query, once each, by falling score |
| Keywords.SearchSpec | ml-service/app/search/keyword_index.py:74-106 | every match is a chunk with a token in common, scored at its own position for the tokens of the stored texts and of the query; by falling score, ties in dictionary order; what is left out scores no more |
| Keywords.NoTokensNoMatches | ml-service/app/search/keyword_index.py:79-81 | a query without tokens finds nothing |
| Keywords.DeleteSpec | ml-service/app/search/keyword_index.py:60-72 | deletion removes exactly the document's chunks, counts them and keeps the others' texts |
| KeywordIndexes.KeywordIndex.Upsert | ml-service/app/search/keyword_index.py:54-58 | both dictionaries gain the chunk; the cache turns dirty |
| KeywordIndexes.KeywordIndex.DeleteByDocument | ml-service/app/search/keyword_index.py:60-72 | both dictionaries lose the document's chunks; a clean cache stays right when nothing was removed |
| KeywordIndexes.KeywordIndex.RebuildIfDirty | ml-service/app/search/keyword_index.py:97-109 | the cache becomes the one of the current texts |
| KeywordIndexes.KeywordIndex.Search | ml-service/app/search/keyword_index.py:74-95 | the answer is that of an index freshly built from the current texts: own scores, falling, ties in dictionary order, complete up to top_k |
| EmbeddingCache.LookupIsTrue | ml-service/app/servicers/embeddings.py:88-101 | a cache hit copies out the embedding of the chunk's own text |
| EmbeddingCache.StepIsTransparent | ml-service/app/servicers/embeddings.py:88-144 | one step of any RPC, deletions between lookup and upsert, failures and restarts included, keeps stored vectors true |
| EmbeddingCache.CacheIsTransparent | ml-service/app/servicers/embeddings.py:88-144 | in every run every stored vector is the embedding of its record's text |
| EmbeddingCache.RestartKeepsVectors | ml-service/app/embeddings/vector_store.py:190-239 | after a restart every hash known before leads to an equal vector |
| StoreAgreement.StepIsInStep | ml-service/app/servicers/embeddings.py:88-174 | each calm step, overlaps and harmless failures included, keeps the keyword index lagging by exactly the records not yet indexed |
| StoreAgreement.StoresStayInStep | ml-service/app/servicers/embeddings.py:88-174 | in every calm run the index lags exactly by the pending records and half-done deletions |
| StoreAgreement.StoresAgreeAtRest | ml-service/app/servicers/embeddings.py:88-174 | at rest after a calm run both stores hold the same chunk ids, document ids and texts |
| StoreOverlap.StepIsInStepExactly | ml-service/app/servicers/embeddings.py:88-174 | a step keeps the keyword index lagging by exactly the pending records and half-done deletions if and only if it is calm |
| StoreQuiescence.EndOne | ml-service/app/servicers/embeddings.py:140-175 | from any state, with the stores in step or not, any RPC can be brought to its end by calm steps that leave the store alone; waiting chunks end up indexed, a half-deleted document leaves the index, lost and orphaned chunks stay so |
| StoreQuiescence.CalmIsExact | ml-service/app/servicers/embeddings.py:88-175 | a step is calm if and only if no calm continuation of it comes to rest with the stores in disagreement |
| StoreOverlap.AbandonedEmbedDisagrees | ml-service/app/servicers/embeddings.py:140-144 | a run that gives up an embed between store and index ends at rest in disagreement |
| StoreOverlap.AbandonedDeletionDisagrees | ml-service/app/servicers/embeddings.py:169-174 | so does one that gives up a deletion between store and index |
| StoreOverlap.DeletionOverIndexingDisagrees | ml-service/app/servicers/embeddings.py:140-174 | so does one that deletes a document while it is being indexed |
| StoreOverlap.EmbedOverDeletionDisagrees | ml-service/app/servicers/embeddings.py:140-174 | so does one that stores a document between the halves of its deletion |
| StoreOverlap.RestartRepairs | ml-service/app/server.py:60-66 | after any run, calm or not, a restart makes the stores agree |
| StoreAgreement.RestartAgrees | ml-service/app/server.py:64-66 | the startup loop makes the keyword index equal to the loaded store |
| StoreAgreement.RestartIsInStep | ml-service/app/server.py:60-66 | a restart re-establishes agreement from any state, calm or not |
| StoreAgreement.DeletionSteps | ml-service/app/servicers/embeddings.py:163-175 | a whole deletion is a run of the machine |
| EmbeddingServicers.CachedInSpec | ml-service/app/servicers/embeddings.py:93-101 | a chunk is taken from the cache exactly when the store knows its hash |
| EmbeddingServicers.EmbeddingServicer.Dedupe | ml-service/app/servicers/embeddings.py:88-101 | the loop separates known chunks from those to embed and counts the known ones |
| EmbeddingServicers.EmbeddingServicer.EmbedMissing | ml-service/app/servicers/embeddings.py:114-139 | the stacked vectors are the cached or freshly embedded ones, one per chunk |
| EmbeddingServicers.EmbeddingServicer.StoreBoth | ml-service/app/servicers/embeddings.py:141-144 | the store takes all records, the index the same chunks |
| EmbeddingServicers.EmbeddingServicer.ChunkAndEmbed | ml-service/app/servicers/embeddings.py:40-161 | refused exactly for invalid sizes, without effect; otherwise the new store, index and progress stream; the i-th text is stored under the i-th id with the document, the position, the text's hash, exactly the non-blank metadata and its cached or fresh vector, and it is indexed |
| EmbeddingServicers.EmbedsAll | ml-service/app/servicers/embeddings.py:67-144 | with different ids every chunk is stored and indexed with these fields |
| EmbeddingServicers.EmbeddingServicer.DeleteDocumentEmbeddings | ml-service/app/servicers/embeddings.py:163-175 | both stores lose the document; the store's count is returned |
| EmbeddingServicers.SmallChunksNeedAnOverlap | ml-service/app/servicers/embeddings.py:49-53 | sizes up to 150 are refused without an explicit overlap; overlap 0 cannot be had |
| EmbeddingServicers.EmbeddingIsARun | ml-service/app/servicers/embeddings.py:40-161 | an uninterrupted ChunkAndEmbed is a run of the state machine |
| Fusion.FuseSpec | ml-service/app/search/fusion.py:19-30 | one result per chunk that occurs, scored by the sum of its shares, by falling score |
| Fusion.FuseTies | ml-service/app/search/fusion.py:19-30 | chunks of equal score come in the order of their first occurrence in the rankings |
| Fusion.ReciprocalRankFusion | ml-service/app/search/fusion.py:19-30 | the nested loops and the sort compute that fusion, ties included |
| Fusion.ConsensusExact | ml-service/app/search/fusion.py:14-26 | two shares beat the best single share exactly when p * q < 61 * 61 |
| Fusion.ConsensusWins | ml-service/app/search/fusion.py:14-30 | a chunk found by both searches outscores every chunk found by one |
| Fusion.ConsensusFirst | ml-service/app/search/fusion.py:14-30 | in lists of at most 61 the chunks found by both come first |
| Fusion.ConsensusCanLose | ml-service/app/search/fusion.py:14-30 | beyond the bound the top of one list is not outscored |
| FusionBounds.ConsensusLoses | ml-service/app/search/fusion.py:14-30 | for all ranks p and q with p * q >= 3721, two rankings in which that happens |
| HybridBounds.ThirteenIsTooMany | ml-service/app/search/retrieval.py:25-61 | for every top_k from 13 on, a store and an index in agreement and an undisturbed request they answer with a chunk of one search before one both found |
| Fusion.FuseWithNothing | ml-service/app/search/fusion.py:19-30 | fusing with an empty list keeps the other list's order |
| Retrieval.ResolveKeywordHits | ml-service/app/search/retrieval.py:64-70 | the loop resolves and filters the matches in order |
| Retrieval.ResolveMatchesSpec | ml-service/app/search/retrieval.py:64-70 | keyword hits were live and passed the filter when looked up, each chunk once |
| Retrieval.Retrieve | ml-service/app/search/retrieval.py:28-61 | both searches are asked for 5 * top_k and the answer is theirs, filtered, merged by mode and cut; it fails exactly when FAISS refuses the pool |
| Retrieval.ModesSpec | ml-service/app/search/retrieval.py:41-61 | no mode means hybrid; semantic answers ignore the index, keyword answers the vectors |
| Retrieval.AnsweredSearches | ml-service/app/search/retrieval.py:39-52 | what store and index answer is distinct, live, falling and within the pool, while operations go on |
| Retrieval.QuietRequestIsAnswered | ml-service/app/search/retrieval.py:39-52 | an undisturbed request is one of those the hybrid theorems are about |
| Retrieval.HybridIsWellFormed | ml-service/app/search/retrieval.py:39-70 | for every store, index and interleaving of one request: no duplicates, at most top_k, every hit live when found and passing, scores the sum of shares and falling, ties vector hits first |
| Retrieval.HybridPutsConsensusFirst | ml-service/app/search/retrieval.py:39-61 | with top_k at most 12 chunks found by both searches come before all others |
| PostFilter.PostFilterExact | ml-service/app/search/retrieval.py:39-61 | filtering the pool late is a top-k answer over the filtered collection exactly when enough hits survive |
| PostFilter.SmallStoreFiltersExactly | ml-service/app/search/retrieval.py:25-61 | on a store of at most 5 * top_k chunks semantic search filters exactly |
| PostFilter.SemanticIsCutPool | ml-service/app/search/retrieval.py:43-61 | semantic mode returns the filtered and cut pool, resolved |
| PostFilter.SemanticFiltersExactly | ml-service/app/search/retrieval.py:25-61 | what `retrieve` answers in semantic mode on a store of at most 5 * top_k chunks is the exact top_k of the filtered collection, resolved |
| PostFilter.KeywordFiltersExactly | ml-service/app/search/retrieval.py:49-61 | keyword mode filters exactly if and only if the pool kept enough passing chunks |
| PostFilter.SmallIndexFiltersExactly | ml-service/app/search/retrieval.py:25-61 | on an index of at most 5 * top_k chunks keyword search filters exactly |
| RetrievalAfterRuns.SemanticAfterAnyRun | ml-service/app/search/retrieval.py:25-61 | after every run of embeddings, deletions, failures and restarts, semantic search over at most 5 * top_k chunks answers the top_k of the stored chunks that pass, by similarity of their own texts to the query |
| RetrievalAfterRuns.RankedIsStored | ml-service/app/search/retrieval.py:64-70 | while the stores agree, every ranked chunk is found in the store with the text and document the index knows |
| RetrievalAfterRuns.RankingIsResolved | ml-service/app/search/retrieval.py:64-70 | so keyword mode drops no match for want of a record |
| RetrievalAfterRuns.KeywordAfterCalmRun | ml-service/app/search/retrieval.py:49-70 | at rest after every calm run, keyword search over at most 5 * top_k chunks answers the first top_k of all stored chunks that pass and share a token with the query |
| Markers.DecimalReads | ml-service/app/rag/citations.py:15-20 | printing a number and reading it back is the identity |
| Markers.FindAllSpec | ml-service/app/rag/citations.py:15-20 | the non-overlapping scan finds every marker of any text |
| Markers.CitedSpec | ml-service/app/rag/citations.py:19-20 | a number is cited exactly when some marker denotes it |
| Markers.MarkerIsCited | ml-service/app/rag/prompt.py:62-64 | a printed marker is found wherever it stands |
| Markers.MarkerPrefix | ml-service/app/rag/llm_client.py:102-104 | a marker in front of a text adds exactly its number |
| Citations.BuildMessages | ml-service/app/rag/prompt.py:50-71 | system prompt; the turns of a known role, all and in order, each with its words and its speaker; the question behind the numbered texts of the chunks |
| Citations.SummaryMarksChunks | ml-service/app/rag/prompt.py:74-92 | whatever the type, the excerpts cite every chunk's number and the system prompt's own examples do not count |
| Citations.SummaryPrompt | ml-service/app/rag/prompt.py:74-92 | the instruction of the type, or the executive one for a type without; the numbered texts of the chunks |
| Citations.BlockCites | ml-service/app/rag/prompt.py:62-71 | the prompt marks every chunk whatever the chunk texts contain |
| Citations.TokensRebuild | ml-service/app/rag/llm_client.py:108-113 | splitting into words, appending the blanks and joining is the identity |
| Citations.Stream | ml-service/app/rag/llm_client.py:91-124 | the tokens are single words with their blanks, join to the answer to the last user message and are counted |
| Citations.AnswerCites | ml-service/app/rag/llm_client.py:99-106 | the answer cites exactly the numbers its prompt contains |
| Citations.AnswerText | ml-service/app/rag/llm_client.py:99-104 | the answer lists the markers of the cited numbers, increasing, with blanks between them |
| Citations.SortedCitedSpec | ml-service/app/rag/citations.py:26-26 | the cited numbers, increasing and complete |
| Citations.BuildCitations | ml-service/app/rag/citations.py:23-42 | one citation per cited number that has a chunk, by increasing number, with the chunk's ids and the first 240 characters of its text |
| Citations.MarkedChunksAreCited | ml-service/app/rag/citations.py:23-42 | a text that marks every chunk yields each chunk's citation once, in order |
| Citations.QueryRoundTrip | ml-service/app/servicers/rag.py:50-93 | prompt, answer and scan cite every context chunk once, in order |
| Citations.QueryCitations | ml-service/app/servicers/rag.py:50-93 | the whole query path, for arbitrary texts, history and question |
| Citations.SummaryCitations | ml-service/app/servicers/rag.py:95-127 | the whole summary path: nothing for a document without chunks, else one citation per chunk, in order |
| WorkerPool.StepKeepsInv | gateway-go/internal/worker/pool.go:46-100 | every channel action, start, finish, exit, close and cancellation keeps the pool's accounting |
| WorkerPool.RunConserves | gateway-go/internal/worker/pool.go:36-80 | in every reachable state accepted = queued + in flight + processed, first come first taken, within both bounds |
| WorkerPool.StopDrains | gateway-go/internal/worker/pool.go:85-100 | when Stop returned, the unprocessed items are exactly those left in the queue; none without cancellation, if and only if there was a worker or no work |
| WorkerPool.DrainProgresses | gateway-go/internal/worker/pool.go:53-66 | after Close every worker step decreases the work left |
| WorkerPool.DrainIsNeverStuck | gateway-go/internal/worker/pool.go:53-66 | until all workers returned, one can move |
| WorkerPool.DrainTerminates | gateway-go/internal/worker/pool.go:85-100 | the drain takes at most as many steps as there is work |
| WorkerPool.SingleWorkerIsFifo | gateway-go/internal/worker/pool.go:46-66 | one worker finishes items in the order they were accepted |
| WorkerPool.RefusesBesideIdleWorker | gateway-go/internal/worker/pool.go:68-80 | a pool of any size can refuse beside a worker that is not processing, if and only if it has workers |
| JobLifecycle.ActionKeepsLifecycle | gateway-go/internal/ingestion/service.go:168-314 | every action moves stored statuses only along legal edges and keeps each job in the place its status allows |
| JobLifecycle.RunKeepsLifecycle | gateway-go/internal/ingestion/service.go:168-314 | so does every run |
| JobLifecycle.JobsAreAccountedFor | gateway-go/internal/ingestion/service.go:168-314 | unfinished jobs are being submitted, queued, held or refused; CompletedAt marks the finished ones; extracted text survives |
| JobLifecycle.EmbedderSeesExtractedText | gateway-go/internal/ingestion/service.go:212-282 | the embedder runs only after a successful extraction, on its text |
| JobLifecycle.RunEvolves | gateway-go/internal/ingestion/service.go:212-314 | statuses only move forward and finished jobs never change |
| JobLifecycle.RefusedJobStaysPending | gateway-go/internal/ingestion/service.go:175-183 | a job refused by the full queue stays pending for ever |
| JobDrain.PoolMovesByItsSteps | gateway-go/internal/ingestion/service.go:83-183 | every action leaves the pool alone or takes one enabled step of it |
| JobDrain.ActionKeepsPool | gateway-go/internal/ingestion/service.go:83-183 | so the pool's accounting holds in the service |
| JobDrain.DrainProgresses | gateway-go/internal/ingestion/service.go:87-314 | after Close every action of a worker, stage by stage, lowers what is left; no other action raises it |
| JobDrain.DrainIsNeverStuck | gateway-go/internal/ingestion/service.go:87-314 | until all workers returned, some worker can act |
| JobDrain.DrainTerminates | gateway-go/internal/ingestion/service.go:87-314 | the workers act at most as often as there is work, whatever uploads do |
| JobDrain.DrainCanFinish | gateway-go/internal/ingestion/service.go:87-314 | from every state after Close the workers alone can finish |
| JobDrain.DrainFinishesJobs | gateway-go/internal/ingestion/service.go:87-92 | after a drained stop every accepted job is finished |
| UploadDedup.FindByHashSpec | gateway-go/internal/ingestion/memory_repository.go:43-51 | the lookup finds a content's document exactly when there is one |
| UploadDedup.ActionKeepsDedup | gateway-go/internal/ingestion/service.go:130-183 | while no check falls into another upload's check-to-create window, each action keeps documents and jobs unique and both maps in agreement |
| UploadDedup.RunKeepsDedup | gateway-go/internal/ingestion/service.go:130-183 | so does every run |
| UploadDedup.OneDocumentPerContent | gateway-go/internal/ingestion/service.go:130-183 | one document per content, one job per document, missing exactly while its upload is enrolling it |
| UploadDedup.HasJob | gateway-go/internal/ingestion/service.go:164-178 | a document's job is missing exactly between its creation and its job's |
| UploadDedup.DuplicateIsAnswered | gateway-go/internal/ingestion/service.go:133-141 | an upload that found a document changes nothing; it gets the job, or an error exactly while the document is being enrolled |
| UploadDedup.RepeatUpload | gateway-go/internal/ingestion/service.go:130-145 | a repeated upload, whatever else is under way, returns the first document and its job, or the missing-job error exactly while that document is being enrolled; it creates and submits nothing |
| UploadDedup.RefusedUploadIsStuck | gateway-go/internal/ingestion/service.go:133-183 | repeating a refused upload returns the refused job, pending for ever |
| UploadOverlap.OverlapIsExact | gateway-go/internal/ingestion/service.go:133-166 | a check can lead to two documents, without further checks, if and only if it falls into another upload's window |
| UploadOverlap.JobMissingHappens | gateway-go/internal/ingestion/service.go:133-141 | a run with separate windows in which a repeat is answered with the missing-job error |
| UploadOverlap.RefusalHappens | gateway-go/internal/ingestion/service.go:175-183 | for every number of workers and queue size a run that ends in a refused job |
| IngestionServices.MemoryDocumentRepository.Create | gateway-go/internal/ingestion/memory_repository.go:25-31 | both maps gain the document |
| IngestionServices.MemoryDocumentRepository.FindByID | gateway-go/internal/ingestion/memory_repository.go:33-41 | the document, or not found |
| IngestionServices.MemoryDocumentRepository.FindByContentHash | gateway-go/internal/ingestion/memory_repository.go:43-51 | the document last created with the hash, or not found |
| IngestionServices.MemoryJobRepository.Create | gateway-go/internal/ingestion/memory_repository.go:76-82 | the job becomes its document's latest |
| IngestionServices.MemoryJobRepository.Update | gateway-go/internal/ingestion/memory_repository.go:84-92 | a known job is replaced, an unknown one reported without effect |
| IngestionServices.MemoryJobRepository.FindLatestByDocumentID | gateway-go/internal/ingestion/memory_repository.go:104-112 | the document's latest job, or not found |
| IngestionServices.Service.Submit | gateway-go/internal/worker/pool.go:68-80 | handed to a waiting worker, else accepted exactly while the buffer has room, else refused |
| IngestionServices.Service.Upload | gateway-go/internal/ingestion/service.go:130-184 | repositories, pool and answer after an upload; a new document carries the request's file name, type, size, uploader and hash and the stored URI, its job is pending and empty |
| IngestionServices.Service.ProcessJob | gateway-go/internal/ingestion/service.go:212-218 | the job repository after extraction and embedding |
| IngestionServices.Service.Extract | gateway-go/internal/ingestion/service.go:220-261 | the job's own copy and the stored one after a success or any failure |
| IngestionServices.Service.Embed | gateway-go/internal/ingestion/service.go:263-300 | the stored job after a success or failure of the embedder |
| IngestionServices.Service.FailJob | gateway-go/internal/ingestion/service.go:302-314 | the stored job is failed, completed and carries the cause |
| IngestionServices.ProcessingFinishes | gateway-go/internal/ingestion/service.go:212-314 | processing finishes the job: completed exactly when nothing goes wrong, with the embedder's counts, otherwise failed with the first failure; text, tables, pages and metadata are the extractor's whenever it returned a text; other records stay |
| IngestionServices.ProcessingIsARun | gateway-go/internal/ingestion/service.go:212-314 | an uninterrupted processJob is a run of the state machine |
| IngestionServices.UploadIsARun | gateway-go/internal/ingestion/service.go:130-184 | an uninterrupted Upload is a run of the state machine |
| Evaluation.MoreContextNeverHurts | ml-service/app/evaluation/metrics.py:117-169 | appending context chunks never lowers faithfulness or recall; all scores lie between 0 and 1 |
| Evaluation.SupportSpec | ml-service/app/evaluation/metrics.py:117-133 | a sentence is supported when it cites a chunk, has no tokens, or one chunk alone holds at least 0.6 of its tokens |
| Evaluation.ScoresAreShares | ml-service/app/evaluation/metrics.py:136-169 | faithfulness and recall are the shares of supported and of covered sentences |
| Evaluation.PercentileSpec | ml-service/app/evaluation/metrics.py:179-189 | an element with at least pct percent up to it and fewer below it; smallest or largest outside (0, 100] |
| Evaluation.PercentilesRise | ml-service/app/evaluation/metrics.py:179-189 | percentiles rise with pct, so p50 <= p95 |
| Conversation.LastOfLast | gateway-go/internal/conversation/memory_store.go:48-60 | trimming after every append keeps what trimming once would keep |
| Conversation.MemoryStore.AppendTurns | gateway-go/internal/conversation/memory_store.go:48-60 | the session keeps the last 20 of everything appended |
| Conversation.MemoryStore.History | gateway-go/internal/conversation/memory_store.go:62-70 | the end of everything appended since the session began: all of it up to 20 turns |
| Conversation.MemoryStore.PruneOlderThan | gateway-go/internal/conversation/memory_store.go:79-96 | a session stays exactly when its last append was not before the cutoff; the others go from both maps and are counted |
| Conversation.PersistTurns | gateway-go/internal/handlers/rag.go:198-204 | a log of exchanges stays one |
| Conversation.HistoryIsWholeExchanges | gateway-go/internal/conversation/memory_store.go:48-70 | a history of exchanges is the last ten, whole, alternating from the user |

## Left out

- External code: FAISS (tie order, the -1 padding), sentence-transformers, BM25+, SHA-256, UUIDs and the regular-expression engine appear only as contracts or parameters; the hash is injective where a theorem says so.
- Floating point: fused scores, cosine scores and metric ratios are exact rationals.
- Vector dimensions and `float32` conversion; a wrong dimension is FAISS's error.
- CPython's limit of 4300 digits for `int()`: the marker scan reads numbers of any length.
- The metadata filter is an arbitrary predicate; how the filter is built is not modelled.
- Ordering by chunk index in `get_by_document_id` and the gathering of summary chunks.
- Prompt token counts in the usage event; timestamps other than "CompletedAt is set".
- The validation of an upload before it is hashed: file types, the SEC category, the 64 MiB ceiling.
- Panics: sending on the closed queue, stopping twice, starting twice. They are no steps of the model.
- A crash between the two files of `_save`: both are written together here.
- Nothing in the code enforces the calm runs of StoreAgreement or the separate windows of UploadDedup; StoreQuiescence and UploadOverlap show that both conditions are exact. EmbeddingCache needs none.
- Evaluation.PercentileSpec: the rank is computed exactly; in binary floating point `7 / 100 * 100` exceeds 7, so the code's rank may be one higher than stated.
- Context precision and answer relevancy: they are not monotone in the context and add nothing harder.
- Evaluation takes sentence splitting, tokenizing and the citation scan as functions; the scan itself is Markers.Cited.
- gRPC, HTTP handlers, SSE, authentication, rate limiting, caches, object storage, text extraction, metrics, logging, configuration and deployment.
