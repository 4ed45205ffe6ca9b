/** The sequential code behind Ingestion's steps: the two in-memory repositories and the service's
    Upload and processJob. Each is proved against a function of the repositories, and that function
    is what the state machine reaches when the steps run without interruption. */
module IngestionServices {
  import opened Collections
  import opened WorkerPool
  import opened Ingestion

  class MemoryDocumentRepository {
    var byId: map<string, Document>
    var byHash: map<string, string>

    ghost function View(): Documents
      reads this
    {
      Documents(byId, byHash)
    }

    ghost predicate Valid()
      reads this
    {
      forall h | h in byHash :: byHash[h] in byId
    }

    constructor ()
      ensures Valid() && View() == Documents(map[], map[])
    {
      byId, byHash := map[], map[];
    }

    method Create(doc: Document)
      requires Valid()
      modifies this
      ensures Valid() && View() == CreateDocument(old(View()), doc)
      ensures byId == old(byId)[doc.id := doc] && byHash == old(byHash)[doc.contentHash := doc.id]
    {
      byId := byId[doc.id := doc];
      byHash := byHash[doc.contentHash := doc.id];
    }

    method FindByID(id: string) returns (doc: Option<Document>)
      ensures doc.Some? <==> id in View().byId
      ensures doc.Some? ==> doc.value == View().byId[id]
    {
      doc := if id in byId then Some(byId[id]) else None;
    }

    method FindByContentHash(hash: string) returns (doc: Option<Document>)
      requires Valid()
      ensures doc == FindByHash(View(), hash)
      ensures doc.Some? <==> hash in View().byHash
    {
      if hash !in byHash {
        return None;
      }
      doc := Some(byId[byHash[hash]]);
    }
  }

  class MemoryJobRepository {
    var byId: map<string, Job>
    var latestByDocId: map<string, string>

    ghost function View(): Jobs
      reads this
    {
      Jobs(byId, latestByDocId)
    }

    ghost predicate Valid()
      reads this
    {
      forall d | d in latestByDocId :: latestByDocId[d] in byId
    }

    constructor ()
      ensures Valid() && View() == Jobs(map[], map[])
    {
      byId, latestByDocId := map[], map[];
    }

    method Create(job: Job)
      requires Valid()
      modifies this
      ensures Valid() && View() == CreateJob(old(View()), job)
      ensures byId == old(byId)[job.id := job] && latestByDocId == old(latestByDocId)[job.documentId := job.id]
    {
      byId := byId[job.id := job];
      latestByDocId := latestByDocId[job.documentId := job.id];
    }

    method Update(job: Job) returns (known: bool)
      requires Valid()
      modifies this
      ensures Valid() && View() == UpdateJob(old(View()), job)
      ensures known <==> job.id in old(View()).byId
      ensures byId == (if known then old(byId)[job.id := job] else old(byId)) && latestByDocId == old(latestByDocId)
    {
      if job.id !in byId {
        return false;
      }
      byId := byId[job.id := job];
      known := true;
    }

    method FindLatestByDocumentID(documentId: string) returns (job: Option<Job>)
      requires Valid()
      ensures job == FindLatest(View(), documentId)
      ensures job.Some? <==> documentId in View().latest
    {
      if documentId !in latestByDocId {
        return None;
      }
      job := Some(byId[latestByDocId[documentId]]);
    }
  }

  // What the two ml-service calls return.
  type Extractor = Document -> Extraction
  type Embedder = (Document, string, Metadata) -> Embedded

  /** The job repository after processJob. */
  function AfterProcessing(docs: Documents, jobs: Jobs, job: Job, extract: Extractor, embed: Embedder): Jobs {
    var started := MarkExtracting(job);
    var jobs1 := UpdateJob(jobs, started);
    if job.documentId !in docs.byId then UpdateJob(jobs1, MarkFailed(started, LOAD_FAILED))
    else
      var doc := docs.byId[job.documentId];
      match extract(doc)
      case ExtractError(cause) => UpdateJob(jobs1, MarkFailed(started, cause))
      case Text(_, _, _, _) => AfterText(jobs1, doc, WithText(started, extract(doc)), embed)
  }

  function AfterText(jobs: Jobs, doc: Document, job: Job, embed: Embedder): Jobs {
    var sent := MarkEmbedding(job);
    var jobs1 := UpdateJob(jobs, sent);
    match embed(doc, sent.extractedText, sent.metadata)
    case EmbedError(cause) => UpdateJob(jobs1, MarkFailed(sent, cause))
    case Chunks(total, skipped) => UpdateJob(jobs1, MarkCompleted(sent, total, skipped))
  }

  /** A worker that waits in its select: the channel is empty then. */
  predicate MayWait(pool: Pool<Job>, waiting: Option<nat>) {
    waiting.Some? ==> pool.queue == [] && IsIdle(pool, waiting.value)
  }

  /** The send of Submit: to a waiting worker, else into the buffer, else refused. */
  function Submitted(pool: Pool<Job>, job: Job, waiting: Option<nat>): Option<Pool<Job>>
    requires !pool.closed && MayWait(pool, waiting)
  {
    if waiting.Some? then Some(Apply(pool, HandOff(job, waiting.value)))
    else if |pool.queue| < pool.capacity then Some(Apply(pool, Accept(job)))
    else None
  }

  /** The repositories, the pool and the answer after an Upload of a validated request. `stored` is the
      URI the object store returned, if it did; `waiting` a worker waiting when the job is submitted. */
  function Uploaded(
    docs: Documents, jobs: Jobs, pool: Pool<Job>, request: Request, docId: string, stored: Option<string>,
    jobId: string, waiting: Option<nat>)
    : (Documents, Jobs, Pool<Job>, UploadResult)
    requires !pool.closed && MayWait(pool, waiting)
  {
    match FindByHash(docs, request.contentHash)
    case Some(doc) =>
      (docs, jobs, pool, match FindLatest(jobs, doc.id) case Some(job) => Reused(doc, job) case None => JobMissing)
    case None =>
      match stored
      case None => (docs, jobs, pool, StoreFailed)
      case Some(uri) =>
        var doc := DocumentFor(request, docId, uri);
        var job := NewJob(jobId, docId);
        var docs', jobs' := CreateDocument(docs, doc), CreateJob(jobs, job);
        match Submitted(pool, job, waiting)
        case Some(pool') => (docs', jobs', pool', Created(doc, job))
        case None => (docs', jobs', pool, QueueFull)
  }

  /** The uploaded file's document carries what the request says of it, and its job has not begun. */
  ghost predicate IsEnrolled(docs: Documents, jobs: Jobs, request: Request, docId: string, uri: string, jobId: string) {
    && docId in docs.byId && request.contentHash in docs.byHash && docs.byHash[request.contentHash] == docId
    && (var doc := docs.byId[docId];
        && doc.id == docId && doc.filename == request.filename && doc.docType == request.docType
        && doc.storageUri == uri && doc.contentHash == request.contentHash
        && doc.size == request.size && doc.uploadedBy == request.uploadedBy)
    && jobId in jobs.byId && docId in jobs.latest && jobs.latest[docId] == jobId
    && (var job := jobs.byId[jobId];
        && job.id == jobId && job.documentId == docId && job.status == Pending && !job.completed
        && job.error == "" && job.extractedText == "" && job.metadata == NO_METADATA
        && job.tableCount == job.pageCount == job.chunkCount == job.chunksSkipped == 0)
  }

  lemma EnrolledFields(docs: Documents, jobs: Jobs, request: Request, docId: string, uri: string, jobId: string)
    ensures var doc, job := DocumentFor(request, docId, uri), NewJob(jobId, docId);
      var docs', jobs' := CreateDocument(docs, doc), CreateJob(jobs, job);
      && IsEnrolled(docs', jobs', request, docId, uri, jobId)
      && docs'.byId[docId] == doc && jobs'.byId[jobId] == job
  {
  }

  class Service {
    const docs: MemoryDocumentRepository
    const jobs: MemoryJobRepository
    var pool: Pool<Job>

    ghost predicate Valid()
      reads this, docs, jobs
    {
      docs.Valid() && jobs.Valid()
    }

    constructor (docs: MemoryDocumentRepository, jobs: MemoryJobRepository, workers: nat, queueSize: nat)
      requires docs.Valid() && jobs.Valid()
      ensures Valid() && this.docs == docs && this.jobs == jobs && pool == NewPool(workers, queueSize)
    {
      this.docs, this.jobs, this.pool := docs, jobs, NewPool(workers, queueSize);
    }

    /** The select of the pool's Submit. */
    method Submit(job: Job, waiting: Option<nat>) returns (accepted: bool)
      requires !pool.closed && MayWait(pool, waiting)
      modifies `pool
      ensures accepted <==> waiting.Some? || |old(pool).queue| < old(pool).capacity
      ensures match Submitted(old(pool), job, waiting)
              case Some(after) => accepted && pool == after
              case None => !accepted && pool == old(pool)
    {
      accepted := true;
      if waiting.Some? {
        pool := Apply(pool, HandOff(job, waiting.value));
      } else if |pool.queue| < pool.capacity {
        pool := Apply(pool, Accept(job));
      } else {
        accepted := false;
      }
    }

    method Upload(request: Request, docId: string, stored: Option<string>, jobId: string, waiting: Option<nat>)
      returns (result: UploadResult)
      requires Valid() && !pool.closed && MayWait(pool, waiting)
      modifies `pool, docs, jobs
      ensures Valid()
      ensures (docs.View(), jobs.View(), pool, result)
              == Uploaded(old(docs.View()), old(jobs.View()), old(pool), request, docId, stored, jobId, waiting)
      ensures result.Created? || result.QueueFull? ==>
        && stored.Some? && IsEnrolled(docs.View(), jobs.View(), request, docId, stored.value, jobId)
      ensures result.Created? ==> result.doc == docs.View().byId[docId] && result.job == jobs.View().byId[jobId]
    {
      hide CreateDocument, CreateJob, FindByHash, FindLatest, Apply, IsEnrolled;
      var existing := docs.FindByContentHash(request.contentHash);
      if existing.Some? {
        var job := jobs.FindLatestByDocumentID(existing.value.id);
        if job == None {
          return JobMissing;
        }
        return Reused(existing.value, job.value);
      }
      if stored == None {
        return StoreFailed;
      }
      var doc := DocumentFor(request, docId, stored.value);
      docs.Create(doc);
      var job := NewJob(jobId, docId);
      jobs.Create(job);
      EnrolledFields(old(docs.View()), old(jobs.View()), request, docId, stored.value, jobId);
      var accepted := Submit(job, waiting);
      if !accepted {
        return QueueFull;
      }
      result := Created(doc, job);
    }

    /** The worker's own copy of the job goes through `extract` and `embed`; every status is stored. */
    method ProcessJob(job: Job, extract: Extractor, embed: Embedder)
      requires Valid()
      modifies jobs
      ensures Valid()
      ensures jobs.View() == AfterProcessing(docs.View(), old(jobs.View()), job, extract, embed)
    {
      hide UpdateJob, MarkExtracting, MarkEmbedding, MarkCompleted, MarkFailed, WithText;
      var own, doc := Extract(job, extract);
      if doc.Some? {
        Embed(own, doc.value, embed);
      }
    }

    method Extract(job: Job, extract: Extractor) returns (own: Job, doc: Option<Document>)
      requires Valid()
      modifies jobs
      ensures Valid()
      ensures doc.Some? <==> job.documentId in docs.View().byId && extract(docs.View().byId[job.documentId]).Text?
      ensures doc.Some? ==>
        && doc.value == docs.View().byId[job.documentId]
        && own == WithText(MarkExtracting(job), extract(doc.value))
        && jobs.View() == UpdateJob(old(jobs.View()), MarkExtracting(job))
      ensures doc == None ==>
        jobs.View() == UpdateJob(UpdateJob(old(jobs.View()), MarkExtracting(job)),
          MarkFailed(MarkExtracting(job),
            if job.documentId in docs.View().byId then extract(docs.View().byId[job.documentId]).cause
            else LOAD_FAILED))
    {
      hide UpdateJob;
      own := job.(status := Extracting);
      var known := jobs.Update(own);
      doc := docs.FindByID(own.documentId);
      if doc == None {
        FailJob(own, LOAD_FAILED);
        return;
      }
      var response := extract(doc.value);
      if response.ExtractError? {
        FailJob(own, response.cause);
        doc := None;
        return;
      }
      own := own.(extractedText := response.text, tableCount := response.tables, pageCount := response.pages);
      if response.inferred.Some? {
        own := own.(metadata := response.inferred.value);
      }
    }

    method Embed(job: Job, doc: Document, embed: Embedder)
      requires Valid()
      modifies jobs
      ensures Valid()
      ensures jobs.View() == AfterText(old(jobs.View()), doc, job, embed)
    {
      hide UpdateJob;
      var own := job.(status := Embedding);
      var known := jobs.Update(own);
      var progress := embed(doc, own.extractedText, own.metadata);
      if progress.EmbedError? {
        FailJob(own, progress.cause);
        return;
      }
      own := own.(status := Completed, chunkCount := progress.total, chunksSkipped := progress.skipped,
        completed := true);
      known := jobs.Update(own);
    }

    method FailJob(job: Job, cause: string)
      requires Valid()
      modifies jobs
      ensures Valid() && jobs.View() == UpdateJob(old(jobs.View()), MarkFailed(job, cause))
    {
      hide UpdateJob;
      var known := jobs.Update(job.(status := Failed, error := cause, completed := true));
    }
  }

  // ---------------------------------------------------------------- what the functions promise

  /** The first thing that goes wrong for a job, if anything does. */
  function FirstFailure(docs: Documents, job: Job, extract: Extractor, embed: Embedder): Option<string> {
    if job.documentId !in docs.byId then Some(LOAD_FAILED)
    else
      var doc := docs.byId[job.documentId];
      match extract(doc)
      case ExtractError(cause) => Some(cause)
      case Text(text, _, _, inferred) =>
        match embed(doc, text, match inferred case Some(m) => m case None => job.metadata)
        case EmbedError(cause) => Some(cause)
        case Chunks(_, _) => None
  }

  lemma TextFinishes(jobs: Jobs, doc: Document, job: Job, embed: Embedder)
    requires job.id in jobs.byId
    ensures var after, r := AfterText(jobs, doc, job, embed), embed(doc, job.extractedText, job.metadata);
      && job.id in after.byId && after.latest == jobs.latest
      && var done := after.byId[job.id];
      && after.byId == jobs.byId[job.id := done]
      && done.id == job.id && done.documentId == job.documentId && done.completed
      && done.extractedText == job.extractedText
      && done.tableCount == job.tableCount && done.pageCount == job.pageCount && done.metadata == job.metadata
      && (match r
          case Chunks(total, skipped) =>
            && done.status == Completed && done.error == job.error
            && done.chunkCount == total && done.chunksSkipped == skipped
          case EmbedError(cause) =>
            && done.status == Failed && done.error == cause
            && done.chunkCount == job.chunkCount && done.chunksSkipped == job.chunksSkipped)
  {
  }

  /** What the embedder is asked for and answers, once the extractor returned a text. */
  function EmbedAnswer(doc: Document, job: Job, extract: Extractor, embed: Embedder): Embedded
    requires extract(doc).Text?
  {
    embed(doc, extract(doc).text, match extract(doc).inferred case Some(m) => m case None => job.metadata)
  }

  /** Processing finishes the job and touches no other record: completed exactly when nothing goes wrong, with the
      embedder's counts, otherwise failed with the first failure; what was extracted survives a failing embedder. */
  lemma ProcessingFinishes(docs: Documents, jobs: Jobs, job: Job, extract: Extractor, embed: Embedder)
    requires job.id in jobs.byId
    ensures var after := AfterProcessing(docs, jobs, job, extract, embed);
      && job.id in after.byId && after.latest == jobs.latest
      && var done := after.byId[job.id];
      && after.byId == jobs.byId[job.id := done]
      && done.id == job.id && done.documentId == job.documentId && done.completed
      && (match FirstFailure(docs, job, extract, embed)
          case None => done.status == Completed && done.error == job.error
          case Some(cause) => done.status == Failed && done.error == cause)
      && (if job.documentId in docs.byId && extract(docs.byId[job.documentId]).Text? then
            var doc := docs.byId[job.documentId];
            var e := extract(doc);
            && done.extractedText == e.text && done.tableCount == e.tables && done.pageCount == e.pages
            && (e.inferred.Some? ==> done.metadata == e.inferred.value)
            && (e.inferred == None ==> done.metadata == job.metadata)
            && (match EmbedAnswer(doc, job, extract, embed)
                case Chunks(total, skipped) => done.chunkCount == total && done.chunksSkipped == skipped
                case EmbedError(_) => done.chunkCount == job.chunkCount && done.chunksSkipped == job.chunksSkipped)
          else
            && done.extractedText == job.extractedText && done.metadata == job.metadata
            && done.tableCount == job.tableCount && done.pageCount == job.pageCount
            && done.chunkCount == job.chunkCount && done.chunksSkipped == job.chunksSkipped)
  {
    if job.documentId in docs.byId {
      var doc := docs.byId[job.documentId];
      if extract(doc).Text? {
        TextFinishes(UpdateJob(jobs, MarkExtracting(job)), doc, WithText(MarkExtracting(job), extract(doc)), embed);
      }
    }
    hide AfterText;
  }

  /** Running processJob to the end is a run of the worker's actions of the state machine. */
  lemma ProcessingIsARun(s: System, w: nat, extract: Extractor, embed: Embedder) returns (actions: seq<Action>)
    requires AtStage(s, w, Fresh)
    ensures Run(s, actions)
    ensures var t := Reached(s, actions);
      && t.jobs == AfterProcessing(s.docs, s.jobs, s.works[w].job, extract, embed)
      && t.docs == s.docs && t.uploads == s.uploads && t.pool == s.pool && AtStage(t, w, Over)
  {
    var job := s.works[w].job;
    var started := MarkExtracting(job);
    assert Run(s, []);
    Extend(s, [], StartExtract(w));
    var s1 := Stored(s, w, started, Started);
    assert Reached(s, [] + [StartExtract(w)]) == s1;
    hide Run, Reached, MarkExtracting, MarkFailed, UpdateJob, WithText, MarkEmbedding, MarkCompleted;
    actions := [] + [StartExtract(w)];
    assert started.documentId == job.documentId by { StartedDocument(job); }
    Extend(s, actions, Load(w));
    actions := actions + [Load(w)];
    if job.documentId in s.docs.byId {
      var doc := s.docs.byId[job.documentId];
      var e := extract(doc);
      Extend(s, actions, ExtractReturns(w, e));
      actions := actions + [ExtractReturns(w, e)];
      if e.Text? {
        var rest := EmbeddingIsARun(Reached(s, actions), w, doc, embed);
        Chain(s, actions, rest);
        actions := actions + rest;
      }
    }
  }

  lemma StartedDocument(job: Job)
    ensures MarkExtracting(job).documentId == job.documentId
  {
  }

  lemma EmbeddingIsARun(s: System, w: nat, doc: Document, embed: Embedder) returns (actions: seq<Action>)
    requires AtStage(s, w, GotText(doc))
    ensures Run(s, actions)
    ensures var t := Reached(s, actions);
      && t.jobs == AfterText(s.jobs, doc, s.works[w].job, embed)
      && t.docs == s.docs && t.uploads == s.uploads && t.pool == s.pool && AtStage(t, w, Over)
  {
    var sent := MarkEmbedding(s.works[w].job);
    var r := embed(doc, sent.extractedText, sent.metadata);
    assert Run(s, []);
    Extend(s, [], StartEmbed(w));
    assert Reached(s, [] + [StartEmbed(w)]) == Stored(s, w, sent, Sent(doc));
    hide Run, Reached, MarkFailed, UpdateJob, MarkEmbedding, MarkCompleted;
    actions := [] + [StartEmbed(w)];
    Extend(s, actions, EmbedReturns(w, r));
    actions := actions + [EmbedReturns(w, r)];
  }

  /** An uninterrupted Upload is a run of its actions. */
  lemma UploadIsARun(
    s: System, u: nat, request: Request, docId: string, stored: Option<string>, jobId: string, waiting: Option<nat>)
    returns (actions: seq<Action>)
    requires u !in s.uploads && docId !in s.issued && jobId !in s.issued && docId != jobId
    requires !s.pool.closed && MayWait(s.pool, waiting)
    ensures Run(s, actions)
    ensures var t := Reached(s, actions);
      && u in t.uploads && t.uploads[u].Finished?
      && (t.docs, t.jobs, t.pool, t.uploads[u].result)
         == Uploaded(s.docs, s.jobs, s.pool, request, docId, stored, jobId, waiting)
  {
    var t := AfterCheck(s, u, request);
    CheckedAt(s, u, request);
    actions := CheckIsARun(s, u, request);
    var rest;
    if FindByHash(s.docs, request.contentHash).Some? {
      rest := FoundIsARun(t, u, FindByHash(s.docs, request.contentHash).value);
    } else if stored == None {
      rest := NotStoredIsARun(t, u);
    } else {
      rest := StoredIsARun(t, u, request, docId, stored.value, jobId, waiting);
    }
    hide FindByHash, FindLatest, CreateDocument, CreateJob, Run, Reached, Submitted, AfterCheck, AtUpload,
      DocumentFor, MayWait;
    Chain(s, actions, rest);
    actions := actions + rest;
  }

  lemma CheckedAt(s: System, u: nat, request: Request)
    ensures var t := AfterCheck(s, u, request);
      && t.docs == s.docs && t.jobs == s.jobs && t.pool == s.pool && t.issued == s.issued
      && u in t.uploads && t.uploads[u] == match FindByHash(s.docs, request.contentHash)
                                           case Some(doc) => Duplicate(doc) case None => Storing(request)
  {
    hide FindByHash;
  }

  lemma FoundIsARun(s: System, u: nat, doc: Document) returns (actions: seq<Action>)
    requires u in s.uploads && s.uploads[u] == Duplicate(doc)
    ensures Run(s, actions) && u in Reached(s, actions).uploads
    ensures var t := Reached(s, actions);
      && (t.docs, t.jobs, t.pool) == (s.docs, s.jobs, s.pool)
      && t.uploads[u] == Finished(match FindLatest(s.jobs, doc.id)
                                  case Some(job) => Reused(doc, job) case None => JobMissing)
  {
    hide FindLatest;
    assert Run(s, []);
    Extend(s, [], FindJob(u));
    actions := [] + [FindJob(u)];
    hide Run, Reached;
  }

  lemma NotStoredIsARun(s: System, u: nat) returns (actions: seq<Action>)
    requires u in s.uploads && s.uploads[u].Storing?
    ensures Run(s, actions) && u in Reached(s, actions).uploads
    ensures var t := Reached(s, actions);
      (t.docs, t.jobs, t.pool, t.uploads[u]) == (s.docs, s.jobs, s.pool, Finished(StoreFailed))
  {
    assert Run(s, []);
    Extend(s, [], PutFails(u));
    actions := [] + [PutFails(u)];
    hide Run, Reached;
  }

  lemma StoredIsARun(
    s: System, u: nat, request: Request, docId: string, uri: string, jobId: string, waiting: Option<nat>)
    returns (actions: seq<Action>)
    requires u in s.uploads && s.uploads[u] == Storing(request) && docId !in s.issued && jobId !in s.issued
    requires docId != jobId && !s.pool.closed && MayWait(s.pool, waiting)
    ensures Run(s, actions)
    ensures var t, doc, job := Reached(s, actions), DocumentFor(request, docId, uri), NewJob(jobId, docId);
      && u in t.uploads && t.docs == CreateDocument(s.docs, doc) && t.jobs == CreateJob(s.jobs, job)
      && match Submitted(s.pool, job, waiting)
         case Some(pool) => (t.pool, t.uploads[u]) == (pool, Finished(Created(doc, job)))
         case None => (t.pool, t.uploads[u]) == (s.pool, Finished(QueueFull))
  {
    hide CreateDocument, CreateJob, Submitted, MayWait;
    assert Run(s, []);
    Extend(s, [], Put(u, docId, uri));
    var put := [] + [Put(u, docId, uri)];
    hide Run, Reached;
    var rest := EnrollingIsARun(Reached(s, put), u, DocumentFor(request, docId, uri), jobId, waiting);
    Chain(s, put, rest);
    actions := put + rest;
  }

  lemma CheckIsARun(s: System, u: nat, request: Request) returns (actions: seq<Action>)
    requires u !in s.uploads
    ensures Run(s, actions) && Reached(s, actions) == AfterCheck(s, u, request)
  {
    hide FindByHash;
    assert Run(s, []);
    Extend(s, [], Begin(u, request));
    actions := [] + [Begin(u, request)];
    Extend(s, actions, Check(u));
    actions := actions + [Check(u)];
    hide Run, Reached;
    forall pc ensures AtUpload(AtUpload(s, u, Checking(request)), u, pc) == AtUpload(s, u, pc) {
      assert s.uploads[u := Checking(request)][u := pc] == s.uploads[u := pc];
    }
  }

  /** The two creations of an upload. */
  lemma CreationsUnfold(s: System, u: nat, doc: Document, jobId: string)
    requires u in s.uploads && s.uploads[u] == Creating(doc) && jobId !in s.issued
    ensures Can(s, CreateDoc(u))
    ensures var s1 := Do(s, CreateDoc(u));
      && Can(s1, Enroll(u, jobId))
      && var s2, job := Do(s1, Enroll(u, jobId)), NewJob(jobId, doc.id);
        && u in s2.uploads && s2.uploads[u] == Submitting(doc, job) && s2.pool == s.pool
        && s2.docs == CreateDocument(s.docs, doc) && s2.jobs == CreateJob(s.jobs, job)
  {
    hide CreateDocument, CreateJob, NewJob;
  }

  function Submission(s: System, u: nat, waiting: Option<nat>): Action {
    if waiting.Some? then SubmitHanded(u, waiting.value)
    else if |s.pool.queue| < s.pool.capacity then SubmitQueued(u) else SubmitFull(u)
  }

  lemma SubmissionUnfold(s: System, u: nat, doc: Document, job: Job, waiting: Option<nat>)
    requires u in s.uploads && s.uploads[u] == Submitting(doc, job)
    requires !s.pool.closed && MayWait(s.pool, waiting)
    ensures Can(s, Submission(s, u, waiting))
    ensures var t := Do(s, Submission(s, u, waiting));
      && u in t.uploads && t.docs == s.docs && t.jobs == s.jobs
      && match Submitted(s.pool, job, waiting)
         case Some(pool) => (t.pool, t.uploads[u]) == (pool, Finished(Created(doc, job)))
         case None => (t.pool, t.uploads[u]) == (s.pool, Finished(QueueFull))
  {
  }

  lemma EnrollingIsARun(s: System, u: nat, doc: Document, jobId: string, waiting: Option<nat>)
    returns (actions: seq<Action>)
    requires u in s.uploads && s.uploads[u] == Creating(doc) && jobId !in s.issued
    requires !s.pool.closed && MayWait(s.pool, waiting)
    ensures Run(s, actions)
    ensures var t, job := Reached(s, actions), NewJob(jobId, doc.id);
      && u in t.uploads && t.docs == CreateDocument(s.docs, doc) && t.jobs == CreateJob(s.jobs, job)
      && match Submitted(s.pool, job, waiting)
         case Some(pool) => (t.pool, t.uploads[u]) == (pool, Finished(Created(doc, job)))
         case None => (t.pool, t.uploads[u]) == (s.pool, Finished(QueueFull))
  {
    assert Run(s, []) && Reached(s, []) == s;
    hide *;
    CreationsUnfold(s, u, doc, jobId);
    Extend(s, [], CreateDoc(u));
    actions := [] + [CreateDoc(u)];
    Extend(s, actions, Enroll(u, jobId));
    actions := actions + [Enroll(u, jobId)];
    var s2 := Reached(s, actions);
    SubmissionUnfold(s2, u, doc, NewJob(jobId, doc.id), waiting);
    Extend(s, actions, Submission(s2, u, waiting));
    actions := actions + [Submission(s2, u, waiting)];
  }
}
