/** gateway-go/internal/ingestion as a state machine: uploads, the worker pool's jobs and the two
    in-memory repositories. Each step is one locked repository access, one channel action, or the
    return of one ml-service call. */
module Ingestion {
  import opened Collections
  import opened WorkerPool

  datatype Status = Pending | Extracting | Embedding | Completed | Failed

  datatype Metadata = Metadata(ticker: string, companyName: string, filingType: string, fiscalPeriod: string)

  const NO_METADATA := Metadata("", "", "", "")

  datatype Document = Document(
    id: string, filename: string, docType: nat, storageUri: string, contentHash: string, size: nat, uploadedBy: string)

  /** `completed` stands for CompletedAt being set; the other timestamps are left out. */
  datatype Job = Job(
    id: string, documentId: string, status: Status, error: string,
    extractedText: string, tableCount: nat, pageCount: nat, metadata: Metadata,
    chunkCount: nat, chunksSkipped: nat, completed: bool)

  /** The wrapped ErrDocumentNotFound. */
  const LOAD_FAILED := "load document: ingestion: document not found"

  function NewJob(id: string, documentId: string): Job {
    Job(id, documentId, Pending, "", "", 0, 0, NO_METADATA, 0, 0, false)
  }

  /** What the extractor and the embedder return. */
  datatype Extraction =
    | ExtractError(cause: string)
    | Text(text: string, tables: nat, pages: nat, inferred: Option<Metadata>)

  datatype Embedded =
    | EmbedError(cause: string)
    | Chunks(total: nat, skipped: nat)

  // The assignments of extract, embed and failJob --------------------------

  function MarkExtracting(job: Job): Job {
    job.(status := Extracting)
  }

  function WithText(job: Job, e: Extraction): Job
    requires e.Text?
  {
    job.(extractedText := e.text, tableCount := e.tables, pageCount := e.pages,
         metadata := match e.inferred case Some(m) => m case None => job.metadata)
  }

  function MarkEmbedding(job: Job): Job {
    job.(status := Embedding)
  }

  function MarkCompleted(job: Job, total: nat, skipped: nat): Job {
    job.(status := Completed, chunkCount := total, chunksSkipped := skipped, completed := true)
  }

  function MarkFailed(job: Job, cause: string): Job {
    job.(status := Failed, error := cause, completed := true)
  }

  // The repositories -------------------------------------------------------

  datatype Documents = Documents(byId: map<string, Document>, byHash: map<string, string>)

  datatype Jobs = Jobs(byId: map<string, Job>, latest: map<string, string>)

  function CreateDocument(docs: Documents, doc: Document): Documents {
    Documents(docs.byId[doc.id := doc], docs.byHash[doc.contentHash := doc.id])
  }

  /** Both maps are only ever written together, so the id is always there (IngestionServices). */
  function FindByHash(docs: Documents, h: string): Option<Document> {
    if h in docs.byHash && docs.byHash[h] in docs.byId then Some(docs.byId[docs.byHash[h]]) else None
  }

  function CreateJob(jobs: Jobs, job: Job): Jobs {
    Jobs(jobs.byId[job.id := job], jobs.latest[job.documentId := job.id])
  }

  /** Updating an unknown job is an error that the service only logs. */
  function UpdateJob(jobs: Jobs, job: Job): Jobs {
    if job.id in jobs.byId then jobs.(byId := jobs.byId[job.id := job]) else jobs
  }

  function FindLatest(jobs: Jobs, documentId: string): Option<Job> {
    if documentId in jobs.latest && jobs.latest[documentId] in jobs.byId then Some(jobs.byId[jobs.latest[documentId]])
    else None
  }

  // Programs in progress ---------------------------------------------------

  /** A validated, fully read upload: the file type checks and the size limit come before. */
  datatype Request = Request(filename: string, docType: nat, contentHash: string, size: nat, uploadedBy: string)

  datatype UploadResult =
    | Created(doc: Document, job: Job)
    | Reused(doc: Document, job: Job)
    | JobMissing
    | StoreFailed
    | QueueFull

  datatype Upload =
    | Checking(request: Request)                 // before FindByContentHash
    | Duplicate(doc: Document)                   // found; before FindLatestByDocumentID
    | Storing(request: Request)                  // not found; before store.Put
    | Creating(doc: Document)                    // before docs.Create
    | Enrolling(doc: Document)                   // before jobs.Create
    | Submitting(doc: Document, job: Job)        // before pool.Submit
    | Finished(result: UploadResult)

  /** Where processJob stands; the worker's own copy of the job is `job`. */
  datatype Stage = Fresh | Started | Loaded(doc: Document) | GotText(doc: Document) | Sent(doc: Document) | Over

  datatype Work = Work(job: Job, stage: Stage)

  /** Where a job is: history, read off the steps. */
  datatype Place = Unsubmitted(u: nat) | Queued | Held(w: nat) | Processed | Rejected

  datatype System = System(
    docs: Documents, jobs: Jobs, pool: Pool<Job>, works: map<nat, Work>, uploads: map<nat, Upload>,
    issued: set<string>, where: map<string, Place>, texts: map<string, string>)

  function Initial(workers: nat, queueSize: nat): System {
    System(Documents(map[], map[]), Jobs(map[], map[]), NewPool(workers, queueSize), map[], map[], {}, map[], map[])
  }

  datatype Action =
    | Begin(u: nat, request: Request)
    | Check(u: nat)
    | FindJob(u: nat)
    | Put(u: nat, docId: string, uri: string)
    | PutFails(u: nat)
    | CreateDoc(u: nat)
    | Enroll(u: nat, jobId: string)
    | SubmitQueued(u: nat)
    | SubmitHanded(u: nat, w: nat)
    | SubmitFull(u: nat)
    | TakeJob(w: nat)
    | StartExtract(w: nat)
    | Load(w: nat)
    | ExtractReturns(w: nat, e: Extraction)
    | StartEmbed(w: nat)
    | EmbedReturns(w: nat, r: Embedded)
    | Return(w: nat)
    | PoolAction(step: Step<Job>)

  predicate AtStage(s: System, w: nat, stage: Stage) {
    w in s.works && s.works[w].stage == stage
  }

  predicate Can(s: System, a: Action) {
    match a
    case Begin(u, _) => u !in s.uploads
    case Check(u) => u in s.uploads && s.uploads[u].Checking?
    case FindJob(u) => u in s.uploads && s.uploads[u].Duplicate?
    case Put(u, docId, _) => u in s.uploads && s.uploads[u].Storing? && docId !in s.issued
    case PutFails(u) => u in s.uploads && s.uploads[u].Storing?
    case CreateDoc(u) => u in s.uploads && s.uploads[u].Creating?
    case Enroll(u, jobId) => u in s.uploads && s.uploads[u].Enrolling? && jobId !in s.issued
    case SubmitQueued(u) =>
      u in s.uploads && s.uploads[u].Submitting? && Enabled(s.pool, Accept(s.uploads[u].job))
    case SubmitHanded(u, w) =>
      u in s.uploads && s.uploads[u].Submitting? && Enabled(s.pool, HandOff(s.uploads[u].job, w))
    case SubmitFull(u) =>
      u in s.uploads && s.uploads[u].Submitting? && Enabled(s.pool, Reject(s.uploads[u].job))
    case TakeJob(w) => Enabled(s.pool, Take(w))
    case StartExtract(w) => AtStage(s, w, Fresh)
    case Load(w) => AtStage(s, w, Started)
    case ExtractReturns(w, _) => w in s.works && s.works[w].stage.Loaded?
    case StartEmbed(w) => w in s.works && s.works[w].stage.GotText?
    case EmbedReturns(w, _) => w in s.works && s.works[w].stage.Sent?
    case Return(w) => AtStage(s, w, Over) && Enabled(s.pool, Step<Job>.Done(w))
    case PoolAction(step) =>
      (step.Start? || step.ExitDrained? || step.ExitCancelled? || step.Close? || step.Cancel?) && Enabled(s.pool, step)
  }

  /** A worker's next stage, with its job copy written to the repository. */
  function Stored(s: System, w: nat, job: Job, stage: Stage): System {
    s.(jobs := UpdateJob(s.jobs, job), works := s.works[w := Work(job, stage)])
  }

  function AfterLoad(s: System, w: nat, job: Job): System {
    if job.documentId in s.docs.byId then s.(works := s.works[w := Work(job, Loaded(s.docs.byId[job.documentId]))])
    else Stored(s, w, MarkFailed(job, LOAD_FAILED), Over)
  }

  function AfterExtraction(s: System, w: nat, job: Job, doc: Document, e: Extraction): System {
    match e
    case ExtractError(cause) => Stored(s, w, MarkFailed(job, cause), Over)
    case Text(text, _, _, _) =>
      s.(works := s.works[w := Work(WithText(job, e), GotText(doc))], texts := s.texts[job.id := text])
  }

  function AfterEmbedding(s: System, w: nat, job: Job, r: Embedded): System {
    match r
    case EmbedError(cause) => Stored(s, w, MarkFailed(job, cause), Over)
    case Chunks(total, skipped) => Stored(s, w, MarkCompleted(job, total, skipped), Over)
  }

  function DocumentFor(request: Request, docId: string, uri: string): Document {
    Document(docId, request.filename, request.docType, uri, request.contentHash, request.size, request.uploadedBy)
  }

  function AtUpload(s: System, u: nat, pc: Upload): System {
    s.(uploads := s.uploads[u := pc])
  }

  function AfterCheck(s: System, u: nat, request: Request): System {
    AtUpload(s, u,
      match FindByHash(s.docs, request.contentHash) case Some(doc) => Duplicate(doc) case None => Storing(request))
  }

  function AfterFindJob(s: System, u: nat, doc: Document): System {
    AtUpload(s, u,
      Finished(match FindLatest(s.jobs, doc.id) case Some(job) => Reused(doc, job) case None => JobMissing))
  }

  function AfterEnroll(s: System, u: nat, doc: Document, jobId: string): System {
    var job := NewJob(jobId, doc.id);
    AtUpload(s, u, Submitting(doc, job)).(
      jobs := CreateJob(s.jobs, job), issued := s.issued + {jobId}, where := s.where[jobId := Unsubmitted(u)])
  }

  /** Submit answered: the job moved to `place`, the pool to `pool`. */
  function AfterSubmit(s: System, u: nat, pool: Pool<Job>, result: UploadResult, jobId: string, place: Place): System {
    AtUpload(s, u, Finished(result)).(pool := pool, where := s.where[jobId := place])
  }

  function AfterTake(s: System, w: nat): System
    requires Enabled(s.pool, Take(w))
  {
    var job := s.pool.queue[0];
    s.(pool := Apply(s.pool, Take(w)), works := s.works[w := Work(job, Fresh)], where := s.where[job.id := Held(w)])
  }

  function AfterReturn(s: System, w: nat): System
    requires w in s.works && Enabled(s.pool, Step<Job>.Done(w))
  {
    s.(pool := Apply(s.pool, Step<Job>.Done(w)), works := s.works - {w},
      where := s.where[s.works[w].job.id := Processed])
  }

  function Do(s: System, a: Action): System
    requires Can(s, a)
  {
    match a
    case Begin(u, request) => AtUpload(s, u, Checking(request))
    case Check(u) => AfterCheck(s, u, s.uploads[u].request)
    case FindJob(u) => AfterFindJob(s, u, s.uploads[u].doc)
    case Put(u, docId, uri) =>
      AtUpload(s, u, Creating(DocumentFor(s.uploads[u].request, docId, uri))).(issued := s.issued + {docId})
    case PutFails(u) => AtUpload(s, u, Finished(StoreFailed))
    case CreateDoc(u) =>
      AtUpload(s, u, Enrolling(s.uploads[u].doc)).(docs := CreateDocument(s.docs, s.uploads[u].doc))
    case Enroll(u, jobId) => AfterEnroll(s, u, s.uploads[u].doc, jobId)
    case SubmitQueued(u) =>
      var (doc, job) := (s.uploads[u].doc, s.uploads[u].job);
      AfterSubmit(s, u, Apply(s.pool, Accept(job)), Created(doc, job), job.id, Queued)
    case SubmitHanded(u, w) =>
      var (doc, job) := (s.uploads[u].doc, s.uploads[u].job);
      AfterSubmit(s, u, Apply(s.pool, HandOff(job, w)), Created(doc, job), job.id, Held(w)).(
        works := s.works[w := Work(job, Fresh)])
    case SubmitFull(u) =>
      AfterSubmit(s, u, s.pool, QueueFull, s.uploads[u].job.id, Rejected)
    case TakeJob(w) => AfterTake(s, w)
    case StartExtract(w) => Stored(s, w, MarkExtracting(s.works[w].job), Started)
    case Load(w) => AfterLoad(s, w, s.works[w].job)
    case ExtractReturns(w, e) => AfterExtraction(s, w, s.works[w].job, s.works[w].stage.doc, e)
    case StartEmbed(w) => Stored(s, w, MarkEmbedding(s.works[w].job), Sent(s.works[w].stage.doc))
    case EmbedReturns(w, r) => AfterEmbedding(s, w, s.works[w].job, r)
    case Return(w) => AfterReturn(s, w)
    case PoolAction(step) => s.(pool := Apply(s.pool, step))
  }

  predicate Run(s: System, actions: seq<Action>)
    decreases |actions|, 0
  {
    actions != [] ==>
      Run(s, actions[..|actions| - 1]) && Can(Reached(s, actions[..|actions| - 1]), actions[|actions| - 1])
  }

  function Reached(s: System, actions: seq<Action>): System
    requires Run(s, actions)
    decreases |actions|, 1
  {
    if actions == [] then s else Do(Reached(s, actions[..|actions| - 1]), actions[|actions| - 1])
  }

  lemma Extend(s: System, actions: seq<Action>, a: Action)
    requires Run(s, actions) && Can(Reached(s, actions), a)
    ensures Run(s, actions + [a]) && Reached(s, actions + [a]) == Do(Reached(s, actions), a)
  {
    assert (actions + [a])[..|actions|] == actions;
    hide Can, Do;
  }

  /** Runs can be put one after the other. */
  lemma {:induction false} Chain(s: System, a: seq<Action>, b: seq<Action>)
    requires Run(s, a) && Run(Reached(s, a), b)
    ensures Run(s, a + b) && Reached(s, a + b) == Reached(Reached(s, a), b)
  {
    if b == [] {
      assert a + b == a;
    } else {
      var init, last := b[..|b| - 1], b[|b| - 1];
      Chain(s, a, init);
      assert a + b == (a + init) + [last];
      Extend(s, a + init, last);
    }
  }
}
