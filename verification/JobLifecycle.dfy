/** Every job's way through the pipeline, over every run of Ingestion: where it is, what its stored
    status may be there, and how the status moves. */
module JobLifecycle {
  import opened WorkerPool
  import opened Ingestion

  predicate Terminal(status: Status) {
    status == Completed || status == Failed
  }

  /** The legal moves of a stored status; terminal states have none. */
  predicate Edge(before: Status, after: Status) {
    || before == after
    || (before == Pending && after == Extracting)
    || (before == Extracting && (after == Embedding || after == Failed))
    || (before == Embedding && Terminal(after))
  }

  predicate Untouched(job: Job) {
    job.status == Pending && !job.completed
  }

  /** Once embedding was reached the stored text is what the extractor returned. */
  predicate KeepsText(job: Job, texts: map<string, string>) {
    && (job.status == Embedding || job.status == Completed ==> job.id in texts)
    && (job.id in texts && job.status != Extracting && job.status != Pending ==> job.extractedText == texts[job.id])
  }

  /** The stored job while a worker holds it, by the worker's stage. */
  predicate HeldOk(work: Work, job: Job, texts: map<string, string>) {
    && work.job.id == job.id && work.job.documentId == job.documentId
    && KeepsText(job, texts)
    && match work.stage
       case Fresh => Untouched(job) && work.job == job && job.id !in texts
       case Started => job.status == Extracting && !job.completed && work.job == job && job.id !in texts
       case Loaded(_) => job.status == Extracting && !job.completed && work.job == job && job.id !in texts
       case GotText(_) =>
         && job.status == Extracting && !job.completed && work.job.status == Extracting && !work.job.completed
         && job.id in texts && work.job.extractedText == texts[job.id]
       case Sent(_) =>
         job.status == Embedding && !job.completed && work.job == job
       case Over => Terminal(job.status) && job.completed
  }

  ghost predicate InQueue(queue: seq<Job>, job: Job) {
    exists i :: 0 <= i < |queue| && queue[i] == job
  }

  /** Everything the model promises about one stored job, by its place. */
  ghost predicate JobOk(s: System, id: string) {
    && id in s.jobs.byId && s.jobs.byId[id].id == id && id in s.issued
    && id in s.where
    && var job := s.jobs.byId[id];
       match s.where[id]
       case Unsubmitted(u) =>
         u in s.uploads && s.uploads[u].Submitting? && s.uploads[u].job == job && Untouched(job) && id !in s.texts
       case Queued => InQueue(s.pool.queue, job) && Untouched(job) && id !in s.texts
       case Held(w) => w in s.works && HeldOk(s.works[w], job, s.texts)
       case Processed => Terminal(job.status) && job.completed && KeepsText(job, s.texts)
       case Rejected => Untouched(job) && id !in s.texts
  }

  /** The queue, the workers and the submitting uploads hold only jobs that are placed there. */
  ghost predicate QueuePlaced(queue: seq<Job>, where: map<string, Place>) {
    && (forall i | 0 <= i < |queue| :: queue[i].id in where && where[queue[i].id] == Queued)
    && (forall i, j :: 0 <= i < j < |queue| ==> queue[i].id != queue[j].id)
  }

  ghost predicate WorksPlaced(works: map<nat, Work>, where: map<string, Place>) {
    forall w | w in works :: works[w].job.id in where && where[works[w].job.id] == Held(w)
  }

  ghost predicate UploadsPlaced(uploads: map<nat, Upload>, where: map<string, Place>) {
    forall u | u in uploads && uploads[u].Submitting? ::
      uploads[u].job.id in where && where[uploads[u].job.id] == Unsubmitted(u)
  }

  /** The pool's busy workers are the ones with work, on the same job. */
  ghost predicate WorkersAgree(workers: seq<Worker<Job>>, works: map<nat, Work>) {
    && (forall w | w in works :: w < |workers| && workers[w].Busy? && workers[w].item.id == works[w].job.id)
    && (forall w: nat | w < |workers| && workers[w].Busy? :: w in works)
  }

  ghost predicate Placed(s: System) {
    && QueuePlaced(s.pool.queue, s.where)
    && WorksPlaced(s.works, s.where)
    && UploadsPlaced(s.uploads, s.where)
    && WorkersAgree(s.pool.workers, s.works)
  }

  ghost predicate Lifecycle(s: System) {
    && Placed(s)
    && (forall id | id in s.jobs.byId || id in s.where || id in s.texts :: JobOk(s, id))
  }

  /** The stored jobs moved along legal edges; texts, documents and ids stayed. */
  ghost predicate Legal(before: map<string, Job>, after: map<string, Job>) {
    forall id | id in before ::
      && id in after && Edge(before[id].status, after[id].status)
      && after[id].documentId == before[id].documentId
      && (before[id].status == Embedding || Terminal(before[id].status) ==>
            after[id].extractedText == before[id].extractedText)
      && (Terminal(before[id].status) ==> after[id] == before[id])
  }

  // ---------------------------------------------------------------- the worker's steps

  /** A worker advances: its work changes, its stored job may, and both fit the new stage. */
  lemma WorkMoves(s: System, after: System, w: nat, id: string)
    requires Lifecycle(s) && w in s.works && s.works[w].job.id == id
    requires after.pool == s.pool && after.uploads == s.uploads && after.issued == s.issued && after.where == s.where
    requires w in after.works && after.works == s.works[w := after.works[w]]
    requires id in after.jobs.byId && after.jobs.byId == s.jobs.byId[id := after.jobs.byId[id]]
    requires forall x | x != id ::
      (x in after.texts <==> x in s.texts) && (x in s.texts ==> after.texts[x] == s.texts[x])
    requires after.works[w].job.id == id && after.jobs.byId[id].id == id
    requires HeldOk(after.works[w], after.jobs.byId[id], after.texts)
    ensures Lifecycle(after)
  {
    hide *;
    LifecycleElim(s);
    WorkRenewed(s.pool.workers, s.works, s.where, w, after.works[w]);
    HeldStays(s, after, w, id);
    forall x | x in after.jobs.byId || x in after.where || x in after.texts ensures JobOk(after, x) {
      if x != id { UnheldStays(s, after, w, id, x); }
    }
    LifecycleIntro(after);
  }

  lemma WorkRenewed(workers: seq<Worker<Job>>, works: map<nat, Work>, where: map<string, Place>, w: nat, work: Work)
    requires WorksPlaced(works, where) && WorkersAgree(workers, works)
    requires w in works && work.job.id == works[w].job.id
    ensures WorksPlaced(works[w := work], where) && WorkersAgree(workers, works[w := work])
  {
  }

  lemma HeldStays(s: System, after: System, w: nat, id: string)
    requires WorksPlaced(s.works, s.where) && w in s.works && s.works[w].job.id == id
    requires forall x | x in s.where :: JobOk(s, x)
    requires after.issued == s.issued && after.where == s.where
    requires w in after.works && id in after.jobs.byId && after.jobs.byId[id].id == id
    requires HeldOk(after.works[w], after.jobs.byId[id], after.texts)
    ensures JobOk(after, id)
  {
    assert JobOk(s, id);
    hide HeldOk, InQueue, KeepsText;
  }

  lemma UnheldStays(s: System, after: System, w: nat, id: string, x: string)
    requires JobOk(s, x) && x != id && w in s.works && s.works[w].job.id == id
    requires after.pool == s.pool && after.uploads == s.uploads && after.issued == s.issued && after.where == s.where
    requires w in after.works && after.works == s.works[w := after.works[w]]
    requires id in after.jobs.byId && after.jobs.byId == s.jobs.byId[id := after.jobs.byId[id]]
    requires (x in after.texts <==> x in s.texts) && (x in s.texts ==> after.texts[x] == s.texts[x])
    ensures JobOk(after, x)
  {
    hide InQueue;
  }

  /** The held job's own facts, and what writing it changes. */
  lemma HeldJob(s: System, w: nat)
    requires Lifecycle(s) && w in s.works
    ensures var id := s.works[w].job.id;
      && id in s.jobs.byId && s.jobs.byId[id].id == id
      && HeldOk(s.works[w], s.jobs.byId[id], s.texts)
  {
    assert JobOk(s, s.works[w].job.id);
  }

  lemma LegalUpdate(byId: map<string, Job>, job: Job)
    requires job.id in byId && !Terminal(byId[job.id].status) && Edge(byId[job.id].status, job.status)
    requires job.documentId == byId[job.id].documentId
    requires byId[job.id].status == Embedding ==> job.extractedText == byId[job.id].extractedText
    ensures Legal(byId, byId[job.id := job])
  {
  }

  /** A worker writes its job copy: the life cycle holds and the status moved legally. */
  lemma StoredMoves(s: System, w: nat, job: Job, stage: Stage)
    requires Lifecycle(s) && w in s.works && job.id == s.works[w].job.id
    requires HeldOk(Work(job, stage), job, s.texts)
    requires job.id in s.jobs.byId ==>
      var was := s.jobs.byId[job.id];
      && !Terminal(was.status) && Edge(was.status, job.status) && job.documentId == was.documentId
      && (was.status == Embedding ==> job.extractedText == was.extractedText)
    ensures Lifecycle(Stored(s, w, job, stage))
    ensures Legal(s.jobs.byId, Stored(s, w, job, stage).jobs.byId)
  {
    HeldJob(s, w);
    hide HeldOk, Lifecycle;
    LegalUpdate(s.jobs.byId, job);
    WorkMoves(s, Stored(s, w, job, stage), w, job.id);
  }

  predicate WorkerAction(a: Action) {
    a.StartExtract? || a.Load? || a.ExtractReturns? || a.StartEmbed? || a.EmbedReturns?
  }

  lemma StartsStep(s: System, w: nat)
    requires Lifecycle(s) && w in s.works
    ensures s.works[w].stage == Fresh ==>
      var after := Stored(s, w, MarkExtracting(s.works[w].job), Started);
      Lifecycle(after) && Legal(s.jobs.byId, after.jobs.byId)
    ensures s.works[w].stage.GotText? ==>
      var after := Stored(s, w, MarkEmbedding(s.works[w].job), Sent(s.works[w].stage.doc));
      Lifecycle(after) && Legal(s.jobs.byId, after.jobs.byId)
  {
    var work := s.works[w];
    HeldJob(s, w);
    hide Lifecycle, Legal;
    if work.stage == Fresh { StoredMoves(s, w, MarkExtracting(work.job), Started); }
    if work.stage.GotText? { StoredMoves(s, w, MarkEmbedding(work.job), Sent(work.stage.doc)); }
  }

  predicate InProgress(stage: Stage) {
    stage == Started || stage.Loaded? || stage.Sent?
  }

  lemma FailedOk(work: Work, job: Job, texts: map<string, string>, cause: string)
    requires HeldOk(work, job, texts) && InProgress(work.stage)
    ensures var failed := MarkFailed(work.job, cause);
      && failed.id == work.job.id && HeldOk(Work(failed, Over), failed, texts)
      && !Terminal(job.status) && Edge(job.status, failed.status) && failed.documentId == job.documentId
      && (job.status == Embedding ==> failed.extractedText == job.extractedText)
  {
  }

  /** `failJob`, from wherever the worker stands. */
  lemma FailureMoves(s: System, w: nat, cause: string)
    requires Lifecycle(s) && w in s.works && InProgress(s.works[w].stage)
    ensures var after := Stored(s, w, MarkFailed(s.works[w].job, cause), Over);
      Lifecycle(after) && Legal(s.jobs.byId, after.jobs.byId)
  {
    hide *;
    var work := s.works[w];
    HeldJob(s, w);
    FailedOk(work, s.jobs.byId[work.job.id], s.texts, cause);
    StoredMoves(s, w, MarkFailed(work.job, cause), Over);
  }

  lemma LoadedOk(work: Work, job: Job, texts: map<string, string>, doc: Document)
    requires HeldOk(work, job, texts) && work.stage == Started
    ensures HeldOk(Work(work.job, Loaded(doc)), job, texts)
  {
  }

  lemma LoadStep(s: System, w: nat)
    requires Lifecycle(s) && w in s.works && s.works[w].stage == Started
    ensures var after := AfterLoad(s, w, s.works[w].job);
      Lifecycle(after) && Legal(s.jobs.byId, after.jobs.byId)
  {
    var job := s.works[w].job;
    HeldJob(s, w);
    UnchangedIsLegal(s.jobs.byId);
    hide Lifecycle, HeldOk, Legal, Stored;
    if job.documentId in s.docs.byId {
      LoadedOk(s.works[w], s.jobs.byId[job.id], s.texts, s.docs.byId[job.documentId]);
      WorkMoves(s, AfterLoad(s, w, job), w, job.id);
    } else {
      FailureMoves(s, w, LOAD_FAILED);
    }
  }

  lemma TextOk(work: Work, job: Job, texts: map<string, string>, e: Extraction, doc: Document)
    requires HeldOk(work, job, texts) && work.stage.Loaded? && e.Text?
    ensures HeldOk(Work(WithText(work.job, e), GotText(doc)), job, texts[job.id := e.text])
  {
  }

  lemma ExtractionStep(s: System, w: nat, e: Extraction)
    requires Lifecycle(s) && w in s.works && s.works[w].stage.Loaded?
    ensures var after := AfterExtraction(s, w, s.works[w].job, s.works[w].stage.doc, e);
      Lifecycle(after) && Legal(s.jobs.byId, after.jobs.byId)
  {
    var job, doc := s.works[w].job, s.works[w].stage.doc;
    HeldJob(s, w);
    UnchangedIsLegal(s.jobs.byId);
    hide Lifecycle, HeldOk, Legal, Stored;
    match e
    case ExtractError(cause) => FailureMoves(s, w, cause);
    case Text(_, _, _, _) =>
      TextOk(s.works[w], s.jobs.byId[job.id], s.texts, e, doc);
      assert WithText(job, e).id == job.id;
      hide WithText;
      WorkMoves(s, AfterExtraction(s, w, job, doc, e), w, job.id);
  }

  lemma EmbeddingStep(s: System, w: nat, r: Embedded)
    requires Lifecycle(s) && w in s.works && s.works[w].stage.Sent?
    ensures var after := AfterEmbedding(s, w, s.works[w].job, r);
      Lifecycle(after) && Legal(s.jobs.byId, after.jobs.byId)
  {
    var job := s.works[w].job;
    HeldJob(s, w);
    hide Lifecycle;
    match r
    case EmbedError(cause) => FailureMoves(s, w, cause);
    case Chunks(total, skipped) => StoredMoves(s, w, MarkCompleted(job, total, skipped), Over);
  }

  lemma WorkerStep(s: System, a: Action)
    requires Lifecycle(s) && Can(s, a) && WorkerAction(a)
    ensures Lifecycle(Do(s, a))
    ensures Legal(s.jobs.byId, Do(s, a).jobs.byId)
  {
    hide Lifecycle, Legal, Stored, AfterLoad, AfterExtraction, AfterEmbedding;
    match a
    case StartExtract(w) => StartsStep(s, w);
    case StartEmbed(w) => StartsStep(s, w);
    case Load(w) => LoadStep(s, w);
    case ExtractReturns(w, e) => ExtractionStep(s, w, e);
    case EmbedReturns(w, r) => EmbeddingStep(s, w, r);
  }

  // ---------------------------------------------------------------- steps that move a job

  /** An upload that is not submitting moves to a point where it is not submitting either. */
  lemma QuietUpload(s: System, after: System, u: nat)
    requires Lifecycle(s)
    requires u in s.uploads ==> !s.uploads[u].Submitting?
    requires u in after.uploads && after.uploads == s.uploads[u := after.uploads[u]] && !after.uploads[u].Submitting?
    requires after.jobs == s.jobs && after.pool == s.pool && after.works == s.works
    requires after.where == s.where && after.texts == s.texts && s.issued <= after.issued
    ensures Lifecycle(after)
  {
    forall x | x in after.jobs.byId || x in after.where || x in after.texts ensures JobOk(after, x) {
      assert JobOk(s, x);
    }
  }

  lemma EnrollStep(s: System, u: nat, doc: Document, id: string)
    requires Lifecycle(s) && id !in s.issued
    requires u in s.uploads && s.uploads[u].Enrolling?
    ensures Lifecycle(AfterEnroll(s, u, doc, id)) && Legal(s.jobs.byId, AfterEnroll(s, u, doc, id).jobs.byId)
  {
    var after := AfterEnroll(s, u, doc, id);
    NewIdIsUnplaced(s, id);
    assert UploadsPlaced(after.uploads, after.where);
    forall x | x in after.jobs.byId || x in after.where || x in after.texts ensures JobOk(after, x) {
      if x != id { assert JobOk(s, x); }
    }
  }

  lemma NewIdIsUnplaced(s: System, id: string)
    requires Lifecycle(s) && id !in s.issued
    ensures id !in s.jobs.byId && id !in s.where && id !in s.texts
  {
    assert id in s.jobs.byId || id in s.where || id in s.texts ==> JobOk(s, id);
  }

  /** The facts a submitting upload brings along. */
  lemma SubmittedJob(s: System, u: nat)
    requires Lifecycle(s) && u in s.uploads && s.uploads[u].Submitting?
    ensures var job := s.uploads[u].job;
      && job.id in s.where && s.where[job.id] == Unsubmitted(u)
      && job.id in s.jobs.byId && s.jobs.byId[job.id] == job && job.id in s.issued
      && Untouched(job) && job.id !in s.texts
  {
    assert JobOk(s, s.uploads[u].job.id);
  }

  // How the four placement predicates follow one job's move

  lemma QueueGrows(queue: seq<Job>, where: map<string, Place>, job: Job)
    requires QueuePlaced(queue, where) && job.id in where && where[job.id] != Queued
    ensures QueuePlaced(queue + [job], where[job.id := Queued])
    ensures forall x :: InQueue(queue, x) ==> InQueue(queue + [job], x)
    ensures InQueue(queue + [job], job)
  {
    var all := queue + [job];
    assert all[|queue|] == job;
    forall x | InQueue(queue, x) ensures InQueue(all, x) {
      var i :| 0 <= i < |queue| && queue[i] == x;
      assert all[i] == x;
    }
  }

  lemma QueueShrinks(queue: seq<Job>, where: map<string, Place>, w: nat)
    requires QueuePlaced(queue, where) && queue != []
    ensures QueuePlaced(queue[1..], where[queue[0].id := Held(w)])
    ensures forall x :: InQueue(queue, x) && x != queue[0] ==> InQueue(queue[1..], x)
    ensures InQueue(queue, queue[0]) && queue[0].id in where && where[queue[0].id] == Queued
  {
    var rest := queue[1..];
    forall i | 0 <= i < |rest| ensures rest[i] == queue[i + 1] && queue[0].id != rest[i].id { }
    forall x | InQueue(queue, x) && x != queue[0] ensures InQueue(rest, x) {
      var i :| 0 <= i < |queue| && queue[i] == x;
      assert rest[i - 1] == x;
    }
  }

  lemma QueueStays(queue: seq<Job>, where: map<string, Place>, id: string, place: Place)
    requires QueuePlaced(queue, where) && id in where && where[id] != Queued
    ensures QueuePlaced(queue, where[id := place])
  {
  }

  lemma WorksStay(works: map<nat, Work>, where: map<string, Place>, id: string, place: Place)
    requires WorksPlaced(works, where) && id in where && !where[id].Held?
    ensures WorksPlaced(works, where[id := place])
  {
  }

  lemma WorksGrow(works: map<nat, Work>, where: map<string, Place>, w: nat, job: Job)
    requires WorksPlaced(works, where) && job.id in where && !where[job.id].Held? && w !in works
    ensures WorksPlaced(works[w := Work(job, Fresh)], where[job.id := Held(w)])
  {
  }

  lemma WorksShrink(works: map<nat, Work>, where: map<string, Place>, w: nat)
    requires WorksPlaced(works, where) && w in works
    ensures WorksPlaced(works - {w}, where[works[w].job.id := Processed])
  {
  }

  lemma UploadsStay(uploads: map<nat, Upload>, where: map<string, Place>, id: string, place: Place)
    requires UploadsPlaced(uploads, where) && id in where && !where[id].Unsubmitted?
    ensures UploadsPlaced(uploads, where[id := place])
  {
  }

  lemma UploadsShrink(
    uploads: map<nat, Upload>, where: map<string, Place>, u: nat, id: string, place: Place, result: UploadResult)
    requires UploadsPlaced(uploads, where) && id in where && where[id] == Unsubmitted(u)
    ensures UploadsPlaced(uploads[u := Finished(result)], where[id := place])
  {
  }

  lemma WorkerGainsJob(workers: seq<Worker<Job>>, works: map<nat, Work>, w: nat, job: Job)
    requires WorkersAgree(workers, works) && w < |workers| && workers[w].Idle?
    ensures WorkersAgree(workers[w := Busy(job)], works[w := Work(job, Fresh)]) && w !in works
  {
  }

  lemma WorkerLosesJob(workers: seq<Worker<Job>>, works: map<nat, Work>, w: nat)
    requires WorkersAgree(workers, works) && w < |workers|
    ensures WorkersAgree(workers[w := Idle], works - {w})
  {
  }

  /** The parts of the state that place `x`, other than `where`, still do. */
  ghost predicate PlaceKept(s: System, after: System, x: string) {
    x in s.where && x in s.jobs.byId ==>
      match s.where[x]
      case Unsubmitted(u) => u in s.uploads ==> u in after.uploads && after.uploads[u] == s.uploads[u]
      case Queued => InQueue(s.pool.queue, s.jobs.byId[x]) ==> InQueue(after.pool.queue, s.jobs.byId[x])
      case Held(w) => w in s.works ==> w in after.works && after.works[w] == s.works[w]
      case _ => true
  }

  /** A job whose record and place did not change is still in order. */
  lemma OtherJob(s: System, after: System, x: string)
    requires JobOk(s, x) && PlaceKept(s, after, x)
    requires after.jobs == s.jobs && after.texts == s.texts && s.issued <= after.issued
    requires x in after.where && after.where[x] == s.where[x]
    ensures JobOk(after, x)
  {
    hide InQueue, HeldOk, KeepsText;
  }

  lemma LifecycleElim(s: System)
    requires Lifecycle(s)
    ensures QueuePlaced(s.pool.queue, s.where) && WorksPlaced(s.works, s.where)
    ensures UploadsPlaced(s.uploads, s.where) && WorkersAgree(s.pool.workers, s.works)
    ensures forall id | id in s.jobs.byId || id in s.where || id in s.texts :: JobOk(s, id)
  {
    hide JobOk, QueuePlaced, WorksPlaced, UploadsPlaced, WorkersAgree;
  }

  lemma LifecycleIntro(s: System)
    requires QueuePlaced(s.pool.queue, s.where) && WorksPlaced(s.works, s.where)
    requires UploadsPlaced(s.uploads, s.where) && WorkersAgree(s.pool.workers, s.works)
    requires forall id | id in s.jobs.byId || id in s.where || id in s.texts :: JobOk(s, id)
    ensures Lifecycle(s)
  {
    hide JobOk, QueuePlaced, WorksPlaced, UploadsPlaced, WorkersAgree;
  }

  /** One job moves to another place; no record changes. */
  lemma JobMoves(s: System, after: System, id: string)
    requires Lifecycle(s) && JobOk(after, id)
    requires QueuePlaced(after.pool.queue, after.where) && WorksPlaced(after.works, after.where)
    requires UploadsPlaced(after.uploads, after.where) && WorkersAgree(after.pool.workers, after.works)
    requires after.jobs == s.jobs && after.texts == s.texts && s.issued <= after.issued
    requires id in after.where && after.where == s.where[id := after.where[id]]
    requires forall x | x in s.where && x != id :: PlaceKept(s, after, x)
    ensures Lifecycle(after)
  {
    hide *;
    LifecycleElim(s);
    forall x | x in after.jobs.byId || x in after.where || x in after.texts ensures JobOk(after, x) {
      if x != id {
        JobIsPlaced(s, x);
        OtherJob(s, after, x);
      }
    }
    LifecycleIntro(after);
  }

  lemma JobIsPlaced(s: System, x: string)
    requires JobOk(s, x)
    ensures x in s.where && x in s.jobs.byId
  {
  }

  /** While `u` submits, every other submitting upload is another one. */
  lemma SubmitKeepsPlaces(s: System, after: System, u: nat, x: string)
    requires UploadsPlaced(s.uploads, s.where) && JobOk(s, x)
    requires u in s.uploads && s.uploads[u].Submitting? && s.uploads[u].job.id != x
    requires forall v | v in s.uploads && v != u :: v in after.uploads && after.uploads[v] == s.uploads[v]
    requires forall w | w in s.works :: w in after.works && after.works[w] == s.works[w]
    requires forall job :: InQueue(s.pool.queue, job) ==> InQueue(after.pool.queue, job)
    ensures PlaceKept(s, after, x)
  {
    hide InQueue, HeldOk, KeepsText;
  }

  lemma QueuedUnfold(s: System, u: nat)
    requires Can(s, SubmitQueued(u))
    ensures u in s.uploads && s.uploads[u].Submitting?
    ensures var job, after := s.uploads[u].job, Do(s, SubmitQueued(u));
      && after.pool.queue == s.pool.queue + [job] && after.pool.workers == s.pool.workers
      && after.works == s.works && after.jobs == s.jobs && after.texts == s.texts && after.issued == s.issued
      && after.where == s.where[job.id := Queued]
      && after.uploads == s.uploads[u := Finished(Created(s.uploads[u].doc, job))]
  {
  }

  lemma NowQueued(s: System, job: Job)
    requires job.id in s.jobs.byId && s.jobs.byId[job.id] == job && job.id in s.issued
    requires job.id in s.where && s.where[job.id] == Queued && InQueue(s.pool.queue, job)
    requires Untouched(job) && job.id !in s.texts
    ensures JobOk(s, job.id)
  {
  }

  lemma QueuedStep(s: System, u: nat)
    requires Lifecycle(s) && Can(s, SubmitQueued(u))
    ensures Lifecycle(Do(s, SubmitQueued(u)))
  {
    hide *;
    QueuedUnfold(s, u);
    var job, after := s.uploads[u].job, Do(s, SubmitQueued(u));
    SubmittedJob(s, u);
    LifecycleElim(s);
    QueueGrows(s.pool.queue, s.where, job);
    WorksStay(s.works, s.where, job.id, Queued);
    UploadsShrink(s.uploads, s.where, u, job.id, Queued, Created(s.uploads[u].doc, job));
    NowQueued(after, job);
    forall x | x in s.where && x != job.id ensures PlaceKept(s, after, x) { SubmitKeepsPlaces(s, after, u, x); }
    JobMoves(s, after, job.id);
  }

  lemma RejectedUnfold(s: System, u: nat)
    requires Can(s, SubmitFull(u))
    ensures u in s.uploads && s.uploads[u].Submitting?
    ensures var after := Do(s, SubmitFull(u));
      && after.pool == s.pool
      && after.works == s.works && after.jobs == s.jobs && after.texts == s.texts && after.issued == s.issued
      && after.where == s.where[s.uploads[u].job.id := Rejected]
      && after.uploads == s.uploads[u := Finished(QueueFull)]
  {
  }

  lemma NowRejected(s: System, job: Job)
    requires job.id in s.jobs.byId && s.jobs.byId[job.id] == job && job.id in s.issued
    requires job.id in s.where && s.where[job.id] == Rejected && Untouched(job) && job.id !in s.texts
    ensures JobOk(s, job.id)
  {
  }

  lemma RejectedStep(s: System, u: nat)
    requires Lifecycle(s) && Can(s, SubmitFull(u))
    ensures Lifecycle(Do(s, SubmitFull(u)))
  {
    hide *;
    RejectedUnfold(s, u);
    var job, after := s.uploads[u].job, Do(s, SubmitFull(u));
    SubmittedJob(s, u);
    LifecycleElim(s);
    QueueStays(s.pool.queue, s.where, job.id, Rejected);
    WorksStay(s.works, s.where, job.id, Rejected);
    UploadsShrink(s.uploads, s.where, u, job.id, Rejected, QueueFull);
    NowRejected(after, job);
    forall x | x in s.where && x != job.id ensures PlaceKept(s, after, x) { SubmitKeepsPlaces(s, after, u, x); }
    JobMoves(s, after, job.id);
  }

  lemma HandedUnfold(s: System, u: nat, w: nat)
    requires Can(s, SubmitHanded(u, w))
    ensures u in s.uploads && s.uploads[u].Submitting? && w < |s.pool.workers| && s.pool.workers[w].Idle?
    ensures var job, after := s.uploads[u].job, Do(s, SubmitHanded(u, w));
      && after.pool.queue == s.pool.queue && after.pool.workers == s.pool.workers[w := Busy(job)]
      && after.works == s.works[w := Work(job, Fresh)]
      && after.jobs == s.jobs && after.texts == s.texts && after.issued == s.issued
      && after.where == s.where[job.id := Held(w)]
      && after.uploads == s.uploads[u := Finished(Created(s.uploads[u].doc, job))]
  {
  }

  lemma NowHeld(s: System, w: nat, job: Job)
    requires job.id in s.jobs.byId && s.jobs.byId[job.id] == job && job.id in s.issued
    requires job.id in s.where && s.where[job.id] == Held(w) && w in s.works && s.works[w] == Work(job, Fresh)
    requires Untouched(job) && job.id !in s.texts
    ensures JobOk(s, job.id)
  {
  }

  lemma HandedStep(s: System, u: nat, w: nat)
    requires Lifecycle(s) && Can(s, SubmitHanded(u, w))
    ensures Lifecycle(Do(s, SubmitHanded(u, w)))
  {
    hide *;
    HandedUnfold(s, u, w);
    var job, after := s.uploads[u].job, Do(s, SubmitHanded(u, w));
    SubmittedJob(s, u);
    LifecycleElim(s);
    WorkerGainsJob(s.pool.workers, s.works, w, job);
    QueueStays(s.pool.queue, s.where, job.id, Held(w));
    WorksGrow(s.works, s.where, w, job);
    UploadsShrink(s.uploads, s.where, u, job.id, Held(w), Created(s.uploads[u].doc, job));
    NowHeld(after, w, job);
    forall x | x in s.where && x != job.id ensures PlaceKept(s, after, x) { SubmitKeepsPlaces(s, after, u, x); }
    JobMoves(s, after, job.id);
  }

  lemma TakeUnfold(s: System, w: nat)
    requires Enabled(s.pool, Take(w))
    ensures s.pool.queue != [] && w < |s.pool.workers| && s.pool.workers[w].Idle?
    ensures var job, after := s.pool.queue[0], AfterTake(s, w);
      && after.pool.queue == s.pool.queue[1..] && after.pool.workers == s.pool.workers[w := Busy(job)]
      && after.works == s.works[w := Work(job, Fresh)] && after.where == s.where[job.id := Held(w)]
      && after.jobs == s.jobs && after.texts == s.texts && after.issued == s.issued && after.uploads == s.uploads
  {
  }

  lemma TakeKeepsPlaces(s: System, after: System, w: nat, x: string)
    requires s.pool.queue != [] && x != s.pool.queue[0].id && JobOk(s, x)
    requires after.uploads == s.uploads && w !in s.works
    requires forall v | v in s.works && v != w :: v in after.works && after.works[v] == s.works[v]
    requires forall job :: InQueue(s.pool.queue, job) && job != s.pool.queue[0] ==> InQueue(after.pool.queue, job)
    ensures PlaceKept(s, after, x)
  {
    hide InQueue, HeldOk, KeepsText;
  }

  lemma TakeStep(s: System, w: nat)
    requires Lifecycle(s) && Enabled(s.pool, Take(w))
    ensures Lifecycle(AfterTake(s, w))
  {
    hide *;
    TakeUnfold(s, w);
    var job, after := s.pool.queue[0], AfterTake(s, w);
    LifecycleElim(s);
    QueueShrinks(s.pool.queue, s.where, w);
    WorkerGainsJob(s.pool.workers, s.works, w, job);
    WorksGrow(s.works, s.where, w, job);
    UploadsStay(s.uploads, s.where, job.id, Held(w));
    QueuedIsStored(s, job);
    NowHeld(after, w, job);
    forall x | x in s.where && x != job.id ensures PlaceKept(s, after, x) { TakeKeepsPlaces(s, after, w, x); }
    JobMoves(s, after, job.id);
  }

  /** A queued copy is the stored job itself: nothing wrote it since. */
  lemma QueuedIsStored(s: System, job: Job)
    requires Lifecycle(s) && InQueue(s.pool.queue, job)
    ensures job.id in s.jobs.byId && s.jobs.byId[job.id] == job && job.id in s.issued
    ensures Untouched(job) && job.id !in s.texts
  {
    var i :| 0 <= i < |s.pool.queue| && s.pool.queue[i] == job;
    assert JobOk(s, job.id);
    var j :| 0 <= j < |s.pool.queue| && s.pool.queue[j] == s.jobs.byId[job.id];
  }

  lemma ReturnUnfold(s: System, w: nat)
    requires w in s.works && Enabled(s.pool, Step<Job>.Done(w))
    ensures w < |s.pool.workers|
    ensures var after := AfterReturn(s, w);
      && after.pool.queue == s.pool.queue && after.pool.workers == s.pool.workers[w := Idle]
      && after.works == s.works - {w} && after.where == s.where[s.works[w].job.id := Processed]
      && after.jobs == s.jobs && after.texts == s.texts && after.issued == s.issued && after.uploads == s.uploads
  {
  }

  lemma NowProcessed(s: System, after: System, w: nat)
    requires Lifecycle(s) && AtStage(s, w, Over)
    requires after.jobs == s.jobs && after.texts == s.texts && after.issued == s.issued
    requires after.where == s.where[s.works[w].job.id := Processed]
    ensures JobOk(after, s.works[w].job.id)
    ensures s.works[w].job.id in s.where && s.where[s.works[w].job.id] == Held(w)
  {
    assert JobOk(s, s.works[w].job.id);
  }

  lemma ReturnKeepsPlaces(s: System, after: System, w: nat, x: string)
    requires WorksPlaced(s.works, s.where) && JobOk(s, x) && w in s.works && x != s.works[w].job.id
    requires after.uploads == s.uploads && after.pool.queue == s.pool.queue && after.works == s.works - {w}
    ensures PlaceKept(s, after, x)
  {
    hide InQueue, KeepsText;
  }

  lemma ReturnStep(s: System, w: nat)
    requires Lifecycle(s) && AtStage(s, w, Over) && Enabled(s.pool, Step<Job>.Done(w))
    ensures Lifecycle(AfterReturn(s, w))
  {
    assert w in s.works;
    hide *;
    var id, after := s.works[w].job.id, AfterReturn(s, w);
    ReturnUnfold(s, w);
    LifecycleElim(s);
    NowProcessed(s, after, w);
    QueueStays(s.pool.queue, s.where, id, Processed);
    WorksShrink(s.works, s.where, w);
    UploadsStay(s.uploads, s.where, id, Processed);
    WorkerLosesJob(s.pool.workers, s.works, w);
    forall x | x in s.where && x != id ensures PlaceKept(s, after, x) { ReturnKeepsPlaces(s, after, w, x); }
    JobMoves(s, after, id);
  }

  lemma PoolStep(s: System, step: Step<Job>)
    requires Lifecycle(s) && Can(s, PoolAction(step))
    ensures Lifecycle(Do(s, PoolAction(step)))
  {
    var after := Do(s, PoolAction(step));
    assert after.pool.queue == s.pool.queue && after == s.(pool := after.pool);
    assert WorkersAgree(after.pool.workers, s.works);
    hide *;
    LifecycleElim(s);
    forall x | x in after.jobs.byId || x in after.where || x in after.texts ensures JobOk(after, x) {
      SamePlace(s, after, x);
    }
    LifecycleIntro(after);
  }

  lemma SamePlace(s: System, after: System, x: string)
    requires JobOk(s, x) && after == s.(pool := after.pool) && after.pool.queue == s.pool.queue
    ensures JobOk(after, x)
  {
    hide InQueue, HeldOk, KeepsText;
  }

  // ---------------------------------------------------------------- every run

  lemma UnchangedIsLegal(byId: map<string, Job>)
    ensures Legal(byId, byId)
  {
  }

  lemma QuietUploadStep(s: System, a: Action)
    requires Lifecycle(s) && Can(s, a)
    requires a.Begin? || a.Check? || a.FindJob? || a.Put? || a.PutFails? || a.CreateDoc?
    ensures Lifecycle(Do(s, a)) && Do(s, a).jobs == s.jobs
  {
    hide Lifecycle, FindByHash, FindLatest;
    QuietUpload(s, Do(s, a), a.u);
  }

  /** Any action of any upload, worker or the pool keeps every job in its life cycle and moves stored
      statuses only along legal edges. */
  lemma ActionKeepsLifecycle(s: System, a: Action)
    requires Lifecycle(s) && Can(s, a)
    ensures Lifecycle(Do(s, a)) && Legal(s.jobs.byId, Do(s, a).jobs.byId)
  {
    UnchangedIsLegal(s.jobs.byId);
    hide Lifecycle, Legal;
    match a
    case Enroll(u, jobId) => EnrollStep(s, u, s.uploads[u].doc, jobId);
    case SubmitQueued(u) => QueuedStep(s, u);
    case SubmitHanded(u, w) => HandedStep(s, u, w);
    case SubmitFull(u) => RejectedStep(s, u);
    case TakeJob(w) => TakeStep(s, w);
    case Return(w) => ReturnStep(s, w);
    case PoolAction(step) => PoolStep(s, step);
    case _ =>
      if WorkerAction(a) { WorkerStep(s, a); } else { QuietUploadStep(s, a); }
  }

  lemma {:induction false} RunKeepsLifecycle(workers: nat, queueSize: nat, actions: seq<Action>)
    requires Run(Initial(workers, queueSize), actions)
    ensures Lifecycle(Reached(Initial(workers, queueSize), actions))
  {
    if actions != [] {
      RunKeepsLifecycle(workers, queueSize, actions[..|actions| - 1]);
      ActionKeepsLifecycle(Reached(Initial(workers, queueSize), actions[..|actions| - 1]), actions[|actions| - 1]);
    }
  }

  /** A job that is not finished is about to be submitted, queued, held by a busy worker or was refused by
      the full queue; CompletedAt is set exactly on finished jobs; after a successful extraction no later
      failure loses the text. */
  ghost predicate Accounted(s: System, id: string)
    requires id in s.jobs.byId
  {
    var job := s.jobs.byId[id];
    && (job.completed <==> Terminal(job.status))
    && (!Terminal(job.status) ==>
          || (exists u :: u in s.uploads && s.uploads[u].Submitting? && s.uploads[u].job == job)
          || InQueue(s.pool.queue, job)
          || (exists w :: 0 <= w < |s.pool.workers| && s.pool.workers[w].Busy? && s.pool.workers[w].item.id == id)
          || (id in s.where && s.where[id] == Rejected))
    && (job.status == Completed ==> id in s.texts)
    && (id in s.texts && Terminal(job.status) ==> job.extractedText == s.texts[id])
  }

  lemma JobIsAccounted(s: System, id: string)
    requires Lifecycle(s) && id in s.jobs.byId
    ensures Accounted(s, id)
  {
    LifecycleElim(s);
    assert JobOk(s, id);
    hide Lifecycle, QueuePlaced, UploadsPlaced, InQueue;
    if s.where[id].Held? {
      var w := s.where[id].w;
      assert s.pool.workers[w].Busy? && s.pool.workers[w].item.id == id;
    }
    if s.where[id].Unsubmitted? {
      var u := s.where[id].u;
      assert u in s.uploads && s.uploads[u].Submitting? && s.uploads[u].job == s.jobs.byId[id];
    }
  }

  /** In every reachable state every job is accounted for. */
  lemma JobsAreAccountedFor(workers: nat, queueSize: nat, actions: seq<Action>, id: string)
    requires Run(Initial(workers, queueSize), actions)
    requires id in Reached(Initial(workers, queueSize), actions).jobs.byId
    ensures Accounted(Reached(Initial(workers, queueSize), actions), id)
  {
    RunKeepsLifecycle(workers, queueSize, actions);
    hide *;
    JobIsAccounted(Reached(Initial(workers, queueSize), actions), id);
  }

  /** The embedder is only ever called for a job whose extraction succeeded, with the extracted text. */
  lemma EmbedderSeesExtractedText(workers: nat, queueSize: nat, actions: seq<Action>, w: nat, r: Embedded)
    requires Run(Initial(workers, queueSize), actions)
    requires Can(Reached(Initial(workers, queueSize), actions), EmbedReturns(w, r))
    ensures var s := Reached(Initial(workers, queueSize), actions);
      var job := s.works[w].job;
      && job.id in s.texts && job.extractedText == s.texts[job.id]
      && job.id in s.jobs.byId && s.jobs.byId[job.id].status == Embedding
  {
    RunKeepsLifecycle(workers, queueSize, actions);
    HeldJob(Reached(Initial(workers, queueSize), actions), w);
  }

  /** Statuses reachable from one another by legal edges. */
  predicate Later(before: Status, after: Status) {
    || before == after || before == Pending
    || (before == Extracting && after != Pending)
    || (before == Embedding && Terminal(after))
  }

  /** What any two moments of one run have in common. */
  ghost predicate Evolves(s: System, t: System) {
    && (forall id | id in s.jobs.byId ::
          && id in t.jobs.byId && Later(s.jobs.byId[id].status, t.jobs.byId[id].status)
          && (Terminal(s.jobs.byId[id].status) ==> t.jobs.byId[id] == s.jobs.byId[id])
          && (s.jobs.byId[id].status == Embedding ==> t.jobs.byId[id].extractedText == s.jobs.byId[id].extractedText))
    && KeepsRejected(s.where, t.where)
  }

  /** The actions that move a job from one place to another. */
  predicate MovesJob(a: Action) {
    a.Enroll? || a.SubmitQueued? || a.SubmitHanded? || a.SubmitFull? || a.TakeJob? || a.Return?
  }

  lemma OthersKeepPlaces(s: System, a: Action)
    requires Can(s, a) && !MovesJob(a)
    ensures Do(s, a).where == s.where
  {
    hide UpdateJob, FindByHash, FindLatest, Enabled, Apply, CreateDocument, MarkFailed, MarkCompleted, WithText;
  }

  lemma EnrollUnfold(s: System, u: nat, jobId: string)
    requires Can(s, Enroll(u, jobId))
    ensures jobId !in s.issued && Do(s, Enroll(u, jobId)).where == s.where[jobId := Unsubmitted(u)]
  {
  }

  lemma ReturnIsDo(s: System, w: nat)
    requires Can(s, Return(w))
    ensures AtStage(s, w, Over) && w in s.works && Enabled(s.pool, Step<Job>.Done(w))
      && Do(s, Return(w)) == AfterReturn(s, w)
  {
    hide Apply, Enabled;
  }

  lemma TakeIsDo(s: System, w: nat)
    requires Can(s, TakeJob(w))
    ensures Enabled(s.pool, Take(w)) && Do(s, TakeJob(w)) == AfterTake(s, w)
  {
    hide Apply, Enabled;
  }

  ghost predicate KeepsRejected(before: map<string, Place>, after: map<string, Place>) {
    forall id | id in before && before[id] == Rejected :: id in after && after[id] == Rejected
  }

  lemma UploadKeepsRejected(s: System, a: Action)
    requires Lifecycle(s) && Can(s, a) && (a.Enroll? || a.SubmitQueued? || a.SubmitHanded? || a.SubmitFull?)
    ensures KeepsRejected(s.where, Do(s, a).where)
  {
    hide *;
    match a
    case Enroll(u, jobId) =>
      EnrollUnfold(s, u, jobId);
      NewIdIsUnplaced(s, jobId);
      MoveKeepsRejected(s.where, jobId, Unsubmitted(u));
    case SubmitQueued(u) =>
      QueuedUnfold(s, u);
      SubmittedJob(s, u);
      MoveKeepsRejected(s.where, s.uploads[u].job.id, Queued);
    case SubmitHanded(u, w) =>
      HandedUnfold(s, u, w);
      SubmittedJob(s, u);
      MoveKeepsRejected(s.where, s.uploads[u].job.id, Held(w));
    case SubmitFull(u) =>
      RejectedUnfold(s, u);
      SubmittedJob(s, u);
      MoveKeepsRejected(s.where, s.uploads[u].job.id, Rejected);
  }

  lemma MoveKeepsRejected(where: map<string, Place>, id: string, place: Place)
    requires id in where ==> where[id] != Rejected
    ensures KeepsRejected(where, where[id := place])
  {
  }

  lemma WorkKeepsRejected(s: System, a: Action)
    requires Lifecycle(s) && Can(s, a) && (a.TakeJob? || a.Return?)
    ensures KeepsRejected(s.where, Do(s, a).where)
  {
    hide *;
    match a
    case TakeJob(w) =>
      TakeIsDo(s, w);
      TakeUnfold(s, w);
      HeadIsQueued(s, w);
      MoveKeepsRejected(s.where, s.pool.queue[0].id, Held(w));
    case Return(w) =>
      ReturnIsDo(s, w);
      ReturnUnfold(s, w);
      HeldPlace(s, w);
      MoveKeepsRejected(s.where, s.works[w].job.id, Processed);
  }

  lemma RejectedStays(s: System, a: Action)
    requires Lifecycle(s) && Can(s, a)
    ensures KeepsRejected(s.where, Do(s, a).where)
  {
    hide Can, Do, Lifecycle;
    if !MovesJob(a) {
      OthersKeepPlaces(s, a);
    } else if a.TakeJob? || a.Return? {
      WorkKeepsRejected(s, a);
    } else {
      UploadKeepsRejected(s, a);
    }
  }

  lemma HeadIsQueued(s: System, w: nat)
    requires Lifecycle(s) && Enabled(s.pool, Take(w))
    ensures s.pool.queue != [] && s.pool.queue[0].id in s.where && s.where[s.pool.queue[0].id] == Queued
  {
  }

  lemma HeldPlace(s: System, w: nat)
    requires Lifecycle(s) && w in s.works
    ensures s.works[w].job.id in s.where && s.where[s.works[w].job.id] == Held(w)
  {
  }

  lemma EvolvesFurther(s: System, m: System, t: System)
    requires Evolves(s, m) && Legal(m.jobs.byId, t.jobs.byId)
    requires KeepsRejected(m.where, t.where)
    ensures Evolves(s, t)
  {
  }

  /** Over any part of any run statuses only move forward, finished jobs never change again, and the
      text of a job that reached embedding stays. A refused job stays refused. */
  lemma {:induction false} RunEvolves(workers: nat, queueSize: nat, actions: seq<Action>, n: nat)
    requires Run(Initial(workers, queueSize), actions) && n <= |actions|
    ensures Run(Initial(workers, queueSize), actions[..n])
    ensures Evolves(Reached(Initial(workers, queueSize), actions[..n]), Reached(Initial(workers, queueSize), actions))
    decreases |actions|
  {
    var start := Initial(workers, queueSize);
    if n == |actions| {
      assert actions[..n] == actions;
    } else {
      var init, last := actions[..|actions| - 1], actions[|actions| - 1];
      assert init[..n] == actions[..n];
      RunEvolves(workers, queueSize, init, n);
      RunKeepsLifecycle(workers, queueSize, init);
      ActionKeepsLifecycle(Reached(start, init), last);
      RejectedStays(Reached(start, init), last);
      EvolvesFurther(Reached(start, actions[..n]), Reached(start, init), Reached(start, actions));
    }
  }

  /** A job refused by the full queue stays pending for ever, whatever happens afterwards. */
  lemma RefusedJobStaysPending(workers: nat, queueSize: nat, actions: seq<Action>, n: nat, id: string)
    requires Run(Initial(workers, queueSize), actions) && n <= |actions|
    requires Run(Initial(workers, queueSize), actions[..n])
    requires var s := Reached(Initial(workers, queueSize), actions[..n]); id in s.where && s.where[id] == Rejected
    ensures var t := Reached(Initial(workers, queueSize), actions);
      id in t.jobs.byId && t.jobs.byId[id].status == Pending && !t.jobs.byId[id].completed
  {
    RunEvolves(workers, queueSize, actions, n);
    RunKeepsLifecycle(workers, queueSize, actions);
    assert JobOk(Reached(Initial(workers, queueSize), actions), id);
  }
}
