/** Uploads are deduplicated by content while the windows from their check to the creation of their document
    do not overlap. UploadOverlap.dfy shows that this is exactly the condition. */
module UploadDedup {
  import opened Collections
  import opened WorkerPool
  import opened Ingestion
  import opened JobLifecycle

  /** The two document maps agree, so no content hash has two documents. */
  ghost predicate DocsAgree(docs: Documents) {
    && (forall h | h in docs.byHash :: docs.byHash[h] in docs.byId && docs.byId[docs.byHash[h]].contentHash == h)
    && (forall id | id in docs.byId ::
          && docs.byId[id].id == id
          && docs.byId[id].contentHash in docs.byHash && docs.byHash[docs.byId[id].contentHash] == id)
  }

  /** The content an upload found missing and has not created a document for yet. */
  function Window(pc: Upload): Option<string> {
    match pc
    case Storing(request) => Some(request.contentHash)
    case Creating(doc) => Some(doc.contentHash)
    case _ => None
  }

  /** The document id an upload drew, until its job is there. */
  function NewId(pc: Upload): Option<string> {
    match pc
    case Creating(doc) => Some(doc.id)
    case Enrolling(doc) => Some(doc.id)
    case _ => None
  }

  ghost predicate OneWindowPerContent(uploads: map<nat, Upload>) {
    forall u, v | u in uploads && v in uploads && Window(uploads[u]).Some?
      && Window(uploads[u]) == Window(uploads[v]) :: u == v
  }

  ghost predicate DistinctNewIds(uploads: map<nat, Upload>) {
    forall u, v | u in uploads && v in uploads && NewId(uploads[u]).Some?
      && NewId(uploads[u]) == NewId(uploads[v]) :: u == v
  }

  /** What the program point of an upload says about the repositories. */
  ghost predicate UploadOk(s: System, pc: Upload) {
    match pc
    case Checking(_) => true
    case Duplicate(doc) => doc.id in s.docs.byId && s.docs.byId[doc.id] == doc
    case Storing(request) => request.contentHash !in s.docs.byHash
    case Creating(doc) => doc.contentHash !in s.docs.byHash && doc.id !in s.docs.byId && doc.id in s.issued
    case Enrolling(doc) => doc.id in s.docs.byId && s.docs.byId[doc.id] == doc && doc.id !in s.jobs.latest
    case Submitting(doc, job) => job.documentId == doc.id
    case Finished(_) => true
  }

  /** A document is being enrolled: its job is not there yet. */
  ghost predicate BeingEnrolled(uploads: map<nat, Upload>, docId: string) {
    exists u :: u in uploads && uploads[u].Enrolling? && uploads[u].doc.id == docId
  }

  ghost predicate LatestOk(jobs: Jobs) {
    && (forall d | d in jobs.latest ::
          jobs.latest[d] in jobs.byId && jobs.byId[jobs.latest[d]].documentId == d)
    && (forall id | id in jobs.byId ::
          jobs.byId[id].id == id && jobs.byId[id].documentId in jobs.latest
            && jobs.latest[jobs.byId[id].documentId] == id)
  }

  ghost predicate UploadsOk(s: System) {
    forall u | u in s.uploads :: UploadOk(s, s.uploads[u])
  }

  /** Every document has a job, or is about to get one. */
  ghost predicate DocsHaveJobs(docs: Documents, jobs: Jobs, uploads: map<nat, Upload>) {
    forall id | id in docs.byId :: id in jobs.latest || BeingEnrolled(uploads, id)
  }

  ghost predicate Known(docs: Documents, jobs: Jobs, issued: set<string>) {
    && (forall id | id in docs.byId :: id in issued)
    && (forall d | d in jobs.latest :: d in docs.byId)
    && (forall id | id in jobs.byId :: id in issued)
  }

  ghost predicate Deduplicated(s: System) {
    && DocsAgree(s.docs)
    && LatestOk(s.jobs)
    && OneWindowPerContent(s.uploads)
    && DistinctNewIds(s.uploads)
    && UploadsOk(s)
    && DocsHaveJobs(s.docs, s.jobs, s.uploads)
    && Known(s.docs, s.jobs, s.issued)
  }

  lemma DedupElim(s: System)
    requires Deduplicated(s)
    ensures DocsAgree(s.docs) && LatestOk(s.jobs)
    ensures OneWindowPerContent(s.uploads) && DistinctNewIds(s.uploads) && UploadsOk(s)
    ensures DocsHaveJobs(s.docs, s.jobs, s.uploads) && Known(s.docs, s.jobs, s.issued)
  {
    hide DocsAgree, LatestOk, OneWindowPerContent, DistinctNewIds, UploadsOk, DocsHaveJobs, Known;
  }

  lemma DedupIntro(s: System)
    requires DocsAgree(s.docs) && LatestOk(s.jobs)
    requires OneWindowPerContent(s.uploads) && DistinctNewIds(s.uploads) && UploadsOk(s)
    requires DocsHaveJobs(s.docs, s.jobs, s.uploads) && Known(s.docs, s.jobs, s.issued)
    ensures Deduplicated(s)
  {
    hide DocsAgree, LatestOk, OneWindowPerContent, DistinctNewIds, UploadsOk, DocsHaveJobs, Known;
  }

  /** No upload checks for a content while another one has found it missing and not created it yet. */
  predicate NoOverlap(s: System, a: Action) {
    a.Check? && a.u in s.uploads && s.uploads[a.u].Checking? ==>
      forall v | v in s.uploads :: Window(s.uploads[v]) != Some(s.uploads[a.u].request.contentHash)
  }

  // ---------------------------------------------------------------- steps that leave the uploads alone

  /** Job records changed, but not which jobs there are, nor their documents. */
  ghost predicate SameJobs(before: Jobs, after: Jobs) {
    && after.latest == before.latest
    && (forall id :: id in after.byId <==> id in before.byId)
    && (forall id | id in before.byId ::
          after.byId[id].id == before.byId[id].id && after.byId[id].documentId == before.byId[id].documentId)
  }

  lemma SameIsSame(jobs: Jobs)
    ensures SameJobs(jobs, jobs)
  {
  }

  lemma SameUploads(s: System, after: System)
    requires UploadsOk(s) && SameJobs(s.jobs, after.jobs)
    requires after.docs == s.docs && after.uploads == s.uploads && after.issued == s.issued
    ensures UploadsOk(after)
  {
    forall u | u in after.uploads ensures UploadOk(after, after.uploads[u]) {
      assert UploadOk(s, s.uploads[u]);
    }
  }

  lemma SameLatest(docs: Documents, jobs: Jobs, jobs': Jobs, uploads: map<nat, Upload>, issued: set<string>)
    requires SameJobs(jobs, jobs')
    requires LatestOk(jobs) && DocsHaveJobs(docs, jobs, uploads) && Known(docs, jobs, issued)
    ensures LatestOk(jobs') && DocsHaveJobs(docs, jobs', uploads) && Known(docs, jobs', issued)
  {
    hide BeingEnrolled;
  }

  lemma WorkIsInStep(s: System, after: System)
    requires Deduplicated(s) && SameJobs(s.jobs, after.jobs)
    requires after.docs == s.docs && after.uploads == s.uploads && after.issued == s.issued
    ensures Deduplicated(after)
  {
    hide *;
    DedupElim(s);
    SameUploads(s, after);
    SameLatest(s.docs, s.jobs, after.jobs, s.uploads, s.issued);
    DedupIntro(after);
  }

  lemma StoringIsSame(s: System, w: nat, job: Job, stage: Stage)
    requires Lifecycle(s) && w in s.works && job.id == s.works[w].job.id && job.documentId == s.works[w].job.documentId
    ensures SameJobs(s.jobs, Stored(s, w, job, stage).jobs)
  {
    HeldJob(s, w);
    hide Lifecycle, KeepsText;
  }

  lemma WorkActionIsInStep(s: System, a: Action)
    requires Deduplicated(s) && Lifecycle(s) && Can(s, a)
    requires WorkerAction(a) || a.TakeJob? || a.Return? || a.PoolAction?
    ensures Deduplicated(Do(s, a))
  {
    WorkActionIsSame(s, a);
    hide *;
    WorkIsInStep(s, Do(s, a));
  }

  lemma WorkActionIsSame(s: System, a: Action)
    requires Lifecycle(s) && Can(s, a)
    requires WorkerAction(a) || a.TakeJob? || a.Return? || a.PoolAction?
    ensures var after := Do(s, a);
      && SameJobs(s.jobs, after.jobs)
      && after.docs == s.docs && after.uploads == s.uploads && after.issued == s.issued
  {
    SameIsSame(s.jobs);
    hide Lifecycle, Enabled, WorkerPool.Apply, SameJobs;
    match a
    case StartExtract(w) => StoringIsSame(s, w, MarkExtracting(s.works[w].job), Started);
    case StartEmbed(w) => StoringIsSame(s, w, MarkEmbedding(s.works[w].job), Sent(s.works[w].stage.doc));
    case Load(w) => StoringIsSame(s, w, MarkFailed(s.works[w].job, LOAD_FAILED), Over);
    case ExtractReturns(w, e) =>
      if e.ExtractError? { StoringIsSame(s, w, MarkFailed(s.works[w].job, e.cause), Over); }
    case EmbedReturns(w, r) =>
      if r.EmbedError? { StoringIsSame(s, w, MarkFailed(s.works[w].job, r.cause), Over); }
      else { StoringIsSame(s, w, MarkCompleted(s.works[w].job, r.total, r.skipped), Over); }
    case _ =>
  }

  // ---------------------------------------------------------------- an upload's own steps

  lemma OneUploadMoves(uploads: map<nat, Upload>, u: nat, pc: Upload)
    requires OneWindowPerContent(uploads)
    requires Window(pc).Some? ==> forall v | v in uploads && Window(uploads[v]) == Window(pc) :: v == u
    ensures OneWindowPerContent(uploads[u := pc])
  {
  }

  lemma NewIdMoves(uploads: map<nat, Upload>, u: nat, pc: Upload)
    requires DistinctNewIds(uploads)
    requires NewId(pc).Some? ==> forall v | v in uploads && NewId(uploads[v]) == NewId(pc) :: v == u
    ensures DistinctNewIds(uploads[u := pc])
  {
  }

  lemma EnrollingStays(uploads: map<nat, Upload>, u: nat, pc: Upload, id: string)
    requires BeingEnrolled(uploads, id)
    requires u in uploads && uploads[u].Enrolling? ==> uploads[u].doc.id != id
    ensures BeingEnrolled(uploads[u := pc], id)
  {
    var v :| v in uploads && uploads[v].Enrolling? && uploads[v].doc.id == id;
    assert v in uploads[u := pc] && uploads[u := pc][v].Enrolling?;
  }

  /** No other upload holds an id that is not issued yet. */
  lemma NewIdIsUnknown(s: System, pc: Upload)
    requires UploadsOk(s) && Known(s.docs, s.jobs, s.issued)
    requires !pc.Enrolling? && (pc.Creating? ==> pc.doc.id !in s.issued)
    ensures NewId(pc).Some? ==> forall v | v in s.uploads :: NewId(s.uploads[v]) != NewId(pc)
  {
    forall v | v in s.uploads && NewId(s.uploads[v]).Some? ensures NewId(s.uploads[v]).value in s.issued {
      assert UploadOk(s, s.uploads[v]);
    }
  }

  /** An upload moves on without touching a repository. */
  lemma UploadMoves(s: System, after: System, u: nat, pc: Upload)
    requires Deduplicated(s)
    requires after.docs == s.docs && after.jobs == s.jobs && s.issued <= after.issued
    requires after.uploads == s.uploads[u := pc]
    requires u in s.uploads ==> !s.uploads[u].Enrolling?
    requires UploadOk(after, pc) && !pc.Enrolling?
    requires Window(pc).Some? ==> forall v | v in s.uploads && Window(s.uploads[v]) == Window(pc) :: v == u
    requires pc.Creating? ==> pc.doc.id !in s.issued
    ensures Deduplicated(after)
  {
    DedupElim(s);
    OneUploadMoves(s.uploads, u, pc);
    hide Deduplicated;
    forall v | v in s.uploads ensures UploadOk(after, s.uploads[v]) {
      IssuedGrows(s, after, v);
    }
    assert UploadsOk(after) by { hide UploadOk; }
    NewIdIsUnknown(s, pc);
    NewIdMoves(s.uploads, u, pc);
    hide UploadsOk, OneWindowPerContent, DistinctNewIds, UploadOk;
    forall id | BeingEnrolled(s.uploads, id) ensures BeingEnrolled(after.uploads, id) {
      EnrollingStays(s.uploads, u, pc, id);
    }
    assert DocsHaveJobs(after.docs, after.jobs, after.uploads) by { hide BeingEnrolled; }
    assert Known(after.docs, after.jobs, after.issued);
    hide *;
    DedupIntro(after);
  }

  lemma IssuedGrows(s: System, after: System, v: nat)
    requires UploadsOk(s) && v in s.uploads && after.docs == s.docs && after.jobs == s.jobs && s.issued <= after.issued
    ensures UploadOk(after, s.uploads[v])
  {
    assert UploadOk(s, s.uploads[v]);
  }

  lemma OwnContent(s: System, u: nat)
    requires Deduplicated(s) && u in s.uploads
    ensures UploadOk(s, s.uploads[u])
    ensures Window(s.uploads[u]).Some? ==>
      forall v | v in s.uploads && Window(s.uploads[v]) == Window(s.uploads[u]) :: v == u
    ensures NewId(s.uploads[u]).Some? ==>
      forall v | v in s.uploads && NewId(s.uploads[v]) == NewId(s.uploads[u]) :: v == u
  {
    DedupElim(s);
    hide UploadOk;
  }

  /** Looking a content up finds its document, exactly when there is one. */
  lemma FindByHashSpec(docs: Documents, h: string)
    requires DocsAgree(docs)
    ensures match FindByHash(docs, h)
      case Some(doc) => doc.contentHash == h && doc.id in docs.byId && docs.byId[doc.id] == doc && h in docs.byHash
      case None => h !in docs.byHash && forall id | id in docs.byId :: docs.byId[id].contentHash != h
  {
  }

  lemma CheckStep(s: System, u: nat)
    requires Deduplicated(s) && u in s.uploads && s.uploads[u].Checking? && NoOverlap(s, Check(u))
    ensures Deduplicated(AfterCheck(s, u, s.uploads[u].request))
  {
    var request := s.uploads[u].request;
    OwnContent(s, u);
    DedupElim(s);
    FindByHashSpec(s.docs, request.contentHash);
    var pc := match FindByHash(s.docs, request.contentHash)
      case Some(doc) => Duplicate(doc) case None => Storing(request);
    hide Deduplicated, FindByHash;
    UploadMoves(s, AfterCheck(s, u, request), u, pc);
  }

  lemma PutStep(s: System, u: nat, docId: string, uri: string)
    requires Deduplicated(s) && Can(s, Put(u, docId, uri))
    ensures Deduplicated(Do(s, Put(u, docId, uri)))
  {
    var request := s.uploads[u].request;
    OwnContent(s, u);
    assert docId !in s.docs.byId by { DedupElim(s); }
    hide Deduplicated;
    UploadMoves(s, Do(s, Put(u, docId, uri)), u, Creating(DocumentFor(request, docId, uri)));
  }

  /** An upload ends, or has its job submitted: no repository changes. */
  lemma EndStep(s: System, after: System, u: nat, pc: Upload)
    requires Deduplicated(s) && u in s.uploads && !s.uploads[u].Enrolling?
    requires after.docs == s.docs && after.jobs == s.jobs && after.issued == s.issued
    requires after.uploads == s.uploads[u := pc] && pc.Finished?
    ensures Deduplicated(after)
  {
    hide Deduplicated;
    UploadMoves(s, after, u, pc);
  }

  lemma DocsGrow(docs: Documents, doc: Document)
    requires DocsAgree(docs) && doc.id !in docs.byId && doc.contentHash !in docs.byHash
    ensures DocsAgree(CreateDocument(docs, doc))
  {
  }

  /** The program points of other uploads survive the creation of this one's document. */
  lemma OtherUpload(s: System, after: System, u: nat, v: nat)
    requires UploadsOk(s) && OneWindowPerContent(s.uploads) && DistinctNewIds(s.uploads)
    requires u in s.uploads && s.uploads[u].Creating? && v in s.uploads && v != u
    requires after == AtUpload(s, u, Enrolling(s.uploads[u].doc)).(docs := CreateDocument(s.docs, s.uploads[u].doc))
    ensures UploadOk(after, s.uploads[v])
  {
    assert UploadOk(s, s.uploads[u]) && UploadOk(s, s.uploads[v]);
    assert Window(s.uploads[v]).Some? ==> Window(s.uploads[v]) != Window(s.uploads[u]);
    assert NewId(s.uploads[v]).Some? ==> NewId(s.uploads[v]) != NewId(s.uploads[u]);
  }

  lemma KnownDoc(docs: Documents, jobs: Jobs, issued: set<string>, doc: Document)
    requires Known(docs, jobs, issued) && doc.id in issued
    ensures Known(CreateDocument(docs, doc), jobs, issued)
  {
  }

  lemma CreatingOk(s: System, doc: Document)
    requires UploadOk(s, Creating(doc))
    ensures doc.contentHash !in s.docs.byHash && doc.id !in s.docs.byId && doc.id in s.issued
  {
  }

  lemma NowEnrolling(s: System, doc: Document)
    requires doc.id in s.docs.byId && s.docs.byId[doc.id] == doc && doc.id !in s.jobs.latest
    ensures UploadOk(s, Enrolling(doc))
  {
  }

  lemma Created(docs: Documents, doc: Document)
    ensures doc.id in CreateDocument(docs, doc).byId && CreateDocument(docs, doc).byId[doc.id] == doc
  {
  }

  lemma CreateDocFields(s: System, u: nat, doc: Document)
    ensures var after := AtUpload(s, u, Enrolling(doc)).(docs := CreateDocument(s.docs, doc));
      && after.docs == CreateDocument(s.docs, doc) && after.jobs == s.jobs && after.issued == s.issued
      && after.uploads == s.uploads[u := Enrolling(doc)]
  {
  }

  lemma CreateDocStep(s: System, u: nat)
    requires Deduplicated(s) && u in s.uploads && s.uploads[u].Creating?
    ensures var doc := s.uploads[u].doc;
      Deduplicated(AtUpload(s, u, Enrolling(doc)).(docs := CreateDocument(s.docs, doc)))
  {
    var doc := s.uploads[u].doc;
    assert NewId(s.uploads[u]) == Some(doc.id) == NewId(Enrolling(doc)) && Window(Enrolling(doc)) == None;
    hide *;
    var after := AtUpload(s, u, Enrolling(doc)).(docs := CreateDocument(s.docs, doc));
    DedupElim(s);
    OwnContent(s, u);
    CreateDocFields(s, u, doc);
    CreatingOk(s, doc);
    DocsGrow(s.docs, doc);
    NoJobYet(s.docs, s.jobs, s.issued, doc.id);
    Created(s.docs, doc);
    NowEnrolling(after, doc);
    forall v | v in s.uploads && v != u ensures UploadOk(after, s.uploads[v]) {
      OtherUpload(s, after, u, v);
    }
    MovedOk(s, after, u, Enrolling(doc));
    OneUploadMoves(s.uploads, u, Enrolling(doc));
    NewIdMoves(s.uploads, u, Enrolling(doc));
    NewDocHasUpload(s.docs, s.jobs, s.uploads, u, doc);
    KnownDoc(s.docs, s.jobs, s.issued, doc);
    DedupIntro(after);
  }

  lemma NoJobYet(docs: Documents, jobs: Jobs, issued: set<string>, id: string)
    requires Known(docs, jobs, issued) && id !in docs.byId
    ensures id !in jobs.latest
  {
  }

  lemma NewDocHasUpload(docs: Documents, jobs: Jobs, uploads: map<nat, Upload>, u: nat, doc: Document)
    requires DocsHaveJobs(docs, jobs, uploads) && u in uploads && !uploads[u].Enrolling?
    ensures DocsHaveJobs(CreateDocument(docs, doc), jobs, uploads[u := Enrolling(doc)])
  {
    var after := uploads[u := Enrolling(doc)];
    assert BeingEnrolled(after, doc.id) by { assert after[u].Enrolling? && after[u].doc.id == doc.id; }
    forall id | BeingEnrolled(uploads, id) ensures BeingEnrolled(after, id) {
      EnrollingStays(uploads, u, Enrolling(doc), id);
    }
    hide BeingEnrolled;
  }

  lemma EnrolledJobs(jobs: Jobs, job: Job)
    requires LatestOk(jobs) && job.id !in jobs.byId && job.documentId !in jobs.latest
    ensures LatestOk(CreateJob(jobs, job))
  {
  }

  lemma DocGotJob(docs: Documents, jobs: Jobs, uploads: map<nat, Upload>, u: nat, pc: Upload, job: Job)
    requires DocsHaveJobs(docs, jobs, uploads) && u in uploads && uploads[u].Enrolling?
    requires job.documentId == uploads[u].doc.id
    ensures DocsHaveJobs(docs, CreateJob(jobs, job), uploads[u := pc])
  {
    forall id | BeingEnrolled(uploads, id) && id != job.documentId ensures BeingEnrolled(uploads[u := pc], id) {
      EnrollingStays(uploads, u, pc, id);
    }
    hide BeingEnrolled;
  }

  /** The program points of other uploads survive the creation of this one's job. */
  lemma OtherEnrolled(s: System, after: System, u: nat, v: nat, job: Job)
    requires UploadsOk(s) && DistinctNewIds(s.uploads)
    requires u in s.uploads && s.uploads[u].Enrolling? && v in s.uploads && v != u
    requires after.docs == s.docs && after.jobs == CreateJob(s.jobs, job) && s.issued <= after.issued
    requires job.documentId == s.uploads[u].doc.id
    ensures UploadOk(after, s.uploads[v])
  {
    assert UploadOk(s, s.uploads[u]) && UploadOk(s, s.uploads[v]);
    assert s.uploads[v].Enrolling? ==> NewId(s.uploads[v]) != NewId(s.uploads[u]);
  }

  lemma EnrollFields(s: System, u: nat, doc: Document, jobId: string)
    ensures var after, job := AfterEnroll(s, u, doc, jobId), NewJob(jobId, doc.id);
      && job.id == jobId && job.documentId == doc.id
      && after.docs == s.docs && after.jobs == CreateJob(s.jobs, job) && after.issued == s.issued + {jobId}
      && after.uploads == s.uploads[u := Submitting(doc, job)] && UploadOk(after, Submitting(doc, job))
  {
  }

  lemma KnownJob(docs: Documents, jobs: Jobs, issued: set<string>, job: Job)
    requires Known(docs, jobs, issued) && job.documentId in docs.byId
    ensures Known(docs, CreateJob(jobs, job), issued + {job.id})
    ensures job.id !in issued ==> job.id !in jobs.byId
  {
  }

  lemma MovedOk(s: System, after: System, u: nat, pc: Upload)
    requires after.uploads == s.uploads[u := pc] && UploadOk(after, pc)
    requires forall v | v in s.uploads && v != u :: UploadOk(after, s.uploads[v])
    ensures UploadsOk(after)
  {
    hide UploadOk;
  }

  lemma EnrolledOk(s: System, u: nat, jobId: string)
    requires Deduplicated(s) && u in s.uploads && s.uploads[u].Enrolling? && jobId !in s.issued
    ensures Deduplicated(AfterEnroll(s, u, s.uploads[u].doc, jobId))
  {
    var doc := s.uploads[u].doc;
    hide *;
    var job, after := NewJob(jobId, doc.id), AfterEnroll(s, u, doc, jobId);
    var pc := Submitting(doc, job);
    DedupElim(s);
    OwnContent(s, u);
    EnrollFields(s, u, doc, jobId);
    EnrollingOk(s, doc);
    KnownJob(s.docs, s.jobs, s.issued, job);
    EnrolledJobs(s.jobs, job);
    forall v | v in s.uploads && v != u ensures UploadOk(after, s.uploads[v]) {
      OtherEnrolled(s, after, u, v, job);
    }
    MovedOk(s, after, u, pc);
    SubmittingHoldsNothing(doc, job);
    OneUploadMoves(s.uploads, u, pc);
    NewIdMoves(s.uploads, u, pc);
    DocGotJob(s.docs, s.jobs, s.uploads, u, pc, job);
    DedupIntro(after);
  }

  lemma EnrollingOk(s: System, doc: Document)
    requires UploadOk(s, Enrolling(doc))
    ensures doc.id in s.docs.byId && doc.id !in s.jobs.latest
  {
  }

  lemma SubmittingHoldsNothing(doc: Document, job: Job)
    ensures Window(Submitting(doc, job)) == None && NewId(Submitting(doc, job)) == None
  {
  }

  /** Every action keeps uploads deduplicated while no check falls into another upload's window. */
  lemma ActionKeepsDedup(s: System, a: Action)
    requires Lifecycle(s) && Deduplicated(s) && Can(s, a) && NoOverlap(s, a)
    ensures Deduplicated(Do(s, a))
  {
    hide Lifecycle, Deduplicated;
    match a
    case Begin(u, request) => UploadMoves(s, Do(s, a), u, Checking(request));
    case Check(u) => CheckStep(s, u);
    case FindJob(u) => EndStep(s, Do(s, a), u, Do(s, a).uploads[u]);
    case Put(u, docId, uri) => PutStep(s, u, docId, uri);
    case PutFails(u) => EndStep(s, Do(s, a), u, Finished(StoreFailed));
    case CreateDoc(u) => CreateDocStep(s, u);
    case Enroll(u, jobId) => EnrolledOk(s, u, jobId);
    case SubmitQueued(u) => EndStep(s, Do(s, a), u, Do(s, a).uploads[u]);
    case SubmitHanded(u, w) => EndStep(s, Do(s, a), u, Do(s, a).uploads[u]);
    case SubmitFull(u) => EndStep(s, Do(s, a), u, Do(s, a).uploads[u]);
    case _ => WorkActionIsInStep(s, a);
  }

  // ---------------------------------------------------------------- every run

  /** No check of a run falls into another upload's window for the same content. */
  ghost predicate Separate(s: System, actions: seq<Action>)
    requires Run(s, actions)
  {
    actions != [] ==>
      && Separate(s, actions[..|actions| - 1])
      && NoOverlap(Reached(s, actions[..|actions| - 1]), actions[|actions| - 1])
  }

  lemma {:induction false} ContinuationKeepsDedup(s: System, actions: seq<Action>)
    requires Lifecycle(s) && Deduplicated(s) && Run(s, actions) && Separate(s, actions)
    ensures Lifecycle(Reached(s, actions)) && Deduplicated(Reached(s, actions))
  {
    if actions != [] {
      var init := actions[..|actions| - 1];
      ContinuationKeepsDedup(s, init);
      hide Deduplicated, Lifecycle, NoOverlap, Can, Do;
      ActionKeepsDedup(Reached(s, init), actions[|actions| - 1]);
      ActionKeepsLifecycle(Reached(s, init), actions[|actions| - 1]);
    }
  }

  lemma RunKeepsDedup(workers: nat, queueSize: nat, actions: seq<Action>)
    requires Run(Initial(workers, queueSize), actions) && Separate(Initial(workers, queueSize), actions)
    ensures Deduplicated(Reached(Initial(workers, queueSize), actions))
    ensures Lifecycle(Reached(Initial(workers, queueSize), actions))
  {
    InitialIsDeduplicated(workers, queueSize);
    hide *;
    ContinuationKeepsDedup(Initial(workers, queueSize), actions);
  }

  lemma InitialIsDeduplicated(workers: nat, queueSize: nat)
    ensures Deduplicated(Initial(workers, queueSize)) && Lifecycle(Initial(workers, queueSize))
  {
  }

  /** Over every run of separate uploads a content has one document, found under its hash, a document
      has one job, found under its id, and only an upload still enrolling has a document without job. */
  lemma OneDocumentPerContent(workers: nat, queueSize: nat, actions: seq<Action>)
    requires Run(Initial(workers, queueSize), actions) && Separate(Initial(workers, queueSize), actions)
    ensures var s := Reached(Initial(workers, queueSize), actions);
      && (forall a, b | a in s.docs.byId && b in s.docs.byId
        && s.docs.byId[a].contentHash == s.docs.byId[b].contentHash ::
            a == b)
      && (forall a | a in s.docs.byId :: FindByHash(s.docs, s.docs.byId[a].contentHash) == Some(s.docs.byId[a]))
      && (forall a | a in s.docs.byId :: FindLatest(s.jobs, a).Some? <==> !BeingEnrolled(s.uploads, a))
      && (forall i, j | i in s.jobs.byId && j in s.jobs.byId
        && s.jobs.byId[i].documentId == s.jobs.byId[j].documentId ::
            i == j)
  {
    var s := Reached(Initial(workers, queueSize), actions);
    RunKeepsDedup(workers, queueSize, actions);
    hide *;
    UniqueContents(s);
    forall a | a in s.docs.byId ensures FindLatest(s.jobs, a).Some? <==> !BeingEnrolled(s.uploads, a) {
      HasJob(s, a);
    }
  }

  lemma UniqueContents(s: System)
    requires Deduplicated(s)
    ensures forall a, b | a in s.docs.byId && b in s.docs.byId
      && s.docs.byId[a].contentHash == s.docs.byId[b].contentHash ::
      a == b
    ensures forall a | a in s.docs.byId :: FindByHash(s.docs, s.docs.byId[a].contentHash) == Some(s.docs.byId[a])
    ensures forall i, j | i in s.jobs.byId && j in s.jobs.byId
      && s.jobs.byId[i].documentId == s.jobs.byId[j].documentId ::
      i == j
  {
    DedupElim(s);
    hide BeingEnrolled, OneWindowPerContent, DistinctNewIds, UploadsOk;
  }

  /** A document's job is missing exactly while the upload that created it has not enrolled it. */
  lemma HasJob(s: System, docId: string)
    requires Deduplicated(s) && docId in s.docs.byId
    ensures FindLatest(s.jobs, docId).Some? <==> !BeingEnrolled(s.uploads, docId)
    ensures FindLatest(s.jobs, docId).Some? ==> FindLatest(s.jobs, docId).value.documentId == docId
  {
    DedupElim(s);
    forall u | u in s.uploads && s.uploads[u].Enrolling? ensures s.uploads[u].doc.id !in s.jobs.latest {
      assert UploadOk(s, s.uploads[u]);
    }
    hide DocsAgree, OneWindowPerContent, DistinctNewIds, UploadsOk;
  }

  /** An upload that found a document changes nothing; it is answered with the document's job, or with an
      error exactly when the document is still being enrolled. */
  lemma DuplicateIsAnswered(s: System, u: nat)
    requires Deduplicated(s) && Can(s, FindJob(u))
    ensures var doc := s.uploads[u].doc;
      && doc.id in s.docs.byId && s.docs.byId[doc.id] == doc
      && (BeingEnrolled(s.uploads, doc.id) ==> Do(s, FindJob(u)) == AtUpload(s, u, Finished(JobMissing)))
      && (!BeingEnrolled(s.uploads, doc.id) ==>
            && FindLatest(s.jobs, doc.id).Some? && FindLatest(s.jobs, doc.id).value.documentId == doc.id
            && Do(s, FindJob(u)) == AtUpload(s, u, Finished(Reused(doc, FindLatest(s.jobs, doc.id).value))))
  {
    OwnContent(s, u);
    HasJob(s, s.uploads[u].doc.id);
    hide Deduplicated, BeingEnrolled, FindLatest;
  }

  /** Uploading a known content again, whatever else is under way: the first document and its job come back,
      or the missing job is reported while the first upload is still enrolling it; no document, job, stored
      object or queue entry is added. */
  lemma RepeatUpload(s: System, u: nat, request: Request)
    requires Deduplicated(s) && Can(s, Begin(u, request)) && request.contentHash in s.docs.byHash
    ensures FindByHash(s.docs, request.contentHash).Some?
    ensures var doc := FindByHash(s.docs, request.contentHash).value;
      var s1 := Do(s, Begin(u, request));
      && Can(s1, Check(u)) && NoOverlap(s1, Check(u))
      && var s2 := Do(s1, Check(u));
      && Can(s2, FindJob(u))
      && (BeingEnrolled(s.uploads, doc.id) ==> Do(s2, FindJob(u)) == AtUpload(s, u, Finished(JobMissing)))
      && (!BeingEnrolled(s.uploads, doc.id) ==>
            && FindLatest(s.jobs, doc.id).Some? && FindLatest(s.jobs, doc.id).value.documentId == doc.id
            && Do(s2, FindJob(u)) == AtUpload(s, u, Finished(Reused(doc, FindLatest(s.jobs, doc.id).value))))
  {
    DedupElim(s);
    FindByHashSpec(s.docs, request.contentHash);
    var doc := FindByHash(s.docs, request.contentHash).value;
    HasJob(s, doc.id);
    KnownContentIsFree(s, u, request);
    hide *;
    RepeatSteps(s, u, request, doc);
  }

  /** A known content is in no upload's window. */
  lemma KnownContentIsFree(s: System, u: nat, request: Request)
    requires UploadsOk(s) && u !in s.uploads && request.contentHash in s.docs.byHash
    ensures NoOverlap(AtUpload(s, u, Checking(request)), Check(u))
  {
    forall v | v in s.uploads ensures Window(s.uploads[v]) != Some(request.contentHash) {
      assert UploadOk(s, s.uploads[v]);
    }
  }

  lemma RepeatSteps(s: System, u: nat, request: Request, doc: Document)
    requires Can(s, Begin(u, request)) && FindByHash(s.docs, request.contentHash) == Some(doc)
    ensures var s1 := Do(s, Begin(u, request));
      && s1 == AtUpload(s, u, Checking(request)) && Can(s1, Check(u))
      && var s2 := Do(s1, Check(u));
      && Can(s2, FindJob(u))
      && Do(s2, FindJob(u)) == AtUpload(s, u, Finished(
           match FindLatest(s.jobs, doc.id) case Some(job) => Reused(doc, job) case None => JobMissing))
  {
    hide FindByHash, FindLatest;
    var answer := match FindLatest(s.jobs, doc.id) case Some(job) => Reused(doc, job) case None => JobMissing;
    assert s.uploads[u := Checking(request)][u := Duplicate(doc)][u := Finished(answer)]
      == s.uploads[u := Finished(answer)];
  }

  /** What the full queue refused cannot be uploaded again: after any continuation, repeating the upload
      still finds the document's refused job, pending for ever. */
  lemma RefusedUploadIsStuck(workers: nat, queueSize: nat, actions: seq<Action>, n: nat, id: string)
    requires Run(Initial(workers, queueSize), actions) && Separate(Initial(workers, queueSize), actions)
    requires n <= |actions| && Run(Initial(workers, queueSize), actions[..n])
    requires var s := Reached(Initial(workers, queueSize), actions[..n]); id in s.where && s.where[id] == Rejected
    ensures var t := Reached(Initial(workers, queueSize), actions);
      && id in t.jobs.byId && t.jobs.byId[id].status == Pending
      && FindLatest(t.jobs, t.jobs.byId[id].documentId) == Some(t.jobs.byId[id])
      && t.jobs.byId[id].documentId in t.docs.byId
      && var doc := t.docs.byId[t.jobs.byId[id].documentId];
         FindByHash(t.docs, doc.contentHash) == Some(doc)
  {
    RefusedJobStaysPending(workers, queueSize, actions, n, id);
    RunKeepsDedup(workers, queueSize, actions);
    DedupElim(Reached(Initial(workers, queueSize), actions));
    hide Deduplicated, Lifecycle, Run, Reached, Separate, Initial;
  }
}
