/** Uploads need exactly separate windows: a check inside another upload's window can always be continued to
    two documents of one content, a check outside never can. Also runs that reach the other odd ends. */
module UploadOverlap {
  import opened Collections
  import opened WorkerPool
  import opened Ingestion
  import opened JobLifecycle
  import opened UploadDedup

  ghost predicate TwoDocuments(docs: Documents) {
    exists a, b :: a in docs.byId && b in docs.byId && a != b && docs.byId[a].contentHash == docs.byId[b].contentHash
  }

  predicate NoChecks(actions: seq<Action>) {
    forall a | a in actions :: !a.Check?
  }

  /** After the check of `u` and `rest`, without further checks, a content has two documents. */
  ghost predicate Duplicates(s: System, u: nat, rest: seq<Action>) {
    NoChecks(rest) && Run(s, [Check(u)] + rest) && TwoDocuments(Reached(s, [Check(u)] + rest).docs)
  }

  // ---------------------------------------------------------------- fresh ids

  function Name(n: nat): (name: string)
    ensures |name| == n
  {
    seq(n, i => 'x')
  }

  lemma LongerThan(names: set<string>) returns (n: nat)
    ensures forall x | x in names :: |x| < n
  {
    if names == {} {
      n := 0;
    } else {
      var x :| x in names;
      var m := LongerThan(names - {x});
      n := if m <= |x| then |x| + 1 else m;
      forall y | y in names ensures |y| < n {
        assert y == x || y in names - {x};
      }
    }
  }

  lemma FreshName(names: set<string>) returns (name: string)
    ensures name !in names
  {
    var n := LongerThan(names);
    name := Name(n);
  }

  // ---------------------------------------------------------------- inside a window

  lemma PutUnfold(s: System, u: nat, docId: string)
    requires u in s.uploads && s.uploads[u].Storing? && docId !in s.issued
    ensures Can(s, Put(u, docId, ""))
    ensures Do(s, Put(u, docId, "")) == s.(
      uploads := s.uploads[u := Creating(DocumentFor(s.uploads[u].request, docId, ""))], issued := s.issued + {docId})
  {
  }

  lemma CreateUnfold(s: System, u: nat)
    requires u in s.uploads && s.uploads[u].Creating?
    ensures Can(s, CreateDoc(u))
    ensures Do(s, CreateDoc(u)) == s.(
      uploads := s.uploads[u := Enrolling(s.uploads[u].doc)], docs := CreateDocument(s.docs, s.uploads[u].doc))
  {
  }

  lemma CreatedTwice(docs: Documents, a: Document, b: Document)
    requires a.id != b.id && a.contentHash == b.contentHash
    ensures TwoDocuments(CreateDocument(CreateDocument(docs, a), b))
  {
    var after := CreateDocument(CreateDocument(docs, a), b);
    assert a.id in after.byId && b.id in after.byId;
    assert after.byId[a.id].contentHash == after.byId[b.id].contentHash;
  }

  /** Both uploads are past their check: each stores and creates its own document. */
  lemma BothCreate(s: System, before: seq<Action>, u: nat, v: nat) returns (rest: seq<Action>)
    requires Run(s, before)
    requires var t := Reached(s, before);
      && u != v && u in t.uploads && v in t.uploads && t.uploads[u].Storing? && t.uploads[v].Creating?
      && Window(t.uploads[u]) == Window(t.uploads[v]) && t.uploads[v].doc.id in t.issued
    ensures NoChecks(rest) && Run(s, before + rest) && TwoDocuments(Reached(s, before + rest).docs)
  {
    var t := Reached(s, before);
    var docId := FreshName(t.issued);
    var a, b := t.uploads[v].doc, DocumentFor(t.uploads[u].request, docId, "");
    var put, first, second := Put(u, docId, ""), CreateDoc(v), CreateDoc(u);
    PutUnfold(t, u, docId);
    var t1 := Do(t, put);
    CreateUnfold(t1, v);
    var t2 := Do(t1, first);
    CreateUnfold(t2, u);
    CreatedTwice(t.docs, a, b);
    rest := [put, first, second];
    assert ((before + [put]) + [first]) + [second] == before + rest;
    hide Run, Reached, Can, Do;
    Extend(s, before, put);
    Extend(s, before + [put], first);
    Extend(s, (before + [put]) + [first], second);
  }

  /** A check that falls into another upload's window finds nothing, and two documents can follow. */
  lemma OverlapContinues(s: System, u: nat, v: nat) returns (rest: seq<Action>)
    requires Deduplicated(s) && Can(s, Check(u)) && v in s.uploads
    requires Window(s.uploads[v]) == Some(s.uploads[u].request.contentHash)
    ensures Duplicates(s, u, rest)
  {
    var request := s.uploads[u].request;
    OwnContent(s, v);
    assert FindByHash(s.docs, request.contentHash) == None;
    assert Run(s, []);
    Extend(s, [], Check(u));
    assert [] + [Check(u)] == [Check(u)];
    var t := Do(s, Check(u));
    assert t == AtUpload(s, u, Storing(request));
    hide Run, Reached, Do, Can, Deduplicated;
    if s.uploads[v].Creating? {
      rest := BothCreate(s, [Check(u)], u, v);
    } else {
      var docId := FreshName(t.issued);
      PutUnfold(t, v, docId);
      var put := Put(v, docId, "");
      Extend(s, [Check(u)], put);
      var more := BothCreate(s, [Check(u)] + [put], u, v);
      rest := [put] + more;
      assert ([Check(u)] + [put]) + more == [Check(u)] + rest;
    }
  }

  // ---------------------------------------------------------------- outside every window

  lemma {:induction false} NoChecksIsSeparate(s: System, first: Action, rest: seq<Action>)
    requires Run(s, [first] + rest) && NoOverlap(s, first) && NoChecks(rest)
    ensures Separate(s, [first] + rest)
  {
    var all := [first] + rest;
    if rest == [] {
      assert all[..0] == [] && all[0] == first;
      assert Separate(s, []);
    } else {
      var init, last := rest[..|rest| - 1], rest[|rest| - 1];
      assert all[..|all| - 1] == [first] + init && all[|all| - 1] == last;
      assert last in rest && forall a | a in init :: a in rest;
      NoChecksIsSeparate(s, first, init);
    }
  }

  lemma NotTwoDocuments(docs: Documents)
    requires DocsAgree(docs)
    ensures !TwoDocuments(docs)
  {
  }

  /** A check can lead to two documents of one content, without any further check, exactly when it falls
      into another upload's window for that content. */
  lemma OverlapIsExact(s: System, u: nat)
    requires Lifecycle(s) && Deduplicated(s) && Can(s, Check(u))
    ensures NoOverlap(s, Check(u)) <==> !exists rest :: Duplicates(s, u, rest)
  {
    if NoOverlap(s, Check(u)) {
      forall rest ensures !Duplicates(s, u, rest) {
        if NoChecks(rest) && Run(s, [Check(u)] + rest) {
          NoChecksIsSeparate(s, Check(u), rest);
          ContinuationKeepsDedup(s, [Check(u)] + rest);
          hide *;
          DedupElim(Reached(s, [Check(u)] + rest));
          NotTwoDocuments(Reached(s, [Check(u)] + rest).docs);
          NotDuplicates(s, u, rest);
        }
      }
    } else {
      var v :| v in s.uploads && Window(s.uploads[v]) == Some(s.uploads[u].request.contentHash);
      var rest := OverlapContinues(s, u, v);
    }
  }

  lemma NotDuplicates(s: System, u: nat, rest: seq<Action>)
    requires Run(s, [Check(u)] + rest) && !TwoDocuments(Reached(s, [Check(u)] + rest).docs)
    ensures !Duplicates(s, u, rest)
  {
    hide TwoDocuments, Run, Reached;
  }

  // ---------------------------------------------------------------- runs from the start

  /** The run leads to `t` with separate windows. */
  ghost predicate Leads(start: System, actions: seq<Action>, t: System) {
    Run(start, actions) && Reached(start, actions) == t && Separate(start, actions)
  }

  lemma Go(start: System, actions: seq<Action>, s: System, a: Action, t: System)
    requires Leads(start, actions, s) && Can(s, a) && Do(s, a) == t && NoOverlap(s, a)
    ensures Leads(start, actions + [a], t)
  {
    Extend(start, actions, a);
    assert (actions + [a])[..|actions|] == actions;
    hide Can, Do, NoOverlap;
  }

  lemma Started(start: System)
    ensures Leads(start, [], start)
  {
  }

  /** The check of an unknown content while all other uploads are finished. */
  lemma CheckAlone(s: System, u: nat, request: Request)
    requires u in s.uploads && s.uploads[u] == Checking(request)
    requires forall v | v in s.uploads && v != u :: Window(s.uploads[v]) == None
    requires request.contentHash !in s.docs.byHash
    ensures Can(s, Check(u)) && Do(s, Check(u)) == AtUpload(s, u, Storing(request)) && NoOverlap(s, Check(u))
  {
  }

  lemma BeginUnfold(s: System, u: nat, request: Request)
    requires u !in s.uploads
    ensures Can(s, Begin(u, request)) && Do(s, Begin(u, request)) == AtUpload(s, u, Checking(request))
  {
  }

  lemma NotACheck(s: System, a: Action)
    requires !a.Check?
    ensures NoOverlap(s, a)
  {
  }

  function Drawn(s: System, u: nat, pc: Upload, docId: string): System {
    s.(uploads := s.uploads[u := pc], issued := s.issued + {docId})
  }

  /** An uninterrupted upload of a new content up to its document. */
  lemma UploadUntilCreated(start: System, before: seq<Action>, s: System, u: nat, request: Request, docId: string)
    returns (actions: seq<Action>)
    requires Leads(start, before, s) && u !in s.uploads && docId !in s.issued
    requires forall v | v in s.uploads :: Window(s.uploads[v]) == None
    requires request.contentHash !in s.docs.byHash
    ensures var doc := DocumentFor(request, docId, "");
      Leads(start, actions, Drawn(s, u, Enrolling(doc), docId).(docs := CreateDocument(s.docs, doc)))
  {
    hide *;
    var doc := DocumentFor(request, docId, "");
    var s1, s2 := AtUpload(s, u, Checking(request)), AtUpload(s, u, Storing(request));
    var s3 := Drawn(s, u, Creating(doc), docId);
    UploadSteps(s, u, request, docId);
    Go(start, before, s, Begin(u, request), s1);
    Go(start, before + [Begin(u, request)], s1, Check(u), s2);
    Go(start, (before + [Begin(u, request)]) + [Check(u)], s2, Put(u, docId, ""), s3);
    var most := ((before + [Begin(u, request)]) + [Check(u)]) + [Put(u, docId, "")];
    Go(start, most, s3, CreateDoc(u), Drawn(s, u, Enrolling(doc), docId).(docs := CreateDocument(s.docs, doc)));
    actions := most + [CreateDoc(u)];
  }

  lemma UploadSteps(s: System, u: nat, request: Request, docId: string)
    requires u !in s.uploads && docId !in s.issued && request.contentHash !in s.docs.byHash
    requires forall v | v in s.uploads :: Window(s.uploads[v]) == None
    ensures var doc := DocumentFor(request, docId, "");
      var s1, s2 := AtUpload(s, u, Checking(request)), AtUpload(s, u, Storing(request));
      var s3 := Drawn(s, u, Creating(doc), docId);
      && Can(s, Begin(u, request)) && Do(s, Begin(u, request)) == s1 && NoOverlap(s, Begin(u, request))
      && Can(s1, Check(u)) && Do(s1, Check(u)) == s2 && NoOverlap(s1, Check(u))
      && Can(s2, Put(u, docId, "")) && Do(s2, Put(u, docId, "")) == s3 && NoOverlap(s2, Put(u, docId, ""))
      && Can(s3, CreateDoc(u)) && NoOverlap(s3, CreateDoc(u))
      && Do(s3, CreateDoc(u)) == Drawn(s, u, Enrolling(doc), docId).(docs := CreateDocument(s.docs, doc))
  {
    var doc := DocumentFor(request, docId, "");
    var s1, s2 := AtUpload(s, u, Checking(request)), AtUpload(s, u, Storing(request));
    var s3 := Drawn(s, u, Creating(doc), docId);
    assert s1.uploads[u := Storing(request)] == s2.uploads;
    assert s2.uploads[u := Creating(doc)] == s3.uploads;
    assert s3.uploads[u := Enrolling(doc)] == s.uploads[u := Enrolling(doc)];
    BeginUnfold(s, u, request);
    CheckAlone(s1, u, request);
    PutUnfold(s2, u, docId);
    CreateUnfold(s3, u);
    hide Can, Do, CreateDocument, DocumentFor;
  }

  /** The second window: a repeat between the document's creation and its job's is answered with an error. */
  lemma JobMissingHappens(workers: nat, queueSize: nat, request: Request) returns (actions: seq<Action>)
    ensures Run(Initial(workers, queueSize), actions) && Separate(Initial(workers, queueSize), actions)
    ensures var s := Reached(Initial(workers, queueSize), actions);
      1 in s.uploads && s.uploads[1] == Finished(JobMissing)
  {
    var start, doc := Initial(workers, queueSize), DocumentFor(request, "a", "");
    Started(start);
    actions := UploadUntilCreated(start, [], start, 0, request, "a");
    var s := Drawn(start, 0, Enrolling(doc), "a").(docs := CreateDocument(start.docs, doc));
    var s1, s2 := AtUpload(s, 1, Checking(request)), AtUpload(s, 1, Duplicate(doc));
    assert FindByHash(s.docs, request.contentHash) == Some(doc) && FindLatest(s.jobs, doc.id) == None;
    assert s1.uploads[1 := Duplicate(doc)] == s2.uploads;
    assert Can(s1, Check(1)) && Do(s1, Check(1)) == s2;
    assert Can(s2, FindJob(1)) && Do(s2, FindJob(1)) == AtUpload(s2, 1, Finished(JobMissing));
    BeginUnfold(s, 1, request);
    assert NoOverlap(s, Begin(1, request)) && NoOverlap(s1, Check(1)) && NoOverlap(s2, FindJob(1));
    hide Can, Do, NoOverlap, Drawn, Initial, FindByHash, FindLatest, CreateDocument, DocumentFor, Run, Reached,
      Separate;
    Go(start, actions, s, Begin(1, request), s1);
    actions := actions + [Begin(1, request)];
    Go(start, actions, s1, Check(1), s2);
    actions := actions + [Check(1)];
    Go(start, actions, s2, FindJob(1), AtUpload(s2, 1, Finished(JobMissing)));
    actions := actions + [FindJob(1)];
  }

  // ---------------------------------------------------------------- a refused job

  /** After `n` uploads nobody worked on: the queue holds their jobs. */
  ghost predicate Filled(s: System, n: nat, queueSize: nat) {
    && |s.pool.queue| == n <= queueSize == s.pool.capacity && !s.pool.closed
    && (forall u | u in s.uploads :: u < n && s.uploads[u].Finished?)
    && (forall h | h in s.docs.byHash :: |h| < n)
    && (forall id | id in s.issued :: |id| < 2 * n)
  }

  function NthRequest(n: nat): Request {
    Request("", 0, Name(n), 0, "")
  }

  lemma FilledGivesNames(s: System, n: nat, queueSize: nat)
    requires Filled(s, n, queueSize)
    ensures n !in s.uploads && Name(n) !in s.docs.byHash && Name(2 * n) !in s.issued && Name(2 * n + 1) !in s.issued
    ensures forall v | v in s.uploads :: Window(s.uploads[v]) == None
  {
  }

  lemma EnrollDo(s: System, u: nat, doc: Document, jobId: string)
    requires u in s.uploads && s.uploads[u] == Enrolling(doc) && jobId !in s.issued
    ensures Can(s, Enroll(u, jobId)) && Do(s, Enroll(u, jobId)) == AfterEnroll(s, u, doc, jobId)
  {
  }

  /** All that is known of an upload about to be submitted on top of `n` others. */
  ghost predicate OnTop(t: System, n: nat) {
    && n in t.uploads && t.uploads[n].Submitting? && t.uploads[n].job.id == Name(2 * n + 1)
    && (forall u | u in t.uploads && u != n :: u < n && t.uploads[u].Finished?)
    && (forall h | h in t.docs.byHash :: |h| < n + 1)
    && (forall id | id in t.issued :: |id| < 2 * (n + 1))
  }

  lemma NowOnTop(s: System, n: nat, queueSize: nat)
    requires Filled(s, n, queueSize)
    ensures var doc := DocumentFor(NthRequest(n), Name(2 * n), "");
      var s1 := Drawn(s, n, Enrolling(doc), Name(2 * n)).(docs := CreateDocument(s.docs, doc));
      var t := AfterEnroll(s1, n, doc, Name(2 * n + 1));
      && n in s1.uploads && s1.uploads[n] == Enrolling(doc) && Name(2 * n + 1) !in s1.issued
      && t.pool == s.pool && OnTop(t, n)
  {
    assert |Name(2 * n + 1)| != |Name(2 * n)|;
    hide Name;
  }

  lemma NthContent(n: nat)
    ensures NthRequest(n).contentHash == Name(n)
  {
    hide Name;
  }

  /** The next upload, up to its submission. */
  lemma UploadUntilSubmitting(start: System, before: seq<Action>, s: System, n: nat, queueSize: nat)
    returns (actions: seq<Action>, t: System)
    requires Leads(start, before, s) && Filled(s, n, queueSize)
    ensures Leads(start, actions, t) && t.pool == s.pool && OnTop(t, n)
  {
    hide *;
    FilledGivesNames(s, n, queueSize);
    NthContent(n);
    NowOnTop(s, n, queueSize);
    var doc := DocumentFor(NthRequest(n), Name(2 * n), "");
    actions := UploadUntilCreated(start, before, s, n, NthRequest(n), Name(2 * n));
    var s1 := Drawn(s, n, Enrolling(doc), Name(2 * n)).(docs := CreateDocument(s.docs, doc));
    EnrollDo(s1, n, doc, Name(2 * n + 1));
    t := AfterEnroll(s1, n, doc, Name(2 * n + 1));
    NotACheck(s1, Enroll(n, Name(2 * n + 1)));
    Go(start, actions, s1, Enroll(n, Name(2 * n + 1)), t);
    actions := actions + [Enroll(n, Name(2 * n + 1))];
  }

  lemma SubmitNext(t: System, n: nat, queueSize: nat)
    requires |t.pool.queue| == n <= queueSize == t.pool.capacity && !t.pool.closed
    requires OnTop(t, n)
    ensures n < queueSize ==> Can(t, SubmitQueued(n)) && Filled(Do(t, SubmitQueued(n)), n + 1, queueSize)
    ensures n == queueSize ==> Can(t, SubmitFull(n)) && Name(2 * n + 1) in Do(t, SubmitFull(n)).where
                               && Do(t, SubmitFull(n)).where[Name(2 * n + 1)] == Rejected
  {
  }

  /** Every pool, however large, can refuse a job: the hypothesis of RefusedUploadIsStuck is reached. */
  lemma RefusalHappens(workers: nat, queueSize: nat) returns (actions: seq<Action>, id: string)
    ensures Run(Initial(workers, queueSize), actions) && Separate(Initial(workers, queueSize), actions)
    ensures var s := Reached(Initial(workers, queueSize), actions); id in s.where && s.where[id] == Rejected
  {
    var start := Initial(workers, queueSize);
    var s := start;
    actions, id := [], Name(2 * queueSize + 1);
    Started(start);
    assert Filled(start, 0, queueSize);
    var t;
    hide Filled, Leads, Can, Do, Name, Initial, NoOverlap;
    for n := 0 to queueSize
      invariant Leads(start, actions, s) && Filled(s, n, queueSize)
    {
      actions, s := UploadQueued(start, actions, s, n, queueSize);
    }
    actions, t := UploadUntilSubmitting(start, actions, s, queueSize, queueSize);
    FilledPool(s, queueSize, queueSize);
    SubmitNext(t, queueSize, queueSize);
    NotACheck(t, SubmitFull(queueSize));
    Go(start, actions, t, SubmitFull(queueSize), Do(t, SubmitFull(queueSize)));
    actions := actions + [SubmitFull(queueSize)];
    LeadsUnfold(start, actions, Do(t, SubmitFull(queueSize)));
  }

  lemma LeadsUnfold(start: System, actions: seq<Action>, t: System)
    requires Leads(start, actions, t)
    ensures Run(start, actions) && Reached(start, actions) == t && Separate(start, actions)
  {
    hide Run, Reached, Separate;
  }

  lemma FilledPool(s: System, n: nat, queueSize: nat)
    requires Filled(s, n, queueSize)
    ensures |s.pool.queue| == n <= queueSize == s.pool.capacity && !s.pool.closed
  {
  }

  lemma UploadQueued(start: System, before: seq<Action>, s: System, n: nat, queueSize: nat)
    returns (actions: seq<Action>, t: System)
    requires Leads(start, before, s) && Filled(s, n, queueSize) && n < queueSize
    ensures Leads(start, actions, t) && Filled(t, n + 1, queueSize)
  {
    hide *;
    var u;
    actions, u := UploadUntilSubmitting(start, before, s, n, queueSize);
    FilledPool(s, n, queueSize);
    SubmitNext(u, n, queueSize);
    NotACheck(u, SubmitQueued(n));
    t := Do(u, SubmitQueued(n));
    Go(start, actions, u, SubmitQueued(n), t);
    actions := actions + [SubmitQueued(n)];
  }
}
