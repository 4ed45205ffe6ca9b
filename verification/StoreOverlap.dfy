/** A step keeps the two stores in step if and only if it is calm, and for each way of not being calm there is
    a run, calm otherwise, that ends at rest in disagreement. */
module StoreOverlap {
  import opened Collections
  import opened Chunking
  import opened VectorStore
  import opened EmbeddingSystem
  import opened EmbeddingCache
  import opened StoreAgreement
  import K = Keywords

  // ---------------------------------------------------------------- calm is necessary

  lemma NotLaggingIsNotInStep(s: System, model: Model)
    requires RecordsInv(s.store) && s.keywords.Valid() && !Lagging(InStore(s.store), InIndex(s.keywords), s.rpcs)
    ensures !InStep(s, model)
  {
    hide Lagging, InStore, InIndex, Transparent, RecordsInv, K.Keywords.Valid;
  }

  lemma NotStoredIsNotInStep(s: System, q: nat, c: string, model: Model)
    requires RecordsInv(s.store) && q in s.rpcs && c in PendingOf(s.rpcs[q]) && c !in InStore(s.store)
    ensures !InStep(s, model)
  {
    assert !PendingStored(InStore(s.store), s.rpcs[q]) by { NotStored(InStore(s.store), s.rpcs[q], c); }
    hide PendingStored, PendingOf, InStore, Lagging, Transparent, RecordsInv;
  }

  lemma NotStored(store: map<string, Content>, p: Rpc, c: string)
    requires c in PendingOf(p) && c !in store
    ensures !PendingStored(store, p)
  {
    var j :| 0 <= j < |PendingOf(p)| && PendingOf(p)[j] == c;
    assert p.records[p.done + j].chunkId == c;
  }

  lemma DoomedChunk(store: map<string, Content>, index: map<string, Content>, rpcs: map<nat, Rpc>, c: string)
    requires c in store && Doomed(rpcs, store[c].documentId)
    ensures !Lagging(store, index, rpcs)
  {
    hide Pending, Doomed;
  }

  lemma StillDoomed(rpcs: map<nat, Rpc>, r: nat, p: Rpc, documentId: string)
    requires Doomed(rpcs, documentId) && r in rpcs && !rpcs[r].StoreCleared?
    ensures Doomed(rpcs[r := p], documentId)
  {
    var q :| q in rpcs && rpcs[q] == StoreCleared(documentId);
    assert q in rpcs[r := p] && rpcs[r := p][q] == StoreCleared(documentId);
  }

  lemma FirstRecord(store: map<string, Content>, after: map<string, Content>, p: Rpc, ids: seq<string>)
    requires p.Ready? && |ids| == |p.chunks| > 0
      && Grown(store, after, RecordsFor(p.chunks, ids, p.documentId, p.metadata))
    ensures ids[0] in after && after[ids[0]].documentId == p.documentId
  {
    var records := RecordsFor(p.chunks, ids, p.documentId, p.metadata);
    assert records[0].chunkId == ids[0] && records[0].documentId == p.documentId;
  }

  lemma UpsertFields(s: System, r: nat, ids: seq<string>)
    requires r in s.rpcs && CanUpsert(s.rpcs[r], ids, s.issued)
    ensures var p := s.rpcs[r];
      var records := RecordsFor(p.chunks, ids, p.documentId, p.metadata);
      var after := AfterUpsert(s, r, p, ids);
      && after.store == StoreAfter(s.store, records, p.vectors) && after.keywords == s.keywords
      && after.rpcs == s.rpcs[r := Indexing(p.documentId, records, 0)]
    ensures |ids| == |s.rpcs[r].chunks| && s.rpcs[r].Ready? && NoDup(ids) && forall c | c in ids :: c !in s.issued
  {
    hide StoreAfter, RecordsFor, NoDup;
  }

  lemma ReadyIsTrue(p: Rpc, model: Model)
    requires p.Ready? && TrueRpc(p, model)
    ensures |p.vectors| == |p.chunks| > 0
  {
    hide HashedChunks;
  }

  /** Storing under a half-deleted document breaks the agreement. */
  lemma UpsertBreaks(s: System, r: nat, ids: seq<string>, model: Model)
    requires InStep(s, model) && r in s.rpcs && CanUpsert(s.rpcs[r], ids, s.issued)
    requires Doomed(s.rpcs, s.rpcs[r].documentId)
    ensures !InStep(AfterUpsert(s, r, s.rpcs[r], ids), model)
  {
    UpsertFields(s, r, ids);
    var p, after := s.rpcs[r], AfterUpsert(s, r, s.rpcs[r], ids);
    hide *;
    InStepElim(s, model);
    ReadyIsTrue(p, model);
    UpsertGrows(s.store, p, ids);
    UpsertStep(s, r, ids, model);
    TransparentInv(after, model);
    FirstRecord(InStore(s.store), InStore(after.store), p, ids);
    StillDoomed(s.rpcs, r, after.rpcs[r], p.documentId);
    DoomedChunk(InStore(after.store), InIndex(after.keywords), after.rpcs, ids[0]);
    NotLaggingIsNotInStep(after, model);
  }

  /** Some RPC of the document has a chunk waiting. */
  lemma Waiting(rpcs: map<nat, Rpc>, documentId: string) returns (q: nat, c: string)
    requires !Indexed(rpcs, documentId)
    ensures q in rpcs && rpcs[q].documentId == documentId && c in PendingOf(rpcs[q])
  {
    hide PendingOf;
    q :| q in rpcs && rpcs[q].documentId == documentId && PendingOf(rpcs[q]) != [];
    c := PendingOf(rpcs[q])[0];
  }

  lemma WaitingIsIndexing(p: Rpc, c: string)
    requires c in PendingOf(p)
    ensures p.Indexing?
  {
  }

  /** Deleting a document while chunks of it wait to be indexed breaks the agreement. */
  lemma ClearBreaks(s: System, r: nat, model: Model)
    requires InStep(s, model) && r in s.rpcs && s.rpcs[r].Deleting? && !Indexed(s.rpcs, s.rpcs[r].documentId)
    ensures !InStep(AfterClearing(s, r, s.rpcs[r].documentId), model)
  {
    hide *;
    var d := s.rpcs[r].documentId;
    var after := AfterClearing(s, r, d);
    InStepElim(s, model);
    var q, c := Waiting(s.rpcs, d);
    WaitingIsIndexing(s.rpcs[q], c);
    PendingIsStored(InStore(s.store), s.rpcs[q], c);
    ClearingUnfold(s, r, d);
    InStoreDeleted(s.store, d);
    NotStoredIsNotInStep(after, q, c, model);
  }

  lemma UnfinishedChunk(store: map<string, Content>, index: map<string, Content>, rpcs: map<nat, Rpc>, r: nat)
    requires Lagging(store, index, rpcs) && DisjointPending(rpcs) && r in rpcs && PendingOf(rpcs[r]) != []
    requires PendingStored(store, rpcs[r])
    ensures !Lagging(store, index, rpcs - {r})
  {
    var c := PendingOf(rpcs[r])[0];
    PendingIsStored(store, rpcs[r], c);
    hide PendingOf, PendingStored;
    assert c in PendingOf(rpcs[r]);
    assert Pending(rpcs, c);
    assert !Pending(rpcs - {r}, c);
    hide Pending, Doomed, DisjointPending;
  }

  lemma UnfinishedDeletion(
    store: map<string, Content>, index: map<string, Content>, rpcs: map<nat, Rpc>, r: nat, c: string)
    requires Lagging(store, index, rpcs) && r in rpcs && c in index && rpcs[r] == StoreCleared(index[c].documentId)
    requires !Doomed(rpcs - {r}, index[c].documentId)
    ensures !Lagging(store, index, rpcs - {r})
  {
    assert Doomed(rpcs, index[c].documentId);
    hide Pending, Doomed;
  }

  lemma Remaining(k: K.Keywords, documentId: string) returns (c: string)
    requires k.Valid() && !Absent(k, documentId)
    ensures c in InIndex(k) && InIndex(k)[c].documentId == documentId
  {
    c :| c in k.documents.at && k.documents.at[c] == documentId;
    assert c in k.documents.order;
  }

  /** Giving up half way breaks the agreement. */
  lemma AbandonBreaks(s: System, r: nat, model: Model)
    requires InStep(s, model) && r in s.rpcs && s.keywords.Valid() && !MayAbandon(s, r)
    ensures !InStep(s.(rpcs := s.rpcs - {r}), model)
  {
    InStepElim(s, model);
    var store, index := InStore(s.store), InIndex(s.keywords);
    hide InStep, Transparent, Inv, RecordsInv, TrueRpc, InStore, InIndex, Lagging, PendingStored, PendingOf, Doomed,
      Absent, DisjointPending, K.Keywords.Valid;
    if PendingOf(s.rpcs[r]) != [] {
      UnfinishedChunk(store, index, s.rpcs, r);
    } else {
      var c := Remaining(s.keywords, s.rpcs[r].documentId);
      assert s.rpcs[r] == StoreCleared(index[c].documentId);
      UnfinishedDeletion(store, index, s.rpcs, r, c);
    }
    NotLaggingIsNotInStep(s.(rpcs := s.rpcs - {r}), model);
  }

  /** A step keeps the stores in step if and only if it is calm. */
  lemma StepIsInStepExactly(s: System, step: Step, model: Model)
    requires Injective(model.hash) && InStep(s, model) && Enabled(s, step, model)
    ensures s.keywords.Valid() && (InStep(Apply(s, step, model), model) <==> Calm(s, step))
  {
    hide *;
    InStepElim(s, model);
    if Calm(s, step) {
      StepIsInStep(s, step, model);
    } else {
      StepUnfold(s, step, model);
      NotCalmUnfold(s, step);
      match step
      case UpsertStore(r, ids) => UpsertBreaks(s, r, ids, model);
      case ClearStore(r) => ClearBreaks(s, r, model);
      case Abandon(r) => AbandonBreaks(s, r, model);
    }
  }

  lemma NotCalmUnfold(s: System, step: Step)
    requires s.keywords.Valid() && !Calm(s, step)
    ensures match step
      case UpsertStore(r, _) => r in s.rpcs && Doomed(s.rpcs, s.rpcs[r].documentId)
      case ClearStore(r) => r in s.rpcs && !Indexed(s.rpcs, s.rpcs[r].documentId)
      case Abandon(r) => r in s.rpcs && !MayAbandon(s, r)
      case _ => false
  {
    hide Doomed, Indexed, MayAbandon;
  }

  /** Whatever a run did, a restart makes the stores agree. */
  lemma RestartRepairs(steps: seq<Step>, model: Model)
    requires Injective(model.hash) && Possible(START, steps, model)
    ensures Agree(AfterRestart(After(START, steps, model)))
  {
    var s := After(START, steps, model);
    CacheIsTransparent(steps, model);
    hide Possible, After;
    RestartIsInStep(s, model);
    assert AfterRestart(s).rpcs == map[];
    hide *;
    RestAgrees(AfterRestart(s), model);
  }

  // ---------------------------------------------------------------- runs that end in disagreement

  /** The run from `start` leads to `s` and all its steps but `except` are calm. */
  ghost predicate Leads(start: System, steps: seq<Step>, s: System, except: set<Step>, model: Model) {
    Possible(start, steps, model) && After(start, steps, model) == s && CalmBut(start, steps, except, model)
  }

  /** The run comes to rest with the stores in disagreement, and all its steps but `except` are calm. */
  ghost predicate EndsApart(start: System, steps: seq<Step>, except: set<Step>, model: Model) {
    && Possible(start, steps, model) && CalmBut(start, steps, except, model)
    && After(start, steps, model).rpcs == map[] && !Agree(After(start, steps, model))
  }

  lemma Go(start: System, steps: seq<Step>, step: Step, s: System, t: System, except: set<Step>, model: Model)
    requires Leads(start, steps, s, except, model)
    requires Enabled(s, step, model) && Apply(s, step, model) == t && (step in except || CalmAt(s, step))
    ensures Leads(start, steps + [step], t, except, model)
  {
    Extend(start, steps, step, model);
    assert (steps + [step])[..|steps|] == steps;
    hide Enabled, Apply, CalmAt;
  }

  function OneChunk(text: string, model: Model): Chunk {
    Chunk(text, 0, model.hash(text))
  }

  function OneRecord(d: string, text: string, c: string, model: Model): ChunkRecord {
    RecordFor(OneChunk(text, model), c, d, map[])
  }

  function OneStored(d: string, text: string, c: string, model: Model): Store {
    StoreAfter(EMPTY, [OneRecord(d, text, c, model)], [model.embed(text)])
  }

  lemma NothingStored()
    ensures Inv(EMPTY) && RecordsInv(EMPTY) && InStore(EMPTY) == map[]
    ensures K.NONE.Valid() && InIndex(K.NONE) == map[]
  {
  }

  /** A store and an index with the one chunk, and what deletion leaves of them. */
  lemma OneStoredSpec(d: string, text: string, c: string, model: Model)
    ensures var st := OneStored(d, text, c, model);
      && RecordsInv(st) && InStore(st) == map[c := Content(d, text)]
      && RecordsInv(Delete(st, d).0) && InStore(Delete(st, d).0) == map[]
  {
    var p, record := ReadyRpc(d, text, model), OneRecord(d, text, c, model);
    NothingStored();
    OneRecordFor(d, text, c, model);
    OneIsNoDup(c);
    hide *;
    UpsertGrows(EMPTY, p, [c]);
    InvRecords(OneStored(d, text, c, model));
    GrownFromNothing(InStore(OneStored(d, text, c, model)), record);
    InStoreDeleted(OneStored(d, text, c, model), d);
    NothingKept(d, text, c);
  }

  lemma OneRecordFor(d: string, text: string, c: string, model: Model)
    ensures var p := ReadyRpc(d, text, model);
      && RecordsFor(p.chunks, [c], d, map[]) == [OneRecord(d, text, c, model)]
      && p.Ready? && p.documentId == d && p.metadata == map[] && |p.chunks| == |p.vectors| == 1
      && p.vectors == [model.embed(text)]
      && OneStored(d, text, c, model) == StoreAfter(EMPTY, RecordsFor(p.chunks, [c], d, map[]), p.vectors)
    ensures OneRecord(d, text, c, model).chunkId == c && ContentOf(OneRecord(d, text, c, model)) == Content(d, text)
  {
    var p := ReadyRpc(d, text, model);
    assert RecordsFor(p.chunks, [c], d, map[]) == [OneRecord(d, text, c, model)];
    hide StoreAfter;
  }

  lemma OneIsNoDup(c: string)
    ensures NoDup([c]) && forall x | x in [c] :: x !in EMPTY.idByChunk
  {
  }

  lemma InvRecords(st: Store)
    requires Inv(st)
    ensures RecordsInv(st)
  {
    hide RecordsInv;
  }

  lemma NothingKept(d: string, text: string, c: string)
    ensures var one := map[c := Content(d, text)];
      (map x | x in one && one[x].documentId != d :: one[x]) == map[]
  {
  }

  /** The same for the index. */
  lemma OneIndexedSpec(d: string, text: string, c: string)
    ensures var k := K.Put(K.NONE, c, d, text);
      && k.Valid() && InIndex(k) == map[c := Content(d, text)]
      && K.Delete(k, d).0.Valid() && InIndex(K.Delete(k, d).0) == map[]
  {
    var record := ChunkRecord(c, d, text, 0, "", map[]);
    NothingStored();
    IndexedContents(K.NONE, record);
    assert map[][c := ContentOf(record)] == map[c := Content(d, text)];
    hide *;
    InIndexDeleted(K.Put(K.NONE, c, d, text), d);
    NothingKept(d, text, c);
  }

  lemma GrownFromNothing(after: map<string, Content>, record: ChunkRecord)
    requires Grown(map[], after, [record])
    ensures after == map[record.chunkId := ContentOf(record)]
  {
    assert [record][0] == record;
    forall c | c in after ensures c == record.chunkId {
      assert Among([record], c);
    }
  }

  /** An embedding RPC with everything at hand, and the same after storing. */
  function ReadyRpc(d: string, text: string, model: Model): Rpc {
    Ready(d, [OneChunk(text, model)], map[], [model.embed(text)])
  }

  function HalfIndexed(d: string, text: string, c: string, model: Model): System {
    System(OneStored(d, text, c, model), K.NONE, map[0 := Indexing(d, [OneRecord(d, text, c, model)], 0)], {c})
  }

  lemma ReadyRun(d: string, text: string, except: set<Step>, model: Model) returns (steps: seq<Step>)
    ensures Leads(START, steps, START.(rpcs := map[0 := ReadyRpc(d, text, model)]), except, model)
  {
    var chunks := [OneChunk(text, model)];
    var looking, looked := Looking(d, chunks, map[], 0, map[]), Looking(d, chunks, map[], 1, map[]);
    assert VectorByHash(EMPTY, chunks[0].contentHash) == None;
    assert Stacked(chunks, map[], model) == [model.embed(text)];
    steps := [];
    var s1, s2 := START.(rpcs := map[0 := looking]), START.(rpcs := map[0 := looked]);
    assert Leads(START, steps, START, except, model);
    hide Leads, VectorByHash, Stacked;
    Go(START, steps, StartEmbed(0, d, chunks, map[]), START, s1, except, model);
    steps := steps + [StartEmbed(0, d, chunks, map[])];
    assert map[0 := looking][0 := looked] == map[0 := looked];
    Go(START, steps, Lookup(0), s1, s2, except, model);
    steps := steps + [Lookup(0)];
    assert map[0 := looked][0 := ReadyRpc(d, text, model)] == map[0 := ReadyRpc(d, text, model)];
    Go(START, steps, EmbedMissing(0), s2, START.(rpcs := map[0 := ReadyRpc(d, text, model)]), except, model);
    steps := steps + [EmbedMissing(0)];
  }

  lemma UpsertOne(s: System, d: string, text: string, c: string, model: Model)
    requires 0 in s.rpcs && s.rpcs[0] == ReadyRpc(d, text, model) && c !in s.issued && s.store == EMPTY
    ensures Enabled(s, UpsertStore(0, [c]), model)
    ensures Apply(s, UpsertStore(0, [c]), model) == s.(
      store := OneStored(d, text, c, model), issued := s.issued + {c},
      rpcs := s.rpcs[0 := Indexing(d, [OneRecord(d, text, c, model)], 0)])
  {
    var p := ReadyRpc(d, text, model);
    assert RecordsFor(p.chunks, [c], d, map[]) == [OneRecord(d, text, c, model)];
    assert ToSet([c]) == {c};
    hide Upsert;
  }

  /** A run to a half-indexed document. */
  lemma HalfIndexedRun(d: string, text: string, c: string, except: set<Step>, model: Model) returns (steps: seq<Step>)
    ensures Leads(START, steps, HalfIndexed(d, text, c, model), except, model)
    ensures HalfIndexed(d, text, c, model) == System(
      OneStored(d, text, c, model), K.NONE, map[0 := Indexing(d, [OneRecord(d, text, c, model)], 0)], {c})
  {
    steps := ReadyRun(d, text, except, model);
    var s := START.(rpcs := map[0 := ReadyRpc(d, text, model)]);
    UpsertOne(s, d, text, c, model);
    assert !Doomed(s.rpcs, d);
    assert s.rpcs[0 := Indexing(d, [OneRecord(d, text, c, model)], 0)]
      == map[0 := Indexing(d, [OneRecord(d, text, c, model)], 0)];
    hide Leads, Enabled, Apply, Doomed, OneStored, OneRecord;
    Go(START, steps, UpsertStore(0, [c]), s, HalfIndexed(d, text, c, model), except, model);
    steps := steps + [UpsertStore(0, [c])];
  }

  // ---------------------------------------------------------------- segments of runs

  lemma Harmless(s: System, step: Step)
    requires !step.UpsertStore? && !step.ClearStore? && !step.Abandon?
    ensures CalmAt(s, step)
  {
  }

  /** A deletion up to its first half. */
  lemma HalfDelete(before: seq<Step>, s: System, d: string, except: set<Step>, model: Model) returns (steps: seq<Step>)
    requires Leads(START, before, s, except, model) && 1 !in s.rpcs
    requires ClearStore(1) in except || Indexed(s.rpcs, d)
    ensures Leads(START, steps, s.(store := Delete(s.store, d).0, rpcs := s.rpcs[1 := StoreCleared(d)]), except, model)
  {
    var t := s.(rpcs := s.rpcs[1 := Deleting(d)]);
    assert Indexed(s.rpcs, d) ==> CalmAt(t, ClearStore(1));
    assert t.rpcs[1 := StoreCleared(d)] == s.rpcs[1 := StoreCleared(d)];
    Harmless(s, StartDelete(1, d));
    DeletionFields(s, d, model);
    DeletionFields(t, d, model);
    hide *;
    Go(START, before, StartDelete(1, d), s, t, except, model);
    steps := before + [StartDelete(1, d)];
    Go(START, steps, ClearStore(1), t, t.(store := Delete(t.store, d).0, rpcs := t.rpcs[1 := StoreCleared(d)]),
      except, model);
    steps := steps + [ClearStore(1)];
  }

  lemma OtherHalfDelete(
    before: seq<Step>, s: System, d: string, except: set<Step>, model: Model)
    returns (steps: seq<Step>)
    requires Leads(START, before, s, except, model) && 1 in s.rpcs && s.rpcs[1] == StoreCleared(d)
    ensures Leads(START, steps, s.(keywords := K.Delete(s.keywords, d).0, rpcs := s.rpcs - {1}), except, model)
  {
    Harmless(s, ClearKeywords(1));
    DeletionFields(s, d, model);
    hide *;
    Go(START, before, ClearKeywords(1), s, s.(keywords := K.Delete(s.keywords, d).0, rpcs := s.rpcs - {1}),
      except, model);
    steps := before + [ClearKeywords(1)];
  }

  lemma IndexAndFinish(
    before: seq<Step>, s: System, d: string, text: string, c: string, except: set<Step>, model: Model)
    returns (steps: seq<Step>)
    requires Leads(START, before, s, except, model)
    requires 0 in s.rpcs && s.rpcs[0] == Indexing(d, [OneRecord(d, text, c, model)], 0)
    ensures Leads(START, steps, s.(keywords := K.Put(s.keywords, c, d, text), rpcs := s.rpcs - {0}), except, model)
  {
    var done := Indexing(d, [OneRecord(d, text, c, model)], 1);
    var t := s.(keywords := K.Put(s.keywords, c, d, text), rpcs := s.rpcs[0 := done]);
    Harmless(s, IndexOne(0));
    Harmless(t, Finish(0));
    IndexLast(s, d, text, c, model);
    FinishOne(t, d, text, c, model);
    assert t.rpcs - {0} == s.rpcs - {0};
    hide *;
    Go(START, before, IndexOne(0), s, t, except, model);
    steps := before + [IndexOne(0)];
    Go(START, steps, Finish(0), t, t.(rpcs := t.rpcs - {0}), except, model);
    steps := steps + [Finish(0)];
  }

  lemma GiveUp(before: seq<Step>, s: System, r: nat, except: set<Step>, model: Model) returns (steps: seq<Step>)
    requires Leads(START, before, s, except, model) && r in s.rpcs && Abandon(r) in except
    ensures Leads(START, steps, s.(rpcs := s.rpcs - {r}), except, model)
  {
    AbandonUnfold(s, r, model);
    hide *;
    Go(START, before, Abandon(r), s, s.(rpcs := s.rpcs - {r}), except, model);
    steps := before + [Abandon(r)];
  }

  lemma Disagreement(start: System, steps: seq<Step>, s: System, c: string, except: set<Step>, model: Model)
    requires Leads(start, steps, s, except, model) && s.rpcs == map[]
    requires RecordsInv(s.store) && s.keywords.Valid() && (c in InStore(s.store)) != (c in InIndex(s.keywords))
    ensures EndsApart(start, steps, except, model)
  {
    hide Possible, After, CalmBut, RecordsInv, InStore, InIndex, K.Keywords.Valid;
  }

  // ---------------------------------------------------------------- one run for each guard

  lemma OnlyOne(p: Rpc, q: Rpc)
    ensures map[0 := p] - {0} == map[] && map[1 := p] - {1} == map[]
    ensures map[][1 := p] == map[1 := p] && map[0 := p][1 := q] - {1} == map[0 := p]
    ensures map[0 := p][1 := q] - {0} == map[1 := q]
  {
  }

  /** An embed given up between store and index: its chunk is never found by keyword. */
  lemma AbandonedEmbedDisagrees(d: string, text: string, c: string, model: Model) returns (steps: seq<Step>)
    ensures EndsApart(START, steps, {Abandon(0)}, model)
  {
    hide *;
    var s := HalfIndexed(d, text, c, model);
    steps := HalfIndexedRun(d, text, c, {Abandon(0)}, model);
    steps := GiveUp(steps, s, 0, {Abandon(0)}, model);
    OnlyOne(s.rpcs[0], Deleting(d));
    OneStoredSpec(d, text, c, model);
    NothingStored();
    Disagreement(START, steps, s.(rpcs := map[]), c, {Abandon(0)}, model);
  }

  /** A deletion given up between store and index: the index keeps chunks that are nowhere stored. */
  lemma AbandonedDeletionDisagrees(d: string, text: string, c: string, model: Model) returns (steps: seq<Step>)
    ensures EndsApart(START, steps, {Abandon(1)}, model)
  {
    NothingWaits(d);
    hide *;
    var except := {Abandon(1)};
    var s := HalfIndexed(d, text, c, model);
    steps := HalfIndexedRun(d, text, c, except, model);
    OnlyOne(s.rpcs[0], Deleting(d));
    OnlyOne(StoreCleared(d), Deleting(d));
    steps := IndexAndFinish(steps, s, d, text, c, except, model);
    var t := s.(keywords := K.Put(K.NONE, c, d, text), rpcs := map[]);
    steps := HalfDelete(steps, t, d, except, model);
    var u := t.(store := Delete(t.store, d).0, rpcs := map[1 := StoreCleared(d)]);
    steps := GiveUp(steps, u, 1, except, model);
    OneStoredSpec(d, text, c, model);
    OneIndexedSpec(d, text, c);
    Disagreement(START, steps, u.(rpcs := map[]), c, except, model);
  }

  lemma NothingWaits(d: string)
    ensures Indexed(map[], d)
  {
  }

  /** A deletion of a document that is being indexed: the rest of the indexing leaves orphans. */
  lemma DeletionOverIndexingDisagrees(d: string, text: string, c: string, model: Model) returns (steps: seq<Step>)
    ensures EndsApart(START, steps, {ClearStore(1)}, model)
  {
    NothingToDelete(d);
    hide *;
    var except := {ClearStore(1)};
    var s := HalfIndexed(d, text, c, model);
    steps := HalfIndexedRun(d, text, c, except, model);
    OnlyOne(s.rpcs[0], StoreCleared(d));
    steps := HalfDelete(steps, s, d, except, model);
    var t := s.(store := Delete(s.store, d).0, rpcs := s.rpcs[1 := StoreCleared(d)]);
    steps := OtherHalfDelete(steps, t, d, except, model);
    var u := t.(rpcs := s.rpcs);
    steps := IndexAndFinish(steps, u, d, text, c, except, model);
    OneStoredSpec(d, text, c, model);
    OneIndexedSpec(d, text, c);
    Disagreement(START, steps, u.(keywords := K.Put(K.NONE, c, d, text), rpcs := map[]), c, except, model);
  }

  lemma NothingToDelete(d: string)
    ensures K.Delete(K.NONE, d).0 == K.NONE && Delete(EMPTY, d).0 == EMPTY
  {
  }

  /** A document stored between the two halves of its deletion loses its keywords, not its vectors. */
  lemma EmbedOverDeletionDisagrees(d: string, text: string, c: string, model: Model) returns (steps: seq<Step>)
    ensures EndsApart(START, steps, {UpsertStore(0, [c])}, model)
  {
    NothingToDelete(d);
    var except := {UpsertStore(0, [c])};
    var ready, half := ReadyRpc(d, text, model), Indexing(d, [OneRecord(d, text, c, model)], 0);
    var s := START.(rpcs := map[0 := ready]);
    var t := START.(rpcs := map[0 := ready, 1 := StoreCleared(d)]);
    var u := System(OneStored(d, text, c, model), K.NONE, map[0 := half, 1 := StoreCleared(d)], {c});
    assert Indexed(s.rpcs, d);
    assert s.rpcs[1 := StoreCleared(d)] == t.rpcs && t.rpcs[0 := half] == u.rpcs && {} + {c} == {c};
    UpsertOne(t, d, text, c, model);
    OnlyOne(half, StoreCleared(d));
    OnlyOne(StoreCleared(d), half);
    steps := ReadyRun(d, text, except, model);
    hide *;
    steps := HalfDelete(steps, s, d, except, model);
    Go(START, steps, UpsertStore(0, [c]), t, u, except, model);
    steps := steps + [UpsertStore(0, [c])];
    steps := IndexAndFinish(steps, u, d, text, c, except, model);
    var v := u.(keywords := K.Put(K.NONE, c, d, text), rpcs := map[1 := StoreCleared(d)]);
    steps := OtherHalfDelete(steps, v, d, except, model);
    OneStoredSpec(d, text, c, model);
    OneIndexedSpec(d, text, c);
    Disagreement(START, steps, v.(keywords := K.Delete(v.keywords, d).0, rpcs := map[]), c, except, model);
  }

  /** Taking over from one chunk stored: it is indexed and the RPC is done. */
  lemma IndexLast(s: System, d: string, text: string, c: string, model: Model)
    requires 0 in s.rpcs && s.rpcs[0] == Indexing(d, [OneRecord(d, text, c, model)], 0)
    ensures Enabled(s, IndexOne(0), model)
    ensures Apply(s, IndexOne(0), model) == s.(
      keywords := K.Put(s.keywords, c, d, text), rpcs := s.rpcs[0 := Indexing(d, [OneRecord(d, text, c, model)], 1)])
  {
    hide K.Put;
  }

  lemma FinishOne(s: System, d: string, text: string, c: string, model: Model)
    requires 0 in s.rpcs && s.rpcs[0] == Indexing(d, [OneRecord(d, text, c, model)], 1)
    ensures Enabled(s, Finish(0), model) && Apply(s, Finish(0), model) == s.(rpcs := s.rpcs - {0})
  {
  }

  lemma DeletionFields(s: System, d: string, model: Model)
    ensures 1 !in s.rpcs ==>
      Enabled(s, StartDelete(1, d), model) && Apply(s, StartDelete(1, d), model) == s.(rpcs := s.rpcs[1 := Deleting(d)])
    ensures 1 in s.rpcs && s.rpcs[1] == Deleting(d) ==>
      && Enabled(s, ClearStore(1), model)
      && Apply(s, ClearStore(1), model) == s.(store := Delete(s.store, d).0, rpcs := s.rpcs[1 := StoreCleared(d)])
    ensures 1 in s.rpcs && s.rpcs[1] == StoreCleared(d) ==>
      && Enabled(s, ClearKeywords(1), model)
      && Apply(s, ClearKeywords(1), model) == s.(keywords := K.Delete(s.keywords, d).0, rpcs := s.rpcs - {1})
  {
    hide Delete, K.Delete;
  }
}
