/** The three guards are exactly what agreement at rest needs. After a calm step calm steps cannot come to
    rest in disagreement; after any other step they can. */
module StoreQuiescence {
  import opened Collections
  import opened VectorStore
  import opened EmbeddingSystem
  import opened EmbeddingCache
  import opened StoreAgreement
  import opened StoreOverlap
  import K = Keywords

  // ---------------------------------------------------------------- differences that calm steps can keep

  /** The chunk is stored, not indexed, and no RPC will index it. */
  ghost predicate Lost(s: System, c: string) {
    && RecordsInv(s.store) && s.keywords.Valid()
    && c in InStore(s.store) && c !in InIndex(s.keywords)
    && !Pending(s.rpcs, c)
  }

  /** The chunk is indexed, not stored, and no RPC will index it again or remove it. */
  ghost predicate Orphaned(s: System, c: string) {
    && RecordsInv(s.store) && s.keywords.Valid()
    && c in InIndex(s.keywords) && c !in InStore(s.store)
    && !Pending(s.rpcs, c) && !Doomed(s.rpcs, InIndex(s.keywords)[c].documentId)
  }

  /** What was lost or orphaned before still is. */
  ghost predicate StillApart(s: System, t: System, c: string) {
    (Lost(s, c) ==> Lost(t, c)) && (Orphaned(s, c) ==> Orphaned(t, c))
  }

  lemma FewerWait(before: map<nat, Rpc>, after: map<nat, Rpc>, c: string)
    requires forall q | q in after :: q in before && (c in PendingOf(after[q]) ==> c in PendingOf(before[q]))
    requires forall q | q in after && after[q].StoreCleared? :: after[q] == before[q]
    ensures Pending(after, c) ==> Pending(before, c)
    ensures forall d :: Doomed(after, d) ==> Doomed(before, d)
  {
    hide PendingOf;
  }

  lemma DroppingKeeps(s: System, r: nat, c: string)
    requires r in s.rpcs
    ensures StillApart(s, s.(rpcs := s.rpcs - {r}), c)
  {
    FewerWait(s.rpcs, s.rpcs - {r}, c);
    hide Pending, Doomed, RecordsInv, K.Keywords.Valid, InStore, InIndex;
  }

  lemma ClearingKeeps(s: System, r: nat, d: string, c: string)
    requires r in s.rpcs && s.rpcs[r] == StoreCleared(d) && s.keywords.Valid()
    ensures var t := s.(keywords := K.Delete(s.keywords, d).0, rpcs := s.rpcs - {r});
      && StillApart(s, t, c) && t.keywords.Valid()
      && forall x | x in InIndex(t.keywords) :: InIndex(t.keywords)[x].documentId != d
  {
    FewerWait(s.rpcs, s.rpcs - {r}, c);
    InIndexDeleted(s.keywords, d);
    assert Doomed(s.rpcs, d);
    hide Pending, Doomed, RecordsInv, K.Keywords.Valid, InStore, InIndex, K.Delete;
  }

  lemma NextWaits(p: Rpc)
    requires PendingOf(p) != []
    ensures p.Indexing? && p.done < |p.records|
    ensures PendingOf(p) == [p.records[p.done].chunkId] + PendingOf(OneMore(p))
  {
  }

  lemma GainingKeeps(s: System, t: System, id: string, content: Content, c: string)
    requires s.keywords.Valid() && t.keywords.Valid() && t.store == s.store
    requires InIndex(t.keywords) == InIndex(s.keywords)[id := content] && Pending(s.rpcs, id)
    requires Pending(t.rpcs, c) ==> Pending(s.rpcs, c)
    requires forall d :: Doomed(t.rpcs, d) ==> Doomed(s.rpcs, d)
    ensures StillApart(s, t, c)
  {
    hide Pending, Doomed, RecordsInv, K.Keywords.Valid, InStore, InIndex;
  }

  lemma OneLessWaits(rpcs: map<nat, Rpc>, r: nat, c: string)
    requires r in rpcs && PendingOf(rpcs[r]) != []
    ensures rpcs[r].Indexing? && Pending(rpcs, PendingOf(rpcs[r])[0])
    ensures var rpcs' := rpcs[r := OneMore(rpcs[r])];
      (Pending(rpcs', c) ==> Pending(rpcs, c)) && forall d :: Doomed(rpcs', d) ==> Doomed(rpcs, d)
  {
    NextWaits(rpcs[r]);
    assert PendingOf(rpcs[r])[0] in PendingOf(rpcs[r]);
    hide PendingOf;
    FewerWait(rpcs, rpcs[r := OneMore(rpcs[r])], c);
  }

  lemma IndexingKeeps(s: System, r: nat, c: string)
    requires r in s.rpcs && PendingOf(s.rpcs[r]) != [] && s.keywords.Valid()
    ensures s.rpcs[r].Indexing? && s.rpcs[r].done < |s.rpcs[r].records|
    ensures var t, next := AfterIndexing(s, r, s.rpcs[r]), PendingOf(s.rpcs[r])[0];
      && StillApart(s, t, c) && t.keywords.Valid() && t.store == s.store
      && t.rpcs == s.rpcs[r := OneMore(s.rpcs[r])]
      && forall x | x in InIndex(s.keywords) || x == next :: x in InIndex(t.keywords)
  {
    hide *;
    NextWaits(s.rpcs[r]);
    var t, record := AfterIndexing(s, r, s.rpcs[r]), s.rpcs[r].records[s.rpcs[r].done];
    IndexingUnfold(s, r);
    IndexedContents(s.keywords, record);
    OneLessWaits(s.rpcs, r, c);
    GainingKeeps(s, t, record.chunkId, ContentOf(record), c);
  }

  // ---------------------------------------------------------------- coming to rest by calm steps

  lemma IndexOneIsEnabled(s: System, r: nat, model: Model)
    requires r in s.rpcs && s.rpcs[r].Indexing? && s.rpcs[r].done < |s.rpcs[r].records|
    ensures Enabled(s, IndexOne(r), model) && Apply(s, IndexOne(r), model) == AfterIndexing(s, r, s.rpcs[r])
  {
    hide AfterIndexing;
  }

  lemma ClearKeywordsIsEnabled(s: System, r: nat, d: string, model: Model)
    requires r in s.rpcs && s.rpcs[r] == StoreCleared(d)
    ensures Enabled(s, ClearKeywords(r), model)
    ensures Apply(s, ClearKeywords(r), model) == s.(keywords := K.Delete(s.keywords, d).0, rpcs := s.rpcs - {r})
    ensures PendingOf(s.rpcs[r]) == []
  {
    hide K.Delete;
  }

  lemma NothingToFinish(s: System, r: nat)
    requires r in s.rpcs && PendingOf(s.rpcs[r]) == [] && !s.rpcs[r].StoreCleared?
    ensures CalmAt(s, Abandon(r))
  {
    hide PendingOf, K.Keywords.Valid, Doomed, Absent;
  }

  /** What one RPC does to the index when it is brought to its end. */
  ghost predicate Ended(s: System, r: nat, t: System)
    requires r in s.rpcs && s.keywords.Valid()
  {
    && t.keywords.Valid() && t.store == s.store && t.rpcs == s.rpcs - {r}
    && (match s.rpcs[r]
        case StoreCleared(d) => forall x | x in InIndex(t.keywords) :: InIndex(t.keywords)[x].documentId != d
        case _ => forall x | x in InIndex(s.keywords) || x in PendingOf(s.rpcs[r]) :: x in InIndex(t.keywords))
  }

  /** Any RPC can be brought to its end by calm steps: a half-done deletion is finished, waiting chunks are
      indexed, and everything else is given up. */
  lemma {:induction false} EndOne(start: System, before: seq<Step>, s: System, r: nat, c: string, model: Model)
    returns (steps: seq<Step>, t: System)
    requires Leads(start, before, s, {}, model) && r in s.rpcs && s.keywords.Valid()
    ensures Leads(start, steps, t, {}, model) && Ended(s, r, t) && StillApart(s, t, c)
    decreases |PendingOf(s.rpcs[r])|
  {
    hide *;
    var p := s.rpcs[r];
    if p.StoreCleared? {
      t := s.(keywords := K.Delete(s.keywords, p.documentId).0, rpcs := s.rpcs - {r});
      assert p == StoreCleared(p.documentId);
      ClearKeywordsIsEnabled(s, r, p.documentId, model);
      ClearingKeeps(s, r, p.documentId, c);
      Harmless(s, ClearKeywords(r));
      Go(start, before, ClearKeywords(r), s, t, {}, model);
      steps := before + [ClearKeywords(r)];
      ClearedEnds(s, r, t);
    } else if PendingOf(p) == [] {
      t := s.(rpcs := s.rpcs - {r});
      AbandonUnfold(s, r, model);
      NothingToFinish(s, r);
      DroppingKeeps(s, r, c);
      Go(start, before, Abandon(r), s, t, {}, model);
      steps := before + [Abandon(r)];
      DroppedEnds(s, r, t);
    } else {
      IndexingKeeps(s, r, c);
      NextWaits(p);
      IndexOneIsEnabled(s, r, model);
      Harmless(s, IndexOne(r));
      var u := AfterIndexing(s, r, p);
      Go(start, before, IndexOne(r), s, u, {}, model);
      steps, t := EndOne(start, before + [IndexOne(r)], u, r, c, model);
      IndexedEnds(s, r, u, t);
      StillApartChains(s, u, t, c);
    }
  }

  lemma ClearedEnds(s: System, r: nat, t: System)
    requires r in s.rpcs && s.rpcs[r].StoreCleared? && s.keywords.Valid() && t.keywords.Valid()
    requires t.store == s.store && t.rpcs == s.rpcs - {r}
    requires forall x | x in InIndex(t.keywords) :: InIndex(t.keywords)[x].documentId != s.rpcs[r].documentId
    ensures Ended(s, r, t)
  {
    hide K.Keywords.Valid, InIndex, PendingOf;
  }

  lemma DroppedEnds(s: System, r: nat, t: System)
    requires r in s.rpcs && PendingOf(s.rpcs[r]) == [] && !s.rpcs[r].StoreCleared? && s.keywords.Valid()
    requires t == s.(rpcs := s.rpcs - {r})
    ensures Ended(s, r, t)
  {
    hide K.Keywords.Valid, InIndex, PendingOf;
  }

  lemma IndexedEnds(s: System, r: nat, u: System, t: System)
    requires r in s.rpcs && PendingOf(s.rpcs[r]) != [] && s.rpcs[r].Indexing? && s.rpcs[r].done < |s.rpcs[r].records|
    requires s.keywords.Valid() && u.keywords.Valid() && u.store == s.store
    requires u.rpcs == s.rpcs[r := OneMore(s.rpcs[r])]
    requires forall x | x in InIndex(s.keywords) || x == PendingOf(s.rpcs[r])[0] :: x in InIndex(u.keywords)
    requires Ended(u, r, t)
    ensures Ended(s, r, t)
  {
    NextWaits(s.rpcs[r]);
    assert u.rpcs - {r} == s.rpcs - {r};
    hide K.Keywords.Valid, InIndex, PendingOf;
  }

  lemma StillApartChains(s: System, u: System, t: System, c: string)
    requires StillApart(s, u, c) && StillApart(u, t, c)
    ensures StillApart(s, t, c)
  {
    hide Lost, Orphaned;
  }

  lemma EndedUnfold(s: System, r: nat, t: System)
    requires r in s.rpcs && s.keywords.Valid() && Ended(s, r, t)
    ensures t.keywords.Valid() && t.store == s.store && t.rpcs == s.rpcs - {r}
    ensures s.rpcs[r].StoreCleared? ==>
      forall x | x in InIndex(t.keywords) :: InIndex(t.keywords)[x].documentId != s.rpcs[r].documentId
    ensures !s.rpcs[r].StoreCleared? ==>
      forall x | x in InIndex(s.keywords) || x in PendingOf(s.rpcs[r]) :: x in InIndex(t.keywords)
  {
    hide K.Keywords.Valid, InIndex, PendingOf;
  }

  /** All RPCs but those in `keep` are brought to their end; the store stays as it is. */
  lemma {:induction false} EndAll(
    start: System, before: seq<Step>, s: System, todo: set<nat>, c: string, model: Model)
    returns (steps: seq<Step>, t: System)
    requires Leads(start, before, s, {}, model) && todo <= s.rpcs.Keys && s.keywords.Valid()
    ensures Leads(start, steps, t, {}, model) && t.keywords.Valid() && t.store == s.store
    ensures t.rpcs == s.rpcs - todo && StillApart(s, t, c)
    decreases |todo|
  {
    hide *;
    if todo == {} {
      steps, t := before, s;
      Unmoved(s, c);
    } else {
      var r :| r in todo;
      var u;
      steps, u := EndOne(start, before, s, r, c, model);
      EndedUnfold(s, r, u);
      steps, t := EndAll(start, steps, u, todo - {r}, c, model);
      assert s.rpcs - {r} - (todo - {r}) == s.rpcs - todo;
      StillApartChains(s, u, t, c);
    }
  }

  lemma Unmoved(s: System, c: string)
    ensures StillApart(s, s, c) && s.rpcs - {} == s.rpcs
  {
    hide Lost, Orphaned;
  }

  /** A lost or orphaned chunk is still one when everything has come to rest. */
  lemma ApartToTheEnd(s: System, c: string, model: Model) returns (rest: seq<Step>)
    requires Lost(s, c) || Orphaned(s, c)
    ensures EndsApart(s, rest, {}, model)
  {
    var t;
    assert Leads(s, [], s, {}, model);
    assert s.keywords.Valid();
    assert s.rpcs - s.rpcs.Keys == map[];
    hide *;
    rest, t := EndAll(s, [], s, s.rpcs.Keys, c, model);
    ApartAtRest(s, t, c);
    Disagreement(s, rest, t, c, {}, model);
  }

  lemma ApartAtRest(s: System, t: System, c: string)
    requires StillApart(s, t, c) && (Lost(s, c) || Orphaned(s, c))
    ensures RecordsInv(t.store) && t.keywords.Valid() && (c in InStore(t.store)) != (c in InIndex(t.keywords))
  {
    hide RecordsInv, K.Keywords.Valid, InStore, InIndex, Pending, Doomed;
  }

  // ---------------------------------------------------------------- what each broken guard leaves behind

  /** Giving up an embedding half way loses the chunks that waited. */
  lemma GivenUpIsLost(s: System, r: nat, model: Model) returns (c: string)
    requires InStep(s, model) && r in s.rpcs && PendingOf(s.rpcs[r]) != []
    ensures Lost(s.(rpcs := s.rpcs - {r}), c)
  {
    c := PendingOf(s.rpcs[r])[0];
    InStepElim(s, model);
    PendingIsStored(InStore(s.store), s.rpcs[r], c);
    hide PendingOf, PendingStored, Transparent, Inv, RecordsInv, K.Keywords.Valid, InStore, InIndex, Doomed;
    assert c in PendingOf(s.rpcs[r]);
    assert Pending(s.rpcs, c) && !Pending(s.rpcs - {r}, c);
  }

  /** What a deletion left in the index is not stored, and no RPC will index it. */
  lemma LeftInIndex(
    store: map<string, Content>, index: map<string, Content>, rpcs: map<nat, Rpc>, c: string)
    requires Lagging(store, index, rpcs) && c in index && Doomed(rpcs, index[c].documentId)
    requires forall q | q in rpcs :: PendingStored(store, rpcs[q])
    ensures c !in store && !Pending(rpcs, c)
  {
    if Pending(rpcs, c) {
      var q :| q in rpcs && c in PendingOf(rpcs[q]);
      PendingIsStored(store, rpcs[q], c);
    }
    hide Pending, Doomed, PendingStored;
  }

  /** Giving up a half-done deletion orphans the chunks it left in the index. */
  lemma GivenUpIsOrphaned(s: System, r: nat, model: Model) returns (c: string)
    requires InStep(s, model) && r in s.rpcs && s.rpcs[r].StoreCleared? && s.keywords.Valid() && !MayAbandon(s, r)
    ensures Orphaned(s.(rpcs := s.rpcs - {r}), c)
  {
    var d, t := s.rpcs[r].documentId, s.(rpcs := s.rpcs - {r});
    assert !Doomed(t.rpcs, d) && !Absent(s.keywords, d);
    InStepElim(s, model);
    hide *;
    c := Remaining(s.keywords, d);
    assert s.rpcs[r] == StoreCleared(d);
    OneDeletionLess(s.rpcs, r, d);
    LeftInIndex(InStore(s.store), InIndex(s.keywords), s.rpcs, c);
    OrphanedIntro(t, c);
  }

  lemma OrphanedIntro(s: System, c: string)
    requires RecordsInv(s.store) && s.keywords.Valid() && c in InIndex(s.keywords) && c !in InStore(s.store)
    requires !Pending(s.rpcs, c) && !Doomed(s.rpcs, InIndex(s.keywords)[c].documentId)
    ensures Orphaned(s, c)
  {
  }

  lemma GivingUpEndsApart(s: System, r: nat, model: Model) returns (rest: seq<Step>)
    requires InStep(s, model) && r in s.rpcs && s.keywords.Valid() && !MayAbandon(s, r)
    ensures EndsApart(s.(rpcs := s.rpcs - {r}), rest, {}, model)
  {
    assert PendingOf(s.rpcs[r]) == [] ==> s.rpcs[r].StoreCleared?;
    hide *;
    var c;
    if PendingOf(s.rpcs[r]) != [] {
      c := GivenUpIsLost(s, r, model);
    } else {
      c := GivenUpIsOrphaned(s, r, model);
    }
    rest := ApartToTheEnd(s.(rpcs := s.rpcs - {r}), c, model);
  }

  /** Everything but one RPC comes to its end, then that one. */
  lemma EndLast(s: System, r: nat, model: Model) returns (rest: seq<Step>, u: System, t: System)
    requires r in s.rpcs && s.keywords.Valid()
    ensures Leads(s, rest, t, {}, model) && t.rpcs == map[] && t.keywords.Valid() && t.store == s.store
    ensures u.keywords.Valid() && r in u.rpcs && u.rpcs[r] == s.rpcs[r] && Ended(u, r, t)
  {
    assert Leads(s, [], s, {}, model);
    hide *;
    rest, u := EndAll(s, [], s, s.rpcs.Keys - {r}, "", model);
    assert u.rpcs.Keys == {r};
    rest, t := EndOne(s, rest, u, r, "", model);
    EndedUnfold(u, r, t);
    assert t.rpcs.Keys == {};
  }

  /** Deleting a document while one of its chunks waits: once the deletions are over, the chunk is indexed. */
  lemma ClearingEndsApart(s: System, r: nat, model: Model) returns (rest: seq<Step>)
    requires InStep(s, model) && r in s.rpcs && s.rpcs[r].Deleting? && !Indexed(s.rpcs, s.rpcs[r].documentId)
    ensures EndsApart(AfterClearing(s, r, s.rpcs[r].documentId), rest, {}, model)
  {
    hide *;
    var d := s.rpcs[r].documentId;
    var after := AfterClearing(s, r, d);
    InStepElim(s, model);
    var q, c := Waiting(s.rpcs, d);
    WaitingIsIndexing(s.rpcs[q], c);
    PendingIsStored(InStore(s.store), s.rpcs[q], c);
    ClearingUnfold(s, r, d);
    InStoreDeleted(s.store, d);
    var u, t;
    rest, u, t := EndLast(after, q, model);
    EndedUnfold(u, q, t);
    Disagreement(after, rest, t, c, {}, model);
  }

  /** Storing under a half-deleted document: once the deletion is over, nothing of the document is indexed. */
  lemma StoringEndsApart(s: System, r: nat, ids: seq<string>, model: Model) returns (rest: seq<Step>)
    requires InStep(s, model) && r in s.rpcs && CanUpsert(s.rpcs[r], ids, s.issued)
    requires Doomed(s.rpcs, s.rpcs[r].documentId)
    ensures EndsApart(AfterUpsert(s, r, s.rpcs[r], ids), rest, {}, model)
  {
    UpsertFields(s, r, ids);
    hide *;
    var p, after := s.rpcs[r], AfterUpsert(s, r, s.rpcs[r], ids);
    InStepElim(s, model);
    ReadyIsTrue(p, model);
    UpsertGrows(s.store, p, ids);
    UpsertStep(s, r, ids, model);
    TransparentInv(after, model);
    FirstRecord(InStore(s.store), InStore(after.store), p, ids);
    StillDoomed(s.rpcs, r, after.rpcs[r], p.documentId);
    var q := Deletion(after.rpcs, p.documentId);
    var u, t;
    rest, u, t := EndLast(after, q, model);
    EndedUnfold(u, q, t);
    ContentsDiffer(t, ids[0]);
    RestApart(after, rest, t, model);
  }

  lemma Deletion(rpcs: map<nat, Rpc>, documentId: string) returns (q: nat)
    requires Doomed(rpcs, documentId)
    ensures q in rpcs && rpcs[q] == StoreCleared(documentId)
  {
    q :| q in rpcs && rpcs[q] == StoreCleared(documentId);
  }

  lemma ContentsDiffer(t: System, c: string)
    requires RecordsInv(t.store) && t.keywords.Valid() && c in InStore(t.store)
    requires forall x | x in InIndex(t.keywords) :: InIndex(t.keywords)[x].documentId != InStore(t.store)[c].documentId
    ensures !Agree(t)
  {
    hide RecordsInv, K.Keywords.Valid, InStore, InIndex;
  }

  lemma RestApart(start: System, rest: seq<Step>, t: System, model: Model)
    requires Leads(start, rest, t, {}, model) && t.rpcs == map[] && !Agree(t)
    ensures EndsApart(start, rest, {}, model)
  {
    hide Agree, Possible, After, CalmBut;
  }

  // ---------------------------------------------------------------- the guards are exact

  lemma NotApart(s: System, rest: seq<Step>, model: Model)
    requires Injective(model.hash) && InStep(s, model)
    ensures !EndsApart(s, rest, {}, model)
  {
    hide InStep, Agree, Possible, After, CalmBut;
    if EndsApart(s, rest, {}, model) {
      CalmStepsStayInStep(s, rest, model);
      RestAgrees(After(s, rest, model), model);
    }
  }

  lemma BrokenGuardEndsApart(s: System, step: Step, model: Model) returns (rest: seq<Step>)
    requires InStep(s, model) && Enabled(s, step, model) && s.keywords.Valid() && !Calm(s, step)
    ensures EndsApart(Apply(s, step, model), rest, {}, model)
  {
    hide *;
    StepUnfold(s, step, model);
    NotCalmUnfold(s, step);
    match step
    case UpsertStore(r, ids) => rest := StoringEndsApart(s, r, ids, model);
    case ClearStore(r) => rest := ClearingEndsApart(s, r, model);
    case Abandon(r) => rest := GivingUpEndsApart(s, r, model);
  }

  /** A step is calm if and only if no calm continuation of it comes to rest with the stores in disagreement. */
  lemma CalmIsExact(s: System, step: Step, model: Model)
    requires Injective(model.hash) && InStep(s, model) && Enabled(s, step, model)
    ensures s.keywords.Valid()
    ensures Calm(s, step) <==> !exists rest :: EndsApart(Apply(s, step, model), rest, {}, model)
  {
    hide *;
    InStepElim(s, model);
    if Calm(s, step) {
      StepIsInStep(s, step, model);
      forall rest ensures !EndsApart(Apply(s, step, model), rest, {}, model) {
        NotApart(Apply(s, step, model), rest, model);
      }
    } else {
      var rest := BrokenGuardEndsApart(s, step, model);
    }
  }
}
