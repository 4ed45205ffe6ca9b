/** What `retrieve` answers after a run of embeddings and deletions, in terms of the stored chunks and their
    texts: the searches, the cache and the agreement of the stores taken together. */
module RetrievalAfterRuns {
  import opened Collections
  import opened VectorStore
  import opened Retrieval
  import opened PostFilter
  import opened EmbeddingSystem
  import opened EmbeddingCache
  import opened StoreAgreement
  import K = Keywords

  /** `get_by_chunk_id` leads to exactly the stored records. */
  lemma StoredRecord(st: Store, id: nat)
    requires RecordsInv(st) && id in st.records.at
    ensures GetByChunk(st, st.records.at[id].chunkId) == Some(st.records.at[id])
    ensures st.idByChunk[st.records.at[id].chunkId] == id
  {
  }

  // ---------------------------------------------------------------- semantic mode

  /** The answer is the top_k of the stored chunks that pass, by similarity of their texts to the query. */
  ghost predicate BestBySimilarity(
    st: Store, model: Model, query: string, filter: ChunkRecord -> bool, topK: nat, r: seq<ScoredChunk>)
  {
    && |r| == Min(topK, |Passing(st, filter)|)
    && NoDup(ChunkIds(r))
    && (forall i, j :: 0 <= i <= j < |r| ==> r[i].score >= r[j].score)
    && (forall h | h in r ::
          && GetByChunk(st, h.chunk.chunkId) == Some(h.chunk) && filter(h.chunk)
          && h.score == Score(model.embed(query), model.embed(h.chunk.text)))
    && (forall id, h | id in st.records.at && filter(st.records.at[id]) && h in r
          && st.records.at[id].chunkId !in ChunkIds(r) ::
          Score(model.embed(query), model.embed(st.records.at[id].text)) <= h.score)
  }

  /** Hits resolved in the store they were found in. */
  ghost predicate ResolvedIn(st: Store, hits: seq<(nat, real)>, r: seq<ScoredChunk>) {
    && |r| == |hits|
    && forall i | 0 <= i < |hits| ::
         hits[i].0 in st.records.at && r[i] == ScoredChunk(st.records.at[hits[i].0], hits[i].1)
  }

  lemma ResolvedHit(
    st: Store, model: Model, query: Vector, filter: ChunkRecord -> bool, topK: nat, best: seq<(nat, real)>,
    r: seq<ScoredChunk>, h: ScoredChunk)
    requires TrueStore(st, model) && IsTopK(Passing(st, filter), query, topK, best) && ResolvedIn(st, best, r) && h in r
    ensures GetByChunk(st, h.chunk.chunkId) == Some(h.chunk) && filter(h.chunk)
    ensures h.score == Score(query, model.embed(h.chunk.text))
  {
    var i :| 0 <= i < |r| && r[i] == h;
    assert best[i] in best;
    FilterMembers(st.index, EntryPasses(st, filter));
    StoredRecord(st, best[i].0);
    hide Score, NoDup, GetByChunk, Filter;
    var e :| e in Passing(st, filter) && best[i] == (e.id, Score(query, e.vector));
  }

  lemma ResolvedOnce(st: Store, best: seq<(nat, real)>, r: seq<ScoredChunk>)
    requires RecordsInv(st) && NoDup(HitIds(best)) && ResolvedIn(st, best, r)
    ensures NoDup(ChunkIds(r))
    ensures forall i | 0 <= i < |best| :: st.records.at[best[i].0].chunkId in ChunkIds(r)
  {
    forall i, j | 0 <= i < j < |r| ensures ChunkIds(r)[i] != ChunkIds(r)[j] {
      assert HitIds(best)[i] != HitIds(best)[j];
      StoredRecord(st, best[i].0);
      StoredRecord(st, best[j].0);
    }
    forall i | 0 <= i < |best| ensures st.records.at[best[i].0].chunkId in ChunkIds(r) {
      assert ChunkIds(r)[i] == st.records.at[best[i].0].chunkId;
    }
  }

  /** The row of a record that passes. */
  lemma PassingRow(st: Store, model: Model, filter: ChunkRecord -> bool, id: nat) returns (e: Entry)
    requires TrueStore(st, model) && id in st.records.at && filter(st.records.at[id])
    ensures e in Passing(st, filter) && e.id == id && e.vector == model.embed(st.records.at[id].text)
  {
    FilterMembers(st.index, EntryPasses(st, filter));
    hide NoDup, RecordsInv, HashInv, Filter;
    assert id in Ids(st.index);
    var j :| 0 <= j < |st.index| && Ids(st.index)[j] == id;
    e := st.index[j];
    assert e in st.index && EntryPasses(st, filter)(e);
  }

  lemma NotAHit(st: Store, best: seq<(nat, real)>, r: seq<ScoredChunk>, id: nat)
    requires RecordsInv(st) && NoDup(HitIds(best)) && ResolvedIn(st, best, r)
    requires id in st.records.at && st.records.at[id].chunkId !in ChunkIds(r)
    ensures id !in HitIds(best)
  {
    ResolvedOnce(st, best, r);
    hide RecordsInv, NoDup;
    forall l | 0 <= l < |best| ensures HitIds(best)[l] != id {
      assert st.records.at[best[l].0].chunkId in ChunkIds(r);
    }
  }

  lemma PassedOver(
    st: Store, model: Model, query: Vector, filter: ChunkRecord -> bool, topK: nat, best: seq<(nat, real)>,
    r: seq<ScoredChunk>, id: nat, h: ScoredChunk)
    requires TrueStore(st, model) && IsTopK(Passing(st, filter), query, topK, best) && ResolvedIn(st, best, r) && h in r
    requires id in st.records.at && filter(st.records.at[id]) && st.records.at[id].chunkId !in ChunkIds(r)
    ensures Score(query, model.embed(st.records.at[id].text)) <= h.score
  {
    var i :| 0 <= i < |r| && r[i] == h;
    assert best[i] in best && best[i].1 == h.score;
    var e := PassingRow(st, model, filter, id);
    NotAHit(st, best, r, id);
    hide Score, NoDup, Passing, TrueStore, ResolvedIn, HitIds;
  }

  lemma ResolvedIsBest(
    st: Store, model: Model, query: string, filter: ChunkRecord -> bool, topK: nat, best: seq<(nat, real)>,
    r: seq<ScoredChunk>)
    requires TrueStore(st, model) && IsTopK(Passing(st, filter), model.embed(query), topK, best)
    requires ResolvedIn(st, best, r)
    ensures BestBySimilarity(st, model, query, filter, topK, r)
  {
    var q := model.embed(query);
    ResolvedOnce(st, best, r);
    hide TrueStore, Score, NoDup, GetByChunk, Passing, HitIds;
    assert forall i, j :: 0 <= i <= j < |r| ==> r[i].score >= r[j].score;
    hide IsTopK;
    forall h | h in r
      ensures GetByChunk(st, h.chunk.chunkId) == Some(h.chunk) && filter(h.chunk)
      ensures h.score == Score(q, model.embed(h.chunk.text))
    {
      ResolvedHit(st, model, q, filter, topK, best, r, h);
    }
    forall id, h | id in st.records.at && filter(st.records.at[id]) && h in r
      && st.records.at[id].chunkId !in ChunkIds(r)
      ensures Score(q, model.embed(st.records.at[id].text)) <= h.score
    {
      PassedOver(st, model, q, filter, topK, best, r, id, h);
    }
  }

  /** After every run, whatever overlapped or failed, semantic search over at most 5 * top_k stored chunks answers
      the top_k of the stored chunks that pass, by similarity of their own texts to the query. */
  lemma SemanticAfterAnyRun(
    steps: seq<Step>, model: Model, query: string, matches: seq<(string, real)>, filter: ChunkRecord -> bool,
    mode: Mode, topK: nat)
    requires Injective(model.hash) && Possible(START, steps, model) && Effective(mode) == Semantic
    requires |After(START, steps, model).store.index| <= topK * SEARCH_POOL_MULTIPLIER
    ensures var st := After(START, steps, model).store;
      var hits := VectorPool(st, model.embed(query), topK * SEARCH_POOL_MULTIPLIER);
      BestBySimilarity(st, model, query, filter, topK,
        Retrieved(Resolve(hits, Steady(st, |hits|)), matches, Steady(st, |matches|), filter, mode, topK))
  {
    var st := After(START, steps, model).store;
    CacheIsTransparent(steps, model);
    assert TrueStore(st, model) && Inv(st);
    hide *;
    var best := SemanticFiltersExactly(st, model.embed(query), matches, filter, mode, topK);
    ResolveEach(st, best);
    assert ResolvedIn(st, best, Resolve(best, Steady(st, |best|))) by {
      ResolvedIntro(st, best, Resolve(best, Steady(st, |best|)));
    }
    ResolvedIsBest(st, model, query, filter, topK, best, Resolve(best, Steady(st, |best|)));
  }

  lemma ResolvedIntro(st: Store, hits: seq<(nat, real)>, r: seq<ScoredChunk>)
    requires |r| == |hits| && forall h | h in hits :: h.0 in st.records.at
    requires forall i | 0 <= i < |hits| :: r[i] == ScoredChunk(st.records.at[hits[i].0], hits[i].1)
    ensures ResolvedIn(st, hits, r)
  {
    assert forall i | 0 <= i < |hits| :: hits[i] in hits;
  }

  // ---------------------------------------------------------------- keyword mode

  /** While the stores agree, every chunk of a ranking is stored with the document and the text the index knows. */
  lemma RankedIsStored(s: System, bm25: K.Bm25, query: string, c: string)
    requires Agree(s) && c in K.MatchIds(K.Ranking(bm25, s.keywords, query))
    ensures c in s.keywords.texts.at && GetByChunk(s.store, c).Some?
    ensures var record := GetByChunk(s.store, c).value;
      && record.chunkId == c
      && record.text == s.keywords.texts.at[c] && record.documentId == s.keywords.documents.at[c]
  {
    K.RankingSpec(bm25, s.keywords, query);
    hide K.Ranking, K.TokenSet;
    assert c in InIndex(s.keywords) && InStore(s.store)[c] == InIndex(s.keywords)[c];
  }

  function MatchPasses(st: Store, filter: ChunkRecord -> bool): ((string, real)) -> bool {
    (m: (string, real)) => match GetByChunk(st, m.0) case Some(record) => filter(record) case None => false
  }

  /** The looked-up hit of a match. */
  ghost predicate FoundAs(st: Store, m: (string, real), h: ScoredChunk) {
    GetByChunk(st, m.0) == Some(h.chunk) && h.score == m.1
  }

  /** The keyword hits are the matches whose stored records pass, in order. */
  lemma {:induction false} ResolveMatchesEach(st: Store, matches: seq<(string, real)>, filter: ChunkRecord -> bool)
    ensures var kept := Filter(matches, MatchPasses(st, filter));
      var r := ResolveMatches(matches, Steady(st, |matches|), filter);
      |r| == |kept| && forall i | 0 <= i < |r| :: FoundAs(st, kept[i], r[i])
  {
    if matches != [] {
      var n := |matches| - 1;
      assert Steady(st, |matches|)[..n] == Steady(st, n);
      ResolveMatchesEach(st, matches[..n], filter);
    }
  }

  /** Nothing the index ranks is dropped for not being stored. */
  lemma RankingIsResolved(s: System, bm25: K.Bm25, query: string)
    requires Agree(s)
    ensures var ranking := K.Ranking(bm25, s.keywords, query);
      |ResolveMatches(ranking, Steady(s.store, |ranking|), (record: ChunkRecord) => true)| == |ranking|
  {
    var ranking, all := K.Ranking(bm25, s.keywords, query), (record: ChunkRecord) => true;
    ResolveMatchesEach(s.store, ranking, all);
    hide K.Ranking, Agree, ResolveMatches, Filter;
    forall m | m in ranking ensures MatchPasses(s.store, all)(m) {
      MatchIsListed(ranking, m);
      RankedIsStored(s, bm25, query, m.0);
    }
    FilterAll(ranking, MatchPasses(s.store, all));
  }

  lemma MatchIsListed(matches: seq<(string, real)>, m: (string, real))
    requires m in matches
    ensures m.0 in K.MatchIds(matches)
  {
    var i :| 0 <= i < |matches| && matches[i] == m;
    assert K.MatchIds(matches)[i] == m.0;
  }

  ghost predicate TextMatches(bm25: K.Bm25, query: string, text: string) {
    exists t :: t in K.TokenSet(bm25, query) && t in K.TokenSet(bm25, text)
  }

  /** The stored chunks that pass and share a token with the query, each once, by falling score. */
  ghost predicate AllMatching(
    st: Store, bm25: K.Bm25, query: string, filter: ChunkRecord -> bool, whole: seq<ScoredChunk>)
  {
    && NoDup(ChunkIds(whole))
    && (forall i, j :: 0 <= i <= j < |whole| ==> whole[i].score >= whole[j].score)
    && (forall c :: c in ChunkIds(whole) <==>
          GetByChunk(st, c).Some? && filter(GetByChunk(st, c).value)
            && TextMatches(bm25, query, GetByChunk(st, c).value.text))
    && (forall h | h in whole :: GetByChunk(st, h.chunk.chunkId) == Some(h.chunk))
  }

  lemma {:induction false} FilterSorted(s: seq<(string, real)>, p: ((string, real)) -> bool)
    requires SortedDesc(s, K.ScoreOf())
    ensures SortedDesc(Filter(s, p), K.ScoreOf())
  {
    if s != [] {
      var init, last := s[..|s| - 1], s[|s| - 1];
      FilterSorted(init, p);
      FilterMembers(init, p);
      var kept := Filter(init, p);
      forall i | 0 <= i < |kept| ensures kept[i].1 >= last.1 {
        assert kept[i] in init;
        var j :| 0 <= j < |init| && init[j] == kept[i];
        assert K.ScoreOf()(s[j]) >= K.ScoreOf()(s[|s| - 1]);
      }
    }
  }

  lemma FoundIsStored(st: Store, kept: seq<(string, real)>, r: seq<ScoredChunk>)
    requires RecordsInv(st) && |r| == |kept| && forall i | 0 <= i < |r| :: FoundAs(st, kept[i], r[i])
    ensures ChunkIds(r) == K.MatchIds(kept)
    ensures forall h | h in r :: GetByChunk(st, h.chunk.chunkId) == Some(h.chunk)
  {
    hide IdsBelow;
    assert forall i | 0 <= i < |r| :: r[i].chunk.chunkId == kept[i].0;
  }

  /** A stored chunk that passes and shares a token is among the matches that are kept, and no other. */
  lemma KeptChunk(s: System, bm25: K.Bm25, query: string, filter: ChunkRecord -> bool, c: string)
    requires Agree(s)
    ensures c in K.MatchIds(Filter(K.Ranking(bm25, s.keywords, query), MatchPasses(s.store, filter))) <==>
            && GetByChunk(s.store, c).Some? && filter(GetByChunk(s.store, c).value)
            && TextMatches(bm25, query, GetByChunk(s.store, c).value.text)
  {
    var ranking, passes := K.Ranking(bm25, s.keywords, query), MatchPasses(s.store, filter);
    var kept := Filter(ranking, passes);
    FilterMembers(ranking, passes);
    K.RankingSpec(bm25, s.keywords, query);
    SharedTextMatches(s, bm25, query, c);
    hide K.Ranking, K.SharesToken, TextMatches, Agree, Filter;
    if c in K.MatchIds(kept) {
      var m := ListedMatch(kept, c);
      MatchIsListed(ranking, m);
    }
    if c in K.MatchIds(ranking) && passes((c, 0.0)) {
      var m := ListedMatch(ranking, c);
      assert passes(m);
      MatchIsListed(kept, m);
    }
  }

  lemma SharedTextMatches(s: System, bm25: K.Bm25, query: string, c: string)
    requires Agree(s)
    ensures K.SharesToken(bm25, s.keywords, query, c) <==>
            GetByChunk(s.store, c).Some? && TextMatches(bm25, query, GetByChunk(s.store, c).value.text)
  {
    hide K.TokenSet, NoDup, IdsBelow;
    assert c in InIndex(s.keywords) <==> c in InStore(s.store);
    assert c in InStore(s.store) ==> InStore(s.store)[c] == InIndex(s.keywords)[c];
  }

  lemma ListedMatch(matches: seq<(string, real)>, c: string) returns (m: (string, real))
    requires c in K.MatchIds(matches)
    ensures m in matches && m.0 == c
  {
    var i :| 0 <= i < |matches| && K.MatchIds(matches)[i] == c;
    m := matches[i];
  }

  lemma RankingIsComplete(s: System, bm25: K.Bm25, query: string, filter: ChunkRecord -> bool)
    requires Agree(s)
    ensures var ranking := K.Ranking(bm25, s.keywords, query);
      AllMatching(s.store, bm25, query, filter, ResolveMatches(ranking, Steady(s.store, |ranking|), filter))
  {
    var ranking, passes := K.Ranking(bm25, s.keywords, query), MatchPasses(s.store, filter);
    var kept, whole := Filter(ranking, passes), ResolveMatches(ranking, Steady(s.store, |ranking|), filter);
    assert RecordsInv(s.store) && s.keywords.Valid();
    hide *;
    K.RankingSpec(bm25, s.keywords, query);
    ResolveMatchesEach(s.store, ranking, filter);
    FoundIsStored(s.store, kept, whole);
    FilterSorted(ranking, passes);
    WholeIsSorted(s.store, kept, whole);
    SteadyViews(s.store, |ranking|);
    ResolveMatchesSpec(ranking, Steady(s.store, |ranking|), filter);
    forall c ensures c in ChunkIds(whole) <==>
      GetByChunk(s.store, c).Some? && filter(GetByChunk(s.store, c).value)
      && TextMatches(bm25, query, GetByChunk(s.store, c).value.text)
    {
      KeptChunk(s, bm25, query, filter, c);
    }
    AllMatchingIntro(s.store, bm25, query, filter, whole);
  }

  lemma SteadyViews(st: Store, n: nat)
    ensures |Steady(st, n)| == n && forall v | v in Steady(st, n) :: v == st
  {
  }

  lemma WholeIsSorted(st: Store, kept: seq<(string, real)>, r: seq<ScoredChunk>)
    requires SortedDesc(kept, K.ScoreOf()) && |r| == |kept| && forall i | 0 <= i < |r| :: FoundAs(st, kept[i], r[i])
    ensures forall i, j :: 0 <= i <= j < |r| ==> r[i].score >= r[j].score
  {
    hide GetByChunk;
    forall i, j | 0 <= i <= j < |r| ensures r[i].score >= r[j].score {
      assert K.ScoreOf()(kept[i]) >= K.ScoreOf()(kept[j]);
    }
  }

  lemma AllMatchingIntro(
    st: Store, bm25: K.Bm25, query: string, filter: ChunkRecord -> bool, whole: seq<ScoredChunk>)
    requires NoDup(ChunkIds(whole))
    requires forall i, j :: 0 <= i <= j < |whole| ==> whole[i].score >= whole[j].score
    requires forall c :: c in ChunkIds(whole) <==>
      GetByChunk(st, c).Some? && filter(GetByChunk(st, c).value)
        && TextMatches(bm25, query, GetByChunk(st, c).value.text)
    requires forall h | h in whole :: GetByChunk(st, h.chunk.chunkId) == Some(h.chunk)
    ensures AllMatching(st, bm25, query, filter, whole)
  {
    hide GetByChunk, TextMatches, NoDup;
  }

  /** The index lists as many chunks as the store holds. */
  lemma SameSize(s: System)
    requires Agree(s)
    ensures |s.keywords.texts.order| == |s.store.idByChunk|
  {
    assert s.keywords.texts.at.Keys == InIndex(s.keywords).Keys;
    assert s.store.idByChunk.Keys == InStore(s.store).Keys;
    CountNoDup(s.keywords.texts.order);
    assert ToSet(s.keywords.texts.order) == s.keywords.texts.at.Keys;
  }

  /** At rest after every calm run, keyword search over at most 5 * top_k stored chunks answers the first top_k of
      all stored chunks that pass and share a token with the query. */
  lemma KeywordAfterCalmRun(
    steps: seq<Step>, model: Model, bm25: K.Bm25, query: string, filter: ChunkRecord -> bool, topK: nat)
    returns (whole: seq<ScoredChunk>)
    requires Injective(model.hash) && Possible(START, steps, model) && CalmRun(steps, model)
    requires After(START, steps, model).rpcs == map[]
    requires |After(START, steps, model).store.idByChunk| <= topK * SEARCH_POOL_MULTIPLIER
    ensures var s := After(START, steps, model);
      var pool := K.Search(bm25, s.keywords, query, topK * SEARCH_POOL_MULTIPLIER);
      && AllMatching(s.store, bm25, query, filter, whole)
      && Retrieved([], pool, Steady(s.store, |pool|), filter, Keyword, topK) == Slice(whole, topK)
  {
    var s := After(START, steps, model);
    StoresAgreeAtRest(steps, model);
    assert s.keywords.Valid();
    hide *;
    var ranking := K.Ranking(bm25, s.keywords, query);
    whole := ResolveMatches(ranking, Steady(s.store, |ranking|), filter);
    SameSize(s);
    RankingIsComplete(s, bm25, query, filter);
    SmallIndexFiltersExactly(s.store, bm25, s.keywords, query, filter, topK);
  }
}
