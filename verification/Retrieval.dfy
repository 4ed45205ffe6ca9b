/** ml-service/app/search/retrieval.py: over-fetch, filter, fuse and cut. */
module Retrieval {
  import opened Collections
  import opened VectorStore
  import opened VectorStoreRuns
  import opened VectorStoreViews
  import opened Fusion
  import K = Keywords
  import F = FaissVectorStores
  import I = KeywordIndexes

  datatype Mode = Unspecified | Semantic | Keyword | Hybrid

  const SEARCH_POOL_MULTIPLIER := 5

  function Effective(mode: Mode): Mode {
    if mode == Unspecified then Hybrid else mode
  }

  function Matching(filter: ChunkRecord -> bool): ScoredChunk -> bool {
    (h: ScoredChunk) => filter(h.chunk)
  }

  /** `_resolve_keyword_hits`; `views[i]` is the store when match `i` is looked up. */
  function ResolveMatches(
    matches: seq<(string, real)>, views: seq<Store>, filter: ChunkRecord -> bool): seq<ScoredChunk>
    requires |views| == |matches|
  {
    if matches == [] then []
    else
      var n := |matches| - 1;
      ResolveMatches(matches[..n], views[..n], filter)
      + match GetByChunk(views[n], matches[n].0)
        case Some(record) => if filter(record) then [ScoredChunk(record, matches[n].1)] else []
        case None => []
  }

  /** The lookups of a request nothing interferes with. */
  method ResolveKeywordHits(store: F.FaissVectorStore, matches: seq<(string, real)>, filter: ChunkRecord -> bool)
    returns (hits: seq<ScoredChunk>)
    ensures hits == ResolveMatches(matches, Steady(store.View(), |matches|), filter)
  {
    hits := [];
    ghost var views := Steady(store.View(), |matches|);
    for i := 0 to |matches|
      invariant hits == ResolveMatches(matches[..i], views[..i], filter)
    {
      assert matches[..i + 1][..i] == matches[..i] && views[..i + 1][..i] == views[..i];
      var record := store.GetByChunkId(matches[i].0);
      if record.Some? && filter(record.value) {
        hits := hits + [ScoredChunk(record.value, matches[i].1)];
      }
    }
    assert matches[..|matches|] == matches && views[..|views|] == views;
  }

  /** `retrieve`: what the two searches answered is filtered, merged by mode and cut. */
  ghost function Retrieved(
    rawHits: seq<ScoredChunk>, matches: seq<(string, real)>, views: seq<Store>,
    filter: ChunkRecord -> bool, mode: Mode, topK: int): seq<ScoredChunk>
    requires |views| == |matches|
  {
    var vectorHits := Filter(rawHits, Matching(filter));
    var keywordHits := ResolveMatches(matches, views, filter);
    Slice(
      match Effective(mode)
      case Semantic => vectorHits
      case Keyword => keywordHits
      case _ => Fuse([vectorHits, keywordHits]),
      topK)
  }

  /** What the store answers to a pool of hits; an empty store is never asked for its top k. */
  function VectorPool(st: Store, vector: Vector, pool: int): seq<(nat, real)> {
    if st.index == [] || pool <= 0 then [] else TopK(st.index, vector, pool)
  }

  /** `retrieve` while nothing else happens: both searches are asked for 5 * top_k hits, but only in the
      modes that use them. FAISS refuses a pool that is not positive. */
  method Retrieve(
    embed: string -> Vector, store: F.FaissVectorStore, keywordIndex: I.KeywordIndex, query: string, topK: int,
    mode: Mode, filter: ChunkRecord -> bool) returns (r: Result<seq<ScoredChunk>, StoreError>)
    requires keywordIndex.Valid()
    modifies keywordIndex
    ensures keywordIndex.Valid() && keywordIndex.View() == old(keywordIndex.View())
    ensures r.Err? <==> mode != Keyword && store.index != [] && topK <= 0
    ensures r.Ok? ==>
      var st, pool := store.View(), topK * SEARCH_POOL_MULTIPLIER;
      var hits := VectorPool(st, embed(query), pool);
      var matches := K.Search(keywordIndex.model, keywordIndex.View(), query, pool);
      r.value == Retrieved(Resolve(hits, Steady(st, |hits|)), matches, Steady(st, |matches|), filter, mode, topK)
  {
    hide TopK, K.Search, Resolve, ResolveMatches, Filter, Fuse, I.KeywordIndex.Valid;
    var pool := topK * SEARCH_POOL_MULTIPLIER;
    var effective := if mode == Unspecified then Hybrid else mode;
    var vectorHits: seq<ScoredChunk> := [];
    if effective == Semantic || effective == Hybrid {
      var rawHits := store.Search(embed(query), pool);
      if rawHits.Err? {
        return rawHits;
      }
      vectorHits := Filter(rawHits.value, Matching(filter));
    }
    var keywordHits: seq<ScoredChunk> := [];
    if effective == Keyword || effective == Hybrid {
      var matches := keywordIndex.Search(query, pool);
      keywordHits := ResolveKeywordHits(store, matches, filter);
    }
    var merged;
    if effective == Semantic {
      merged := vectorHits;
    } else if effective == Keyword {
      merged := keywordHits;
    } else {
      merged := ReciprocalRankFusion([vectorHits, keywordHits]);
    }
    r := Ok(Slice(merged, topK));
  }

  /** A request that names no mode is a hybrid one; a semantic one does not depend on the index, a keyword one not
      on the vectors. */
  lemma ModesSpec(
    rawHits: seq<ScoredChunk>, otherHits: seq<ScoredChunk>, matches: seq<(string, real)>, views: seq<Store>,
    otherMatches: seq<(string, real)>, otherViews: seq<Store>, filter: ChunkRecord -> bool, topK: int)
    requires |views| == |matches| && |otherViews| == |otherMatches|
    ensures Retrieved(rawHits, matches, views, filter, Unspecified, topK)
            == Retrieved(rawHits, matches, views, filter, Hybrid, topK)
    ensures Retrieved(rawHits, matches, views, filter, Semantic, topK)
            == Retrieved(rawHits, otherMatches, otherViews, filter, Semantic, topK)
    ensures Retrieved(rawHits, matches, views, filter, Keyword, topK)
            == Retrieved(otherHits, matches, views, filter, Keyword, topK)
  {
    hide Filter, ResolveMatches, Fuse;
  }

  // ---------------------------------------------------------------- hybrid results

  /** A keyword hit was live and passed the filter when its match was looked up. */
  ghost predicate FromMatch(
    matches: seq<(string, real)>, views: seq<Store>, filter: ChunkRecord -> bool, i: nat, h: ScoredChunk)
  {
    && i < |matches| == |views|
    && GetByChunk(views[i], matches[i].0) == Some(h.chunk)
    && filter(h.chunk)
    && h == ScoredChunk(h.chunk, matches[i].1)
  }

  /** Keyword hits come from matches, in match order, each chunk once. */
  lemma {:induction false} ResolveMatchesSpec(
    matches: seq<(string, real)>, views: seq<Store>, filter: ChunkRecord -> bool)
    requires |views| == |matches|
    requires NoDup(K.MatchIds(matches)) && forall v | v in views :: RecordsInv(v)
    ensures var r := ResolveMatches(matches, views, filter);
      && NoDup(ChunkIds(r))
      && (forall h | h in r :: exists i: nat :: FromMatch(matches, views, filter, i, h))
      && (forall id | id in ChunkIds(r) :: id in K.MatchIds(matches))
  {
    if matches != [] {
      var n := |matches| - 1;
      var matches', views' := matches[..n], views[..n];
      var init := ResolveMatches(matches', views', filter);
      assert K.MatchIds(matches) == K.MatchIds(matches') + [matches[n].0];
      NoDupAppend(K.MatchIds(matches'), matches[n].0);
      ResolveMatchesSpec(matches', views', filter);
      forall h | h in init ensures exists i: nat :: FromMatch(matches, views, filter, i, h) {
        var i: nat :| FromMatch(matches', views', filter, i, h);
        assert FromMatch(matches, views, filter, i, h);
      }
      LastMatch(matches, views, filter);
      var all := ResolveMatches(matches, views, filter);
      if all != init {
        var last := all[|init|];
        assert ChunkIds(all) == ChunkIds(init) + [last.chunk.chunkId];
        NoDupAppend(ChunkIds(init), last.chunk.chunkId);
        assert FromMatch(matches, views, filter, n, last);
      }
    }
  }

  lemma LastMatch(matches: seq<(string, real)>, views: seq<Store>, filter: ChunkRecord -> bool)
    requires |views| == |matches| > 0 && RecordsInv(views[|matches| - 1])
    ensures var n := |matches| - 1;
      var init, all := ResolveMatches(matches[..n], views[..n], filter), ResolveMatches(matches, views, filter);
      || all == init
      || (|all| == |init| + 1 && all == init + [all[|init|]] && FromMatch(matches, views, filter, n, all[|init|])
          && all[|init|].chunk.chunkId == matches[n].0)
  {
  }

  lemma {:induction false} FilteredIds(hits: seq<ScoredChunk>, filter: ChunkRecord -> bool)
    requires NoDup(ChunkIds(hits))
    ensures var r := Filter(hits, Matching(filter));
      && NoDup(ChunkIds(r))
      && (forall id | id in ChunkIds(r) :: id in ChunkIds(hits))
      && (forall h | h in r :: h in hits && filter(h.chunk))
  {
    FilterMembers(hits, Matching(filter));
    if hits != [] {
      var n := |hits| - 1;
      var init := Filter(hits[..n], Matching(filter));
      assert ChunkIds(hits) == ChunkIds(hits[..n]) + [hits[n].chunk.chunkId];
      NoDupAppend(ChunkIds(hits[..n]), hits[n].chunk.chunkId);
      FilteredIds(hits[..n], filter);
      assert ChunkIds(init + [hits[n]]) == ChunkIds(init) + [hits[n].chunk.chunkId];
      NoDupAppend(ChunkIds(init), hits[n].chunk.chunkId);
      assert init + [] == init;
    }
  }

  lemma {:induction false} LastChunkIsListed(ranking: seq<ScoredChunk>, id: string)
    requires LastChunkIn(ranking, id).Some?
    ensures exists h :: h in ranking && h.chunk == LastChunkIn(ranking, id).value
  {
    var n := |ranking| - 1;
    if ranking[n].chunk.chunkId == id {
      assert ranking[n] in ranking;
    } else {
      LastChunkIsListed(ranking[..n], id);
      var h :| h in ranking[..n] && h.chunk == LastChunkIn(ranking[..n], id).value;
      assert h in ranking;
    }
  }

  /** The record was in the store when one of the searches' hits was looked up. */
  ghost predicate LiveWhenFound(
    hits: seq<(nat, real)>, hitViews: seq<Store>, matches: seq<(string, real)>, matchViews: seq<Store>,
    record: ChunkRecord)
  {
    || (exists i :: 0 <= i < |hits| == |hitViews| && GetById(hitViews[i], hits[i].0) == Some(record))
    || (exists i :: 0 <= i < |matches| == |matchViews| && GetByChunk(matchViews[i], matches[i].0) == Some(record))
  }

  /** The two searches of one request: `searched` answered `hits`, later looked up one by one while the
      store moved on; every keyword match was looked up in some state of the store as well. */
  ghost predicate Searches(
    searched: Store, hits: seq<(nat, real)>, hitViews: seq<Store>, matches: seq<(string, real)>, matchViews: seq<Store>)
  {
    && RecordsInv(searched)
    && |hits| == |hitViews| && |matches| == |matchViews|
    && NoDup(HitIds(hits)) && (forall h | h in hits :: h.0 in searched.records.at)
    && (forall i, j :: 0 <= i <= j < |hits| ==> hits[i].1 >= hits[j].1)
    && (forall v | v in hitViews :: IdsStable(searched, v))
    && NoDup(K.MatchIds(matches))
    && (forall v | v in matchViews :: RecordsInv(v))
  }

  lemma VectorHitsSpec(searched: Store, hits: seq<(nat, real)>, hitViews: seq<Store>, filter: ChunkRecord -> bool)
    requires RecordsInv(searched) && |hits| == |hitViews|
    requires NoDup(HitIds(hits)) && forall h | h in hits :: h.0 in searched.records.at
    requires forall i, j :: 0 <= i <= j < |hits| ==> hits[i].1 >= hits[j].1
    requires forall v | v in hitViews :: IdsStable(searched, v)
    ensures var r := Filter(Resolve(hits, hitViews), Matching(filter));
      && NoDup(ChunkIds(r))
      && (forall h | h in r ::
            filter(h.chunk) && exists i :: 0 <= i < |hits| && GetById(hitViews[i], hits[i].0) == Some(h.chunk))
  {
    var raw := Resolve(hits, hitViews);
    ResolveSpec(searched, hits, hitViews);
    FromHitsOrdered(searched, hits, hitViews, |hits|, raw);
    FilteredIds(raw, filter);
    hide Resolve, FromHits, NoDup, RecordsInv, Filter;
    forall h | h in raw ensures exists i :: 0 <= i < |hits| && GetById(hitViews[i], hits[i].0) == Some(h.chunk) {
      var k :| 0 <= k < |raw| && raw[k] == h;
      var i := FromHitsMember(searched, hits, hitViews, |hits|, raw, k);
    }
  }

  lemma SearchesAreWellFormed(
    searched: Store, hits: seq<(nat, real)>, hitViews: seq<Store>, matches: seq<(string, real)>, matchViews: seq<Store>,
    filter: ChunkRecord -> bool, topK: nat)
    requires Searches(searched, hits, hitViews, matches, matchViews)
    ensures var v := Filter(Resolve(hits, hitViews), Matching(filter));
      var k := ResolveMatches(matches, matchViews, filter);
      var r := Retrieved(Resolve(hits, hitViews), matches, matchViews, filter, Hybrid, topK);
      && |r| <= topK
      && NoDup(ChunkIds(r))
      && (forall h | h in r ::
            && filter(h.chunk)
            && LiveWhenFound(hits, hitViews, matches, matchViews, h.chunk)
            && h.score == ShareOf(v, h.chunk.chunkId) + ShareOf(k, h.chunk.chunkId))
      && (forall i, j :: 0 <= i <= j < |r| ==> r[i].score >= r[j].score)
  {
    var v := Filter(Resolve(hits, hitViews), Matching(filter));
    var k := ResolveMatches(matches, matchViews, filter);
    VectorHitsSpec(searched, hits, hitViews, filter);
    ResolveMatchesSpec(matches, matchViews, filter);
    hide Resolve, ResolveMatches, Filter, RecordsInv, Fuse;
    FuseSpec([v, k]);
    var fused := Fuse([v, k]);
    var r := Slice(fused, topK);
    assert ChunkIds(r) == ChunkIds(fused)[..|r|];
    assert NoDup(ChunkIds(r));
    forall h | h in r
      ensures filter(h.chunk) && LiveWhenFound(hits, hitViews, matches, matchViews, h.chunk)
      ensures h.score == ShareOf(v, h.chunk.chunkId) + ShareOf(k, h.chunk.chunkId)
    {
      assert h in fused;
      TwoRankings(v, k, h.chunk.chunkId);
      FusedIsLive(hits, hitViews, matches, matchViews, filter, v, k, h);
    }
  }

  lemma FusedIsLive(
    hits: seq<(nat, real)>, hitViews: seq<Store>, matches: seq<(string, real)>, matchViews: seq<Store>,
    filter: ChunkRecord -> bool, v: seq<ScoredChunk>, k: seq<ScoredChunk>, h: ScoredChunk)
    requires |hits| == |hitViews| && |matches| == |matchViews|
    requires forall x | x in v ::
      filter(x.chunk) && exists i :: 0 <= i < |hits| && GetById(hitViews[i], hits[i].0) == Some(x.chunk)
    requires forall x | x in k :: exists i: nat :: FromMatch(matches, matchViews, filter, i, x)
    requires LastChunk([v, k], h.chunk.chunkId) == Some(h.chunk)
    ensures filter(h.chunk) && LiveWhenFound(hits, hitViews, matches, matchViews, h.chunk)
  {
    var id := h.chunk.chunkId;
    TwoRankings(v, k, id);
    if LastChunkIn(k, id).Some? {
      LastChunkIsListed(k, id);
      var x :| x in k && x.chunk == h.chunk;
      var i: nat :| FromMatch(matches, matchViews, filter, i, x);
      assert GetByChunk(matchViews[i], matches[i].0) == Some(h.chunk);
    } else {
      LastChunkIsListed(v, id);
      var x :| x in v && x.chunk == h.chunk;
    }
  }

  /** The two lists repeat no chunk and are no longer than what the searches answered. */
  lemma SearchedLists(
    searched: Store, hits: seq<(nat, real)>, hitViews: seq<Store>, matches: seq<(string, real)>, matchViews: seq<Store>,
    filter: ChunkRecord -> bool)
    requires Searches(searched, hits, hitViews, matches, matchViews)
    ensures var v := Filter(Resolve(hits, hitViews), Matching(filter));
      var k := ResolveMatches(matches, matchViews, filter);
      NoDup(ChunkIds(v)) && NoDup(ChunkIds(k)) && |v| <= |hits| && |k| <= |matches|
  {
    VectorHitsSpec(searched, hits, hitViews, filter);
    ResolveMatchesSpec(matches, matchViews, filter);
    FilterMembers(Resolve(hits, hitViews), Matching(filter));
    ResolveShrinks(hits, hitViews);
    ResolveMatchesShrinks(matches, matchViews, filter);
    hide Resolve, ResolveMatches, Filter, RecordsInv, NoDup, ChunkIds;
  }

  lemma RetrievedByFusion(
    rawHits: seq<ScoredChunk>, matches: seq<(string, real)>, views: seq<Store>, filter: ChunkRecord -> bool, topK: nat)
    requires |views| == |matches|
    ensures var v, k := Filter(rawHits, Matching(filter)), ResolveMatches(matches, views, filter);
      Retrieved(rawHits, matches, views, filter, Hybrid, topK) <= Fuse([v, k])
  {
    hide Filter, ResolveMatches, Fuse;
  }

  lemma PoolOfTwelve(topK: nat)
    requires topK <= 12
    ensures topK * SEARCH_POOL_MULTIPLIER <= 60
  {
  }

  lemma SearchesPutConsensusFirst(
    searched: Store, hits: seq<(nat, real)>, hitViews: seq<Store>, matches: seq<(string, real)>, matchViews: seq<Store>,
    filter: ChunkRecord -> bool, topK: nat, i: nat, j: nat)
    requires Searches(searched, hits, hitViews, matches, matchViews)
    requires topK <= 12
    requires |hits| <= topK * SEARCH_POOL_MULTIPLIER && |matches| <= topK * SEARCH_POOL_MULTIPLIER
    requires var r := Retrieved(Resolve(hits, hitViews), matches, matchViews, filter, Hybrid, topK);
      i < |r| && j < |r|
    requires var v := Filter(Resolve(hits, hitViews), Matching(filter));
      var k := ResolveMatches(matches, matchViews, filter);
      var r := Retrieved(Resolve(hits, hitViews), matches, matchViews, filter, Hybrid, topK);
      && r[i].chunk.chunkId in ChunkIds(v) && r[i].chunk.chunkId in ChunkIds(k)
      && !(r[j].chunk.chunkId in ChunkIds(v) && r[j].chunk.chunkId in ChunkIds(k))
    ensures i < j
  {
    hide *;
    SearchedViews(searched, hits, hitViews, matches, matchViews);
    var v := Filter(Resolve(hits, hitViews), Matching(filter));
    var k := ResolveMatches(matches, matchViews, filter);
    PoolOfTwelve(topK);
    SearchedLists(searched, hits, hitViews, matches, matchViews, filter);
    RetrievedByFusion(Resolve(hits, hitViews), matches, matchViews, filter, topK);
    ConsensusFirst(v, k, i, j);
  }

  lemma SearchedViews(
    searched: Store, hits: seq<(nat, real)>, hitViews: seq<Store>, matches: seq<(string, real)>, matchViews: seq<Store>)
    requires Searches(searched, hits, hitViews, matches, matchViews)
    ensures |hits| == |hitViews| && |matches| == |matchViews|
  {
  }

  lemma {:induction false} ResolveShrinks(hits: seq<(nat, real)>, views: seq<Store>)
    requires |hits| == |views|
    ensures |Resolve(hits, views)| <= |hits|
  {
    if hits != [] {
      ResolveShrinks(hits[..|hits| - 1], views[..|hits| - 1]);
    }
  }

  lemma {:induction false} ResolveMatchesShrinks(
    matches: seq<(string, real)>, views: seq<Store>, filter: ChunkRecord -> bool)
    requires |matches| == |views|
    ensures |ResolveMatches(matches, views, filter)| <= |matches|
  {
    if matches != [] {
      ResolveMatchesShrinks(matches[..|matches| - 1], views[..|matches| - 1], filter);
    }
  }

  // ---------------------------------------------------------------- one request

  /** One hybrid request: the store answered a pool of 5 * top_k hits, which were looked up while operations
      went on; the index answered its pool, and each match was looked up between operations. */
  datatype Request = Request(
    bm25: K.Bm25, vector: Vector, query: string, filter: ChunkRecord -> bool, topK: nat,
    hits: seq<(nat, real)>, hitViews: seq<Store>, matches: seq<(string, real)>, matchViews: seq<Store>)

  ghost predicate Answered(q: Request, st: Store, keywords: K.Keywords) {
    && Inv(st) && keywords.Valid()
    && IsTopK(st.index, q.vector, q.topK * SEARCH_POOL_MULTIPLIER, q.hits)
    && q.matches == K.Search(q.bm25, keywords, q.query, q.topK * SEARCH_POOL_MULTIPLIER)
    && |q.hitViews| == |q.hits| && |q.matchViews| == |q.matches|
    && (forall v | v in q.hitViews :: SeenAfter(st, v))
    && (forall v | v in q.matchViews :: exists ops :: v == Run(st, ops))
  }

  lemma MatchesSpec(bm25: K.Bm25, keywords: K.Keywords, query: string, pool: nat)
    requires keywords.Valid()
    ensures var matches := K.Search(bm25, keywords, query, pool);
      NoDup(K.MatchIds(matches)) && |matches| <= pool
  {
    K.RankingSpec(bm25, keywords, query);
    hide K.Ranking;
    var ranking, matches := K.Ranking(bm25, keywords, query), K.Search(bm25, keywords, query, pool);
    assert K.MatchIds(matches) == K.MatchIds(ranking)[..|matches|];
  }

  /** What the two searches answer is all that the theorems about their results need. */
  lemma AnsweredSearches(q: Request, st: Store, keywords: K.Keywords)
    requires Answered(q, st, keywords)
    ensures Searches(st, q.hits, q.hitViews, q.matches, q.matchViews)
    ensures |q.hits| <= q.topK * SEARCH_POOL_MULTIPLIER && |q.matches| <= q.topK * SEARCH_POOL_MULTIPLIER
  {
    HitsAreLive(st, q.vector, q.topK * SEARCH_POOL_MULTIPLIER, q.hits);
    MatchesSpec(q.bm25, keywords, q.query, q.topK * SEARCH_POOL_MULTIPLIER);
    assert RecordsInv(st);
    hide IsTopK, K.Search, SeenAfter, RecordsInv, NoDup, Run, IdsStable;
    forall v | v in q.hitViews ensures IdsStable(st, v) { SeenIsStable(st, v); }
    forall v | v in q.matchViews ensures RecordsInv(v) {
      var ops :| v == Run(st, ops);
      RunStable(st, ops);
    }
  }

  /** A request nothing interferes with, as Retrieve makes it, is answered. */
  lemma QuietRequestIsAnswered(q: Request, st: Store, keywords: K.Keywords)
    requires Inv(st) && keywords.Valid()
    requires q.hits == VectorPool(st, q.vector, q.topK * SEARCH_POOL_MULTIPLIER)
    requires q.hitViews == Steady(st, |q.hits|)
    requires q.matches == K.Search(q.bm25, keywords, q.query, q.topK * SEARCH_POOL_MULTIPLIER)
    requires q.matchViews == Steady(st, |q.matches|)
    ensures Answered(q, st, keywords)
  {
    TopKIsTopK(st.index, q.vector, q.topK * SEARCH_POOL_MULTIPLIER);
    NothingSeen(st);
    assert st == Run(st, []);
    hide TopK, K.Search, SeenAfter, Score, K.Keywords.Valid, RecordsInv, HashInv, Run;
  }

  function VectorHits(q: Request): seq<ScoredChunk>
    requires |q.hits| == |q.hitViews|
  {
    Filter(Resolve(q.hits, q.hitViews), Matching(q.filter))
  }

  function KeywordHits(q: Request): seq<ScoredChunk>
    requires |q.matches| == |q.matchViews|
  {
    ResolveMatches(q.matches, q.matchViews, q.filter)
  }

  ghost function HybridAnswer(q: Request): seq<ScoredChunk>
    requires |q.hits| == |q.hitViews| && |q.matches| == |q.matchViews|
  {
    Retrieved(Resolve(q.hits, q.hitViews), q.matches, q.matchViews, q.filter, Hybrid, q.topK)
  }

  lemma HybridTies(q: Request)
    requires |q.hits| == |q.hitViews| && |q.matches| == |q.matchViews|
    ensures TiesByFirstMet([VectorHits(q), KeywordHits(q)], HybridAnswer(q))
  {
    var rankings := [VectorHits(q), KeywordHits(q)];
    FuseTies(rankings);
    assert HybridAnswer(q) == Slice(Fuse(rankings), q.topK);
    hide Resolve, ResolveMatches, Filter, Fuse, MetIds, FirstMet, Retrieved, HybridAnswer, VectorHits, KeywordHits;
  }

  /** A hybrid answer repeats no chunk, is at most top_k long, holds only chunks that were live when
      found and pass the filter, and is ordered by the sum of its chunks' shares in the two lists,
      ties in the order the vector hits and then the keyword hits list them. */
  lemma HybridIsWellFormed(q: Request, st: Store, keywords: K.Keywords)
    requires Answered(q, st, keywords)
    ensures var r := HybridAnswer(q);
      && |r| <= q.topK
      && NoDup(ChunkIds(r))
      && (forall h | h in r ::
            && q.filter(h.chunk)
            && LiveWhenFound(q.hits, q.hitViews, q.matches, q.matchViews, h.chunk)
            && h.score == ShareOf(VectorHits(q), h.chunk.chunkId) + ShareOf(KeywordHits(q), h.chunk.chunkId))
      && (forall i, j :: 0 <= i <= j < |r| ==> r[i].score >= r[j].score)
      && TiesByFirstMet([VectorHits(q), KeywordHits(q)], r)
  {
    AnsweredSearches(q, st, keywords);
    HybridTies(q);
    hide Answered, Searches, Resolve, ResolveMatches, Retrieved, LiveWhenFound, ShareOf, Filter, NoDup, TiesByFirstMet;
    SearchesAreWellFormed(st, q.hits, q.hitViews, q.matches, q.matchViews, q.filter, q.topK);
  }

  /** With top_k at most 12 a hybrid answer lists every chunk both searches found before any chunk only
      one of them found: the pools hold at most 60 entries. */
  lemma HybridPutsConsensusFirst(q: Request, st: Store, keywords: K.Keywords, i: nat, j: nat)
    requires Answered(q, st, keywords) && q.topK <= 12
    requires i < |HybridAnswer(q)| && j < |HybridAnswer(q)|
    requires var id := HybridAnswer(q)[i].chunk.chunkId; id in ChunkIds(VectorHits(q)) && id in ChunkIds(KeywordHits(q))
    requires var id := HybridAnswer(q)[j].chunk.chunkId;
      !(id in ChunkIds(VectorHits(q)) && id in ChunkIds(KeywordHits(q)))
    ensures i < j
  {
    AnsweredSearches(q, st, keywords);
    hide Answered, Searches, Resolve, ResolveMatches, Retrieved, Filter;
    SearchesPutConsensusFirst(st, q.hits, q.hitViews, q.matches, q.matchViews, q.filter, q.topK, i, j);
  }
}
