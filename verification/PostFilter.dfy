/** When filtering a pool of 5 * top_k hits after the search gives the same answer as filtering the
    whole collection first (ml-service/app/search/retrieval.py). */
module PostFilter {
  import opened Collections
  import opened VectorStore
  import opened VectorStoreRuns
  import opened VectorStoreViews
  import opened Retrieval
  import K = Keywords

  function EntryPasses(st: Store, filter: ChunkRecord -> bool): Entry -> bool {
    (e: Entry) => e.id in st.records.at && filter(st.records.at[e.id])
  }

  function HitPasses(st: Store, filter: ChunkRecord -> bool): ((nat, real)) -> bool {
    (h: (nat, real)) => h.0 in st.records.at && filter(st.records.at[h.0])
  }

  /** The collection filtered before searching. */
  function Passing(st: Store, filter: ChunkRecord -> bool): seq<Entry> {
    Filter(st.index, EntryPasses(st, filter))
  }

  /** The pool filtered after searching. */
  function Surviving(st: Store, pool: seq<(nat, real)>, filter: ChunkRecord -> bool): seq<(nat, real)> {
    Filter(pool, HitPasses(st, filter))
  }

  function Min(a: nat, b: nat): nat {
    if a <= b then a else b
  }

  lemma {:induction false} FilteredColumn(index: seq<Entry>, p: Entry -> bool)
    requires NoDup(Ids(index))
    ensures NoDup(Ids(Filter(index, p)))
    ensures forall e :: e in Filter(index, p) <==> e in index && p(e)
  {
    FilterMembers(index, p);
    if index != [] {
      var n := |index| - 1;
      var init := Filter(index[..n], p);
      IdsAppend(index[..n], index[n]);
      assert index == index[..n] + [index[n]];
      NoDupAppend(Ids(index[..n]), index[n].id);
      FilteredColumn(index[..n], p);
      FilterMembers(index[..n], p);
      IdsAppend(init, index[n]);
      NoDupAppend(Ids(init), index[n].id);
      assert init + [] == init;
      forall i | 0 <= i < |init| ensures Ids(init)[i] != index[n].id {
        assert init[i] in index[..n];
        var j :| 0 <= j < n && index[j] == init[i];
        assert Ids(index[..n])[j] == init[i].id;
      }
    }
  }

  lemma {:induction false} SurvivorsInOrder(pool: seq<(nat, real)>, p: ((nat, real)) -> bool)
    requires NoDup(HitIds(pool))
    requires forall i, j :: 0 <= i <= j < |pool| ==> pool[i].1 >= pool[j].1
    ensures var f := Filter(pool, p);
      && NoDup(HitIds(f))
      && (forall i, j :: 0 <= i <= j < |f| ==> f[i].1 >= f[j].1)
      && (forall h :: h in f <==> h in pool && p(h))
  {
    FilterMembers(pool, p);
    if pool != [] {
      var n := |pool| - 1;
      var init := Filter(pool[..n], p);
      assert HitIds(pool) == HitIds(pool[..n]) + [pool[n].0];
      NoDupAppend(HitIds(pool[..n]), pool[n].0);
      SurvivorsInOrder(pool[..n], p);
      assert HitIds(init + [pool[n]]) == HitIds(init) + [pool[n].0];
      NoDupAppend(HitIds(init), pool[n].0);
      assert init + [] == init;
      forall i | 0 <= i < |init| ensures HitIds(init)[i] != pool[n].0 && init[i].1 >= pool[n].1 {
        assert init[i] in pool[..n];
        var j :| 0 <= j < n && pool[j] == init[i];
        assert HitIds(pool[..n])[j] == init[i].0;
      }
    }
  }

  /** Every hit of a search is a row of the index with its true score, and the row is unique. */
  lemma HitRow(st: Store, query: Vector, k: nat, pool: seq<(nat, real)>, h: (nat, real), e: Entry)
    requires Inv(st) && IsTopK(st.index, query, k, pool) && h in pool && e in st.index && e.id == h.0
    ensures h.1 == Score(query, e.vector)
  {
    var e' :| e' in st.index && h == (e'.id, Score(query, e'.vector));
    var i :| 0 <= i < |st.index| && st.index[i] == e;
    var j :| 0 <= j < |st.index| && st.index[j] == e';
    assert Ids(st.index)[i] == Ids(st.index)[j];
  }

  lemma SurvivorsPass(st: Store, query: Vector, k: nat, pool: seq<(nat, real)>, filter: ChunkRecord -> bool)
    requires Inv(st) && IsTopK(st.index, query, k, pool)
    ensures var f, all := Surviving(st, pool, filter), Passing(st, filter);
      && NoDup(HitIds(f)) && NoDup(Ids(all))
      && (forall h | h in f :: h in pool && exists e :: e in all && h == (e.id, Score(query, e.vector)))
      && (forall h | h in pool && h.0 in Ids(all) :: h in f)
      && (forall x | x in HitIds(f) :: x in Ids(all))
      && (forall e | e in all :: e in st.index)
  {
    var f, all := Surviving(st, pool, filter), Passing(st, filter);
    SurvivorsInOrder(pool, HitPasses(st, filter));
    FilteredColumn(st.index, EntryPasses(st, filter));
    hide NoDup, Score, Filter, Inv, IsTopK;
    forall h | h in f ensures h in pool && exists e :: e in all && h == (e.id, Score(query, e.vector)) {
      SurvivorRow(st, query, k, pool, filter, h);
    }
    forall h | h in pool && h.0 in Ids(all) ensures h in f {
      PassingHit(st, filter, h);
    }
    hide Surviving, Passing;
    forall x | x in HitIds(f) ensures x in Ids(all) {
      SurvivorId(f, all, query, x);
    }
  }

  /** The row behind a surviving hit passes the filter. */
  lemma SurvivorRow(
    st: Store, query: Vector, k: nat, pool: seq<(nat, real)>, filter: ChunkRecord -> bool, h: (nat, real))
    requires IsTopK(st.index, query, k, pool) && h in pool && HitPasses(st, filter)(h)
    requires forall e :: e in Passing(st, filter) <==> e in st.index && EntryPasses(st, filter)(e)
    ensures exists e :: e in Passing(st, filter) && h == (e.id, Score(query, e.vector))
  {
    hide NoDup, Score, Filter;
    var e :| e in st.index && h == (e.id, Score(query, e.vector));
    assert EntryPasses(st, filter)(e);
  }

  lemma PassingHit(st: Store, filter: ChunkRecord -> bool, h: (nat, real))
    requires h.0 in Ids(Passing(st, filter))
    requires forall e :: e in Passing(st, filter) <==> e in st.index && EntryPasses(st, filter)(e)
    ensures HitPasses(st, filter)(h)
  {
    hide Passing;
    var all := Passing(st, filter);
    var i :| 0 <= i < |all| && Ids(all)[i] == h.0;
    assert all[i] in all && EntryPasses(st, filter)(all[i]);
  }

  lemma SurvivorId(f: seq<(nat, real)>, all: seq<Entry>, query: Vector, x: nat)
    requires forall h | h in f :: exists e :: e in all && h == (e.id, Score(query, e.vector))
    requires x in HitIds(f)
    ensures x in Ids(all)
  {
    hide Score;
    var i :| 0 <= i < |f| && HitIds(f)[i] == x;
    assert f[i] in f;
    var e :| e in all && f[i] == (e.id, Score(query, e.vector));
    InColumn(all, e);
  }

  /** Cutting the filtered pool is a top-k answer over the filtered collection exactly when the pool
      kept enough passing hits. */
  lemma PostFilterExact(
    st: Store, query: Vector, k: nat, pool: seq<(nat, real)>, filter: ChunkRecord -> bool, topK: nat)
    requires Inv(st) && IsTopK(st.index, query, k, pool)
    ensures IsTopK(Passing(st, filter), query, topK, Slice(Surviving(st, pool, filter), topK)) <==>
            |Surviving(st, pool, filter)| >= Min(topK, |Passing(st, filter)|)
  {
    var f, all := Surviving(st, pool, filter), Passing(st, filter);
    SurvivorsInOrder(pool, HitPasses(st, filter));
    SurvivorsPass(st, query, k, pool, filter);
    assert |HitIds(f)| == |f| && |Ids(all)| == |all|;
    ContainedNoDup(HitIds(f), Ids(all));
    forall e, h | e in all && h in Slice(f, topK) && e.id !in HitIds(Slice(f, topK))
      ensures Score(query, e.vector) <= h.1
    {
      CutHits(st, query, k, pool, filter, topK, e, h);
    }
    hide *;
    if |f| >= Min(topK, |all|) { CutIsTopK(f, all, query, topK); }
    if IsTopK(all, query, topK, Slice(f, topK)) { TopKLength(f, all, query, topK); }
  }

  lemma TopKLength(f: seq<(nat, real)>, all: seq<Entry>, query: Vector, topK: nat)
    requires IsTopK(all, query, topK, Slice(f, topK))
    ensures |f| >= Min(topK, |all|)
  {
    hide NoDup, Score;
  }

  lemma CutIsTopK(f: seq<(nat, real)>, all: seq<Entry>, query: Vector, topK: nat)
    requires Min(topK, |all|) <= |f| <= |all| && NoDup(HitIds(f))
    requires forall i, j :: 0 <= i <= j < |f| ==> f[i].1 >= f[j].1
    requires forall h | h in f :: exists e :: e in all && h == (e.id, Score(query, e.vector))
    requires forall e, h | e in all && h in Slice(f, topK) && e.id !in HitIds(Slice(f, topK)) ::
      Score(query, e.vector) <= h.1
    ensures IsTopK(all, query, topK, Slice(f, topK))
  {
    var r := Slice(f, topK);
    assert HitIds(r) == HitIds(f)[..|r|];
    assert NoDup(HitIds(r));
    hide NoDup, Score, HitIds;
    forall h | h in r ensures exists e :: e in all && h == (e.id, Score(query, e.vector)) {
      assert h in f;
    }
  }

  /** What the cut leaves out scores no higher than what it keeps. */
  lemma CutHits(
    st: Store, query: Vector, k: nat, pool: seq<(nat, real)>, filter: ChunkRecord -> bool, topK: nat,
    e: Entry, h: (nat, real))
    requires Inv(st) && IsTopK(st.index, query, k, pool)
    requires e in Passing(st, filter)
    requires var r := Slice(Surviving(st, pool, filter), topK); h in r && e.id !in HitIds(r)
    ensures Score(query, e.vector) <= h.1
  {
    var f := Surviving(st, pool, filter);
    var r := Slice(f, topK);
    SurvivorsInOrder(pool, HitPasses(st, filter));
    SurvivorsPass(st, query, k, pool, filter);
    hide Score, Filter, Inv;
    assert h in f;
    if e.id in HitIds(pool) {
      var l :| 0 <= l < |pool| && HitIds(pool)[l] == e.id;
      var g := pool[l];
      assert g in pool && e in st.index;
      HitRow(st, query, k, pool, g, e);
      InColumn(Passing(st, filter), e);
      LaterHit(f, topK, h, g);
    }
  }

  lemma LaterHit(f: seq<(nat, real)>, topK: nat, h: (nat, real), g: (nat, real))
    requires forall i, j :: 0 <= i <= j < |f| ==> f[i].1 >= f[j].1
    requires h in Slice(f, topK) && g in f && g.0 !in HitIds(Slice(f, topK))
    ensures g.1 <= h.1
  {
    var r := Slice(f, topK);
    var i :| 0 <= i < |r| && r[i] == h;
    var j :| 0 <= j < |f| && f[j] == g;
    assert |HitIds(r)| == |r| && forall m | 0 <= m < |r| :: HitIds(r)[m] == f[m].0;
  }

  lemma InColumn(index: seq<Entry>, e: Entry)
    requires e in index
    ensures e.id in Ids(index)
  {
    var i :| 0 <= i < |index| && index[i] == e;
    assert Ids(index)[i] == e.id;
  }

  /** On a store of at most 5 * top_k chunks semantic search filters exactly. */
  lemma SmallStoreFiltersExactly(
    st: Store, query: Vector, pool: seq<(nat, real)>, filter: ChunkRecord -> bool, topK: nat)
    requires Inv(st) && IsTopK(st.index, query, topK * SEARCH_POOL_MULTIPLIER, pool)
    requires |st.index| <= topK * SEARCH_POOL_MULTIPLIER
    ensures IsTopK(Passing(st, filter), query, topK, Slice(Surviving(st, pool, filter), topK))
  {
    var k := topK * SEARCH_POOL_MULTIPLIER;
    var f, all := Surviving(st, pool, filter), Passing(st, filter);
    SurvivorsPass(st, query, k, pool, filter);
    PostFilterExact(st, query, k, pool, filter, topK);
    WholePool(st, query, k, pool);
    assert |HitIds(f)| == |f| && |Ids(all)| == |all|;
    hide *;
    forall x | x in Ids(all) ensures x in HitIds(f) {
      WholeSurvives(st.index, pool, f, all, x);
    }
    ContainedNoDup(Ids(all), HitIds(f));
  }

  lemma WholeSurvives(index: seq<Entry>, pool: seq<(nat, real)>, f: seq<(nat, real)>, all: seq<Entry>, x: nat)
    requires forall e | e in all :: e in index
    requires forall y | y in Ids(index) :: y in HitIds(pool)
    requires forall h | h in pool && h.0 in Ids(all) :: h in f
    requires x in Ids(all)
    ensures x in HitIds(f)
  {
    var i :| 0 <= i < |all| && Ids(all)[i] == x;
    assert all[i] in all;
    InColumn(index, all[i]);
    var j :| 0 <= j < |pool| && HitIds(pool)[j] == x;
    assert pool[j] in pool;
    var l :| 0 <= l < |f| && f[l] == pool[j];
    assert HitIds(f)[l] == x;
  }

  /** A pool as large as the index holds every row. */
  lemma WholePool(st: Store, query: Vector, k: nat, pool: seq<(nat, real)>)
    requires Inv(st) && IsTopK(st.index, query, k, pool) && |st.index| <= k
    ensures forall x | x in Ids(st.index) :: x in HitIds(pool)
  {
    hide Score;
    forall x | x in HitIds(pool) ensures x in Ids(st.index) {
      var i :| 0 <= i < |pool| && HitIds(pool)[i] == x;
      assert pool[i] in pool;
      var e :| e in st.index && pool[i] == (e.id, Score(query, e.vector));
      InColumn(st.index, e);
    }
    assert |HitIds(pool)| == |Ids(st.index)|;
    ContainedNoDup(HitIds(pool), Ids(st.index));
  }

  // ---------------------------------------------------------------- the modes of retrieve

  function ScoredHit(st: Store, h: (nat, real)): ScoredChunk
    requires h.0 in st.records.at
  {
    ScoredChunk(st.records.at[h.0], h.1)
  }

  lemma ResolveSnoc(st: Store, hits: seq<(nat, real)>, h: (nat, real))
    requires h.0 in st.records.at
    ensures Resolve(hits + [h], Steady(st, |hits + [h]|)) == Resolve(hits, Steady(st, |hits|)) + [ScoredHit(st, h)]
  {
    var all := hits + [h];
    assert all[..|hits|] == hits && Steady(st, |all|)[..|hits|] == Steady(st, |hits|);
  }

  lemma FilterSnoc<T(!new)>(s: seq<T>, x: T, p: T -> bool)
    ensures Filter(s + [x], p) == Filter(s, p) + if p(x) then [x] else []
  {
    assert (s + [x])[..|s|] == s;
  }

  lemma {:induction false} ResolveEach(st: Store, hits: seq<(nat, real)>)
    requires forall h | h in hits :: h.0 in st.records.at
    ensures var r := Resolve(hits, Steady(st, |hits|));
      && |r| == |hits|
      && (forall i | 0 <= i < |hits| :: r[i] == ScoredChunk(st.records.at[hits[i].0], hits[i].1))
  {
    if hits != [] {
      var init, last := hits[..|hits| - 1], hits[|hits| - 1];
      assert hits == init + [last];
      ResolveEach(st, init);
      ResolveSnoc(st, init, last);
      hide Resolve;
    }
  }

  lemma {:induction false} ResolveFiltered(st: Store, hits: seq<(nat, real)>, filter: ChunkRecord -> bool)
    requires forall h | h in hits :: h.0 in st.records.at
    ensures Filter(Resolve(hits, Steady(st, |hits|)), Matching(filter)) ==
            Resolve(Filter(hits, HitPasses(st, filter)), Steady(st, |Filter(hits, HitPasses(st, filter))|))
  {
    if hits != [] {
      hide Resolve, Filter;
      var init, last := hits[..|hits| - 1], hits[|hits| - 1];
      assert hits == init + [last];
      var f := Filter(init, HitPasses(st, filter));
      ResolveFiltered(st, init, filter);
      ResolveSnoc(st, init, last);
      FilterSnoc(init, last, HitPasses(st, filter));
      FilterSnoc(Resolve(init, Steady(st, |init|)), ScoredHit(st, last), Matching(filter));
      ResolveSnoc(st, f, last);
      assert f + [] == f;
      assert Resolve(f, Steady(st, |f|)) + [] == Resolve(f, Steady(st, |f|));
    }
  }

  lemma ResolveLive(st: Store, hits: seq<(nat, real)>, filter: ChunkRecord -> bool)
    requires forall h | h in hits :: h.0 in st.records.at
    ensures var r := Resolve(hits, Steady(st, |hits|));
      && |r| == |hits|
      && (forall i | 0 <= i < |hits| :: r[i] == ScoredChunk(st.records.at[hits[i].0], hits[i].1))
      && Filter(r, Matching(filter)) ==
         Resolve(Filter(hits, HitPasses(st, filter)), Steady(st, |Filter(hits, HitPasses(st, filter))|))
  {
    ResolveEach(st, hits);
    ResolveFiltered(st, hits, filter);
    hide *;
  }

  /** Semantic mode is the filtered and cut pool, resolved. */
  lemma SemanticIsCutPool(st: Store, pool: seq<(nat, real)>, filter: ChunkRecord -> bool, topK: nat)
    requires forall h | h in pool :: h.0 in st.records.at
    ensures var cut := Slice(Surviving(st, pool, filter), topK);
      Retrieved(Resolve(pool, Steady(st, |pool|)), [], [], filter, Semantic, topK) == Resolve(cut, Steady(st, |cut|))
  {
    var f := Surviving(st, pool, filter);
    var cut := Slice(f, topK);
    ResolveLive(st, pool, filter);
    FilterMembers(pool, HitPasses(st, filter));
    ResolveLive(st, f, filter);
    ResolveLive(st, cut, filter);
    hide Resolve, Filter;
    assert Slice(Resolve(f, Steady(st, |f|)), topK) == Resolve(cut, Steady(st, |cut|));
  }

  lemma PoolIsTopK(st: Store, query: Vector, k: nat)
    requires Inv(st)
    ensures st.index == [] || k > 0 ==> IsTopK(st.index, query, k, VectorPool(st, query, k))
  {
    TopKIsTopK(st.index, query, k);
    hide Score, TopK, NoDup;
  }

  /** What `retrieve` answers in semantic mode on a store of at most 5 * top_k chunks is the exact top_k of the
      filtered collection. */
  lemma SemanticFiltersExactly(
    st: Store, query: Vector, matches: seq<(string, real)>, filter: ChunkRecord -> bool, mode: Mode, topK: nat)
    returns (best: seq<(nat, real)>)
    requires Inv(st) && |st.index| <= topK * SEARCH_POOL_MULTIPLIER && Effective(mode) == Semantic
    ensures IsTopK(Passing(st, filter), query, topK, best) && forall h | h in best :: h.0 in st.records.at
    ensures var hits := VectorPool(st, query, topK * SEARCH_POOL_MULTIPLIER);
      Retrieved(Resolve(hits, Steady(st, |hits|)), matches, Steady(st, |matches|), filter, mode, topK)
      == Resolve(best, Steady(st, |best|))
  {
    var hits := VectorPool(st, query, topK * SEARCH_POOL_MULTIPLIER);
    PoolIsTopK(st, query, topK * SEARCH_POOL_MULTIPLIER);
    HitsAreLive(st, query, topK * SEARCH_POOL_MULTIPLIER, hits);
    best := Slice(Surviving(st, hits, filter), topK);
    FilterMembers(hits, HitPasses(st, filter));
    hide IsTopK, Inv, VectorPool, Passing, Resolve, ResolveMatches, Filter;
    SmallStoreFiltersExactly(st, query, hits, filter, topK);
    SemanticIsCutPool(st, hits, filter, topK);
  }

  lemma {:induction false} ResolveMatchesPrefix(
    st: Store, matches: seq<(string, real)>, n: nat, filter: ChunkRecord -> bool)
    requires n <= |matches|
    ensures ResolveMatches(matches[..n], Steady(st, n), filter)
            <= ResolveMatches(matches, Steady(st, |matches|), filter)
    decreases |matches|
  {
    if n < |matches| {
      var m := |matches| - 1;
      assert matches[..m][..n] == matches[..n];
      assert Steady(st, |matches|)[..m] == Steady(st, m);
      ResolveMatchesPrefix(st, matches[..m], n, filter);
    } else {
      assert matches[..n] == matches;
    }
  }

  /** Keyword mode answers as if the whole ranking had been filtered before cutting, exactly when the
      pool kept enough passing chunks. */
  lemma KeywordFiltersExactly(st: Store, ranking: seq<(string, real)>, k: nat, filter: ChunkRecord -> bool, topK: nat)
    ensures var pool := Slice(ranking, k);
      var whole := ResolveMatches(ranking, Steady(st, |ranking|), filter);
      var kept := ResolveMatches(pool, Steady(st, |pool|), filter);
      (Retrieved([], pool, Steady(st, |pool|), filter, Keyword, topK) == Slice(whole, topK)
       <==> |kept| >= Min(topK, |whole|))
  {
    var pool := Slice(ranking, k);
    ResolveMatchesPrefix(st, ranking, |pool|, filter);
  }

  /** On an index of at most 5 * top_k chunks keyword search filters exactly. */
  lemma SmallIndexFiltersExactly(
    st: Store, bm25: K.Bm25, keywords: K.Keywords, query: string, filter: ChunkRecord -> bool, topK: nat)
    requires keywords.Valid() && |keywords.texts.order| <= topK * SEARCH_POOL_MULTIPLIER
    ensures var ranking := K.Ranking(bm25, keywords, query);
      var pool := K.Search(bm25, keywords, query, topK * SEARCH_POOL_MULTIPLIER);
      Retrieved([], pool, Steady(st, |pool|), filter, Keyword, topK)
      == Slice(ResolveMatches(ranking, Steady(st, |ranking|), filter), topK)
  {
    var ranking := K.Ranking(bm25, keywords, query);
    K.RankingSpec(bm25, keywords, query);
    ContainedNoDup(K.MatchIds(ranking), keywords.texts.order);
    assert |K.MatchIds(ranking)| == |ranking|;
  }
}
