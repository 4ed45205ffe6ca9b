/** From top_k = 13 on a hybrid answer can list a chunk that one search found before one that both found: a
    store and an index in agreement, and a request nothing interferes with, for every such top_k. */
module HybridBounds {
  import opened Collections
  import opened VectorStore
  import opened VectorStoreUpsert
  import opened VectorStoreViews
  import opened VectorStoreRuns
  import opened Fusion
  import opened FusionBounds
  import opened Retrieval
  import opened PostFilter
  import opened EmbeddingSystem
  import opened StoreAgreement
  import opened RetrievalAfterRuns
  import K = Keywords

  // ---------------------------------------------------------------- the collection

  /** Chunks 0 to 64 hold the word of the query, the others another one. */
  function NthText(m: nat): (text: string)
    ensures text != "" && text[0] == if m <= 64 then 'k' else 'v'
  {
    (if m <= 64 then "k" else "v") + Repeat(' ', m)
  }

  function NthRecord(m: nat): ChunkRecord {
    ChunkRecord(Repeat('c', m), "d", NthText(m), m, NthText(m), map[])
  }

  function Records(n: nat): (records: seq<ChunkRecord>)
    ensures |records| == n
  {
    seq(n, m requires 0 <= m < n => NthRecord(m))
  }

  /** The rank of a chunk for the query vector: chunk 64 is at rank 64, the other chunks with the query's word
      come after a whole pool. */
  function VectorRank(pool: nat, m: nat): nat {
    if m < 64 then pool + m else if m == 64 then 64 else if m < 129 then m - 65 else m - 64
  }

  function AtRank(i: nat): nat {
    if i < 64 then 65 + i else if i == 64 then 64 else 64 + i
  }

  lemma RankInverse(pool: nat, i: nat, m: nat)
    requires pool >= 65
    ensures i < pool ==> AtRank(i) < pool + 64 && VectorRank(pool, AtRank(i)) == i
    ensures VectorRank(pool, m) < pool ==> AtRank(VectorRank(pool, m)) == m
  {
  }

  function NthVector(pool: nat, m: nat): Vector {
    [0.0 - VectorRank(pool, m) as real]
  }

  function Vectors(pool: nat, n: nat): (vectors: seq<Vector>)
    ensures |vectors| == n
  {
    seq(n, m requires 0 <= m < n => NthVector(pool, m))
  }

  lemma NthScore(pool: nat, m: nat)
    ensures Score([1.0], NthVector(pool, m)) == 0.0 - VectorRank(pool, m) as real
  {
    assert [1.0][1..] == [];
  }

  // ---------------------------------------------------------------- the store

  /** The store holds the first `n` chunks, the m-th under `ids[m]`. */
  ghost predicate HoldsAll(st: Store, ids: seq<nat>, pool: nat, n: nat) {
    && |ids| == n && NoDup(ids)
    && (forall m | 0 <= m < n :: ids[m] in st.records.at && st.records.at[ids[m]] == NthRecord(m))
    && (forall id | id in st.records.at :: id in ids)
    && (forall e | e in st.index :: exists m :: 0 <= m < n && e == Entry(ids[m], NthVector(pool, m)))
    && |st.index| == n
  }

  lemma RecordsAreFresh(n: nat)
    ensures FreshBatch(EMPTY, Records(n))
  {
    assert forall i, j :: 0 <= i < j < n ==> |Records(n)[i].chunkId| != |Records(n)[j].chunkId|;
  }

  lemma StoreSpec(pool: nat, n: nat) returns (st: Store, ids: seq<nat>)
    requires n > 0
    ensures Upsert(EMPTY, Records(n), Vectors(pool, n)) == Ok(st)
    ensures Inv(st) && HoldsAll(st, ids, pool, n)
  {
    var records, vectors := Records(n), Vectors(pool, n);
    RecordsAreFresh(n);
    assert Inv(EMPTY);
    FreshUpsert(EMPTY, records, vectors);
    assert Upsert(EMPTY, records, vectors).Ok?;
    st, ids := Upsert(EMPTY, records, vectors).value, AllocatedIds(EMPTY, records);
    hide *;
    GainedAll(st, ids, pool, n);
  }

  lemma GainedAll(st: Store, ids: seq<nat>, pool: nat, n: nat)
    requires Inv(st) && Gained(EMPTY, st, Records(n), Vectors(pool, n), ids)
    ensures HoldsAll(st, ids, pool, n)
  {
    forall i, j | 0 <= i < j < n ensures ids[i] != ids[j] {
      assert |Records(n)[i].chunkId| != |Records(n)[j].chunkId|;
    }
    assert forall m | 0 <= m < n :: st.records.at[ids[m]] == Records(n)[m] == NthRecord(m);
    assert forall m | 0 <= m < n :: Vectors(pool, n)[m] == NthVector(pool, m);
    assert NoDup(ids) && NoDup(Ids(st.index));
    hide RecordsInv, HashInv, NoDup, NthRecord, NthVector;
    assert |Ids(st.index)| == |st.index|;
    assert forall id :: id in Ids(st.index) <==> id in ids;
    ContainedNoDup(ids, Ids(st.index));
    ContainedNoDup(Ids(st.index), ids);
  }

  // ---------------------------------------------------------------- the vector pool

  function NthHit(ids: seq<nat>, i: nat): (nat, real)
    requires AtRank(i) < |ids|
  {
    (ids[AtRank(i)], 0.0 - i as real)
  }

  function Pool(ids: seq<nat>, pool: nat): (hits: seq<(nat, real)>)
    requires pool >= 65 && |ids| == pool + 64
    ensures |hits| == pool && forall i | 0 <= i < pool :: AtRank(i) < |ids| && hits[i] == NthHit(ids, i)
  {
    seq(pool, i requires 0 <= i < pool => NthHit(ids, i))
  }

  lemma HeldChunk(st: Store, ids: seq<nat>, pool: nat, n: nat, m: nat)
    requires HoldsAll(st, ids, pool, n) && m < n
    ensures |ids| == n && ids[m] in st.records.at && st.records.at[ids[m]] == NthRecord(m)
  {
    hide NoDup, NthRecord, NthVector;
  }

  lemma HeldSizes(st: Store, ids: seq<nat>, pool: nat, n: nat)
    requires HoldsAll(st, ids, pool, n)
    ensures |ids| == n == |st.index| && NoDup(ids)
  {
    hide NoDup, NthRecord, NthVector;
  }

  lemma HeldRow(st: Store, ids: seq<nat>, pool: nat, n: nat, e: Entry) returns (m: nat)
    requires HoldsAll(st, ids, pool, n) && e in st.index
    ensures m < n == |ids| && e == Entry(ids[m], NthVector(pool, m))
  {
    hide NoDup, NthRecord, NthVector;
    m :| m < n && e == Entry(ids[m], NthVector(pool, m));
  }

  lemma RowOf(st: Store, ids: seq<nat>, pool: nat, n: nat, m: nat)
    requires Inv(st) && HoldsAll(st, ids, pool, n) && m < n
    ensures |ids| == n && Entry(ids[m], NthVector(pool, m)) in st.index
  {
    HeldChunk(st, ids, pool, n, m);
    var e := LiveRow(st, ids[m]);
    var m' := HeldRow(st, ids, pool, n, e);
    hide NthVector, NthRecord, Inv;
    assert m' == m;
  }

  lemma LiveRow(st: Store, id: nat) returns (e: Entry)
    requires Inv(st) && id in st.records.at
    ensures e in st.index && e.id == id
  {
    hide RecordsInv, HashInv, NoDup;
    assert id in Ids(st.index);
    var j :| 0 <= j < |st.index| && Ids(st.index)[j] == id;
    e := st.index[j];
  }

  lemma HitIsRow(st: Store, ids: seq<nat>, pool: nat, i: nat)
    requires pool >= 65 && Inv(st) && HoldsAll(st, ids, pool, pool + 64) && i < pool
    ensures |ids| == pool + 64 && exists e :: e in st.index && Pool(ids, pool)[i] == (e.id, Score([1.0], e.vector))
  {
    var m := AtRank(i);
    RankInverse(pool, i, m);
    NthScore(pool, m);
    RowOf(st, ids, pool, pool + 64, m);
    hide NthVector, Score, AtRank, VectorRank, Inv, HoldsAll;
    var e := Entry(ids[m], NthVector(pool, m));
    assert e in st.index && Pool(ids, pool)[i] == (e.id, Score([1.0], e.vector));
  }

  lemma PoolInOrder(ids: seq<nat>, pool: nat)
    requires pool >= 65 && |ids| == pool + 64 && NoDup(ids)
    ensures NoDup(HitIds(Pool(ids, pool)))
    ensures forall i, j :: 0 <= i <= j < pool ==> Pool(ids, pool)[i].1 >= Pool(ids, pool)[j].1
  {
    var hits := Pool(ids, pool);
    forall i, j | 0 <= i < j < pool ensures HitIds(hits)[i] != HitIds(hits)[j] {
      assert AtRank(i) != AtRank(j);
    }
  }

  lemma HitRankedBefore(ids: seq<nat>, pool: nat, h: (nat, real))
    requires pool >= 65 && |ids| == pool + 64 && h in Pool(ids, pool)
    ensures h.1 >= 0.0 - pool as real
  {
    var i :| 0 <= i < pool && Pool(ids, pool)[i] == h;
    hide AtRank;
  }

  lemma PoolIsAnswered(st: Store, ids: seq<nat>, pool: nat)
    requires pool >= 65 && Inv(st) && HoldsAll(st, ids, pool, pool + 64)
    ensures |ids| == pool + 64 && IsTopK(st.index, [1.0], pool, Pool(ids, pool))
  {
    hide *;
    HeldSizes(st, ids, pool, pool + 64);
    var hits := Pool(ids, pool);
    PoolInOrder(ids, pool);
    forall h | h in hits ensures exists e :: e in st.index && h == (e.id, Score([1.0], e.vector)) {
      var i :| 0 <= i < pool && hits[i] == h;
      HitIsRow(st, ids, pool, i);
    }
    forall e, h | e in st.index && h in hits && e.id !in HitIds(hits) ensures Score([1.0], e.vector) <= h.1 {
      var m := HeldRow(st, ids, pool, pool + 64, e);
      BeyondPool(ids, pool, m);
      NthScore(pool, m);
      HitRankedBefore(ids, pool, h);
    }
    IsTopKIntro(st.index, [1.0], pool, hits);
  }

  lemma IsTopKIntro(index: seq<Entry>, query: Vector, k: nat, hits: seq<(nat, real)>)
    requires |hits| == k <= |index| && NoDup(HitIds(hits))
    requires forall h | h in hits :: exists e :: e in index && h == (e.id, Score(query, e.vector))
    requires forall i, j :: 0 <= i <= j < |hits| ==> hits[i].1 >= hits[j].1
    requires forall e, h | e in index && h in hits && e.id !in HitIds(hits) :: Score(query, e.vector) <= h.1
    ensures IsTopK(index, query, k, hits)
  {
    hide Score, NoDup, HitIds;
  }

  lemma WithinPool(ids: seq<nat>, pool: nat, m: nat)
    requires pool >= 65 && |ids| == pool + 64 && m < pool + 64 && VectorRank(pool, m) < pool
    ensures ids[m] in HitIds(Pool(ids, pool))
  {
    var i := VectorRank(pool, m);
    RankInverse(pool, i, m);
    hide AtRank, VectorRank;
    assert HitIds(Pool(ids, pool))[i] == ids[m];
  }

  lemma BeyondPool(ids: seq<nat>, pool: nat, m: nat)
    requires pool >= 65 && |ids| == pool + 64 && m < pool + 64 && ids[m] !in HitIds(Pool(ids, pool))
    ensures VectorRank(pool, m) >= pool
  {
    hide *;
    if VectorRank(pool, m) < pool { WithinPool(ids, pool, m); }
  }

  // ---------------------------------------------------------------- the keyword index

  function IndexOf(n: nat): K.Keywords {
    if n == 0 then K.NONE
    else
      var record := NthRecord(n - 1);
      K.Put(IndexOf(n - 1), record.chunkId, record.documentId, record.text)
  }

  function Names(n: nat): seq<string> {
    seq(n, i requires 0 <= i < n => Repeat('c', i))
  }

  /** The index lists the first `n` chunks. */
  ghost predicate ListsAll(k: K.Keywords, n: nat) {
    && k.Valid() && k.texts.order == Names(n)
    && forall i | 0 <= i < n ::
         && Repeat('c', i) in k.texts.at && k.texts.at[Repeat('c', i)] == NthText(i)
         && Repeat('c', i) in k.documents.at && k.documents.at[Repeat('c', i)] == "d"
  }

  lemma NewName(n: nat)
    ensures Repeat('c', n) !in Names(n) && Names(n + 1) == Names(n) + [Repeat('c', n)]
    ensures forall i | 0 <= i < n :: Repeat('c', i) != Repeat('c', n)
  {
    assert forall i | 0 <= i < n :: |Names(n)[i]| == i;
    assert forall i | 0 <= i < n :: |Repeat('c', i)| == i;
    hide Repeat;
  }

  lemma OneMoreListed(k: K.Keywords, n: nat)
    requires ListsAll(k, n)
    ensures ListsAll(K.Put(k, Repeat('c', n), "d", NthText(n)), n + 1)
  {
    var name, text := Repeat('c', n), NthText(n);
    NewName(n);
    K.PutValid(k, name, "d", text);
    assert name !in k.texts.at && name !in k.documents.at;
    hide NthText, Repeat, NoDup, Names, K.Keywords.Valid;
  }

  lemma NothingListed()
    ensures ListsAll(IndexOf(0), 0)
  {
    hide NthText, K.Put;
    assert IndexOf(0) == K.NONE && Names(0) == [];
  }

  lemma IndexGrows(n: nat)
    ensures IndexOf(n + 1) == K.Put(IndexOf(n), Repeat('c', n), "d", NthText(n))
  {
    hide NthText, K.Put;
  }

  lemma {:induction false} IndexSpec(n: nat)
    ensures ListsAll(IndexOf(n), n)
  {
    hide *;
    if n == 0 {
      NothingListed();
    } else {
      IndexSpec(n - 1);
      OneMoreListed(IndexOf(n - 1), n - 1);
      IndexGrows(n - 1);
    }
  }

  function Tokens(): string -> seq<string> {
    (text: string) => if text == "" then [] else [[text[0]]]
  }

  function Scores(): (seq<seq<string>>, set<string>, nat) -> real {
    (corpus, query, i) => 0.0 - i as real
  }

  const BM25 := K.Bm25(Tokens(), Scores())

  lemma TokenOf(text: string)
    requires text != ""
    ensures K.TokenSet(BM25, text) == {[text[0]]}
  {
    assert BM25.tokenize(text) == [[text[0]]];
  }

  /** The first chunks, as the index scores them. */
  function Matched(n: nat): (matches: seq<(string, real)>)
    ensures |matches| == n
  {
    seq(n, i requires 0 <= i < n => (Repeat('c', i), 0.0 - i as real))
  }

  lemma TokensOf(k: K.Keywords, c: string)
    requires c in k.texts.order && c in k.texts.at
    ensures var tokens := K.TokenSets(BM25, k.texts.order, k.texts.at);
      c in tokens && tokens[c] == K.TokenSet(BM25, k.texts.at[c])
  {
    hide K.TokenSet;
  }

  lemma OneLetter(x: char)
    ensures {"k"} * {[x]} != {} <==> x == 'k'
  {
    assert x == 'k' ==> "k" in {"k"} * {[x]};
    assert x != 'k' ==> [x][0] != "k"[0];
  }

  lemma NthListed(k: K.Keywords, total: nat, n: nat)
    requires ListsAll(k, total) && n < total
    ensures var c := Repeat('c', n);
      && |k.texts.order| == total && k.texts.order[n] == c && c in k.texts.order
      && c in k.texts.at && k.texts.at[c] == NthText(n)
  {
    hide NthText, Repeat, K.Keywords.Valid;
  }

  /** The n-th candidate is taken exactly when it is one of the first 65. */
  lemma NthCandidate(k: K.Keywords, total: nat, n: nat)
    requires ListsAll(k, total) && n < total
    ensures var tokens, c := K.TokenSets(BM25, k.texts.order, k.texts.at), Repeat('c', n);
      && |k.texts.order| == total && k.texts.order[n] == c && c in tokens
      && (K.TokenSet(BM25, "k") * tokens[c] != {} <==> n < 65)
  {
    hide *;
    NthListed(k, total, n);
    TokensOf(k, Repeat('c', n));
    TokenOf(NthText(n));
    TokenOf("k");
    OneLetter(NthText(n)[0]);
    assert ["k"[0]] == "k";
  }

  lemma OneMoreMatched(n: nat)
    ensures Matched(n + 1) == Matched(n) + [(Repeat('c', n), 0.0 - n as real)]
  {
  }

  lemma CandidatesUnfold(
    corpus: seq<seq<string>>, order: seq<string>, tokens: map<string, set<string>>, query: set<string>, n: nat)
    requires n < |order| && order[n] in tokens
    ensures K.Candidates(BM25, corpus, order, tokens, query, 0) == []
    ensures K.Candidates(BM25, corpus, order, tokens, query, n + 1)
            == K.Candidates(BM25, corpus, order, tokens, query, n)
               + if query * tokens[order[n]] != {} then [(order[n], 0.0 - n as real)] else []
  {
    assert BM25.score(corpus, query, n) == 0.0 - n as real;
  }

  lemma {:induction false} CandidatesAre(k: K.Keywords, corpus: seq<seq<string>>, total: nat, n: nat)
    requires ListsAll(k, total) && n <= total == |k.texts.order|
    ensures K.Candidates(BM25, corpus, k.texts.order, K.TokenSets(BM25, k.texts.order, k.texts.at),
              K.TokenSet(BM25, "k"), n) == Matched(if n <= 65 then n else 65)
  {
    if n == 0 {
      hide K.TokenSet, K.TokenSets, ListsAll;
    } else {
      hide *;
      CandidatesAre(k, corpus, total, n - 1);
      NthCandidate(k, total, n - 1);
      OneMoreMatched(n - 1);
      CandidatesUnfold(corpus, k.texts.order, K.TokenSets(BM25, k.texts.order, k.texts.at), K.TokenSet(BM25, "k"),
        n - 1);
    }
  }

  lemma MatchedIsSorted(n: nat)
    ensures SortedDesc(Matched(n), K.ScoreOf())
  {
  }

  lemma RankingUnfold(k: K.Keywords, matches: seq<(string, real)>, pool: nat)
    requires matches == SortDesc(
      K.Candidates(BM25, K.Corpus(BM25, k.texts.order, k.texts.at), k.texts.order,
        K.TokenSets(BM25, k.texts.order, k.texts.at), K.TokenSet(BM25, "k"), |k.texts.order|), K.ScoreOf())
    requires |matches| <= pool
    ensures K.Search(BM25, k, "k", pool) == matches
  {
    hide K.Candidates, K.Corpus, K.TokenSets, K.TokenSet, SortDesc;
  }

  lemma MatchedAnswers(k: K.Keywords, total: nat, pool: nat)
    requires ListsAll(k, total) && total >= 65 && pool >= 65
    ensures K.Search(BM25, k, "k", pool) == Matched(65)
  {
    hide *;
    NthListed(k, total, 0);
    CandidatesAre(k, K.Corpus(BM25, k.texts.order, k.texts.at), total, total);
    MatchedIsSorted(65);
    SortDescIdentity(Matched(65), K.ScoreOf());
    RankingUnfold(k, Matched(65), pool);
  }

  // ---------------------------------------------------------------- the request

  function All(): ChunkRecord -> bool {
    (record: ChunkRecord) => true
  }

  function TheRequest(st: Store, ids: seq<nat>, topK: nat): Request
    requires topK >= 13 && |ids| == topK * SEARCH_POOL_MULTIPLIER + 64
  {
    var pool := topK * SEARCH_POOL_MULTIPLIER;
    Request(BM25, [1.0], "k", All(), topK, Pool(ids, pool), Steady(st, pool), Matched(65), Steady(st, 65))
  }

  lemma LargePool(topK: nat)
    requires topK >= 13
    ensures topK * SEARCH_POOL_MULTIPLIER >= 65
  {
  }

  lemma AnsweredIntro(q: Request, st: Store, keywords: K.Keywords)
    requires Inv(st) && keywords.Valid()
    requires IsTopK(st.index, q.vector, q.topK * SEARCH_POOL_MULTIPLIER, q.hits)
    requires q.matches == K.Search(q.bm25, keywords, q.query, q.topK * SEARCH_POOL_MULTIPLIER)
    requires |q.hitViews| == |q.hits| && |q.matchViews| == |q.matches|
    requires (forall v | v in q.hitViews :: v == st) && forall v | v in q.matchViews :: v == st
    ensures Answered(q, st, keywords)
  {
    NothingSeen(st);
    assert st == Run(st, []);
    hide IsTopK, K.Search, SeenAfter, Inv, K.Keywords.Valid, Run;
  }

  lemma ListedIsValid(k: K.Keywords, n: nat)
    requires ListsAll(k, n)
    ensures k.Valid()
  {
    hide K.Keywords.Valid, Names, NthText;
  }

  lemma RequestFields(st: Store, ids: seq<nat>, topK: nat)
    requires topK >= 13 && |ids| == topK * SEARCH_POOL_MULTIPLIER + 64
    ensures var q, pool := TheRequest(st, ids, topK), topK * SEARCH_POOL_MULTIPLIER;
      && q.bm25 == BM25 && q.vector == [1.0] && q.query == "k" && q.topK == topK
      && q.hits == Pool(ids, pool) && q.matches == Matched(65)
      && |q.hits| == |q.hitViews| == pool && |q.matches| == |q.matchViews| == 65
      && q.hitViews == Steady(st, pool) && q.matchViews == Steady(st, 65)
      && (forall v | v in q.hitViews :: v == st) && forall v | v in q.matchViews :: v == st
  {
    hide AtRank, Matched;
  }

  lemma RequestIsAnswered(st: Store, ids: seq<nat>, topK: nat)
    requires topK >= 13 && Inv(st)
    requires var pool := topK * SEARCH_POOL_MULTIPLIER; |ids| == pool + 64 && HoldsAll(st, ids, pool, pool + 64)
    ensures Answered(TheRequest(st, ids, topK), st, IndexOf(topK * SEARCH_POOL_MULTIPLIER + 64))
  {
    hide *;
    LargePool(topK);
    var pool := topK * SEARCH_POOL_MULTIPLIER;
    IndexSpec(pool + 64);
    ListedIsValid(IndexOf(pool + 64), pool + 64);
    PoolIsAnswered(st, ids, pool);
    MatchedAnswers(IndexOf(pool + 64), pool + 64, pool);
    RequestFields(st, ids, topK);
    AnsweredIntro(TheRequest(st, ids, topK), st, IndexOf(pool + 64));
  }

  lemma VectorSide(st: Store, ids: seq<nat>, topK: nat)
    requires topK >= 13 && Inv(st)
    requires var pool := topK * SEARCH_POOL_MULTIPLIER; HoldsAll(st, ids, pool, pool + 64)
    ensures var v := VectorHits(TheRequest(st, ids, topK));
      && |v| == topK * SEARCH_POOL_MULTIPLIER
      && forall i | 0 <= i < |v| :: ChunkIds(v)[i] == Repeat('c', AtRank(i))
  {
    var pool := topK * SEARCH_POOL_MULTIPLIER;
    var hits := Pool(ids, pool);
    ResolveEach(st, hits);
    hide Resolve, Filter, AtRank, NthText, NoDup;
    FilterAll(Resolve(hits, Steady(st, pool)), Matching(All()));
  }

  lemma KeywordSide(st: Store, ids: seq<nat>, topK: nat)
    requires topK >= 13 && Inv(st)
    requires var pool := topK * SEARCH_POOL_MULTIPLIER; HoldsAll(st, ids, pool, pool + 64)
    ensures var k := KeywordHits(TheRequest(st, ids, topK));
      |k| == 65 && forall i | 0 <= i < 65 :: ChunkIds(k)[i] == Repeat('c', i)
  {
    var matches := Matched(65);
    ResolveMatchesEach(st, matches, All());
    forall i | 0 <= i < 65 ensures GetByChunk(st, Repeat('c', i)) == Some(NthRecord(i)) {
      StoredRecord(st, ids[i]);
    }
    hide ResolveMatches, Filter, GetByChunk, NthText, Inv, HoldsAll;
    FilterAll(matches, MatchPasses(st, All()));
  }

  lemma RankedNames(i: nat, j: nat)
    ensures Repeat('c', AtRank(i)) == Repeat('c', j) && j <= 64 ==> i == 64 == j
    ensures Repeat('c', AtRank(i)) == Repeat('c', AtRank(j)) ==> i == j
    ensures Repeat('c', i) == Repeat('c', j) ==> i == j
    ensures AtRank(64) == 64
  {
    assert |Repeat('c', AtRank(i))| == AtRank(i) && |Repeat('c', j)| == j;
    assert |Repeat('c', AtRank(j))| == AtRank(j) && |Repeat('c', i)| == i;
    hide Repeat;
  }

  lemma RanksMeet(v: seq<ScoredChunk>, k: seq<ScoredChunk>)
    requires |v| > 64 && forall i | 0 <= i < |v| :: ChunkIds(v)[i] == Repeat('c', AtRank(i))
    requires |k| == 65 && forall i | 0 <= i < 65 :: ChunkIds(k)[i] == Repeat('c', i)
    ensures MeetAt64(v, k, Repeat('c', 64))
  {
    RankedNames(64, 64);
    hide AtRank, Repeat;
    forall i, j | 0 <= i < j < |v| ensures ChunkIds(v)[i] != ChunkIds(v)[j] { RankedNames(i, j); }
    forall i, j | 0 <= i < j < |k| ensures ChunkIds(k)[i] != ChunkIds(k)[j] { RankedNames(i, j); }
    forall id | id in ChunkIds(v) && id in ChunkIds(k) ensures id == Repeat('c', 64) {
      var i :| 0 <= i < |v| && ChunkIds(v)[i] == id;
      var j :| 0 <= j < |k| && ChunkIds(k)[j] == id;
      RankedNames(i, j);
    }
  }

  lemma BothSides(st: Store, ids: seq<nat>, topK: nat)
    requires topK >= 13 && Inv(st)
    requires var pool := topK * SEARCH_POOL_MULTIPLIER; |ids| == pool + 64 && HoldsAll(st, ids, pool, pool + 64)
    ensures var q := TheRequest(st, ids, topK);
      && |q.hits| == |q.hitViews| && |q.matches| == |q.matchViews|
      && MeetAt64(VectorHits(q), KeywordHits(q), Repeat('c', 64))
  {
    hide *;
    LargePool(topK);
    RequestFields(st, ids, topK);
    VectorSide(st, ids, topK);
    KeywordSide(st, ids, topK);
    RanksMeet(VectorHits(TheRequest(st, ids, topK)), KeywordHits(TheRequest(st, ids, topK)));
  }

  // ---------------------------------------------------------------- agreement

  /** The contents of the first `n` chunks. */
  ghost predicate FirstContents(contents: map<string, Content>, n: nat) {
    && (forall m | 0 <= m < n :: Repeat('c', m) in contents && contents[Repeat('c', m)] == Content("d", NthText(m)))
    && (forall c | c in contents :: c in Names(n))
  }

  lemma StoreContents(st: Store, ids: seq<nat>, pool: nat, n: nat)
    requires RecordsInv(st) && HoldsAll(st, ids, pool, n)
    ensures FirstContents(InStore(st), n)
  {
    hide NthText, NthVector, NoDup, IdsBelow, Repeat;
    forall m | 0 <= m < n
      ensures Repeat('c', m) in InStore(st) && InStore(st)[Repeat('c', m)] == Content("d", NthText(m))
    {
      StoredRecord(st, ids[m]);
    }
    forall c | c in InStore(st) ensures c in Names(n) {
      var m :| 0 <= m < n && ids[m] == st.idByChunk[c];
      assert Names(n)[m] == c;
    }
  }

  lemma IndexContents(k: K.Keywords, n: nat)
    requires ListsAll(k, n)
    ensures FirstContents(InIndex(k), n)
  {
    hide NthText, NoDup, Repeat, Names;
  }

  lemma SameContents(a: map<string, Content>, b: map<string, Content>, n: nat)
    requires FirstContents(a, n) && FirstContents(b, n)
    ensures a == b
  {
    hide NthText, Repeat;
    forall c | c in Names(n) ensures c in a && c in b && a[c] == b[c] {
      var m :| 0 <= m < n && Names(n)[m] == c;
    }
  }

  /** The two stores hold the same chunks. */
  lemma BothHoldAll(st: Store, ids: seq<nat>, pool: nat, n: nat)
    requires Inv(st) && HoldsAll(st, ids, pool, n)
    ensures Agree(System(st, IndexOf(n), map[], {}))
  {
    IndexSpec(n);
    assert RecordsInv(st) && IndexOf(n).Valid();
    hide HoldsAll, ListsAll, RecordsInv, IndexOf, InStore, InIndex, FirstContents, K.Keywords.Valid, Inv;
    StoreContents(st, ids, pool, n);
    IndexContents(IndexOf(n), n);
    SameContents(InStore(st), InIndex(IndexOf(n)), n);
  }

  lemma AnswerUnfold(q: Request)
    requires |q.hits| == |q.hitViews| && |q.matches| == |q.matchViews|
    ensures HybridAnswer(q) == Slice(Fuse([VectorHits(q), KeywordHits(q)]), q.topK)
  {
    hide Resolve, ResolveMatches, Filter, Fuse;
  }

  /** HybridPutsConsensusFirst fails for every top_k from 13 on: some store and index in agreement answer a request
      with a chunk that only one of the searches found before a chunk that both found. */
  lemma ThirteenIsTooMany(topK: nat) returns (q: Request, st: Store, keywords: K.Keywords, i: nat, j: nat)
    requires topK >= 13
    ensures Answered(q, st, keywords) && q.topK == topK && Agree(System(st, keywords, map[], {}))
    ensures q.hitViews == Steady(st, |q.hits|) && q.matchViews == Steady(st, |q.matches|)
    ensures var v, k, answer := VectorHits(q), KeywordHits(q), HybridAnswer(q);
      && i < j < |answer|
      && answer[i].chunk.chunkId in ChunkIds(v) && answer[i].chunk.chunkId !in ChunkIds(k)
      && answer[j].chunk.chunkId in ChunkIds(v) && answer[j].chunk.chunkId in ChunkIds(k)
  {
    hide *;
    LargePool(topK);
    var pool := topK * SEARCH_POOL_MULTIPLIER;
    var ids;
    st, ids := StoreSpec(pool, pool + 64);
    keywords := IndexOf(pool + 64);
    HeldChunk(st, ids, pool, pool + 64, 0);
    q := TheRequest(st, ids, topK);
    RequestFields(st, ids, topK);
    RequestIsAnswered(st, ids, topK);
    BothHoldAll(st, ids, pool, pool + 64);
    BothSides(st, ids, topK);
    AnswerUnfold(q);
    i, j := BehindTheTop(VectorHits(q), KeywordHits(q), Repeat('c', 64));
  }
}
