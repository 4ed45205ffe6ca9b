/** ml-service/app/search/keyword_index.py as a value: the two chunk dictionaries and what an index
    built from them right now answers. KeywordIndex.dfy holds the class with its lazy cache. */
module Keywords {
  import opened Collections

  datatype Keywords = Keywords(texts: Dict<string, string>, documents: Dict<string, string>) {
    /** Both dictionaries list the same chunks in the same order. */
    predicate Valid() {
      && texts.Valid()
      && documents.Valid()
      && texts.order == documents.order
    }
  }

  const NONE := Keywords(Dict([], map[]), Dict([], map[]))

  /** The tokenizer and BM25+: the score of the i-th corpus entry for a set of query tokens. */
  datatype Bm25 = Bm25(tokenize: string -> seq<string>, score: (seq<seq<string>>, set<string>, nat) -> real)

  function Put(k: Keywords, chunkId: string, documentId: string, text: string): Keywords {
    Keywords(k.texts.Put(chunkId, text), k.documents.Put(chunkId, documentId))
  }

  /** `to_remove`, in dictionary order. */
  function ChunksOf(order: seq<string>, documents: map<string, string>, documentId: string): seq<string> {
    if order == [] then []
    else
      var c := order[|order| - 1];
      ChunksOf(order[..|order| - 1], documents, documentId)
      + if c in documents && documents[c] == documentId then [c] else []
  }

  function Drop(k: Keywords, chunks: seq<string>): Keywords {
    if chunks == [] then k
    else
      var mid, c := Drop(k, chunks[..|chunks| - 1]), chunks[|chunks| - 1];
      Keywords(mid.texts.Remove(c), mid.documents.Remove(c))
  }

  function Delete(k: Keywords, documentId: string): (Keywords, nat) {
    var chunks := ChunksOf(k.documents.order, k.documents.at, documentId);
    (Drop(k, chunks), |chunks|)
  }

  // ---------------------------------------------------------------- searching

  function TokenSet(bm25: Bm25, text: string): set<string> {
    ToSet(bm25.tokenize(text))
  }

  function TextOf(texts: map<string, string>, c: string): string {
    if c in texts then texts[c] else ""
  }

  function Corpus(bm25: Bm25, order: seq<string>, texts: map<string, string>): seq<seq<string>> {
    Map(order, (c: string) => bm25.tokenize(TextOf(texts, c)))
  }

  function TokenSets(bm25: Bm25, order: seq<string>, texts: map<string, string>): map<string, set<string>> {
    map c | c in order :: TokenSet(bm25, TextOf(texts, c))
  }

  /** The scored chunks among the first `n` that share a token with the query. */
  function Candidates(
    bm25: Bm25, corpus: seq<seq<string>>, order: seq<string>, tokens: map<string, set<string>>,
    query: set<string>, n: nat): seq<(string, real)>
    requires n <= |order|
  {
    if n == 0 then []
    else
      var c := order[n - 1];
      Candidates(bm25, corpus, order, tokens, query, n - 1)
      + if c in tokens && query * tokens[c] != {} then [(c, bm25.score(corpus, query, n - 1))] else []
  }

  function ScoreOf(): ((string, real)) -> real {
    (m: (string, real)) => m.1
  }

  function MatchIds(matches: seq<(string, real)>): seq<string> {
    Map(matches, (m: (string, real)) => m.0)
  }

  /** What an index freshly built from the texts answers, uncut. */
  function Ranking(bm25: Bm25, k: Keywords, query: string): seq<(string, real)> {
    var order := k.texts.order;
    SortDesc(
      Candidates(bm25, Corpus(bm25, order, k.texts.at), order, TokenSets(bm25, order, k.texts.at),
                 TokenSet(bm25, query), |order|),
      ScoreOf())
  }

  function Search(bm25: Bm25, k: Keywords, query: string, topK: int): seq<(string, real)> {
    Slice(Ranking(bm25, k, query), topK)
  }

  /** The chunk holds at least one token of the query. */
  predicate SharesToken(bm25: Bm25, k: Keywords, query: string, chunkId: string) {
    chunkId in k.texts.at && exists t :: t in TokenSet(bm25, query) && t in TokenSet(bm25, k.texts.at[chunkId])
  }

  /** Position `i` of the corpus is a match and scores as in `m`. */
  ghost predicate MatchAt(
    bm25: Bm25, corpus: seq<seq<string>>, order: seq<string>, tokens: map<string, set<string>>,
    query: set<string>, i: nat, m: (string, real))
  {
    && i < |order|
    && order[i] in tokens && query * tokens[order[i]] != {}
    && m == (order[i], bm25.score(corpus, query, i))
  }

  lemma {:induction false} CandidatesMembers(
    bm25: Bm25, corpus: seq<seq<string>>, order: seq<string>, tokens: map<string, set<string>>,
    query: set<string>, n: nat)
    requires n <= |order|
    ensures forall m :: m in Candidates(bm25, corpus, order, tokens, query, n) <==>
              exists i: nat :: i < n && MatchAt(bm25, corpus, order, tokens, query, i, m)
  {
    if n > 0 {
      var init := Candidates(bm25, corpus, order, tokens, query, n - 1);
      var all := Candidates(bm25, corpus, order, tokens, query, n);
      CandidatesMembers(bm25, corpus, order, tokens, query, n - 1);
      forall m ensures m in all <==> m in init || MatchAt(bm25, corpus, order, tokens, query, n - 1, m) {
      }
    }
  }

  lemma {:induction false} CandidatesNoDup(
    bm25: Bm25, corpus: seq<seq<string>>, order: seq<string>, tokens: map<string, set<string>>,
    query: set<string>, n: nat)
    requires n <= |order| && NoDup(order)
    ensures NoDup(MatchIds(Candidates(bm25, corpus, order, tokens, query, n)))
  {
    if n > 0 {
      var init := Candidates(bm25, corpus, order, tokens, query, n - 1);
      var c := order[n - 1];
      CandidatesNoDup(bm25, corpus, order, tokens, query, n - 1);
      CandidatesMembers(bm25, corpus, order, tokens, query, n - 1);
      assert init + [] == init;
      assert MatchIds(init + [(c, bm25.score(corpus, query, n - 1))]) == MatchIds(init) + [c];
      forall i | 0 <= i < |init| ensures MatchIds(init)[i] != c {
        assert init[i] in init;
        var j: nat :| j < n - 1 && MatchAt(bm25, corpus, order, tokens, query, j, init[i]);
        assert order[j] != order[n - 1];
      }
      NoDupAppend(MatchIds(init), c);
    }
  }

  lemma MatchIdsOfPermutation(a: seq<(string, real)>, b: seq<(string, real)>)
    requires multiset(a) == multiset(b) && NoDup(MatchIds(a))
    ensures NoDup(MatchIds(b))
    ensures forall m :: m in a <==> m in b
  {
    forall i, j | 0 <= i < j < |a| ensures a[i] != a[j] { assert MatchIds(a)[i] != MatchIds(a)[j]; }
    PermutationNoDup(a, b);
    forall i, j | 0 <= i < j < |b| ensures MatchIds(b)[i] != MatchIds(b)[j] {
      assert b[i] in a && b[j] in a && b[i] != b[j];
      var k :| 0 <= k < |a| && a[k] == b[i];
      var l :| 0 <= l < |a| && a[l] == b[j];
      assert MatchIds(a)[k] == b[i].0 && MatchIds(a)[l] == b[j].0;
    }
  }

  /** A match of the ranking comes from its corpus position. */
  ghost predicate RankedAt(bm25: Bm25, k: Keywords, query: string, i: nat, m: (string, real)) {
    MatchAt(bm25, Corpus(bm25, k.texts.order, k.texts.at), k.texts.order,
            TokenSets(bm25, k.texts.order, k.texts.at), TokenSet(bm25, query), i, m)
  }

  lemma RankingMembers(bm25: Bm25, k: Keywords, query: string)
    requires k.Valid()
    ensures var r := Ranking(bm25, k, query);
      && SortedDesc(r, ScoreOf())
      && NoDup(MatchIds(r))
      && forall m :: m in r <==> exists i: nat :: RankedAt(bm25, k, query, i, m)
  {
    var order := k.texts.order;
    var tokens := TokenSets(bm25, order, k.texts.at);
    var q := TokenSet(bm25, query);
    var corpus := Corpus(bm25, order, k.texts.at);
    var cs := Candidates(bm25, corpus, order, tokens, q, |order|);
    var r := Ranking(bm25, k, query);
    CandidatesMembers(bm25, corpus, order, tokens, q, |order|);
    CandidatesNoDup(bm25, corpus, order, tokens, q, |order|);
    SortDescSorted(cs, ScoreOf());
    MatchIdsOfPermutation(cs, r);
    hide Candidates, SortDesc, NoDup, TokenSets, TokenSet, Corpus;
    forall m ensures m in r <==> exists i: nat :: RankedAt(bm25, k, query, i, m) {
      if i: nat :| RankedAt(bm25, k, query, i, m) {
        assert i < |order| && MatchAt(bm25, corpus, order, tokens, q, i, m);
        assert m in cs;
      }
      if m in r {
        assert m in cs;
        var i: nat :| i < |order| && MatchAt(bm25, corpus, order, tokens, q, i, m);
        assert RankedAt(bm25, k, query, i, m);
      }
    }
  }

  lemma SharedToken(bm25: Bm25, k: Keywords, query: string, i: nat)
    requires k.Valid() && i < |k.texts.order|
    ensures SharesToken(bm25, k, query, k.texts.order[i]) <==>
            exists m :: RankedAt(bm25, k, query, i, m)
  {
    var c := k.texts.order[i];
    var tokens := TokenSets(bm25, k.texts.order, k.texts.at);
    assert tokens[c] == TokenSet(bm25, k.texts.at[c]);
    if SharesToken(bm25, k, query, c) {
      var t :| t in TokenSet(bm25, query) && t in tokens[c];
      assert t in TokenSet(bm25, query) * tokens[c];
      assert RankedAt(bm25, k, query, i,
                      (c, bm25.score(Corpus(bm25, k.texts.order, k.texts.at), TokenSet(bm25, query), i)));
    }
    if m :| RankedAt(bm25, k, query, i, m) {
      var t :| t in TokenSet(bm25, query) * tokens[c];
    }
  }

  lemma RankedSharesToken(bm25: Bm25, k: Keywords, query: string, c: string)
    requires k.Valid() && c in MatchIds(Ranking(bm25, k, query))
    ensures SharesToken(bm25, k, query, c)
  {
    var r := Ranking(bm25, k, query);
    RankingMembers(bm25, k, query);
    var j :| 0 <= j < |r| && MatchIds(r)[j] == c;
    hide Ranking;
    assert r[j] in r;
    var i: nat :| RankedAt(bm25, k, query, i, r[j]);
    SharedToken(bm25, k, query, i);
  }

  lemma SharedTokenIsRanked(bm25: Bm25, k: Keywords, query: string, c: string)
    requires k.Valid() && SharesToken(bm25, k, query, c)
    ensures c in MatchIds(Ranking(bm25, k, query))
  {
    var r := Ranking(bm25, k, query);
    RankingMembers(bm25, k, query);
    var i: nat :| i < |k.texts.order| && k.texts.order[i] == c;
    SharedToken(bm25, k, query, i);
    var m :| RankedAt(bm25, k, query, i, m);
    hide Ranking;
    assert m in r;
    var j :| 0 <= j < |r| && r[j] == m;
    assert MatchIds(r)[j] == c;
  }

  /** The ranking lists exactly the chunks sharing a token with the query, once each, by falling score. */
  lemma RankingSpec(bm25: Bm25, k: Keywords, query: string)
    requires k.Valid()
    ensures var r := Ranking(bm25, k, query);
      && SortedDesc(r, ScoreOf())
      && NoDup(MatchIds(r))
      && (forall c :: c in MatchIds(r) <==> SharesToken(bm25, k, query, c))
      && (forall m | m in r :: exists i: nat :: RankedAt(bm25, k, query, i, m))
  {
    var r := Ranking(bm25, k, query);
    RankingMembers(bm25, k, query);
    forall c ensures c in MatchIds(r) <==> SharesToken(bm25, k, query, c) {
      if c in MatchIds(r) { RankedSharesToken(bm25, k, query, c); }
      if SharesToken(bm25, k, query, c) { SharedTokenIsRanked(bm25, k, query, c); }
    }
  }

  // ---------------------------------------------------------------- the answer, in terms of the texts

  /** The documents the scorer is built from: the tokens of every chunk's text, in dictionary order. */
  ghost predicate TokenizedTexts(bm25: Bm25, texts: Dict<string, string>, docs: seq<seq<string>>) {
    && |docs| == |texts.order|
    && forall j | 0 <= j < |docs| :: texts.order[j] in texts.at && docs[j] == bm25.tokenize(texts.at[texts.order[j]])
  }

  ghost predicate HoldsTokens(bm25: Bm25, text: string, tokens: set<string>) {
    forall t :: t in tokens <==> t in bm25.tokenize(text)
  }

  /** The match is the chunk at position `i`, scored at that position for the tokens of the query. */
  ghost predicate ScoredAt(bm25: Bm25, texts: Dict<string, string>, query: string, i: nat, m: (string, real)) {
    && i < |texts.order| && texts.order[i] == m.0
    && exists docs, tokens ::
         && TokenizedTexts(bm25, texts, docs)
         && HoldsTokens(bm25, query, tokens)
         && m.1 == bm25.score(docs, tokens, i)
  }

  /** The text of the chunk at position `i` and the query have a token in common. */
  ghost predicate InCommon(bm25: Bm25, texts: Dict<string, string>, query: string, i: nat) {
    && i < |texts.order| && texts.order[i] in texts.at
    && exists t :: t in bm25.tokenize(query) && t in bm25.tokenize(texts.at[texts.order[i]])
  }

  /** What `search` promises: matches come from chunks with a token in common, each scored by its own text and
      listed once, by falling score, ties in dictionary order; a chunk that is left out scores no more than any
      match, and for a `topK` that is not negative none is left out before `topK` are listed. */
  ghost predicate IsAnswer(
    bm25: Bm25, texts: Dict<string, string>, query: string, topK: int, matches: seq<(string, real)>)
  {
    && NoDup(MatchIds(matches))
    && (forall m | m in matches ::
          exists i: nat :: ScoredAt(bm25, texts, query, i, m) && InCommon(bm25, texts, query, i))
    && (forall a, b :: 0 <= a <= b < |matches| ==> matches[a].1 >= matches[b].1)
    && (forall a, b, i: nat, j: nat | 0 <= a < b < |matches| && matches[a].1 == matches[b].1
          && ScoredAt(bm25, texts, query, i, matches[a]) && ScoredAt(bm25, texts, query, j, matches[b]) :: i < j)
    && (forall i: nat, other, m | InCommon(bm25, texts, query, i) && ScoredAt(bm25, texts, query, i, other)
          && other !in matches && m in matches :: other.1 <= m.1)
    && (topK >= 0 ==> |matches| <= topK)
    && (topK >= 0 && |matches| < topK ==>
          forall i: nat, other | InCommon(bm25, texts, query, i) && ScoredAt(bm25, texts, query, i, other) ::
            other in matches)
  }

  /** A match of the ranking, in terms of the texts. */
  lemma RankedIsScored(bm25: Bm25, k: Keywords, query: string, i: nat, m: (string, real))
    requires k.Valid()
    ensures RankedAt(bm25, k, query, i, m) <==>
            ScoredAt(bm25, k.texts, query, i, m) && InCommon(bm25, k.texts, query, i)
  {
    var texts := k.texts;
    var corpus, tokens := Corpus(bm25, texts.order, texts.at), TokenSet(bm25, query);
    CorpusIsTexts(bm25, texts);
    TokensAre(bm25, query);
    if i < |texts.order| {
      TokensAre(bm25, texts.at[texts.order[i]]);
      assert TokenSets(bm25, texts.order, texts.at)[texts.order[i]] == TokenSet(bm25, texts.at[texts.order[i]]);
      hide Corpus, TokenSet, TokenSets, NoDup;
      if InCommon(bm25, texts, query, i) {
        var t :| t in bm25.tokenize(query) && t in bm25.tokenize(texts.at[texts.order[i]]);
        assert t in tokens * TokenSet(bm25, texts.at[texts.order[i]]);
      }
      if ScoredAt(bm25, texts, query, i, m) {
        SameScore(bm25, texts, query, i, m, corpus, tokens);
      }
      if t :| t in tokens * TokenSet(bm25, texts.at[texts.order[i]]) {
        assert t in bm25.tokenize(query) && t in bm25.tokenize(texts.at[texts.order[i]]);
      }
    }
  }

  lemma CorpusIsTexts(bm25: Bm25, texts: Dict<string, string>)
    requires texts.Valid()
    ensures TokenizedTexts(bm25, texts, Corpus(bm25, texts.order, texts.at))
  {
    hide NoDup;
    var docs := Corpus(bm25, texts.order, texts.at);
    forall j | 0 <= j < |docs|
      ensures texts.order[j] in texts.at && docs[j] == bm25.tokenize(texts.at[texts.order[j]])
    {
      assert texts.order[j] in texts.order && docs[j] == bm25.tokenize(TextOf(texts.at, texts.order[j]));
    }
  }

  lemma TokensAre(bm25: Bm25, text: string)
    ensures HoldsTokens(bm25, text, TokenSet(bm25, text))
  {
  }

  /** There is only one list of documents and one set of tokens to score with. */
  lemma SameScore(
    bm25: Bm25, texts: Dict<string, string>, query: string, i: nat, m: (string, real), corpus: seq<seq<string>>,
    tokens: set<string>)
    requires ScoredAt(bm25, texts, query, i, m) && TokenizedTexts(bm25, texts, corpus)
    requires HoldsTokens(bm25, query, tokens)
    ensures m.1 == bm25.score(corpus, tokens, i)
  {
    var docs, words :|
      && TokenizedTexts(bm25, texts, docs)
      && HoldsTokens(bm25, query, words)
      && m.1 == bm25.score(docs, words, i);
    assert docs == corpus;
    assert words == tokens;
  }

  /** Candidates are listed in dictionary order. */
  lemma {:induction false} CandidatesInOrder(
    bm25: Bm25, corpus: seq<seq<string>>, order: seq<string>, tokens: map<string, set<string>>,
    query: set<string>, n: nat, a: nat, b: nat)
    requires n <= |order| && NoDup(order)
    requires a < b < |Candidates(bm25, corpus, order, tokens, query, n)|
    ensures var cs := Candidates(bm25, corpus, order, tokens, query, n);
      forall i, j | 0 <= i < |order| && 0 <= j < |order| && order[i] == cs[a].0 && order[j] == cs[b].0 :: i < j
  {
    var init := Candidates(bm25, corpus, order, tokens, query, n - 1);
    var cs := Candidates(bm25, corpus, order, tokens, query, n);
    if b < |init| {
      CandidatesInOrder(bm25, corpus, order, tokens, query, n - 1, a, b);
    } else {
      CandidatesMembers(bm25, corpus, order, tokens, query, n - 1);
      assert init[a] in init && cs[b].0 == order[n - 1];
      var x: nat :| x < n - 1 && MatchAt(bm25, corpus, order, tokens, query, x, init[a]);
      hide Candidates, MatchAt;
    }
  }

  lemma RankingTies(bm25: Bm25, k: Keywords, query: string, a: nat, b: nat, i: nat, j: nat)
    requires k.Valid()
    requires var r := Ranking(bm25, k, query); a < b < |r| && r[a].1 == r[b].1
    requires var r := Ranking(bm25, k, query);
      i < |k.texts.order| && j < |k.texts.order| && k.texts.order[i] == r[a].0 && k.texts.order[j] == r[b].0
    ensures i < j
  {
    var order := k.texts.order;
    var corpus, tokens := Corpus(bm25, order, k.texts.at), TokenSets(bm25, order, k.texts.at);
    var cs := Candidates(bm25, corpus, order, tokens, TokenSet(bm25, query), |order|);
    assert Ranking(bm25, k, query) == SortDesc(cs, ScoreOf());
    hide Candidates, SortDesc, Ranking, Corpus, TokenSets, TokenSet, NoDup;
    var x, y := SortKeepsTies(cs, ScoreOf(), a, b);
    CandidatesInOrder(bm25, corpus, order, tokens, TokenSet(bm25, query), |order|, x, y);
  }

  /** The whole ranking and every cut of it answer the query. */
  lemma SearchSpec(bm25: Bm25, k: Keywords, query: string, topK: int)
    requires k.Valid()
    ensures IsAnswer(bm25, k.texts, query, topK, Search(bm25, k, query, topK))
  {
    var r, matches := Ranking(bm25, k, query), Search(bm25, k, query, topK);
    RankingMembers(bm25, k, query);
    assert matches <= r && (topK >= 0 ==> |matches| == if topK <= |r| then topK else |r|);
    hide *;
    SearchOnce(r, matches);
    SearchFalls(r, matches);
    forall m | m in matches
      ensures exists i: nat :: ScoredAt(bm25, k.texts, query, i, m) && InCommon(bm25, k.texts, query, i)
    {
      assert m in r;
      var i: nat :| RankedAt(bm25, k, query, i, m);
      RankedIsScored(bm25, k, query, i, m);
    }
    forall a, b, i: nat, j: nat | 0 <= a < b < |matches| && matches[a].1 == matches[b].1
      && ScoredAt(bm25, k.texts, query, i, matches[a]) && ScoredAt(bm25, k.texts, query, j, matches[b])
      ensures i < j
    {
      ScoredPosition(bm25, k.texts, query, i, matches[a]);
      ScoredPosition(bm25, k.texts, query, j, matches[b]);
      RankingTies(bm25, k, query, a, b, i, j);
    }
    forall i: nat, other | InCommon(bm25, k.texts, query, i) && ScoredAt(bm25, k.texts, query, i, other)
      ensures other in r && (other !in matches ==> forall m | m in matches :: other.1 <= m.1)
    {
      RankedIsScored(bm25, k, query, i, other);
      assert RankedAt(bm25, k, query, i, other);
      LeftOut(r, matches, other);
    }
    IsAnswerIntro(bm25, k.texts, query, topK, r, matches);
  }

  lemma ScoredPosition(bm25: Bm25, texts: Dict<string, string>, query: string, i: nat, m: (string, real))
    requires ScoredAt(bm25, texts, query, i, m)
    ensures i < |texts.order| && texts.order[i] == m.0
  {
    hide TokenizedTexts;
  }

  lemma SearchOnce(r: seq<(string, real)>, matches: seq<(string, real)>)
    requires matches <= r && NoDup(MatchIds(r))
    ensures NoDup(MatchIds(matches))
  {
    assert MatchIds(matches) == MatchIds(r)[..|matches|];
  }

  lemma SearchFalls(r: seq<(string, real)>, matches: seq<(string, real)>)
    requires matches <= r && SortedDesc(r, ScoreOf())
    ensures forall a, b :: 0 <= a <= b < |matches| ==> matches[a].1 >= matches[b].1
    ensures forall a, b :: 0 <= a <= b < |r| ==> r[a].1 >= r[b].1
  {
    forall a, b | 0 <= a <= b < |r| ensures r[a].1 >= r[b].1 {
      assert ScoreOf()(r[a]) >= ScoreOf()(r[b]);
    }
  }

  lemma LeftOut(r: seq<(string, real)>, matches: seq<(string, real)>, other: (string, real))
    requires matches <= r && other in r && forall a, b :: 0 <= a <= b < |r| ==> r[a].1 >= r[b].1
    ensures other !in matches ==> forall m | m in matches :: other.1 <= m.1
  {
    var j :| 0 <= j < |r| && r[j] == other;
    assert forall i | 0 <= i < |matches| :: matches[i] == r[i];
    if other !in matches {
      assert j >= |matches|;
      forall m | m in matches ensures other.1 <= m.1 {
        var i :| 0 <= i < |matches| && matches[i] == m;
      }
    }
  }

  lemma IsAnswerIntro(
    bm25: Bm25, texts: Dict<string, string>, query: string, topK: int, r: seq<(string, real)>,
    matches: seq<(string, real)>)
    requires NoDup(MatchIds(matches)) && matches <= r
    requires forall m | m in matches ::
      exists i: nat :: ScoredAt(bm25, texts, query, i, m) && InCommon(bm25, texts, query, i)
    requires forall a, b :: 0 <= a <= b < |matches| ==> matches[a].1 >= matches[b].1
    requires forall a, b, i: nat, j: nat | 0 <= a < b < |matches| && matches[a].1 == matches[b].1
      && ScoredAt(bm25, texts, query, i, matches[a]) && ScoredAt(bm25, texts, query, j, matches[b]) :: i < j
    requires forall i: nat, other | InCommon(bm25, texts, query, i) && ScoredAt(bm25, texts, query, i, other) ::
      other in r && (other !in matches ==> forall m | m in matches :: other.1 <= m.1)
    requires topK >= 0 ==> |matches| == if topK <= |r| then topK else |r|
    ensures IsAnswer(bm25, texts, query, topK, matches)
  {
    assert |matches| == |r| ==> matches == r;
    hide ScoredAt, InCommon, NoDup;
  }

  lemma {:induction false} NoCandidates(
    bm25: Bm25, corpus: seq<seq<string>>, order: seq<string>, tokens: map<string, set<string>>, n: nat)
    requires n <= |order|
    ensures Candidates(bm25, corpus, order, tokens, {}, n) == []
  {
    if n > 0 {
      NoCandidates(bm25, corpus, order, tokens, n - 1);
    }
  }

  /** A query without tokens finds nothing. */
  lemma NoTokensNoMatches(bm25: Bm25, k: Keywords, query: string)
    requires TokenSet(bm25, query) == {}
    ensures Ranking(bm25, k, query) == []
  {
    var order := k.texts.order;
    NoCandidates(bm25, Corpus(bm25, order, k.texts.at), order, TokenSets(bm25, order, k.texts.at), |order|);
  }

  lemma DropNothing(k: Keywords)
    ensures Drop(k, []) == k
  {
  }

  lemma DropStep(k: Keywords, chunks: seq<string>, i: nat)
    requires i < |chunks|
    ensures var mid := Drop(k, chunks[..i]);
      Drop(k, chunks[..i + 1]) == Keywords(mid.texts.Remove(chunks[i]), mid.documents.Remove(chunks[i]))
  {
    assert chunks[..i + 1][..i] == chunks[..i];
  }

  /** Deleting removes exactly the document's chunks. */
  lemma {:induction false} ChunksOfSpec(order: seq<string>, documents: map<string, string>, documentId: string)
    ensures forall c :: c in ChunksOf(order, documents, documentId) <==>
                        c in order && c in documents && documents[c] == documentId
    ensures NoDup(order) ==> NoDup(ChunksOf(order, documents, documentId))
  {
    if order != [] {
      var init, last := order[..|order| - 1], order[|order| - 1];
      assert order == init + [last];
      ChunksOfSpec(init, documents, documentId);
      NoDupAppend(init, last);
      NoDupAppend(ChunksOf(init, documents, documentId), last);
    }
  }

  /** `d` is the dictionary without the given keys. */
  ghost predicate Restricted<V>(from: Dict<string, V>, d: Dict<string, V>, gone: seq<string>) {
    && (forall c :: c in d.at <==> c in from.at && c !in gone)
    && (forall c | c in d.at :: d.at[c] == from.at[c])
  }

  lemma RestrictedMore<V>(from: Dict<string, V>, d: Dict<string, V>, gone: seq<string>, c: string)
    requires Restricted(from, d, gone)
    ensures Restricted(from, d.Remove(c), gone + [c])
  {
  }

  lemma {:induction false} DropSpec(k: Keywords, chunks: seq<string>)
    requires k.Valid()
    ensures Drop(k, chunks).Valid()
    ensures Restricted(k.texts, Drop(k, chunks).texts, chunks)
    ensures Restricted(k.documents, Drop(k, chunks).documents, chunks)
  {
    if chunks != [] {
      var init, last := chunks[..|chunks| - 1], chunks[|chunks| - 1];
      var mid := Drop(k, init);
      assert chunks == init + [last];
      DropSpec(k, init);
      hide NoDup, Restricted;
      mid.texts.RemoveValid(last);
      mid.documents.RemoveValid(last);
      RestrictedMore(k.texts, mid.texts, init, last);
      RestrictedMore(k.documents, mid.documents, init, last);
    }
  }

  lemma PutValid(k: Keywords, chunkId: string, documentId: string, text: string)
    requires k.Valid()
    ensures Put(k, chunkId, documentId, text).Valid()
  {
    k.texts.PutValid(chunkId, text);
    k.documents.PutValid(chunkId, documentId);
  }

  lemma DeleteSpec(k: Keywords, documentId: string)
    requires k.Valid()
    ensures var after := Delete(k, documentId).0;
      && after.Valid()
      && (forall c :: c in after.texts.at <==> c in k.texts.at && k.documents.at[c] != documentId)
      && (forall c | c in after.texts.at ::
            after.texts.at[c] == k.texts.at[c] && after.documents.at[c] == k.documents.at[c])
    ensures Delete(k, documentId).1 == |set c | c in k.documents.at && k.documents.at[c] == documentId|
  {
    ChunksOfSpec(k.documents.order, k.documents.at, documentId);
    CountNoDup(ChunksOf(k.documents.order, k.documents.at, documentId));
    assert ToSet(ChunksOf(k.documents.order, k.documents.at, documentId))
        == set c | c in k.documents.at && k.documents.at[c] == documentId;
    DropSpec(k, ChunksOf(k.documents.order, k.documents.at, documentId));
  }
}
