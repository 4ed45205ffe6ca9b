/** ml-service/app/search/fusion.py: reciprocal rank fusion, over exact rationals. */
module Fusion {
  import opened Collections
  import opened VectorStore

  const RRF_K := 60

  /** What a hit at `rank`, counted from 0, adds to its chunk's score. */
  function Share(rank: nat): real {
    1.0 / ((RRF_K + rank + 1) as real)
  }

  /** The two dictionaries of the accumulation. */
  datatype Tally = Tally(scores: Dict<string, real>, chunks: map<string, ChunkRecord>)

  const NOTHING := Tally(Dict([], map[]), map[])

  function AddHit(t: Tally, hit: ScoredChunk, rank: nat): Tally {
    var id := hit.chunk.chunkId;
    var before := if id in t.scores.at then t.scores.at[id] else 0.0;
    Tally(t.scores.Put(id, before + Share(rank)), t.chunks[id := hit.chunk])
  }

  function AddRanking(t: Tally, ranking: seq<ScoredChunk>): Tally {
    if ranking == [] then t
    else
      var n := |ranking| - 1;
      AddHit(AddRanking(t, ranking[..n]), ranking[n], n)
  }

  function AddRankings(rankings: seq<seq<ScoredChunk>>): Tally {
    if rankings == [] then NOTHING
    else AddRanking(AddRankings(rankings[..|rankings| - 1]), rankings[|rankings| - 1])
  }

  function ScoreIn(scores: map<string, real>): string -> real {
    (id: string) => if id in scores then scores[id] else 0.0
  }

  function Ranked(t: Tally): seq<string> {
    SortDesc(t.scores.order, ScoreIn(t.scores.at))
  }

  function Listed(t: Tally, ids: seq<string>): seq<ScoredChunk>
    requires forall id | id in ids :: id in t.scores.at && id in t.chunks
  {
    seq(|ids|, i requires 0 <= i < |ids| => ScoredChunk(t.chunks[ids[i]], t.scores.at[ids[i]]))
  }

  // ---------------------------------------------------------------- reference score

  /** Sum of the shares of the occurrences of a chunk in one ranking. */
  function ShareOf(ranking: seq<ScoredChunk>, id: string): real {
    if ranking == [] then 0.0
    else
      var n := |ranking| - 1;
      ShareOf(ranking[..n], id) + if ranking[n].chunk.chunkId == id then Share(n) else 0.0
  }

  /** The fused score: the shares from all rankings. */
  function FusedScore(rankings: seq<seq<ScoredChunk>>, id: string): real {
    if rankings == [] then 0.0
    else FusedScore(rankings[..|rankings| - 1], id) + ShareOf(rankings[|rankings| - 1], id)
  }

  ghost predicate Occurs(rankings: seq<seq<ScoredChunk>>, id: string) {
    exists r :: r in rankings && id in ChunkIds(r)
  }

  /** The chunk an id is reported with: that of its last occurrence. */
  function LastChunk(rankings: seq<seq<ScoredChunk>>, id: string): Option<ChunkRecord> {
    if rankings == [] then None
    else
      match LastChunkIn(rankings[|rankings| - 1], id)
      case Some(c) => Some(c)
      case None => LastChunk(rankings[..|rankings| - 1], id)
  }

  function LastChunkIn(ranking: seq<ScoredChunk>, id: string): Option<ChunkRecord> {
    if ranking == [] then None
    else if ranking[|ranking| - 1].chunk.chunkId == id then Some(ranking[|ranking| - 1].chunk)
    else LastChunkIn(ranking[..|ranking| - 1], id)
  }

  /** The tally after all of `rankings` and then `part` of the next one. */
  ghost predicate Counts(t: Tally, rankings: seq<seq<ScoredChunk>>, part: seq<ScoredChunk>) {
    && t.scores.Valid()
    && CountsIds(t, rankings, part)
    && CountsScores(t.scores.at, rankings, part)
    && CountsChunks(t.chunks, rankings, part)
  }

  ghost predicate CountsIds(t: Tally, rankings: seq<seq<ScoredChunk>>, part: seq<ScoredChunk>) {
    forall id :: (id in t.scores.at <==> Occurs(rankings, id) || id in ChunkIds(part))
                 && (id in t.chunks <==> id in t.scores.at)
  }

  ghost predicate CountsScores(at: map<string, real>, rankings: seq<seq<ScoredChunk>>, part: seq<ScoredChunk>) {
    forall id :: ScoreIn(at)(id) == FusedScore(rankings, id) + ShareOf(part, id)
  }

  ghost predicate CountsChunks(
    chunks: map<string, ChunkRecord>, rankings: seq<seq<ScoredChunk>>, part: seq<ScoredChunk>)
  {
    forall id | id in chunks :: LastSeen(rankings, part, id) == Some(chunks[id])
  }

  function LastSeen(rankings: seq<seq<ScoredChunk>>, part: seq<ScoredChunk>, id: string): Option<ChunkRecord> {
    match LastChunkIn(part, id) case Some(c) => Some(c) case None => LastChunk(rankings, id)
  }

  lemma PartGrows(part: seq<ScoredChunk>, hit: ScoredChunk, x: string)
    ensures ShareOf(part + [hit], x) == ShareOf(part, x) + (if hit.chunk.chunkId == x then Share(|part|) else 0.0)
    ensures LastChunkIn(part + [hit], x) == (if hit.chunk.chunkId == x then Some(hit.chunk) else LastChunkIn(part, x))
    ensures x in ChunkIds(part + [hit]) <==> x in ChunkIds(part) || hit.chunk.chunkId == x
  {
    assert (part + [hit])[..|part|] == part;
    assert ChunkIds(part + [hit]) == ChunkIds(part) + [hit.chunk.chunkId];
    hide Share;
  }

  lemma HitCounts(t: Tally, rankings: seq<seq<ScoredChunk>>, part: seq<ScoredChunk>, hit: ScoredChunk)
    requires Counts(t, rankings, part)
    ensures Counts(AddHit(t, hit, |part|), rankings, part + [hit])
  {
    var id := hit.chunk.chunkId;
    t.scores.PutValid(id, AddHit(t, hit, |part|).scores.at[id]);
    HitKeys(t, rankings, part, hit);
    HitScores(t, rankings, part, hit);
    HitChunks(t, rankings, part, hit);
    hide CountsIds, CountsScores, CountsChunks, NoDup, Share;
  }

  lemma HitKeys(t: Tally, rankings: seq<seq<ScoredChunk>>, part: seq<ScoredChunk>, hit: ScoredChunk)
    requires CountsIds(t, rankings, part)
    ensures CountsIds(AddHit(t, hit, |part|), rankings, part + [hit])
  {
    forall x ensures x in ChunkIds(part + [hit]) <==> x in ChunkIds(part) || hit.chunk.chunkId == x {
      PartGrows(part, hit, x);
    }
    hide Share, Occurs, ChunkIds;
  }

  lemma HitChunks(t: Tally, rankings: seq<seq<ScoredChunk>>, part: seq<ScoredChunk>, hit: ScoredChunk)
    requires CountsChunks(t.chunks, rankings, part)
    ensures CountsChunks(AddHit(t, hit, |part|).chunks, rankings, part + [hit])
  {
    forall x
      ensures LastChunkIn(part + [hit], x) == (if hit.chunk.chunkId == x then Some(hit.chunk) else LastChunkIn(part, x))
    {
      PartGrows(part, hit, x);
    }
    hide Share, LastChunk, LastChunkIn;
  }

  lemma HitScores(t: Tally, rankings: seq<seq<ScoredChunk>>, part: seq<ScoredChunk>, hit: ScoredChunk)
    requires CountsScores(t.scores.at, rankings, part)
    ensures CountsScores(AddHit(t, hit, |part|).scores.at, rankings, part + [hit])
  {
    hide FusedScore, Share, ShareOf;
    var at, id := t.scores.at, hit.chunk.chunkId;
    var at' := AddHit(t, hit, |part|).scores.at;
    assert at' == at[id := ScoreIn(at)(id) + Share(|part|)];
    forall x ensures ScoreIn(at')(x) == FusedScore(rankings, x) + ShareOf(part + [hit], x) {
      PartGrows(part, hit, x);
      assert ScoreIn(at)(x) == FusedScore(rankings, x) + ShareOf(part, x);
    }
  }

  lemma RankingsGrow(rankings: seq<seq<ScoredChunk>>, ranking: seq<ScoredChunk>, id: string)
    ensures Occurs(rankings + [ranking], id) <==> Occurs(rankings, id) || id in ChunkIds(ranking)
    ensures FusedScore(rankings + [ranking], id) == FusedScore(rankings, id) + ShareOf(ranking, id)
    ensures LastChunk(rankings + [ranking], id) == LastSeen(rankings, ranking, id)
  {
    var all := rankings + [ranking];
    assert all[..|rankings|] == rankings;
    hide ShareOf, LastChunkIn, ChunkIds;
    if r :| r in rankings && id in ChunkIds(r) { assert r in all; }
    if id in ChunkIds(ranking) { assert ranking in all; }
  }

  lemma RankingCounts(t: Tally, rankings: seq<seq<ScoredChunk>>, ranking: seq<ScoredChunk>)
    requires Counts(t, rankings, ranking)
    ensures Counts(t, rankings + [ranking], [])
  {
    assert ChunkIds([]) == [];
    assert forall id :: ShareOf([], id) == 0.0 && LastChunkIn([], id) == None;
    hide FusedScore, ShareOf, LastChunk, LastChunkIn, Occurs, NoDup, ChunkIds, ScoreIn;
    forall id
      ensures Occurs(rankings + [ranking], id) <==> Occurs(rankings, id) || id in ChunkIds(ranking)
      ensures FusedScore(rankings + [ranking], id) == FusedScore(rankings, id) + ShareOf(ranking, id)
      ensures LastChunk(rankings + [ranking], id) == LastSeen(rankings, ranking, id)
    {
      RankingsGrow(rankings, ranking, id);
    }
  }

  lemma AddRankingStep(t: Tally, ranking: seq<ScoredChunk>)
    requires ranking != []
    ensures var n := |ranking| - 1; AddRanking(t, ranking) == AddHit(AddRanking(t, ranking[..n]), ranking[n], n)
  {
  }

  lemma {:induction false} AddRankingCounts(t: Tally, rankings: seq<seq<ScoredChunk>>, ranking: seq<ScoredChunk>)
    requires Counts(t, rankings, [])
    ensures Counts(AddRanking(t, ranking), rankings, ranking)
  {
    if ranking != [] {
      hide *;
      var n := |ranking| - 1;
      AddRankingStep(t, ranking);
      AddRankingCounts(t, rankings, ranking[..n]);
      HitCounts(AddRanking(t, ranking[..n]), rankings, ranking[..n], ranking[n]);
      assert ranking == ranking[..n] + [ranking[n]];
    }
  }

  /** The nested loops compute the reference score of exactly the ids that occur. */
  lemma {:induction false} AddRankingsCounts(rankings: seq<seq<ScoredChunk>>)
    ensures Counts(AddRankings(rankings), rankings, [])
  {
    if rankings != [] {
      var n := |rankings| - 1;
      AddRankingsCounts(rankings[..n]);
      AddRankingCounts(AddRankings(rankings[..n]), rankings[..n], rankings[n]);
      RankingCounts(AddRankings(rankings), rankings[..n], rankings[n]);
      assert rankings == rankings[..n] + [rankings[n]];
    }
  }

  /** `reciprocal_rank_fusion` as a function of its rankings. */
  ghost function Fuse(rankings: seq<seq<ScoredChunk>>): seq<ScoredChunk> {
    var t := AddRankings(rankings);
    RankedIsListed(rankings);
    Listed(t, Ranked(t))
  }

  lemma RankedIsListed(rankings: seq<seq<ScoredChunk>>)
    ensures var t := AddRankings(rankings);
      NoDup(Ranked(t)) && forall id :: id in Ranked(t) <==> id in t.scores.at && id in t.chunks
  {
    var t := AddRankings(rankings);
    AddRankingsCounts(rankings);
    SortDescSorted(t.scores.order, ScoreIn(t.scores.at));
    PermutationNoDup(t.scores.order, Ranked(t));
  }

  lemma FusedIds(rankings: seq<seq<ScoredChunk>>)
    ensures var t, fused := AddRankings(rankings), Fuse(rankings);
      var r := SortDesc(t.scores.order, ScoreIn(t.scores.at));
      && |fused| == |r|
      && forall i | 0 <= i < |r| :: fused[i].chunk.chunkId == r[i] && fused[i].score == ScoreIn(t.scores.at)(r[i])
    ensures ChunkIds(Fuse(rankings)) == Ranked(AddRankings(rankings))
    ensures forall h | h in Fuse(rankings) ::
      h.score == FusedScore(rankings, h.chunk.chunkId) && LastChunk(rankings, h.chunk.chunkId) == Some(h.chunk)
  {
    var t, fused := AddRankings(rankings), Fuse(rankings);
    AddRankingsCounts(rankings);
    RankedIsListed(rankings);
    assert Counts(t, rankings, []) && forall id :: ShareOf([], id) == 0.0;
    hide SortDesc, AddRankings, FusedScore, LastChunk, Occurs, NoDup, Share, CountsIds;
    forall i | 0 <= i < |fused|
      ensures fused[i].chunk.chunkId == Ranked(t)[i] && fused[i].score == ScoreIn(t.scores.at)(Ranked(t)[i])
    {
      LastIsOwn(rankings, Ranked(t)[i]);
      assert Ranked(t)[i] in Ranked(t);
    }
  }

  /** One result for every chunk that occurs, with its reference score and last record, by falling score. */
  lemma FuseSpec(rankings: seq<seq<ScoredChunk>>)
    ensures var r := Fuse(rankings);
      && NoDup(ChunkIds(r))
      && (forall id :: id in ChunkIds(r) <==> Occurs(rankings, id))
      && (forall h | h in r ::
            h.score == FusedScore(rankings, h.chunk.chunkId) && LastChunk(rankings, h.chunk.chunkId) == Some(h.chunk))
      && (forall i, j :: 0 <= i <= j < |r| ==> r[i].score >= r[j].score)
  {
    hide *;
    RankedIsListed(rankings);
    FusedIds(rankings);
    RankedOccur(rankings);
    RankedFalls(rankings);
  }

  lemma RankedOccur(rankings: seq<seq<ScoredChunk>>)
    ensures forall id :: id in Ranked(AddRankings(rankings)) <==> Occurs(rankings, id)
  {
    AddRankingsCounts(rankings);
    RankedIsListed(rankings);
    assert CountsIds(AddRankings(rankings), rankings, []) && ChunkIds([]) == [];
    hide AddRankings, Ranked, Occurs, ChunkIds;
  }

  lemma RankedFalls(rankings: seq<seq<ScoredChunk>>)
    ensures forall i, j :: 0 <= i <= j < |Fuse(rankings)| ==> Fuse(rankings)[i].score >= Fuse(rankings)[j].score
  {
    var t, r := AddRankings(rankings), Fuse(rankings);
    FusedIds(rankings);
    SortDescSorted(t.scores.order, ScoreIn(t.scores.at));
    hide SortDesc, AddRankings, Fuse, ChunkIds;
    forall i, j | 0 <= i <= j < |r| ensures r[i].score >= r[j].score {
      assert ScoreIn(t.scores.at)(SortDesc(t.scores.order, ScoreIn(t.scores.at))[i])
          >= ScoreIn(t.scores.at)(SortDesc(t.scores.order, ScoreIn(t.scores.at))[j]);
    }
  }

  /** The last record seen for an id carries that id. */
  lemma {:induction false} LastIsOwn(rankings: seq<seq<ScoredChunk>>, id: string)
    ensures LastChunk(rankings, id).Some? ==> LastChunk(rankings, id).value.chunkId == id
  {
    if rankings != [] {
      LastInIsOwn(rankings[|rankings| - 1], id);
      LastIsOwn(rankings[..|rankings| - 1], id);
    }
  }

  lemma {:induction false} LastInIsOwn(ranking: seq<ScoredChunk>, id: string)
    ensures LastChunkIn(ranking, id).Some? ==> LastChunkIn(ranking, id).value.chunkId == id
  {
    if ranking != [] && ranking[|ranking| - 1].chunk.chunkId != id {
      LastInIsOwn(ranking[..|ranking| - 1], id);
    }
  }

  // ---------------------------------------------------------------- ties

  /** The ids of all rankings in the order the loops meet them. */
  function MetIds(rankings: seq<seq<ScoredChunk>>): seq<string> {
    if rankings == [] then []
    else MetIds(rankings[..|rankings| - 1]) + ChunkIds(rankings[|rankings| - 1])
  }

  /** The id is met at `x` for the first time. */
  ghost predicate FirstMet(ids: seq<string>, id: string, x: nat) {
    x < |ids| && ids[x] == id && id !in ids[..x]
  }

  /** The list has every met id, in the order of their first occurrences. */
  ghost predicate ByFirstMet(order: seq<string>, ids: seq<string>) {
    && (forall id :: id in order <==> id in ids)
    && (forall i, j, x: nat, y: nat
          | 0 <= i < j < |order| && FirstMet(ids, order[i], x) && FirstMet(ids, order[j], y) :: x < y)
  }

  lemma FirstStays(ids: seq<string>, last: string, id: string, x: nat)
    requires FirstMet(ids + [last], id, x)
    ensures id in ids ==> FirstMet(ids, id, x)
    ensures id !in ids ==> x == |ids|
  {
    var all := ids + [last];
    assert forall k | 0 <= k < x :: all[..x][k] == all[k];
    assert forall k | 0 <= k < |ids| :: all[k] == ids[k];
    if id in ids {
      var i :| 0 <= i < |ids| && ids[i] == id;
      assert x <= i;
      assert all[..x] == ids[..x];
    }
  }

  lemma MeetingKeepsOrder(order: seq<string>, ids: seq<string>, id: string)
    requires ByFirstMet(order, ids)
    ensures ByFirstMet(if id in order then order else order + [id], ids + [id])
  {
    var order', all := if id in order then order else order + [id], ids + [id];
    forall i, j, x: nat, y: nat
      | 0 <= i < j < |order'| && FirstMet(all, order'[i], x) && FirstMet(all, order'[j], y)
      ensures x < y
    {
      assert order'[i] == order[i] && order[i] in order;
      FirstStays(ids, id, order'[i], x);
      FirstStays(ids, id, order'[j], y);
      assert j < |order| ==> order'[j] == order[j] && order[j] in order;
      hide FirstMet;
      assert x < |ids| by { FirstIsWithin(ids, order[i], x); }
    }
  }

  lemma FirstIsWithin(ids: seq<string>, id: string, x: nat)
    requires FirstMet(ids, id, x)
    ensures x < |ids|
  {
  }

  lemma HitByFirstMet(t: Tally, ids: seq<string>, hit: ScoredChunk, rank: nat)
    requires t.scores.Valid() && ByFirstMet(t.scores.order, ids)
    ensures var after := AddHit(t, hit, rank);
      after.scores.Valid() && ByFirstMet(after.scores.order, ids + [hit.chunk.chunkId])
  {
    t.scores.PutValid(hit.chunk.chunkId, AddHit(t, hit, rank).scores.at[hit.chunk.chunkId]);
    MeetingKeepsOrder(t.scores.order, ids, hit.chunk.chunkId);
    hide ByFirstMet, NoDup, Share;
  }

  lemma {:induction false} RankingByFirstMet(t: Tally, ids: seq<string>, ranking: seq<ScoredChunk>)
    requires t.scores.Valid() && ByFirstMet(t.scores.order, ids)
    ensures var after := AddRanking(t, ranking);
      after.scores.Valid() && ByFirstMet(after.scores.order, ids + ChunkIds(ranking))
  {
    if ranking == [] {
      assert ids + ChunkIds([]) == ids;
    } else {
      var n := |ranking| - 1;
      AddRankingStep(t, ranking);
      RankingByFirstMet(t, ids, ranking[..n]);
      assert ids + ChunkIds(ranking) == ids + ChunkIds(ranking[..n]) + [ranking[n].chunk.chunkId];
      hide AddRanking, AddHit, ByFirstMet, ChunkIds;
      HitByFirstMet(AddRanking(t, ranking[..n]), ids + ChunkIds(ranking[..n]), ranking[n], n);
    }
  }

  lemma {:induction false} TallyByFirstMet(rankings: seq<seq<ScoredChunk>>)
    ensures var t := AddRankings(rankings); t.scores.Valid() && ByFirstMet(t.scores.order, MetIds(rankings))
  {
    if rankings != [] {
      var n := |rankings| - 1;
      TallyByFirstMet(rankings[..n]);
      hide ByFirstMet, AddRanking, ChunkIds;
      RankingByFirstMet(AddRankings(rankings[..n]), MetIds(rankings[..n]), rankings[n]);
    }
  }

  /** Chunks with equal scores come in the order of their first occurrences. */
  ghost predicate TiesByFirstMet(rankings: seq<seq<ScoredChunk>>, fused: seq<ScoredChunk>) {
    forall a, b, x: nat, y: nat | 0 <= a < b < |fused| && fused[a].score == fused[b].score
      && FirstMet(MetIds(rankings), fused[a].chunk.chunkId, x)
      && FirstMet(MetIds(rankings), fused[b].chunk.chunkId, y) :: x < y
  }

  lemma FuseTies(rankings: seq<seq<ScoredChunk>>)
    ensures TiesByFirstMet(rankings, Fuse(rankings))
  {
    var t, fused := AddRankings(rankings), Fuse(rankings);
    var key := ScoreIn(t.scores.at);
    TallyByFirstMet(rankings);
    FusedIds(rankings);
    hide AddRankings, Fuse, MetIds, SortDesc, FirstMet;
    forall a, b, x: nat, y: nat | 0 <= a < b < |fused| && fused[a].score == fused[b].score
      && FirstMet(MetIds(rankings), fused[a].chunk.chunkId, x) && FirstMet(MetIds(rankings), fused[b].chunk.chunkId, y)
      ensures x < y
    {
      var i, j := SortKeepsTies(t.scores.order, key, a, b);
    }
  }

  method ReciprocalRankFusion(rankings: seq<seq<ScoredChunk>>) returns (fused: seq<ScoredChunk>)
    ensures fused == Fuse(rankings)
    ensures NoDup(ChunkIds(fused)) && forall id :: id in ChunkIds(fused) <==> Occurs(rankings, id)
    ensures forall h | h in fused :: h.score == FusedScore(rankings, h.chunk.chunkId)
    ensures forall i, j :: 0 <= i <= j < |fused| ==> fused[i].score >= fused[j].score
    ensures TiesByFirstMet(rankings, fused)
  {
    hide TiesByFirstMet, NoDup;
    var scores: Dict<string, real> := Dict([], map[]);
    var chunks: map<string, ChunkRecord> := map[];
    for m := 0 to |rankings|
      invariant Tally(scores, chunks) == AddRankings(rankings[..m])
    {
      var ranking := rankings[m];
      assert rankings[..m + 1][..m] == rankings[..m];
      for rank := 0 to |ranking|
        invariant Tally(scores, chunks) == AddRanking(AddRankings(rankings[..m]), ranking[..rank])
      {
        assert ranking[..rank + 1][..rank] == ranking[..rank];
        var id := ranking[rank].chunk.chunkId;
        var before := if id in scores.at then scores.at[id] else 0.0;
        scores := scores.Put(id, before + 1.0 / ((RRF_K + rank + 1) as real));
        chunks := chunks[id := ranking[rank].chunk];
      }
      assert ranking[..|ranking|] == ranking;
    }
    assert rankings[..|rankings|] == rankings;
    RankedIsListed(rankings);
    FuseSpec(rankings);
    FuseTies(rankings);
    var t := Tally(scores, chunks);
    fused := Listed(t, Ranked(t));
  }

  // ---------------------------------------------------------------- consensus

  lemma ShareBounds(rank: nat)
    ensures 0.0 < Share(rank) <= Share(0)
  {
    var a := (RRF_K + rank + 1) as real;
    assert a >= 61.0;
    assert a * (1.0 / a) == 1.0;
    assert 61.0 * (1.0 / a) <= a * (1.0 / a);
  }

  /** Two shares exceed the best possible single share exactly when the ranks' product is below 61 squared. */
  lemma ConsensusExact(p: nat, q: nat)
    ensures Share(p) + Share(q) > Share(0) <==> p * q < 61 * 61
  {
    var a, b := 61 + p, 61 + q;
    var x, y := a as real, b as real;
    assert Share(p) == 1.0 / x && Share(q) == 1.0 / y && Share(0) == 1.0 / 61.0;
    SumOfShares(x, y);
    assert (a * b) as real == x * y;
    assert a * b == 61 * 61 + 61 * p + 61 * q + p * q;
    assert 61 * (a + b) - a * b == 61 * 61 - p * q;
    assert 61.0 * (x + y) > x * y <==> 61 * (a + b) > a * b;
  }

  lemma SumOfShares(x: real, y: real)
    requires x > 0.0 && y > 0.0
    ensures 1.0 / x + 1.0 / y > 1.0 / 61.0 <==> 61.0 * (x + y) > x * y
  {
    var s := 1.0 / x + 1.0 / y;
    var m := x * y;
    assert m > 0.0;
    assert m * s == y + x by {
      assert x * (1.0 / x) == 1.0 && y * (1.0 / y) == 1.0;
      assert m * (1.0 / x) == y * (x * (1.0 / x));
      assert m * (1.0 / y) == x * (y * (1.0 / y));
      assert m * s == m * (1.0 / x) + m * (1.0 / y);
    }
    Scale(m, s, 1.0 / 61.0);
  }

  lemma Scale(m: real, s: real, u: real)
    requires m > 0.0
    ensures s > u <==> m * s > m * u
  {
    assert m * s - m * u == m * (s - u);
  }

  /** In a list without repeated chunks, a chunk at `rank` has exactly that rank's share. */
  lemma {:induction false} SingleShare(ranking: seq<ScoredChunk>, rank: nat)
    requires NoDup(ChunkIds(ranking)) && rank < |ranking|
    ensures ShareOf(ranking, ranking[rank].chunk.chunkId) == Share(rank)
  {
    var n, id := |ranking| - 1, ranking[rank].chunk.chunkId;
    var init := ranking[..n];
    assert ChunkIds(ranking) == ChunkIds(init) + [ranking[n].chunk.chunkId];
    NoDupAppend(ChunkIds(init), ranking[n].chunk.chunkId);
    if rank == n {
      NoShare(init, id);
    } else {
      assert ChunkIds(init)[rank] == id;
      assert init[rank] == ranking[rank];
      SingleShare(init, rank);
    }
  }

  lemma {:induction false} NoShare(ranking: seq<ScoredChunk>, id: string)
    requires id !in ChunkIds(ranking)
    ensures ShareOf(ranking, id) == 0.0 && LastChunkIn(ranking, id) == None
  {
    if ranking != [] {
      var n := |ranking| - 1;
      assert ChunkIds(ranking) == ChunkIds(ranking[..n]) + [ranking[n].chunk.chunkId];
      NoShare(ranking[..n], id);
    }
  }

  lemma TwoRankings(v: seq<ScoredChunk>, k: seq<ScoredChunk>, id: string)
    ensures FusedScore([v, k], id) == ShareOf(v, id) + ShareOf(k, id)
    ensures LastChunk([v, k], id) == match LastChunkIn(k, id) case Some(c) => Some(c) case None => LastChunkIn(v, id)
    ensures Occurs([v, k], id) <==> id in ChunkIds(v) || id in ChunkIds(k)
  {
    assert [v, k][..1] == [v] && [v][..0] == [];
    assert v in [v, k] && k in [v, k];
    hide ShareOf, LastChunkIn, ChunkIds;
    assert FusedScore([v], id) == ShareOf(v, id);
    assert LastChunk([v], id) == LastChunkIn(v, id);
  }

  /** The score of a chunk found by only one of two searches is at most the best single share. */
  lemma LonelyScore(v: seq<ScoredChunk>, k: seq<ScoredChunk>, id: string)
    requires NoDup(ChunkIds(v)) && NoDup(ChunkIds(k))
    requires (id in ChunkIds(v)) != (id in ChunkIds(k))
    ensures FusedScore([v, k], id) <= Share(0)
  {
    TwoRankings(v, k, id);
    var own, other := if id in ChunkIds(v) then v else k, if id in ChunkIds(v) then k else v;
    var rank :| 0 <= rank < |own| && ChunkIds(own)[rank] == id;
    SingleShare(own, rank);
    NoShare(other, id);
    ShareBounds(rank);
  }

  /** A chunk both searches found at ranks p and q outscores every chunk only one of them found,
      whatever else they found, whenever p * q < 61 * 61; in particular among the first 61 positions. */
  lemma ConsensusWins(v: seq<ScoredChunk>, k: seq<ScoredChunk>, p: nat, q: nat, other: string)
    requires NoDup(ChunkIds(v)) && NoDup(ChunkIds(k))
    requires p < |v| && q < |k| && v[p].chunk.chunkId == k[q].chunk.chunkId && p * q < 61 * 61
    requires (other in ChunkIds(v)) != (other in ChunkIds(k))
    ensures FusedScore([v, k], v[p].chunk.chunkId) > FusedScore([v, k], other)
  {
    TwoRankings(v, k, v[p].chunk.chunkId);
    SingleShare(v, p);
    SingleShare(k, q);
    ConsensusExact(p, q);
    LonelyScore(v, k, other);
  }

  lemma SmallRanks(p: nat, q: nat)
    requires p <= 60 && q <= 60
    ensures p * q < 61 * 61
  {
    assert p * q <= 60 * q;
  }

  /** When both lists have at most 61 entries, the chunks found by both come before all others. */
  lemma ConsensusFirst(v: seq<ScoredChunk>, k: seq<ScoredChunk>, i: nat, j: nat)
    requires NoDup(ChunkIds(v)) && NoDup(ChunkIds(k)) && |v| <= 61 && |k| <= 61
    requires i < |Fuse([v, k])| && j < |Fuse([v, k])|
    requires var id := Fuse([v, k])[i].chunk.chunkId; id in ChunkIds(v) && id in ChunkIds(k)
    requires var id := Fuse([v, k])[j].chunk.chunkId; !(id in ChunkIds(v) && id in ChunkIds(k))
    ensures i < j
  {
    var r := Fuse([v, k]);
    FuseSpec([v, k]);
    var both, lone := r[i].chunk.chunkId, r[j].chunk.chunkId;
    assert ChunkIds(r)[j] == lone && lone in ChunkIds(r);
    TwoRankings(v, k, lone);
    var p: nat :| p < |v| && ChunkIds(v)[p] == both;
    var q: nat :| q < |k| && ChunkIds(k)[q] == both;
    SmallRanks(p, q);
    ConsensusWins(v, k, p, q, lone);
    assert r[i] in r && r[j] in r;
  }

  /** The bound is tight: at ranks p, q with p * q >= 61 * 61 the top of one list is not outscored. */
  lemma ConsensusCanLose(v: seq<ScoredChunk>, k: seq<ScoredChunk>, p: nat, q: nat)
    requires NoDup(ChunkIds(v)) && NoDup(ChunkIds(k))
    requires p < |v| && q < |k| && v[p].chunk.chunkId == k[q].chunk.chunkId && p * q >= 61 * 61
    requires v[0].chunk.chunkId !in ChunkIds(k)
    ensures FusedScore([v, k], v[p].chunk.chunkId) <= FusedScore([v, k], v[0].chunk.chunkId)
  {
    TwoRankings(v, k, v[p].chunk.chunkId);
    TwoRankings(v, k, v[0].chunk.chunkId);
    SingleShare(v, p);
    SingleShare(k, q);
    SingleShare(v, 0);
    NoShare(k, v[0].chunk.chunkId);
    ConsensusExact(p, q);
  }

  // ---------------------------------------------------------------- an empty partner

  lemma ShareFalls(p: nat, q: nat)
    requires p < q
    ensures Share(p) > Share(q)
  {
    var x, y := (61 + p) as real, (61 + q) as real;
    assert 1.0 / x - 1.0 / y == (y - x) / (x * y) by {
      assert x * (1.0 / x) == 1.0 && y * (1.0 / y) == 1.0;
      var d := 1.0 / x - 1.0 / y;
      assert x * y * d == y * (x * (1.0 / x)) - x * (y * (1.0 / y));
      assert x * y > 0.0;
    }
    assert x * y > 0.0 && (y - x) / (x * y) > 0.0;
  }

  function RankOf(hits: seq<ScoredChunk>, id: string): nat {
    if hits == [] || hits[0].chunk.chunkId == id then 0 else 1 + RankOf(hits[1..], id)
  }

  lemma {:induction false} RankOfSpec(hits: seq<ScoredChunk>, id: string)
    requires id in ChunkIds(hits)
    ensures RankOf(hits, id) < |hits| && hits[RankOf(hits, id)].chunk.chunkId == id
  {
    if hits[0].chunk.chunkId != id {
      var i :| 0 <= i < |hits| && ChunkIds(hits)[i] == id;
      assert ChunkIds(hits[1..])[i - 1] == id;
      RankOfSpec(hits[1..], id);
    }
  }

  /** An increasing enumeration of 0..n is the identity. */
  lemma {:induction false} IncreasingIsIdentity(ps: seq<nat>)
    requires forall i | 0 <= i < |ps| :: ps[i] < |ps|
    requires forall i, j :: 0 <= i < j < |ps| ==> ps[i] < ps[j]
    ensures forall i | 0 <= i < |ps| :: ps[i] == i
  {
    if ps != [] {
      var n := |ps| - 1;
      forall i | 0 <= i < n ensures ps[..n][i] < n { assert ps[i] < ps[n]; }
      IncreasingIsIdentity(ps[..n]);
      if n > 0 {
        assert ps[..n][n - 1] == n - 1 && ps[n - 1] < ps[n];
      }
    }
  }

  /** Results scored by their share in one list, by falling score, are in that list's order. */
  lemma OrderedByShare(v: seq<ScoredChunk>, fused: seq<ScoredChunk>)
    requires NoDup(ChunkIds(v)) && NoDup(ChunkIds(fused)) && forall id :: id in ChunkIds(fused) <==> id in ChunkIds(v)
    requires forall i | 0 <= i < |fused| :: fused[i].score == ShareOf(v, ChunkIds(fused)[i])
    requires forall i, j :: 0 <= i <= j < |fused| ==> fused[i].score >= fused[j].score
    ensures ChunkIds(fused) == ChunkIds(v)
  {
    ContainedNoDup(ChunkIds(fused), ChunkIds(v));
    ContainedNoDup(ChunkIds(v), ChunkIds(fused));
    assert |fused| == |v|;
    var ids := ChunkIds(fused);
    assert |ids| == |fused|;
    hide ShareOf, Share, RankOf;
    forall i | 0 <= i < |fused|
      ensures RankOf(v, ids[i]) < |v| && v[RankOf(v, ids[i])].chunk.chunkId == ids[i]
      ensures fused[i].score == Share(RankOf(v, ids[i]))
    {
      assert ids[i] in ids;
      RankOfSpec(v, ids[i]);
      SingleShare(v, RankOf(v, ids[i]));
    }
    var ps := seq(|fused|, i requires 0 <= i < |fused| => RankOf(v, ids[i]));
    hide ChunkIds;
    forall i, j | 0 <= i < j < |ps| ensures ps[i] < ps[j] {
      assert ids[i] != ids[j] && fused[i].score >= fused[j].score;
      if ps[j] < ps[i] { ShareFalls(ps[j], ps[i]); }
    }
    IncreasingIsIdentity(ps);
    SameIds(v, fused, ids, ps);
  }

  lemma SameIds(v: seq<ScoredChunk>, fused: seq<ScoredChunk>, ids: seq<string>, ps: seq<nat>)
    requires ids == ChunkIds(fused) && |ps| == |fused| == |v|
    requires forall i | 0 <= i < |ps| :: ps[i] == i && ps[i] == RankOf(v, ids[i])
    requires forall i | 0 <= i < |ps| :: v[ps[i]].chunk.chunkId == ids[i]
    ensures ChunkIds(fused) == ChunkIds(v)
  {
    hide RankOf;
  }

  /** Fusing with an empty list keeps the other list's order. */
  lemma FuseWithNothing(v: seq<ScoredChunk>)
    requires NoDup(ChunkIds(v))
    ensures ChunkIds(Fuse([v, []])) == ChunkIds(v) && ChunkIds(Fuse([[], v])) == ChunkIds(v)
  {
    assert ChunkIds([]) == [];
    FuseSpec([v, []]);
    FuseSpec([[], v]);
    forall id ensures FusedScore([v, []], id) == ShareOf(v, id) && (Occurs([v, []], id) <==> id in ChunkIds(v)) {
      TwoRankings(v, [], id);
      NoShare([], id);
    }
    forall id ensures FusedScore([[], v], id) == ShareOf(v, id) && (Occurs([[], v], id) <==> id in ChunkIds(v)) {
      TwoRankings([], v, id);
      NoShare([], id);
    }
    hide Fuse, FusedScore, ShareOf, Occurs, LastChunk;
    OrderedByShare(v, Fuse([v, []]));
    OrderedByShare(v, Fuse([[], v]));
  }
}
