/** The bounds of Fusion are reached: rankings in which a chunk both searches found loses. */
module FusionBounds {
  import opened Collections
  import opened VectorStore
  import opened Fusion

  function Repeat(c: char, n: nat): (s: string)
    ensures |s| == n
  {
    seq(n, i => c)
  }

  /** `n` hits: the last is the chunk both rankings share, the others are the ranking's own. */
  function NthId(c: char, n: nat, i: nat): string {
    if i + 1 == n then "" else Repeat(c, i + 1)
  }

  function NthHit(c: char, n: nat, i: nat): ScoredChunk {
    ScoredChunk(ChunkRecord(NthId(c, n, i), "", "", 0, "", map[]), 0.0)
  }

  function SharedLast(c: char, n: nat): (hits: seq<ScoredChunk>)
    ensures |hits| == n
  {
    seq(n, i requires 0 <= i < n => NthHit(c, n, i))
  }

  lemma SharedLastSpec(c: char, n: nat)
    ensures var hits := SharedLast(c, n);
      && NoDup(ChunkIds(hits))
      && (forall i | 0 <= i < n :: hits[i].chunk.chunkId == ChunkIds(hits)[i] == NthId(c, n, i))
  {
    var ids := ChunkIds(SharedLast(c, n));
    forall i, j | 0 <= i < j < n ensures ids[i] != ids[j] {
      assert |NthId(c, n, i)| != |NthId(c, n, j)|;
    }
  }

  /** The rankings share their last chunk and nothing else. */
  lemma OnlyLastIsShared(n: nat, m: nat, i: nat)
    requires i + 1 < n
    ensures NthId('v', n, i) !in ChunkIds(SharedLast('k', m)) && NthId('k', n, i) !in ChunkIds(SharedLast('v', m))
  {
    SharedLastSpec('v', m);
    SharedLastSpec('k', m);
    assert NthId('v', n, i)[0] == 'v' && NthId('k', n, i)[0] == 'k';
    forall j | 0 <= j < m ensures NthId('k', m, j) != NthId('v', n, i) && NthId('v', m, j) != NthId('k', n, i) {
      assert j + 1 < m ==> NthId('k', m, j)[0] == 'k' && NthId('v', m, j)[0] == 'v';
    }
  }

  /** For all ranks p and q with p * q >= 3721 there are rankings in which the chunk found at p and q does not
      outscore the top of one list: the hypotheses of ConsensusCanLose are met. */
  lemma ConsensusLoses(p: nat, q: nat)
    requires p * q >= 61 * 61
    ensures var v, k := SharedLast('v', p + 1), SharedLast('k', q + 1);
      && NoDup(ChunkIds(v)) && NoDup(ChunkIds(k)) && v[p].chunk.chunkId == k[q].chunk.chunkId
      && v[0].chunk.chunkId in ChunkIds(v) && v[0].chunk.chunkId !in ChunkIds(k)
      && FusedScore([v, k], v[p].chunk.chunkId) <= FusedScore([v, k], v[0].chunk.chunkId)
  {
    var v, k := SharedLast('v', p + 1), SharedLast('k', q + 1);
    SharedLastSpec('v', p + 1);
    SharedLastSpec('k', q + 1);
    assert p > 0 && NthId('v', p + 1, p) == "" == NthId('k', q + 1, q);
    OnlyLastIsShared(p + 1, q + 1, 0);
    assert v[0].chunk.chunkId == ChunkIds(v)[0];
    hide FusedScore, SharedLast, NthId, NoDup;
    ConsensusCanLose(v, k, p, q);
  }

  // ---------------------------------------------------------------- meeting at rank 64

  /** The rankings share one chunk, which both hold at rank 64. */
  ghost predicate MeetAt64(v: seq<ScoredChunk>, k: seq<ScoredChunk>, c: string) {
    && NoDup(ChunkIds(v)) && NoDup(ChunkIds(k))
    && |v| > 64 && |k| > 64 && ChunkIds(v)[64] == c == ChunkIds(k)[64]
    && (forall id | id in ChunkIds(v) && id in ChunkIds(k) :: id == c)
  }

  /** What the chunks of such rankings score. */
  lemma ScoresInV(v: seq<ScoredChunk>, k: seq<ScoredChunk>, c: string, i: nat)
    requires MeetAt64(v, k, c) && i < |v| && i != 64
    ensures FusedScore([v, k], ChunkIds(v)[i]) == Share(i) && ChunkIds(v)[i] !in ChunkIds(k)
  {
    var id := ChunkIds(v)[i];
    assert id != ChunkIds(v)[64];
    TwoRankings(v, k, id);
    hide FusedScore, Share;
    SingleShare(v, i);
    NoShare(k, id);
  }

  lemma ScoresInK(v: seq<ScoredChunk>, k: seq<ScoredChunk>, c: string, i: nat)
    requires MeetAt64(v, k, c) && i < |k| && i != 64
    ensures FusedScore([v, k], ChunkIds(k)[i]) == Share(i) && ChunkIds(k)[i] !in ChunkIds(v)
  {
    var id := ChunkIds(k)[i];
    assert id != ChunkIds(k)[64];
    TwoRankings(v, k, id);
    hide FusedScore, Share;
    SingleShare(k, i);
    NoShare(v, id);
  }

  lemma ScoreOfShared(v: seq<ScoredChunk>, k: seq<ScoredChunk>, c: string)
    requires MeetAt64(v, k, c)
    ensures FusedScore([v, k], c) == Share(64) + Share(64)
  {
    TwoRankings(v, k, c);
    hide FusedScore, Share;
    SingleShare(v, 64);
    SingleShare(k, 64);
  }

  lemma ShareFallsBelow(i: nat)
    ensures Share(i) >= Share(64) + Share(64) <==> i <= 1
    ensures Share(0) > Share(64) + Share(64)
  {
    assert Share(64) + Share(64) == 2.0 / 125.0;
    assert Share(i) == 1.0 / (61 + i) as real;
    var x := (61 + i) as real;
    assert 1.0 / x * x == 1.0;
    assert 1.0 / x >= 2.0 / 125.0 ==> 1.0 >= 2.0 / 125.0 * x;
    assert 1.0 / x < 2.0 / 125.0 ==> 1.0 < 2.0 / 125.0 * x;
  }

  /** The four chunks that can come before the shared one. */
  function Tops(v: seq<ScoredChunk>, k: seq<ScoredChunk>): seq<string>
    requires |v| > 64 && |k| > 64
  {
    [ChunkIds(v)[0], ChunkIds(v)[1], ChunkIds(k)[0], ChunkIds(k)[1]]
  }

  lemma TopsDiffer(v: seq<ScoredChunk>, k: seq<ScoredChunk>, c: string)
    requires MeetAt64(v, k, c)
    ensures NoDup(Tops(v, k))
  {
    assert forall i | 0 <= i < 2 :: ChunkIds(v)[i] in ChunkIds(v) && ChunkIds(v)[i] != ChunkIds(v)[64];
    assert forall i | 0 <= i < 2 :: ChunkIds(k)[i] in ChunkIds(k) && ChunkIds(k)[i] != ChunkIds(k)[64];
  }

  /** A chunk of the fusion that scores at least what the shared chunk scores is one of them. */
  lemma HighScores(v: seq<ScoredChunk>, k: seq<ScoredChunk>, c: string, id: string)
    requires MeetAt64(v, k, c) && Occurs([v, k], id) && id != c
    requires FusedScore([v, k], id) >= FusedScore([v, k], c)
    ensures id in Tops(v, k)
  {
    TwoRankings(v, k, id);
    ScoreOfShared(v, k, c);
    hide FusedScore, Share, Occurs;
    if id in ChunkIds(v) {
      var i: nat :| i < |ChunkIds(v)| && ChunkIds(v)[i] == id;
      ScoresInV(v, k, c, i);
      ShareFallsBelow(i);
    } else {
      var i: nat :| i < |ChunkIds(k)| && ChunkIds(k)[i] == id;
      ScoresInK(v, k, c, i);
      ShareFallsBelow(i);
    }
  }

  lemma Position(hits: seq<ScoredChunk>, id: string) returns (i: nat)
    requires id in ChunkIds(hits)
    ensures i < |hits| && ChunkIds(hits)[i] == id == hits[i].chunk.chunkId && hits[i] in hits
  {
    i :| i < |hits| && ChunkIds(hits)[i] == id;
  }

  lemma InOrder(hits: seq<ScoredChunk>, i: nat, j: nat)
    requires i < |hits| && j < |hits| && hits[i].score > hits[j].score
    requires forall a, b :: 0 <= a <= b < |hits| ==> hits[a].score >= hits[b].score
    ensures i < j
  {
  }

  /** Fewer than five chunks come before the shared one. */
  lemma AheadOfShared(v: seq<ScoredChunk>, k: seq<ScoredChunk>, c: string, j: nat)
    requires MeetAt64(v, k, c) && j < |Fuse([v, k])| && ChunkIds(Fuse([v, k]))[j] == c
    ensures j <= 4
  {
    var fused := Fuse([v, k]);
    FuseSpec([v, k]);
    TopsDiffer(v, k, c);
    hide Fuse, FusedScore, Occurs, MeetAt64, Tops;
    var ahead := ChunkIds(fused)[..j];
    forall x | x in ahead ensures x in Tops(v, k) {
      var m :| 0 <= m < j && ahead[m] == x;
      assert fused[m] in fused && fused[j] in fused && fused[m].score >= fused[j].score;
      assert x == ChunkIds(fused)[m] && x in ChunkIds(fused);
      HighScores(v, k, c, x);
    }
    ContainedNoDup(ahead, Tops(v, k));
    assert |Tops(v, k)| == 4 by { FourTops(v, k, c); }
  }

  lemma FourTops(v: seq<ScoredChunk>, k: seq<ScoredChunk>, c: string)
    requires MeetAt64(v, k, c)
    ensures |Tops(v, k)| == 4
  {
  }

  /** The top of one list and the shared chunk are in the fusion, in this order and among its first five. */
  lemma BehindTheTop(v: seq<ScoredChunk>, k: seq<ScoredChunk>, c: string) returns (i: nat, j: nat)
    requires MeetAt64(v, k, c)
    ensures var fused := Fuse([v, k]);
      && i < j < |fused| && j <= 4
      && fused[i].chunk.chunkId in ChunkIds(v) && fused[i].chunk.chunkId !in ChunkIds(k)
      && fused[j].chunk.chunkId in ChunkIds(v) && fused[j].chunk.chunkId in ChunkIds(k)
  {
    var fused, top := Fuse([v, k]), ChunkIds(v)[0];
    FuseSpec([v, k]);
    TwoRankings(v, k, c);
    TwoRankings(v, k, top);
    ScoreOfShared(v, k, c);
    ScoresInV(v, k, c, 0);
    ShareFallsBelow(0);
    assert c in ChunkIds(v) && c in ChunkIds(k) && top in ChunkIds(v);
    hide Fuse, FusedScore, Share, Occurs, MeetAt64, NoDup;
    i := Position(fused, top);
    j := Position(fused, c);
    InOrder(fused, i, j);
    AheadOfShared(v, k, c, j);
  }
}
