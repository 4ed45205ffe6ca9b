/** ml-service/app/evaluation/metrics.py over exact rationals: answer scores can only gain from more
    context, and the nearest-rank percentile is a true order statistic. */
module Evaluation {
  import opened Collections

  /** Sentence splitting, tokenizing and the citation scan (Markers.Cited). */
  datatype Analysis = Analysis(
    sentences: string -> seq<string>, tokens: string -> set<string>, cited: string -> set<nat>)

  /** `_overlap_ratio(..) >= 0.6`, multiplied out. */
  predicate Overlaps(claim: set<string>, reference: set<string>) {
    claim != {} && reference != {} && 5 * |claim * reference| >= 3 * |claim|
  }

  predicate CitesContext(a: Analysis, sentence: string, count: nat) {
    exists n :: n in a.cited(sentence) && 1 <= n <= count
  }

  predicate OverlapsAny(a: Analysis, sentence: string, chunks: seq<string>) {
    exists c :: c in chunks && Overlaps(a.tokens(sentence), a.tokens(c))
  }

  /** `_is_supported`. */
  predicate IsSupported(a: Analysis, sentence: string, chunks: seq<string>) {
    CitesContext(a, sentence, |chunks|) || a.tokens(sentence) == {} || OverlapsAny(a, sentence, chunks)
  }

  function Supporting(a: Analysis, chunks: seq<string>): string -> bool {
    s => IsSupported(a, s, chunks)
  }

  function Covering(a: Analysis, chunks: seq<string>): string -> bool {
    s => OverlapsAny(a, s, chunks)
  }

  /** The share of the sentences that pass. */
  function Share(sentences: seq<string>, p: string -> bool): real {
    if sentences == [] then 0.0 else |Filter(sentences, p)| as real / |sentences| as real
  }

  function Faithfulness(a: Analysis, answer: string, chunks: seq<string>): real {
    Share(a.sentences(answer), Supporting(a, chunks))
  }

  function ContextRecall(a: Analysis, groundTruth: string, chunks: seq<string>): real {
    if groundTruth == "" || chunks == [] then 0.0 else Share(a.sentences(groundTruth), Covering(a, chunks))
  }

  /** A claim overlaps a text when at least 0.6 of the claim's own tokens occur in it, and neither has none. */
  lemma OverlapsSpec(claim: set<string>, reference: set<string>)
    ensures Overlaps(claim, reference) <==>
      claim != {} && reference != {} && |claim * reference| as real / |claim| as real >= 0.6
  {
    if claim != {} {
      var x, y := |claim * reference| as real, |claim| as real;
      assert x / y * y == x;
      assert x / y >= 0.6 ==> x >= 0.6 * y;
      assert x / y < 0.6 ==> x < 0.6 * y;
    }
  }

  /** A sentence is supported when it cites a chunk of the context, has no tokens, or one chunk alone holds at least
      0.6 of its tokens. */
  lemma SupportSpec(a: Analysis, sentence: string, chunks: seq<string>)
    ensures IsSupported(a, sentence, chunks) <==>
      || (exists n :: n in a.cited(sentence) && 1 <= n <= |chunks|)
      || a.tokens(sentence) == {}
      || (exists c :: c in chunks && a.tokens(c) != {} && a.tokens(sentence) != {}
            && |a.tokens(sentence) * a.tokens(c)| as real / |a.tokens(sentence)| as real >= 0.6)
  {
    forall c ensures Overlaps(a.tokens(sentence), a.tokens(c)) <==>
      a.tokens(sentence) != {} && a.tokens(c) != {}
      && |a.tokens(sentence) * a.tokens(c)| as real / |a.tokens(sentence)| as real >= 0.6
    {
      OverlapsSpec(a.tokens(sentence), a.tokens(c));
    }
    hide Overlaps;
  }

  /** The positions whose sentences pass. */
  function PassingAt(sentences: seq<string>, p: string -> bool): set<nat> {
    set i: nat | i < |sentences| && p(sentences[i])
  }

  lemma {:induction false} FilterCounts(sentences: seq<string>, p: string -> bool)
    ensures |Filter(sentences, p)| == |PassingAt(sentences, p)|
  {
    if sentences != [] {
      var n := |sentences| - 1;
      var init := sentences[..n];
      FilterCounts(init, p);
      assert PassingAt(sentences, p) == PassingAt(init, p) + if p(sentences[n]) then {n} else {};
      assert n !in PassingAt(init, p);
    }
  }

  lemma ShareCounts(sentences: seq<string>, p: string -> bool)
    ensures sentences == [] ==> Share(sentences, p) == 0.0
    ensures Share(sentences, p) * |sentences| as real == |PassingAt(sentences, p)| as real
  {
    FilterCounts(sentences, p);
    if sentences != [] {
      var x, y := |Filter(sentences, p)| as real, |sentences| as real;
      assert x / y * y == x;
    }
  }

  /** Faithfulness is the share of the answer's sentences that are supported; recall the share of the reference
      answer's sentences that one chunk of the context covers. Without sentences or context the score is 0. */
  lemma ScoresAreShares(a: Analysis, answer: string, groundTruth: string, chunks: seq<string>)
    ensures var sentences := a.sentences(answer);
      && (sentences == [] ==> Faithfulness(a, answer, chunks) == 0.0)
      && Faithfulness(a, answer, chunks) * |sentences| as real
         == |set i: nat | i < |sentences| && IsSupported(a, sentences[i], chunks)| as real
    ensures groundTruth == "" || chunks == [] ==> ContextRecall(a, groundTruth, chunks) == 0.0
    ensures groundTruth != "" && chunks != [] ==>
      var sentences := a.sentences(groundTruth);
      && (sentences == [] ==> ContextRecall(a, groundTruth, chunks) == 0.0)
      && ContextRecall(a, groundTruth, chunks) * |sentences| as real
         == |set i: nat | i < |sentences| && OverlapsAny(a, sentences[i], chunks)| as real
  {
    hide IsSupported, OverlapsAny, Share;
    var s, g := a.sentences(answer), a.sentences(groundTruth);
    ShareCounts(s, Supporting(a, chunks));
    ShareCounts(g, Covering(a, chunks));
    assert PassingAt(s, Supporting(a, chunks)) == set i: nat | i < |s| && IsSupported(a, s[i], chunks);
    assert PassingAt(g, Covering(a, chunks)) == set i: nat | i < |g| && OverlapsAny(a, g[i], chunks);
  }

  lemma {:induction false} MorePass(sentences: seq<string>, p: string -> bool, q: string -> bool)
    requires forall s | s in sentences && p(s) :: q(s)
    ensures |Filter(sentences, p)| <= |Filter(sentences, q)| <= |sentences|
  {
    if sentences != [] {
      assert sentences[|sentences| - 1] in sentences;
      MorePass(sentences[..|sentences| - 1], p, q);
    }
  }

  lemma SharesGrow(sentences: seq<string>, p: string -> bool, q: string -> bool)
    requires forall s | s in sentences && p(s) :: q(s)
    ensures 0.0 <= Share(sentences, p) <= Share(sentences, q) <= 1.0
  {
    MorePass(sentences, p, q);
    if sentences != [] {
      QuotientGrows(|Filter(sentences, p)|, |Filter(sentences, q)|, |sentences|);
    }
  }

  lemma QuotientGrows(a: nat, b: nat, n: nat)
    requires a <= b <= n && n > 0
    ensures 0.0 <= a as real / n as real <= b as real / n as real <= 1.0
  {
    Quotients(a as real, b as real, n as real);
    Quotients(b as real, n as real, n as real);
    assert n as real / n as real == 1.0;
  }

  lemma Quotients(x: real, y: real, m: real)
    requires 0.0 <= x <= y && m > 0.0
    ensures 0.0 <= x / m <= y / m
  {
    var p, q := x / m, y / m;
    assert p * m == x && q * m == y;
    assert p < 0.0 ==> p * m < 0.0;
    assert q < p ==> q * m < p * m;
  }

  /** More context never lowers faithfulness or recall, so it never raises the hallucination score. */
  lemma MoreContextNeverHurts(a: Analysis, answer: string, groundTruth: string, chunks: seq<string>, more: seq<string>)
    ensures 0.0 <= Faithfulness(a, answer, chunks) <= Faithfulness(a, answer, chunks + more) <= 1.0
    ensures 0.0 <= ContextRecall(a, groundTruth, chunks) <= ContextRecall(a, groundTruth, chunks + more) <= 1.0
    ensures 1.0 - Faithfulness(a, answer, chunks + more) <= 1.0 - Faithfulness(a, answer, chunks)
  {
    forall s
      ensures IsSupported(a, s, chunks) ==> IsSupported(a, s, chunks + more)
      ensures OverlapsAny(a, s, chunks) ==> OverlapsAny(a, s, chunks + more)
    {
      SupportGrows(a, s, chunks, more);
    }
    hide IsSupported, OverlapsAny, Share;
    SharesGrow(a.sentences(answer), Supporting(a, chunks), Supporting(a, chunks + more));
    SharesGrow(a.sentences(groundTruth), Covering(a, chunks), Covering(a, chunks + more));
    SharesGrow(a.sentences(groundTruth), Covering(a, chunks + more), Covering(a, chunks + more));
  }

  lemma SupportGrows(a: Analysis, s: string, chunks: seq<string>, more: seq<string>)
    ensures IsSupported(a, s, chunks) ==> IsSupported(a, s, chunks + more)
    ensures OverlapsAny(a, s, chunks) ==> OverlapsAny(a, s, chunks + more)
  {
    if c :| c in chunks && Overlaps(a.tokens(s), a.tokens(c)) {
      assert c in chunks + more;
    }
    if n :| n in a.cited(s) && 1 <= n <= |chunks| {
      assert n in a.cited(s) && 1 <= n <= |chunks + more|;
    }
  }

  // ---------------------------------------------------------------- percentile

  function Negated(): real -> real {
    x => -x
  }

  /** `sorted(values)`. */
  function Sorted(values: seq<real>): seq<real> {
    SortDesc(values, Negated())
  }

  function Ceil(x: real): int {
    -((-x).Floor)
  }

  function Rank(n: nat, pct: real): int {
    var rank := Ceil(pct / 100.0 * n as real);
    if rank < 1 then 1 else rank
  }

  function Percentile(values: seq<real>, pct: real): real {
    if values == [] then 0.0
    else
      SortDescSorted(values, Negated());
      var ordered, rank := Sorted(values), Rank(|values|, pct);
      assert |multiset(ordered)| == |ordered|;
      ordered[(if rank <= |ordered| then rank else |ordered|) - 1]
  }

  function AtMost(v: real): real -> bool {
    x => x <= v
  }

  function Below(v: real): real -> bool {
    x => x < v
  }

  function CountIf(values: seq<real>, p: real -> bool): nat {
    |Filter(values, p)|
  }

  lemma {:induction false} InsertCounts(s: seq<real>, x: real, key: real -> real, p: real -> bool)
    ensures CountIf(InsertDesc(s, x, key), p) == CountIf(s + [x], p)
  {
    FilterConcat(s, [x], p);
    if s != [] && key(s[|s| - 1]) < key(x) {
      var init, last := s[..|s| - 1], s[|s| - 1];
      assert s == init + [last];
      InsertCounts(init, x, key, p);
      FilterConcat(InsertDesc(init, x, key), [last], p);
      FilterConcat(init, [x], p);
      FilterConcat(init, [last], p);
    }
  }

  lemma {:induction false} SortCounts(s: seq<real>, key: real -> real, p: real -> bool)
    ensures CountIf(SortDesc(s, key), p) == CountIf(s, p)
  {
    if s != [] {
      var init, last := s[..|s| - 1], s[|s| - 1];
      assert s == init + [last];
      SortCounts(init, key, p);
      InsertCounts(SortDesc(init, key), last, key, p);
      FilterConcat(SortDesc(init, key), [last], p);
      FilterConcat(init, [last], p);
    }
  }

  predicate Rising(s: seq<real>) {
    forall i, j :: 0 <= i <= j < |s| ==> s[i] <= s[j]
  }

  lemma SortedRises(values: seq<real>)
    ensures Rising(Sorted(values)) && multiset(Sorted(values)) == multiset(values)
    ensures |Sorted(values)| == |values|
  {
    var ordered := Sorted(values);
    SortDescSorted(values, Negated());
    assert |multiset(ordered)| == |ordered|;
    forall i, j | 0 <= i <= j < |ordered| ensures ordered[i] <= ordered[j] {
      assert Negated()(ordered[i]) >= Negated()(ordered[j]);
    }
  }

  lemma {:induction false} FilterNone(s: seq<real>, p: real -> bool)
    requires forall x | x in s :: !p(x)
    ensures Filter(s, p) == []
  {
    if s != [] {
      var init, last := s[..|s| - 1], s[|s| - 1];
      assert last in s && forall x | x in init :: x in s;
      FilterNone(init, p);
    }
  }

  /** In a rising list the i-th element has at least i + 1 elements up to it and at most i below it. */
  lemma OrderStatistic(ordered: seq<real>, i: nat)
    requires i < |ordered| && Rising(ordered)
    ensures CountIf(ordered, AtMost(ordered[i])) >= i + 1
    ensures CountIf(ordered, Below(ordered[i])) <= i
  {
    var v := ordered[i];
    UpTo(ordered, i);
    hide Rising;
    var upto, above, head, tail := ordered[..i + 1], ordered[i + 1..], ordered[..i], ordered[i..];
    assert ordered == upto + above && ordered == head + tail;
    FilterConcat(upto, above, AtMost(v));
    FilterAll(upto, AtMost(v));
    FilterConcat(head, tail, Below(v));
    FilterMembers(head, Below(v));
    FilterNone(tail, Below(v));
  }

  lemma UpTo(ordered: seq<real>, i: nat)
    requires i < |ordered| && Rising(ordered)
    ensures forall x | x in ordered[..i + 1] :: AtMost(ordered[i])(x)
    ensures forall x | x in ordered[i..] :: !Below(ordered[i])(x)
  {
  }

  lemma RankBounds(n: nat, pct: real)
    requires n > 0
    ensures pct <= 0.0 ==> Rank(n, pct) == 1
    ensures 0.0 < pct <= 100.0 ==>
      1 <= Rank(n, pct) <= n
      && 100.0 * (Rank(n, pct) - 1) as real < pct * n as real <= 100.0 * Rank(n, pct) as real
    ensures pct >= 100.0 ==> Rank(n, pct) >= n
  {
    var x := pct / 100.0 * n as real;
    assert 100.0 * x == pct * n as real;
    assert (Ceil(x) - 1) as real < x <= Ceil(x) as real;
    assert pct <= 0.0 ==> x <= 0.0;
    assert pct > 0.0 ==> x > 0.0;
    assert pct <= 100.0 ==> x <= n as real;
    assert pct >= 100.0 ==> x >= n as real;
  }

  lemma RankGrows(n: nat, low: real, high: real)
    requires low <= high
    ensures Rank(n, low) <= Rank(n, high)
  {
    assert low / 100.0 * n as real <= high / 100.0 * n as real;
  }

  /** The percentile is one of the values; at least pct percent of the values are up to it and fewer than
      pct percent are below it. Outside (0, 100] it is the smallest or the largest value. */
  lemma PercentileSpec(values: seq<real>, pct: real)
    requires values != []
    ensures Percentile(values, pct) in values
    ensures 0.0 < pct <= 100.0 ==>
      && 100.0 * CountIf(values, AtMost(Percentile(values, pct))) as real >= pct * |values| as real
      && 100.0 * CountIf(values, Below(Percentile(values, pct))) as real < pct * |values| as real
    ensures pct <= 0.0 ==> forall x | x in values :: Percentile(values, pct) <= x
    ensures pct >= 100.0 ==> forall x | x in values :: x <= Percentile(values, pct)
  {
    var i := PercentileIndex(values, pct);
    SortedRises(values);
    OrderStatistic(Sorted(values), i);
    SortCounts(values, Negated(), AtMost(Percentile(values, pct)));
    SortCounts(values, Negated(), Below(Percentile(values, pct)));
    Extremes(values, Sorted(values), i);
    hide *;
    Scaled(CountIf(values, AtMost(Percentile(values, pct))), CountIf(values, Below(Percentile(values, pct))), i,
           |values|, pct);
  }

  lemma PercentileIndex(values: seq<real>, pct: real) returns (i: nat)
    requires values != []
    ensures i < |values| == |Sorted(values)| && Percentile(values, pct) == Sorted(values)[i]
    ensures pct <= 0.0 ==> i == 0
    ensures pct >= 100.0 ==> i == |values| - 1
    ensures 0.0 < pct <= 100.0 ==> 100.0 * i as real < pct * |values| as real <= 100.0 * (i + 1) as real
  {
    SortedRises(values);
    RankBounds(|values|, pct);
    hide SortDesc, Rank;
    var rank := Rank(|values|, pct);
    i := (if rank <= |values| then rank else |values|) - 1;
  }

  lemma Scaled(upto: nat, below: nat, i: nat, n: nat, pct: real)
    requires upto >= i + 1 && below <= i
    ensures 100.0 * i as real < pct * n as real <= 100.0 * (i + 1) as real ==>
      100.0 * upto as real >= pct * n as real && 100.0 * below as real < pct * n as real
  {
  }

  lemma Extremes(values: seq<real>, ordered: seq<real>, i: nat)
    requires Rising(ordered) && multiset(ordered) == multiset(values) && i < |ordered|
    ensures ordered[i] in values
    ensures i == 0 ==> forall x | x in values :: ordered[i] <= x
    ensures i == |ordered| - 1 ==> forall x | x in values :: x <= ordered[i]
  {
    assert ordered[i] in multiset(ordered);
    forall x | x in values ensures exists j :: 0 <= j < |ordered| && ordered[j] == x {
      assert x in multiset(values);
      assert x in multiset(ordered);
      assert x in ordered;
    }
  }

  /** A higher percentile is never lower; in particular p50 <= p95. */
  lemma PercentilesRise(values: seq<real>, low: real, high: real)
    requires low <= high
    ensures Percentile(values, low) <= Percentile(values, high)
    ensures Percentile(values, 50.0) <= Percentile(values, 95.0)
  {
    if values != [] {
      SortedRises(values);
      RankGrows(|values|, low, high);
      RankGrows(|values|, 50.0, 95.0);
      hide SortDesc, Rank;
    }
  }
}
