/** Where ml-service/app/embeddings/chunking.py cuts a text: which separators it removes, that it removes no
    more and no less, and which pieces stay whole. */
module ChunkCuts {
  import opened Collections
  import opened Text
  import opened Chunking

  // ---------------------------------------------------------------- pieces and what is cut out

  /** The pieces with the gaps between them put back. */
  function Interleaved(pieces: seq<string>, gaps: seq<string>): string
    requires |pieces| == |gaps| + 1
  {
    if gaps == [] then pieces[0] else pieces[0] + gaps[0] + Interleaved(pieces[1..], gaps[1..])
  }

  predicate AllSpace(s: string) {
    forall i | 0 <= i < |s| :: IsSpace(s[i])
  }

  /** Between pieces: a line break, white space and a line break, reaching as far as it can to both sides; or the
      white space behind a sentence's end, all of it. */
  predicate IsCut(sep: Separator, piece: string, gap: string, next: string) {
    && AllSpace(gap)
    && match sep
       case ParagraphBreak =>
         && |gap| >= 2 && gap[0] == '\n' && gap[|gap| - 1] == '\n'
         && (forall i | 0 <= i < |piece| && piece[i] == '\n' :: !AllSpace(piece[i..]))
         && (forall i | 0 <= i < |next| && next[i] == '\n' :: !AllSpace(next[..i]))
       case SentenceBreak =>
         && gap != "" && (next != "" ==> !IsSpace(next[0]))
         && piece != "" && piece[|piece| - 1] in ['.', '!', '?']
  }

  /** Within a piece: no line break followed by another with white space only between them; no sentence end
      followed by white space. */
  predicate IsUncut(sep: Separator, piece: string) {
    match sep
    case ParagraphBreak =>
      forall i, j | 0 <= i < j < |piece| && piece[i] == '\n' && piece[j] == '\n' :: !AllSpace(piece[i..j])
    case SentenceBreak =>
      forall i | 0 < i < |piece| && piece[i - 1] in ['.', '!', '?'] :: !IsSpace(piece[i])
  }

  // ---------------------------------------------------------------- matches

  lemma MatchMeans(sep: Separator, s: string, i: nat, e: nat)
    requires i < e <= |s|
    ensures Matches(sep, s, i, e) <==>
      && AllSpace(s[i..e])
      && match sep
         case ParagraphBreak => e - i >= 2 && s[i] == '\n' && s[e - 1] == '\n'
         case SentenceBreak => i > 0 && s[i - 1] in ['.', '!', '?']
  {
    hide IsSpace, NonSpace;
    NonSpaceEmpty(s[i..e]);
  }

  /** No match begins between `start` and `i`. */
  ghost predicate NoMatch(sep: Separator, s: string, start: nat, i: nat) {
    forall j: nat, e: nat | start <= j < i && e <= |s| :: !Matches(sep, s, j, e)
  }

  lemma SliceOfSlice(s: string, start: nat, i: nat, a: nat, b: nat)
    requires start <= i <= |s| && a <= b <= i - start
    ensures s[start..i][a..b] == s[start + a..start + b]
  {
    var x, y := s[start..i][a..b], s[start + a..start + b];
    assert |x| == |y|;
    forall k | 0 <= k < |x| ensures x[k] == y[k] {
      assert x[k] == s[start..i][a + k] == s[start + a + k];
    }
  }

  lemma UncutPiece(sep: Separator, s: string, start: nat, i: nat)
    requires start <= i <= |s| && NoMatch(sep, s, start, i)
    ensures IsUncut(sep, s[start..i])
  {
    hide Matches, IsSpace, AllSpace;
    var piece := s[start..i];
    match sep
    case ParagraphBreak =>
      forall a, b | 0 <= a < b < |piece| && piece[a] == '\n' && piece[b] == '\n' ensures !AllSpace(piece[a..b]) {
        MatchMeans(sep, s, start + a, start + b + 1);
        NewlineExtends(s, start + a, start + b);
        SliceOfSlice(s, start, i, a, b);
      }
    case SentenceBreak =>
      forall a | 0 < a < |piece| && piece[a - 1] in ['.', '!', '?'] ensures !IsSpace(piece[a]) {
        MatchMeans(sep, s, start + a, start + a + 1);
        OneSpace(s, start + a);
      }
  }

  lemma OneSpace(s: string, i: nat)
    requires i < |s|
    ensures AllSpace(s[i..i + 1]) <==> IsSpace(s[i])
  {
    hide IsSpace;
    assert s[i..i + 1] == [s[i]];
  }

  lemma NewlineExtends(s: string, i: nat, j: nat)
    requires i <= j < |s| && s[j] == '\n'
    ensures AllSpace(s[i..j + 1]) <==> AllSpace(s[i..j])
  {
    assert s[i..j + 1] == s[i..j] + ['\n'];
    assert IsSpace('\n');
    hide IsSpace;
    assert forall k | 0 <= k < j - i :: s[i..j + 1][k] == s[i..j][k];
  }

  lemma SpaceConcat(a: string, b: string)
    ensures AllSpace(a + b) <==> AllSpace(a) && AllSpace(b)
  {
    hide IsSpace;
    assert forall k | 0 <= k < |b| :: (a + b)[|a| + k] == b[k];
    assert forall k | 0 <= k < |a| :: (a + b)[k] == a[k];
  }

  /** The leftmost match, taken as long as possible, is a cut. */
  lemma MatchIsCut(sep: Separator, s: string, start: nat, i: nat, e: nat, next: string)
    requires start <= i && NoMatch(sep, s, start, i) && Matches(sep, s, i, e)
    requires forall e': nat | e < e' <= |s| :: !Matches(sep, s, i, e')
    requires next <= s[e..]
    requires sep == SentenceBreak && i == start ==> start == 0 || IsSpace(s[start - 1])
    ensures IsCut(sep, s[start..i], s[i..e], next)
  {
    MatchWithin(sep, s, i, e);
    hide Matches, IsSpace, AllSpace;
    MatchMeans(sep, s, i, e);
    match sep
    case ParagraphBreak =>
      LeftmostBreak(s, start, i, e);
      LongestBreak(s, i, e, next);
    case SentenceBreak =>
      TerminatorIsNoSpace();
      assert i > start;
      if next != "" {
        MatchMeans(sep, s, i, e + 1);
        assert s[i..e + 1] == s[i..e] + s[e..e + 1];
        SpaceConcat(s[i..e], s[e..e + 1]);
        OneSpace(s, e);
        assert next[0] == s[e..][0];
      }
  }

  lemma TerminatorIsNoSpace()
    ensures !IsSpace('.') && !IsSpace('!') && !IsSpace('?')
  {
  }

  lemma LeftmostBreak(s: string, start: nat, i: nat, e: nat)
    requires start <= i && NoMatch(ParagraphBreak, s, start, i) && Matches(ParagraphBreak, s, i, e)
    ensures forall a | 0 <= a < i - start && s[start..i][a] == '\n' :: !AllSpace(s[start..i][a..])
  {
    hide Matches, IsSpace, AllSpace;
    assert i < e <= |s| by { MatchWithin(ParagraphBreak, s, i, e); }
    MatchMeans(ParagraphBreak, s, i, e);
    forall a | 0 <= a < i - start && s[start..i][a] == '\n' ensures !AllSpace(s[start..i][a..]) {
      MatchMeans(ParagraphBreak, s, start + a, e);
      assert s[start + a..e] == s[start..i][a..] + s[i..e];
      SpaceConcat(s[start..i][a..], s[i..e]);
    }
  }

  lemma LongestBreak(s: string, i: nat, e: nat, next: string)
    requires Matches(ParagraphBreak, s, i, e) && e <= |s| && next <= s[e..]
    requires forall e': nat | e < e' <= |s| :: !Matches(ParagraphBreak, s, i, e')
    ensures forall a | 0 <= a < |next| && next[a] == '\n' :: !AllSpace(next[..a])
  {
    hide Matches, IsSpace, AllSpace;
    assert i < e by { MatchWithin(ParagraphBreak, s, i, e); }
    MatchMeans(ParagraphBreak, s, i, e);
    forall a | 0 <= a < |next| && next[a] == '\n' ensures !AllSpace(next[..a]) {
      MatchMeans(ParagraphBreak, s, i, e + a + 1);
      assert next[a] == s[e..][a] && next[..a] == s[e..e + a];
      assert s[i..e + a] == s[i..e] + s[e..e + a];
      SpaceConcat(s[i..e], s[e..e + a]);
      NewlineExtends(s, i, e + a);
    }
  }

  lemma MatchWithin(sep: Separator, s: string, i: nat, e: nat)
    requires Matches(sep, s, i, e)
    ensures i < e <= |s|
  {
  }

  // ---------------------------------------------------------------- splitting

  /** What splitting promises for the text from `start` on. */
  ghost predicate IsSplit(sep: Separator, text: string, pieces: seq<string>, gaps: seq<string>) {
    && |pieces| == |gaps| + 1
    && Interleaved(pieces, gaps) == text
    && (forall k | 0 <= k < |gaps| :: IsCut(sep, pieces[k], gaps[k], pieces[k + 1]))
    && (forall p | p in pieces :: IsUncut(sep, p))
  }

  lemma LastPiece(sep: Separator, text: string)
    requires IsUncut(sep, text)
    ensures IsSplit(sep, text, [text], [])
  {
  }

  lemma OneMorePiece(
    sep: Separator, text: string, piece: string, gap: string, rest: string, pieces: seq<string>, gaps: seq<string>)
    requires IsSplit(sep, rest, pieces, gaps) && text == piece + gap + rest
    requires IsUncut(sep, piece) && IsCut(sep, piece, gap, pieces[0])
    ensures IsSplit(sep, text, [piece] + pieces, [gap] + gaps)
  {
    hide IsCut, IsUncut;
    var all, cuts := [piece] + pieces, [gap] + gaps;
    assert all[1..] == pieces && cuts[1..] == gaps;
    forall k | 0 <= k < |cuts| ensures IsCut(sep, all[k], cuts[k], all[k + 1]) {
      assert k > 0 ==> all[k] == pieces[k - 1] && all[k + 1] == pieces[k] && cuts[k] == gaps[k - 1];
    }
  }

  lemma SplitUnfold(sep: Separator, s: string, start: nat, i: nat)
    requires start <= i <= |s|
    ensures i == |s| ==> SplitFrom(sep, s, start, i) == [s[start..]]
    ensures i < |s| ==> match MatchEnd(sep, s, i, |s|)
      case Some(e) =>
        && i < e <= |s| && Matches(sep, s, i, e)
        && (forall e': nat | e < e' <= |s| :: !Matches(sep, s, i, e'))
        && SplitFrom(sep, s, start, i) == [s[start..i]] + SplitFrom(sep, s, e, e)
      case None =>
        && (forall e': nat | e' <= |s| :: !Matches(sep, s, i, e'))
        && SplitFrom(sep, s, start, i) == SplitFrom(sep, s, start, i + 1)
  {
    hide NonSpace;
  }

  lemma NoneLeft(sep: Separator, s: string, start: nat)
    requires start <= |s| && NoMatch(sep, s, start, |s|)
    ensures IsSplit(sep, s[start..], [s[start..]], []) && [s[start..]][0] <= s[start..]
  {
    hide *;
    assert s[start..|s|] == s[start..];
    UncutPiece(sep, s, start, |s|);
    LastPiece(sep, s[start..]);
  }

  /** The next match cuts off one piece. */
  lemma CutOne(sep: Separator, s: string, start: nat, i: nat, e: nat, pieces: seq<string>, gaps: seq<string>)
    requires start <= i < e <= |s| && NoMatch(sep, s, start, i) && (start == 0 || IsSpace(s[start - 1]))
    requires Matches(sep, s, i, e) && forall e': nat | e < e' <= |s| :: !Matches(sep, s, i, e')
    requires pieces != [] && IsSplit(sep, s[e..], pieces, gaps) && pieces[0] <= s[e..]
    ensures var all := [s[start..i]] + pieces;
      IsSplit(sep, s[start..], all, [s[i..e]] + gaps) && all[0] <= s[start..]
  {
    hide *;
    UncutPiece(sep, s, start, i);
    MatchIsCut(sep, s, start, i, e, pieces[0]);
    ThreeParts(s, start, i, e);
    OneMorePiece(sep, s[start..], s[start..i], s[i..e], s[e..], pieces, gaps);
  }

  lemma {:induction false} SplitFromSpec(sep: Separator, s: string, start: nat, i: nat) returns (gaps: seq<string>)
    requires start <= i <= |s| && NoMatch(sep, s, start, i) && (start == 0 || IsSpace(s[start - 1]))
    ensures var pieces := SplitFrom(sep, s, start, i);
      pieces != [] && IsSplit(sep, s[start..], pieces, gaps) && pieces[0] <= s[start..]
    decreases |s| - i
  {
    hide *;
    SplitUnfold(sep, s, start, i);
    if i == |s| {
      gaps := [];
      NoneLeft(sep, s, start);
    } else {
      match MatchEnd(sep, s, i, |s|)
      case Some(e) =>
        NothingBetween(sep, s, e);
        SpaceBefore(sep, s, i, e);
        var rest := SplitFromSpec(sep, s, e, e);
        CutOne(sep, s, start, i, e, SplitFrom(sep, s, e, e), rest);
        gaps := [s[i..e]] + rest;
      case None =>
        OneFurther(sep, s, start, i);
        gaps := SplitFromSpec(sep, s, start, i + 1);
    }
  }

  lemma ThreeParts(s: string, start: nat, i: nat, e: nat)
    requires start <= i <= e <= |s|
    ensures s[start..] == s[start..i] + s[i..e] + s[e..] && s[start..i] <= s[start..]
  {
  }

  lemma NothingBetween(sep: Separator, s: string, e: nat)
    ensures NoMatch(sep, s, e, e)
  {
  }

  lemma SpaceBefore(sep: Separator, s: string, i: nat, e: nat)
    requires i < e <= |s| && Matches(sep, s, i, e)
    ensures IsSpace(s[e - 1])
  {
    MatchMeans(sep, s, i, e);
    assert s[i..e][e - 1 - i] == s[e - 1];
    hide IsSpace;
  }

  lemma OneFurther(sep: Separator, s: string, start: nat, i: nat)
    requires NoMatch(sep, s, start, i) && forall e: nat | e <= |s| :: !Matches(sep, s, i, e)
    ensures NoMatch(sep, s, start, i + 1)
  {
    hide Matches;
  }

  /** Splitting cuts out separators only, each as long as possible, and leaves none inside a piece. */
  lemma SplitSpec(sep: Separator, s: string) returns (gaps: seq<string>)
    ensures var pieces := Split(sep, s);
      && |pieces| == |gaps| + 1
      && Interleaved(pieces, gaps) == s
      && (forall k | 0 <= k < |gaps| :: IsCut(sep, pieces[k], gaps[k], pieces[k + 1]))
      && (forall p | p in pieces :: IsUncut(sep, p))
  {
    NothingBetween(sep, s, 0);
    gaps := SplitFromSpec(sep, s, 0, 0);
    assert s[0..] == s;
    hide IsCut, IsUncut, SplitFrom, Interleaved;
  }

  // ---------------------------------------------------------------- units

  /** A hard split slices: the slices concatenate to the text, and all but the last have the full size. */
  lemma {:induction false} HardSplitSlices(text: string, size: nat)
    requires size > 0
    ensures var slices := HardSplit(text, size);
      && Concat(slices) == text
      && (forall k | 0 <= k < |slices| :: 0 < |slices[k]| <= size && (k + 1 < |slices| ==> |slices[k]| == size))
    decreases |text|
  {
    if |text| > size {
      var head, rest := text[..size], HardSplit(text[size..], size);
      HardSplitSlices(text[size..], size);
      assert text == head + text[size..];
      ConcatCons(head, rest);
    } else if text != "" {
      assert [text][..0] == [];
      assert Concat([text]) == Concat([]) + text;
    }
  }

  lemma {:induction false} ParagraphsConcat(a: seq<string>, b: seq<string>, size: nat)
    requires size > 0
    ensures ParagraphsUnits(a + b, size) == ParagraphsUnits(a, size) + ParagraphsUnits(b, size)
  {
    hide *;
    NoUnits(size);
    if b == [] {
      assert a + b == a;
    } else {
      var n := |b| - 1;
      ParagraphsConcat(a, b[..n], size);
      ParagraphsUnitsStep(a + b, |a| + n, size);
      ParagraphsUnitsStep(b, n, size);
      assert (a + b)[..|a| + n] == a + b[..n] && (a + b)[..|a| + n + 1] == a + b && b[..n + 1] == b;
    }
  }

  lemma {:induction false} SentencesConcat(a: seq<string>, b: seq<string>, size: nat)
    requires size > 0
    ensures SentencesUnits(a + b, size) == SentencesUnits(a, size) + SentencesUnits(b, size)
  {
    hide *;
    NoUnits(size);
    if b == [] {
      assert a + b == a;
    } else {
      var n := |b| - 1;
      SentencesConcat(a, b[..n], size);
      SentencesUnitsStep(a + b, |a| + n, size);
      SentencesUnitsStep(b, n, size);
      assert (a + b)[..|a| + n] == a + b[..n] && (a + b)[..|a| + n + 1] == a + b && b[..n + 1] == b;
    }
  }

  lemma AroundOne(s: seq<string>, i: nat)
    requires i < |s|
    ensures s == s[..i] + [s[i]] + s[i + 1..]
  {
  }

  lemma UnitsOfOne(text: string, size: nat)
    requires size > 0
    ensures ParagraphsUnits([text], size) == ParagraphUnits(text, size)
    ensures SentencesUnits([text], size) == SentenceUnits(text, size)
  {
    hide ParagraphUnits, SentenceUnits;
    assert [text][..0] == [];
    assert [] + ParagraphUnits(text, size) == ParagraphUnits(text, size);
    assert [] + SentenceUnits(text, size) == SentenceUnits(text, size);
  }

  /** A paragraph that fits stays whole; a longer one contributes its sentences, in its place. */
  lemma ParagraphInPlace(paragraphs: seq<string>, i: nat, size: nat)
    requires size > 0 && i < |paragraphs|
    ensures var p, before, after := Strip(paragraphs[i]), paragraphs[..i], paragraphs[i + 1..];
      ParagraphsUnits(paragraphs, size)
      == ParagraphsUnits(before, size)
         + (if p == "" then [] else if |p| <= size then [p] else SentencesUnits(Split(SentenceBreak, p), size))
         + ParagraphsUnits(after, size)
  {
    hide Strip, SplitFrom, SentencesUnits;
    AroundOne(paragraphs, i);
    UnitsOfOne(paragraphs[i], size);
    ParagraphsConcat(paragraphs[..i] + [paragraphs[i]], paragraphs[i + 1..], size);
    ParagraphsConcat(paragraphs[..i], [paragraphs[i]], size);
  }

  /** A sentence that fits stays whole; a longer one is sliced, in its place. */
  lemma SentenceInPlace(sentences: seq<string>, i: nat, size: nat)
    requires size > 0 && i < |sentences|
    ensures var t, before, after := Strip(sentences[i]), sentences[..i], sentences[i + 1..];
      SentencesUnits(sentences, size)
      == SentencesUnits(before, size)
         + (if t == "" then [] else if |t| <= size then [t] else HardSplit(t, size))
         + SentencesUnits(after, size)
  {
    hide Strip, HardSplit;
    AroundOne(sentences, i);
    UnitsOfOne(sentences[i], size);
    SentencesConcat(sentences[..i] + [sentences[i]], sentences[i + 1..], size);
    SentencesConcat(sentences[..i], [sentences[i]], size);
  }
}
