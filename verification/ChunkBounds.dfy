/** The bounds of Chunking are reached: a chunk of every maximal length, and a branch of `_pack` that the
    splitter's output never takes. */
module ChunkBounds {
  import opened Text
  import opened Collections
  import opened Chunking

  /** The last `else` of `_pack` opens a chunk with a unit that is too long; the splitter makes no such unit,
      so whenever the candidate exceeds the size there is a chunk to close. */
  lemma OversizedUnitNeverOpens(text: string, size: nat, i: nat)
    requires size > 0 && i < |UnitsOf(Strip(text), size)|
    ensures |Candidate("", UnitsOf(Strip(text), size)[i])| <= size
  {
    var units := UnitsOf(Strip(text), size);
    ParagraphsUnitsSpec(Split(ParagraphBreak, Strip(text)), size);
    assert units[i] in units;
    hide Strip, ParagraphsUnits;
  }

  function Letters(n: nat): (s: string)
    ensures |s| == n && forall i | 0 <= i < n :: s[i] == 'a'
  {
    seq(n, i => 'a')
  }

  lemma LettersAre(s: string, n: nat)
    requires |s| == n && forall i | 0 <= i < n :: s[i] == 'a'
    ensures s == Letters(n)
  {
  }

  lemma NoMatchInLetters(sep: Separator, n: nat, i: nat)
    requires i <= n
    ensures MatchEnd(sep, Letters(n), i, n) == None
  {
    var s := Letters(n);
    forall e: nat | e <= n ensures !Matches(sep, s, i, e) {
      if i < e {
        NonSpaceEmpty(s[i..e]);
        assert s[i..e][0] == 'a';
      }
    }
    assert MatchEnd(sep, s, i, n).Some? ==> Matches(sep, s, i, MatchEnd(sep, s, i, n).value);
  }

  lemma {:induction false} LettersAreOnePiece(sep: Separator, n: nat, i: nat)
    requires i <= n
    ensures SplitFrom(sep, Letters(n), 0, i) == [Letters(n)]
    decreases n - i
  {
    if i == n {
      assert Letters(n)[0..] == Letters(n);
    } else {
      NoMatchInLetters(sep, n, i);
      LettersAreOnePiece(sep, n, i + 1);
    }
  }

  lemma AlreadyStripped(s: string)
    requires s != "" && !IsSpace(s[0]) && !IsSpace(s[|s| - 1])
    ensures Strip(s) == s
  {
    assert TrimLeft(s) == s && TrimRight(s) == s;
  }

  /** Twice the size of letters is hard-split into two units. */
  lemma TwoUnits(size: nat)
    requires size > 0
    ensures UnitsOf(Letters(2 * size), size) == [Letters(size), Letters(size)]
  {
    var text, half := Letters(2 * size), Letters(size);
    LettersAreOnePiece(ParagraphBreak, 2 * size, 0);
    LettersAreOnePiece(SentenceBreak, 2 * size, 0);
    AlreadyStripped(text);
    hide Strip, SplitFrom;
    LettersAre(text[..size], size);
    LettersAre(text[size..], size);
    assert HardSplit(text, size) == [half] + HardSplit(half, size) == [half, half];
    assert [text][..0] == [];
    assert SentencesUnits([text], size) == SentencesUnits([], size) + SentenceUnits(text, size) == [half, half];
    assert ParagraphsUnits([text], size) == ParagraphsUnits([], size) + ParagraphUnits(text, size) == [half, half];
  }

  /** The overlap tail of letters is the last letters. */
  lemma TailOfLetters(size: nat, overlap: nat)
    requires overlap < size
    ensures OverlapTail(Letters(size), overlap) == Letters(overlap)
  {
    var text := Letters(size);
    if overlap > 0 {
      LettersAre(text[size - overlap..], overlap);
      assert FindBlank(Letters(overlap)) == -1;
    }
  }

  lemma JoinedLength(size: nat, overlap: nat)
    requires size > 0
    ensures |Strip(Letters(overlap) + " " + Letters(size))| == if overlap == 0 then size else size + overlap + 1
    ensures Strip(Letters(size) + " " + Letters(size)) == Letters(size) + " " + Letters(size)
  {
    AlreadyStripped(Letters(size) + " " + Letters(size));
    if overlap == 0 {
      var s := Letters(0) + " " + Letters(size);
      assert s == " " + Letters(size) && s[1..] == Letters(size);
      assert TrimLeft(s) == TrimLeft(s[1..]) == Letters(size);
      assert TrimRight(Letters(size)) == Letters(size);
    } else {
      AlreadyStripped(Letters(overlap) + " " + Letters(size));
    }
  }

  /** For every size and overlap there is a text with a chunk as long as the bound allows. */
  lemma LongestChunk(size: nat, overlap: nat)
    requires overlap < size
    ensures var chunks := ChunkTexts(Letters(2 * size), size, overlap);
      |chunks| == 2 && |chunks[0]| == size && |chunks[1]| == LengthBound(size, overlap)
  {
    var text, unit := Letters(2 * size), Letters(size);
    AlreadyStripped(text);
    TwoUnits(size);
    TailOfLetters(size, overlap);
    JoinedLength(size, overlap);
    hide Strip, OverlapTail, ParagraphsUnits;
    var next := Reopened(unit, unit, overlap);
    PackUnfold([unit, unit], "", size, overlap);
    PackUnfold([unit], unit, size, overlap);
    assert [unit, unit][1..] == [unit] && [unit][1..] == [];
    assert |Candidate(unit, unit)| == 2 * size + 1;
    assert PackFrom([], next, size, overlap) == [next];
    assert PackFrom([unit, unit], "", size, overlap) == [unit] + [next];
  }
}
