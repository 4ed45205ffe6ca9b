/** ml-service/app/embeddings/chunking.py: the two-level splitter, the hard split and the
    greedy packer that carries the tail of each finished chunk into the next one. */
module Chunking {
  import opened Collections
  import opened Text

  // ---------------------------------------------------------------- separators

  /** The two separator patterns: \n\s*\n and (?<=[.!?])\s+ . */
  datatype Separator = ParagraphBreak | SentenceBreak

  predicate IsTerminator(c: char) {
    c == '.' || c == '!' || c == '?'
  }

  /** s[i..e] is a word of the separator's language, in its context. */
  predicate Matches(sep: Separator, s: string, i: nat, e: nat) {
    && i < e <= |s|
    && NonSpace(s[i..e]) == ""
    && match sep
       case ParagraphBreak => i + 2 <= e && s[i] == '\n' && s[e - 1] == '\n'
       case SentenceBreak => 0 < i && IsTerminator(s[i - 1])
  }

  /** End of the match starting at `i`, trying the longest candidate first, as greedy repetition does. */
  function MatchEnd(sep: Separator, s: string, i: nat, e: nat): (r: Option<nat>)
    requires e <= |s|
    ensures r.Some? ==> Matches(sep, s, i, r.value) && r.value <= e
    ensures forall e': nat :: r.None? && e' <= e ==> !Matches(sep, s, i, e')
    ensures forall e': nat :: r.Some? && r.value < e' <= e ==> !Matches(sep, s, i, e')
  {
    if Matches(sep, s, i, e) then Some(e)
    else if e == 0 then None
    else MatchEnd(sep, s, i, e - 1)
  }

  /** `re.split`: the pieces between successive leftmost matches; `start` opens the current piece. */
  function SplitFrom(sep: Separator, s: string, start: nat, i: nat): (r: seq<string>)
    requires start <= i <= |s|
    decreases |s| - i
  {
    if i == |s| then [s[start..]]
    else
      match MatchEnd(sep, s, i, |s|)
      case Some(e) => [s[start..i]] + SplitFrom(sep, s, e, e)
      case None => SplitFrom(sep, s, start, i + 1)
  }

  function Split(sep: Separator, s: string): seq<string> {
    SplitFrom(sep, s, 0, 0)
  }

  lemma {:induction false} SplitConserves(sep: Separator, s: string, start: nat, i: nat)
    requires start <= i <= |s|
    ensures NonSpaceAll(SplitFrom(sep, s, start, i)) == NonSpace(s[start..])
    decreases |s| - i
  {
    hide NonSpace;
    if i == |s| {
      assert NonSpaceAll([s[start..]][1..]) == "";
    } else {
      match MatchEnd(sep, s, i, |s|)
      case Some(e) =>
        var rest := SplitFrom(sep, s, e, e);
        SplitConserves(sep, s, e, e);
        assert ([s[start..i]] + rest)[1..] == rest;
        assert s[start..] == s[start..i] + s[i..e] + s[e..];
        NonSpaceConcat(s[start..i] + s[i..e], s[e..]);
        NonSpaceConcat(s[start..i], s[i..e]);
      case None =>
        SplitConserves(sep, s, start, i + 1);
    }
  }

  // ---------------------------------------------------------------- units

  /** `_hard_split`: consecutive slices of `size` characters. */
  function HardSplit(text: string, size: nat): seq<string>
    requires size > 0
    decreases |text|
  {
    if text == "" then []
    else if |text| <= size then [text]
    else [text[..size]] + HardSplit(text[size..], size)
  }

  lemma {:induction false} HardSplitSpec(text: string, size: nat)
    requires size > 0
    ensures NonSpaceAll(HardSplit(text, size)) == NonSpace(text)
    ensures forall u | u in HardSplit(text, size) :: 0 < |u| <= size
    ensures text != "" ==> HardSplit(text, size) != [] && HardSplit(text, size)[0] <= text
    decreases |text|
  {
    assert NonSpace("") == "";
    hide NonSpace;
    if text == "" {
    } else if |text| <= size {
      assert NonSpaceAll([text]) == NonSpace(text) + NonSpaceAll([]);
    } else {
      var rest := HardSplit(text[size..], size);
      HardSplitSpec(text[size..], size);
      assert ([text[..size]] + rest)[1..] == rest;
      assert text == text[..size] + text[size..];
      NonSpaceConcat(text[..size], text[size..]);
    }
  }

  /** Units of one raw sentence. */
  function SentenceUnits(sentence: string, size: nat): seq<string>
    requires size > 0
  {
    var t := Strip(sentence);
    if t == "" then [] else if |t| <= size then [t] else HardSplit(t, size)
  }

  function SentencesUnits(sentences: seq<string>, size: nat): seq<string>
    requires size > 0
  {
    if sentences == [] then []
    else SentencesUnits(sentences[..|sentences| - 1], size) + SentenceUnits(sentences[|sentences| - 1], size)
  }

  lemma SentencesUnitsStep(sentences: seq<string>, j: nat, size: nat)
    requires size > 0 && j < |sentences|
    ensures SentencesUnits(sentences[..j + 1], size)
            == SentencesUnits(sentences[..j], size) + SentenceUnits(sentences[j], size)
  {
    hide SentenceUnits;
    assert sentences[..j + 1][..j] == sentences[..j];
  }

  /** Units of one raw paragraph. */
  function ParagraphUnits(paragraph: string, size: nat): seq<string>
    requires size > 0
  {
    var p := Strip(paragraph);
    if p == "" then [] else if |p| <= size then [p] else SentencesUnits(Split(SentenceBreak, p), size)
  }

  function ParagraphsUnits(paragraphs: seq<string>, size: nat): seq<string>
    requires size > 0
  {
    if paragraphs == [] then []
    else ParagraphsUnits(paragraphs[..|paragraphs| - 1], size) + ParagraphUnits(paragraphs[|paragraphs| - 1], size)
  }

  lemma ParagraphsUnitsStep(paragraphs: seq<string>, i: nat, size: nat)
    requires size > 0 && i < |paragraphs|
    ensures ParagraphsUnits(paragraphs[..i + 1], size)
            == ParagraphsUnits(paragraphs[..i], size) + ParagraphUnits(paragraphs[i], size)
  {
    hide ParagraphUnits;
    assert paragraphs[..i + 1][..i] == paragraphs[..i];
  }

  predicate UnitsFit(units: seq<string>, size: nat) {
    forall u | u in units :: 0 < |u| <= size
  }

  lemma UnitsFitTail(units: seq<string>, n: nat, size: nat)
    requires n < |units| && UnitsFit(units, size)
    ensures UnitsFit(units[n..], size) && 0 < |units[n]| <= size
  {
  }

  /** What the packer relies on: units fit the budget and the first one starts with content. */
  predicate PackableUnits(units: seq<string>, size: nat) {
    && UnitsFit(units, size)
    && (units != [] ==> !IsSpace(units[0][0]))
  }

  lemma NoUnits(size: nat)
    requires size > 0
    ensures SentencesUnits([], size) == [] && ParagraphsUnits([], size) == []
  {
  }

  lemma NoUnitsArePackable(size: nat)
    ensures PackableUnits([], size)
  {
  }

  lemma PackableConcat(a: seq<string>, b: seq<string>, size: nat)
    requires PackableUnits(a, size) && PackableUnits(b, size)
    ensures PackableUnits(a + b, size)
  {
    hide IsSpace;
    if a == [] { assert a + b == b; }
  }

  lemma SentenceUnitsSpec(sentence: string, size: nat)
    requires size > 0
    ensures PackableUnits(SentenceUnits(sentence, size), size)
    ensures NonSpaceAll(SentenceUnits(sentence, size)) == NonSpace(sentence)
  {
    hide IsSpace, NonSpace, Strip;
    var t := Strip(sentence);
    StripConserves(sentence);
    assert NonSpaceAll([t]) == NonSpace(t) + NonSpaceAll([]);
    HardSplitSpec(t, size);
  }

  lemma {:induction false} SentencesUnitsSpec(sentences: seq<string>, size: nat)
    requires size > 0
    ensures PackableUnits(SentencesUnits(sentences, size), size)
    ensures NonSpaceAll(SentencesUnits(sentences, size)) == NonSpaceAll(sentences)
  {
    hide NonSpace, PackableUnits, SentenceUnits;
    if sentences == [] {
      NoUnitsArePackable(size);
    } else {
      var init, last := sentences[..|sentences| - 1], sentences[|sentences| - 1];
      SentencesUnitsSpec(init, size);
      SentenceUnitsSpec(last, size);
      PackableConcat(SentencesUnits(init, size), SentenceUnits(last, size), size);
      NonSpaceAllConcat(SentencesUnits(init, size), SentenceUnits(last, size));
      NonSpaceAllConcat(init, [last]);
      assert sentences == init + [last] && [last][1..] == [];
    }
  }

  lemma ParagraphUnitsSpec(paragraph: string, size: nat)
    requires size > 0
    ensures PackableUnits(ParagraphUnits(paragraph, size), size)
    ensures NonSpaceAll(ParagraphUnits(paragraph, size)) == NonSpace(paragraph)
  {
    hide IsSpace, NonSpace, Strip, SplitFrom;
    var p := Strip(paragraph);
    StripConserves(paragraph);
    assert NonSpaceAll([p]) == NonSpace(p) + NonSpaceAll([]);
    SentencesUnitsSpec(Split(SentenceBreak, p), size);
    SplitConserves(SentenceBreak, p, 0, 0);
    assert p[0..] == p;
  }

  lemma {:induction false} ParagraphsUnitsSpec(paragraphs: seq<string>, size: nat)
    requires size > 0
    ensures PackableUnits(ParagraphsUnits(paragraphs, size), size)
    ensures NonSpaceAll(ParagraphsUnits(paragraphs, size)) == NonSpaceAll(paragraphs)
  {
    hide NonSpace, PackableUnits, ParagraphUnits;
    if paragraphs == [] {
      NoUnitsArePackable(size);
    } else {
      var init, last := paragraphs[..|paragraphs| - 1], paragraphs[|paragraphs| - 1];
      ParagraphsUnitsSpec(init, size);
      ParagraphUnitsSpec(last, size);
      PackableConcat(ParagraphsUnits(init, size), ParagraphUnits(last, size), size);
      NonSpaceAllConcat(ParagraphsUnits(init, size), ParagraphUnits(last, size));
      NonSpaceAllConcat(init, [last]);
      assert paragraphs == init + [last] && [last][1..] == [];
    }
  }

  // ---------------------------------------------------------------- packing

  /** `str.find(" ")`. */
  function FindBlank(s: string): (r: int)
    ensures -1 <= r < |s|
    ensures r >= 0 ==> s[r] == ' ' && ' ' !in s[..r]
    ensures r == -1 ==> ' ' !in s
  {
    if s == "" then -1
    else if s[0] == ' ' then 0
    else
      var k := FindBlank(s[1..]);
      assert k >= 0 ==> s[..k + 1] == [s[0]] + s[1..][..k];
      assert s == [s[0]] + s[1..];
      if k == -1 then -1 else k + 1
  }

  /** The tail is empty without overlap, the whole of a short text, and else the last `overlap` characters from
      behind their first blank on, if they have one. */
  predicate IsOverlapTail(text: string, overlap: nat, tail: string) {
    && |tail| <= |text| && tail == text[|text| - |tail|..]
    && (overlap == 0 ==> tail == "")
    && (0 < overlap && |text| <= overlap ==> tail == text)
    && (0 < overlap < |text| ==>
          var cut, before := text[|text| - overlap..], |text| - |tail| - 1;
          if ' ' !in cut then tail == cut
          else |tail| < overlap && text[before] == ' ' && ' ' !in text[|text| - overlap..before])
  }

  /** `_overlap_tail`: the last `overlap` characters, snapped forward past the first blank. */
  function OverlapTail(text: string, overlap: nat): (tail: string)
    ensures |tail| <= overlap && IsOverlapTail(text, overlap, tail)
    // The tail never stops short of the end: a stripped longer text keeps its last character.
    ensures overlap > 0 && text != "" && !IsSpace(text[|text| - 1]) ==> tail != ""
  {
    if overlap == 0 then ""
    else if |text| <= overlap then text
    else
      var tail := text[|text| - overlap..];
      assert tail[|tail| - 1] == text[|text| - 1];
      var blank := FindBlank(tail);
      if blank == -1 then tail
      else
        assert text[|text| - overlap..][..blank] == text[|text| - overlap..|text| - overlap + blank];
        tail[blank + 1..]
  }

  /** The text of the chunk being built after `unit` joins it. */
  function Candidate(current: string, unit: string): string {
    if current != "" then Strip(current + " " + unit) else unit
  }

  /** The chunk opened by `unit` after `closed` was emitted. */
  function Reopened(closed: string, unit: string, overlap: nat): string {
    Strip(OverlapTail(closed, overlap) + " " + unit)
  }

  /** The chunks the loop of `_pack` still emits from `current` and the remaining units. */
  function PackFrom(units: seq<string>, current: string, size: nat, overlap: nat): seq<string> {
    if units == [] then (if current != "" then [current] else [])
    else
      var candidate := Candidate(current, units[0]);
      if |candidate| <= size then PackFrom(units[1..], candidate, size, overlap)
      else if current != "" then
        [current] + PackFrom(units[1..], Reopened(current, units[0], overlap), size, overlap)
      else PackFrom(units[1..], units[0], size, overlap)
  }

  // Conservation -----------------------------------------------------------

  /** Each chunk's content is that of its predecessor's overlap tail (`carried` for the first)
      followed by a fresh part, and the fresh parts concatenate, in order, to `content`. */
  predicate Conserves(chunks: seq<string>, carried: string, content: string, overlap: nat) {
    if chunks == [] then content == ""
    else
      var kept, all := NonSpace(carried), NonSpace(chunks[0]);
      && kept <= all
      && all[|kept|..] <= content
      && Conserves(chunks[1..], OverlapTail(chunks[0], overlap), content[|all| - |kept|..], overlap)
  }

  lemma CarryOver(head: string, rest: seq<string>, carried: string, added: string, content: string, overlap: nat)
    requires NonSpace(head) == NonSpace(carried) + added
    requires Conserves(rest, OverlapTail(head, overlap), content, overlap)
    ensures Conserves([head] + rest, carried, added + content, overlap)
  {
    hide NonSpace, OverlapTail;
    assert ([head] + rest)[1..] == rest;
    assert (added + content)[|added|..] == content;
    assert NonSpace(head)[|NonSpace(carried)|..] == added;
  }

  /** Packing loses, adds and reorders nothing: `added` is the part of `current` not carried over. */
  lemma {:induction false} PackConserves(
    units: seq<string>, current: string, carried: string, added: string, size: nat, overlap: nat)
    requires NonSpace(current) == NonSpace(carried) + added
    ensures Conserves(PackFrom(units, current, size, overlap), carried, added + NonSpaceAll(units), overlap)
    decreases |units|
  {
    hide *;
    if units == [] {
      PackedAll(current, carried, added, size, overlap);
    } else {
      var unit, rest := units[0], units[1..];
      var candidate, tail, next := Candidate(current, unit), OverlapTail(current, overlap),
        Reopened(current, unit, overlap);
      PackUnfold(units, current, size, overlap);
      JoinedContent(current, unit, overlap);
      NonSpaceAllUnfold(units);
      Associative(added, NonSpace(unit), NonSpaceAll(rest));
      Associative(NonSpace(carried), added, NonSpace(unit));
      if |candidate| <= size || current == "" {
        PackConserves(rest, candidate, carried, added + NonSpace(unit), size, overlap);
      } else {
        PackConserves(rest, next, tail, NonSpace(unit), size, overlap);
        CarryOver(current, PackFrom(rest, next, size, overlap), carried, added, NonSpaceAll(units), overlap);
      }
    }
  }

  lemma Associative(a: string, b: string, c: string)
    ensures (a + b) + c == a + (b + c)
  {
  }

  lemma PackedAll(current: string, carried: string, added: string, size: nat, overlap: nat)
    requires NonSpace(current) == NonSpace(carried) + added
    ensures Conserves(PackFrom([], current, size, overlap), carried, added + NonSpaceAll([]), overlap)
  {
    assert NonSpace("") == "" && added + NonSpaceAll([]) == added;
    if current != "" {
      CarryOver(current, [], carried, added, "", overlap);
      assert [current] + [] == [current];
    }
  }

  lemma PackUnfold(units: seq<string>, current: string, size: nat, overlap: nat)
    requires units != []
    ensures var candidate := Candidate(current, units[0]);
      PackFrom(units, current, size, overlap) ==
      if |candidate| <= size || current == "" then PackFrom(units[1..], candidate, size, overlap)
      else [current] + PackFrom(units[1..], Reopened(current, units[0], overlap), size, overlap)
  {
    hide Strip, OverlapTail;
  }

  lemma JoinedContent(current: string, unit: string, overlap: nat)
    ensures NonSpace(Candidate(current, unit)) == NonSpace(current) + NonSpace(unit)
    ensures NonSpace(Reopened(current, unit, overlap)) == NonSpace(OverlapTail(current, overlap)) + NonSpace(unit)
  {
    assert NonSpace("") == "";
    hide NonSpace, Strip, OverlapTail;
    NonSpaceJoin(current, unit);
    NonSpaceJoin(OverlapTail(current, overlap), unit);
  }

  lemma NonSpaceAllUnfold(units: seq<string>)
    requires units != []
    ensures NonSpaceAll(units) == NonSpace(units[0]) + NonSpaceAll(units[1..])
  {
  }

  // Length and content -----------------------------------------------------

  /** The budget a finished chunk may reach: one carried tail and one blank above `size`. */
  function LengthBound(size: nat, overlap: nat): nat {
    if overlap == 0 then size else size + overlap + 1
  }

  /** What `current` satisfies at every turn of the loop once a unit was taken. */
  predicate GoodCurrent(current: string, size: nat, overlap: nat) {
    && NonSpace(current) != ""
    && |current| <= LengthBound(size, overlap)
    && (|current| > size ==> IsStripped(current))
  }

  /** Without overlap a reopened chunk is no longer than its unit. */
  lemma ReopenedWithoutOverlap(current: string, unit: string)
    ensures |Reopened(current, unit, 0)| <= |unit|
  {
    var s := OverlapTail(current, 0) + " " + unit;
    assert s == " " + unit && s[..1] == " " && s[|s|..] == "";
    assert NonSpace(" ") == "" && NonSpace("") == "";
    StripIsShortest(s, 1, |s|);
  }

  /** A blank unit overflows only a `current` that is over the budget already. */
  lemma BlankUnitAddsNothing(current: string, unit: string)
    requires NonSpace(unit) == ""
    ensures |Strip(current + " " + unit)| <= |current|
  {
    var s := current + " " + unit;
    assert s[|current|..] == " " + unit && s[..0] == "";
    assert NonSpace(" ") == "" && NonSpace("") == "";
    NonSpaceConcat(" ", unit);
    StripIsShortest(s, 0, |current|);
  }

  /** The tail of a text that ends in content carries content. */
  lemma TailHasContent(current: string, overlap: nat)
    requires overlap > 0 && current != "" && !IsSpace(current[|current| - 1])
    ensures NonSpace(OverlapTail(current, overlap)) != ""
  {
    hide IsSpace, NonSpace;
    var tail := OverlapTail(current, overlap);
    assert tail[|tail| - 1] == current[|current| - 1];
    NonSpaceEmpty(tail);
  }

  lemma CandidateIsGood(current: string, unit: string, size: nat, overlap: nat)
    requires NonSpace(current) != "" || (current == "" && NonSpace(unit) != "")
    requires |Candidate(current, unit)| <= size
    ensures GoodCurrent(Candidate(current, unit), size, overlap)
  {
    assert NonSpace("") == "";
    hide NonSpace, Strip;
    NonSpaceJoin(current, unit);
  }

  lemma ReopenedIsGood(current: string, unit: string, size: nat, overlap: nat)
    requires GoodCurrent(current, size, overlap)
    requires 0 < |unit| <= size && |Candidate(current, unit)| > size
    ensures GoodCurrent(Reopened(current, unit, overlap), size, overlap)
  {
    assert NonSpace("") == "";
    hide NonSpace, Strip, OverlapTail, IsSpace;
    NonSpaceJoin(OverlapTail(current, overlap), unit);
    if overlap == 0 {
      ReopenedWithoutOverlap(current, unit);
    }
    if NonSpace(unit) == "" {
      BlankUnitAddsNothing(current, unit);
      TailHasContent(current, overlap);
    }
  }

  predicate GoodChunks(chunks: seq<string>, size: nat, overlap: nat) {
    forall c | c in chunks :: NonSpace(c) != "" && |c| <= LengthBound(size, overlap)
  }

  lemma {:induction false} PackIsGood(units: seq<string>, current: string, size: nat, overlap: nat)
    requires UnitsFit(units, size)
    requires GoodCurrent(current, size, overlap) || (current == "" && PackableUnits(units, size))
    ensures GoodChunks(PackFrom(units, current, size, overlap), size, overlap)
    decreases |units|
  {
    if units != [] {
      assert NonSpace("") == "";
      assert current == "" ==> NonSpace(units[0]) != "";
      hide NonSpace, Strip, OverlapTail, IsSpace;
      var unit, rest := units[0], units[1..];
      assert unit in units;
      var candidate := Candidate(current, unit);
      if |candidate| <= size {
        CandidateIsGood(current, unit, size, overlap);
        PackIsGood(rest, candidate, size, overlap);
      } else {
        assert current != "";
        ReopenedIsGood(current, unit, size, overlap);
        PackIsGood(rest, Reopened(current, unit, overlap), size, overlap);
      }
    }
  }

  // Overlap ----------------------------------------------------------------

  /** The text begins with `lead`, which ends where a word ends. */
  predicate OpensWith(text: string, lead: string) {
    lead <= text && (lead != "" && |lead| < |text| ==> IsSpace(text[|lead|]))
  }

  /** The chunk opens with the overlap tail of the chunk before it, less the white space around it. */
  ghost predicate OpensWithTail(before: string, chunk: string, overlap: nat) {
    exists tail :: IsOverlapTail(before, overlap, tail) && OpensWith(chunk, Strip(tail))
  }

  lemma JoiningKeepsOpening(current: string, unit: string, lead: string)
    requires OpensWith(current, lead) && IsStripped(lead)
    ensures OpensWith(Strip(current + " " + unit), lead)
  {
    var s := current + " " + unit;
    hide Strip, NonSpace, IsSpace;
    var lo, hi := StripSpec(s);
    NonSpaceEmpty(s[..lo]);
    NonSpaceEmpty(s[hi..]);
    if lead != "" {
      assert s[0] == lead[0] && s[|lead| - 1] == lead[|lead| - 1];
      assert lo == 0 && hi >= |lead|;
      BlankIsSpace();
      assert Strip(s)[..|lead|] == s[..|lead|] == lead;
    }
  }

  lemma BlankIsSpace()
    ensures IsSpace(' ')
  {
  }

  lemma TailOpens(tail: string, unit: string)
    ensures OpensWith(Strip(tail + " " + unit), Strip(tail))
  {
    var s, lead := tail + " " + unit, Strip(tail);
    hide Strip, NonSpace, IsSpace;
    var from, to := StripSpec(tail);
    var lo, hi := StripSpec(s);
    NonSpaceEmpty(tail[..from]);
    NonSpaceEmpty(tail[to..]);
    NonSpaceEmpty(s[..lo]);
    NonSpaceEmpty(s[hi..]);
    if lead != "" {
      assert s[from] == lead[0] && s[to - 1] == lead[|lead| - 1];
      assert lo <= from && to <= hi;
      assert forall k | 0 <= k < from :: s[k] == tail[..from][k];
      assert Strip(s)[0] == s[lo] && lo == from;
      BlankIsSpace();
      assert s[from..to] == tail[from..to] == lead;
      assert Strip(s)[..|lead|] == s[from..to];
      assert to < |tail| ==> IsSpace(tail[to..][0]);
    }
  }

  /** Every chunk after the first opens with the tail of the one before it. */
  lemma {:induction false} PackOpens(units: seq<string>, current: string, lead: string, size: nat, overlap: nat)
    requires OpensWith(current, lead) && IsStripped(lead)
    ensures var chunks := PackFrom(units, current, size, overlap);
      && (chunks != [] ==> OpensWith(chunks[0], lead))
      && (forall i | 0 < i < |chunks| :: OpensWithTail(chunks[i - 1], chunks[i], overlap))
    decreases |units|
  {
    if units != [] {
      var unit, rest := units[0], units[1..];
      var next, tail := Reopened(current, unit, overlap), OverlapTail(current, overlap);
      StripConserves(tail);
      hide *;
      PackUnfold(units, current, size, overlap);
      if |Candidate(current, unit)| <= size || current == "" {
        CandidateOpens(current, unit, lead);
        PackOpens(rest, Candidate(current, unit), lead, size, overlap);
      } else {
        ReopenedOpens(current, unit, overlap);
        PackOpens(rest, next, Strip(tail), size, overlap);
        OneMoreOpens(current, PackFrom(rest, next, size, overlap), lead, overlap);
      }
    }
  }

  lemma CandidateOpens(current: string, unit: string, lead: string)
    requires OpensWith(current, lead) && IsStripped(lead)
    ensures OpensWith(Candidate(current, unit), lead)
  {
    JoiningKeepsOpening(current, unit, lead);
    hide Strip, IsSpace;
  }

  lemma ReopenedOpens(current: string, unit: string, overlap: nat)
    ensures OpensWith(Reopened(current, unit, overlap), Strip(OverlapTail(current, overlap)))
  {
    TailOpens(OverlapTail(current, overlap), unit);
    hide Strip, OverlapTail, OpensWith;
  }

  lemma OneMoreOpens(current: string, rest: seq<string>, lead: string, overlap: nat)
    requires OpensWith(current, lead)
    requires rest != [] ==> OpensWith(rest[0], Strip(OverlapTail(current, overlap)))
    requires forall i | 0 < i < |rest| :: OpensWithTail(rest[i - 1], rest[i], overlap)
    ensures var chunks := [current] + rest;
      && OpensWith(chunks[0], lead)
      && (forall i | 0 < i < |chunks| :: OpensWithTail(chunks[i - 1], chunks[i], overlap))
  {
    var tail := OverlapTail(current, overlap);
    assert rest != [] ==> OpensWithTail(current, rest[0], overlap) by {
      assert IsOverlapTail(current, overlap, tail);
    }
    hide OpensWith, OpensWithTail, Strip, OverlapTail, IsOverlapTail;
    var chunks := [current] + rest;
    forall i | 0 < i < |chunks| ensures OpensWithTail(chunks[i - 1], chunks[i], overlap) {
      assert chunks[i] == rest[i - 1] && (i > 1 ==> chunks[i - 1] == rest[i - 2]);
    }
  }

  // Greedy layout ----------------------------------------------------------

  /** The chunk made of `units`, opened by a carried tail unless it is the first chunk. */
  function Joined(carried: Option<string>, units: seq<string>): string
    requires units != []
  {
    if |units| == 1 then
      match carried
      case None => units[0]
      case Some(tail) => Strip(tail + " " + units[0])
    else
      Strip(Joined(carried, units[..|units| - 1]) + " " + units[|units| - 1])
  }

  /** The first `n` units go into one chunk: each unit after the first still fitted. */
  predicate Fits(units: seq<string>, carried: Option<string>, n: nat, size: nat) {
    && 1 <= n <= |units|
    && forall j: nat :: 1 < j <= n ==> |Joined(carried, units[..j])| <= size
  }

  /** The first `n` units make up one chunk: they fit, and the unit after them, if any, would not. */
  predicate ClosesAt(units: seq<string>, carried: Option<string>, n: nat, size: nat) {
    && Fits(units, carried, n, size)
    && (n < |units| ==> |Joined(carried, units[..n + 1])| > size)
  }

  /** Reference definition of the packing by cut points, independent of the loop. */
  ghost predicate GreedyLayout(
    units: seq<string>, carried: Option<string>, chunks: seq<string>, size: nat, overlap: nat)
    decreases |chunks|, 1
  {
    if chunks == [] then units == []
    else exists n: nat :: FirstCut(units, carried, chunks, n, size, overlap)
  }

  /** The first chunk is made of the first `n` units; the rest is laid out behind its tail. */
  ghost predicate FirstCut(
    units: seq<string>, carried: Option<string>, chunks: seq<string>, n: nat, size: nat, overlap: nat)
    requires chunks != []
    decreases |chunks|, 0
  {
    && ClosesAt(units, carried, n, size)
    && chunks[0] == Joined(carried, units[..n])
    && GreedyLayout(units[n..], Some(OverlapTail(chunks[0], overlap)), chunks[1..], size, overlap)
  }

  lemma CloseChunk(units: seq<string>, n: nat, carried: Option<string>, chunks: seq<string>, size: nat, overlap: nat)
    requires ClosesAt(units, carried, n, size)
    requires GreedyLayout(
      units[n..], Some(OverlapTail(Joined(carried, units[..n]), overlap)), chunks, size, overlap)
    ensures GreedyLayout(units, carried, [Joined(carried, units[..n])] + chunks, size, overlap)
  {
    var all := [Joined(carried, units[..n])] + chunks;
    assert FirstCut(units, carried, all, n, size, overlap) by {
      assert all[0] == Joined(carried, units[..n]) && all[1..] == chunks;
      hide Joined, OverlapTail, ClosesAt, GreedyLayout;
    }
    hide FirstCut, Joined, OverlapTail, ClosesAt;
  }

  lemma CloseLast(units: seq<string>, carried: Option<string>, size: nat, overlap: nat)
    requires Fits(units, carried, |units|, size)
    ensures GreedyLayout(units, carried, [Joined(carried, units)], size, overlap)
  {
    assert units[..|units|] == units && units[|units|..] == [];
    hide Joined, OverlapTail;
    CloseChunk(units, |units|, carried, [], size, overlap);
    assert [Joined(carried, units)] + [] == [Joined(carried, units)];
  }

  lemma JoinedOne(closed: string, units: seq<string>, size: nat, overlap: nat)
    requires units != []
    ensures Joined(Some(OverlapTail(closed, overlap)), units[..1]) == Reopened(closed, units[0], overlap)
    ensures Fits(units, Some(OverlapTail(closed, overlap)), 1, size)
  {
    hide Strip, OverlapTail;
  }

  lemma JoinedStep(units: seq<string>, carried: Option<string>, n: nat, size: nat)
    requires Fits(units, carried, n, size) && n < |units| && Joined(carried, units[..n]) != ""
    ensures Joined(carried, units[..n + 1]) == Candidate(Joined(carried, units[..n]), units[n])
    ensures if |Joined(carried, units[..n + 1])| <= size then Fits(units, carried, n + 1, size)
            else ClosesAt(units, carried, n, size)
  {
    hide Strip;
    assert units[..n + 1][..n] == units[..n];
  }

  /** The units taken since the last chunk was closed are `units[..taken]`. */
  lemma {:induction false} PackIsGreedy(
    units: seq<string>, taken: nat, carried: Option<string>, current: string, size: nat, overlap: nat)
    requires UnitsFit(units, size) && Fits(units, carried, taken, size)
    requires current == Joined(carried, units[..taken]) && GoodCurrent(current, size, overlap)
    ensures GreedyLayout(units, carried, PackFrom(units[taken..], current, size, overlap), size, overlap)
    decreases |units| - taken
  {
    hide *;
    GoodHasContent(current, size, overlap);
    FitsWithin(units, carried, taken, size);
    if taken == |units| {
      PackNothing(current, size, overlap);
      assert units[taken..] == [];
      CloseLast(units, carried, size, overlap);
      assert units[..taken] == units;
    } else {
      var unit, rest := units[taken], units[taken..];
      assert rest[0] == unit && rest[1..] == units[taken + 1..];
      UnitsFitTail(units, taken, size);
      JoinedStep(units, carried, taken, size);
      PackUnfold(rest, current, size, overlap);
      if |Candidate(current, unit)| <= size {
        CandidateIsGood(current, unit, size, overlap);
        PackIsGreedy(units, taken + 1, carried, Candidate(current, unit), size, overlap);
      } else {
        var next := Reopened(current, unit, overlap);
        ReopenedIsGood(current, unit, size, overlap);
        JoinedOne(current, rest, size, overlap);
        PackIsGreedy(rest, 1, Some(OverlapTail(current, overlap)), next, size, overlap);
        CloseChunk(units, taken, carried, PackFrom(rest[1..], next, size, overlap), size, overlap);
      }
    }
  }

  lemma FitsWithin(units: seq<string>, carried: Option<string>, n: nat, size: nat)
    requires Fits(units, carried, n, size)
    ensures 1 <= n <= |units|
  {
    hide Joined;
  }

  lemma GoodHasContent(current: string, size: nat, overlap: nat)
    requires GoodCurrent(current, size, overlap)
    ensures current != "" && NonSpace(current) != ""
  {
    assert NonSpace("") == "";
  }

  lemma PackNothing(current: string, size: nat, overlap: nat)
    requires current != ""
    ensures PackFrom([], current, size, overlap) == [current]
  {
  }

  lemma ClosesOnce(units: seq<string>, carried: Option<string>, n: nat, m: nat, size: nat)
    requires ClosesAt(units, carried, n, size) && ClosesAt(units, carried, m, size)
    ensures n == m
  {
    hide Joined;
  }

  /** The reference definition determines the chunks. */
  lemma {:induction false} GreedyLayoutIsUnique(
    units: seq<string>, carried: Option<string>, a: seq<string>, b: seq<string>, size: nat, overlap: nat)
    requires GreedyLayout(units, carried, a, size, overlap)
    requires GreedyLayout(units, carried, b, size, overlap)
    ensures a == b
    decreases |a|
  {
    hide *;
    EmptyLayout(units, carried, a, size, overlap);
    EmptyLayout(units, carried, b, size, overlap);
    if a != [] && b != [] {
      var n := FirstChunk(units, carried, a, size, overlap);
      var m := FirstChunk(units, carried, b, size, overlap);
      ClosesOnce(units, carried, n, m, size);
      GreedyLayoutIsUnique(units[n..], Some(OverlapTail(a[0], overlap)), a[1..], b[1..], size, overlap);
      SameFirstAndRest(a, b);
    }
  }

  lemma SameFirstAndRest(a: seq<string>, b: seq<string>)
    requires a != [] && b != [] && a[0] == b[0] && a[1..] == b[1..]
    ensures a == b
  {
    assert a == [a[0]] + a[1..] && b == [b[0]] + b[1..];
  }

  lemma FirstChunk(
    units: seq<string>, carried: Option<string>, chunks: seq<string>, size: nat, overlap: nat)
    returns (n: nat)
    requires chunks != [] && GreedyLayout(units, carried, chunks, size, overlap)
    ensures 1 <= n <= |units|
    ensures ClosesAt(units, carried, n, size) && chunks[0] == Joined(carried, units[..n])
    ensures GreedyLayout(units[n..], Some(OverlapTail(chunks[0], overlap)), chunks[1..], size, overlap)
  {
    n := FirstCutOf(units, carried, chunks, size, overlap);
    hide Joined, OverlapTail, GreedyLayout;
  }

  lemma FirstCutOf(
    units: seq<string>, carried: Option<string>, chunks: seq<string>, size: nat, overlap: nat)
    returns (n: nat)
    requires chunks != [] && GreedyLayout(units, carried, chunks, size, overlap)
    ensures FirstCut(units, carried, chunks, n, size, overlap)
  {
    hide FirstCut;
    n :| FirstCut(units, carried, chunks, n, size, overlap);
  }

  lemma EmptyLayout(units: seq<string>, carried: Option<string>, chunks: seq<string>, size: nat, overlap: nat)
    requires GreedyLayout(units, carried, chunks, size, overlap)
    ensures chunks == [] <==> units == []
  {
    if chunks != [] {
      var n := FirstChunk(units, carried, chunks, size, overlap);
    }
    hide FirstCut;
  }

  // ---------------------------------------------------------------- the chunker

  datatype Chunk = Chunk(text: string, index: nat, contentHash: string)

  datatype ChunkerError = SizeNotPositive | OverlapOutOfRange

  datatype Chunker = Chunker(size: nat, overlap: nat) {

    predicate Valid() {
      overlap < size
    }

    /** `__init__`: both arguments are checked, the size first. */
    static function Create(size: int, overlap: int): (r: Result<Chunker, ChunkerError>)
      ensures r.Ok? <==> 0 <= overlap < size
      ensures r.Ok? ==> r.value.Valid() && r.value.size == size && r.value.overlap == overlap
      ensures r == Err(SizeNotPositive) <==> size <= 0
    {
      if size <= 0 then Err(SizeNotPositive)
      else if overlap < 0 || overlap >= size then Err(OverlapOutOfRange)
      else Ok(Chunker(size, overlap))
    }

    method SplitIntoUnits(text: string) returns (units: seq<string>)
      requires Valid()
      ensures units == ParagraphsUnits(Split(ParagraphBreak, text), size)
      ensures PackableUnits(units, size)
      ensures NonSpaceAll(units) == NonSpace(text)
    {
      hide IsSpace, NonSpace, Strip, SplitFrom, HardSplit, PackableUnits, SentencesUnits, ParagraphsUnits;
      NoUnits(size);
      units := [];
      var paragraphs := Split(ParagraphBreak, text);
      for i := 0 to |paragraphs|
        invariant units == ParagraphsUnits(paragraphs[..i], size)
      {
        ParagraphsUnitsStep(paragraphs, i, size);
        ghost var before := units;
        var paragraph := Strip(paragraphs[i]);
        if paragraph == "" {
          continue;
        }
        if |paragraph| <= size {
          units := units + [paragraph];
          continue;
        }
        var sentences := Split(SentenceBreak, paragraph);
        for j := 0 to |sentences|
          invariant units == before + SentencesUnits(sentences[..j], size)
        {
          SentencesUnitsStep(sentences, j, size);
          var sentence := Strip(sentences[j]);
          if sentence == "" {
            continue;
          }
          if |sentence| <= size {
            units := units + [sentence];
          } else {
            units := units + HardSplit(sentence, size);
          }
        }
        assert sentences[..|sentences|] == sentences;
      }
      assert paragraphs[..|paragraphs|] == paragraphs;
      ParagraphsUnitsSpec(paragraphs, size);
      SplitConserves(ParagraphBreak, text, 0, 0);
      assert text[0..] == text;
    }

    method Pack(units: seq<string>) returns (chunks: seq<string>)
      requires Valid()
      ensures chunks == PackFrom(units, "", size, overlap)
    {
      hide Strip, OverlapTail;
      chunks := [];
      var current := "";
      for i := 0 to |units|
        invariant chunks + PackFrom(units[i..], current, size, overlap) == PackFrom(units, "", size, overlap)
      {
        var unit := units[i];
        assert units[i..][1..] == units[i + 1..];
        var candidate := if current != "" then Strip(current + " " + unit) else unit;
        if |candidate| <= size {
          current := candidate;
          continue;
        }
        if current != "" {
          chunks := chunks + [current];
          current := Strip(OverlapTail(current, overlap) + " " + unit);
        } else {
          current := unit;
        }
      }
      if current != "" {
        chunks := chunks + [current];
      }
    }

    /** `chunk`: the chunk texts conserve the content of `text`, overlap as configured, respect
        the length bound, all carry content and are the unique greedy layout of the units. */
    method Chunks(text: string, hash: string -> string) returns (chunks: seq<Chunk>)
      requires Valid()
      ensures chunks == Numbered(Texts(chunks), hash)
      ensures Texts(chunks) == ChunkTexts(text, size, overlap)
      ensures forall i | 0 <= i < |chunks| :: chunks[i].index == i && chunks[i].contentHash == hash(chunks[i].text)
      ensures forall i | 0 < i < |chunks| :: OpensWithTail(chunks[i - 1].text, chunks[i].text, overlap)
      ensures Conserves(Texts(chunks), "", NonSpace(text), overlap)
      ensures GoodChunks(Texts(chunks), size, overlap)
      ensures GreedyLayout(UnitsOf(Strip(text), size), None, Texts(chunks), size, overlap)
      ensures chunks == [] <==> NonSpace(text) == ""
    {
      ChunkTextsSpec(text, size, overlap);
      hide IsSpace, NonSpace, Strip, ParagraphsUnits, PackFrom, GreedyLayout, Conserves, OverlapTail, GoodChunks,
        OpensWithTail, Numbered, Texts;
      var stripped := Strip(text);
      if stripped == "" {
        chunks := Numbered([], hash);
        NumberedTexts([], hash);
      } else {
        var units := SplitIntoUnits(stripped);
        var packed := Pack(units);
        chunks := Numbered(packed, hash);
        NumberedTexts(packed, hash);
      }
    }
  }

  function Texts(chunks: seq<Chunk>): seq<string> {
    seq(|chunks|, i requires 0 <= i < |chunks| => chunks[i].text)
  }

  /** The chunk list for given texts: positions counted from 0, hashes of the texts. */
  function Numbered(texts: seq<string>, hash: string -> string): seq<Chunk> {
    seq(|texts|, i requires 0 <= i < |texts| => Chunk(texts[i], i, hash(texts[i])))
  }

  lemma NumberedTexts(texts: seq<string>, hash: string -> string)
    ensures Texts(Numbered(texts, hash)) == texts
    ensures Numbered(texts, hash) == [] <==> texts == []
    ensures forall i | 0 <= i < |texts| :: Numbered(texts, hash)[i] == Chunk(texts[i], i, hash(texts[i]))
    ensures |Numbered(texts, hash)| == |texts|
  {
  }

  function UnitsOf(text: string, size: nat): seq<string>
    requires size > 0
  {
    ParagraphsUnits(Split(ParagraphBreak, text), size)
  }

  /** The chunk texts as a function of the input. */
  function ChunkTexts(text: string, size: nat, overlap: nat): seq<string>
    requires size > 0
  {
    if Strip(text) == "" then [] else PackFrom(UnitsOf(Strip(text), size), "", size, overlap)
  }

  lemma SplitOfEmpty(size: nat)
    requires size > 0
    ensures UnitsOf("", size) == []
  {
    assert Split(ParagraphBreak, "") == [""];
    assert Strip("") == "";
    assert ParagraphUnits("", size) == [];
    assert [""][..0] == [];
    assert ParagraphsUnits([""], size) == ParagraphsUnits([], size) + ParagraphUnits("", size);
  }

  /** Packing the units of a text: good chunks in the greedy layout. */
  lemma PackSpec(units: seq<string>, size: nat, overlap: nat)
    requires PackableUnits(units, size)
    ensures GoodChunks(PackFrom(units, "", size, overlap), size, overlap)
    ensures GreedyLayout(units, None, PackFrom(units, "", size, overlap), size, overlap)
  {
    PackIsGood(units, "", size, overlap);
    if units != [] {
      assert units[0] in units;
      assert units[..1] == [units[0]];
      assert GoodCurrent(units[0], size, overlap);
      PackIsGreedy(units, 1, None, units[0], size, overlap);
      assert PackFrom(units, "", size, overlap) == PackFrom(units[1..], units[0], size, overlap);
    }
  }

  /** Chunking conserves content, bounds every chunk and is greedy, for every text and budget. */
  lemma ChunkTextsSpec(text: string, size: nat, overlap: nat)
    requires overlap < size
    ensures Conserves(ChunkTexts(text, size, overlap), "", NonSpace(text), overlap)
    ensures GoodChunks(ChunkTexts(text, size, overlap), size, overlap)
    ensures GreedyLayout(UnitsOf(Strip(text), size), None, ChunkTexts(text, size, overlap), size, overlap)
    ensures ChunkTexts(text, size, overlap) == [] <==> NonSpace(text) == ""
    ensures var chunks := ChunkTexts(text, size, overlap);
      forall i | 0 < i < |chunks| :: OpensWithTail(chunks[i - 1], chunks[i], overlap)
  {
    var stripped := Strip(text);
    var paragraphs := Split(ParagraphBreak, stripped);
    var units := UnitsOf(stripped, size);
    StripConserves(text);
    if stripped == "" {
      SplitOfEmpty(size);
    } else {
      ParagraphsUnitsSpec(paragraphs, size);
      SplitConserves(ParagraphBreak, stripped, 0, 0);
      assert stripped[0..] == stripped;
      PackSpec(units, size, overlap);
      assert NonSpace("") == "" && OpensWith("", "");
      hide OpensWith, OpensWithTail;
      PackOpens(units, "", "", size, overlap);
      hide NonSpace, Strip, ParagraphsUnits, PackFrom, GreedyLayout, OverlapTail, GoodChunks;
      PackConserves(units, "", "", "", size, overlap);
      assert "" + NonSpaceAll(units) == NonSpace(text);
    }
  }
}
