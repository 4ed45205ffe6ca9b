/** The citation markers `[N]`: printing them, and scanning a text for them with the pattern
    \[(\d+)\] as ml-service/app/rag/citations.py and llm_client.py do. */
module Markers {
  import opened Collections

  /** The decimal digits of the character set: \d and `int` accept every Unicode digit, not only
      ASCII. The value of a digit, or -1. */
  datatype Digits = Digits(value: char -> int) {
    ghost predicate Valid() {
      && (forall c | '0' <= c <= '9' :: value(c) == c as int - '0' as int)
      && value('[') < 0 && value(']') < 0
    }

    predicate Is(c: char) {
      value(c) >= 0
    }
  }

  /** `int` of a string of digits. */
  function IntOf(d: Digits, s: string): nat {
    if s == "" then 0
    else
      var c := s[|s| - 1];
      10 * IntOf(d, s[..|s| - 1]) + if d.Is(c) then d.value(c) else 0
  }

  /** `str` of a natural number. */
  function Decimal(n: nat): string {
    (if n < 10 then "" else Decimal(n / 10)) + [DigitChar(n % 10)]
  }

  function DigitChar(n: nat): char
    requires n < 10
  {
    ('0' as int + n) as char
  }

  predicate AllDigits(d: Digits, s: string) {
    forall i | 0 <= i < |s| :: d.Is(s[i])
  }

  /** Printing and reading a number is the identity. */
  lemma {:induction false} DecimalReads(d: Digits, n: nat)
    requires d.Valid()
    ensures Decimal(n) != "" && AllDigits(d, Decimal(n)) && IntOf(d, Decimal(n)) == n
  {
    var last := DigitChar(n % 10);
    assert '0' <= last <= '9' && d.value(last) == n % 10;
    if n >= 10 {
      DecimalReads(d, n / 10);
      assert Decimal(n)[..|Decimal(n)| - 1] == Decimal(n / 10);
    } else {
      assert Decimal(n) == [last] && Decimal(n)[..0] == "";
      assert IntOf(d, "") == 0;
    }
  }

  function Marker(n: nat): string {
    "[" + Decimal(n) + "]"
  }

  // ---------------------------------------------------------------- scanning

  /** s[i..j + 1] is a marker. */
  predicate MarkerAt(d: Digits, s: string, i: nat, j: nat) {
    && i + 1 < j < |s|
    && s[i] == '[' && s[j] == ']'
    && forall k | i < k < j :: d.Is(s[k])
  }

  function DigitsEnd(d: Digits, s: string, i: nat): (e: nat)
    requires i <= |s|
    ensures i <= e <= |s|
    ensures forall k | i <= k < e :: d.Is(s[k])
    ensures e < |s| ==> !d.Is(s[e])
    decreases |s| - i
  {
    if i < |s| && d.Is(s[i]) then DigitsEnd(d, s, i + 1) else i
  }

  /** The closing bracket of the marker starting at `i`, if one does. */
  function MarkerEnd(d: Digits, s: string, i: nat): (r: Option<nat>)
    requires i < |s| && d.Valid()
    ensures r.Some? ==> MarkerAt(d, s, i, r.value)
    ensures forall j: nat :: r.None? ==> !MarkerAt(d, s, i, j)
  {
    if s[i] != '[' then None
    else
      var e := DigitsEnd(d, s, i + 1);
      if e > i + 1 && e < |s| && s[e] == ']' then Some(e)
      else
        assert forall j: nat | MarkerAt(d, s, i, j) :: !(j < e) && !(e < j);
        None
  }

  /** `findall`: the digit groups of successive leftmost, non-overlapping matches. */
  function FindAll(d: Digits, s: string, i: nat): seq<string>
    requires d.Valid()
    decreases |s| - i
  {
    if i >= |s| then []
    else
      match MarkerEnd(d, s, i)
      case Some(j) => [s[i + 1..j]] + FindAll(d, s, j + 1)
      case None => FindAll(d, s, i + 1)
  }

  /** The digits of some marker of `s` at or after `i`. */
  ghost predicate Marked(d: Digits, s: string, i: nat, group: string) {
    exists a: nat, j: nat :: i <= a && MarkerAt(d, s, a, j) && group == s[a + 1..j]
  }

  /** The non-overlapping scan misses no marker: none can start inside another one. */
  lemma {:induction false} FindAllSpec(d: Digits, s: string, i: nat)
    requires d.Valid()
    ensures forall g :: g in FindAll(d, s, i) <==> Marked(d, s, i, g)
    decreases |s| - i
  {
    if i < |s| {
      match MarkerEnd(d, s, i)
      case Some(j) =>
        FindAllSpec(d, s, j + 1);
        forall g ensures g in FindAll(d, s, i) <==> Marked(d, s, i, g) {
          MarkedAfter(d, s, i, j, g);
        }
      case None =>
        FindAllSpec(d, s, i + 1);
        forall g ensures Marked(d, s, i, g) <==> Marked(d, s, i + 1, g) {
          if Marked(d, s, i, g) {
            var a: nat, j: nat :| i <= a && MarkerAt(d, s, a, j) && g == s[a + 1..j];
            assert a != i;
          }
          if Marked(d, s, i + 1, g) {
            var a: nat, j: nat :| i + 1 <= a && MarkerAt(d, s, a, j) && g == s[a + 1..j];
            assert i <= a;
          }
        }
    }
  }

  lemma MarkedAfter(d: Digits, s: string, i: nat, j: nat, g: string)
    requires d.Valid() && MarkerAt(d, s, i, j)
    ensures Marked(d, s, i, g) <==> g == s[i + 1..j] || Marked(d, s, j + 1, g)
  {
    if Marked(d, s, i, g) {
      var a: nat, b: nat :| i <= a && MarkerAt(d, s, a, b) && g == s[a + 1..b];
      assert !d.Is(s[a]) && !d.Is(s[b]) && !d.Is(s[j]);
      assert a == i || j + 1 <= a;
      assert a == i ==> b == j;
    }
    if Marked(d, s, j + 1, g) {
      var a: nat, b: nat :| j + 1 <= a && MarkerAt(d, s, a, b) && g == s[a + 1..b];
      assert i <= a;
    }
  }

  /** `{int(n) for n in findall(s)}`. */
  function Cited(d: Digits, s: string): set<nat>
    requires d.Valid()
  {
    set g | g in FindAll(d, s, 0) :: IntOf(d, g)
  }

  /** A number is cited exactly when some marker of the text denotes it. */
  lemma CitedSpec(d: Digits, s: string, n: nat)
    requires d.Valid()
    ensures n in Cited(d, s) <==> exists i: nat, j: nat :: MarkerAt(d, s, i, j) && IntOf(d, s[i + 1..j]) == n
  {
    FindAllSpec(d, s, 0);
    if n in Cited(d, s) {
      var g :| g in FindAll(d, s, 0) && IntOf(d, g) == n;
      assert Marked(d, s, 0, g);
    }
    if i: nat, j: nat :| MarkerAt(d, s, i, j) && IntOf(d, s[i + 1..j]) == n {
      assert Marked(d, s, 0, s[i + 1..j]);
    }
  }

  // ---------------------------------------------------------------- composing texts

  /** A printed marker is found wherever it stands. */
  lemma MarkerIsCited(d: Digits, before: string, n: nat, after: string)
    requires d.Valid()
    ensures n in Cited(d, before + Marker(n) + after)
  {
    var digits := Decimal(n);
    DecimalReads(d, n);
    hide Decimal, IntOf, FindAll;
    BracketedDigits(d, before, digits, after);
    CitedSpec(d, before + Marker(n) + after, n);
  }

  /** Digits in brackets are a marker wherever they stand. */
  lemma BracketedDigits(d: Digits, before: string, digits: string, after: string)
    requires digits != "" && AllDigits(d, digits)
    ensures var s, i, j := before + ("[" + digits + "]") + after, |before|, |before| + 1 + |digits|;
      MarkerAt(d, s, i, j) && s[i + 1..j] == digits
  {
    var s, i, j := before + ("[" + digits + "]") + after, |before|, |before| + 1 + |digits|;
    assert |s| == |before| + |digits| + 2 + |after|;
    assert s[i] == '[' && s[j] == ']';
    assert s[i + 1..j] == digits;
    forall k | i < k < j ensures d.Is(s[k]) { assert s[k] == digits[k - i - 1]; }
  }

  lemma ShiftMarker(d: Digits, a: string, s: string, i: nat, j: nat)
    requires d.Valid() && |a| <= i
    ensures MarkerAt(d, a + s, i, j) <==> i - |a| < j - |a| && j >= |a| && MarkerAt(d, s, i - |a|, j - |a|)
    ensures MarkerAt(d, a + s, i, j) ==> (a + s)[i + 1..j] == s[i - |a| + 1..j - |a|]
  {
    if j >= |a| && MarkerAt(d, s, i - |a|, j - |a|) {
      forall k | i < k < j ensures d.Is((a + s)[k]) { assert (a + s)[k] == s[k - |a|]; }
    }
    if MarkerAt(d, a + s, i, j) {
      forall k | i - |a| < k < j - |a| ensures d.Is(s[k]) { assert (a + s)[k + |a|] == s[k]; }
    }
  }

  /** Text without an opening bracket in front of `s` adds no citation. */
  lemma PlainPrefix(d: Digits, a: string, s: string)
    requires d.Valid() && '[' !in a
    ensures Cited(d, a + s) == Cited(d, s)
  {
    forall n ensures n in Cited(d, a + s) <==> n in Cited(d, s) {
      CitedSpec(d, a + s, n);
      CitedSpec(d, s, n);
      if n in Cited(d, a + s) {
        var i: nat, j: nat :| MarkerAt(d, a + s, i, j) && IntOf(d, (a + s)[i + 1..j]) == n;
        assert i >= |a| by { assert (a + s)[i] == '['; }
        ShiftMarker(d, a, s, i, j);
      }
      if n in Cited(d, s) {
        var i: nat, j: nat :| MarkerAt(d, s, i, j) && IntOf(d, s[i + 1..j]) == n;
        ShiftMarker(d, a, s, i + |a|, j + |a|);
      }
    }
  }

  /** Text without an opening bracket cites nothing. */
  lemma PlainText(d: Digits, s: string)
    requires d.Valid() && '[' !in s
    ensures Cited(d, s) == {}
  {
    forall n ensures n !in Cited(d, s) {
      CitedSpec(d, s, n);
    }
  }

  lemma LeadingMarker(d: Digits, n: nat, s: string)
    requires d.Valid()
    ensures var all, j := Marker(n) + s, |Marker(n)| - 1; MarkerAt(d, all, 0, j) && all[1..j] == Decimal(n)
  {
    DecimalReads(d, n);
    hide Decimal, IntOf;
    BracketedDigits(d, "", Decimal(n), s);
    assert "" + Marker(n) + s == Marker(n) + s;
  }

  lemma CitedBehindMarker(d: Digits, n: nat, s: string, x: nat)
    requires d.Valid() && x in Cited(d, Marker(n) + s)
    ensures x == n || x in Cited(d, s)
  {
    var m, all := Marker(n), Marker(n) + s;
    CitedSpec(d, all, x);
    CitedSpec(d, s, x);
    DecimalReads(d, n);
    LeadingMarker(d, n, s);
    hide Cited, Decimal, Marker;
    var i: nat, j: nat :| MarkerAt(d, all, i, j) && IntOf(d, all[i + 1..j]) == x;
    var g := all[i + 1..j];
    assert Marked(d, all, 0, g);
    MarkedAfter(d, all, 0, |m| - 1, g);
    if g != Decimal(n) {
      var a: nat, b: nat :| |m| <= a && MarkerAt(d, all, a, b) && g == all[a + 1..b];
      ShiftMarker(d, m, s, a, b);
    }
  }

  /** A marker in front of `s` adds exactly its number. */
  lemma MarkerPrefix(d: Digits, n: nat, s: string)
    requires d.Valid()
    ensures Cited(d, Marker(n) + s) == {n} + Cited(d, s)
  {
    var m, all := Marker(n), Marker(n) + s;
    MarkerIsCited(d, "", n, s);
    assert "" + m + s == all;
    forall x ensures x in Cited(d, all) <==> x == n || x in Cited(d, s) {
      if x in Cited(d, all) {
        CitedBehindMarker(d, n, s, x);
      }
      if x in Cited(d, s) {
        CitedSpec(d, all, x);
        CitedSpec(d, s, x);
        var i: nat, j: nat :| MarkerAt(d, s, i, j) && IntOf(d, s[i + 1..j]) == x;
        ShiftMarker(d, m, s, i + |m|, j + |m|);
      }
    }
  }
}
