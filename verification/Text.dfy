/** Python string primitives shared by the chunker: white space, `str.strip` and the
    white-space-insensitive content of a text. */
module Text {

  /** `str.isspace` for one character; the regular-expression class \s is the same set. */
  predicate IsSpace(c: char) {
    var n := c as int;
    || 0x09 <= n <= 0x0D
    || 0x1C <= n <= 0x20
    || n == 0x85
    || n == 0xA0
    || n == 0x1680
    || 0x2000 <= n <= 0x200A
    || n == 0x2028
    || n == 0x2029
    || n == 0x202F
    || n == 0x205F
    || n == 0x3000
  }

  /** The characters of `s` that are not white space, in order: its content. */
  function NonSpace(s: string): string {
    if s == "" then ""
    else (if IsSpace(s[0]) then "" else [s[0]]) + NonSpace(s[1..])
  }

  /** The contents of several texts, concatenated. */
  function NonSpaceAll(parts: seq<string>): string {
    if parts == [] then "" else NonSpace(parts[0]) + NonSpaceAll(parts[1..])
  }

  function TrimLeft(s: string): string {
    if s != "" && IsSpace(s[0]) then TrimLeft(s[1..]) else s
  }

  function TrimRight(s: string): string {
    if s != "" && IsSpace(s[|s| - 1]) then TrimRight(s[..|s| - 1]) else s
  }

  /** `str.strip()`. */
  function Strip(s: string): string {
    TrimRight(TrimLeft(s))
  }

  /** Neither the first nor the last character is white space. */
  predicate IsStripped(s: string) {
    s != "" ==> !IsSpace(s[0]) && !IsSpace(s[|s| - 1])
  }

  lemma {:induction false} NonSpaceConcat(a: string, b: string)
    ensures NonSpace(a + b) == NonSpace(a) + NonSpace(b)
  {
    hide IsSpace;
    if a == "" {
      assert a + b == b;
    } else {
      assert (a + b)[1..] == a[1..] + b;
      NonSpaceConcat(a[1..], b);
    }
  }

  lemma {:induction false} NonSpaceAllConcat(a: seq<string>, b: seq<string>)
    ensures NonSpaceAll(a + b) == NonSpaceAll(a) + NonSpaceAll(b)
  {
    hide NonSpace;
    if a == [] {
      assert a + b == b;
    } else {
      assert (a + b)[1..] == a[1..] + b;
      NonSpaceAllConcat(a[1..], b);
    }
  }

  lemma {:induction false} NonSpaceEmpty(s: string)
    ensures NonSpace(s) == "" <==> forall i | 0 <= i < |s| :: IsSpace(s[i])
  {
    hide IsSpace;
    if s != "" {
      NonSpaceEmpty(s[1..]);
      if NonSpace(s[1..]) == "" && IsSpace(s[0]) {
        forall i | 0 <= i < |s| ensures IsSpace(s[i]) {
          if i > 0 { assert s[i] == s[1..][i - 1]; }
        }
      } else if NonSpace(s[1..]) != "" {
        var i :| 0 <= i < |s[1..]| && !IsSpace(s[1..][i]);
        assert !IsSpace(s[i + 1]);
      }
    }
  }

  lemma {:induction false} TrimLeftSpec(s: string)
    ensures var r := TrimLeft(s);
      && |r| <= |s| && r == s[|s| - |r|..]
      && NonSpace(s[..|s| - |r|]) == ""
      && (r != "" ==> !IsSpace(r[0]))
  {
    hide IsSpace;
    if s != "" && IsSpace(s[0]) {
      TrimLeftSpec(s[1..]);
      var r := TrimLeft(s[1..]);
      var pre := s[..|s| - |r|];
      assert pre[1..] == s[1..][..|s| - 1 - |r|];
    }
  }

  lemma {:induction false} TrimRightSpec(s: string)
    ensures var r := TrimRight(s);
      && |r| <= |s| && r == s[..|r|]
      && NonSpace(s[|r|..]) == ""
      && (r != "" ==> !IsSpace(r[|r| - 1]))
  {
    hide IsSpace;
    if s != "" && IsSpace(s[|s| - 1]) {
      var init := s[..|s| - 1];
      TrimRightSpec(init);
      var r := TrimRight(init);
      var blank := [s[|s| - 1]];
      assert s[|r|..] == init[|r|..] + blank;
      NonSpaceConcat(init[|r|..], blank);
      assert NonSpace(blank) == "" by { assert blank[1..] == ""; }
    }
  }

  /** `strip` keeps the slice between the outermost non-blank characters. */
  lemma StripSpec(s: string) returns (lo: nat, hi: nat)
    ensures lo <= hi <= |s| && Strip(s) == s[lo..hi]
    ensures NonSpace(s[..lo]) == "" && NonSpace(s[hi..]) == ""
    ensures IsStripped(Strip(s))
  {
    hide IsSpace, NonSpace, TrimLeft, TrimRight;
    var l := TrimLeft(s);
    var r := TrimRight(l);
    TrimLeftSpec(s);
    TrimRightSpec(l);
    lo := |s| - |l|;
    hi := lo + |r|;
    assert s[lo..hi] == r;
    assert s[hi..] == l[|r|..];
    assert r != "" ==> r[0] == l[0];
  }

  lemma StripConserves(s: string)
    ensures NonSpace(Strip(s)) == NonSpace(s)
    ensures |Strip(s)| <= |s|
    ensures IsStripped(Strip(s))
    ensures Strip(s) == "" <==> NonSpace(s) == ""
  {
    hide IsSpace, NonSpace, Strip;
    var lo, hi := StripSpec(s);
    assert s == s[..lo] + s[lo..hi] + s[hi..];
    NonSpaceConcat(s[..lo] + s[lo..hi], s[hi..]);
    NonSpaceConcat(s[..lo], s[lo..hi]);
    NonSpaceEmpty(Strip(s));
  }

  /** Joining two texts with a blank and stripping keeps their content. */
  lemma NonSpaceJoin(a: string, b: string)
    ensures NonSpace(Strip(a + " " + b)) == NonSpace(a) + NonSpace(b)
    ensures |Strip(a + " " + b)| <= |a| + 1 + |b|
    ensures IsStripped(Strip(a + " " + b))
  {
    hide Strip;
    StripConserves(a + " " + b);
    NonSpaceConcat(a + " ", b);
    NonSpaceConcat(a, " ");
    assert NonSpace(" ") == "";
  }

  /** Any slice with blank surroundings is at least as long as the stripped text. */
  lemma StripIsShortest(s: string, i: nat, j: nat)
    requires i <= j <= |s|
    requires NonSpace(s[..i]) == "" && NonSpace(s[j..]) == ""
    ensures |Strip(s)| <= j - i
  {
    hide IsSpace, NonSpace, Strip;
    var lo, hi := StripSpec(s);
    NonSpaceEmpty(s[..i]);
    NonSpaceEmpty(s[j..]);
    assert lo < hi ==> !IsSpace(s[lo]) && !IsSpace(s[hi - 1]);
  }
}
