/** Character classes and whitespace stripping of Python strings. */
module Text {

  /** Inclusive ranges of characters. */
  type Ranges = seq<(char, char)>

  const SPACES: Ranges := [
    ('\U{0009}', '\U{000D}'), ('\U{001C}', '\U{0020}'), ('\U{0085}', '\U{0085}'), ('\U{00A0}', '\U{00A0}'),
    ('\U{1680}', '\U{1680}'), ('\U{2000}', '\U{200A}'), ('\U{2028}', '\U{2029}'), ('\U{202F}', '\U{202F}'),
    ('\U{205F}', '\U{205F}'), ('\U{3000}', '\U{3000}')]

  predicate InRanges(c: char, ranges: Ranges) {
    ranges != [] && (ranges[0].0 <= c <= ranges[0].1 || InRanges(c, ranges[1..]))
  }

  /** str.isspace() for one character. */
  predicate IsSpace(c: char) {
    InRanges(c, SPACES)
  }

  lemma {:induction false} InRangeAt(c: char, ranges: Ranges, i: nat)
    requires i < |ranges| && ranges[i].0 <= c <= ranges[i].1
    ensures InRanges(c, ranges)
  {
    if i > 0 { InRangeAt(c, ranges[1..], i - 1); }
  }

  lemma {:induction false} RangeOf(c: char, ranges: Ranges) returns (i: nat)
    requires InRanges(c, ranges)
    ensures i < |ranges| && ranges[i].0 <= c <= ranges[i].1
  {
    if ranges[0].0 <= c <= ranges[0].1 {
      i := 0;
    } else {
      i := RangeOf(c, ranges[1..]);
      i := i + 1;
    }
  }

  predicate IsBlank(s: string) {
    forall c :: c in s ==> IsSpace(c)
  }

  function StripLeft(s: string): string {
    if s != [] && IsSpace(s[0]) then StripLeft(s[1..]) else s
  }

  function StripRight(s: string): string {
    if s != [] && IsSpace(s[|s| - 1]) then StripRight(s[..|s| - 1]) else s
  }

  /** str.strip() */
  function Strip(s: string): string {
    StripRight(StripLeft(s))
  }

  lemma {:induction false} StripLeftSplits(s: string) returns (k: nat)
    ensures k <= |s| && IsBlank(s[..k]) && StripLeft(s) == s[k..]
    ensures k < |s| ==> !IsSpace(s[k])
  {
    if s != [] && IsSpace(s[0]) {
      var j := StripLeftSplits(s[1..]);
      k := j + 1;
      assert s[..k] == [s[0]] + s[1..][..j];
    } else {
      k := 0;
    }
  }

  lemma {:induction false} StripRightSplits(s: string) returns (k: nat)
    ensures k <= |s| && IsBlank(s[k..]) && StripRight(s) == s[..k]
    ensures k > 0 ==> !IsSpace(s[k - 1])
  {
    if s != [] && IsSpace(s[|s| - 1]) {
      var t := s[..|s| - 1];
      k := StripRightSplits(t);
      assert s[k..] == t[k..] + [s[|s| - 1]];
      assert t[..k] == s[..k];
    } else {
      k := |s|;
    }
  }

  /** strip() removes exactly a blank prefix and a blank suffix, and what is left, if anything,
      neither starts nor ends with whitespace. */
  lemma StripSplits(s: string) returns (a: nat, b: nat)
    ensures a <= b <= |s| && Strip(s) == s[a..b]
    ensures IsBlank(s[..a]) && IsBlank(s[b..])
    ensures a < b ==> !IsSpace(s[a]) && !IsSpace(s[b - 1])
  {
    a := StripLeftSplits(s);
    var t := StripLeft(s);
    var k := StripRightSplits(t);
    b := a + k;
    assert s[b..] == t[k..];
    assert s[a..b] == t[..k];
  }

  /** Python's order on strings. */
  predicate StringLess(a: string, b: string) {
    b != [] && (a == [] || a[0] < b[0] || (a[0] == b[0] && StringLess(a[1..], b[1..])))
  }

  lemma {:induction false} StringTrichotomy(a: string, b: string)
    ensures a == b || StringLess(a, b) || StringLess(b, a)
    ensures !(StringLess(a, b) && StringLess(b, a)) && !StringLess(a, a)
  {
    if a != [] {
      StringTrichotomy(a[1..], a[1..]);
    }
    if a != [] && b != [] {
      StringTrichotomy(a[1..], b[1..]);
      if a[0] == b[0] && a[1..] == b[1..] {
        assert a == [a[0]] + a[1..] == b;
      }
    }
  }

  lemma {:induction false} StringTransitive(a: string, b: string, c: string)
    requires StringLess(a, b) && StringLess(b, c)
    ensures StringLess(a, c)
  {
    if a != [] && a[0] == b[0] && b[0] == c[0] {
      StringTransitive(a[1..], b[1..], c[1..]);
    }
  }
}
