/** encodeURIComponent and decodeURIComponent on texts of Unicode scalar values. */
module PercentEncoding {
  import opened Prelude

  /** The characters encodeURIComponent leaves alone. */
  predicate Unreserved(c: char) {
    'A' <= c <= 'Z' || 'a' <= c <= 'z' || '0' <= c <= '9' ||
    c == '-' || c == '_' || c == '.' || c == '!' || c == '~' || c == '*' || c == '\'' || c == '(' || c == ')'
  }

  function Utf8(n: nat): (bytes: seq<nat>)
    requires n < 0x110000
    ensures forall i :: 0 <= i < |bytes| ==> bytes[i] < 256
    ensures 1 <= |bytes| <= 4
  {
    if n < 0x80 then [n]
    else if n < 0x800 then [0xC0 + n / 64, 0x80 + n % 64]
    else if n < 0x10000 then [0xE0 + n / 4096, 0x80 + n / 64 % 64, 0x80 + n % 64]
    else [0xF0 + n / 262144, 0x80 + n / 4096 % 64, 0x80 + n / 64 % 64, 0x80 + n % 64]
  }

  function HexDigit(n: nat): char
    requires n < 16
  {
    if n < 10 then ('0' as int + n) as char else ('A' as int + n - 10) as char
  }

  function HexValue(c: char): Option<nat> {
    if '0' <= c <= '9' then Some(c as int - '0' as int)
    else if 'A' <= c <= 'F' then Some(c as int - 'A' as int + 10)
    else if 'a' <= c <= 'f' then Some(c as int - 'a' as int + 10)
    else None
  }

  /** One octet as "%" and two upper-case digits. */
  function Escape(b: nat): string
    requires b < 256
  {
    ['%', HexDigit(b / 16), HexDigit(b % 16)]
  }

  function Escapes(bytes: seq<nat>): string
    requires forall i :: 0 <= i < |bytes| ==> bytes[i] < 256
  {
    if bytes == [] then "" else Escape(bytes[0]) + Escapes(bytes[1..])
  }

  function EncodeChar(c: char): string {
    if Unreserved(c) then [c] else Escapes(Utf8(c as int))
  }

  /** encodeURIComponent */
  function Encode(s: string): string {
    if s == "" then "" else EncodeChar(s[0]) + Encode(s[1..])
  }

  function OctetAt(s: string, i: nat): Option<nat> {
    if i + 3 <= |s| && s[i] == '%' && HexValue(s[i + 1]).Some? && HexValue(s[i + 2]).Some?
    then Some(16 * HexValue(s[i + 1]).value + HexValue(s[i + 2]).value)
    else None
  }

  /** The low six bits of a continuation octet. */
  function ContinuationAt(s: string, i: nat): (r: Option<nat>)
    ensures r.Some? ==> r.value < 64
  {
    var o := OctetAt(s, i);
    if o.Some? && 0x80 <= o.value < 0xC0 then Some(o.value - 0x80) else None
  }

  datatype Scalar = Scalar(c: char, length: nat)

  /** One escaped character: a shortest-form UTF-8 sequence of one to four escapes that is not a surrogate. */
  function ReadScalar(s: string): (r: Option<Scalar>)
    ensures r.Some? ==> 0 < r.value.length <= |s|
  {
    var first := OctetAt(s, 0);
    if first.None? then None
    else
      var b := first.value;
      if b < 0x80 then Some(Scalar(b as char, 3))
      else if 0xC0 <= b < 0xE0 then
        var c1 := ContinuationAt(s, 3);
        if c1.None? then None else Checked((b - 0xC0) * 64 + c1.value, 0x80, 6)
      else if 0xE0 <= b < 0xF0 then
        var c1, c2 := ContinuationAt(s, 3), ContinuationAt(s, 6);
        if c1.None? || c2.None? then None else Checked(((b - 0xE0) * 64 + c1.value) * 64 + c2.value, 0x800, 9)
      else if 0xF0 <= b < 0xF8 then
        var c1, c2, c3 := ContinuationAt(s, 3), ContinuationAt(s, 6), ContinuationAt(s, 9);
        if c1.None? || c2.None? || c3.None? then None
        else Checked((((b - 0xF0) * 64 + c1.value) * 64 + c2.value) * 64 + c3.value, 0x10000, 12)
      else None
  }

  /** No overlong forms, no surrogates, nothing above U+10FFFF. */
  function Checked(n: nat, least: nat, length: nat): Option<Scalar> {
    if n >= least && (n < 0xD800 || 0xE000 <= n < 0x110000) then Some(Scalar(n as char, length)) else None
  }

  /** decodeURIComponent; None where it throws. */
  function Decode(s: string): Option<string> {
    if s == "" then Some("")
    else if s[0] != '%' then
      var rest := Decode(s[1..]);
      if rest.None? then None else Some([s[0]] + rest.value)
    else
      var scalar := ReadScalar(s);
      if scalar.None? then None
      else
        var rest := Decode(s[scalar.value.length..]);
        if rest.None? then None else Some([scalar.value.c] + rest.value)
  }

  lemma HexRoundTrip(n: nat)
    requires n < 16
    ensures HexValue(HexDigit(n)) == Some(n)
  {
  }

  lemma OctetRoundTrip(s: string, i: nat, b: nat)
    requires i + 3 <= |s| && b < 256 && s[i..i + 3] == Escape(b)
    ensures OctetAt(s, i) == Some(b)
  {
    assert s[i] == s[i..i + 3][0] && s[i + 1] == s[i..i + 3][1] && s[i + 2] == s[i..i + 3][2];
    HexRoundTrip(b / 16);
    HexRoundTrip(b % 16);
  }

  lemma {:induction false} EscapesAt(bytes: seq<nat>, rest: string, i: nat)
    requires forall k :: 0 <= k < |bytes| ==> bytes[k] < 256
    requires i < |bytes|
    ensures |Escapes(bytes)| == 3 * |bytes|
    ensures OctetAt(Escapes(bytes) + rest, 3 * i) == Some(bytes[i])
    decreases |bytes|
  {
    var s := Escapes(bytes) + rest;
    assert s == Escape(bytes[0]) + (Escapes(bytes[1..]) + rest);
    if |bytes| > 1 {
      EscapesAt(bytes[1..], rest, if i > 0 then i - 1 else 0);
    }
    if i == 0 {
      OctetRoundTrip(s, 0, bytes[0]);
    } else {
      var t := Escapes(bytes[1..]) + rest;
      assert s[3..] == t;
      Shifted(s, t, 3 * i - 3);
    }
  }

  lemma Shifted(s: string, t: string, i: nat)
    requires |s| >= 3 && s[3..] == t
    ensures OctetAt(s, i + 3) == OctetAt(t, i)
  {
    if i + 3 <= |t| {
      assert t[i] == s[i + 3] && t[i + 1] == s[i + 4] && t[i + 2] == s[i + 5];
    }
  }

  ghost predicate Written(s: string, c: char) {
    forall i :: 0 <= i < |Utf8(c as int)| ==> OctetAt(s, 3 * i) == Some(Utf8(c as int)[i])
  }

  lemma ReadShort(s: string, c: char)
    requires Written(s, c) && c as int < 0x800
    ensures ReadScalar(s) == Some(Scalar(c, 3 * |Utf8(c as int)|))
  {
    var bytes := Utf8(c as int);
    assert OctetAt(s, 3 * 0) == Some(bytes[0]);
    if c as int >= 0x80 { assert OctetAt(s, 3 * 1) == Some(bytes[1]); }
  }

  lemma ReadThree(s: string, c: char)
    requires Written(s, c) && 0x800 <= c as int < 0x10000
    ensures ReadScalar(s) == Some(Scalar(c, 9))
  {
    var bytes := Utf8(c as int);
    SixBits(c as int);
    assert OctetAt(s, 3 * 0) == Some(bytes[0]) && OctetAt(s, 3 * 1) == Some(bytes[1]) && OctetAt(s, 3 * 2) == Some(bytes[2]);
  }

  lemma ReadFour(s: string, c: char)
    requires Written(s, c) && 0x10000 <= c as int
    ensures ReadScalar(s) == Some(Scalar(c, 12))
  {
    var bytes := Utf8(c as int);
    SixBits(c as int);
    assert OctetAt(s, 3 * 0) == Some(bytes[0]) && OctetAt(s, 3 * 1) == Some(bytes[1]);
    assert OctetAt(s, 3 * 2) == Some(bytes[2]) && OctetAt(s, 3 * 3) == Some(bytes[3]);
  }

  /** Octets in the shortest form read as the character they encode. */
  lemma ReadBack(s: string, c: char)
    requires Written(s, c)
    ensures ReadScalar(s) == Some(Scalar(c, 3 * |Utf8(c as int)|))
  {
    if c as int < 0x800 { ReadShort(s, c); } else if c as int < 0x10000 { ReadThree(s, c); } else { ReadFour(s, c); }
  }

  lemma CharRoundTrip(c: char, rest: string)
    requires !Unreserved(c)
    ensures ReadScalar(EncodeChar(c) + rest) == Some(Scalar(c, |EncodeChar(c)|))
    ensures EncodeChar(c) + rest != "" && (EncodeChar(c) + rest)[0] == '%'
  {
    var bytes := Utf8(c as int);
    forall i | 0 <= i < |bytes| ensures |Escapes(bytes)| == 3 * |bytes| && OctetAt(Escapes(bytes) + rest, 3 * i) == Some(bytes[i]) {
      EscapesAt(bytes, rest, i);
    }
    ReadBack(Escapes(bytes) + rest, c);
    assert OctetAt(Escapes(bytes) + rest, 3 * 0).Some?;
  }

  lemma SixBits(n: nat)
    ensures n == n / 64 * 64 + n % 64
    ensures n / 64 == n / 4096 * 64 + n / 64 % 64
    ensures n / 4096 == n / 262144 * 64 + n / 4096 % 64
  {
  }

  /** Decoding an encoded text gives the text back. */
  lemma {:induction false} EncodeRoundTrip(s: string)
    ensures Decode(Encode(s)) == Some(s)
  {
    if s != "" {
      EncodeRoundTrip(s[1..]);
      var e, rest := EncodeChar(s[0]), Encode(s[1..]);
      assert Encode(s) == e + rest && s == [s[0]] + s[1..];
      assert (e + rest)[|e|..] == rest;
      if Unreserved(s[0]) {
        assert (e + rest)[0] != '%';
      } else {
        CharRoundTrip(s[0], rest);
      }
    }
  }

  /** The characters an encoded text is made of. */
  predicate Encoded(c: char) {
    Unreserved(c) || c == '%'
  }

  lemma {:induction false} EscapesPlain(bytes: seq<nat>)
    requires forall k :: 0 <= k < |bytes| ==> bytes[k] < 256
    ensures forall c :: c in Escapes(bytes) ==> Encoded(c)
  {
    if bytes != [] { EscapesPlain(bytes[1..]); }
  }

  lemma {:induction false} EncodePlain(s: string)
    ensures forall c :: c in Encode(s) ==> Encoded(c)
    ensures s != "" ==> Encode(s) != ""
  {
    if s != "" {
      if !Unreserved(s[0]) { EscapesPlain(Utf8(s[0] as int)); }
      EncodePlain(s[1..]);
    }
  }

  lemma {:induction false} DecodedIsNotEmpty(s: string)
    requires s != "" && Decode(s).Some?
    ensures Decode(s).value != ""
  {
  }
}
