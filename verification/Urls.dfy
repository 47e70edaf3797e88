/** What the browser makes of a path it is told to show, as the URL Standard resolves it on a page of a web site:
    the basic URL parser with its path, query and fragment states, and the dot segments. */
module Urls {
  import opened Prelude
  import opened PercentEncoding

  datatype Location = Location(pathname: string, search: string)

  /** Characters of a path or query that are not escaped. */
  predicate PathPlain(c: char) {
    && '!' <= c <= '~' && c != '"' && c != '#' && c != '<' && c != '>' && c != '?'
    && c != '\\' && c != '^' && c != '`' && c != '{' && c != '}'
  }

  predicate QueryPlain(c: char) {
    '!' <= c <= '~' && c != '"' && c != '#' && c != '\'' && c != '<' && c != '>'
  }

  function EscapeUnless(s: string, plain: char -> bool): string {
    if s == "" then ""
    else (if plain(s[0]) then [s[0]] else Escapes(Utf8(s[0] as int))) + EscapeUnless(s[1..], plain)
  }

  /** A dot, or its escape in either case. */
  predicate SingleDot(s: string) {
    || (|s| == 1 && s[0] == '.')
    || (|s| == 3 && s[0] == '%' && s[1] == '2' && (s[2] == 'e' || s[2] == 'E'))
  }

  predicate DoubleDot(s: string) {
    || (|s| > 1 && SingleDot(s[..1]) && SingleDot(s[1..]))
    || (|s| > 3 && SingleDot(s[..3]) && SingleDot(s[3..]))
  }

  /** Segment texts that mean this directory or the one above. */
  predicate Dots(s: string) {
    SingleDot(s) || DoubleDot(s)
  }

  /** A backslash separates segments like a slash. */
  predicate Separates(c: char) {
    c == '/' || c == '\\'
  }

  function Head(s: string): (n: nat)
    ensures n <= |s| && (forall k :: 0 <= k < n ==> !Separates(s[k])) && (n < |s| ==> Separates(s[n]))
  {
    if s == "" || Separates(s[0]) then 0 else 1 + Head(s[1..])
  }

  /** The texts between separators; at least one. */
  function Pieces(s: string): (r: seq<string>)
    ensures r != []
    decreases |s|
  {
    var n := Head(s);
    if n == |s| then [s] else [s[..n]] + Pieces(s[n + 1..])
  }

  function Join(pieces: seq<string>): string
    requires pieces != []
  {
    if |pieces| == 1 then pieces[0] else pieces[0] + "/" + Join(pieces[1..])
  }

  function Popped(path: seq<string>): seq<string> {
    if path == [] then [] else path[..|path| - 1]
  }

  /** One segment after the other: escaped, dropped, or taking the one before it with it; a last one that
      is dropped leaves an empty segment. */
  function Resolve(pieces: seq<string>, path: seq<string>): (r: seq<string>)
    ensures pieces != [] ==> r != []
    decreases |pieces|
  {
    if pieces == [] then path
    else
      var piece, last := EscapeUnless(pieces[0], PathPlain), if |pieces| == 1 then [""] else [];
      if DoubleDot(piece) then Resolve(pieces[1..], Popped(path) + last)
      else if SingleDot(piece) then Resolve(pieces[1..], path + last)
      else Resolve(pieces[1..], path + [piece])
  }

  /** The path a location shows for a path that begins with a separator. */
  function ResolvePath(p: string): string
    requires p != ""
  {
    "/" + Join(Resolve(Pieces(p[1..]), []))
  }

  /** The position of the first `c`, or the length. */
  function IndexOf(s: string, c: char): (i: nat)
    ensures i <= |s| && (i < |s| ==> s[i] == c) && forall k :: 0 <= k < i ==> s[k] != c
  {
    if s == "" || s[0] == c then 0 else 1 + IndexOf(s[1..], c)
  }

  predicate ControlOrSpace(c: char) {
    c <= ' '
  }

  function StripFront(s: string): string {
    if s != "" && ControlOrSpace(s[0]) then StripFront(s[1..]) else s
  }

  function StripBack(s: string): string {
    if s != "" && ControlOrSpace(s[|s| - 1]) then StripBack(s[..|s| - 1]) else s
  }

  predicate Break(c: char) {
    c == '\t' || c == '\n' || c == '\r'
  }

  function RemoveBreaks(s: string): string {
    if s == "" then "" else (if Break(s[0]) then "" else [s[0]]) + RemoveBreaks(s[1..])
  }

  function Cleaned(s: string): string {
    RemoveBreaks(StripBack(StripFront(s)))
  }

  /** The query of a cleaned text, escaped; a lone "?" is none. */
  function SearchOf(query: string): string {
    if |query| <= 1 then "" else "?" + EscapeUnless(query[1..], QueryPlain)
  }

  /** The query up to the fragment. */
  function ShownSearch(search: string): string {
    var cleaned := RemoveBreaks(StripBack(search));
    SearchOf(cleaned[..IndexOf(cleaned, '#')])
  }

  /** Where a path leads; None if it names another host or depends on the page it is used on. */
  function Browse(input: string): Option<Location> {
    var s := Cleaned(input);
    if s == "" || !Separates(s[0]) || (|s| > 1 && Separates(s[1])) then None
    else
      var front := s[..IndexOf(s, '#')];
      var cut := IndexOf(front, '?');
      if cut == 0 then None else Some(Location(ResolvePath(front[..cut]), SearchOf(front[cut..])))
  }

  // ---------------------------------------------------------------- paths that stay as they are

  predicate Plain(p: string) {
    forall c :: c in p ==> PathPlain(c)
  }

  predicate Rooted(p: string) {
    p != "" && p[0] == '/'
  }

  predicate OtherHost(p: string) {
    |p| > 1 && p[0] == '/' && p[1] == '/'
  }

  predicate Dotless(p: string)
    requires p != ""
  {
    forall piece :: piece in Pieces(p[1..]) ==> !Dots(piece)
  }

  /** A path as a location shows it. */
  predicate Resolved(p: string) {
    Rooted(p) && Plain(p) && Dotless(p)
  }

  lemma {:induction false} PlainEscape(s: string, plain: char -> bool)
    requires forall c :: c in s ==> plain(c)
    ensures EscapeUnless(s, plain) == s
  {
    if s != "" { PlainEscape(s[1..], plain); }
  }

  predicate NoSeparator(s: string) {
    forall c :: c in s ==> !Separates(c)
  }

  lemma EscapedChar(c: char)
    ensures Plain(Escapes(Utf8(c as int))) && NoSeparator(Escapes(Utf8(c as int)))
  {
    EscapesPlain(Utf8(c as int));
  }

  lemma {:induction false} EscapedIsPlain(s: string)
    requires NoSeparator(s)
    ensures Plain(EscapeUnless(s, PathPlain)) && NoSeparator(EscapeUnless(s, PathPlain))
  {
    if s != "" {
      EscapedChar(s[0]);
      assert s[0] in s && forall c :: c in s[1..] ==> c in s;
      EscapedIsPlain(s[1..]);
    }
  }

  lemma {:induction false} PieceText(s: string)
    ensures forall piece, c :: piece in Pieces(s) && c in piece ==> c in s
    ensures forall piece :: piece in Pieces(s) ==> NoSeparator(piece)
    decreases |s|
  {
    var n := Head(s);
    if n < |s| { PieceText(s[n + 1..]); }
  }

  lemma {:induction false} JoinPieces(s: string)
    requires Plain(s)
    ensures Join(Pieces(s)) == s
    decreases |s|
  {
    var n := Head(s);
    if n < |s| {
      var rest := Pieces(s[n + 1..]);
      assert s[n] in s && s[n] == '/';
      JoinPieces(s[n + 1..]);
      assert ([s[..n]] + rest)[1..] == rest;
      assert s == s[..n] + "/" + s[n + 1..];
    }
  }

  predicate CleanPiece(piece: string) {
    Plain(piece) && !Dots(piece) && NoSeparator(piece)
  }

  ghost predicate AllClean(pieces: seq<string>) {
    forall piece :: piece in pieces ==> CleanPiece(piece)
  }

  lemma {:induction false} ResolvePlain(pieces: seq<string>, path: seq<string>)
    requires AllClean(pieces)
    ensures Resolve(pieces, path) == path + pieces
    decreases |pieces|
  {
    if pieces != [] {
      assert CleanPiece(pieces[0]);
      PlainEscape(pieces[0], PathPlain);
      ResolvePlain(pieces[1..], path + [pieces[0]]);
      assert path + [pieces[0]] + pieces[1..] == path + pieces;
    }
  }

  lemma PiecesClean(p: string)
    requires Resolved(p)
    ensures AllClean(Pieces(p[1..])) && Plain(p[1..])
  {
    PieceText(p[1..]);
    assert forall c :: c in p[1..] ==> c in p;
  }

  /** A resolved path stays as it is. */
  lemma ResolvedStays(p: string)
    requires Resolved(p)
    ensures ResolvePath(p) == p
  {
    PiecesClean(p);
    ResolvePlain(Pieces(p[1..]), []);
    JoinPieces(p[1..]);
    assert [] + Pieces(p[1..]) == Pieces(p[1..]);
    assert p == "/" + p[1..];
  }

  lemma {:induction false} ResolveCleans(pieces: seq<string>, path: seq<string>)
    requires forall piece :: piece in pieces ==> NoSeparator(piece)
    requires AllClean(path)
    ensures AllClean(Resolve(pieces, path))
    decreases |pieces|
  {
    if pieces != [] {
      assert pieces[0] in pieces;
      EscapedIsPlain(pieces[0]);
      var piece, last := EscapeUnless(pieces[0], PathPlain), if |pieces| == 1 then [""] else [];
      ResolveCleans(pieces[1..], if DoubleDot(piece) then Popped(path) + last else if SingleDot(piece) then path + last else path + [piece]);
    }
  }

  lemma {:induction false} PiecesOfJoin(pieces: seq<string>)
    requires pieces != [] && AllClean(pieces)
    ensures Pieces(Join(pieces)) == pieces && Plain(Join(pieces))
    decreases |pieces|
  {
    var first, s := pieces[0], Join(pieces);
    assert first in pieces;
    if |pieces| == 1 {
      assert Head(s) == |s|;
    } else {
      PiecesOfJoin(pieces[1..]);
      HeadOf(first, Join(pieces[1..]));
      assert s[..|first|] == first && s[|first| + 1..] == Join(pieces[1..]);
    }
  }

  lemma {:induction false} HeadOf(first: string, rest: string)
    requires NoSeparator(first)
    ensures Head(first + "/" + rest) == |first|
    decreases |first|
  {
    var s := first + "/" + rest;
    if first == "" {
      assert s[0] == '/';
    } else {
      assert s[1..] == first[1..] + "/" + rest;
      HeadOf(first[1..], rest);
    }
  }

  /** Whatever is resolved, the result is a resolved path. */
  lemma ResolvingResolves(p: string)
    requires p != ""
    ensures Resolved(ResolvePath(p))
  {
    var pieces := Pieces(p[1..]);
    PieceText(p[1..]);
    ResolveCleans(pieces, []);
    var path := Resolve(pieces, []);
    PiecesOfJoin(path);
    assert ResolvePath(p)[1..] == Join(path);
  }

  // ---------------------------------------------------------------- a path and its search together

  lemma {:induction false} IndexAfter(a: string, b: string, c: char)
    requires c !in a
    ensures IndexOf(a + b, c) == |a| + IndexOf(b, c)
    decreases |a|
  {
    if a == "" {
      assert a + b == b;
    } else {
      assert (a + b)[1..] == a[1..] + b;
      IndexAfter(a[1..], b, c);
    }
  }

  lemma {:induction false} StripBackKeeps(base: string, s: string)
    requires base != "" && !ControlOrSpace(base[|base| - 1])
    ensures StripBack(base + s) == base + StripBack(s)
    decreases |s|
  {
    if s == "" {
      assert base + s == base;
    } else {
      assert (base + s)[..|base + s| - 1] == base + s[..|s| - 1];
      StripBackKeeps(base, s[..|s| - 1]);
    }
  }

  lemma {:induction false} BreaksKeep(base: string, s: string)
    requires Plain(base)
    ensures RemoveBreaks(base + s) == base + RemoveBreaks(s)
    decreases |base|
  {
    if base == "" {
      assert base + s == s;
    } else {
      assert base[0] in base && (base + s)[1..] == base[1..] + s;
      BreaksKeep(base[1..], s);
      assert base == [base[0]] + base[1..];
    }
  }

  /** Cleaning a plain path with a search cleans the end of the search only. */
  lemma CleanedKeeps(base: string, search: string)
    requires base != "" && Plain(base)
    ensures Cleaned(base + search) == base + RemoveBreaks(StripBack(search))
  {
    assert base[0] in base && base[|base| - 1] in base;
    StripBackKeeps(base, search);
    BreaksKeep(base, StripBack(search));
  }

  lemma {:induction false} SearchStart(search: string)
    requires search == "" || search[0] == '?'
    ensures var t := RemoveBreaks(StripBack(search)); t == "" || t[0] == '?'
  {
    if search != "" {
      assert search == "?" + search[1..];
      StripBackKeeps("?", search[1..]);
    }
  }

  lemma SplitAfter(base: string, t: string)
    requires Plain(base) && (t == "" || t[0] == '?')
    ensures var front := (base + t)[..IndexOf(base + t, '#')];
            && front == base + t[..IndexOf(t, '#')]
            && IndexOf(front, '?') == |base|
  {
    assert '#' !in base && '?' !in base;
    IndexAfter(base, t, '#');
    var rest := t[..IndexOf(t, '#')];
    IndexAfter(base, rest, '?');
    assert IndexOf(rest, '?') == 0;
    assert (base + t)[..|base| + |rest|] == base + rest;
  }

  /** A plain path leads to itself, resolved, unless it names another host. */
  lemma BrowsePlain(base: string, search: string)
    requires Rooted(base) && Plain(base) && (search == "" || search[0] == '?')
    ensures Browse(base + search) == if OtherHost(base) then None else Some(Location(ResolvePath(base), ShownSearch(search)))
  {
    var t := RemoveBreaks(StripBack(search));
    CleanedKeeps(base, search);
    SearchStart(search);
    SplitAfter(base, t);
    var rest := t[..IndexOf(t, '#')];
    assert (base + rest)[..|base|] == base && (base + rest)[|base|..] == rest;
    assert |base| > 1 ==> base[1] in base;
  }

  // ---------------------------------------------------------------- dot segments and escapes

  /** What decodes to a text that begins with a dot begins with one of the dot's three spellings. */
  lemma DotFront(s: string) returns (n: nat)
    requires Decode(s).Some? && Decode(s).value != "" && Decode(s).value[0] == '.'
    ensures n <= |s| && SingleDot(s[..n]) && Decode(s[n..]) == Some(Decode(s).value[1..])
  {
    if s[0] != '%' {
      n := 1;
      assert s[..1] == ".";
    } else {
      n := 3;
      var o := OctetAt(s, 0);
      assert ReadScalar(s).Some? && ReadScalar(s).value.c == '.';
      assert o == Some(0x2E) && ReadScalar(s).value.length == 3;
      assert HexValue(s[1]) == Some(2) && HexValue(s[2]) == Some(14);
      assert s[1] == '2' && (s[2] == 'e' || s[2] == 'E');
      assert s[..3] == [s[0], s[1], s[2]];
    }
  }

  lemma FrontDot(front: string, rest: string)
    requires SingleDot(front) && Decode(rest).Some?
    ensures Decode(front + rest) == Some("." + Decode(rest).value)
  {
    var s := front + rest;
    assert s[|front|..] == rest;
    if front != "." {
      assert s[0] == '%' && s[1] == '2' && s[2] == front[2];
      assert OctetAt(s, 0) == Some(0x2E);
    }
  }

  /** The dot segments are the texts that decode to "." and "..". */
  lemma SingleDotDecodes(s: string)
    ensures SingleDot(s) <==> Decode(s) == Some(".")
  {
    if Decode(s) == Some(".") {
      var n := DotFront(s);
      EmptyDecode(s[n..]);
      assert s[..n] == s;
    }
    if SingleDot(s) {
      FrontDot(s, "");
      assert s + "" == s && "." + "" == ".";
    }
  }

  lemma EmptyDecode(s: string)
    requires Decode(s) == Some("")
    ensures s == ""
  {
  }

  lemma DoubleDotDecodes(s: string)
    ensures DoubleDot(s) <==> Decode(s) == Some("..")
  {
    if Decode(s) == Some("..") {
      var n := DotFront(s);
      assert ".."[1..] == ".";
      SingleDotDecodes(s[n..]);
      assert s == s[..n] + s[n..];
    }
    if DoubleDot(s) {
      var n := if s[0] == '.' then 1 else 3;
      assert SingleDot(s[..n]) && SingleDot(s[n..]);
      SingleDotDecodes(s[n..]);
      FrontDot(s[..n], s[n..]);
      assert s == s[..n] + s[n..] && "." + "." == "..";
    }
  }
}
