/** Cutting a Markdown text into one segment per non-blank line, with exact offsets. */
module MarkdownSegments {
  import opened Text

  /** The characters at which str.splitlines() ends a line. */
  const BREAKS: Ranges := [
    ('\U{000A}', '\U{000D}'), ('\U{001C}', '\U{001E}'), ('\U{0085}', '\U{0085}'), ('\U{2028}', '\U{2029}')]

  predicate IsBreak(c: char) {
    InRanges(c, BREAKS)
  }

  function LineLength(s: string): (n: nat)
    ensures n <= |s|
    ensures forall k :: 0 <= k < n ==> !IsBreak(s[k])
    ensures n < |s| ==> IsBreak(s[n])
  {
    if s == [] || IsBreak(s[0]) then 0 else 1 + LineLength(s[1..])
  }

  /** How many characters end the line: a carriage return and a line feed count as one ending. */
  function BreakLength(s: string, n: nat): (b: nat)
    requires n <= |s|
    ensures n + b <= |s| && (n < |s| ==> b > 0)
  {
    if n == |s| then 0
    else if s[n] == '\r' && n + 1 < |s| && s[n + 1] == '\n' then 2
    else 1
  }

  /** str.splitlines() */
  function SplitLines(s: string): seq<string>
    decreases |s|
  {
    if s == [] then []
    else
      var n := LineLength(s);
      [s[..n]] + SplitLines(s[n + BreakLength(s, n)..])
  }

  datatype Segment = Segment(paragraph: nat, start: nat, end: nat, content: string)

  predicate Occurs(s: string, sub: string, at: int) {
    0 <= at <= |s| - |sub| && s[at..at + |sub|] == sub
  }

  /** str.find(sub, from) */
  method Find(s: string, sub: string, from: nat) returns (at: int)
    requires from <= |s|
    ensures at >= 0 ==> from <= at && Occurs(s, sub, at) && forall k :: from <= k < at ==> !Occurs(s, sub, k)
    ensures at < 0 ==> at == -1 && forall k :: from <= k ==> !Occurs(s, sub, k)
  {
    at := from;
    while at + |sub| <= |s|
      invariant from <= at
      invariant forall k :: from <= k < at ==> !Occurs(s, sub, k)
    {
      if s[at..at + |sub|] == sub { return; }
      at := at + 1;
    }
    return -1;
  }

  predicate BlankBetween(s: string, from: nat, to: nat) {
    to <= |s| && forall k :: from <= k < to ==> IsSpace(s[k])
  }

  predicate BreakBetween(s: string, from: nat, to: nat) {
    to <= |s| && exists k :: from <= k < to && IsBreak(s[k])
  }

  /** The segment is a slice of one line that starts and ends with a visible character. */
  predicate IsSlice(s: string, g: Segment) {
    && g.start < g.end <= |s|
    && g.content == s[g.start..g.end]
    && !IsSpace(s[g.start]) && !IsSpace(s[g.end - 1])
    && !BreakBetween(s, g.start, g.end)
  }

  function EndBefore(segments: seq<Segment>, i: nat): nat
    requires i <= |segments|
  {
    if i == 0 then 0 else segments[i - 1].end
  }

  /** The i-th segment is a numbered slice; only blanks, and from the second one on a line ending,
      lie between it and the segment before. */
  predicate Placed(s: string, segments: seq<Segment>, i: nat)
    requires i < |segments|
  {
    && IsSlice(s, segments[i])
    && segments[i].paragraph == i + 1
    && EndBefore(segments, i) <= segments[i].start
    && BlankBetween(s, EndBefore(segments, i), segments[i].start)
    && (i > 0 ==> BreakBetween(s, EndBefore(segments, i), segments[i].start))
  }

  /** Up to `done` the text is cut: every segment is in place and only blanks follow the last one. */
  ghost predicate Segmented(s: string, segments: seq<Segment>, done: nat) {
    && (forall i: nat :: i < |segments| ==> Placed(s, segments, i))
    && EndBefore(segments, |segments|) <= done <= |s|
    && BlankBetween(s, EndBefore(segments, |segments|), done)
  }

  lemma BreaksAreSpace(c: char)
    ensures IsBreak(c) ==> IsSpace(c)
  {
    if IsBreak(c) {
      var i := RangeOf(c, BREAKS);
      InRangeAt(c, SPACES, if i < 3 then i else 6);
    }
  }

  lemma NextLine(s: string, pos: nat) returns (line: string, next: nat)
    requires pos < |s|
    ensures pos < next <= |s| && pos + |line| <= next && line == s[pos..pos + |line|]
    ensures SplitLines(s[pos..]) == [line] + SplitLines(s[next..])
    ensures !BreakBetween(s, pos, pos + |line|) && BlankBetween(s, pos + |line|, next)
    ensures next == |s| || BreakBetween(s, pos + |line|, next)
  {
    var rest := s[pos..];
    var n := LineLength(rest);
    line := rest[..n];
    next := pos + n + BreakLength(rest, n);
    assert rest[n + BreakLength(rest, n)..] == s[next..];
    forall k | pos <= k < pos + n ensures !IsBreak(s[k]) {
      assert rest[k - pos] == s[k];
    }
    forall k | pos + n <= k < next ensures IsSpace(s[k]) {
      assert rest[k - pos] == s[k];
      BreaksAreSpace(s[k]);
    }
    if next < |s| {
      assert IsBreak(s[pos + n]);
    }
  }

  /** Where the stripped content of a line lies in the text. */
  lemma ContentBounds(s: string, pos: nat, line: string) returns (a: nat, b: nat)
    requires pos + |line| <= |s| && line == s[pos..pos + |line|]
    ensures pos <= a <= b <= pos + |line| && Strip(line) == s[a..b]
    ensures BlankBetween(s, pos, a) && BlankBetween(s, b, pos + |line|)
    ensures a < b ==> !IsSpace(s[a]) && !IsSpace(s[b - 1])
  {
    var x, y := StripSplits(line);
    a, b := pos + x, pos + y;
    forall k | 0 <= k < y - x ensures line[x..y][k] == s[a..b][k] {
      assert line[x + k] == s[pos + (x + k)];
    }
    assert line[x..y] == s[a..b];
    forall k | pos <= k < a ensures IsSpace(s[k]) {
      assert line[..x][k - pos] == s[k];
    }
    forall k | b <= k < pos + |line| ensures IsSpace(s[k]) {
      assert line[y..][k - b] == s[k];
    }
  }

  lemma BlankJoin(s: string, a: nat, b: nat, c: nat)
    requires a <= b <= c && BlankBetween(s, a, b) && BlankBetween(s, b, c)
    ensures BlankBetween(s, a, c)
  {
  }

  /** A line ending in a part lies in the whole. */
  lemma BreakJoin(s: string, a: nat, b: nat, c: nat, d: nat)
    requires a <= b <= c <= d <= |s|
    ensures BreakBetween(s, b, c) ==> BreakBetween(s, a, d)
  {
  }

  lemma PlacedStays(s: string, segments: seq<Segment>, g: Segment, done: nat)
    requires Segmented(s, segments, done) && Placed(s, segments + [g], |segments|)
    ensures Segmented(s, segments + [g], g.end)
  {
    forall i: nat | i < |segments| + 1 ensures Placed(s, segments + [g], i) {
      if i < |segments| {
        assert Placed(s, segments, i);
        assert EndBefore(segments + [g], i) == EndBefore(segments, i);
      }
    }
  }

  /** The next segment: numbered on, from `a` to the end of its content. */
  function SegmentAt(segments: seq<Segment>, content: string, a: nat): Segment {
    Segment(|segments| + 1, a, a + |content|, content)
  }

  /** A line that is cut: nothing is added for a blank one, and otherwise one segment at `a`. */
  lemma CutLine(s: string, segments: seq<Segment>, pos: nat, line: string, next: nat) returns (a: nat)
    requires Segmented(s, segments, pos) && (segments == [] || BreakBetween(s, EndBefore(segments, |segments|), pos))
    requires pos + |line| <= next <= |s| && line == s[pos..pos + |line|]
    requires !BreakBetween(s, pos, pos + |line|) && BlankBetween(s, pos + |line|, next)
    requires next == |s| || BreakBetween(s, pos + |line|, next)
    ensures var content, from := Strip(line), EndBefore(segments, |segments|);
            if content == [] then
              Segmented(s, segments, next) && (segments == [] || next == |s| || BreakBetween(s, from, next))
            else
              var more := segments + [SegmentAt(segments, content, a)];
              && from <= a && BlankBetween(s, from, a) && Occurs(s, content, a) && !IsSpace(content[0])
              && Segmented(s, more, next)
              && (next == |s| || BreakBetween(s, a + |content|, next))
  {
    var from := EndBefore(segments, |segments|);
    var b;
    a, b := ContentBounds(s, pos, line);
    BlankJoin(s, from, pos, a);
    BlankJoin(s, b, pos + |line|, next);
    if a == b {
      BlankJoin(s, from, a, next);
      BreakJoin(s, from, pos + |line|, next, next);
    } else {
      assert Occurs(s, Strip(line), a) && a + |Strip(line)| == b;
      BreakJoin(s, from, from, pos, a);
      BreakJoin(s, pos, a, b, pos + |line|);
      BreakJoin(s, b, pos + |line|, next, next);
      CutPlaced(s, segments, pos, SegmentAt(segments, Strip(line), a), next);
    }
  }

  /** One more segment, placed after the others. */
  lemma CutPlaced(s: string, segments: seq<Segment>, pos: nat, g: Segment, next: nat)
    requires Segmented(s, segments, pos) && IsSlice(s, g) && g.paragraph == |segments| + 1
    requires EndBefore(segments, |segments|) <= g.start && g.end <= next <= |s|
    requires BlankBetween(s, EndBefore(segments, |segments|), g.start) && BlankBetween(s, g.end, next)
    requires segments != [] ==> BreakBetween(s, EndBefore(segments, |segments|), g.start)
    ensures Segmented(s, segments + [g], next)
  {
    PlacedStays(s, segments, g, pos);
    assert Placed(s, segments + [g], |segments|);
  }

  /** The position of a line's content, or the search position if it were not found. */
  method Locate(s: string, content: string, from: nat, ghost a: nat) returns (start: nat, ghost fellBack: bool)
    requires from <= a && content != [] && Occurs(s, content, a) && BlankBetween(s, from, a) && !IsSpace(content[0])
    ensures start == a && !fellBack
  {
    var found := Find(s, content, from);
    FoundInPlace(s, content, from, a, found);
    fellBack := false;
    if found < 0 {
      found := from;
      fellBack := true;
    }
    start := found;
  }

  /** The text is cut up to `pos`, and `lines` are the lines from there. */
  ghost predicate Cutting(s: string, lines: seq<string>, pos: nat, segments: seq<Segment>) {
    && pos <= |s|
    && SplitLines(s[pos..]) == lines
    && Segmented(s, segments, pos)
    && (segments == [] || pos == |s| || BreakBetween(s, EndBefore(segments, |segments|), pos))
  }

  lemma CutNext(s: string, lines: seq<string>, pos: nat, segments: seq<Segment>) returns (a: nat, next: nat)
    requires Cutting(s, lines, pos, segments) && lines != []
    ensures var content, from := Strip(lines[0]), EndBefore(segments, |segments|);
            if content == [] then Cutting(s, lines[1..], next, segments)
            else
              && from <= a && BlankBetween(s, from, a) && Occurs(s, content, a) && !IsSpace(content[0])
              && Cutting(s, lines[1..], next, segments + [SegmentAt(segments, content, a)])
  {
    assert s[pos..] != [];
    var line;
    line, next := NextLine(s, pos);
    assert lines[0] == line && lines[1..] == SplitLines(s[next..]);
    a := CutLine(s, segments, pos, line, next);
  }

  /** The same at a line of the list. */
  lemma CutLineAt(s: string, lines: seq<string>, i: nat, pos: nat, segments: seq<Segment>) returns (a: nat, next: nat)
    requires i < |lines| && Cutting(s, lines[i..], pos, segments)
    ensures var content, from := Strip(lines[i]), EndBefore(segments, |segments|);
            if content == [] then Cutting(s, lines[i + 1..], next, segments)
            else
              && from <= a && BlankBetween(s, from, a) && Occurs(s, content, a) && !IsSpace(content[0])
              && Cutting(s, lines[i + 1..], next, segments + [SegmentAt(segments, content, a)])
  {
    a, next := CutNext(s, lines[i..], pos, segments);
    assert lines[i..][1..] == lines[i + 1..];
  }

  lemma CutAll(s: string, pos: nat, segments: seq<Segment>)
    requires Cutting(s, [], pos, segments)
    ensures Segmented(s, segments, |s|)
  {
    assert s[pos..] == [];
  }

  /** One segment per line that is not blank, and `find` always finds it where it is: the fallback
      position is never used. */
  method Segments(markdown: string) returns (segments: seq<Segment>, ghost fellBack: bool)
    ensures Segmented(markdown, segments, |markdown|)
    ensures !fellBack
  {
    segments, fellBack := [], false;
    var searchFrom := 0;
    var lines := SplitLines(markdown);
    ghost var pos := 0;
    assert markdown[0..] == markdown;
    for i := 0 to |lines|
      invariant Cutting(markdown, lines[i..], pos, segments)
      invariant searchFrom == EndBefore(segments, |segments|)
      invariant !fellBack
    {
      ghost var a, next := CutLineAt(markdown, lines, i, pos, segments);
      pos := next;
      var content := Strip(lines[i]);
      if content == [] { continue; }
      var start;
      start, fellBack := Locate(markdown, content, searchFrom, a);
      segments := segments + [SegmentAt(segments, content, start)];
      searchFrom := start + |content|;
    }
    assert lines[|lines|..] == [];
    CutAll(markdown, pos, segments);
  }

  /** Only blanks lie between the search position and the content, which starts with a visible
      character: it cannot be found any earlier. */
  lemma FoundInPlace(s: string, content: string, from: nat, a: nat, at: int)
    requires from <= a && content != [] && Occurs(s, content, a) && BlankBetween(s, from, a) && !IsSpace(content[0])
    requires at >= 0 ==> from <= at && Occurs(s, content, at) && forall k :: from <= k < at ==> !Occurs(s, content, k)
    requires at < 0 ==> forall k :: from <= k ==> !Occurs(s, content, k)
    ensures at == a
  {
    if at >= 0 { OccursFirst(s, content, at); }
  }

  lemma OccursFirst(s: string, sub: string, at: int)
    requires sub != [] && Occurs(s, sub, at)
    ensures s[at] == sub[0]
  {
    assert s[at..at + |sub|][0] == s[at];
  }

  predicate Inside(g: Segment, k: nat) {
    g.start <= k < g.end
  }

  lemma {:induction false} Ordered(s: string, segments: seq<Segment>, i: nat, j: nat)
    requires Segmented(s, segments, |s|) && i < j < |segments|
    ensures segments[i].end <= segments[j].start
  {
    assert Placed(s, segments, j);
    if i < j - 1 {
      Ordered(s, segments, i, j - 1);
      assert Placed(s, segments, j - 1);
    }
  }

  lemma {:induction false} Covered(s: string, segments: seq<Segment>, k: nat, n: nat) returns (i: nat)
    requires Segmented(s, segments, |s|) && n <= |segments| && k < |s| && k < EndBefore(segments, n) && !IsSpace(s[k])
    ensures i < n && Inside(segments[i], k)
  {
    assert Placed(s, segments, n - 1);
    if k >= segments[n - 1].start {
      i := n - 1;
    } else {
      i := Covered(s, segments, k, n - 1);
    }
  }

  /** Every visible character lies in exactly one segment. */
  lemma CoveredOnce(s: string, segments: seq<Segment>, k: nat)
    requires Segmented(s, segments, |s|) && k < |s| && !IsSpace(s[k])
    ensures exists i :: 0 <= i < |segments| && Inside(segments[i], k)
                        && forall j :: 0 <= j < |segments| && Inside(segments[j], k) ==> j == i
  {
    var i := Covered(s, segments, k, |segments|);
    forall j | 0 <= j < |segments| && Inside(segments[j], k) ensures j == i {
      if i < j { Ordered(s, segments, i, j); }
      if j < i { Ordered(s, segments, j, i); }
    }
  }

  /** Where the segment after the i-th may start: nothing visible comes first, and a line ends. */
  lemma GapAfter(s: string, segments: seq<Segment>, i: nat, k: nat)
    requires Segmented(s, segments, |s|) && i < |segments|
    requires segments[i].end <= k < |s| && !IsSpace(s[k])
    ensures BreakBetween(s, segments[i].end, k)
  {
    if i + 1 < |segments| {
      assert Placed(s, segments, i + 1);
      assert segments[i + 1].start <= k;
    }
  }

  /** Two segmentations that agree on where a segment starts agree on where it ends. */
  lemma NotLonger(s: string, first: seq<Segment>, second: seq<Segment>, i: nat)
    requires Segmented(s, first, |s|) && Segmented(s, second, |s|)
    requires i < |first| && i < |second| && first[i].start == second[i].start
    ensures second[i].end <= first[i].end
  {
    assert Placed(s, first, i) && Placed(s, second, i);
    if first[i].end < second[i].end {
      GapAfter(s, first, i, second[i].end - 1);
    }
  }

  lemma NotLater(s: string, first: seq<Segment>, second: seq<Segment>, i: nat)
    requires Segmented(s, first, |s|) && Segmented(s, second, |s|)
    requires i < |first| && i <= |second| && EndBefore(first, i) == EndBefore(second, i)
    ensures i < |second| && second[i].start <= first[i].start
  {
    assert Placed(s, first, i);
    if i < |second| {
      assert Placed(s, second, i);
    }
  }

  lemma {:induction false} SameUpTo(s: string, first: seq<Segment>, second: seq<Segment>, n: nat)
    requires Segmented(s, first, |s|) && Segmented(s, second, |s|) && n <= |first|
    ensures n <= |second| && forall i :: 0 <= i < n ==> first[i] == second[i]
  {
    if n > 0 {
      var i := n - 1;
      SameUpTo(s, first, second, i);
      NotLater(s, first, second, i);
      NotLater(s, second, first, i);
      NotLonger(s, first, second, i);
      NotLonger(s, second, first, i);
      assert Placed(s, first, i) && Placed(s, second, i);
    }
  }

  /** A text has only one segmentation: the description determines the result. */
  lemma SegmentationIsUnique(s: string, first: seq<Segment>, second: seq<Segment>)
    requires Segmented(s, first, |s|) && Segmented(s, second, |s|)
    ensures first == second
  {
    SameUpTo(s, first, second, |first|);
    SameUpTo(s, second, first, |second|);
  }
}
