/** Routes of the web app: parsing a location and printing a path. Text is a sequence of Unicode scalar values. */
module Navigation {
  import opened Prelude
  import opened PercentEncoding
  import opened Urls

  // ---------------------------------------------------------------- routes

  /** An identifier or search that is missing is None. */
  datatype Route =
    | Today(search: Option<string>)
    | Inbox(id: Option<string>, search: Option<string>)
    | Matters(id: Option<string>, search: Option<string>)
    | Reviews(id: Option<string>, search: Option<string>)
    | Templates(search: Option<string>)
    | Files(search: Option<string>)
    | AgentRuns(id: Option<string>, search: Option<string>)
    | DataBoundaries(search: Option<string>)
    | About(search: Option<string>)
    | NotFound(pathname: string, search: Option<string>)

  function StripSlashes(s: string): string {
    if s != "" && s[|s| - 1] == '/' then StripSlashes(s[..|s| - 1]) else s
  }

  /** `pathname.replace(/\/+$/, '') || '/'` */
  function Trimmed(pathname: string): string {
    if StripSlashes(pathname) == "" then "/" else StripSlashes(pathname)
  }

  /** `pathname.split('/').filter(Boolean)` */
  function Segments(s: string): seq<string>
    decreases |s|
  {
    if s == "" then []
    else if s[0] == '/' then Segments(s[1..])
    else [s[..IndexOf(s, '/')]] + Segments(s[IndexOf(s, '/')..])
  }

  function SegmentAt(segments: seq<string>, i: nat): Option<string> {
    if i < |segments| then Some(segments[i]) else None
  }

  function DecodeSegment(segment: Option<string>): Option<string> {
    if segment.None? || segment.value == "" then None
    else
      var decoded := Decode(segment.value);
      if decoded.Some? then decoded else segment
  }

  function NormalizedSearch(search: Option<string>): string {
    if search.None? || search.value == "" then ""
    else if search.value[0] == '?' then search.value
    else "?" + search.value
  }

  function Parse(location: Location): Route {
    var pathname := Trimmed(location.pathname);
    Select(pathname, Segments(pathname), Some(location.search))
  }

  /** The chain of tests on the trimmed path and its segments. */
  function Select(pathname: string, segments: seq<string>, search: Option<string>): Route {
    if pathname == "/" || pathname == "/today" then Today(search)
    else if SegmentAt(segments, 0) == Some("inbox") && |segments| <= 2 then Inbox(DecodeSegment(SegmentAt(segments, 1)), search)
    else if SegmentAt(segments, 0) == Some("matters") && |segments| <= 2 then Matters(DecodeSegment(SegmentAt(segments, 1)), search)
    else if SegmentAt(segments, 0) == Some("reviews") && |segments| <= 2 then Reviews(DecodeSegment(SegmentAt(segments, 1)), search)
    else if pathname == "/templates" then Templates(search)
    else if pathname == "/files" then Files(search)
    else if SegmentAt(segments, 0) == Some("system") && SegmentAt(segments, 1) == Some("agent-runs") && |segments| <= 3 then
      AgentRuns(DecodeSegment(SegmentAt(segments, 2)), search)
    else if pathname == "/system/data-boundaries" then DataBoundaries(search)
    else if pathname == "/system/about" then About(search)
    else NotFound(pathname, search)
  }

  function WithId(base: string, id: Option<string>): string {
    base + if id.Some? && id.value != "" then "/" + Encode(id.value) else ""
  }

  /** The path without the search. */
  function PathOf(route: Route): string {
    match route
    case Today(_) => "/today"
    case Inbox(id, _) => WithId("/inbox", id)
    case Matters(id, _) => WithId("/matters", id)
    case Reviews(id, _) => WithId("/reviews", id)
    case Templates(_) => "/templates"
    case Files(_) => "/files"
    case AgentRuns(id, _) => WithId("/system/agent-runs", id)
    case DataBoundaries(_) => "/system/data-boundaries"
    case About(_) => "/system/about"
    case NotFound(pathname, _) => pathname
  }

  function Build(route: Route): string {
    PathOf(route) + NormalizedSearch(route.search)
  }

  /** The route shown after navigating to a path; None if the browser refuses it or reads it relative to the page. */
  function Visit(path: string): Option<Route> {
    var location := Browse(path);
    if location.Some? then Some(Parse(location.value)) else None
  }

  // ---------------------------------------------------------------- printing, then parsing

  predicate Without(s: string, c: char) {
    c !in s
  }

  lemma {:induction false} SegmentsJoin(a: string, rest: string)
    requires a != "" && Without(a, '/') && (rest == "" || rest[0] == '/')
    ensures Segments("/" + a + rest) == [a] + Segments(rest)
  {
    var s := "/" + a + rest;
    assert s[1..] == a + rest;
    IndexAfter(a, rest, '/');
    assert IndexOf(rest, '/') == 0;
    assert (a + rest)[..|a|] == a && (a + rest)[|a|..] == rest;
  }

  lemma EncodedHasNo(e: string, c: char)
    requires (forall x :: x in e ==> Encoded(x)) && !Encoded(c)
    ensures Without(e, c)
  {
  }

  /** The identifier is the last segment and reads back. */
  lemma IdSegment(id: string)
    requires id != ""
    ensures Segments("/" + Encode(id)) == [Encode(id)] && DecodeSegment(Some(Encode(id))) == Some(id)
  {
    var e := Encode(id);
    EncodePlain(id);
    EncodeRoundTrip(id);
    EncodedHasNo(e, '/');
    assert "/" + e + "" == "/" + e;
    SegmentsJoin(e, "");
  }

  lemma EncodedIsPlain(id: string)
    ensures Plain(Encode(id)) && Without(Encode(id), '/')
  {
    EncodePlain(id);
    EncodedHasNo(Encode(id), '/');
  }

  lemma IdPath(base: string, id: string)
    requires id != "" && Plain(base)
    ensures var path := base + ("/" + Encode(id)); Trimmed(path) == path && Plain(path)
  {
    var e := Encode(id);
    var path := base + ("/" + e);
    EncodePlain(id);
    EncodedIsPlain(id);
    var last := path[|path| - 1];
    assert last == e[|e| - 1] && last in e && last != '/';
    LastNotSlash(path);
  }

  predicate IdsNotEmpty(route: Route) {
    IdOf(route) != Some("")
  }

  /** The route as a location shows it again. */
  function Shown(route: Route): Route {
    WithSearch(route, ShownSearch(NormalizedSearch(route.search)))
  }

  /** A page with an optional identifier, one level down. */
  lemma PageSegments(name: string, id: Option<string>)
    requires name != "" && Without(name, '/') && Plain(name) && id != Some("")
    ensures var path := WithId("/" + name, id);
            && Trimmed(path) == path && Plain(path)
            && Segments(path) == (if id.Some? then [name, Encode(id.value)] else [name])
            && DecodeSegment(SegmentAt(Segments(path), 1)) == id
  {
    var path := WithId("/" + name, id);
    if id.Some? {
      IdPath("/" + name, id.value);
      IdSegment(id.value);
      assert path == "/" + name + ("/" + Encode(id.value));
      EncodePlain(id.value);
      SegmentsJoin(name, "/" + Encode(id.value));
    } else {
      assert path == "/" + name && "/" + name + "" == path;
      assert path[|path| - 1] in name;
      SegmentsJoin(name, "");
    }
  }

  function WithSearch(route: Route, search: string): Route {
    route.(search := Some(search))
  }

  /** Pages whose first segment decides. */
  lemma SelectPage(pathname: string, segments: seq<string>, name: string, search: Option<string>)
    requires |pathname| > 1 && pathname[1] != 't' && 1 <= |segments| <= 2 && segments[0] == name
    requires name == "inbox" || name == "matters" || name == "reviews"
    ensures var id := DecodeSegment(SegmentAt(segments, 1));
            Select(pathname, segments, search) ==
            if name == "inbox" then Inbox(id, search) else if name == "matters" then Matters(id, search) else Reviews(id, search)
  {
    assert "/today"[1] == 't';
  }

  lemma PagePath(route: Route, name: string, search: string)
    requires route.Inbox? || route.Matters? || route.Reviews?
    requires name == if route.Inbox? then "inbox" else if route.Matters? then "matters" else "reviews"
    requires route.id != Some("")
    ensures ReadsBack(route, search)
  {
    assert "/inbox" == "/" + "inbox" && "/matters" == "/" + "matters" && "/reviews" == "/" + "reviews";
    var path := PathOf(route);
    assert path == WithId("/" + name, route.id) && path[1] == name[0];
    PageSegments(name, route.id);
    SelectPage(path, Segments(path), name, Some(search));
    PageDots(name, route.id);
    PageReadsBack(route, path, search);
  }

  lemma PageDots(name: string, id: Option<string>)
    requires name != "" && name[0] != '.' && name[0] != '%' && id != Some("")
    ensures DotsFrom([name], id) && (id.Some? ==> DotsFrom([name, Encode(id.value)], id))
  {
    DotsBegin(name);
    if id.Some? {
      EncodePlain(id.value);
      IdSegment(id.value);
      DotSegments(Encode(id.value));
    }
  }

  lemma AgentRunsDots(segments: seq<string>, id: Option<string>)
    requires 2 <= |segments| <= 3 && segments[0] == "system" && segments[1] == "agent-runs" && id != Some("")
    requires |segments| == 3 ==> segments[2] != "" && DecodeSegment(Some(segments[2])) == id
    ensures DotsFrom(segments, id)
  {
    DotsBegin("system");
    DotsBegin("agent-runs");
    if |segments| == 3 { DotSegments(segments[2]); }
  }

  lemma FixedDots(segments: seq<string>)
    requires forall i :: 0 <= i < |segments| ==> segments[i] != "" && segments[i][0] != '.' && segments[i][0] != '%'
    ensures DotsFrom(segments, None)
  {
    forall x | x in segments ensures !Dots(x) { DotsBegin(x); }
  }

  lemma PageReadsBack(route: Route, path: string, search: string)
    requires PathOf(route) == path && Trimmed(path) == path && Plain(path) && |path| > 1 && path[0] == '/' && path[1] != '/'
    requires Select(path, Segments(path), Some(search)) == WithSearch(route, search)
    requires DotsFrom(Segments(path), IdOf(route))
    ensures ReadsBack(route, search)
  {
  }

  /** The route's own path is plain, has no dot segments but those of its identifier, and parses to the route. */
  ghost predicate ReadsBack(route: Route, search: string) {
    && Rooted(PathOf(route)) && Plain(PathOf(route)) && !OtherHost(PathOf(route))
    && DotsFrom(Segments(PathOf(route)), IdOf(route))
    && Parse(Location(PathOf(route), search)) == WithSearch(route, search)
  }

  predicate DotId(id: Option<string>) {
    id == Some(".") || id == Some("..")
  }

  function IdOf(route: Route): Option<string> {
    match route
    case Inbox(id, _) => id
    case Matters(id, _) => id
    case Reviews(id, _) => id
    case AgentRuns(id, _) => id
    case _ => None
  }

  predicate HasDotId(route: Route) {
    DotId(IdOf(route))
  }

  /** A dot segment among them comes from the identifier. */
  ghost predicate DotsFrom(segments: seq<string>, id: Option<string>) {
    forall x :: x in segments && Dots(x) ==> DotId(id)
  }

  /** A dot segment begins with a dot or an escape. */
  lemma DotsBegin(s: string)
    ensures Dots(s) ==> s != "" && (s[0] == '.' || s[0] == '%')
  {
  }

  /** The dot segments are those that are read as the identifiers "." and "..". */
  lemma DotSegments(s: string)
    requires s != ""
    ensures Dots(s) <==> DotId(DecodeSegment(Some(s)))
  {
    SingleDotDecodes(s);
    DoubleDotDecodes(s);
  }

  /** Pages below "system". */
  lemma SelectSystem(pathname: string, segments: seq<string>, search: Option<string>)
    requires |pathname| > 1 && pathname[1] == 's' && |segments| >= 2 && segments[0] == "system"
    ensures segments[1] == "agent-runs" && |segments| == 2 ==> Select(pathname, segments, search) == AgentRuns(None, search)
    ensures segments[1] == "agent-runs" && |segments| == 3 ==>
              Select(pathname, segments, search) == AgentRuns(DecodeSegment(Some(segments[2])), search)
    ensures segments[1] == "about" && pathname == "/system/about" ==> Select(pathname, segments, search) == About(search)
    ensures segments[1] == "data-boundaries" && pathname == "/system/data-boundaries" ==>
              Select(pathname, segments, search) == DataBoundaries(search)
  {
    assert "/today"[1] == 't' && "/templates"[1] == 't' && "/files"[1] == 'f';
    assert |"about"| == 5 && |"data-boundaries"| == 15 && |"agent-runs"| == 10 && |"system"| == 6;
    assert |"inbox"| == 5 && |"matters"| == 7 && |"reviews"| == 7;
    assert |"/system/about"| == 13 && |"/system/data-boundaries"| == 23;
  }

  lemma SystemPath(path: string, tail: string)
    requires path == "/" + "system" + tail && |tail| > 1 && tail[0] == '/' && Trimmed(tail) == tail
    requires Plain(tail)
    ensures Segments(path) == ["system"] + Segments(tail) && Trimmed(path) == path && path[1] == 's'
    ensures Plain(path)
  {
    SegmentsJoin("system", tail);
    LastNotSlash(tail);
    assert path[|path| - 1] == tail[|tail| - 1];
    LastNotSlash(path);
  }

  lemma AgentRunsSegments(path: string, id: Option<string>)
    requires id != Some("") && path == WithId("/system/agent-runs", id)
    ensures var segments := Segments(path);
            && Trimmed(path) == path && Plain(path) && path[1] == 's'
            && 2 <= |segments| <= 3 && segments[0] == "system" && segments[1] == "agent-runs"
            && (if id.Some? then |segments| == 3 && DecodeSegment(Some(segments[2])) == id else |segments| == 2)
  {
    var tail := WithId("/" + "agent-runs", id);
    AgentRunsTail(path, tail, id);
    AgentRunsText();
    PageSegments("agent-runs", id);
    SystemPath(path, tail);
  }

  lemma AgentRunsPath(id: Option<string>, search: string)
    requires id != Some("")
    ensures ReadsBack(AgentRuns(id, None), search)
  {
    var path := WithId("/system/agent-runs", id);
    AgentRunsSegments(path, id);
    SelectSystem(path, Segments(path), Some(search));
    AgentRunsDots(Segments(path), id);
    PageReadsBack(AgentRuns(id, None), path, search);
  }

  lemma AgentRunsText()
    ensures Without("agent-runs", '/') && Plain("agent-runs") && "agent-runs" != ""
  {
  }

  lemma AgentRunsName()
    ensures "/system/agent-runs" == "/" + "system" + ("/" + "agent-runs")
  {
  }

  lemma WithIdAfter(front: string, rest: string, id: Option<string>)
    ensures WithId(front + rest, id) == front + WithId(rest, id)
  {
  }

  lemma AgentRunsTail(path: string, tail: string, id: Option<string>)
    requires path == WithId("/system/agent-runs", id) && tail == WithId("/" + "agent-runs", id)
    ensures path == "/" + "system" + tail
  {
    AgentRunsName();
    WithIdAfter("/" + "system", "/" + "agent-runs", id);
  }

  /** A trimmed path, other than "/" alone, does not end in a slash, and a path that does not is trimmed. */
  lemma LastNotSlash(path: string)
    requires |path| > 1
    ensures Trimmed(path) == path <==> path[|path| - 1] != '/'
  {
    if path[|path| - 1] == '/' { StrippedShorter(path[..|path| - 1]); }
  }

  lemma {:induction false} StrippedShorter(s: string)
    ensures |StripSlashes(s)| <= |s| && StripSlashes(StripSlashes(s)) == StripSlashes(s)
    ensures StripSlashes(s) <= s
  {
    if s != "" && s[|s| - 1] == '/' { StrippedShorter(s[..|s| - 1]); }
  }

  lemma TodayPath(search: string)
    ensures ReadsBack(Today(None), search)
  {
  }

  lemma TopPage(path: string, name: string)
    requires name != "" && Without(name, '/') && path == "/" + name
    ensures Segments(path) == [name] && Trimmed(path) == path
    ensures Plain(name) ==> Plain(path)
  {
    assert "/" + name + "" == path;
    SegmentsJoin(name, "");
    assert path[|path| - 1] in name;
  }

  lemma SelectTemplates(search: Option<string>)
    ensures Select("/templates", ["templates"], search) == Templates(search)
  {
    assert |"templates"| == 9 && |"inbox"| == 5 && |"matters"| == 7 && |"reviews"| == 7;
    assert |"/templates"| == 10 && |"/today"| == 6;
  }

  lemma SelectFiles(search: Option<string>)
    ensures Select("/files", ["files"], search) == Files(search)
  {
    assert "files"[0] == 'f' && "inbox"[0] == 'i' && |"files"| == 5 && |"matters"| == 7 && |"reviews"| == 7;
    assert |"/templates"| == 10 && |"/files"| == 6 && "/today"[1] == 't' && "/files"[1] == 'f';
  }

  lemma TopText()
    ensures "/templates" == "/" + "templates" && "/files" == "/" + "files"
    ensures Without("templates", '/') && Plain("templates")
    ensures Without("files", '/') && Plain("files")
  {
  }

  /** A fixed page at the top whose path selects it. */
  lemma TopReadsBack(route: Route, path: string, name: string, search: string)
    requires path == "/" + name && name != "" && Without(name, '/') && Plain(name) && name[0] != '.' && name[0] != '%'
    requires PathOf(route) == path && IdOf(route) == None && Select(path, [name], Some(search)) == WithSearch(route, search)
    ensures ReadsBack(route, search)
  {
    TopPage(path, name);
    FixedDots([name]);
    PageReadsBack(route, path, search);
  }

  lemma TemplatesPath(search: string)
    ensures ReadsBack(Templates(None), search)
  {
    TopText();
    SelectTemplates(Some(search));
    TopReadsBack(Templates(None), "/templates", "templates", search);
  }

  lemma FilesPath(search: string)
    ensures ReadsBack(Files(None), search)
  {
    TopText();
    SelectFiles(Some(search));
    TopReadsBack(Files(None), "/files", "files", search);
  }

  /** A fixed page below "system". */
  lemma SystemPage(path: string, name: string)
    requires path == "/" + "system" + ("/" + name)
    requires name != "" && Without(name, '/') && Plain(name)
    ensures Segments(path) == ["system", name] && Trimmed(path) == path && path[1] == 's'
    ensures Plain(path)
  {
    TopPage("/" + name, name);
    SystemPath(path, "/" + name);
  }

  lemma DataBoundariesText()
    ensures "/system/data-boundaries" == "/" + "system" + ("/" + "data-boundaries")
    ensures Without("data-boundaries", '/') && Plain("data-boundaries")
    ensures DotsFrom(["system", "data-boundaries"], None)
  {
    FixedDots(["system", "data-boundaries"]);
  }

  lemma DataBoundariesPath(search: string)
    ensures ReadsBack(DataBoundaries(None), search)
  {
    var path := "/system/data-boundaries";
    DataBoundariesText();
    SystemPage(path, "data-boundaries");
    SelectSystem(path, Segments(path), Some(search));
    PageReadsBack(DataBoundaries(None), path, search);
  }

  lemma AboutText()
    ensures "/system/about" == "/" + "system" + ("/" + "about")
    ensures Without("about", '/') && Plain("about")
    ensures DotsFrom(["system", "about"], None)
  {
    FixedDots(["system", "about"]);
  }

  lemma AboutPath(search: string)
    ensures ReadsBack(About(None), search)
  {
    var path := "/system/about";
    AboutText();
    SystemPage(path, "about");
    SelectSystem(path, Segments(path), Some(search));
    PageReadsBack(About(None), path, search);
  }

  lemma PathReadsBack(route: Route, search: string)
    requires !route.NotFound? && IdsNotEmpty(route)
    ensures ReadsBack(route, search)
  {
    match route
    case Today(_) => TodayPath(search);
    case Inbox(_, _) => PagePath(route, "inbox", search);
    case Matters(_, _) => PagePath(route, "matters", search);
    case Reviews(_, _) => PagePath(route, "reviews", search);
    case AgentRuns(id, _) => AgentRunsPath(id, search);
    case Templates(_) => TemplatesPath(search);
    case Files(_) => FilesPath(search);
    case DataBoundaries(_) => DataBoundariesPath(search);
    case About(_) => AboutPath(search);
  }

  // ---------------------------------------------------------------- segments and pieces

  lemma {:induction false} HeadIsIndex(s: string)
    requires Plain(s)
    ensures Head(s) == IndexOf(s, '/')
  {
    if s != "" {
      assert s[0] in s;
      if s[0] != '/' {
        assert forall c :: c in s[1..] ==> c in s;
        HeadIsIndex(s[1..]);
      }
    }
  }

  /** The parser's segments are the pieces of the path that are not empty. */
  lemma {:induction false} SamePieces(s: string)
    requires Plain(s)
    ensures forall x :: x != "" ==> (x in Pieces(s) <==> x in Segments(s))
    decreases |s|
  {
    if s != "" {
      var n := Head(s);
      HeadIsIndex(s);
      if n < |s| {
        var rest := s[n + 1..];
        assert s[n..][1..] == rest;
        assert forall c :: c in rest ==> c in s;
        SamePieces(rest);
        assert Pieces(s) == [s[..n]] + Pieces(rest);
        assert Segments(s) == (if n == 0 then [] else [s[..n]]) + Segments(rest);
      } else {
        assert s[..n] == s && s[n..] == "";
      }
    }
  }

  lemma DotlessSegments(p: string)
    requires Rooted(p) && Plain(p)
    ensures Dotless(p) <==> forall x :: x in Segments(p) ==> !Dots(x)
  {
    assert forall c :: c in p[1..] ==> c in p;
    SamePieces(p[1..]);
    SegmentsNotEmpty(p[1..]);
    assert Segments(p) == Segments(p[1..]);
    DotsBegin("");
  }

  lemma {:induction false} IndexBefore(a: string, b: string, c: char)
    requires IndexOf(a, c) < |a|
    ensures IndexOf(a + b, c) == IndexOf(a, c)
  {
    if a[0] != c {
      assert (a + b)[1..] == a[1..] + b;
      IndexBefore(a[1..], b, c);
    }
  }

  lemma {:induction false} SegmentsSlash(s: string)
    ensures Segments(s + "/") == Segments(s)
    decreases |s|
  {
    var t := s + "/";
    if s == "" {
      assert t[1..] == "";
    } else if s[0] == '/' {
      assert t[1..] == s[1..] + "/";
      SegmentsSlash(s[1..]);
    } else {
      var n := IndexOf(s, '/');
      if n < |s| { IndexBefore(s, "/", '/'); } else { IndexAfter(s, "/", '/'); }
      assert IndexOf(t, '/') == n && t[..n] == s[..n] && t[n..] == s[n..] + "/";
      SegmentsSlash(s[n..]);
    }
  }

  lemma {:induction false} SegmentsStripped(s: string)
    ensures Segments(StripSlashes(s)) == Segments(s)
  {
    if s != "" && s[|s| - 1] == '/' {
      var front := s[..|s| - 1];
      SegmentsStripped(front);
      SegmentsSlash(front);
      assert s == front + "/";
    }
  }

  /** Trimming a resolved path leaves it resolved, with the same segments. */
  lemma TrimmedResolved(p: string)
    requires Resolved(p)
    ensures Resolved(Trimmed(p)) && Segments(Trimmed(p)) == Segments(p)
  {
    var q := Trimmed(p);
    StrippedShorter(p);
    SegmentsStripped(p);
    assert Segments("/") == [] by { assert "/"[1..] == ""; }
    assert forall c :: c in StripSlashes(p) ==> c in p;
    DotlessSegments(p);
    DotlessSegments(q);
  }

  /** No identifier read from a resolved path is a dot segment. */
  lemma NoDotIds(location: Location)
    requires Resolved(location.pathname)
    ensures !HasDotId(Parse(location))
  {
    var p := Trimmed(location.pathname);
    TrimmedResolved(location.pathname);
    DotlessSegments(p);
    SegmentsNotEmpty(p);
    forall i | 0 <= i < |Segments(p)| ensures !DotId(DecodeSegment(SegmentAt(Segments(p), i))) {
      DotSegments(Segments(p)[i]);
    }
  }

  // ---------------------------------------------------------------- the round trips

  /** Visiting a built path shows the route again, for every route but not-found and every identifier that is not
      empty, exactly if the identifier is not "." or "..": those the browser takes for directories. */
  lemma RouteRoundTrip(route: Route)
    requires !route.NotFound? && IdsNotEmpty(route)
    ensures Visit(Build(route)) == Some(Shown(route)) <==> !HasDotId(route)
  {
    var path, search := PathOf(route), ShownSearch(NormalizedSearch(route.search));
    PathReadsBack(route, search);
    BrowsePlain(path, NormalizedSearch(route.search));
    ResolvingResolves(path);
    NoDotIds(Location(ResolvePath(path), search));
    if !HasDotId(route) {
      DotlessSegments(path);
      ResolvedStays(path);
    }
  }

  /** A path some route claims. */
  predicate Known(pathname: string) {
    var segments := Segments(pathname);
    || pathname in {"/", "/today", "/templates", "/files", "/system/data-boundaries", "/system/about"}
    || (1 <= |segments| <= 2 && segments[0] in {"inbox", "matters", "reviews"})
    || (2 <= |segments| <= 3 && segments[0] == "system" && segments[1] == "agent-runs")
  }

  predicate NotFoundKept(pathname: string) {
    Resolved(pathname) && !OtherHost(pathname) && pathname[|pathname| - 1] != '/' && !Known(pathname)
  }

  /** A not-found route survives exactly when the browser leaves its path as it is, on this host, the path has no
      trailing slash, and no route claims it. */
  lemma NotFoundRoundTrip(route: Route)
    requires route.NotFound?
    ensures Visit(Build(route)) == Some(Shown(route)) <==> NotFoundKept(route.pathname)
  {
    var p := route.pathname;
    if NotFoundKept(p) {
      NotFoundSurvives(route);
    } else if Visit(Build(route)) == Some(Shown(route)) {
      NotFoundMeans(route);
    }
  }

  lemma NotFoundSurvives(route: Route)
    requires route.NotFound? && NotFoundKept(route.pathname)
    ensures Visit(Build(route)) == Some(Shown(route))
  {
    var p := route.pathname;
    BrowsePlain(p, NormalizedSearch(route.search));
    ResolvedStays(p);
    TrimmedUnchanged(p);
    SelectNotFound(p, Segments(p), Some(ShownSearch(NormalizedSearch(route.search))));
  }

  lemma NotFoundMeans(route: Route)
    requires route.NotFound? && Visit(Build(route)) == Some(Shown(route))
    ensures NotFoundKept(route.pathname)
  {
    var p := route.pathname;
    var shown := BrowsedIsResolved(Build(route));
    ParsedPath(shown);
    TrimmedResolved(shown.pathname);
    assert p == Trimmed(shown.pathname);
    BrowsePlain(p, NormalizedSearch(route.search));
    TrimmedEnds(shown.pathname);
    SelectNotFound(p, Segments(p), Some(shown.search));
  }

  /** What the browser shows is a resolved path. */
  lemma BrowsedIsResolved(input: string) returns (shown: Location)
    requires Browse(input).Some?
    ensures Browse(input) == Some(shown) && Resolved(shown.pathname)
  {
    shown := Browse(input).value;
    var s := Cleaned(input);
    var front := s[..IndexOf(s, '#')];
    ResolvingResolves(front[..IndexOf(front, '?')]);
  }

  lemma TrimmedEnds(p: string)
    ensures Trimmed(p) == "/" || Trimmed(p)[|Trimmed(p)| - 1] != '/'
  {
    StrippedEnds(p);
  }

  lemma {:induction false} StrippedEnds(s: string)
    ensures StripSlashes(s) != "" ==> StripSlashes(s)[|StripSlashes(s)| - 1] != '/'
  {
    if s != "" && s[|s| - 1] == '/' { StrippedEnds(s[..|s| - 1]); }
  }

  lemma SelectNotFound(pathname: string, segments: seq<string>, search: Option<string>)
    requires segments == Segments(pathname)
    ensures Select(pathname, segments, search).NotFound? <==> !Known(pathname)
    ensures Select(pathname, segments, search).NotFound? ==> Select(pathname, segments, search) == NotFound(pathname, search)
  {
  }

  /** A not-found route carries the trimmed path. */
  lemma ParsedPath(location: Location)
    ensures Parse(location).NotFound? ==> Parse(location) == NotFound(Trimmed(location.pathname), Some(location.search))
    ensures Parse(location).search == Some(location.search)
  {
  }

  lemma TrimmedUnchanged(p: string)
    ensures Trimmed(p) == p <==> p == "/" || (p != "" && p[|p| - 1] != '/')
  {
    if p != "" && p[|p| - 1] == '/' { StrippedShorter(p[..|p| - 1]); }
  }

  /** A search as a location shows it: empty, or "?" and more, escaped. */
  predicate ValidSearch(search: string) {
    search == "" || (|search| > 1 && search[0] == '?' && forall c :: c in search[1..] ==> QueryPlain(c))
  }

  /** A location of the browser. */
  predicate ValidLocation(location: Location) {
    Resolved(location.pathname) && ValidSearch(location.search)
  }

  lemma {:induction false} NoBreaks(s: string)
    requires forall c :: c in s ==> !Break(c)
    ensures RemoveBreaks(s) == s
  {
    if s != "" { NoBreaks(s[1..]); }
  }

  lemma {:induction false} IndexMissing(s: string, c: char)
    requires c !in s
    ensures IndexOf(s, c) == |s|
  {
    if s != "" { IndexMissing(s[1..], c); }
  }

  lemma CleanSearch(search: string)
    requires search != "" && ValidSearch(search)
    ensures StripBack(search) == search && RemoveBreaks(search) == search && '#' !in search
  {
    assert search[|search| - 1] in search[1..];
    assert forall c :: c in search ==> c == '?' || c in search[1..];
    NoBreaks(search);
  }

  /** A search that is shown already is shown as it is. */
  lemma SearchStays(search: string)
    requires ValidSearch(search)
    ensures ShownSearch(search) == search && NormalizedSearch(Some(search)) == search
  {
    if search != "" {
      CleanSearch(search);
      IndexMissing(search, '#');
      assert search[..|search|] == search;
      PlainEscape(search[1..], QueryPlain);
      assert search == "?" + search[1..];
    }
  }

  lemma {:induction false} SegmentsNotEmpty(s: string)
    ensures forall i :: 0 <= i < |Segments(s)| ==> Segments(s)[i] != ""
    decreases |s|
  {
    if s != "" {
      if s[0] == '/' { SegmentsNotEmpty(s[1..]); } else { SegmentsNotEmpty(s[IndexOf(s, '/')..]); }
    }
  }

  lemma ParsedIds(location: Location)
    ensures IdsNotEmpty(Parse(location))
  {
    var segments := Segments(Trimmed(location.pathname));
    SegmentsNotEmpty(Trimmed(location.pathname));
    forall i | 0 <= i < |segments| ensures DecodeSegment(Some(segments[i])) != Some("") {
      if Decode(segments[i]).Some? { DecodedIsNotEmpty(segments[i]); }
    }
  }

  /** Trimming does not change whether a path that no route claims names another host. */
  lemma TrimmedHost(p: string)
    requires Rooted(p) && Trimmed(p) != "/"
    ensures OtherHost(Trimmed(p)) <==> OtherHost(p)
  {
    StrippedShorter(p);
    StrippedEnds(p);
  }

  /** Printing a parsed location and visiting the result shows the same route again, malformed escapes, doubled and
      trailing slashes included, except where no route claims a path that begins with two slashes. */
  lemma ParseBuildParse(location: Location)
    requires ValidLocation(location)
    ensures Visit(Build(Parse(location))) == Some(Parse(location))
            <==> !(Parse(location).NotFound? && OtherHost(location.pathname))
  {
    var route := Parse(location);
    ParsedIds(location);
    ParsedPath(location);
    SearchStays(location.search);
    assert Shown(route) == route;
    if route.NotFound? {
      var p := Trimmed(location.pathname);
      NotFoundRoundTrip(route);
      TrimmedResolved(location.pathname);
      TrimmedEnds(location.pathname);
      SelectNotFound(p, Segments(p), Some(location.search));
      TrimmedHost(location.pathname);
    } else {
      NoDotIds(location);
      RouteRoundTrip(route);
    }
  }

  // ---------------------------------------------------------------- the exceptions, concretely

  lemma CasesUnknown()
    ensures !Known("//cases")
  {
    assert "//cases"[2] == 'c' && |"//cases"| == 7;
    assert "inbox"[0] == 'i' && "matters"[0] == 'm' && "reviews"[0] == 'r' && |"system"| == 6;
    assert |"/today"| == 6 && "/templates"[1] == 't' && |"/files"| == 6 && "/system/data-boundaries"[1] == 's' && "/system/about"[1] == 's';
  }

  lemma CasesPath()
    ensures Segments("//cases") == ["cases"] && Plain("//cases") && Trimmed("//cases") == "//cases" && OtherHost("//cases")
  {
    assert "//cases"[1..] == "/" + "cases" + "";
    SegmentsJoin("cases", "");
    assert Segments("//cases") == Segments("//cases"[1..]);
    assert "//cases"[2] == 'c' && |"//cases"| == 7;
  }

  /** The page for the path "//cases" cannot be navigated to by its own route: the printed path names a host. */
  lemma LostNotFoundExample()
    ensures ValidLocation(Location("//cases", "")) && Parse(Location("//cases", "")) == NotFound("//cases", Some(""))
    ensures Visit(Build(NotFound("//cases", Some("")))) == None
  {
    CasesPath();
    CasesUnknown();
    FixedDots(["cases"]);
    DotlessSegments("//cases");
    SelectNotFound("//cases", ["cases"], Some(""));
    BrowsePlain("//cases", "");
  }

  lemma ResolveUp(path: seq<string>)
    requires |path| == 1
    ensures Resolve([".."], path) == [""]
  {
    PlainEscape("..", PathPlain);
    assert DoubleDot("..") && Popped(path) == [];
    assert Resolve([], [""]) == [""];
  }

  lemma ResolveParent(name: string)
    requires CleanPiece(name)
    ensures Resolve([name, ".."], []) == [""]
  {
    PlainEscape(name, PathPlain);
    assert [name, ".."][1..] == [".."] && [] + [name] == [name];
    ResolveUp([name]);
  }

  /** The directory above a page of the first level is the root. */
  lemma ParentIsRoot(name: string)
    requires CleanPiece(name)
    ensures ResolvePath("/" + name + "/..") == "/"
  {
    var p, s := "/" + name + "/..", name + "/" + "..";
    assert p[1..] == s;
    HeadOf(name, "..");
    assert s[..|name|] == name && s[|name| + 1..] == "..";
    assert Pieces("..") == [".."];
    assert [name] + [".."] == [name, ".."];
    ResolveParent(name);
  }

  lemma MattersText()
    ensures CleanPiece("matters") && "/" + "matters" + "/.." == "/matters/.." && Encode("..") == ".."
  {
    DotsBegin("matters");
    assert ".."[1..] == "." && "."[1..] == "";
  }

  lemma MattersPath()
    ensures PathOf(Matters(Some(".."), None)) == "/matters/.."
    ensures Rooted("/matters/..") && Plain("/matters/..") && !OtherHost("/matters/..")
  {
    MattersText();
    assert "/matters" + ("/" + "..") == "/matters/..";
  }

  /** A rooted plain path without a search that resolves to the root shows the start page. */
  lemma RootIsToday(path: string)
    requires Rooted(path) && Plain(path) && !OtherHost(path) && ResolvePath(path) == "/"
    ensures Visit(path) == Some(Today(Some("")))
  {
    BrowsePlain(path, "");
    SearchStays("");
    assert path + "" == path;
    assert "/"[..0] == "" && Trimmed("/") == "/";
    assert Browse(path) == Some(Location("/", ""));
  }

  lemma BuiltWithoutSearch(route: Route)
    requires route.search == None
    ensures Build(route) == PathOf(route)
  {
  }

  /** The page of a matter called ".." is the start page. */
  lemma LostMatterExample()
    ensures Visit(Build(Matters(Some(".."), None))) == Some(Today(Some("")))
  {
    MattersText();
    MattersPath();
    ParentIsRoot("matters");
    RootIsToday("/matters/..");
    BuiltWithoutSearch(Matters(Some(".."), None));
  }
}
