/** Synchronising the documents of one selected folder, with or without its subfolders. Folders may
    contain each other in cycles. */
module FolderSync {
  import opened Prelude
  import opened Text

  /** One entry of a folder listing; missing fields are empty strings. */
  datatype Item = Item(token: string, kind: string)

  /** The pages of a folder, in the order the page tokens lead through them. */
  type Listing = pages: seq<seq<Item>> | |pages| > 0 witness [[]]

  /** The folders the API knows; asking for any other one fails. */
  type Drive = map<string, Listing>

  datatype Error = FolderUnavailable(folder: string) | DocumentFailed(document: string)

  datatype Report = Report(discovered: nat, created: nat)

  function ToLower(s: string): string {
    seq(|s|, i requires 0 <= i < |s| => if 'A' <= s[i] <= 'Z' then s[i] - 'A' + 'a' else s[i])
  }

  predicate IsFolder(item: Item) {
    Strip(item.token) != "" && ToLower(Strip(item.kind)) == "folder"
  }

  predicate IsDocument(item: Item) {
    Strip(item.token) != "" && ToLower(Strip(item.kind)) == "docx"
  }

  predicate OneOf(c: char, lower: char, upper: char) {
    c == lower || c == upper
  }

  lemma DocumentKind(kind: string)
    ensures ToLower(kind) == "docx" <==>
            |kind| == 4 && OneOf(kind[0], 'd', 'D') && OneOf(kind[1], 'o', 'O') && OneOf(kind[2], 'c', 'C') && OneOf(kind[3], 'x', 'X')
  {
    if |kind| == 4 { assert ToLower(kind) == [ToLower(kind)[0], ToLower(kind)[1], ToLower(kind)[2], ToLower(kind)[3]]; }
  }

  lemma FolderKind(kind: string)
    ensures ToLower(kind) == "folder" <==>
            && |kind| == 6 && OneOf(kind[0], 'f', 'F') && OneOf(kind[1], 'o', 'O') && OneOf(kind[2], 'l', 'L')
            && OneOf(kind[3], 'd', 'D') && OneOf(kind[4], 'e', 'E') && OneOf(kind[5], 'r', 'R')
  {
    if |kind| == 6 {
      assert ToLower(kind) == [ToLower(kind)[0], ToLower(kind)[1], ToLower(kind)[2], ToLower(kind)[3], ToLower(kind)[4], ToLower(kind)[5]];
    }
  }

  /** A document is an entry with a token and the kind "docx", a folder one with the kind "folder", in letters of either
      case and with blanks around them. */
  lemma KindsDecide(item: Item)
    ensures var kind := Strip(item.kind);
            && (IsDocument(item) <==>
                  && Strip(item.token) != "" && |kind| == 4 && OneOf(kind[0], 'd', 'D') && OneOf(kind[1], 'o', 'O')
                  && OneOf(kind[2], 'c', 'C') && OneOf(kind[3], 'x', 'X'))
            && (IsFolder(item) <==>
                  && Strip(item.token) != "" && |kind| == 6 && OneOf(kind[0], 'f', 'F') && OneOf(kind[1], 'o', 'O')
                  && OneOf(kind[2], 'l', 'L') && OneOf(kind[3], 'd', 'D') && OneOf(kind[4], 'e', 'E') && OneOf(kind[5], 'r', 'R'))
  {
    DocumentKind(Strip(item.kind));
    FolderKind(Strip(item.kind));
  }

  function FolderTokens(items: seq<Item>): set<string> {
    set i | 0 <= i < |items| && IsFolder(items[i]) :: Strip(items[i].token)
  }

  function DocumentTokens(items: seq<Item>): set<string> {
    set i | 0 <= i < |items| && IsDocument(items[i]) :: Strip(items[i].token)
  }

  /** All items of the first `n` pages. */
  function Listed(pages: seq<seq<Item>>, n: nat): seq<Item>
    requires n <= |pages|
  {
    if n == 0 then [] else Listed(pages, n - 1) + pages[n - 1]
  }

  function Subfolders(drive: Drive, folder: string): set<string> {
    if folder in drive then FolderTokens(Listed(drive[folder], |drive[folder]|)) else {}
  }

  function Documents(drive: Drive, folder: string): set<string> {
    if folder in drive then DocumentTokens(Listed(drive[folder], |drive[folder]|)) else {}
  }

  lemma TokensSplit(a: seq<Item>, b: seq<Item>)
    ensures FolderTokens(a + b) == FolderTokens(a) + FolderTokens(b)
    ensures DocumentTokens(a + b) == DocumentTokens(a) + DocumentTokens(b)
  {
    var all := a + b;
    forall i | 0 <= i < |all|
      ensures IsFolder(all[i]) ==> Strip(all[i].token) in FolderTokens(a) + FolderTokens(b)
      ensures IsDocument(all[i]) ==> Strip(all[i].token) in DocumentTokens(a) + DocumentTokens(b)
    {
      assert all[i] == if i < |a| then a[i] else b[i - |a|];
    }
    forall i | 0 <= i < |a|
      ensures IsFolder(a[i]) ==> Strip(a[i].token) in FolderTokens(all)
      ensures IsDocument(a[i]) ==> Strip(a[i].token) in DocumentTokens(all)
    {
      assert all[i] == a[i];
    }
    forall i | 0 <= i < |b|
      ensures IsFolder(b[i]) ==> Strip(b[i].token) in FolderTokens(all)
      ensures IsDocument(b[i]) ==> Strip(b[i].token) in DocumentTokens(all)
    {
      assert all[|a| + i] == b[i];
    }
  }

  // ---------------------------------------------------------------- what is to be visited

  ghost predicate Trail(drive: Drive, trail: seq<string>) {
    trail != [] && forall i :: 0 <= i < |trail| - 1 ==> trail[i + 1] in Subfolders(drive, trail[i])
  }

  ghost predicate Reaches(drive: Drive, root: string, folder: string) {
    exists trail :: Trail(drive, trail) && trail[0] == root && trail[|trail| - 1] == folder
  }

  /** The selected folder alone, or everything below it. */
  ghost predicate Wanted(drive: Drive, root: string, recursive: bool, folder: string) {
    if recursive then Reaches(drive, root, folder) else folder == root
  }

  lemma WantedRoot(drive: Drive, root: string, recursive: bool)
    ensures Wanted(drive, root, recursive, root)
  {
    assert Trail(drive, [root]);
  }

  lemma WantedChild(drive: Drive, root: string, folder: string, child: string)
    requires Reaches(drive, root, folder) && child in Subfolders(drive, folder)
    ensures Reaches(drive, root, child)
  {
    var trail :| Trail(drive, trail) && trail[0] == root && trail[|trail| - 1] == folder;
    var longer := trail + [child];
    assert Trail(drive, longer);
  }

  lemma {:induction false} ClosedCatches(drive: Drive, visited: set<string>, trail: seq<string>)
    requires Trail(drive, trail) && trail[0] in visited
    requires forall f :: f in visited ==> Subfolders(drive, f) <= visited
    ensures trail[|trail| - 1] in visited
  {
    if |trail| > 1 {
      var rest := trail[1..];
      assert trail[0 + 1] in Subfolders(drive, trail[0]);
      forall i | 0 <= i < |rest| - 1 ensures rest[i + 1] in Subfolders(drive, rest[i]) {
        assert trail[(i + 1) + 1] in Subfolders(drive, trail[i + 1]);
      }
      ClosedCatches(drive, visited, rest);
    }
  }

  // ---------------------------------------------------------------- the synchronisation

  /** `sync(d)`: whether synchronising the document made a new version, or nothing if it fails. */
  type Sync = string -> Option<bool>

  function Created(calls: seq<string>, sync: Sync): nat {
    if calls == [] then 0
    else Created(calls[..|calls| - 1], sync) + (if sync(calls[|calls| - 1]) == Some(true) then 1 else 0)
  }

  /** The queue of folders, the documents seen, the calls made for them, and the count. */
  datatype Progress = Progress(pending: seq<string>, documents: set<string>, calls: seq<string>, created: nat)

  /** One call per document seen, all of them successful, and counted. */
  ghost predicate Consistent(p: Progress, sync: Sync) {
    && Distinct(p.calls)
    && Elements(p.calls) == p.documents
    && p.created == Created(p.calls, sync)
    && (forall d :: d in p.documents ==> sync(d).Some?)
  }

  ghost predicate Advanced(p: Progress, q: Progress, items: seq<Item>, recursive: bool, visited: set<string>) {
    && q.documents == p.documents + DocumentTokens(items)
    && Elements(q.pending) == Elements(p.pending) + (if recursive then FolderTokens(items) - visited else {})
  }

  lemma AdvancedTwice(p: Progress, q: Progress, r: Progress, a: seq<Item>, b: seq<Item>, recursive: bool,
                      visited: set<string>)
    requires Advanced(p, q, a, recursive, visited) && Advanced(q, r, b, recursive, visited)
    ensures Advanced(p, r, a + b, recursive, visited)
  {
    TokensSplit(a, b);
  }

  lemma CallAdded(p: Progress, token: string, sync: Sync)
    requires Consistent(p, sync) && token !in p.documents && sync(token).Some?
    ensures Consistent(p.(documents := p.documents + {token}, calls := p.calls + [token],
                          created := p.created + (if sync(token) == Some(true) then 1 else 0)), sync)
  {
    var calls := p.calls + [token];
    assert calls[..|p.calls|] == p.calls;
    assert token in p.calls <==> token in Elements(p.calls);
    assert Elements(calls) == Elements(p.calls) + {token};
  }

  method SyncItem(item: Item, recursive: bool, visited: set<string>, sync: Sync,
                  p: Progress) returns (r: Result<Progress, Error>)
    requires Consistent(p, sync)
    ensures r.Ok? ==> Consistent(r.value, sync) && Advanced(p, r.value, [item], recursive, visited)
    ensures r.Err? ==> IsDocument(item) && sync(Strip(item.token)).None? && r.error == DocumentFailed(Strip(item.token))
  {
    var token := Strip(item.token);
    var kind := ToLower(Strip(item.kind));
    assert [item][0] == item;
    assert FolderTokens([item]) == if IsFolder(item) then {token} else {};
    assert DocumentTokens([item]) == if IsDocument(item) then {token} else {};
    if token == "" { return Ok(p); }
    if kind == "folder" {
      if recursive && token !in visited {
        assert Elements(p.pending + [token]) == Elements(p.pending) + {token};
        return Ok(p.(pending := p.pending + [token]));
      }
      return Ok(p);
    }
    if kind != "docx" || token in p.documents { return Ok(p); }
    var made := sync(token);
    if made.None? { return Err(DocumentFailed(token)); }
    CallAdded(p, token, sync);
    return Ok(p.(documents := p.documents + {token}, calls := p.calls + [token],
                 created := p.created + (if made.value then 1 else 0)));
  }

  /** Some document of the listing cannot be synchronised. */
  ghost predicate SomeFails(items: seq<Item>, sync: Sync) {
    exists d :: d in DocumentTokens(items) && sync(d).None?
  }

  method SyncPage(items: seq<Item>, recursive: bool, visited: set<string>, sync: Sync, p: Progress)
    returns (r: Result<Progress, Error>)
    requires Consistent(p, sync)
    ensures r.Ok? ==> Consistent(r.value, sync) && Advanced(p, r.value, items, recursive, visited)
    ensures r.Err? ==> SomeFails(items, sync)
  {
    var q := p;
    for i := 0 to |items|
      invariant Consistent(q, sync) && Advanced(p, q, items[..i], recursive, visited)
    {
      var next := SyncItem(items[i], recursive, visited, sync, q);
      if next.Err? {
        assert Strip(items[i].token) in DocumentTokens(items);
        return next;
      }
      AdvancedTwice(p, q, next.value, items[..i], [items[i]], recursive, visited);
      assert items[..i + 1] == items[..i] + [items[i]];
      q := next.value;
    }
    assert items[..|items|] == items;
    return Ok(q);
  }

  method SyncPages(pages: Listing, recursive: bool, visited: set<string>, sync: Sync, p: Progress)
    returns (r: Result<Progress, Error>)
    requires Consistent(p, sync)
    ensures r.Ok? ==> Consistent(r.value, sync) && Advanced(p, r.value, Listed(pages, |pages|), recursive, visited)
    ensures r.Err? ==> SomeFails(Listed(pages, |pages|), sync)
  {
    var q := p;
    var page := 0;
    ghost var listed: seq<Item> := [];
    while page < |pages|
      invariant page <= |pages| && listed == Listed(pages, page)
      invariant Consistent(q, sync) && Advanced(p, q, listed, recursive, visited)
    {
      var next := SyncPage(pages[page], recursive, visited, sync, q);
      if next.Err? {
        PageFails(pages, page, sync);
        return next;
      }
      AdvancedTwice(p, q, next.value, listed, pages[page], recursive, visited);
      listed := listed + pages[page];
      q := next.value;
      page := page + 1;
    }
    return Ok(q);
  }

  lemma PageFails(pages: seq<seq<Item>>, page: nat, sync: Sync)
    requires page < |pages| && SomeFails(pages[page], sync)
    ensures SomeFails(Listed(pages, |pages|), sync)
  {
    PageListed(pages, page, |pages|);
  }

  lemma {:induction false} PageListed(pages: seq<seq<Item>>, page: nat, n: nat)
    requires page < n <= |pages|
    ensures DocumentTokens(pages[page]) <= DocumentTokens(Listed(pages, n))
  {
    TokensSplit(Listed(pages, n - 1), pages[n - 1]);
    if page < n - 1 { PageListed(pages, page, n - 1); }
  }

  /** Everything a complete synchronisation touches. */
  ghost predicate Complete(drive: Drive, root: string, recursive: bool, visited: seq<string>, calls: seq<string>) {
    && Distinct(visited)
    && (forall f :: f in visited <==> Wanted(drive, root, recursive, f))
    && Distinct(calls)
    && (forall d :: d in calls <==> exists f :: f in visited && d in Documents(drive, f))
  }

  /** It can be completed: every wanted folder can be listed and every document in them synchronised. */
  ghost predicate Completable(drive: Drive, root: string, recursive: bool, sync: Sync) {
    && (forall f :: Wanted(drive, root, recursive, f) ==> f in drive)
    && (forall f, d :: Wanted(drive, root, recursive, f) && d in Documents(drive, f) ==> sync(d).Some?)
  }

  /** Between two folders: what was visited is wanted and done, and what it leads to is visited or
      waits in the queue. */
  ghost predicate Underway(drive: Drive, root: string, recursive: bool, order: seq<string>, visited: set<string>,
                           p: Progress, sync: Sync) {
    && Distinct(order) && Elements(order) == visited
    && Consistent(p, sync)
    && visited <= drive.Keys
    && (root in visited || root in p.pending)
    && (forall f :: f in visited || f in p.pending ==> Wanted(drive, root, recursive, f))
    && (recursive ==> forall f :: f in visited ==> Subfolders(drive, f) <= visited + Elements(p.pending))
    && (forall d :: d in p.documents <==> exists f :: f in visited && d in Documents(drive, f))
  }

  lemma FolderDone(drive: Drive, root: string, recursive: bool, order: seq<string>, visited: set<string>,
                   p: Progress, q: Progress, sync: Sync, current: string)
    requires p.pending != [] && p.pending[0] == current && current !in visited && current in drive
    requires Underway(drive, root, recursive, order, visited, p, sync) && Consistent(q, sync)
    requires Advanced(p.(pending := p.pending[1..]), q, Listed(drive[current], |drive[current]|), recursive, visited + {current})
    ensures Underway(drive, root, recursive, order + [current], visited + {current}, q, sync)
  {
    assert current in p.pending;
    var rest := p.pending[1..];
    assert forall f :: f in p.pending <==> f == current || f in rest;
    assert forall f :: f in q.pending <==> f in Elements(q.pending);
    assert forall f :: f in rest <==> f in Elements(rest);
    assert current in order <==> current in Elements(order);
    assert Elements(order + [current]) == visited + {current};
    forall f | f in q.pending
      ensures Wanted(drive, root, recursive, f)
    {
      if f !in rest { WantedChild(drive, root, current, f); }
    }
    if recursive {
      forall f | f in visited + {current}
        ensures Subfolders(drive, f) <= visited + {current} + Elements(q.pending)
      {
        if f in visited { assert Subfolders(drive, f) <= visited + Elements(p.pending); }
      }
    }
    forall d ensures d in q.documents <==> exists f :: f in visited + {current} && d in Documents(drive, f) {
      if d in Documents(drive, current) { assert current in visited + {current}; }
      if d in p.documents {
        var f :| f in visited && d in Documents(drive, f);
        assert f in visited + {current};
      }
    }
  }

  lemma AllDone(drive: Drive, root: string, recursive: bool, order: seq<string>, visited: set<string>, p: Progress,
                sync: Sync)
    requires Underway(drive, root, recursive, order, visited, p, sync) && p.pending == []
    ensures Complete(drive, root, recursive, order, p.calls) && Completable(drive, root, recursive, sync)
  {
    assert forall f :: f in order <==> f in Elements(order);
    assert forall d :: d in p.calls <==> d in Elements(p.calls);
    forall f | Wanted(drive, root, recursive, f) ensures f in visited {
      if recursive {
        var trail :| Trail(drive, trail) && trail[0] == root && trail[|trail| - 1] == f;
        ClosedCatches(drive, visited, trail);
      }
    }
  }

  /** Terminates on every drive, and succeeds exactly if the synchronisation can be completed. Then
      it visited each wanted folder once and synchronised each document in them once. */
  method SyncFolder(drive: Drive, root: string, recursive: bool, sync: Sync)
    returns (r: Result<Report, Error>, ghost visits: seq<string>, ghost calls: seq<string>)
    ensures r.Ok? <==> Completable(drive, root, recursive, sync)
    ensures r.Ok? ==> Complete(drive, root, recursive, visits, calls)
    ensures r.Ok? ==> r.value == Report(|Elements(calls)|, Created(calls, sync))
  {
    var p := Progress([root], {}, [], 0);
    var visited: set<string> := {};
    visits, calls := [], [];
    WantedRoot(drive, root, recursive);
    while p.pending != []
      invariant Underway(drive, root, recursive, visits, visited, p, sync)
      decreases drive.Keys - visited, |p.pending|
    {
      var current := p.pending[0];
      assert Wanted(drive, root, recursive, current);
      if current in visited {
        Requeue(drive, root, recursive, visits, visited, p, sync);
        p := p.(pending := p.pending[1..]);
        continue;
      }
      if current !in drive {
        return Err(FolderUnavailable(current)), visits, calls;
      }
      var next := SyncPages(drive[current], recursive, visited + {current}, sync, p.(pending := p.pending[1..]));
      if next.Err? {
        assert exists d :: d in Documents(drive, current) && sync(d).None?;
        return Err(next.error), visits, calls;
      }
      FolderDone(drive, root, recursive, visits, visited, p, next.value, sync, current);
      visited := visited + {current};
      visits := visits + [current];
      p := next.value;
    }
    AllDone(drive, root, recursive, visits, visited, p, sync);
    calls := p.calls;
    return Ok(Report(|p.documents|, p.created)), visits, calls;
  }

  lemma Requeue(drive: Drive, root: string, recursive: bool, order: seq<string>, visited: set<string>, p: Progress,
                sync: Sync)
    requires Underway(drive, root, recursive, order, visited, p, sync) && p.pending != [] && p.pending[0] in visited
    ensures Underway(drive, root, recursive, order, visited, p.(pending := p.pending[1..]), sync)
  {
    var rest := p.pending[1..];
    assert forall f :: f in p.pending <==> f == p.pending[0] || f in rest;
    assert forall f :: f in rest <==> f in Elements(rest);
  }
}
