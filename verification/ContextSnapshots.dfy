/** What an analysis run gets to read: a bounded choice of messages and document segments that share
    one character budget. */
module ContextSnapshots {
  import opened Prelude
  import Sorting
  import opened Text

  // ---------------------------------------------------------------- choosing messages

  /** `text` is the canonical JSON of the message's content. */
  datatype Message = Message(id: string, created: Option<int>, text: string)

  predicate SameTime(a: Message, b: Message) {
    a.created == b.created
  }

  /** A message without a time counts as older than any message with one. */
  predicate Earlier(a: Message, b: Message) {
    b.created.Some? && (a.created.None? || a.created.value < b.created.value)
  }

  /** The order of (create_time, message_id). */
  predicate Before(a: Message, b: Message) {
    Earlier(a, b) || (SameTime(a, b) && StringLess(a.id, b.id))
  }

  lemma BeforeIsOrder(a: Message, b: Message, c: Message)
    ensures Before(a, b) && Before(b, c) ==> Before(a, c)
    ensures !(Before(a, b) && Before(b, a)) && !Before(a, a)
    ensures a.id != b.id ==> Before(a, b) || Before(b, a)
  {
    StringTrichotomy(a.id, b.id);
    if StringLess(a.id, b.id) && StringLess(b.id, c.id) { StringTransitive(a.id, b.id, c.id); }
  }

  lemma NegativelyTransitive(a: Message, b: Message, c: Message)
    requires Before(a, c)
    ensures Before(a, b) || Before(b, c)
  {
    StringTrichotomy(a.id, b.id);
    StringTrichotomy(b.id, c.id);
    if StringLess(b.id, a.id) && StringLess(a.id, c.id) { StringTransitive(b.id, a.id, c.id); }
  }

  ghost predicate DistinctIds(s: seq<Message>) {
    forall i, j :: 0 <= i < j < |s| ==> s[i].id != s[j].id
  }

  /** Oldest first, strictly. */
  ghost predicate Chronological(s: seq<Message>) {
    forall i, j :: 0 <= i < j < |s| ==> Before(s[i], s[j])
  }

  function Chronologically(s: seq<Message>): seq<Message> {
    Sorting.Sorted(s, (a, b) => Before(a, b))
  }

  lemma SortMessages(s: seq<Message>)
    requires DistinctIds(s)
    ensures |Chronologically(s)| == |s| && Chronological(Chronologically(s)) && DistinctIds(Chronologically(s))
    ensures forall m :: m in Chronologically(s) <==> m in s
  {
    var before := (a: Message, b: Message) => Before(a, b);
    var t := Chronologically(s);
    Sorting.SortedKeeps(s, before);
    forall a, b, c | a in s && b in s && c in s && before(a, c) ensures before(a, b) || before(b, c) {
      NegativelyTransitive(a, b, c);
    }
    forall a, b | a in s && b in s && before(a, b) ensures !before(b, a) {
      BeforeIsOrder(a, b, b);
    }
    Sorting.SortedOrders(s, before);
    DistinctFromMultiset(s, t);
    forall i, j | 0 <= i < j < |t| ensures Before(t[i], t[j]) && t[i].id != t[j].id {
      BeforeIsOrder(t[i], t[j], t[j]);
    }
  }

  /** A rearrangement of distinct messages has no message twice. */
  lemma DistinctFromMultiset(s: seq<Message>, t: seq<Message>)
    requires DistinctIds(s) && multiset(s) == multiset(t)
    ensures forall i, j :: 0 <= i < j < |t| ==> t[i] != t[j]
  {
    forall i, j | 0 <= i < j < |t| ensures t[i] != t[j] {
      if t[i] == t[j] {
        Twice(t, i, j);
        Once(s, t[i]);
      }
    }
  }

  lemma Twice(t: seq<Message>, i: nat, j: nat)
    requires i < j < |t| && t[i] == t[j]
    ensures multiset(t)[t[i]] >= 2
  {
    assert t == t[..j] + [t[j]] + t[j + 1..];
    assert t[..j][i] == t[i];
    assert t[i] in multiset(t[..j]);
  }

  lemma {:induction false} Once(s: seq<Message>, m: Message)
    requires DistinctIds(s)
    ensures multiset(s)[m] <= 1
  {
    if s != [] {
      var n := |s| - 1;
      assert s == s[..n] + [s[n]];
      Once(s[..n], m);
      if s[n] == m {
        assert m !in s[..n];
        assert m !in multiset(s[..n]);
      }
    }
  }

  /** The message dictionary: the last of several entries with one id, and the current message itself. */
  function Unique(available: seq<Message>): map<string, Message> {
    if available == [] then map[]
    else Unique(available[..|available| - 1])[available[|available| - 1].id := available[|available| - 1]]
  }

  lemma {:induction false} UniqueKeys(available: seq<Message>)
    ensures forall id :: id in Unique(available) ==> Unique(available)[id].id == id && Unique(available)[id] in available
    ensures Unique(available).Keys == set m | m in available :: m.id
  {
    if available != [] {
      UniqueKeys(available[..|available| - 1]);
      assert available == available[..|available| - 1] + [available[|available| - 1]];
    }
  }

  method Values(m: map<string, Message>) returns (s: seq<Message>)
    requires forall id :: id in m ==> m[id].id == id
    ensures |s| == |m| && DistinctIds(s)
    ensures forall x :: x in s <==> x.id in m && m[x.id] == x
  {
    s := [];
    var left := m.Keys;
    while left != {}
      invariant left <= m.Keys && |s| + |left| == |m|
      invariant DistinctIds(s)
      invariant forall x :: x in s <==> x.id in m && x.id !in left && m[x.id] == x
      decreases left
    {
      var id :| id in left;
      left := left - {id};
      assert m[id] !in s && forall i :: 0 <= i < |s| ==> s[i] in s;
      s := s + [m[id]];
    }
    assert |m.Keys| == |m|;
  }

  /** The chosen messages: the current one and, of all others, the newest that fit the count. */
  ghost predicate NewestOthers(chosen: seq<Message>, all: map<string, Message>, current: Message, maxMessages: nat) {
    && Chronological(chosen) && DistinctIds(chosen)
    && current in chosen
    && (forall m :: m in chosen ==> m.id in all && all[m.id] == m)
    && |chosen| == (if |all| < maxMessages then |all| else maxMessages)
    && (forall id, m :: id in all && all[id] !in chosen && m in chosen && m != current ==> Before(all[id], m))
  }

  method SelectMessages(current: Message, available: seq<Message>, maxMessages: nat) returns (chosen: seq<Message>)
    requires maxMessages >= 1
    ensures NewestOthers(chosen, Unique(available)[current.id := current], current, maxMessages)
  {
    UniqueKeys(available);
    var unique := Unique(available)[current.id := current];
    var values := Values(unique);
    SortMessages(values);
    var ordered := Chronologically(values);
    assert current in ordered;
    var from := if |ordered| > maxMessages then |ordered| - maxMessages else 0;
    var selected := ordered[from..];
    SameIdSameMessage(ordered, from, unique, current);
    if current.id !in set m | m in selected :: m.id {
      selected := selected[1..] + [current];
    }
    PickedIsNewest(ordered, from, selected, current);
    SortMessages(selected);
    chosen := Chronologically(selected);
    Conclude(ordered, from, selected, chosen, unique, current, maxMessages);
  }

  lemma SameIdSameMessage(ordered: seq<Message>, from: nat, all: map<string, Message>, current: Message)
    requires from <= |ordered| && current in ordered
    requires forall m :: m in ordered ==> m.id in all && all[m.id] == m
    ensures current in ordered[from..] <==> current.id in set m | m in ordered[from..] :: m.id
  {
    assert forall m :: m in ordered[from..] ==> m in ordered;
  }

  lemma Conclude(ordered: seq<Message>, from: nat, picked: seq<Message>, chosen: seq<Message>,
                 all: map<string, Message>, current: Message, maxMessages: nat)
    requires |ordered| == |all| && from == (if |ordered| > maxMessages then |ordered| - maxMessages else 0)
    requires forall m :: m in ordered <==> m.id in all && all[m.id] == m
    requires forall id :: id in all ==> all[id].id == id
    requires |picked| == |ordered| - from && current in picked
    requires forall m :: m in picked ==> m in ordered
    requires forall x, m :: x in ordered && x !in picked && m in picked && m != current ==> Before(x, m)
    requires |chosen| == |picked| && Chronological(chosen) && DistinctIds(chosen)
    requires forall m :: m in chosen <==> m in picked
    ensures NewestOthers(chosen, all, current, maxMessages)
  {
    forall id, m | id in all && all[id] !in chosen && m in chosen && m != current ensures Before(all[id], m) {
      assert all[id] in ordered;
    }
  }

  /** A current message that was cut off is among the older ones. */
  lemma NotSelected(ordered: seq<Message>, from: nat, current: Message)
    requires from <= |ordered| && current in ordered && current !in ordered[from..]
    ensures exists k :: 0 <= k < from && ordered[k] == current
  {
    forall i | from <= i < |ordered| ensures ordered[i] in ordered[from..] {
      assert ordered[from..][i - from] == ordered[i];
    }
    var k :| 0 <= k < |ordered| && ordered[k] == current;
  }

  lemma PickedIsNewest(ordered: seq<Message>, from: nat, picked: seq<Message>, current: Message)
    requires Chronological(ordered) && DistinctIds(ordered) && current in ordered && from < |ordered|
    requires if current in ordered[from..] then picked == ordered[from..]
             else picked == ordered[from..][1..] + [current]
    ensures |picked| == |ordered| - from && current in picked && DistinctIds(picked)
    ensures forall m :: m in picked ==> m in ordered
    ensures forall x, m :: x in ordered && x !in picked && m in picked && m != current ==> Before(x, m)
  {
    var kept := if current in ordered[from..] then from else from + 1;
    forall m | m in picked && m != current ensures exists k :: kept <= k < |ordered| && ordered[k] == m {
      var i :| 0 <= i < |picked| && picked[i] == m;
      assert ordered[kept + i] == m;
    }
    forall i | kept <= i < |ordered| ensures ordered[i] in picked {
      assert picked[i - kept] == ordered[i];
    }
    forall x | x in ordered && x !in picked ensures exists k :: 0 <= k < kept && ordered[k] == x {
      var k :| 0 <= k < |ordered| && ordered[k] == x;
    }
    forall x, m | x in ordered && x !in picked && m in picked && m != current ensures Before(x, m) {
      var k :| 0 <= k < kept && ordered[k] == x;
      var l :| kept <= l < |ordered| && ordered[l] == m;
    }
    if current !in ordered[from..] {
      NotSelected(ordered, from, current);
      assert picked[|picked| - 1] == current;
    }
  }

  // ---------------------------------------------------------------- the message budget

  datatype Limits = Limits(maxMessages: nat, maxText: nat, singleMessage: Option<nat>, maxAttachments: nat,
                           maxSegments: nat, maxSegmentText: nat)

  /** `max_single_message_characters or max_text_characters` */
  function SingleLimit(l: Limits): nat {
    if l.singleMessage.Some? && l.singleMessage.value != 0 then l.singleMessage.value else l.maxText
  }

  /** The bounds the builder's constructor accepts. */
  predicate ValidLimits(l: Limits) {
    l.maxMessages >= 1 && l.maxText >= 1 && SingleLimit(l) >= 1 && l.maxSegments >= 1 && l.maxSegmentText >= 1
  }

  function Min(a: int, b: int): int {
    if a < b then a else b
  }

  function Max(a: int, b: int): int {
    if a < b then b else a
  }

  /** The current message first, then the others from the newest to the oldest. */
  predicate Precedes(currentId: string, a: Message, b: Message) {
    if (a.id == currentId) != (b.id == currentId) then a.id == currentId else Before(b, a)
  }

  function Prioritized(messages: seq<Message>, currentId: string): seq<Message> {
    Sorting.Sorted(messages, (a, b) => Precedes(currentId, a, b))
  }

  /** How much of a message is included. */
  datatype Share = Share(message: Message, included: string)

  /** The most a message may take whatever the budget. */
  function Cap(m: Message, l: Limits): nat {
    Min(|m.text|, SingleLimit(l))
  }

  function OriginalSize(shares: seq<Share>): nat {
    if shares == [] then 0 else OriginalSize(shares[..|shares| - 1]) + |shares[|shares| - 1].message.text|
  }

  function IncludedSize(shares: seq<Share>): nat {
    if shares == [] then 0 else IncludedSize(shares[..|shares| - 1]) + |shares[|shares| - 1].included|
  }

  /** The message gets its cap or what the messages before it left, as the start of its text. */
  predicate TakesItsPart(shares: seq<Share>, i: nat, l: Limits)
    requires i < |shares|
  {
    && shares[i].included <= shares[i].message.text
    && |shares[i].included| == Min(Cap(shares[i].message, l), l.maxText - IncludedSize(shares[..i]))
  }

  ghost predicate Waterfall(shares: seq<Share>, l: Limits) {
    forall i :: 0 <= i < |shares| ==> TakesItsPart(shares, i, l)
  }

  predicate OverSingle(share: Share, l: Limits) {
    |share.message.text| > SingleLimit(l)
  }

  /** Given less than its cap. */
  predicate Starved(share: Share, l: Limits) {
    |share.included| < Cap(share.message, l)
  }

  ghost predicate AnyOverSingle(shares: seq<Share>, l: Limits) {
    exists i :: 0 <= i < |shares| && OverSingle(shares[i], l)
  }

  ghost predicate AnyStarved(shares: seq<Share>, l: Limits) {
    exists i :: 0 <= i < |shares| && Starved(shares[i], l)
  }

  /** The reasons name exactly the limits that cut something. */
  predicate ReasonsTell(reasons: seq<string>, overSingle: bool, starved: bool) {
    && (forall r :: r in reasons ==> r == "single_message_limit" || r == "total_character_limit")
    && ("single_message_limit" in reasons <==> overSingle)
    && ("total_character_limit" in reasons <==> starved)
  }

  datatype Metrics = Metrics(reasons: seq<string>, original: nat, included: nat)

  method BuildContent(messages: seq<Message>, currentId: string, l: Limits)
    returns (shares: seq<Share>, metrics: Metrics)
    requires ValidLimits(l)
    ensures MessagesOf(shares) == Prioritized(messages, currentId)
    ensures Waterfall(shares, l)
    ensures ReasonsTell(metrics.reasons, AnyOverSingle(shares, l), AnyStarved(shares, l))
    ensures metrics.original == OriginalSize(shares) && metrics.included == IncludedSize(shares) <= l.maxText
  {
    var remaining: int := l.maxText;
    var reasons: seq<string> := [];
    shares := [];
    var prioritized := Prioritized(messages, currentId);
    for i := 0 to |prioritized|
      invariant MessagesOf(shares) == prioritized[..i]
      invariant remaining == l.maxText - IncludedSize(shares) && remaining >= 0
      invariant Waterfall(shares, l)
      invariant ReasonsTell(reasons, AnyOverSingle(shares, l), AnyStarved(shares, l))
    {
      var raw := prioritized[i].text;
      var perMessage := raw[..Min(|raw|, SingleLimit(l))];
      if |raw| > |perMessage| {
        reasons := reasons + ["single_message_limit"];
      }
      var included := perMessage[..Min(|perMessage|, Max(remaining, 0))];
      if |perMessage| > |included| {
        reasons := reasons + ["total_character_limit"];
      }
      var share := Share(prioritized[i], included);
      CutTwice(share.message, remaining, l);
      WaterfallAdded(shares, share, l);
      AnyAdded(shares, share, l);
      MessagesAdded(shares, share);
      shares := shares + [share];
      remaining := remaining - |included|;
    }
    metrics := Metrics(reasons, OriginalSize(shares), IncludedSize(shares));
  }

  lemma CutTwice(m: Message, remaining: nat, l: Limits)
    ensures var perMessage := m.text[..Min(|m.text|, SingleLimit(l))];
            perMessage[..Min(|perMessage|, Max(remaining, 0))] == m.text[..Min(Cap(m, l), remaining)]
  {
  }

  function MessagesOf(shares: seq<Share>): seq<Message> {
    seq(|shares|, i requires 0 <= i < |shares| => shares[i].message)
  }

  lemma MessagesAdded(shares: seq<Share>, share: Share)
    ensures MessagesOf(shares + [share]) == MessagesOf(shares) + [share.message]
  {
  }

  lemma WaterfallAdded(shares: seq<Share>, share: Share, l: Limits)
    requires Waterfall(shares, l) && IncludedSize(shares) <= l.maxText
    requires share.included == share.message.text[..Min(Cap(share.message, l), l.maxText - IncludedSize(shares))]
    ensures Waterfall(shares + [share], l)
    ensures IncludedSize(shares + [share]) == IncludedSize(shares) + |share.included| <= l.maxText
  {
    var all := shares + [share];
    assert all[..|shares|] == shares;
    forall i | 0 <= i < |all| ensures TakesItsPart(all, i, l) {
      if i < |shares| {
        assert all[..i] == shares[..i];
        assert TakesItsPart(shares, i, l);
      }
    }
  }

  lemma AnyAdded(shares: seq<Share>, share: Share, l: Limits)
    ensures AnyOverSingle(shares + [share], l) <==> AnyOverSingle(shares, l) || OverSingle(share, l)
    ensures AnyStarved(shares + [share], l) <==> AnyStarved(shares, l) || Starved(share, l)
  {
    var all := shares + [share];
    assert all[|shares|] == share;
    assert forall i :: 0 <= i < |shares| ==> all[i] == shares[i];
  }

  // ---------------------------------------------------------------- what the message budget means

  lemma PrioritizedOrder(messages: seq<Message>, currentId: string)
    requires DistinctIds(messages)
    ensures var p := Prioritized(messages, currentId);
            |p| == |messages| && (forall m :: m in p <==> m in messages)
            && forall i, j :: 0 <= i < j < |p| ==> Precedes(currentId, p[i], p[j])
  {
    var before := (a: Message, b: Message) => Precedes(currentId, a, b);
    var p := Prioritized(messages, currentId);
    Sorting.SortedKeeps(messages, before);
    forall a, b, c | a in messages && b in messages && c in messages && before(a, c) ensures before(a, b) || before(b, c) {
      if Before(c, a) { NegativelyTransitive(c, b, a); }
    }
    forall a, b | a in messages && b in messages && before(a, b) ensures !before(b, a) {
      BeforeIsOrder(a, b, b);
    }
    Sorting.SortedOrders(messages, before);
    DistinctFromMultiset(messages, p);
    forall i, j | 0 <= i < j < |p| ensures Precedes(currentId, p[i], p[j]) {
      assert p[i] in messages && p[j] in messages;
      BeforeIsOrder(p[i], p[j], p[j]);
    }
  }

  lemma {:induction false} IncludedGrows(shares: seq<Share>, i: nat)
    requires i <= |shares|
    ensures IncludedSize(shares[..i]) <= IncludedSize(shares)
    decreases |shares|
  {
    if i < |shares| {
      IncludedGrows(shares[..|shares| - 1], i);
      assert shares[..|shares| - 1][..i] == shares[..i];
    } else {
      assert shares[..i] == shares;
    }
  }

  /** Once a message is cut by the shared budget, every message after it gets nothing. */
  lemma StarvedThenNothing(shares: seq<Share>, l: Limits, i: nat, j: nat)
    requires Waterfall(shares, l) && i < j < |shares| && Starved(shares[i], l)
    ensures shares[j].included == ""
  {
    assert TakesItsPart(shares, i, l) && TakesItsPart(shares, j, l);
    assert shares[..i + 1][..i] == shares[..i];
    assert shares[..j][..i + 1] == shares[..i + 1];
    IncludedGrows(shares[..j], i + 1);
  }

  /** The current message is served first: its part depends on its own text and the limits alone. */
  lemma CurrentServedFirst(messages: seq<Message>, current: Message, shares: seq<Share>, l: Limits)
    requires DistinctIds(messages) && current in messages
    requires MessagesOf(shares) == Prioritized(messages, current.id) && Waterfall(shares, l)
    ensures |shares| >= 1 && shares[0] == Share(current, current.text[..Min(Cap(current, l), l.maxText)])
  {
    PrioritizedOrder(messages, current.id);
    var p := Prioritized(messages, current.id);
    var k :| 0 <= k < |p| && p[k] == current;
    assert |shares| == |p|;
    assert p[0] in messages;
    if k > 0 {
      assert Precedes(current.id, p[0], p[k]);
      BeforeIsOrder(current, p[0], p[0]);
    }
    assert shares[0].message == MessagesOf(shares)[0];
    assert TakesItsPart(shares, 0, l);
    assert shares[..0] == [];
  }

  lemma {:induction false} WaterfallPrefix(shares: seq<Share>, l: Limits, n: nat)
    requires Waterfall(shares, l) && n <= |shares|
    ensures Waterfall(shares[..n], l)
  {
    forall i | 0 <= i < n ensures TakesItsPart(shares[..n], i, l) {
      assert shares[..n][..i] == shares[..i];
      assert TakesItsPart(shares, i, l);
    }
  }

  lemma {:induction false} WithinBudget(shares: seq<Share>, l: Limits)
    requires Waterfall(shares, l)
    ensures IncludedSize(shares) <= l.maxText
  {
    if shares != [] {
      WaterfallPrefix(shares, l, |shares| - 1);
      WithinBudget(shares[..|shares| - 1], l);
      assert TakesItsPart(shares, |shares| - 1, l);
    }
  }

  /** Nothing is added, and nothing is lost unless one of the two limits cut a message. */
  lemma {:induction false} SharesBounded(shares: seq<Share>, l: Limits)
    requires Waterfall(shares, l)
    ensures IncludedSize(shares) <= OriginalSize(shares)
    ensures IncludedSize(shares) == OriginalSize(shares) <==> !AnyOverSingle(shares, l) && !AnyStarved(shares, l)
  {
    if shares != [] {
      var n := |shares| - 1;
      WaterfallPrefix(shares, l, n);
      SharesBounded(shares[..n], l);
      assert shares == shares[..n] + [shares[n]];
      AnyAdded(shares[..n], shares[n], l);
      assert TakesItsPart(shares, n, l);
    }
  }
}
