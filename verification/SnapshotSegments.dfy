/** Attachment and document segments compete for what the messages left of the snapshot's budget. */
module SnapshotSegments {
  import opened Prelude
  import opened ContextSnapshots

  datatype ExtractionStatus = NotRequested | Pending | Extracting | Succeeded | BodyUnavailable | Failed

  datatype Attachment = Attachment(id: string, fileName: string, authorized: bool, status: ExtractionStatus)

  datatype Segment = Segment(attachmentId: Option<string>, page: Option<int>, paragraph: int, hash: string,
                             content: string)

  datatype Document = Document(id: string, token: string, title: string)

  datatype Linked = Linked(document: Document, segment: Segment)

  datatype Citation =
    | AttachmentCitation(attachmentId: string, fileName: string, page: Option<int>, paragraph: int, hash: string)
    | DocumentCitation(documentId: string, token: string, title: string, paragraph: int, hash: string)

  datatype Candidate = Candidate(citation: Citation, content: string)

  datatype Excluded =
    | ExcludedAttachment(attachmentId: string, fileName: string, reason: string)
    | ExcludedSegment(citation: Citation, reason: string)

  // ---------------------------------------------------------------- one segment at a time

  datatype Verdict = Include | TooLong | TooMany | NoRoom

  /** The reason each limit is reported under. */
  datatype Names = Names(tooLong: string, tooMany: string, noRoom: string)

  const ATTACHMENT_NAMES := Names("attachment_segment_character_limit", "attachment_segment_count_limit",
                                  "attachment_character_limit")
  const DOCUMENT_NAMES := Names("document_segment_character_limit", "document_segment_count_limit",
                                "document_character_limit")

  function NameOf(v: Verdict, names: Names): string
    requires v != Include
  {
    match v
    case TooLong => names.tooLong
    case TooMany => names.tooMany
    case NoRoom => names.noRoom
  }

  /** `taken` slots were used before this kind of segment, and `kept` is what it has included so far. */
  function Judge(c: Candidate, kept: seq<Candidate>, taken: nat, room: int, l: Limits): Verdict {
    if |c.content| > l.maxSegmentText then TooLong
    else if taken + |kept| >= l.maxSegments then TooMany
    else if |c.content| > room - Size(kept) then NoRoom
    else Include
  }

  /** One verdict per candidate, each judged by what the earlier ones left. */
  function Verdicts(cands: seq<Candidate>, taken: nat, room: int, l: Limits): (v: seq<Verdict>)
    ensures |v| == |cands|
  {
    if cands == [] then []
    else
      var front := cands[..|cands| - 1];
      var v := Verdicts(front, taken, room, l);
      v + [Judge(cands[|cands| - 1], Kept(front, v), taken, room, l)]
  }

  function Kept(cands: seq<Candidate>, v: seq<Verdict>): seq<Candidate>
    requires |v| == |cands|
  {
    if cands == [] then []
    else
      var n := |cands| - 1;
      Kept(cands[..n], v[..n]) + if v[n] == Include then [cands[n]] else []
  }

  function Rejected(cands: seq<Candidate>, v: seq<Verdict>, names: Names): seq<Excluded>
    requires |v| == |cands|
  {
    if cands == [] then []
    else
      var n := |cands| - 1;
      Rejected(cands[..n], v[..n], names) +
      if v[n] == Include then [] else [ExcludedSegment(cands[n].citation, NameOf(v[n], names))]
  }

  function Size(cands: seq<Candidate>): nat {
    if cands == [] then 0 else Size(cands[..|cands| - 1]) + |cands[|cands| - 1].content|
  }

  function Citations(cands: seq<Candidate>): seq<Citation> {
    seq(|cands|, i requires 0 <= i < |cands| => cands[i].citation)
  }

  lemma SizeAdded(cands: seq<Candidate>, c: Candidate)
    ensures Size(cands + [c]) == Size(cands) + |c.content|
  {
    assert (cands + [c])[..|cands|] == cands;
  }

  /** The segments kept fit their own cap, the segment count and the room together. */
  lemma {:induction false} KeptFits(cands: seq<Candidate>, taken: nat, room: nat, l: Limits)
    ensures var kept := Kept(cands, Verdicts(cands, taken, room, l));
            && Size(kept) <= room
            && (forall c :: c in kept ==> |c.content| <= l.maxSegmentText)
            && taken + |kept| <= Max(taken, l.maxSegments)
            && Size(kept) <= Size(cands)
  {
    if cands != [] {
      var n := |cands| - 1;
      KeptFits(cands[..n], taken, room, l);
      var v := Verdicts(cands, taken, room, l);
      assert v[..n] == Verdicts(cands[..n], taken, room, l);
      var front := Kept(cands[..n], v[..n]);
      SizeAdded(front, cands[n]);
      assert Kept(cands, v) == if v[n] == Include then front + [cands[n]] else front;
    }
  }

  /** Judging more candidates changes no earlier verdict. */
  lemma {:induction false} VerdictsPrefix(cands: seq<Candidate>, n: nat, taken: nat, room: int, l: Limits)
    requires n <= |cands|
    ensures Verdicts(cands[..n], taken, room, l) == Verdicts(cands, taken, room, l)[..n]
    decreases |cands|
  {
    if n < |cands| {
      var front := cands[..|cands| - 1];
      VerdictsPrefix(front, n, taken, room, l);
      assert front[..n] == cands[..n];
    } else {
      assert cands[..n] == cands;
    }
  }

  lemma {:induction false} KeptGrows(cands: seq<Candidate>, v: seq<Verdict>, n: nat)
    requires |v| == |cands| && n <= |cands|
    ensures |Kept(cands[..n], v[..n])| <= |Kept(cands, v)|
    ensures Size(Kept(cands[..n], v[..n])) <= Size(Kept(cands, v))
    decreases |cands|
  {
    if n < |cands| {
      var m := |cands| - 1;
      KeptGrows(cands[..m], v[..m], n);
      assert cands[..m][..n] == cands[..n] && v[..m][..n] == v[..n];
      SizeAdded(Kept(cands[..m], v[..m]), cands[m]);
      assert Kept(cands[..m], v[..m]) + [] == Kept(cands[..m], v[..m]);
    } else {
      assert cands[..n] == cands && v[..n] == v;
    }
  }

  lemma VerdictAt(cands: seq<Candidate>, taken: nat, room: int, l: Limits, i: nat)
    requires i < |cands|
    ensures var v := Verdicts(cands, taken, room, l);
            var before := Kept(cands[..i], v[..i]);
            v[i] == Judge(cands[i], before, taken, room, l)
  {
    VerdictsPrefix(cands, i, taken, room, l);
    VerdictsPrefix(cands, i + 1, taken, room, l);
    assert cands[..i + 1][..i] == cands[..i];
    assert Verdicts(cands, taken, room, l)[i] == Verdicts(cands, taken, room, l)[..i + 1][i];
  }

  /** Greedy and maximal: a segment is left out only for its own length, because all slots are taken in
      the end, or because it does not even fit the room that is left in the end. */
  lemma GreedyMaximal(cands: seq<Candidate>, taken: nat, room: int, l: Limits, i: nat)
    requires i < |cands|
    ensures var v := Verdicts(cands, taken, room, l);
            match v[i]
            case Include => |cands[i].content| <= l.maxSegmentText
            case TooLong => |cands[i].content| > l.maxSegmentText
            case TooMany => taken + |Kept(cands, v)| >= l.maxSegments
            case NoRoom => |cands[i].content| > room - Size(Kept(cands, v))
  {
    VerdictAt(cands, taken, room, l, i);
    KeptGrows(cands, Verdicts(cands, taken, room, l), i);
  }

  ghost predicate Increasing(a: seq<nat>, n: nat) {
    && (forall k :: 0 <= k < |a| ==> a[k] < n)
    && (forall i, j :: 0 <= i < j < |a| ==> a[i] < a[j])
  }

  /** `a` and `b` list 0..n-1 between them, each index once and in order. */
  ghost predicate Splits(n: nat, a: seq<nat>, b: seq<nat>) {
    Increasing(a, n) && Increasing(b, n) && forall i: nat :: i < n ==> (i in a) != (i in b)
  }

  ghost predicate KeptFrom(cands: seq<Candidate>, v: seq<Verdict>, at: seq<nat>)
    requires |v| == |cands| && Increasing(at, |cands|)
  {
    && |Kept(cands, v)| == |at|
    && forall k :: 0 <= k < |at| ==> v[at[k]] == Include && Kept(cands, v)[k] == cands[at[k]]
  }

  ghost predicate RejectedFrom(cands: seq<Candidate>, v: seq<Verdict>, names: Names, at: seq<nat>)
    requires |v| == |cands| && Increasing(at, |cands|)
  {
    && |Rejected(cands, v, names)| == |at|
    && forall k :: 0 <= k < |at| ==>
         && v[at[k]] != Include
         && Rejected(cands, v, names)[k] == ExcludedSegment(cands[at[k]].citation, NameOf(v[at[k]], names))
  }

  /** Every candidate is either kept or rejected with its reason, once, and both lists keep the order. */
  lemma {:induction false} EachCandidateOnce(cands: seq<Candidate>, v: seq<Verdict>, names: Names)
    returns (keptAt: seq<nat>, rejectedAt: seq<nat>)
    requires |v| == |cands|
    ensures Splits(|cands|, keptAt, rejectedAt)
    ensures KeptFrom(cands, v, keptAt) && RejectedFrom(cands, v, names, rejectedAt)
  {
    keptAt, rejectedAt := [], [];
    if cands != [] {
      var n := |cands| - 1;
      var a, b := EachCandidateOnce(cands[..n], v[..n], names);
      if v[n] == Include {
        keptAt, rejectedAt := a + [n], b;
        OneMore(n, a, b);
        KeptMore(cands, v, a);
        RejectedSame(cands, v, names, b);
      } else {
        keptAt, rejectedAt := a, b + [n];
        OneMore(n, b, a);
        RejectedMore(cands, v, names, b);
        KeptSame(cands, v, a);
      }
    }
  }

  lemma KeptSame(cands: seq<Candidate>, v: seq<Verdict>, at: seq<nat>)
    requires |v| == |cands| > 0 && v[|cands| - 1] != Include
    requires Increasing(at, |cands| - 1) && KeptFrom(cands[..|cands| - 1], v[..|cands| - 1], at)
    ensures Increasing(at, |cands|) && KeptFrom(cands, v, at)
  {
    assert Kept(cands, v) == Kept(cands[..|cands| - 1], v[..|cands| - 1]);
  }

  lemma RejectedSame(cands: seq<Candidate>, v: seq<Verdict>, names: Names, at: seq<nat>)
    requires |v| == |cands| > 0 && v[|cands| - 1] == Include
    requires Increasing(at, |cands| - 1) && RejectedFrom(cands[..|cands| - 1], v[..|cands| - 1], names, at)
    ensures Increasing(at, |cands|) && RejectedFrom(cands, v, names, at)
  {
    assert Rejected(cands, v, names) == Rejected(cands[..|cands| - 1], v[..|cands| - 1], names);
  }

  lemma OneMore(n: nat, a: seq<nat>, b: seq<nat>)
    requires Splits(n, a, b)
    ensures Splits(n + 1, a + [n], b) && Splits(n + 1, b, a + [n])
  {
    assert n !in b;
    assert n in a + [n];
    assert forall i :: i != n ==> (i in a + [n] <==> i in a);
  }

  lemma KeptMore(cands: seq<Candidate>, v: seq<Verdict>, at: seq<nat>)
    requires |v| == |cands| > 0 && v[|cands| - 1] == Include
    requires Increasing(at, |cands| - 1) && KeptFrom(cands[..|cands| - 1], v[..|cands| - 1], at)
    ensures Increasing(at + [|cands| - 1], |cands|) && KeptFrom(cands, v, at + [|cands| - 1])
  {
    var n := |cands| - 1;
    assert Kept(cands, v) == Kept(cands[..n], v[..n]) + [cands[n]];
  }

  lemma RejectedMore(cands: seq<Candidate>, v: seq<Verdict>, names: Names, at: seq<nat>)
    requires |v| == |cands| > 0 && v[|cands| - 1] != Include
    requires Increasing(at, |cands| - 1) && RejectedFrom(cands[..|cands| - 1], v[..|cands| - 1], names, at)
    ensures Increasing(at + [|cands| - 1], |cands|) && RejectedFrom(cands, v, names, at + [|cands| - 1])
  {
    var n := |cands| - 1;
    assert Rejected(cands, v, names) ==
      Rejected(cands[..n], v[..n], names) + [ExcludedSegment(cands[n].citation, NameOf(v[n], names))];
  }

  /** Nothing rejected is the same as everything kept. */
  lemma {:induction false} NothingRejected(cands: seq<Candidate>, v: seq<Verdict>, names: Names)
    requires |v| == |cands|
    ensures |Kept(cands, v)| + |Rejected(cands, v, names)| == |cands|
    ensures Rejected(cands, v, names) == [] <==> Kept(cands, v) == cands
    ensures forall e :: e in Rejected(cands, v, names) ==> e.reason in {names.tooLong, names.tooMany, names.noRoom}
  {
    if cands != [] {
      var n := |cands| - 1;
      NothingRejected(cands[..n], v[..n], names);
      assert cands == cands[..n] + [cands[n]];
      if Kept(cands, v) == cands { assert v[n] == Include; }
    }
  }

  // ---------------------------------------------------------------- the same as a running state

  /** The lists a loop over the candidates has built so far. */
  datatype Filling = Filling(kept: seq<Candidate>, rejected: seq<Excluded>)

  function Offer(f: Filling, c: Candidate, taken: nat, room: int, l: Limits, names: Names): Filling {
    var verdict := Judge(c, f.kept, taken, room, l);
    if verdict == Include then f.(kept := f.kept + [c])
    else f.(rejected := f.rejected + [ExcludedSegment(c.citation, NameOf(verdict, names))])
  }

  function Fill(start: Filling, cands: seq<Candidate>, taken: nat, room: int, l: Limits, names: Names): Filling {
    if cands == [] then start
    else Offer(Fill(start, cands[..|cands| - 1], taken, room, l, names), cands[|cands| - 1], taken, room, l, names)
  }

  lemma FillStep(start: Filling, cands: seq<Candidate>, c: Candidate, taken: nat, room: int, l: Limits, names: Names)
    ensures Fill(start, cands + [c], taken, room, l, names) == Offer(Fill(start, cands, taken, room, l, names), c, taken, room, l, names)
    ensures Size(cands + [c]) == Size(cands) + |c.content|
  {
    assert (cands + [c])[..|cands|] == cands;
  }

  lemma AllJudged(all: seq<Candidate>, v: seq<Verdict>, verdict: Verdict,
                  taken: nat, room: int, l: Limits, names: Names)
    requires all != [] && v == Verdicts(all[..|all| - 1], taken, room, l)
    requires verdict == Judge(all[|all| - 1], Kept(all[..|all| - 1], v), taken, room, l)
    ensures Verdicts(all, taken, room, l) == v + [verdict]
    ensures Kept(all, v + [verdict]) == Kept(all[..|all| - 1], v) + (if verdict == Include then [all[|all| - 1]] else [])
    ensures Rejected(all, v + [verdict], names) == Rejected(all[..|all| - 1], v, names) +
            (if verdict == Include then [] else [ExcludedSegment(all[|all| - 1].citation, NameOf(verdict, names))])
  {
    assert (v + [verdict])[..|all| - 1] == v;
  }

  /** The loop gives each candidate exactly its verdict. */
  lemma {:induction false} FillFollowsVerdicts(notices: seq<Excluded>, cands: seq<Candidate>, taken: nat, room: int,
                                               l: Limits, names: Names)
    ensures Fill(Filling([], notices), cands, taken, room, l, names) ==
            var v := Verdicts(cands, taken, room, l); Filling(Kept(cands, v), notices + Rejected(cands, v, names))
  {
    if cands != [] {
      var front, c := cands[..|cands| - 1], cands[|cands| - 1];
      FillFollowsVerdicts(notices, front, taken, room, l, names);
      var v := Verdicts(front, taken, room, l);
      var verdict := Judge(c, Kept(front, v), taken, room, l);
      AllJudged(cands, v, verdict, taken, room, l, names);
      assert Fill(Filling([], notices), cands, taken, room, l, names) ==
             Offer(Filling(Kept(front, v), notices + Rejected(front, v, names)), c, taken, room, l, names);
      if verdict != Include {
        var e := ExcludedSegment(c.citation, NameOf(verdict, names));
        assert notices + Rejected(front, v, names) + [e] == notices + (Rejected(front, v, names) + [e]);
      }
    }
  }
}
