/** What a finished snapshot says about each attachment and segment it was built from. */
module SnapshotContents {
  import opened Prelude
  import Text
  import opened ContextSnapshots
  import opened SnapshotSegments
  import opened SnapshotAssembly

  // ---------------------------------------------------------------- attachments

  /** The attachment can contribute nothing, for this reason, the first that applies. */
  ghost predicate Unfit(a: Attachment, segments: seq<Segment>, reason: string) {
    if !a.authorized then reason == "attachment_not_authorized"
    else
      match a.status
      case BodyUnavailable => reason == "attachment_body_unavailable"
      case Failed => reason == "attachment_extraction_failed"
      case Succeeded => reason == "attachment_segments_missing" && forall s :: s in segments ==> s.attachmentId != Some(a.id)
      case NotRequested => false
      case Pending => false
      case Extracting => false
  }

  /** The notices report the attachments at these places, in order, each under its reason, and no others. */
  ghost predicate Reported(attachments: seq<Attachment>, segments: seq<Segment>, at: seq<nat>, notices: seq<Excluded>) {
    && Increasing(at, |attachments|) && |notices| == |at|
    && (forall i: nat, reason :: i < |attachments| && Unfit(attachments[i], segments, reason) ==> i in at)
    && (forall k :: 0 <= k < |at| ==>
          && notices[k].ExcludedAttachment?
          && notices[k].attachmentId == attachments[at[k]].id && notices[k].fileName == attachments[at[k]].fileName
          && Unfit(attachments[at[k]], segments, notices[k].reason))
  }

  lemma UnusableIsUnfit(a: Attachment, segments: seq<Segment>)
    ensures var found := Unusable(a, SegmentedIds(segments));
            forall reason :: Unfit(a, segments, reason) <==> found == Some(reason)
  {
    if Some(a.id) in SegmentedIds(segments) {
      assert exists s :: s in segments && s.attachmentId == Some(a.id);
    }
    assert forall s :: s in segments ==> s.attachmentId in SegmentedIds(segments);
  }

  lemma ReportedSame(attachments: seq<Attachment>, segments: seq<Segment>, at: seq<nat>, notices: seq<Excluded>, n: nat,
                     last: Attachment)
    requires attachments != [] && n == |attachments| - 1 && Reported(attachments[..n], segments, at, notices)
    requires last == attachments[n] && forall reason :: !Unfit(last, segments, reason)
    ensures Reported(attachments, segments, at, notices)
  {
    forall i: nat, reason | i <= n && Unfit(attachments[i], segments, reason) ensures i in at {
      assert i < n && Unfit(attachments[..n][i], segments, reason);
    }
  }

  lemma ReportedMore(attachments: seq<Attachment>, segments: seq<Segment>, at: seq<nat>, notices: seq<Excluded>, n: nat, reason: string)
    requires attachments != [] && n == |attachments| - 1 && Reported(attachments[..n], segments, at, notices)
    requires Unfit(attachments[n], segments, reason)
    ensures Reported(attachments, segments, at + [n], notices + [ExcludedAttachment(attachments[n].id, attachments[n].fileName, reason)])
  {
    forall i: nat, other | i <= n && Unfit(attachments[i], segments, other) ensures i in at + [n] {
      if i < n { assert Unfit(attachments[..n][i], segments, other); }
    }
  }

  lemma {:induction false} NoticesReport(attachments: seq<Attachment>, segments: seq<Segment>) returns (at: seq<nat>)
    ensures Reported(attachments, segments, at, Notices(attachments, SegmentedIds(segments)))
  {
    at := [];
    if attachments != [] {
      var n := |attachments| - 1;
      var front, found := attachments[..n], Unusable(attachments[n], SegmentedIds(segments));
      at := NoticesReport(front, segments);
      UnusableIsUnfit(attachments[n], segments);
      var notices := Notices(front, SegmentedIds(segments));
      if found.Some? {
        ReportedMore(attachments, segments, at, notices, n, found.value);
        at := at + [n];
      } else {
        ReportedSame(attachments, segments, at, notices, n, attachments[n]);
        assert Notices(attachments, SegmentedIds(segments)) == notices;
      }
    }
  }

  /** A snapshot reports exactly the attachments it cannot use, in order and under the first reason that applies, before
      any segment it leaves out. */
  lemma AttachmentsReported(s: Snapshot, x: Inputs, l: Limits) returns (at: seq<nat>)
    requires SegmentsAssembled(s, x, l)
    ensures |at| <= |s.excludedSegments| && Reported(x.attachments, x.segments, at, s.excludedSegments[..|at|])
    ensures forall k :: |at| <= k < |s.excludedSegments| ==> s.excludedSegments[k].ExcludedSegment?
  {
    at := NoticesReport(x.attachments, x.segments);
    AllottedParts(s, x, l);
    var cands, docs := AttachmentCandidates(x.attachments, x.segments), DocumentCandidates(InLinkedOrder(x.linked));
    RejectedSegments(cands, AttachmentVerdicts(s, x, l), ATTACHMENT_NAMES);
    RejectedSegments(docs, DocumentVerdicts(s, x, l), DOCUMENT_NAMES);
    var notices := Notices(x.attachments, SegmentedIds(x.segments));
    assert s.excludedSegments[..|at|] == notices;
  }

  lemma {:induction false} RejectedSegments(cands: seq<Candidate>, v: seq<Verdict>, names: Names)
    requires |v| == |cands|
    ensures forall e :: e in Rejected(cands, v, names) ==> e.ExcludedSegment?
  {
    if cands != [] { RejectedSegments(cands[..|cands| - 1], v[..|cands| - 1], names); }
  }

  /** Who is not told otherwise can rely on every attachment: an unmarked snapshot has only usable ones. */
  lemma UnmarkedIsUsable(s: Snapshot, x: Inputs, l: Limits, a: Attachment, reason: string)
    requires SegmentsAssembled(s, x, l) && ReasonsAssembled(s, x, l) && !s.truncated && a in x.attachments
    ensures !Unfit(a, x.segments, reason)
  {
    var at := AttachmentsReported(s, x, l);
    TruncatedExactly(s, x, l);
    var i :| 0 <= i < |x.attachments| && x.attachments[i] == a;
    assert !(i in at);
  }

  // ---------------------------------------------------------------- segments

  /** The attachment of an id is the last one listed under it. */
  ghost predicate LastListed(attachments: seq<Attachment>, a: Attachment) {
    exists i :: 0 <= i < |attachments| && attachments[i] == a && forall j :: i < j < |attachments| ==> attachments[j].id != a.id
  }

  lemma {:induction false} ByIdIsLast(attachments: seq<Attachment>, id: string)
    ensures id in ById(attachments) <==> exists a :: a in attachments && a.id == id
    ensures id in ById(attachments) ==> ById(attachments)[id].id == id && LastListed(attachments, ById(attachments)[id])
  {
    if attachments != [] {
      var n := |attachments| - 1;
      var front := attachments[..n];
      ByIdIsLast(front, id);
      if attachments[n].id == id {
        assert attachments[n] in attachments;
      } else if id in ById(front) {
        var i :| 0 <= i < n && front[i] == ById(front)[id] && forall j :: i < j < n ==> front[j].id != id;
        assert attachments[i] == front[i] && forall j :: i < j < |attachments| ==> attachments[j].id != id;
      }
      assert forall a :: a in attachments <==> a in front || a == attachments[n];
    }
  }

  /** The candidates are the segments at these places, in order, each cited with its attachment's name and its own place
      and hash. */
  ghost predicate Cited(segments: seq<Segment>, attachments: seq<Attachment>, at: seq<nat>, cands: seq<Candidate>) {
    && Increasing(at, |segments|) && |cands| == |at|
    && (forall i: nat :: i < |segments| ==> (i in at <==> Known(attachments, segments[i])))
    && (forall k :: 0 <= k < |at| ==> CitesSegment(segments[at[k]], attachments, cands[k]))
  }

  ghost predicate CitesSegment(s: Segment, attachments: seq<Attachment>, c: Candidate) {
    && c.content == s.content && c.citation.AttachmentCitation?
    && s.attachmentId == Some(c.citation.attachmentId) && c.citation.page == s.page && c.citation.paragraph == s.paragraph
    && c.citation.hash == s.hash
    && exists a :: LastListed(attachments, a) && a.id == c.citation.attachmentId && a.fileName == c.citation.fileName
  }

  /** The segment belongs to a listed attachment. */
  ghost predicate Known(attachments: seq<Attachment>, s: Segment) {
    exists a :: a in attachments && s.attachmentId == Some(a.id)
  }

  lemma CitedSame(segments: seq<Segment>, attachments: seq<Attachment>, at: seq<nat>, cands: seq<Candidate>, n: nat)
    requires segments != [] && n == |segments| - 1 && Cited(segments[..n], attachments, at, cands) && !Known(attachments, segments[n])
    ensures Cited(segments, attachments, at, cands)
  {
    forall i: nat | i <= n ensures i in at <==> Known(attachments, segments[i]) {
      if i < n { assert segments[..n][i] == segments[i]; }
    }
  }

  lemma CitedMore(segments: seq<Segment>, attachments: seq<Attachment>, at: seq<nat>, cands: seq<Candidate>, n: nat, c: Candidate)
    requires segments != [] && n == |segments| - 1 && Cited(segments[..n], attachments, at, cands)
    requires Known(attachments, segments[n]) && CitesSegment(segments[n], attachments, c)
    ensures Cited(segments, attachments, at + [n], cands + [c])
  {
    forall i: nat | i <= n ensures i in at + [n] <==> Known(attachments, segments[i]) {
      if i < n { assert segments[..n][i] == segments[i]; }
    }
  }

  lemma {:induction false} MappedCites(segments: seq<Segment>, attachments: seq<Attachment>) returns (at: seq<nat>)
    ensures Cited(segments, attachments, at, Mapped(segments, ById(attachments)))
  {
    at := [];
    if segments != [] {
      var n := |segments| - 1;
      var s, byId := segments[n], ById(attachments);
      var cands := Mapped(segments[..n], byId);
      at := MappedCites(segments[..n], attachments);
      if s.attachmentId.Some? { ByIdIsLast(attachments, s.attachmentId.value); }
      if s.attachmentId.Some? && s.attachmentId.value in byId {
        CitedMore(segments, attachments, at, cands, n, AttachmentCandidate(byId[s.attachmentId.value], s));
        at := at + [n];
      } else {
        CitedSame(segments, attachments, at, cands, n);
        assert Mapped(segments, byId) == cands;
      }
    }
  }

  /** The candidates of a snapshot are exactly the segments of listed attachments and of linked documents. */
  lemma CandidatesAreSegments(x: Inputs) returns (at: seq<nat>)
    ensures Cited(InSegmentOrder(x.segments), x.attachments, at, AttachmentCandidates(x.attachments, x.segments))
    ensures var linked, docs := InLinkedOrder(x.linked), DocumentCandidates(InLinkedOrder(x.linked));
            |docs| == |linked| &&
            forall i :: 0 <= i < |linked| ==>
              var d, s := linked[i].document, linked[i].segment;
              docs[i] == Candidate(DocumentCitation(d.id, d.token, d.title, s.paragraph, s.hash), s.content)
  {
    at := MappedCites(InSegmentOrder(x.segments), x.attachments);
  }

  // ---------------------------------------------------------------- in which order

  /** No later than: a message without a time comes first. */
  predicate NoLater(a: Message, b: Message) {
    match (a.created, b.created)
    case (None, _) => true
    case (Some(_), None) => false
    case (Some(s), Some(t)) => s <= t
  }

  /** The messages of a snapshot are in order of time, and what was dropped is no later than any other message it kept. */
  lemma MessagesByTime(s: Snapshot, x: Inputs, l: Limits)
    requires MessagesAssembled(s, x, l)
    ensures forall i, j :: 0 <= i < j < |s.messages| ==> NoLater(s.messages[i], s.messages[j])
    ensures var all := Unique(x.available)[x.current.id := x.current];
            forall id, m :: id in all && all[id] !in s.messages && m in s.messages && m != x.current ==> NoLater(all[id], m)
  {
  }

  /** Segments are read attachment by attachment, page by page, and paragraph by paragraph. */
  lemma ReadingOrder(segments: seq<Segment>)
    ensures var s := InSegmentOrder(segments);
            forall i, j :: 0 <= i < j < |s| && s[i].attachmentId == s[j].attachmentId ==>
              && (s[i].page.Some? && s[j].page.Some? ==> s[i].page.value <= s[j].page.value)
              && (s[i].page == s[j].page ==> s[i].paragraph <= s[j].paragraph)
              && forall k :: i <= k <= j ==> IdText(s[k].attachmentId) == IdText(s[i].attachmentId)
  {
    SegmentsInOrder(segments);
    var s := InSegmentOrder(segments);
    forall i, j, k | 0 <= i <= k <= j < |s| && i < j && s[i].attachmentId == s[j].attachmentId
      ensures IdText(s[k].attachmentId) == IdText(s[i].attachmentId)
    {
      Text.StringTrichotomy(IdText(s[i].attachmentId), IdText(s[k].attachmentId));
      if i < k < j { assert !SegmentBefore(s[k], s[i]) && !SegmentBefore(s[j], s[k]); }
    }
    forall i, j | 0 <= i < j < |s| && s[i].attachmentId == s[j].attachmentId
      ensures s[i].page.Some? && s[j].page.Some? ==> s[i].page.value <= s[j].page.value
      ensures s[i].page == s[j].page ==> s[i].paragraph <= s[j].paragraph
    {
      assert !SegmentBefore(s[j], s[i]);
    }
  }

  /** Linked documents are read one after the other, each paragraph by paragraph. */
  lemma LinkedReadingOrder(linked: seq<Linked>)
    ensures var s := InLinkedOrder(linked);
            forall i, j :: 0 <= i < j < |s| && s[i].document.token == s[j].document.token ==>
              && s[i].segment.paragraph <= s[j].segment.paragraph
              && forall k :: i <= k <= j ==> s[k].document.token == s[i].document.token
  {
    LinkedInOrder(linked);
    var s := InLinkedOrder(linked);
    forall i, j, k | 0 <= i <= k <= j < |s| && i < j && s[i].document.token == s[j].document.token
      ensures s[k].document.token == s[i].document.token
    {
      Text.StringTrichotomy(s[i].document.token, s[k].document.token);
      if i < k < j { assert !LinkedBefore(s[k], s[i]) && !LinkedBefore(s[j], s[k]); }
    }
    forall i, j | 0 <= i < j < |s| && s[i].document.token == s[j].document.token
      ensures s[i].segment.paragraph <= s[j].segment.paragraph
    {
      assert !LinkedBefore(s[j], s[i]);
    }
  }

  /** The last of the available messages with this id. */
  ghost predicate LastAvailable(available: seq<Message>, m: Message) {
    exists i :: 0 <= i < |available| && available[i] == m && forall j :: i < j < |available| ==> available[j].id != m.id
  }

  lemma {:induction false} UniqueIsLast(available: seq<Message>, id: string)
    requires id in Unique(available)
    ensures Unique(available)[id].id == id && LastAvailable(available, Unique(available)[id])
  {
    var n := |available| - 1;
    var front := available[..n];
    if available[n].id != id {
      UniqueIsLast(front, id);
      var i :| 0 <= i < n && front[i] == Unique(front)[id] && forall j :: i < j < n ==> front[j].id != id;
      assert available[i] == front[i] && forall j :: i < j < |available| ==> available[j].id != id;
    }
  }

  /** Of several copies of a message the snapshot holds the last, and of the current one what was asked about. */
  lemma MessagesAreLatest(s: Snapshot, x: Inputs, l: Limits, m: Message)
    requires MessagesAssembled(s, x, l) && m in s.messages
    ensures m == x.current || (m.id != x.current.id && LastAvailable(x.available, m))
  {
    if m.id != x.current.id { UniqueIsLast(x.available, m.id); }
  }

  // ---------------------------------------------------------------- why segments are left out

  /** The reason given is true of the finished snapshot: the segment is too long, the slots are taken, or the room would
      not hold it. */
  ghost predicate TrueReason(s: Snapshot, l: Limits, c: Candidate, reason: string, slots: nat, tooLong: string, tooMany: string,
                             noRoom: string)
  {
    || (reason == tooLong && |c.content| > l.maxSegmentText)
    || (reason == tooMany && slots >= l.maxSegments)
    || (reason == noRoom && s.includedSize + |c.content| > l.maxText)
  }

  ghost predicate TrulyExcluded(s: Snapshot, x: Inputs, l: Limits, e: Excluded)
    requires e.ExcludedSegment?
  {
    || (exists c :: c in AttachmentCandidates(x.attachments, x.segments) && c.citation == e.citation
                    && TrueReason(s, l, c, e.reason, |s.attachmentSegments|, "attachment_segment_character_limit",
                                  "attachment_segment_count_limit", "attachment_character_limit"))
    || (exists c :: c in DocumentCandidates(InLinkedOrder(x.linked)) && c.citation == e.citation
                    && TrueReason(s, l, c, e.reason, |s.includedSegments|, "document_segment_character_limit",
                                  "document_segment_count_limit", "document_character_limit"))
  }

  lemma {:induction false} RejectedFor(cands: seq<Candidate>, v: seq<Verdict>, names: Names, e: Excluded) returns (i: nat)
    requires |v| == |cands| && e in Rejected(cands, v, names)
    ensures i < |cands| && v[i] != Include && e == ExcludedSegment(cands[i].citation, NameOf(v[i], names))
  {
    var n := |cands| - 1;
    if e in Rejected(cands[..n], v[..n], names) {
      i := RejectedFor(cands[..n], v[..n], names, e);
    } else {
      i := n;
    }
  }

  /** Every segment left out is left out for a reason that is true of the finished snapshot. */
  lemma ExclusionsAreTrue(s: Snapshot, x: Inputs, l: Limits, e: Excluded)
    requires SegmentsAssembled(s, x, l) && e in s.excludedSegments && e.ExcludedSegment?
    ensures TrulyExcluded(s, x, l, e)
  {
    var at := NoticesReport(x.attachments, x.segments);
    var cands, docs := AttachmentCandidates(x.attachments, x.segments), DocumentCandidates(InLinkedOrder(x.linked));
    var va, vd := AttachmentVerdicts(s, x, l), DocumentVerdicts(s, x, l);
    AllottedParts(s, x, l);
    if e in Rejected(cands, va, ATTACHMENT_NAMES) {
      var i := RejectedFor(cands, va, ATTACHMENT_NAMES, e);
      AttachmentReason(s, x, l, i);
    } else {
      var i := RejectedFor(docs, vd, DOCUMENT_NAMES, e);
      DocumentReason(s, x, l, i);
    }
  }

  lemma AttachmentReason(s: Snapshot, x: Inputs, l: Limits, i: nat)
    requires SegmentsAssembled(s, x, l) && i < |AttachmentCandidates(x.attachments, x.segments)|
    requires AttachmentVerdicts(s, x, l)[i] != Include
    ensures TrueReason(s, l, AttachmentCandidates(x.attachments, x.segments)[i], NameOf(AttachmentVerdicts(s, x, l)[i], ATTACHMENT_NAMES),
                       |s.attachmentSegments|, "attachment_segment_character_limit", "attachment_segment_count_limit",
                       "attachment_character_limit")
  {
    AllottedParts(s, x, l);
    GreedyMaximal(AttachmentCandidates(x.attachments, x.segments), 0, Room(l, IncludedSize(s.shares)), l, i);
    NothingMoreFits(s, x, l, i);
  }

  lemma DocumentReason(s: Snapshot, x: Inputs, l: Limits, i: nat)
    requires SegmentsAssembled(s, x, l) && i < |DocumentCandidates(InLinkedOrder(x.linked))|
    requires DocumentVerdicts(s, x, l)[i] != Include
    ensures TrueReason(s, l, DocumentCandidates(InLinkedOrder(x.linked))[i], NameOf(DocumentVerdicts(s, x, l)[i], DOCUMENT_NAMES),
                       |s.includedSegments|, "document_segment_character_limit", "document_segment_count_limit",
                       "document_character_limit")
  {
    GreedyMaximal(DocumentCandidates(InLinkedOrder(x.linked)), |s.attachmentSegments|, Room(l, UsedBefore(s)), l, i);
    NoMoreDocumentsFit(s, x, l, i);
  }
}
