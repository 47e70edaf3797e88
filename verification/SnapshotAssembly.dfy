/** Building one snapshot: messages, then attachment segments, then document segments. */
module SnapshotAssembly {
  import opened Prelude
  import opened Text
  import opened ContextSnapshots
  import opened SnapshotSegments
  import Sorting

  // ---------------------------------------------------------------- candidates of each kind

  /** The attachment dictionary; the last of several entries with one id. */
  function ById(attachments: seq<Attachment>): map<string, Attachment> {
    if attachments == [] then map[]
    else
      var last := attachments[|attachments| - 1];
      ById(attachments[..|attachments| - 1])[last.id := last]
  }

  function SegmentedIds(segments: seq<Segment>): set<Option<string>> {
    set s | s in segments :: s.attachmentId
  }

  /** Why an attachment contributes nothing at all, if it does not. */
  function Unusable(a: Attachment, segmented: set<Option<string>>): Option<string> {
    if !a.authorized then Some("attachment_not_authorized")
    else if a.status == BodyUnavailable then Some("attachment_body_unavailable")
    else if a.status == Failed then Some("attachment_extraction_failed")
    else if a.status == Succeeded && Some(a.id) !in segmented then Some("attachment_segments_missing")
    else None
  }

  function Notices(attachments: seq<Attachment>, segmented: set<Option<string>>): seq<Excluded> {
    if attachments == [] then []
    else
      var a := attachments[|attachments| - 1];
      Notices(attachments[..|attachments| - 1], segmented) +
      match Unusable(a, segmented)
      case None => []
      case Some(reason) => [ExcludedAttachment(a.id, a.fileName, reason)]
  }

  /** The order of (str(attachment_id), page_number or 0, paragraph_number). */
  predicate SegmentBefore(a: Segment, b: Segment) {
    var idA, idB := IdText(a.attachmentId), IdText(b.attachmentId);
    var pageA, pageB := Page(a), Page(b);
    StringLess(idA, idB) ||
    (idA == idB && (pageA < pageB || (pageA == pageB && a.paragraph < b.paragraph)))
  }

  function IdText(id: Option<string>): string {
    if id.Some? then id.value else "None"
  }

  function Page(s: Segment): int {
    if s.page.Some? then s.page.value else 0
  }

  /** The order of (document_token, paragraph_number). */
  predicate LinkedBefore(a: Linked, b: Linked) {
    StringLess(a.document.token, b.document.token) ||
    (a.document.token == b.document.token && a.segment.paragraph < b.segment.paragraph)
  }

  function InSegmentOrder(segments: seq<Segment>): seq<Segment> {
    Sorting.Sorted(segments, (a, b) => SegmentBefore(a, b))
  }

  function InLinkedOrder(linked: seq<Linked>): seq<Linked> {
    Sorting.Sorted(linked, (a, b) => LinkedBefore(a, b))
  }

  /** The segments of known attachments. */
  function Mapped(segments: seq<Segment>, byId: map<string, Attachment>): seq<Candidate> {
    if segments == [] then []
    else
      var s := segments[|segments| - 1];
      Mapped(segments[..|segments| - 1], byId) +
      if s.attachmentId.Some? && s.attachmentId.value in byId then [AttachmentCandidate(byId[s.attachmentId.value], s)] else []
  }

  function AttachmentCandidate(a: Attachment, s: Segment): Candidate {
    Candidate(AttachmentCitation(a.id, a.fileName, s.page, s.paragraph, s.hash), s.content)
  }

  function DocumentCandidate(x: Linked): Candidate {
    Candidate(DocumentCitation(x.document.id, x.document.token, x.document.title, x.segment.paragraph, x.segment.hash),
              x.segment.content)
  }

  function DocumentCandidates(linked: seq<Linked>): seq<Candidate> {
    seq(|linked|, i requires 0 <= i < |linked| => DocumentCandidate(linked[i]))
  }

  /** Sorting segments keeps every segment and puts them in reading order. */
  lemma SegmentsInOrder(segments: seq<Segment>)
    ensures multiset(InSegmentOrder(segments)) == multiset(segments)
    ensures var s := InSegmentOrder(segments); forall i, j :: 0 <= i < j < |s| ==> !SegmentBefore(s[j], s[i])
  {
    var before := (a: Segment, b: Segment) => SegmentBefore(a, b);
    Sorting.SortedKeeps(segments, before);
    forall a, b, c | a in segments && b in segments && c in segments && before(a, c) ensures before(a, b) || before(b, c) {
      StringLessRanks(IdText(a.attachmentId), IdText(b.attachmentId), IdText(c.attachmentId));
    }
    forall a, b | a in segments && b in segments && before(a, b) ensures !before(b, a) {
      StringTrichotomy(IdText(a.attachmentId), IdText(b.attachmentId));
    }
    Sorting.SortedOrders(segments, before);
  }

  lemma LinkedInOrder(linked: seq<Linked>)
    ensures multiset(InLinkedOrder(linked)) == multiset(linked)
    ensures var s := InLinkedOrder(linked); forall i, j :: 0 <= i < j < |s| ==> !LinkedBefore(s[j], s[i])
  {
    var before := (a: Linked, b: Linked) => LinkedBefore(a, b);
    Sorting.SortedKeeps(linked, before);
    forall a, b, c | a in linked && b in linked && c in linked && before(a, c) ensures before(a, b) || before(b, c) {
      StringLessRanks(a.document.token, b.document.token, c.document.token);
    }
    forall a, b | a in linked && b in linked && before(a, b) ensures !before(b, a) {
      StringTrichotomy(a.document.token, b.document.token);
    }
    Sorting.SortedOrders(linked, before);
  }

  lemma StringLessRanks(a: string, b: string, c: string)
    ensures StringLess(a, c) ==> StringLess(a, b) || StringLess(b, c)
    ensures StringLess(a, b) && StringLess(b, c) ==> StringLess(a, c)
    ensures !(StringLess(a, b) && StringLess(b, a)) && (StringLess(a, b) || a == b || StringLess(b, a))
  {
    StringTrichotomy(a, b);
    StringTrichotomy(b, c);
    if StringLess(a, b) && StringLess(b, c) { StringTransitive(a, b, c); }
    if StringLess(b, a) && StringLess(a, c) { StringTransitive(b, a, c); }
  }

  // ---------------------------------------------------------------- the dictionaries the builder fills

  /** The running totals; `reasons` holds only what the message budget reported. */
  class Metrics {
    var reasons: seq<string>
    var originalSize: nat
    var includedSize: nat

    constructor (reasons: seq<string>, originalSize: nat, includedSize: nat)
      ensures this.reasons == reasons && this.originalSize == originalSize && this.includedSize == includedSize
    {
      this.reasons, this.originalSize, this.includedSize := reasons, originalSize, includedSize;
    }
  }

  /** The snapshot content. The reasons are a set; the source joins their sorted names with commas. */
  class Content {
    var shares: seq<Share>
    var attachmentSegments: seq<Candidate>
    var documentSegments: seq<Candidate>
    var includedSegments: seq<Citation>
    var excludedSegments: seq<Excluded>
    var truncated: bool
    var truncationReason: set<string>
    var originalSize: nat
    var includedSize: nat

    constructor (shares: seq<Share>, metrics: Metrics)
      ensures this.shares == shares && truncated == (metrics.reasons != []) && truncationReason == Elements(metrics.reasons)
      ensures attachmentSegments == documentSegments == [] && includedSegments == [] && excludedSegments == []
      ensures originalSize == metrics.originalSize && includedSize == metrics.includedSize
    {
      this.shares := shares;
      truncated, truncationReason := metrics.reasons != [], Elements(metrics.reasons);
      attachmentSegments, documentSegments, includedSegments, excludedSegments := [], [], [], [];
      originalSize, includedSize := metrics.originalSize, metrics.includedSize;
    }
  }

  function ReasonsOf(excluded: seq<Excluded>): seq<string> {
    seq(|excluded|, i requires 0 <= i < |excluded| => excluded[i].reason)
  }

  function Room(l: Limits, includedSize: nat): nat {
    Max(l.maxText - includedSize, 0)
  }

  function AttachmentCandidates(attachments: seq<Attachment>, segments: seq<Segment>): seq<Candidate> {
    Mapped(InSegmentOrder(segments), ById(attachments))
  }

  /** What attachments add when the messages already take `used` characters. */
  function AttachmentFilling(attachments: seq<Attachment>, segments: seq<Segment>, used: nat, l: Limits): Filling {
    Fill(Filling([], Notices(attachments, SegmentedIds(segments))), AttachmentCandidates(attachments, segments),
         0, Room(l, used), l, ATTACHMENT_NAMES)
  }

  function DocumentFilling(linked: seq<Linked>, taken: nat, used: nat, l: Limits): Filling {
    Fill(Filling([], []), DocumentCandidates(InLinkedOrder(linked)), taken, Room(l, used), l, DOCUMENT_NAMES)
  }

  /** The checks one segment goes through; the source writes them out in both functions below. */
  method Place(metrics: Metrics, c: Candidate, taken: nat, l: Limits, names: Names, ghost room: int, remaining: int,
               included: seq<Citation>, rendered: seq<Candidate>, excluded: seq<Excluded>, reasons: seq<string>)
    returns (included': seq<Citation>, rendered': seq<Candidate>, excluded': seq<Excluded>, reasons': seq<string>,
             remaining': int)
    requires included == Citations(rendered) && reasons == ReasonsOf(excluded) && remaining == room - Size(rendered)
    modifies metrics
    ensures Filling(rendered', excluded') == Offer(Filling(rendered, excluded), c, taken, room, l, names)
    ensures included' == Citations(rendered') && reasons' == ReasonsOf(excluded') && remaining' == room - Size(rendered')
    ensures metrics.reasons == old(metrics.reasons) && metrics.originalSize == old(metrics.originalSize) + |c.content|
    ensures metrics.includedSize - Size(rendered') == old(metrics.includedSize) - Size(rendered)
  {
    included', rendered', excluded', reasons', remaining' := included, rendered, excluded, reasons, remaining;
    metrics.originalSize := metrics.originalSize + |c.content|;
    var reason: Option<string> := None;
    if |c.content| > l.maxSegmentText {
      reason := Some(names.tooLong);
    } else if taken + |included| >= l.maxSegments {
      reason := Some(names.tooMany);
    } else if |c.content| > remaining {
      reason := Some(names.noRoom);
    }
    if reason.Some? {
      excluded' := excluded + [ExcludedSegment(c.citation, reason.value)];
      reasons' := reasons + [reason.value];
      return;
    }
    included' := included + [c.citation];
    rendered' := rendered + [c];
    SizeAdded(rendered, c);
    remaining' := remaining - |c.content|;
    metrics.includedSize := metrics.includedSize + |c.content|;
  }

  method AddAttachmentSegments(content: Content, metrics: Metrics, attachments: seq<Attachment>,
                               segments: seq<Segment>, l: Limits)
    returns (included: seq<Citation>, excluded: seq<Excluded>, reasons: seq<string>)
    modifies content, metrics
    ensures Filling(content.attachmentSegments, excluded) == AttachmentFilling(attachments, segments, old(metrics.includedSize), l)
    ensures metrics.originalSize == old(metrics.originalSize) + Size(AttachmentCandidates(attachments, segments))
    ensures included == Citations(content.attachmentSegments) && reasons == ReasonsOf(excluded)
    ensures metrics.includedSize == old(metrics.includedSize) + Size(content.attachmentSegments)
    ensures metrics.reasons == old(metrics.reasons)
    ensures content.includedSegments == included && content.excludedSegments == excluded
    ensures content.truncated == (metrics.reasons + reasons != []) && content.truncationReason == Elements(metrics.reasons + reasons)
    ensures content.originalSize == metrics.originalSize && content.includedSize == metrics.includedSize
    ensures content.shares == old(content.shares) && content.documentSegments == old(content.documentSegments)
  {
    ghost var used := metrics.includedSize;
    var notices, noticeReasons := NoteUnusable(attachments, SegmentedIds(segments));
    var rendered;
    included, rendered, excluded, reasons := PlaceSegments(metrics, InSegmentOrder(segments), ById(attachments), notices, noticeReasons, l);
    assert Filling(rendered, excluded) == AttachmentFilling(attachments, segments, used, l);
    content.attachmentSegments := rendered;
    content.includedSegments := included;
    content.excludedSegments := excluded;
    content.truncated := metrics.reasons != [] || reasons != [];
    content.truncationReason := Elements(metrics.reasons + reasons);
    content.originalSize := metrics.originalSize;
    content.includedSize := metrics.includedSize;
  }

  /** The loop over the segments of known attachments. */
  method PlaceSegments(metrics: Metrics, ordered: seq<Segment>, attachmentById: map<string, Attachment>,
                       notices: seq<Excluded>, noticeReasons: seq<string>, l: Limits)
    returns (included: seq<Citation>, rendered: seq<Candidate>, excluded: seq<Excluded>, reasons: seq<string>)
    requires noticeReasons == ReasonsOf(notices)
    modifies metrics
    ensures Filling(rendered, excluded) ==
            Fill(Filling([], notices), Mapped(ordered, attachmentById), 0, Room(l, old(metrics.includedSize)), l, ATTACHMENT_NAMES)
    ensures included == Citations(rendered) && reasons == ReasonsOf(excluded) && metrics.reasons == old(metrics.reasons)
    ensures metrics.originalSize == old(metrics.originalSize) + Size(Mapped(ordered, attachmentById))
    ensures metrics.includedSize == old(metrics.includedSize) + Size(rendered)
  {
    var remaining: int := Max(l.maxText - metrics.includedSize, 0);
    ghost var room := Room(l, metrics.includedSize);
    ghost var start := Filling([], notices);
    included, rendered, excluded, reasons := [], [], notices, noticeReasons;
    ghost var cands: seq<Candidate> := [];
    for i := 0 to |ordered|
      invariant metrics.reasons == old(metrics.reasons)
      invariant included == Citations(rendered) && reasons == ReasonsOf(excluded) && remaining == room - Size(rendered)
      invariant cands == Mapped(ordered[..i], attachmentById)
      invariant Filling(rendered, excluded) == Fill(start, cands, 0, room, l, ATTACHMENT_NAMES)
      invariant metrics.originalSize == old(metrics.originalSize) + Size(cands)
      invariant metrics.includedSize == old(metrics.includedSize) + Size(rendered)
    {
      var segment := ordered[i];
      MappedStep(ordered, i, attachmentById);
      if segment.attachmentId.None? || segment.attachmentId.value !in attachmentById {
        continue;
      }
      var c := AttachmentCandidate(attachmentById[segment.attachmentId.value], segment);
      FillStep(start, cands, c, 0, room, l, ATTACHMENT_NAMES);
      cands := cands + [c];
      included, rendered, excluded, reasons, remaining :=
        Place(metrics, c, 0, l, ATTACHMENT_NAMES, room, remaining, included, rendered, excluded, reasons);
    }
    assert ordered[..|ordered|] == ordered;
  }

  method NoteUnusable(attachments: seq<Attachment>, segmented: set<Option<string>>)
    returns (excluded: seq<Excluded>, reasons: seq<string>)
    ensures excluded == Notices(attachments, segmented) && reasons == ReasonsOf(excluded)
  {
    excluded, reasons := [], [];
    for i := 0 to |attachments|
      invariant excluded == Notices(attachments[..i], segmented) && reasons == ReasonsOf(excluded)
    {
      assert attachments[..i + 1][..i] == attachments[..i];
      var reason := Unusable(attachments[i], segmented);
      if reason.Some? {
        excluded := excluded + [ExcludedAttachment(attachments[i].id, attachments[i].fileName, reason.value)];
        reasons := reasons + [reason.value];
      }
    }
    assert attachments[..|attachments|] == attachments;
  }

  lemma MappedStep(segments: seq<Segment>, i: nat, byId: map<string, Attachment>)
    requires i < |segments|
    ensures var s := segments[i];
            Mapped(segments[..i + 1], byId) ==
            if s.attachmentId.Some? && s.attachmentId.value in byId
            then Mapped(segments[..i], byId) + [AttachmentCandidate(byId[s.attachmentId.value], s)]
            else Mapped(segments[..i], byId)
  {
    assert segments[..i + 1][..i] == segments[..i];
  }

  method AddDocumentSegments(content: Content, metrics: Metrics, linked: seq<Linked>, alreadyIncluded: nat, l: Limits)
    returns (included: seq<Citation>, excluded: seq<Excluded>, reasons: seq<string>)
    modifies content, metrics
    ensures Filling(content.documentSegments, excluded) == DocumentFilling(linked, alreadyIncluded, old(metrics.includedSize), l)
    ensures metrics.originalSize == old(metrics.originalSize) + Size(DocumentCandidates(InLinkedOrder(linked)))
    ensures included == Citations(content.documentSegments) && reasons == ReasonsOf(excluded)
    ensures metrics.includedSize == old(metrics.includedSize) + Size(content.documentSegments)
    ensures metrics.reasons == old(metrics.reasons)
    ensures content.truncationReason == old(content.truncationReason) + Elements(metrics.reasons + reasons)
    ensures content.truncated == (content.truncationReason != {})
    ensures content.originalSize == metrics.originalSize && content.includedSize == metrics.includedSize
    ensures content.shares == old(content.shares) && content.attachmentSegments == old(content.attachmentSegments)
    ensures content.includedSegments == old(content.includedSegments) && content.excludedSegments == old(content.excludedSegments)
  {
    ghost var used := metrics.includedSize;
    var rendered;
    included, rendered, excluded, reasons := PlaceLinked(metrics, InLinkedOrder(linked), alreadyIncluded, l);
    assert Filling(rendered, excluded) == DocumentFilling(linked, alreadyIncluded, used, l);
    content.documentSegments := rendered;
    content.truncationReason := content.truncationReason + Elements(metrics.reasons + reasons);
    content.truncated := content.truncationReason != {};
    content.originalSize := metrics.originalSize;
    content.includedSize := metrics.includedSize;
  }

  /** The loop over the linked document segments. */
  method PlaceLinked(metrics: Metrics, ordered: seq<Linked>, alreadyIncluded: nat, l: Limits)
    returns (included: seq<Citation>, rendered: seq<Candidate>, excluded: seq<Excluded>, reasons: seq<string>)
    modifies metrics
    ensures Filling(rendered, excluded) ==
            Fill(Filling([], []), DocumentCandidates(ordered), alreadyIncluded, Room(l, old(metrics.includedSize)), l, DOCUMENT_NAMES)
    ensures included == Citations(rendered) && reasons == ReasonsOf(excluded) && metrics.reasons == old(metrics.reasons)
    ensures metrics.originalSize == old(metrics.originalSize) + Size(DocumentCandidates(ordered))
    ensures metrics.includedSize == old(metrics.includedSize) + Size(rendered)
  {
    var remaining: int := Max(l.maxText - metrics.includedSize, 0);
    ghost var room := Room(l, metrics.includedSize);
    ghost var start := Filling([], []);
    ghost var cands: seq<Candidate> := [];
    included, rendered, excluded, reasons := [], [], [], [];
    for i := 0 to |ordered|
      invariant metrics.reasons == old(metrics.reasons)
      invariant included == Citations(rendered) && reasons == ReasonsOf(excluded) && remaining == room - Size(rendered)
      invariant cands == DocumentCandidates(ordered[..i])
      invariant Filling(rendered, excluded) == Fill(start, cands, alreadyIncluded, room, l, DOCUMENT_NAMES)
      invariant metrics.originalSize == old(metrics.originalSize) + Size(cands)
      invariant metrics.includedSize == old(metrics.includedSize) + Size(rendered)
    {
      var c := DocumentCandidate(ordered[i]);
      FillStep(start, cands, c, alreadyIncluded, room, l, DOCUMENT_NAMES);
      assert DocumentCandidates(ordered[..i + 1]) == cands + [c];
      cands := cands + [c];
      included, rendered, excluded, reasons, remaining :=
        Place(metrics, c, alreadyIncluded, l, DOCUMENT_NAMES, room, remaining, included, rendered, excluded, reasons);
    }
    assert ordered[..|ordered|] == ordered;
  }

  // ---------------------------------------------------------------- the snapshot

  datatype Snapshot = Snapshot(
    messages: seq<Message>,
    shares: seq<Share>,
    fileKeys: seq<string>,
    attachmentSegments: seq<Candidate>,
    documentSegments: seq<Candidate>,
    includedSegments: seq<Citation>,
    excludedSegments: seq<Excluded>,
    truncated: bool,
    reasons: set<string>,
    originalSize: nat,
    includedSize: nat)

  /** What the repositories return for one request. */
  datatype Inputs = Inputs(current: Message, available: seq<Message>, fileKeys: seq<string>, attachments: seq<Attachment>,
                           segments: seq<Segment>, linked: seq<Linked>)

  function IdsIn(messages: seq<Message>): set<string> {
    set m | m in messages :: m.id
  }

  ghost function MessageReasons(shares: seq<Share>, l: Limits): set<string> {
    (if AnyOverSingle(shares, l) then {"single_message_limit"} else {}) +
    (if AnyStarved(shares, l) then {"total_character_limit"} else {})
  }

  /** The two reasons that are not in the content, only on the snapshot. */
  function CountReasons(available: set<string>, chosen: nat, fileKeys: nat, l: Limits): set<string> {
    (if |available| > chosen then {"message_count_limit"} else {}) +
    (if fileKeys > l.maxAttachments then {"attachment_limit"} else {})
  }

  ghost predicate MessagesAssembled(s: Snapshot, x: Inputs, l: Limits) {
    && NewestOthers(s.messages, Unique(x.available)[x.current.id := x.current], x.current, l.maxMessages)
    && MessagesOf(s.shares) == Prioritized(s.messages, x.current.id) && Waterfall(s.shares, l)
    && s.fileKeys == x.fileKeys[..Min(|x.fileKeys|, l.maxAttachments)]
  }

  /** The characters that messages and attachments take. */
  ghost function UsedBefore(s: Snapshot): nat {
    IncludedSize(s.shares) + Size(s.attachmentSegments)
  }

  /** Attachments fill what the messages left, documents what both left, in room and in slots. */
  ghost predicate SegmentsAssembled(s: Snapshot, x: Inputs, l: Limits) {
    var used := IncludedSize(s.shares);
    var a := AttachmentFilling(x.attachments, x.segments, used, l);
    var d := DocumentFilling(x.linked, |s.attachmentSegments|, UsedBefore(s), l);
    && s.attachmentSegments == a.kept && s.documentSegments == d.kept
    && s.includedSegments == Citations(a.kept) + Citations(d.kept)
    && s.excludedSegments == a.rejected + d.rejected
    && s.includedSize == used + Size(a.kept) + Size(d.kept)
    && s.originalSize == OriginalSize(s.shares) + Size(AttachmentCandidates(x.attachments, x.segments))
                         + Size(DocumentCandidates(InLinkedOrder(x.linked)))
  }

  ghost predicate ReasonsAssembled(s: Snapshot, x: Inputs, l: Limits) {
    && s.truncated == (s.reasons != {})
    && s.reasons == MessageReasons(s.shares, l) + Elements(ReasonsOf(s.excludedSegments))
                    + CountReasons(IdsIn(x.available), |s.messages|, |x.fileKeys|, l)
  }

  /** Both kinds of segments, one after the other. */
  method AddSegments(content: Content, metrics: Metrics, x: Inputs, l: Limits, ghost used: nat)
    returns (attachmentReasons: seq<string>, documentReasons: seq<string>, ghost a: Filling, ghost d: Filling,
             ghost after: nat)
    requires used == metrics.includedSize
    modifies content, metrics
    ensures a == AttachmentFilling(x.attachments, x.segments, used, l)
    ensures after == used + Size(a.kept) && d == DocumentFilling(x.linked, |a.kept|, after, l)
    ensures content.attachmentSegments == a.kept && content.documentSegments == d.kept
    ensures content.includedSegments == Citations(a.kept) + Citations(d.kept) && content.excludedSegments == a.rejected + d.rejected
    ensures attachmentReasons == ReasonsOf(a.rejected) && documentReasons == ReasonsOf(d.rejected)
    ensures metrics.includedSize == used + Size(a.kept) + Size(d.kept)
    ensures metrics.originalSize == old(metrics.originalSize) + Size(AttachmentCandidates(x.attachments, x.segments))
                                    + Size(DocumentCandidates(InLinkedOrder(x.linked)))
    ensures metrics.reasons == old(metrics.reasons) && content.shares == old(content.shares)
  {
    var included, excluded, includedDocuments, excludedDocuments;
    included, excluded, attachmentReasons := AddAttachmentSegments(content, metrics, x.attachments, x.segments, l);
    a := Filling(content.attachmentSegments, excluded);
    after := used + Size(a.kept);
    assert |included| == |a.kept| && metrics.includedSize == after;
    includedDocuments, excludedDocuments, documentReasons := AddDocumentSegments(content, metrics, x.linked, |included|, l);
    d := Filling(content.documentSegments, excludedDocuments);
    assert d == DocumentFilling(x.linked, |a.kept|, after, l);
    content.includedSegments := included + includedDocuments;
    content.excludedSegments := excluded + excludedDocuments;
  }

  method CountedOut(x: Inputs, selected: nat, fileKeys: nat, l: Limits) returns (reasons: set<string>)
    requires fileKeys == Min(|x.fileKeys|, l.maxAttachments)
    ensures reasons == CountReasons(IdsIn(x.available), selected, |x.fileKeys|, l)
  {
    reasons := {};
    if |IdsIn(x.available)| > selected {
      reasons := reasons + {"message_count_limit"};
    }
    if |x.fileKeys| > fileKeys {
      reasons := reasons + {"attachment_limit"};
    }
  }

  method Build(x: Inputs, l: Limits) returns (s: Snapshot)
    requires ValidLimits(l)
    ensures MessagesAssembled(s, x, l) && SegmentsAssembled(s, x, l) && ReasonsAssembled(s, x, l)
  {
    var selected := SelectMessages(x.current, x.available, l.maxMessages);
    var fileKeys := x.fileKeys[..Min(|x.fileKeys|, l.maxAttachments)];
    var shares, totals := BuildContent(selected, x.current.id, l);
    var metrics := new Metrics(totals.reasons, totals.original, totals.included);
    var content := new Content(shares, metrics);
    var attachmentReasons, documentReasons, a, d, after := AddSegments(content, metrics, x, l, totals.included);
    var counted := CountedOut(x, |selected|, |fileKeys|, l);
    var reasons := Elements(metrics.reasons) + Elements(attachmentReasons) + Elements(documentReasons) + counted;
    s := Snapshot(selected, shares, fileKeys, content.attachmentSegments, content.documentSegments, content.includedSegments,
                  content.excludedSegments, reasons != {}, reasons, metrics.originalSize, metrics.includedSize);
    SegmentsTogether(s, x, l, totals.included, after, a, d);
    MessageReasonsListed(totals.reasons, shares, l);
    ReasonsTogether(s, x, l, totals.reasons, a.rejected, d.rejected);
  }

  lemma SegmentsTogether(s: Snapshot, x: Inputs, l: Limits, used: nat, after: nat, a: Filling, d: Filling)
    requires used == IncludedSize(s.shares) && after == used + Size(a.kept)
    requires a == AttachmentFilling(x.attachments, x.segments, used, l)
    requires d == DocumentFilling(x.linked, |a.kept|, after, l)
    requires s.attachmentSegments == a.kept && s.documentSegments == d.kept
    requires s.includedSegments == Citations(a.kept) + Citations(d.kept) && s.excludedSegments == a.rejected + d.rejected
    requires s.includedSize == used + Size(a.kept) + Size(d.kept)
    requires s.originalSize == OriginalSize(s.shares) + Size(AttachmentCandidates(x.attachments, x.segments))
                               + Size(DocumentCandidates(InLinkedOrder(x.linked)))
    ensures SegmentsAssembled(s, x, l)
  {
    assert after == UsedBefore(s);
  }

  lemma ReasonsTogether(s: Snapshot, x: Inputs, l: Limits, messageReasons: seq<string>, a: seq<Excluded>,
                        d: seq<Excluded>)
    requires Elements(messageReasons) == MessageReasons(s.shares, l) && s.excludedSegments == a + d
    requires s.truncated == (s.reasons != {})
    requires s.reasons == Elements(messageReasons) + Elements(ReasonsOf(a)) + Elements(ReasonsOf(d))
                          + CountReasons(IdsIn(x.available), |s.messages|, |x.fileKeys|, l)
    ensures ReasonsAssembled(s, x, l)
  {
    ReasonsAdd(a, d);
  }

  lemma ReasonsAdd(a: seq<Excluded>, d: seq<Excluded>)
    ensures Elements(ReasonsOf(a + d)) == Elements(ReasonsOf(a)) + Elements(ReasonsOf(d))
  {
    assert ReasonsOf(a + d) == ReasonsOf(a) + ReasonsOf(d);
    ElementsAdd(ReasonsOf(a), ReasonsOf(d));
  }

  lemma ElementsAdd(a: seq<string>, b: seq<string>)
    ensures Elements(a + b) == Elements(a) + Elements(b)
  {
  }

  lemma MessageReasonsListed(reasons: seq<string>, shares: seq<Share>, l: Limits)
    requires ReasonsTell(reasons, AnyOverSingle(shares, l), AnyStarved(shares, l))
    ensures Elements(reasons) == MessageReasons(shares, l)
  {
    forall r ensures r in Elements(reasons) <==> r in MessageReasons(shares, l) {
    }
  }

  // ---------------------------------------------------------------- bounds over all three allocators

  /** The attachments' part by verdicts. */
  lemma AttachmentPart(x: Inputs, used: nat, l: Limits)
    ensures var cands := AttachmentCandidates(x.attachments, x.segments);
            var v := Verdicts(cands, 0, Room(l, used), l);
            AttachmentFilling(x.attachments, x.segments, used, l) ==
            Filling(Kept(cands, v), Notices(x.attachments, SegmentedIds(x.segments)) + Rejected(cands, v, ATTACHMENT_NAMES))
  {
    FillFollowsVerdicts(Notices(x.attachments, SegmentedIds(x.segments)), AttachmentCandidates(x.attachments, x.segments),
                        0, Room(l, used), l, ATTACHMENT_NAMES);
  }

  lemma DocumentPart(x: Inputs, taken: nat, used: nat, l: Limits)
    ensures var docs := DocumentCandidates(InLinkedOrder(x.linked));
            var v := Verdicts(docs, taken, Room(l, used), l);
            DocumentFilling(x.linked, taken, used, l) == Filling(Kept(docs, v), Rejected(docs, v, DOCUMENT_NAMES))
  {
    FillFollowsVerdicts([], DocumentCandidates(InLinkedOrder(x.linked)), taken, Room(l, used), l, DOCUMENT_NAMES);
  }

  /** Both parts of a snapshot, by the verdicts on their candidates. */
  ghost predicate Allotted(s: Snapshot, l: Limits, used: nat, more: nat, notices: seq<Excluded>, cands: seq<Candidate>,
                           docs: seq<Candidate>)
  {
    var va, vd := Verdicts(cands, 0, Room(l, used), l), Verdicts(docs, |s.attachmentSegments|, Room(l, more), l);
    && more == used + Size(s.attachmentSegments)
    && s.attachmentSegments == Kept(cands, va) && s.documentSegments == Kept(docs, vd)
    && s.excludedSegments == notices + Rejected(cands, va, ATTACHMENT_NAMES) + Rejected(docs, vd, DOCUMENT_NAMES)
    && |s.includedSegments| == |s.attachmentSegments| + |s.documentSegments|
    && s.includedSize == more + Size(s.documentSegments)
  }

  lemma AllottedParts(s: Snapshot, x: Inputs, l: Limits)
    requires SegmentsAssembled(s, x, l)
    ensures Allotted(s, l, IncludedSize(s.shares), UsedBefore(s), Notices(x.attachments, SegmentedIds(x.segments)),
                     AttachmentCandidates(x.attachments, x.segments), DocumentCandidates(InLinkedOrder(x.linked)))
  {
    var used := IncludedSize(s.shares);
    AttachmentPart(x, used, l);
    DocumentPart(x, |s.attachmentSegments|, UsedBefore(s), l);
  }

  /** Each allocator stays within what the one before it left. */
  lemma PartsFit(s: Snapshot, l: Limits, used: nat, more: nat, notices: seq<Excluded>, cands: seq<Candidate>,
                  docs: seq<Candidate>)
    requires Allotted(s, l, used, more, notices, cands, docs) && used <= l.maxText
    ensures s.includedSize <= l.maxText && s.includedSize <= used + Size(cands) + Size(docs)
    ensures |s.includedSegments| <= l.maxSegments
    ensures forall c :: c in s.attachmentSegments + s.documentSegments ==> |c.content| <= l.maxSegmentText
  {
    KeptFits(cands, 0, Room(l, used), l);
    KeptFits(docs, |s.attachmentSegments|, Room(l, more), l);
  }

  /** No snapshot is larger than its sources, than the character budget, or than the segment count. */
  lemma SnapshotWithinBounds(s: Snapshot, x: Inputs, l: Limits)
    requires MessagesAssembled(s, x, l) && SegmentsAssembled(s, x, l)
    ensures s.includedSize <= s.originalSize && s.includedSize <= l.maxText
    ensures |s.includedSegments| <= l.maxSegments && |s.messages| <= l.maxMessages && |s.fileKeys| <= l.maxAttachments
    ensures forall c :: c in s.attachmentSegments + s.documentSegments ==> |c.content| <= l.maxSegmentText
    ensures forall i :: 0 <= i < |s.shares| ==> |s.shares[i].included| <= SingleLimit(l)
  {
    WithinBudget(s.shares, l);
    SharesBounded(s.shares, l);
    AllottedParts(s, x, l);
    PartsFit(s, l, IncludedSize(s.shares), UsedBefore(s), Notices(x.attachments, SegmentedIds(x.segments)),
             AttachmentCandidates(x.attachments, x.segments), DocumentCandidates(InLinkedOrder(x.linked)));
    SharesWithinLimit(s.shares, l);
  }

  lemma SharesWithinLimit(shares: seq<Share>, l: Limits)
    requires Waterfall(shares, l)
    ensures forall i :: 0 <= i < |shares| ==> |shares[i].included| <= SingleLimit(l)
  {
    forall i | 0 <= i < |shares| ensures |shares[i].included| <= SingleLimit(l) {
      assert TakesItsPart(shares, i, l);
    }
  }

  lemma NothingRejectedInParts(s: Snapshot, l: Limits, used: nat, more: nat, notices: seq<Excluded>, cands: seq<Candidate>,
                  docs: seq<Candidate>)
    requires Allotted(s, l, used, more, notices, cands, docs) && s.excludedSegments == []
    ensures s.attachmentSegments == cands && s.documentSegments == docs
  {
    NothingRejected(cands, Verdicts(cands, 0, Room(l, used), l), ATTACHMENT_NAMES);
    NothingRejected(docs, Verdicts(docs, |s.attachmentSegments|, Room(l, more), l), DOCUMENT_NAMES);
  }

  lemma NothingExcluded(s: Snapshot, x: Inputs, l: Limits)
    requires SegmentsAssembled(s, x, l) && s.excludedSegments == []
    ensures s.attachmentSegments == AttachmentCandidates(x.attachments, x.segments)
    ensures s.documentSegments == DocumentCandidates(InLinkedOrder(x.linked))
    ensures s.includedSize - s.originalSize == IncludedSize(s.shares) - OriginalSize(s.shares)
  {
    AllottedParts(s, x, l);
    NothingRejectedInParts(s, l, IncludedSize(s.shares), UsedBefore(s), Notices(x.attachments, SegmentedIds(x.segments)),
                           AttachmentCandidates(x.attachments, x.segments), DocumentCandidates(InLinkedOrder(x.linked)));
  }

  /** A snapshot is marked truncated exactly when something was cut, excluded or counted out. */
  lemma TruncatedExactly(s: Snapshot, x: Inputs, l: Limits)
    requires ReasonsAssembled(s, x, l)
    ensures s.truncated <==>
            || AnyOverSingle(s.shares, l) || AnyStarved(s.shares, l) || s.excludedSegments != []
            || |IdsIn(x.available)| > |s.messages| || |x.fileKeys| > l.maxAttachments
  {
    if s.excludedSegments != [] {
      assert ReasonsOf(s.excludedSegments)[0] in Elements(ReasonsOf(s.excludedSegments));
    }
    if AnyOverSingle(s.shares, l) { assert "single_message_limit" in s.reasons; }
    if AnyStarved(s.shares, l) { assert "total_character_limit" in s.reasons; }
    if |IdsIn(x.available)| > |s.messages| { assert "message_count_limit" in s.reasons; }
    if |x.fileKeys| > l.maxAttachments { assert "attachment_limit" in s.reasons; }
  }

  /** A snapshot not marked truncated carries everything it was built from. */
  lemma UntruncatedIsComplete(s: Snapshot, x: Inputs, l: Limits)
    requires MessagesAssembled(s, x, l) && SegmentsAssembled(s, x, l) && ReasonsAssembled(s, x, l) && !s.truncated
    ensures s.includedSize == s.originalSize && s.excludedSegments == [] && s.fileKeys == x.fileKeys
    ensures s.attachmentSegments == AttachmentCandidates(x.attachments, x.segments)
    ensures s.documentSegments == DocumentCandidates(InLinkedOrder(x.linked))
  {
    TruncatedExactly(s, x, l);
    NothingExcluded(s, x, l);
    SharesBounded(s.shares, l);
  }

  /** Greedy maximality of one allocator against the whole budget. */
  lemma NoRoomLeft(cands: seq<Candidate>, taken: nat, used: nat, l: Limits, i: nat)
    requires i < |cands|
    ensures var v := Verdicts(cands, taken, Room(l, used), l);
            && (v[i] == NoRoom ==> used + Size(Kept(cands, v)) + |cands[i].content| > l.maxText)
            && (v[i] == TooMany ==> taken + |Kept(cands, v)| >= l.maxSegments)
  {
    GreedyMaximal(cands, taken, Room(l, used), l, i);
  }

  function AttachmentVerdicts(s: Snapshot, x: Inputs, l: Limits): (v: seq<Verdict>)
    ensures |v| == |AttachmentCandidates(x.attachments, x.segments)|
  {
    Verdicts(AttachmentCandidates(x.attachments, x.segments), 0, Room(l, IncludedSize(s.shares)), l)
  }

  ghost function DocumentVerdicts(s: Snapshot, x: Inputs, l: Limits): (v: seq<Verdict>)
    ensures |v| == |DocumentCandidates(InLinkedOrder(x.linked))|
  {
    Verdicts(DocumentCandidates(InLinkedOrder(x.linked)), |s.attachmentSegments|,
             Room(l, UsedBefore(s)), l)
  }

  lemma PartsMaximal(s: Snapshot, l: Limits, used: nat, more: nat, notices: seq<Excluded>, cands: seq<Candidate>,
                  docs: seq<Candidate>)
    requires Allotted(s, l, used, more, notices, cands, docs)
    ensures forall i :: 0 <= i < |cands| && Verdicts(cands, 0, Room(l, used), l)[i] == NoRoom ==>
              s.includedSize + |cands[i].content| > l.maxText
    ensures var vd := Verdicts(docs, |s.attachmentSegments|, Room(l, more), l);
            forall i :: 0 <= i < |docs| ==>
              && (vd[i] == NoRoom ==> s.includedSize + |docs[i].content| > l.maxText)
              && (vd[i] == TooMany ==> |s.includedSegments| >= l.maxSegments)
  {
    forall i | 0 <= i < |cands| && Verdicts(cands, 0, Room(l, used), l)[i] == NoRoom
      ensures s.includedSize + |cands[i].content| > l.maxText
    {
      NoRoomLeft(cands, 0, used, l, i);
    }
    var vd := Verdicts(docs, |s.attachmentSegments|, Room(l, more), l);
    forall i | 0 <= i < |docs|
      ensures vd[i] == NoRoom ==> s.includedSize + |docs[i].content| > l.maxText
      ensures vd[i] == TooMany ==> |s.includedSegments| >= l.maxSegments
    {
      NoRoomLeft(docs, |s.attachmentSegments|, more, l, i);
    }
  }

  /** An attachment segment left out for lack of characters would not fit what the finished snapshot, documents
      included, still has room for. */
  lemma NothingMoreFits(s: Snapshot, x: Inputs, l: Limits, i: nat)
    requires SegmentsAssembled(s, x, l) && i < |AttachmentCandidates(x.attachments, x.segments)|
    ensures AttachmentVerdicts(s, x, l)[i] == NoRoom ==>
              s.includedSize + |AttachmentCandidates(x.attachments, x.segments)[i].content| > l.maxText
  {
    AllottedParts(s, x, l);
    PartsMaximal(s, l, IncludedSize(s.shares), UsedBefore(s), Notices(x.attachments, SegmentedIds(x.segments)),
                 AttachmentCandidates(x.attachments, x.segments), DocumentCandidates(InLinkedOrder(x.linked)));
  }

  /** The same for document segments; one left out for the count found all slots taken by both kinds. */
  lemma NoMoreDocumentsFit(s: Snapshot, x: Inputs, l: Limits, i: nat)
    requires SegmentsAssembled(s, x, l) && i < |DocumentCandidates(InLinkedOrder(x.linked))|
    ensures DocumentVerdicts(s, x, l)[i] == NoRoom ==>
              s.includedSize + |DocumentCandidates(InLinkedOrder(x.linked))[i].content| > l.maxText
    ensures DocumentVerdicts(s, x, l)[i] == TooMany ==> |s.includedSegments| >= l.maxSegments
  {
    AllottedParts(s, x, l);
    PartsMaximal(s, l, IncludedSize(s.shares), UsedBefore(s), Notices(x.attachments, SegmentedIds(x.segments)),
                 AttachmentCandidates(x.attachments, x.segments), DocumentCandidates(InLinkedOrder(x.linked)));
  }

  // ---------------------------------------------------------------- when the count limit goes unreported

  /** Messages were dropped by the count but the flag misses it: exactly when the current message is not among
      the available ones and those alone are as many as the limit. */
  lemma CountFlagMissed(s: Snapshot, x: Inputs, l: Limits)
    requires MessagesAssembled(s, x, l)
    ensures var dropped := |s.messages| < |Unique(x.available)[x.current.id := x.current]|;
            && (dropped && "message_count_limit" !in CountReasons(IdsIn(x.available), |s.messages|, |x.fileKeys|, l)
                <==> x.current.id !in IdsIn(x.available) && |IdsIn(x.available)| == l.maxMessages)
            && ("message_count_limit" in CountReasons(IdsIn(x.available), |s.messages|, |x.fileKeys|, l) ==> dropped)
  {
    UniqueKeys(x.available);
    var unique := Unique(x.available);
    var all := unique[x.current.id := x.current];
    assert all.Keys == IdsIn(x.available) + {x.current.id};
    assert |all| == |all.Keys| && |unique| == |unique.Keys|;
    if x.current.id in IdsIn(x.available) {
      assert all.Keys == IdsIn(x.available);
    } else {
      assert |all.Keys| == |IdsIn(x.available)| + 1;
    }
  }

  lemma OneKept(messages: seq<Message>)
    requires NewestOthers(messages, Unique(ONE_DROPPED.available)["b" := ONE_DROPPED.current], ONE_DROPPED.current, 1)
    ensures messages == [ONE_DROPPED.current] && IdsIn(ONE_DROPPED.available) == {"a"}
  {
    var x := ONE_DROPPED;
    assert x.available[..0] == [];
    assert Unique(x.available) == map["a" := x.available[0]];
    var all := map["a" := x.available[0], "b" := x.current];
    assert all.Keys == {"a", "b"} && |all| == |all.Keys|;
    assert Unique(x.available)["b" := x.current] == all;
  }

  lemma OnePrioritized(messages: seq<Message>)
    requires messages == [ONE_DROPPED.current]
    ensures Prioritized(messages, "b") == messages
  {
    PrioritizedOrder(messages, "b");
    var p := Prioritized(messages, "b");
    assert p[0] in messages && p == [p[0]];
  }

  lemma OneShare(shares: seq<Share>)
    requires MessagesOf(shares) == [ONE_DROPPED.current] && Waterfall(shares, ONE_MESSAGE)
    ensures !AnyOverSingle(shares, ONE_MESSAGE) && !AnyStarved(shares, ONE_MESSAGE)
  {
    assert shares[0].message == MessagesOf(shares)[0];
    assert TakesItsPart(shares, 0, ONE_MESSAGE) && shares[..0] == [];
  }

  /** One other message, a limit of one: the other message is dropped and nothing says so. */
  lemma CountFlagMissedExample(s: Snapshot)
    requires MessagesAssembled(s, ONE_DROPPED, ONE_MESSAGE) && SegmentsAssembled(s, ONE_DROPPED, ONE_MESSAGE)
    requires ReasonsAssembled(s, ONE_DROPPED, ONE_MESSAGE)
    ensures s.messages == [ONE_DROPPED.current] && !s.truncated
  {
    OneKept(s.messages);
    OnePrioritized(s.messages);
    OneShare(s.shares);
    NothingToExclude(s, ONE_DROPPED, ONE_MESSAGE);
    TruncatedExactly(s, ONE_DROPPED, ONE_MESSAGE);
  }

  const ONE_DROPPED := Inputs(Message("b", Some(2), ""), [Message("a", Some(1), "")], [], [], [], [])
  const ONE_MESSAGE := Limits(1, 100, None, 10, 10, 10)

  lemma NothingToExclude(s: Snapshot, x: Inputs, l: Limits)
    requires SegmentsAssembled(s, x, l) && x.attachments == [] && x.segments == [] && x.linked == []
    ensures s.excludedSegments == []
  {
    assert AttachmentCandidates([], []) == [] && DocumentCandidates(InLinkedOrder([])) == [];
    assert Notices([], SegmentedIds([])) == [];
    AllottedParts(s, x, l);
  }
}
