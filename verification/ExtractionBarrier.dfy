/** Attachments of one message are downloaded and extracted by many workers; whoever finds them all finished asks
    for the message's analysis. This is one unit of work; `AnalysisWakeups` interleaves them. */
module ExtractionBarrier {
  import opened Prelude

  type AttachmentId = nat
  type MessageId = nat
  type ExtractionId = nat

  datatype Download = DownloadPending | Downloading | Downloaded | DownloadFailed | MetadataOnly | DownloadNotRequested

  datatype Extraction = ExtractionNotRequested | ExtractionPending | Extracting | Succeeded | BodyUnavailable | ExtractionFailed

  datatype Attachment = Attachment(message: MessageId, download: Download, extraction: Extraction,
                                   errorCode: Option<string>)

  /** What a worker found: an extracted document or an error. */
  datatype Outcome = Extracted(bodyAvailable: bool, errorCode: Option<string>) | Broke(code: string)

  datatype Message = Message(recalled: bool, disposition: string, version: nat)

  datatype AnalysisEvent = AnalysisEvent(message: MessageId, forceNewRun: bool, pending: bool)

  datatype Decision = Decision(requested: bool, reason: string)

  datatype Error = NotFound | NotExtracting

  predicate FinishedExtraction(e: Extraction) {
    e in {Succeeded, BodyUnavailable, ExtractionFailed}
  }

  /** Nothing more will happen to the attachment. */
  predicate Terminal(a: Attachment) {
    a.download in {DownloadFailed, MetadataOnly} || (a.download == Downloaded && FinishedExtraction(a.extraction))
  }

  function Finish(a: Attachment, outcome: Outcome): Attachment {
    match outcome
    case Extracted(body, code) => a.(extraction := if body then Succeeded else BodyUnavailable, errorCode := code)
    case Broke(code) => a.(extraction := ExtractionFailed, errorCode := Some(code))
  }

  predicate AllTerminal(rows: map<AttachmentId, Attachment>, m: MessageId) {
    forall a :: a in rows && rows[a].message == m ==> Terminal(rows[a])
  }

  /** The message has attachments and all of them are finished. */
  predicate ReadyForAnalysis(rows: map<AttachmentId, Attachment>, m: MessageId) {
    (exists a :: a in rows && rows[a].message == m) && AllTerminal(rows, m)
  }

  predicate PendingFor(outbox: seq<AnalysisEvent>, m: MessageId) {
    exists i :: 0 <= i < |outbox| && outbox[i].message == m && outbox[i].pending
  }

  /** The policy boundary of automatic analysis. */
  function Gate(messages: map<MessageId, Message>, outbox: seq<AnalysisEvent>, m: MessageId): Decision {
    if m !in messages then Decision(false, "message_not_found")
    else if messages[m].recalled then Decision(false, "message_recalled")
    else if messages[m].disposition != "analyze" then Decision(false, "message_disposition_" + messages[m].disposition)
    else if PendingFor(outbox, m) then Decision(false, "analysis_already_pending")
    else Decision(true, "analysis_requested")
  }

  function Requested(messages: map<MessageId, Message>, outbox: seq<AnalysisEvent>, m: MessageId,
                     force: bool): seq<AnalysisEvent> {
    if Gate(messages, outbox, m).requested
    then outbox + [AnalysisEvent(m, force || messages[m].version > 1, true)]
    else outbox
  }

  class UnitOfWork {
    var attachments: map<AttachmentId, Attachment>
    var extractions: map<ExtractionId, Extraction>
    var messages: map<MessageId, Message>
    var outbox: seq<AnalysisEvent>

    method RequestIfAllowed(m: MessageId, force: bool) returns (d: Decision)
      modifies this`outbox
      ensures d == Gate(messages, old(outbox), m)
      ensures outbox == Requested(messages, old(outbox), m, force)
    {
      if m !in messages { return Decision(false, "message_not_found"); }
      var message := messages[m];
      if message.recalled { return Decision(false, "message_recalled"); }
      if message.disposition != "analyze" { return Decision(false, "message_disposition_" + message.disposition); }
      if PendingFor(outbox, m) { return Decision(false, "analysis_already_pending"); }
      outbox := outbox + [AnalysisEvent(m, force || message.version > 1, true)];
      return Decision(true, "analysis_requested");
    }

    method ListAttachments(m: MessageId) returns (ids: seq<AttachmentId>)
      ensures forall a :: a in ids <==> a in attachments && attachments[a].message == m
    {
      ids := [];
      var left := set a | a in attachments && attachments[a].message == m;
      while left != {}
        invariant forall a :: a in attachments && attachments[a].message == m <==> a in ids || a in left
        decreases left
      {
        var a :| a in left;
        left, ids := left - {a}, ids + [a];
      }
    }

    method RequestAnalysisIfReady(m: MessageId) returns (asked: bool)
      modifies this`outbox
      ensures asked == ReadyForAnalysis(attachments, m)
      ensures outbox == if asked then Requested(messages, old(outbox), m, m in messages && messages[m].version > 1)
                        else old(outbox)
    {
      var ids := ListAttachments(m);
      if ids == [] {
        assert forall a :: a in attachments && attachments[a].message == m ==> a in ids;
        return false;
      }
      assert ids[0] in ids;
      for i := 0 to |ids|
        invariant forall k :: 0 <= k < i ==> Terminal(attachments[ids[k]])
        invariant outbox == old(outbox)
      {
        assert ids[i] in ids;
        if !Terminal(attachments[ids[i]]) { return false; }
      }
      var force := m in messages && messages[m].version > 1;
      var _ := RequestIfAllowed(m, force);
      return true;
    }

    /** The download job asks after its last attachment, with the same question put the other way round. */
    method RequestAfterDownloads(m: MessageId) returns (asked: bool)
      modifies this`outbox
      ensures asked == ReadyForAnalysis(attachments, m)
      ensures outbox == if asked then Requested(messages, old(outbox), m, m in messages && messages[m].version > 1)
                        else old(outbox)
    {
      var ids := ListAttachments(m);
      if ids == [] {
        assert forall a :: a in attachments && attachments[a].message == m ==> a in ids;
        return false;
      }
      assert ids[0] in ids;
      for i := 0 to |ids|
        invariant forall k :: 0 <= k < i ==> Terminal(attachments[ids[k]])
        invariant outbox == old(outbox)
      {
        assert ids[i] in ids;
        var row := attachments[ids[i]];
        if row.download !in {DownloadFailed, MetadataOnly}
           && (row.download != Downloaded || row.extraction !in {Succeeded, BodyUnavailable, ExtractionFailed}) {
          return false;
        }
      }
      var force := m in messages && messages[m].version > 1;
      var _ := RequestIfAllowed(m, force);
      return true;
    }

    /** Complete or fail one extraction: both rows, then the question whether it was the last one. */
    method FinishExtraction(e: ExtractionId, a: AttachmentId, outcome: Outcome) returns (r: Result<bool, Error>)
      modifies this
      ensures messages == old(messages)
      ensures e !in old(extractions) || a !in old(attachments) ==> r == Err(NotFound)
      ensures e in old(extractions) && a in old(attachments) && old(extractions)[e] != Extracting ==> r == Err(NotExtracting)
      ensures r.Err? ==> attachments == old(attachments) && extractions == old(extractions) && outbox == old(outbox)
      ensures r.Ok? ==>
                var row := Finish(old(attachments)[a], outcome);
                && attachments == old(attachments)[a := row]
                && extractions == old(extractions)[e := row.extraction]
                && r.value == ReadyForAnalysis(attachments, row.message)
                && outbox == (if r.value
                              then Requested(messages, old(outbox), row.message, row.message in messages && messages[row.message].version > 1)
                              else old(outbox))
      ensures r.Ok? <==> e in old(extractions) && a in old(attachments) && old(extractions)[e] == Extracting
    {
      if e !in extractions || a !in attachments { return Err(NotFound); }
      if extractions[e] != Extracting { return Err(NotExtracting); }
      var row := Finish(attachments[a], outcome);
      extractions := extractions[e := row.extraction];
      attachments := attachments[a := row];
      var asked := RequestAnalysisIfReady(row.message);
      return Ok(asked);
    }
  }

  /** Asking twice adds one event: the gate keeps at most one pending event per message. */
  lemma GateAsksOnce(messages: map<MessageId, Message>, outbox: seq<AnalysisEvent>, m: MessageId, force: bool,
                     again: bool)
    ensures Requested(messages, Requested(messages, outbox, m, force), m, again) == Requested(messages, outbox, m, force)
  {
    var once := Requested(messages, outbox, m, force);
    if Gate(messages, outbox, m).requested {
      assert once[|once| - 1].message == m && once[|once| - 1].pending;
    }
  }

  /** The gate opens exactly for a message that is known, not recalled, to be analysed, and without a waiting event; the
      first obstacle is its reason; and it adds one waiting event, forced for a message that was stored before. */
  lemma GateDecides(messages: map<MessageId, Message>, outbox: seq<AnalysisEvent>, m: MessageId, force: bool)
    ensures var d, after := Gate(messages, outbox, m), Requested(messages, outbox, m, force);
            var waits := exists i :: 0 <= i < |outbox| && outbox[i].message == m && outbox[i].pending;
            && (d.requested <==> m in messages && !messages[m].recalled && messages[m].disposition == "analyze" && !waits)
            && (m !in messages ==> d.reason == "message_not_found")
            && (m in messages && messages[m].recalled ==> d.reason == "message_recalled")
            && (m in messages && !messages[m].recalled && messages[m].disposition != "analyze" ==>
                  d.reason == "message_disposition_" + messages[m].disposition)
            && (m in messages && !messages[m].recalled && messages[m].disposition == "analyze" ==>
                  d.reason == if waits then "analysis_already_pending" else "analysis_requested")
            && (!d.requested ==> after == outbox)
            && (d.requested ==> |after| == |outbox| + 1 && outbox <= after
                                && after[|outbox|] == AnalysisEvent(m, force || messages[m].version > 1, true))
  {
  }

  /** The question is answered yes exactly if the message has an attachment, and each one failed to download, has its
      metadata only, or was extracted with or without a body or in vain. */
  lemma ReadyExactly(rows: map<AttachmentId, Attachment>, m: MessageId)
    ensures ReadyForAnalysis(rows, m) <==>
            && (exists a :: a in rows && rows[a].message == m)
            && forall a :: a in rows && rows[a].message == m ==>
                 match rows[a].download
                 case DownloadFailed => true
                 case MetadataOnly => true
                 case Downloaded =>
                   (match rows[a].extraction
                    case Succeeded => true
                    case BodyUnavailable => true
                    case ExtractionFailed => true
                    case _ => false)
                 case _ => false
  {
  }

  /** What a worker writes into its row: only the extraction and its error, and the row is finished if it was downloaded. */
  lemma FinishedRow(a: Attachment, outcome: Outcome)
    ensures var after := Finish(a, outcome);
            && after == a.(extraction := after.extraction, errorCode := after.errorCode)
            && (after.extraction == Succeeded <==> outcome.Extracted? && outcome.bodyAvailable)
            && (after.extraction == BodyUnavailable <==> outcome.Extracted? && !outcome.bodyAvailable)
            && (after.extraction == ExtractionFailed <==> outcome.Broke?)
            && after.errorCode == (if outcome.Broke? then Some(outcome.code) else outcome.errorCode)
            && (a.download == Downloaded ==> Terminal(after))
  {
  }
}
