/** Ingesting message events that arrive several times and over several channels. */
module FeishuIngest {
  import opened Prelude
  import ExtractionBarrier

  datatype Operation = Create | Edit | Recall | Unsupported

  datatype Key = Key(tenant: string, id: string)

  /** Everything a create or an edit overwrites. */
  datatype Body = Body(text: string, fileKeys: seq<string>, editedAt: Option<int>, unsupported: Option<string>,
                       disposition: string, provenance: string)

  datatype Incoming = Incoming(body: Body, recalledAt: Option<int>)

  /** One event as normalised; the payload stands for its hash. `recallTime` is the time the payload gives, if any;
      `waiting` says that an analysis request of the message is still undelivered in the outbox, which others drain. */
  datatype Command = Command(event: Key, payload: string, operation: Operation, externalId: Option<string>,
                             message: Option<Incoming>, channel: string, trigger: bool, recallTime: Option<int>, now: int,
                             waiting: bool)

  datatype EventStatus = Received | Duplicate | Processed

  datatype RawEvent = RawEvent(payload: string, status: EventStatus, channel: string)

  datatype Message = Message(event: Key, body: Body, recalledAt: Option<int>, channel: string,
                             channels: seq<string>, version: nat)

  datatype Version = Version(event: Key, revision: nat, body: Body, recalledAt: Option<int>, isRecalled: bool)

  datatype AttachmentRow = AttachmentRow(message: Key, revision: nat, fileKey: string)

  datatype Request = AttachmentsPending(message: Key) | AnalysisRequested(message: Key, forceNewRun: bool)

  datatype Audit = Audit(event: Key, message: Option<Key>, duplicate: bool, revision: Option<nat>, attachments: nat)

  datatype Db = Db(events: map<Key, RawEvent>, messages: map<Key, Message>, versions: map<Key, seq<Version>>,
                   attachments: seq<AttachmentRow>, requests: seq<Request>, audits: seq<Audit>)

  datatype Ingested = Ingested(message: Option<Key>, duplicate: bool)

  datatype Conflict = EventIdReused

  function Priority(channel: string): int {
    if channel == "local_client" then 0
    else if channel == "user_api" then 1
    else if channel == "app_event" then 2
    else -1
  }

  function WithChannel(channels: seq<string>, channel: string): seq<string> {
    if channel in channels then channels else channels + [channel]
  }

  predicate HasId(c: Command) {
    c.externalId.Some? && c.externalId.value != ""
  }

  function MessageKey(c: Command): Key
    requires HasId(c)
  {
    Key(c.event.tenant, c.externalId.value)
  }

  // ---------------------------------------------------------------- one event as a transaction

  function Find(messages: map<Key, Message>, key: Key): Option<Message> {
    if key in messages then Some(messages[key]) else None
  }

  predicate UpgradesSource(existing: Option<Message>, c: Command) {
    c.operation == Create && existing.Some? && Priority(c.channel) > Priority(existing.value.channel)
  }

  datatype Change = Ignored | ChannelNoted(message: Message) | Stored(message: Message)

  function Merge(existing: Option<Message>, c: Command): Change {
    if c.operation == Create && existing.Some? && !UpgradesSource(existing, c) then
      ChannelNoted(existing.value.(channels := WithChannel(existing.value.channels, c.channel)))
    else if c.message.Some? && existing.None? then
      Stored(Message(c.event, c.message.value.body, c.message.value.recalledAt, c.channel, [c.channel], 1))
    else if c.message.Some? then
      Stored(existing.value.(event := c.event, body := c.message.value.body, channel := c.channel,
                             channels := WithChannel(existing.value.channels, c.channel), version := existing.value.version + 1))
    else if c.operation == Recall && existing.Some? then
      Stored(existing.value.(event := c.event, recalledAt := Some(if c.recallTime.Some? then c.recallTime.value else c.now),
                             version := existing.value.version + 1))
    else Ignored
  }

  /** coalesce(max(revision), 0) + 1 */
  function NextRevision(versions: seq<Version>): nat {
    MaxRevision(versions) + 1
  }

  function MaxRevision(versions: seq<Version>): nat {
    if versions == [] then 0
    else
      var rest := MaxRevision(versions[..|versions| - 1]);
      var last := versions[|versions| - 1].revision;
      if last > rest then last else rest
  }

  function VersionsOf(db: Db, key: Key): seq<Version> {
    if key in db.versions then db.versions[key] else []
  }

  function Rows(key: Key, revision: nat, fileKeys: seq<string>): seq<AttachmentRow> {
    seq(|fileKeys|, i requires 0 <= i < |fileKeys| => AttachmentRow(key, revision, fileKeys[i]))
  }

  function NewFiles(c: Command): seq<string> {
    if c.message.Some? then c.message.value.body.fileKeys else []
  }

  /** What the gate of automatic analysis lets through. */
  predicate GateAllows(message: Message, waiting: bool) {
    message.recalledAt.None? && message.body.disposition == "analyze" && !waiting
  }

  /** It is the gate of the extraction barrier, on the same message and outbox. */
  lemma SameGate(message: Message, waiting: bool, messages: map<nat, ExtractionBarrier.Message>,
                 outbox: seq<ExtractionBarrier.AnalysisEvent>, m: nat)
    requires m in messages && waiting == ExtractionBarrier.PendingFor(outbox, m)
    requires messages[m] == ExtractionBarrier.Message(message.recalledAt.Some?, message.body.disposition, message.version)
    ensures ExtractionBarrier.Gate(messages, outbox, m).requested == GateAllows(message, waiting)
  {
  }

  function Wanted(key: Key, c: Command, message: Message): seq<Request> {
    if !c.trigger then []
    else if NewFiles(c) != [] then [AttachmentsPending(key)]
    else if GateAllows(message, c.waiting) then [AnalysisRequested(key, c.operation == Edit || message.version > 1)]
    else []
  }

  /** A stored message: the row, its next revision, the attachment rows and the request for analysis. */
  function StoreTx(db: Db, key: Key, c: Command, message: Message): Db {
    var revision := if key in db.messages then NextRevision(VersionsOf(db, key)) else 1;
    var version := Version(c.event, revision, message.body, message.recalledAt, c.operation == Recall);
    db.(events := db.events[c.event := RawEvent(c.payload, Processed, c.channel)],
        messages := db.messages[key := message],
        versions := db.versions[key := VersionsOf(db, key) + [version]],
        attachments := db.attachments + Rows(key, revision, NewFiles(c)),
        requests := db.requests + Wanted(key, c, message),
        audits := db.audits + [Audit(c.event, Some(key), false, Some(revision), |NewFiles(c)|)])
  }

  function NewEventTx(db: Db, c: Command): (Db, Ingested) {
    var received := db.(events := db.events[c.event := RawEvent(c.payload, Received, c.channel)],
                        audits := db.audits + [Audit(c.event, None, false, None, 0)]);
    if !HasId(c) then (received, Ingested(None, false))
    else
      var key := MessageKey(c);
      match Merge(Find(db.messages, key), c)
      case Ignored => (received, Ingested(if key in db.messages then Some(key) else None, false))
      case ChannelNoted(message) =>
        (db.(events := db.events[c.event := RawEvent(c.payload, Duplicate, c.channel)],
             messages := db.messages[key := message],
             audits := db.audits + [Audit(c.event, None, true, None, 0)]),
         Ingested(Some(key), true))
      case Stored(message) => (StoreTx(db, key, c, message), Ingested(Some(key), false))
  }

  function IngestTx(db: Db, c: Command): (Db, Result<Ingested, Conflict>) {
    if c.event in db.events then
      if db.events[c.event].payload != c.payload then (db, Err(EventIdReused))
      else (db, Ok(Ingested(if HasId(c) && MessageKey(c) in db.messages then Some(MessageKey(c)) else None, true)))
    else
      var done := NewEventTx(db, c);
      (done.0, Ok(done.1))
  }

  // ---------------------------------------------------------------- the handler

  class FeishuStore {
    var events: map<Key, RawEvent>
    var messages: map<Key, Message>
    var versions: map<Key, seq<Version>>
    var attachments: seq<AttachmentRow>
    var requests: seq<Request>
    var audits: seq<Audit>

    ghost function State(): Db
      reads this
    {
      Db(events, messages, versions, attachments, requests, audits)
    }

    constructor ()
      ensures State() == Db(map[], map[], map[], [], [], [])
    {
      events, messages, versions := map[], map[], map[];
      attachments, requests, audits := [], [], [];
    }

    method Ingest(c: Command) returns (r: Result<Ingested, Conflict>)
      modifies this
      ensures State() == IngestTx(old(State()), c).0 && r == IngestTx(old(State()), c).1
    {
      if c.event in events {
        if events[c.event].payload != c.payload {
          return Err(EventIdReused);
        }
        return Ok(Ingested(if HasId(c) && MessageKey(c) in messages then Some(MessageKey(c)) else None, true));
      }
      ghost var before := State();
      var ingested;
      if HasId(c) {
        ingested := IngestMessage(c, MessageKey(c));
      } else {
        Record(c, Received, None, None, 0);
        ingested := Ingested(None, false);
      }
      assert (State(), ingested) == NewEventTx(before, c);
      r := Ok(ingested);
    }

    /** The event row and its audit event. */
    method Record(c: Command, status: EventStatus, about: Option<Key>, revision: Option<nat>, files: nat)
      modifies this
      ensures State() == old(State()).(events := old(events)[c.event := RawEvent(c.payload, status, c.channel)],
                                       audits := old(audits) + [Audit(c.event, about, status == Duplicate, revision, files)])
    {
      events := events[c.event := RawEvent(c.payload, status, c.channel)];
      audits := audits + [Audit(c.event, about, status == Duplicate, revision, files)];
    }

    method IngestMessage(c: Command, key: Key) returns (ingested: Ingested)
      requires HasId(c) && key == MessageKey(c)
      modifies this
      ensures (State(), ingested) == NewEventTx(old(State()), c)
    {
      var existing := Find(messages, key);
      if c.operation == Create && existing.Some? && !UpgradesSource(existing, c) {
        if c.channel !in existing.value.channels {
          messages := messages[key := existing.value.(channels := existing.value.channels + [c.channel])];
        }
        Record(c, Duplicate, None, None, 0);
        assert messages == old(messages)[key := existing.value.(channels := WithChannel(existing.value.channels, c.channel))];
        return Ingested(Some(key), true);
      }
      var message := Revise(existing, c);
      if message.Some? {
        Save(c, key, message.value);
        return Ingested(Some(key), false);
      }
      Record(c, Received, None, None, 0);
      return Ingested(if existing.Some? then Some(key) else None, false);
    }

    /** The new message, or the stored one with its fields overwritten in turn. */
    static method Revise(existing: Option<Message>, c: Command) returns (message: Option<Message>)
      requires !(c.operation == Create && existing.Some? && !UpgradesSource(existing, c))
      ensures Merge(existing, c) == if message.Some? then Stored(message.value) else Ignored
    {
      if c.message.Some? && existing.None? {
        return Some(Message(c.event, c.message.value.body, c.message.value.recalledAt, c.channel, [c.channel], 1));
      }
      if c.message.Some? {
        var m := existing.value.(event := c.event, body := c.message.value.body, channel := c.channel);
        if c.channel !in m.channels {
          m := m.(channels := m.channels + [c.channel]);
        }
        return Some(m.(version := m.version + 1));
      }
      if c.operation == Recall && existing.Some? {
        var m := existing.value.(event := c.event);
        m := m.(recalledAt := if c.recallTime.Some? then c.recallTime else Some(c.now));
        return Some(m.(version := m.version + 1));
      }
      return None;
    }

    method Save(c: Command, key: Key, message: Message)
      modifies this
      ensures State() == StoreTx(old(State()), key, c, message)
    {
      var stored := if key in versions then versions[key] else [];
      var revision := if key in messages then NextRevision(stored) else 1;
      messages := messages[key := message];
      versions := versions[key := stored + [Version(c.event, revision, message.body, message.recalledAt, c.operation == Recall)]];
      var newFiles: seq<string> := [];
      if c.message.Some? {
        newFiles := c.message.value.body.fileKeys;
      }
      attachments := attachments + Rows(key, revision, newFiles);
      if c.trigger {
        if newFiles != [] {
          requests := requests + [AttachmentsPending(key)];
        } else if GateAllows(message, c.waiting) {
          requests := requests + [AnalysisRequested(key, c.operation == Edit || message.version > 1)];
        }
      }
      Record(c, Processed, Some(key), Some(revision), |newFiles|);
    }
  }

  // ---------------------------------------------------------------- over whole runs

  function Run(db: Db, cs: seq<Command>): Db {
    if cs == [] then db else IngestTx(Run(db, cs[..|cs| - 1]), cs[|cs| - 1]).0
  }

  ghost predicate Numbered(versions: seq<Version>) {
    forall i :: 0 <= i < |versions| ==> versions[i].revision == i + 1
  }

  /** The version counts the stored revisions, numbered 1, 2, ...; no channel is listed twice, and the source is listed. */
  ghost predicate MessageConsistent(db: Db, key: Key)
    requires key in db.messages
  {
    && key in db.versions && db.messages[key].version == |db.versions[key]| && Numbered(db.versions[key])
    && Distinct(db.messages[key].channels) && db.messages[key].channel in db.messages[key].channels
  }

  ghost predicate Inv(db: Db) {
    && db.versions.Keys == db.messages.Keys
    && forall key :: key in db.messages ==> MessageConsistent(db, key)
  }

  lemma {:induction false} NumberedMax(versions: seq<Version>)
    requires Numbered(versions)
    ensures MaxRevision(versions) == |versions|
  {
    if versions != [] { NumberedMax(versions[..|versions| - 1]); }
  }

  /** A merge counts a stored revision and lists no channel twice. */
  lemma MergeConsistent(m: Option<Message>, c: Command)
    requires m.Some? ==> Distinct(m.value.channels) && m.value.channel in m.value.channels
    ensures var merged := Merge(m, c);
            && (merged.Stored? ==> merged.message.version == if m.Some? then m.value.version + 1 else 1)
            && (merged.ChannelNoted? ==> m.Some? && merged.message.version == m.value.version)
            && (merged.Ignored? || (Distinct(merged.message.channels) && merged.message.channel in merged.message.channels))
  {
  }

  /** The one message an event is about. */
  lemma StepConsistent(db: Db, c: Command)
    requires Inv(db) && c.event !in db.events && HasId(c)
    ensures var key, after := MessageKey(c), IngestTx(db, c).0; key in after.messages ==> MessageConsistent(after, key)
  {
    var key := MessageKey(c);
    NumberedMax(VersionsOf(db, key));
    if key in db.messages { assert MessageConsistent(db, key); }
    MergeConsistent(Find(db.messages, key), c);
  }

  lemma StepKeepsOthers(db: Db, c: Command, key: Key)
    requires Inv(db) && key in IngestTx(db, c).0.messages && !(c.event !in db.events && HasId(c) && key == MessageKey(c))
    ensures MessageConsistent(IngestTx(db, c).0, key)
  {
    assert MessageConsistent(db, key);
  }

  lemma StepKeeps(db: Db, c: Command)
    requires Inv(db)
    ensures Inv(IngestTx(db, c).0)
  {
    var after := IngestTx(db, c).0;
    forall key | key in after.messages ensures key in after.versions && MessageConsistent(after, key) {
      if c.event !in db.events && HasId(c) && key == MessageKey(c) {
        StepConsistent(db, c);
      } else {
        StepKeepsOthers(db, c, key);
      }
    }
  }

  /** With ingestion as the only writer, a message's version equals the number of its stored revisions in every run. */
  lemma {:induction false} VersionCountsRevisions(cs: seq<Command>)
    ensures Inv(Run(Db(map[], map[], map[], [], [], []), cs))
  {
    if cs != [] {
      VersionCountsRevisions(cs[..|cs| - 1]);
      StepKeeps(Run(Db(map[], map[], map[], [], [], []), cs[..|cs| - 1]), cs[|cs| - 1]);
    }
  }

  /** The audit event of a processed event points at the revision that stores what the event brought. */
  ghost predicate AuditTrue(db: Db, audit: Audit) {
    && audit.event in db.events
    && (audit.duplicate <==> db.events[audit.event].status == Duplicate)
    && (audit.revision.Some? <==> db.events[audit.event].status == Processed)
    && (audit.revision.Some? ==>
          && audit.message.Some? && audit.message.value in db.versions
          && var versions := db.versions[audit.message.value];
          && 1 <= audit.revision.value <= |versions|
          && versions[audit.revision.value - 1].event == audit.event
          && versions[audit.revision.value - 1].revision == audit.revision.value)
  }

  ghost predicate Audited(db: Db) {
    && |db.audits| == |db.events.Keys|
    && (forall i, j :: 0 <= i < j < |db.audits| ==> db.audits[i].event != db.audits[j].event)
    && forall audit :: audit in db.audits ==> AuditTrue(db, audit)
  }

  lemma OlderAuditsStay(db: Db, c: Command, t: Db, audit: Audit)
    requires Inv(db) && c.event !in db.events && AuditTrue(db, audit) && t == NewEventTx(db, c).0
    ensures AuditTrue(t, audit)
  {
  }

  /** One new event with one new, true audit event. */
  ghost predicate AuditAppended(db: Db, t: Db, event: Key) {
    && event !in db.events && t.events.Keys == db.events.Keys + {event}
    && |t.audits| == |db.audits| + 1 && t.audits == db.audits + [t.audits[|db.audits|]]
    && t.audits[|db.audits|].event == event && AuditTrue(t, t.audits[|db.audits|])
  }

  lemma NewAuditTrue(db: Db, c: Command, t: Db)
    requires Inv(db) && c.event !in db.events && t == NewEventTx(db, c).0
    ensures AuditAppended(db, t, c.event)
  {
    if HasId(c) {
      NumberedMax(VersionsOf(db, MessageKey(c)));
      if MessageKey(c) in db.messages { assert MessageConsistent(db, MessageKey(c)); }
    }
    assert t.events == db.events[c.event := t.events[c.event]];
  }

  lemma AuditedEventsKnown(db: Db)
    requires forall audit :: audit in db.audits ==> AuditTrue(db, audit)
    ensures forall i :: 0 <= i < |db.audits| ==> db.audits[i].event in db.events
  {
    forall i | 0 <= i < |db.audits| ensures db.audits[i].event in db.events {
      assert db.audits[i] in db.audits;
    }
  }

  lemma OneMoreAudit(db: Db, t: Db, event: Key)
    requires Audited(db) && AuditAppended(db, t, event)
    requires forall audit :: audit in db.audits ==> AuditTrue(t, audit)
    ensures Audited(t)
  {
    AuditedEventsKnown(db);
    assert |db.events.Keys + {event}| == |db.events.Keys| + 1;
    assert forall audit :: audit in t.audits ==> audit in db.audits || audit == t.audits[|db.audits|];
  }

  lemma StepAudited(db: Db, c: Command, t: Db)
    requires Inv(db) && Audited(db) && t == IngestTx(db, c).0
    ensures Audited(t)
  {
    if c.event !in db.events {
      NewAuditTrue(db, c, t);
      forall audit | audit in db.audits ensures AuditTrue(t, audit) {
        OlderAuditsStay(db, c, t, audit);
      }
      OneMoreAudit(db, t, c.event);
    }
  }

  /** Over every run each accepted event is recorded and audited once, and each processed one has its revision. */
  lemma {:induction false} EveryEventIsAccountedFor(cs: seq<Command>)
    ensures Audited(Run(Db(map[], map[], map[], [], [], []), cs))
  {
    if cs != [] {
      VersionCountsRevisions(cs[..|cs| - 1]);
      EveryEventIsAccountedFor(cs[..|cs| - 1]);
      StepAudited(Run(Db(map[], map[], map[], [], [], []), cs[..|cs| - 1]), cs[|cs| - 1], Run(Db(map[], map[], map[], [], [], []), cs));
    }
  }

  /** No event takes back a recall. */
  lemma {:induction false} RecallIsForever(db: Db, cs: seq<Command>, key: Key)
    requires key in db.messages && db.messages[key].recalledAt.Some?
    ensures key in Run(db, cs).messages && Run(db, cs).messages[key].recalledAt.Some?
  {
    if cs != [] {
      RecallIsForever(db, cs[..|cs| - 1], key);
    }
  }

  function AnalysisRequests(requests: seq<Request>, key: Key): nat {
    if requests == [] then 0
    else AnalysisRequests(requests[..|requests| - 1], key)
         + (if requests[|requests| - 1].AnalysisRequested? && requests[|requests| - 1].message == key then 1 else 0)
  }

  lemma {:induction false} RequestsAppend(first: seq<Request>, second: seq<Request>, key: Key)
    ensures AnalysisRequests(first + second, key) == AnalysisRequests(first, key) + AnalysisRequests(second, key)
  {
    if second == [] {
      assert first + second == first;
    } else {
      assert (first + second)[..|first + second| - 1] == first + second[..|second| - 1];
      RequestsAppend(first, second[..|second| - 1], key);
    }
  }

  /** One event adds what its message wants, if it stores one. */
  lemma RequestsOf(db: Db, c: Command)
    ensures var stored := c.event !in db.events && HasId(c) && Merge(Find(db.messages, MessageKey(c)), c).Stored?;
            IngestTx(db, c).0.requests ==
            db.requests + if stored then Wanted(MessageKey(c), c, Merge(Find(db.messages, MessageKey(c)), c).message) else []
  {
  }

  lemma RecalledWantsNothing(db: Db, c: Command, key: Key)
    requires key in db.messages && db.messages[key].recalledAt.Some?
    ensures AnalysisRequests(IngestTx(db, c).0.requests, key) == AnalysisRequests(db.requests, key)
  {
    RequestsOf(db, c);
    if c.event !in db.events && HasId(c) && Merge(Find(db.messages, MessageKey(c)), c).Stored? {
      var message := Merge(Find(db.messages, MessageKey(c)), c).message;
      var wanted := Wanted(MessageKey(c), c, message);
      RequestsAppend(db.requests, wanted, key);
      assert MessageKey(c) == key ==> message.recalledAt.Some?;
      assert |wanted| <= 1;
    }
  }

  /** Once a message is recalled no event makes ingestion ask for its analysis again. */
  lemma {:induction false} RecalledNeverAsks(db: Db, cs: seq<Command>, key: Key)
    requires key in db.messages && db.messages[key].recalledAt.Some?
    ensures AnalysisRequests(Run(db, cs).requests, key) == AnalysisRequests(db.requests, key)
  {
    if cs != [] {
      var front := cs[..|cs| - 1];
      RecalledNeverAsks(db, front, key);
      RecallIsForever(db, front, key);
      RecalledWantsNothing(Run(db, front), cs[|cs| - 1], key);
    }
  }

  lemma {:induction false} EventsStay(db: Db, cs: seq<Command>, event: Key)
    requires event in db.events
    ensures event in Run(db, cs).events && Run(db, cs).events[event].payload == db.events[event].payload
  {
    if cs != [] {
      EventsStay(db, cs[..|cs| - 1], event);
    }
  }

  /** An event that was accepted once changes nothing when it is delivered again, whatever happened in between. */
  lemma RedeliveryChangesNothing(db: Db, c: Command, between: seq<Command>, again: Command)
    requires IngestTx(db, c).1.Ok? && again.event == c.event && again.payload == c.payload
    ensures var later := Run(IngestTx(db, c).0, between);
            IngestTx(later, again).0 == later && IngestTx(later, again).1.Ok? && IngestTx(later, again).1.value.duplicate
  {
    EventsStay(IngestTx(db, c).0, between, c.event);
  }

  /** Exactly the events that lower a message's source: a first delivery that is not a create, carries content and
      comes over a channel of lower priority. */
  lemma LowersExactly(db: Db, c: Command, key: Key)
    requires key in db.messages
    ensures key in IngestTx(db, c).0.messages
    ensures Priority(IngestTx(db, c).0.messages[key].channel) < Priority(db.messages[key].channel) <==>
            && c.event !in db.events && HasId(c) && MessageKey(c) == key && c.message.Some? && c.operation != Create
            && Priority(c.channel) < Priority(db.messages[key].channel)
  {
  }

  /** An edit that reaches the service over the local client replaces the application event as the source. */
  lemma EditLowersExample()
    ensures var body := Body("", [], None, None, "analyze", "");
            var create := Command(Key("t", "e1"), "p1", Create, Some("m"), Some(Incoming(body, None)), "app_event",
                                  false, None, 0, false);
            var edit := Command(Key("t", "e2"), "p2", Edit, Some("m"), Some(Incoming(body, None)), "local_client",
                                false, None, 0, false);
            var db := Run(Db(map[], map[], map[], [], [], []), [create, edit]);
            Key("t", "m") in db.messages && db.messages[Key("t", "m")].channel == "local_client"
            && db.messages[Key("t", "m")].channels == ["app_event", "local_client"]
  {
    var body := Body("", [], None, None, "analyze", "");
    var create := Command(Key("t", "e1"), "p1", Create, Some("m"), Some(Incoming(body, None)), "app_event", false,
                          None, 0, false);
    var edit := Command(Key("t", "e2"), "p2", Edit, Some("m"), Some(Incoming(body, None)), "local_client", false,
                        None, 0, false);
    var empty := Db(map[], map[], map[], [], [], []);
    assert [create, edit][..1] == [create] && [create][..0] == [];
    assert Run(empty, []) == empty && Run(empty, [create]) == IngestTx(empty, create).0;
  }

  // ---------------------------------------------------------------- creates over several channels

  /** The same event, whenever it arrives. */
  predicate SameDelivery(a: Command, b: Command) {
    a.(now := b.now, waiting := b.waiting) == b
  }

  /** First deliveries and redeliveries of creates of one message that is not stored yet. */
  ghost predicate CreatesOf(db: Db, key: Key, cs: seq<Command>) {
    && key !in db.messages
    && (forall i :: 0 <= i < |cs| ==> cs[i].event !in db.events)
    && (forall i, j :: 0 <= i < |cs| && 0 <= j < |cs| && cs[i].event == cs[j].event ==> SameDelivery(cs[i], cs[j]))
    && (forall i :: 0 <= i < |cs| ==> CreateOf(cs[i], key))
  }

  predicate CreateOf(c: Command, key: Key) {
    c.operation == Create && HasId(c) && MessageKey(c) == key && c.message.Some?
  }

  function Channels(cs: seq<Command>): seq<string> {
    seq(|cs|, i requires 0 <= i < |cs| => cs[i].channel)
  }

  /** The first channel of the highest priority. */
  function Winner(channels: seq<string>): string
    requires channels != []
  {
    if |channels| == 1 then channels[0]
    else
      var best := Winner(channels[..|channels| - 1]);
      if Priority(channels[|channels| - 1]) > Priority(best) then channels[|channels| - 1] else best
  }

  lemma {:induction false} WinnerIsBest(channels: seq<string>)
    requires channels != []
    ensures Winner(channels) in channels
    ensures forall ch :: ch in channels ==> Priority(ch) <= Priority(Winner(channels))
    ensures Priority(Winner(channels)) == Priority(channels[0]) ==> Winner(channels) == channels[0]
  {
    if |channels| > 1 {
      var front := channels[..|channels| - 1];
      WinnerIsBest(front);
      assert channels == front + [channels[|channels| - 1]];
    }
  }

  ghost predicate Merged(m: Message, channels: seq<string>)
    requires channels != []
  {
    m.channel == Winner(channels) && Distinct(m.channels) && Elements(m.channels) == Elements(channels)
  }

  ghost predicate Recorded(db: Db, start: Db, cs: seq<Command>) {
    && (forall i :: 0 <= i < |cs| ==> cs[i].event in db.events && db.events[cs[i].event].payload == cs[i].payload)
    && forall event :: event in db.events ==> event in start.events || exists i :: 0 <= i < |cs| && cs[i].event == event
  }

  ghost predicate Created(db: Db, start: Db, key: Key, cs: seq<Command>)
    requires cs != []
  {
    key in db.messages && Merged(db.messages[key], Channels(cs)) && Recorded(db, start, cs)
  }

  lemma WinnerStep(channels: seq<string>, channel: string)
    requires channels != []
    ensures Winner(channels + [channel]) == if Priority(channel) > Priority(Winner(channels)) then channel else Winner(channels)
    ensures Elements(channels + [channel]) == Elements(channels) + {channel}
  {
    assert (channels + [channel])[..|channels|] == channels;
  }

  lemma WithChannelAdds(channels: seq<string>, channel: string)
    requires Distinct(channels)
    ensures Distinct(WithChannel(channels, channel)) && Elements(WithChannel(channels, channel)) == Elements(channels) + {channel}
  {
  }

  /** A further create keeps the merge, whether it upgrades the source or only notes its channel. */
  lemma MergeStep(m: Message, channels: seq<string>, c: Command)
    requires channels != [] && Merged(m, channels) && c.operation == Create && c.message.Some?
    ensures !Merge(Some(m), c).Ignored? && Merged(Merge(Some(m), c).message, channels + [c.channel])
  {
    WinnerStep(channels, c.channel);
    WithChannelAdds(m.channels, c.channel);
  }

  /** A redelivered create finds its channel merged. */
  lemma RedeliveryStep(m: Message, channels: seq<string>, channel: string)
    requires channels != [] && Merged(m, channels) && channel in channels
    ensures Merged(m, channels + [channel])
  {
    WinnerStep(channels, channel);
    WinnerIsBest(channels);
    assert channel in Elements(channels);
  }

  lemma RecordedStep(db: Db, after: Db, start: Db, front: seq<Command>, c: Command)
    requires Recorded(db, start, front)
    requires forall event :: event in after.events <==> event in db.events || event == c.event
    requires forall event :: event in db.events ==> after.events[event].payload == db.events[event].payload
    requires after.events[c.event].payload == c.payload
    ensures Recorded(after, start, front + [c])
  {
    var all := front + [c];
    assert all[|front|] == c;
    forall event | event in after.events ensures event in start.events || exists i :: 0 <= i < |all| && all[i].event == event {
      if event in db.events && event !in start.events {
        var i :| 0 <= i < |front| && front[i].event == event;
        assert all[i].event == event;
      }
    }
  }

  lemma CreateMerges(db: Db, start: Db, key: Key, front: seq<Command>, c: Command)
    requires front != [] && CreatesOf(start, key, front + [c]) && Created(db, start, key, front)
    ensures key in IngestTx(db, c).0.messages && Merged(IngestTx(db, c).0.messages[key], Channels(front + [c]))
  {
    var all := front + [c];
    assert all[|front|] == c && CreateOf(c, key) && c.event !in start.events;
    assert Channels(all) == Channels(front) + [c.channel];
    if c.event in db.events {
      var i :| 0 <= i < |front| && front[i].event == c.event;
      assert all[i] == front[i] && SameDelivery(all[i], all[|front|]);
      assert Channels(front)[i] == c.channel;
      RedeliveryStep(db.messages[key], Channels(front), c.channel);
    } else {
      MergeStep(db.messages[key], Channels(front), c);
    }
  }

  lemma CreateIsRecorded(db: Db, start: Db, key: Key, front: seq<Command>, c: Command)
    requires front != [] && CreatesOf(start, key, front + [c]) && Created(db, start, key, front)
    ensures Recorded(IngestTx(db, c).0, start, front + [c])
  {
    var all := front + [c];
    assert all[|front|] == c && CreateOf(c, key) && c.event !in start.events;
    if c.event in db.events {
      var i :| 0 <= i < |front| && front[i].event == c.event;
      assert all[i] == front[i] && SameDelivery(all[i], all[|front|]);
    }
    RecordedStep(db, IngestTx(db, c).0, start, front, c);
  }

  lemma CreateStep(db: Db, start: Db, key: Key, front: seq<Command>, c: Command)
    requires front != [] && CreatesOf(start, key, front + [c]) && Created(db, start, key, front)
    ensures Created(IngestTx(db, c).0, start, key, front + [c])
  {
    CreateMerges(db, start, key, front, c);
    CreateIsRecorded(db, start, key, front, c);
  }

  /** After any creates of one message, its channels are those of the creates, each once, and its source is the
      first of the highest priority. */
  lemma {:induction false} CreatesMerge(db: Db, key: Key, cs: seq<Command>)
    requires cs != [] && CreatesOf(db, key, cs)
    ensures Created(Run(db, cs), db, key, cs)
  {
    var front, last := cs[..|cs| - 1], cs[|cs| - 1];
    assert cs == front + [last];
    assert Run(db, cs) == IngestTx(Run(db, front), last).0;
    if |cs| == 1 {
      assert front == [] && Run(db, front) == db && cs == [last];
      FirstCreate(db, key, last);
    } else {
      CreatesMerge(db, key, front);
      CreateStep(Run(db, front), db, key, front, last);
    }
  }

  lemma FirstCreate(db: Db, key: Key, c: Command)
    requires CreatesOf(db, key, [c])
    ensures Created(IngestTx(db, c).0, db, key, [c])
  {
    assert CreateOf([c][0], key) && Channels([c]) == [c.channel];
    FirstMessage(db, key, c);
    assert Recorded(db, db, []);
    RecordedStep(db, IngestTx(db, c).0, db, [], c);
    assert [] + [c] == [c];
  }

  lemma FirstMessage(db: Db, key: Key, c: Command)
    requires key !in db.messages && c.event !in db.events && CreateOf(c, key)
    ensures key in IngestTx(db, c).0.messages && Merged(IngestTx(db, c).0.messages[key], [c.channel])
  {
  }

  /** The order cannot matter: some channel has a priority of its own, or there is only one channel. */
  ghost predicate Decided(channels: set<string>) {
    (exists ch :: ch in channels && Priority(ch) >= 0) || forall a, b :: a in channels && b in channels ==> a == b
  }

  lemma WinnerDecided(a: seq<string>, b: seq<string>)
    requires a != [] && b != [] && Elements(a) == Elements(b) && Decided(Elements(a))
    ensures Winner(a) == Winner(b)
  {
    WinnerIsBest(a);
    WinnerIsBest(b);
    assert Winner(a) in Elements(a) && Winner(b) in Elements(b);
    assert Winner(a) in b && Winner(b) in a;
  }

  /** Two orders, with any redeliveries, of creates over the same channels end with the same source and channels. */
  lemma CreatesAreConfluent(db: Db, key: Key, a: seq<Command>, b: seq<Command>)
    requires a != [] && b != [] && CreatesOf(db, key, a) && CreatesOf(db, key, b)
    requires Elements(Channels(a)) == Elements(Channels(b)) && Decided(Elements(Channels(a)))
    ensures key in Run(db, a).messages && key in Run(db, b).messages
    ensures var x, y := Run(db, a).messages[key], Run(db, b).messages[key];
            && x.channel == y.channel && Elements(x.channels) == Elements(y.channels)
            && Distinct(x.channels) && Distinct(y.channels)
            && forall ch :: ch in Elements(Channels(a)) ==> Priority(ch) <= Priority(x.channel)
  {
    CreatesMerge(db, key, a);
    CreatesMerge(db, key, b);
    WinnerDecided(Channels(a), Channels(b));
    WinnerIsBest(Channels(a));
  }

  /** The channels the normaliser lets through always decide. */
  lemma KnownChannelsDecide(channels: set<string>)
    requires channels <= {"app_event", "user_api", "local_client"}
    ensures Decided(channels)
  {
    if ch :| ch in channels { assert Priority(ch) >= 0; }
  }

  /** For two unknown channels the first create wins, so some other order of the same creates ends differently. */
  lemma UndecidedOrderMatters(db: Db, key: Key, a: seq<Command>) returns (b: seq<Command>)
    requires a != [] && CreatesOf(db, key, a) && !Decided(Elements(Channels(a)))
    ensures multiset(a) == multiset(b) && CreatesOf(db, key, b)
    ensures key in Run(db, a).messages && key in Run(db, b).messages
    ensures Run(db, a).messages[key].channel != Run(db, b).messages[key].channel
  {
    var channels := Channels(a);
    assert forall ch :: ch in channels ==> ch in Elements(channels);
    var k := OtherChannel(channels);
    b := [a[k]] + a[..k] + a[k + 1..];
    Reordered(db, key, a, b, k);
    assert b[0] == a[k] && Channels(b)[0] == channels[k];
    forall ch | ch in Channels(b) ensures Priority(ch) == -1 {
      assert ch in Elements(Channels(b));
    }
    CreatesMerge(db, key, a);
    CreatesMerge(db, key, b);
    WinnerIsBest(channels);
    WinnerIsBest(Channels(b));
  }

  lemma Reordered(db: Db, key: Key, a: seq<Command>, b: seq<Command>, k: nat)
    requires k < |a| && CreatesOf(db, key, a) && b == [a[k]] + a[..k] + a[k + 1..]
    ensures multiset(a) == multiset(b) && CreatesOf(db, key, b) && Elements(Channels(b)) <= Elements(Channels(a))
  {
    assert a == a[..k] + [a[k]] + a[k + 1..];
    forall i | 0 <= i < |b| ensures b[i] in a {
      assert b[i] in multiset(b);
      assert b[i] in multiset(a);
    }
    forall i | 0 <= i < |b| ensures exists j :: 0 <= j < |a| && a[j] == b[i] {
    }
    forall ch | ch in Elements(Channels(b)) ensures ch in Elements(Channels(a)) {
      var i :| 0 <= i < |b| && Channels(b)[i] == ch;
      var j :| 0 <= j < |a| && a[j] == b[i];
      assert Channels(a)[j] == ch;
    }
  }

  lemma OtherChannel(channels: seq<string>) returns (k: nat)
    requires channels != [] && !Decided(Elements(channels))
    ensures k < |channels| && channels[k] != channels[0]
    ensures forall ch :: ch in channels ==> Priority(ch) == -1
  {
    var a, b :| a in Elements(channels) && b in Elements(channels) && a != b;
    var other := if a == channels[0] then b else a;
    k :| 0 <= k < |channels| && channels[k] == other;
    forall ch | ch in channels ensures Priority(ch) == -1 {
      assert ch in Elements(channels);
    }
  }
}
