/** What a message holds after any run of events: the content, the source and the revisions that its events brought. */
module FeishuHistory {
  import opened Prelude
  import opened FeishuIngest

  const EMPTY := Db(map[], map[], map[], [], [], [])

  /** The first delivery of an event about the message. */
  predicate FirstOf(db: Db, c: Command, key: Key) {
    c.event !in db.events && c.externalId == Some(key.id) && key.id != "" && c.event.tenant == key.tenant
  }

  /** A create of a stored message that is worth no more than the stored source: only its channel is noted. */
  predicate Notes(db: Db, c: Command, key: Key) {
    FirstOf(db, c, key) && c.operation == Create && key in db.messages && Priority(c.channel) <= Priority(db.messages[key].channel)
  }

  /** The event brings content that is kept. */
  predicate Brings(db: Db, c: Command, key: Key) {
    FirstOf(db, c, key) && c.message.Some? && !Notes(db, c, key)
  }

  /** A recall without content. */
  predicate Withdraws(db: Db, c: Command, key: Key) {
    FirstOf(db, c, key) && c.message.None? && c.operation == Recall && key in db.messages
  }

  /** The three known channels count in this order, and more than any other. */
  lemma ChannelRanks(other: string)
    requires other !in {"app_event", "user_api", "local_client"}
    ensures Priority("app_event") > Priority("user_api") > Priority("local_client") > Priority(other)
  {
  }

  // ---------------------------------------------------------------- one event

  /** The row after an event that brings content: all of the content is the new one's. */
  ghost predicate RowBrought(db: Db, c: Command, key: Key, m: Message)
    requires c.message.Some?
  {
    && m.event == c.event && m.body == c.message.value.body && m.channel == c.channel
    && if key in db.messages then
         var earlier := db.messages[key];
         && m.version == earlier.version + 1 && m.recalledAt == earlier.recalledAt
         && m.channels == if c.channel in earlier.channels then earlier.channels else earlier.channels + [c.channel]
       else m.version == 1 && m.recalledAt == c.message.value.recalledAt && m.channels == [c.channel]
  }

  lemma BringsLeaves(db: Db, c: Command, key: Key)
    requires Inv(db) && Brings(db, c, key)
    ensures var t, files := IngestTx(db, c).0, c.message.value.body.fileKeys;
            && t.events == db.events[c.event := RawEvent(c.payload, Processed, c.channel)]
            && key in t.messages && RowBrought(db, c, key, t.messages[key]) && t.messages == db.messages[key := t.messages[key]]
            && t.versions == db.versions[key := VersionsOf(db, key) + [Version(c.event, |VersionsOf(db, key)| + 1, c.message.value.body,
                                                                               t.messages[key].recalledAt, c.operation == Recall)]]
            && |t.attachments| == |db.attachments| + |files| && db.attachments <= t.attachments
            && (forall i :: 0 <= i < |files| ==> t.attachments[|db.attachments| + i] == AttachmentRow(key, |VersionsOf(db, key)| + 1, files[i]))
  {
    NumberedMax(VersionsOf(db, key));
    if key in db.messages { assert MessageConsistent(db, key); }
    assert key == MessageKey(c);
  }

  /** Whom the event asks: for its files if it has any, else, unless the gate is shut, for the analysis. */
  lemma BringsAsks(db: Db, c: Command, key: Key)
    requires Brings(db, c, key)
    ensures var t, content := IngestTx(db, c).0, c.message.value;
            && key in t.messages
            && t.requests == db.requests +
               if !c.trigger then []
               else if content.body.fileKeys != [] then [AttachmentsPending(key)]
               else if t.messages[key].recalledAt.None? && content.body.disposition == "analyze" && !c.waiting
               then [AnalysisRequested(key, c.operation == Edit || t.messages[key].version > 1)]
               else []
  {
    assert key == MessageKey(c);
  }

  lemma WithdrawsLeaves(db: Db, c: Command, key: Key)
    requires Inv(db) && Withdraws(db, c, key)
    ensures var t, m, time := IngestTx(db, c).0, db.messages[key], Some(if c.recallTime.Some? then c.recallTime.value else c.now);
            && t == db.(events := db.events[c.event := RawEvent(c.payload, Processed, c.channel)], messages := t.messages,
                        versions := t.versions, audits := t.audits)
            && t.messages == db.messages[key := m.(event := c.event, recalledAt := time, version := m.version + 1)]
            && t.versions == db.versions[key := VersionsOf(db, key) + [Version(c.event, |VersionsOf(db, key)| + 1, m.body, time, true)]]
  {
    NumberedMax(VersionsOf(db, key));
    assert MessageConsistent(db, key);
    assert key == MessageKey(c);
  }

  lemma NotesLeaves(db: Db, c: Command, key: Key)
    requires Notes(db, c, key)
    ensures var t, m := IngestTx(db, c).0, db.messages[key];
            && t == db.(events := db.events[c.event := RawEvent(c.payload, Duplicate, c.channel)], messages := t.messages, audits := t.audits)
            && t.messages == db.messages[key := m.(channels := if c.channel in m.channels then m.channels else m.channels + [c.channel])]
  {
    assert key == MessageKey(c);
  }

  /** No other event touches the message, its revisions, its files or its requests. */
  lemma OthersLeave(db: Db, c: Command, key: Key)
    requires !Brings(db, c, key) && !Withdraws(db, c, key) && !Notes(db, c, key)
    ensures var t := IngestTx(db, c).0;
            && Find(t.messages, key) == Find(db.messages, key) && VersionsOf(t, key) == VersionsOf(db, key)
            && (FirstOf(db, c, key) ==> t.attachments == db.attachments && t.requests == db.requests)
  {
  }

  /** The answer: a conflict exactly for a known event with another payload, a duplicate exactly for a known event or one
      whose channel is merely noted, and the message exactly if it is stored then. */
  lemma AnswersTell(db: Db, c: Command, key: Key)
    requires c.externalId == Some(key.id) && key.id != "" && c.event.tenant == key.tenant
    ensures var (t, r) := IngestTx(db, c);
            && (r.Err? <==> c.event in db.events && db.events[c.event].payload != c.payload)
            && (c.event in db.events ==> t == db)
            && (r.Ok? ==>
                  && (r.value.duplicate <==> c.event in db.events || Notes(db, c, key))
                  && r.value.message == if key in t.messages then Some(key) else None)
  {
    assert key == MessageKey(c);
  }

  // ---------------------------------------------------------------- over whole runs

  /** The last event of the run that brought content which was kept. */
  function LastContent(cs: seq<Command>, key: Key): (c: Option<Command>)
    ensures c.Some? ==> c.value.message.Some?
  {
    if cs == [] then None
    else
      var front, last := cs[..|cs| - 1], cs[|cs| - 1];
      if Brings(Run(EMPTY, front), last, key) then Some(last) else LastContent(front, key)
  }

  /** The revisions as the events tell them: each holds what its event brought, a recall the content before it. */
  function Revisions(cs: seq<Command>, key: Key): seq<Version> {
    if cs == [] then []
    else
      var front, last := cs[..|cs| - 1], cs[|cs| - 1];
      var db, told := Run(EMPTY, front), Revisions(front, key);
      var n := |told|;
      if Brings(db, last, key) then
        var recalled := if n > 0 then told[n - 1].recalledAt else last.message.value.recalledAt;
        told + [Version(last.event, n + 1, last.message.value.body, recalled, last.operation == Recall)]
      else if Withdraws(db, last, key) && n > 0 then
        var time := if last.recallTime.Some? then last.recallTime.value else last.now;
        told + [Version(last.event, n + 1, told[n - 1].body, Some(time), true)]
      else told
  }

  /** The message row and its revisions as the run tells them. */
  ghost predicate AsTold(db: Db, content: Option<Command>, told: seq<Version>, key: Key)
    requires content.Some? ==> content.value.message.Some?
  {
    && VersionsOf(db, key) == told
    && (key in db.messages <==> content.Some?) && (content.Some? <==> told != [])
    && (content.Some? ==>
          var m, now := db.messages[key], told[|told| - 1];
          && m.body == content.value.message.value.body && m.channel == content.value.channel
          && m.body == now.body && m.event == now.event && m.recalledAt == now.recalledAt && m.version == |told|)
  }

  /** Over any run: a message holds the content and the channel of the last event that brought content and was not merely
      noted as a channel, its event and recall are those of its last revision, and each revision holds what its event
      brought or, for a recall, the content before it. */
  lemma {:induction false} StoredAsTold(cs: seq<Command>, key: Key)
    ensures AsTold(Run(EMPTY, cs), LastContent(cs, key), Revisions(cs, key), key)
  {
    if cs != [] {
      var front, last := cs[..|cs| - 1], cs[|cs| - 1];
      var db := Run(EMPTY, front);
      StoredAsTold(front, key);
      VersionCountsRevisions(front);
      if Brings(db, last, key) {
        BringsLeaves(db, last, key);
      } else if Withdraws(db, last, key) {
        WithdrawsLeaves(db, last, key);
      } else if Notes(db, last, key) {
        NotesLeaves(db, last, key);
      } else {
        OthersLeave(db, last, key);
      }
    }
  }
}
