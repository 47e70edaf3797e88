/** An operator cancels a run; the idempotency key makes the command safe to repeat. */
module AgentOperations {
  import opened Prelude
  import opened AgentRuns
  import opened AgentLeases

  datatype Cancellation = Cancellation(db: Db, reply: Replay, replayed: bool)

  function CancelledRun(run: Run, at: Instant): Run {
    TransitionTo(run.(failure := Some(RUN_CANCELLED), leaseExpiresAt := None), Cancelled, at)
  }

  function CancelledMessages(messages: map<MessageId, Message>, owner: Owner): map<MessageId, Message> {
    if owner.ForMessage? && owner.message in messages && AwaitsAnalysis(messages[owner.message].status)
    then messages[owner.message := FailMessage(messages[owner.message], AnalysisFailed, RUN_CANCELLED)]
    else messages
  }

  function CancelTx(db: Db, key: string, id: RunId, at: Instant): Result<Cancellation, Error> {
    if key in db.replays then
      if db.replays[key].run != id then Err(Conflict) else Ok(Cancellation(db, db.replays[key], true))
    else if id !in db.runs then Err(NotFound)
    else if !ActiveRun(db.runs[id].status) then Err(InvalidTransition)
    else
      var reply := Replay(id, Cancelled);
      Ok(Cancellation(db.(runs := db.runs[id := CancelledRun(db.runs[id], at)],
                          messages := CancelledMessages(db.messages, db.runs[id].owner),
                          audit := db.audit + [RunCancelled(id)],
                          replays := db.replays[key := reply]),
                      reply, false))
  }

  method CancelRun(uow: Store, key: string, id: RunId, at: Instant) returns (r: Result<Cancellation, Error>)
    modifies uow
    ensures r == CancelTx(old(uow.State()), key, id, at)
    ensures uow.State() == if r.Ok? then r.value.db else old(uow.State())
  {
    ghost var before := uow.State();
    if key in uow.replays {
      var replay := uow.replays[key];
      if replay.run != id { return Err(Conflict); }
      return Ok(Cancellation(Current(uow), replay, true));
    }
    if id !in uow.runs { return Err(NotFound); }
    var run := uow.runs[id];
    if run.status !in {Queued, Preparing, Running, Validating} { return Err(InvalidTransition); }
    run := run.(failure := Some(RUN_CANCELLED), leaseExpiresAt := None);
    assert Cancelled in Successors(run.status);
    run := TransitionTo(run, Cancelled, at);
    if run.owner.ForMessage? && run.owner.message in uow.messages {
      var message := uow.messages[run.owner.message];
      if AwaitsAnalysis(message.status) {
        assert AnalysisFailed in MessageSuccessors(message.status);
        uow.messages := uow.messages[run.owner.message := FailMessage(message, AnalysisFailed, RUN_CANCELLED)];
      }
    }
    uow.runs := uow.runs[id := run];
    uow.audit := uow.audit + [RunCancelled(id)];
    var reply := Replay(id, run.status);
    uow.replays := uow.replays[key := reply];
    return Ok(Cancellation(Current(uow), reply, false));
  }

  function Current(uow: Store): (db: Db)
    reads uow
    ensures db == uow.State()
  {
    Db(uow.runs, uow.attempts, uow.messages, uow.plans, uow.steps, uow.outbox, uow.audit, uow.replays)
  }

  /** Repeating a command answers as the first time and changes nothing; the same key for another
      run is refused. */
  lemma CancelReplays(db: Db, key: string, id: RunId, at: Instant, other: RunId, later: Instant)
    requires CancelTx(db, key, id, at).Ok?
    ensures var first := CancelTx(db, key, id, at).value;
            CancelTx(first.db, key, other, later)
            == if other == id then Ok(Cancellation(first.db, first.reply, true)) else Err(Conflict)
  {
    if key in db.replays {
      assert db.replays[key].run == id;
    }
  }
}
