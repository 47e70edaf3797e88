/** Preparing the run of a message, and giving it up when the message was recalled. A delivery that recovers
    an interrupted run does not wait for the run's lease to end. */
module MessagePreparation {
  import opened Prelude
  import opened AgentRuns
  import opened AgentLeases

  /** One delivery of an analysis: the message, its newest run, what the command asks for, and the clock.
      `candidate` is the run behind the message's active candidate, `newRun` the id of a new run. */
  datatype Preparation = Preparation(
    message: MessageId, latest: Option<RunId>, recover: bool, force: bool, suppressed: bool,
    candidate: Option<RunId>, newRun: RunId, maxAttempts: nat, worker: Option<string>, expireAt: Instant, at: Instant)

  datatype PreparationOutcome =
    | Suppressed | Answered(run: RunId) | Reused(run: RunId) | GaveUp(run: RunId) | Requeued(run: RunId) | Created(run: RunId)

  datatype Prepared = Prepared(db: Db, outcome: PreparationOutcome)

  /** The newest run is one of the message's runs. */
  predicate Listed(db: Db, x: Preparation) {
    x.latest.Some? ==> x.latest.value in db.runs && db.runs[x.latest.value].owner == ForMessage(x.message)
  }

  function SuppressedMessages(messages: map<MessageId, Message>, m: MessageId): map<MessageId, Message> {
    if m in messages && AwaitsAnalysis(messages[m].status)
    then messages[m := FailMessage(messages[m], AnalysisFailed, MESSAGE_RECALLED)] else messages
  }

  predicate Retryable(run: Run) {
    run.status in {Failed, TimedOut} && run.attempt < run.maxAttempts
  }

  /** The next attempt of a failed run; its worker and its old lease column stay. */
  function RetriedRun(run: Run, at: Instant): Run {
    TransitionTo(run.(attempt := run.attempt + 1), Queued, at).(finishedAt := None, failure := None)
  }

  /** Queued, with its context prepared, and handed to the agent. */
  function HandedOver(m: Message): Message {
    MoveMessage(MoveMessage(MoveMessage(m, QueuedForAnalysis), ContextPrepared), AgentQueued)
  }

  function RetryTx(db: Db, x: Preparation, id: RunId): Result<Prepared, Error>
    requires id in db.runs && x.message in db.messages
  {
    if QueuedForAnalysis !in MessageSuccessors(db.messages[x.message].status) then Err(InvalidTransition)
    else
      var run := RetriedRun(db.runs[id], x.at);
      Ok(Prepared(db.(runs := db.runs[id := run],
                      messages := db.messages[x.message := HandedOver(db.messages[x.message])],
                      audit := db.audit + [RunRequeued(id, run.attempt, x.recover)]),
                  Requeued(id)))
  }

  /** The interrupted run fails and its attempt expires if its lease is over; if it is not, the attempt goes on. */
  function Interrupted(db: Db, x: Preparation, id: RunId): Db
    requires id in db.runs && x.message in db.messages
  {
    var run, key := db.runs[id], (id, db.runs[id].attempt);
    var expired := Expirable(db.attempts, id, run.attempt, x.expireAt);
    var failed := run.(leaseExpiresAt := if expired then None else run.leaseExpiresAt, failure := Some(START_FAILED));
    db.(runs := db.runs[id := TransitionTo(failed, Failed, x.at)],
        attempts := if expired then db.attempts[key := ExpiredAttempt(db.attempts[key], x.expireAt)] else db.attempts,
        messages := db.messages[x.message := FailMessage(db.messages[x.message], AnalysisFailed, START_FAILED)])
  }

  function InterruptTx(db: Db, x: Preparation, id: RunId): Result<Prepared, Error>
    requires id in db.runs && x.message in db.messages
  {
    if AnalysisFailed !in MessageSuccessors(db.messages[x.message].status) then Err(InvalidTransition)
    else
      var failed := Interrupted(db, x, id);
      if db.runs[id].attempt >= db.runs[id].maxAttempts then
        Ok(Prepared(failed.(runs := failed.runs[id := TransitionTo(failed.runs[id], DeadLetter, x.at)],
                            messages := failed.messages[x.message :=
                              FailMessage(failed.messages[x.message], MessageDeadLetter, START_FAILED)]),
                    GaveUp(id)))
      else RetryTx(failed, x, id)
  }

  function FirstRun(x: Preparation): Run {
    Run(ForMessage(x.message), Queued, 1, x.maxAttempts, None, None, x.at, None, None, x.worker, None, None, 1)
  }

  function CreateTx(db: Db, x: Preparation): Result<Prepared, Error>
    requires x.message in db.messages
  {
    var m := db.messages[x.message];
    var requeued := m.status in {Received, CandidateCreated, Ignored, AnalysisFailed, MessageDeadLetter};
    if !requeued && m.status != QueuedForAnalysis then Err(InvalidTransition)
    else
      var queued := if requeued then MoveMessage(m, QueuedForAnalysis) else m;
      Ok(Prepared(db.(runs := db.runs[x.newRun := FirstRun(x)],
                      messages := db.messages[x.message := MoveMessage(MoveMessage(queued, ContextPrepared), AgentQueued)],
                      audit := db.audit + [RunPrepared(x.newRun)]),
                  Created(x.newRun)))
  }

  /** The newest run is answered, reused, interrupted or retried, as its status and the command say. */
  function LatestTx(db: Db, x: Preparation, id: RunId): Result<Prepared, Error>
    requires id in db.runs && x.message in db.messages
  {
    var run := db.runs[id];
    if x.recover && run.status == Queued then Ok(Prepared(db, Reused(id)))
    else if x.recover && run.status in {Preparing, Running} then InterruptTx(db, x, id)
    else if ActiveRun(run.status) then Ok(Prepared(db, Answered(id)))
    else if Retryable(run) then RetryTx(db, x, id)
    else Ok(Prepared(db, Answered(id)))
  }

  function PrepareTx(db: Db, x: Preparation): Result<Prepared, Error>
    requires Listed(db, x)
  {
    if x.message !in db.messages then Err(NotFound)
    else if x.suppressed then
      Ok(Prepared(db.(messages := SuppressedMessages(db.messages, x.message), audit := db.audit + [AnalysisSuppressed(x.message)]),
                  Suppressed))
    else if x.force then CreateTx(db, x)
    else if x.candidate.Some? then Ok(Prepared(db, Answered(x.candidate.value)))
    else if x.latest.None? then CreateTx(db, x)
    else if db.messages[x.message].status == Ignored then Ok(Prepared(db, Answered(x.latest.value)))
    else LatestTx(db, x, x.latest.value)
  }

  /** The delivery interrupts a run: nothing answers it earlier and the message is still being analysed. */
  predicate Interrupts(db: Db, x: Preparation, id: RunId) {
    && x.latest == Some(id) && id in db.runs && db.runs[id].status in {Preparing, Running}
    && x.recover && !x.force && !x.suppressed && x.candidate.None?
    && x.message in db.messages && AwaitsAnalysis(db.messages[x.message].status)
  }

  // ---------------------------------------------------------------- in place

  method Prepare(uow: Store, x: Preparation) returns (r: Result<PreparationOutcome, Error>)
    requires Listed(uow.State(), x)
    modifies uow
    ensures match PrepareTx(old(uow.State()), x)
            case Ok(done) => uow.State() == done.db && r == Ok(done.outcome)
            case Err(e) => uow.State() == old(uow.State()) && r == Err(e)
  {
    if x.message !in uow.messages { return Err(NotFound); }
    if x.suppressed {
      SuppressMessage(uow, x.message);
      return Ok(Suppressed);
    }
    if !x.force {
      if x.candidate.Some? { return Ok(Answered(x.candidate.value)); }
      if x.latest.Some? {
        if uow.messages[x.message].status == Ignored { return Ok(Answered(x.latest.value)); }
        r := PrepareLatest(uow, x, x.latest.value);
        return;
      }
    }
    r := CreateRun(uow, x);
  }

  method SuppressMessage(uow: Store, m: MessageId)
    modifies uow
    ensures uow.State() == old(uow.State()).(messages := SuppressedMessages(old(uow.messages), m),
                                             audit := old(uow.audit) + [AnalysisSuppressed(m)])
  {
    if m in uow.messages && AwaitsAnalysis(uow.messages[m].status) {
      assert AnalysisFailed in MessageSuccessors(uow.messages[m].status);
      uow.messages := uow.messages[m := FailMessage(uow.messages[m], AnalysisFailed, MESSAGE_RECALLED)];
    }
    uow.audit := uow.audit + [AnalysisSuppressed(m)];
  }

  method CreateRun(uow: Store, x: Preparation) returns (r: Result<PreparationOutcome, Error>)
    requires x.message in uow.messages
    modifies uow
    ensures match CreateTx(old(uow.State()), x)
            case Ok(done) => uow.State() == done.db && r == Ok(done.outcome)
            case Err(e) => uow.State() == old(uow.State()) && r == Err(e)
  {
    var message := uow.messages[x.message];
    if message.status in {Received, CandidateCreated, Ignored, AnalysisFailed, MessageDeadLetter} {
      message := MoveMessage(message, QueuedForAnalysis);
    }
    if message.status != QueuedForAnalysis { return Err(InvalidTransition); }
    uow.runs := uow.runs[x.newRun := FirstRun(x)];
    message := MoveMessage(message, ContextPrepared);
    message := MoveMessage(message, AgentQueued);
    uow.messages := uow.messages[x.message := message];
    uow.audit := uow.audit + [RunPrepared(x.newRun)];
    return Ok(Created(x.newRun));
  }

  method PrepareLatest(uow: Store, x: Preparation, id: RunId) returns (r: Result<PreparationOutcome, Error>)
    requires id in uow.runs && x.message in uow.messages
    modifies uow
    ensures match LatestTx(old(uow.State()), x, id)
            case Ok(done) => uow.State() == done.db && r == Ok(done.outcome)
            case Err(e) => uow.State() == old(uow.State()) && r == Err(e)
  {
    var run := uow.runs[id];
    if x.recover && run.status == Queued { return Ok(Reused(id)); }
    if x.recover && run.status in {Preparing, Running} {
      if AnalysisFailed !in MessageSuccessors(uow.messages[x.message].status) { return Err(InvalidTransition); }
      Interrupt(uow, x, id);
      run := uow.runs[id];
      if run.attempt >= run.maxAttempts {
        uow.runs := uow.runs[id := TransitionTo(run, DeadLetter, x.at)];
        uow.messages := uow.messages[x.message := FailMessage(uow.messages[x.message], MessageDeadLetter, START_FAILED)];
        return Ok(GaveUp(id));
      }
    }
    if ActiveRun(run.status) { return Ok(Answered(id)); }
    if Retryable(run) {
      r := Retry(uow, x, id);
      return;
    }
    return Ok(Answered(id));
  }

  method Interrupt(uow: Store, x: Preparation, id: RunId)
    requires id in uow.runs && x.message in uow.messages
    modifies uow
    ensures uow.State() == Interrupted(old(uow.State()), x, id)
  {
    var run := uow.runs[id];
    var expired := uow.ExpireAttempt(id, run.attempt, x.expireAt);
    if expired {
      run := run.(leaseExpiresAt := None);
    }
    run := run.(failure := Some(START_FAILED));
    uow.runs := uow.runs[id := TransitionTo(run, Failed, x.at)];
    uow.messages := uow.messages[x.message := FailMessage(uow.messages[x.message], AnalysisFailed, START_FAILED)];
  }

  method Retry(uow: Store, x: Preparation, id: RunId) returns (r: Result<PreparationOutcome, Error>)
    requires id in uow.runs && x.message in uow.messages
    modifies uow
    ensures match RetryTx(old(uow.State()), x, id)
            case Ok(done) => uow.State() == done.db && r == Ok(done.outcome)
            case Err(e) => uow.State() == old(uow.State()) && r == Err(e)
  {
    var message := uow.messages[x.message];
    if QueuedForAnalysis !in MessageSuccessors(message.status) { return Err(InvalidTransition); }
    var run := uow.runs[id];
    run := TransitionTo(run.(attempt := run.attempt + 1), Queued, x.at);
    run := run.(finishedAt := None, failure := None);
    uow.runs := uow.runs[id := run];
    message := MoveMessage(message, QueuedForAnalysis);
    message := MoveMessage(message, ContextPrepared);
    message := MoveMessage(message, AgentQueued);
    uow.messages := uow.messages[x.message := message];
    uow.audit := uow.audit + [RunRequeued(id, run.attempt, x.recover)];
    return Ok(Requeued(id));
  }

  // ---------------------------------------------------------------- recalled before the start

  /** The worker finds its message recalled when it wants to start the run. */
  function SuppressTx(db: Db, id: RunId, at: Instant): Result<Db, Error> {
    if id !in db.runs || !db.runs[id].owner.ForMessage? || db.runs[id].owner.message !in db.messages then Err(NotFound)
    else if Cancelled !in Successors(db.runs[id].status) then Err(InvalidTransition)
    else
      var m := db.runs[id].owner.message;
      Ok(db.(runs := db.runs[id := TransitionTo(db.runs[id].(failure := Some(MESSAGE_RECALLED)), Cancelled, at)],
             messages := SuppressedMessages(db.messages, m),
             audit := db.audit + [AnalysisSuppressed(m)]))
  }

  method SuppressRun(uow: Store, id: RunId, at: Instant) returns (error: Option<Error>)
    modifies uow
    ensures uow.Settles(SuppressTx(old(uow.State()), id, at), old(uow.State()), error)
  {
    if id !in uow.runs || !uow.runs[id].owner.ForMessage? { return Some(NotFound); }
    var m := uow.runs[id].owner.message;
    if m !in uow.messages { return Some(NotFound); }
    var run := uow.runs[id].(failure := Some(MESSAGE_RECALLED));
    if Cancelled !in Successors(run.status) { return Some(InvalidTransition); }
    uow.runs := uow.runs[id := TransitionTo(run, Cancelled, at)];
    SuppressMessage(uow, m);
    return None;
  }
}
