/** Which answer each delivery of a message gets, and what it leaves behind, in plain statuses. */
module PreparationOutcomes {
  import opened Prelude
  import opened AgentRuns
  import opened MessagePreparation

  /** The delivery comes down to the newest run: no recall, no forced rerun, no candidate, and not judged irrelevant. */
  predicate ReachesRun(db: Db, x: Preparation, id: RunId) {
    && x.message in db.messages && db.messages[x.message].status != Ignored
    && !x.suppressed && !x.force && x.candidate.None? && x.latest == Some(id) && id in db.runs
  }

  /** What earns the answer. */
  predicate Earns(db: Db, x: Preparation, o: PreparationOutcome) {
    x.message in db.messages &&
    var status := db.messages[x.message].status;
    match o
    case Suppressed => x.suppressed
    case Created(id) =>
      && id == x.newRun && !x.suppressed && (x.force || (x.candidate.None? && x.latest.None?))
      && (status == Received || status == CandidateCreated || status == Ignored || status == AnalysisFailed
          || status == MessageDeadLetter || status == QueuedForAnalysis)
    case Reused(id) => ReachesRun(db, x, id) && x.recover && db.runs[id].status == Queued
    case GaveUp(id) => ReachesRun(db, x, id) && Caught(db, x, id) && db.runs[id].attempt >= db.runs[id].maxAttempts
    case Requeued(id) =>
      && ReachesRun(db, x, id) && db.runs[id].attempt < db.runs[id].maxAttempts
      && (Caught(db, x, id) || (Over(db.runs[id]) && (status == Received || status == CandidateCreated
                                                     || status == AnalysisFailed || status == MessageDeadLetter)))
    case Answered(id) =>
      !x.suppressed && !x.force &&
      (x.candidate == Some(id) ||
       (x.candidate.None? && x.latest == Some(id) && (status == Ignored || (id in db.runs && Speaks(x, db.runs[id])))))
  }

  /** A recovering delivery finds the run started and its message not answered yet. */
  predicate Caught(db: Db, x: Preparation, id: RunId)
    requires x.message in db.messages && id in db.runs
  {
    && x.recover && (db.runs[id].status == Preparing || db.runs[id].status == Running)
    && db.messages[x.message].status in {QueuedForAnalysis, ContextPrepared, AgentQueued, Analysing}
  }

  predicate Over(run: Run) {
    run.status == Failed || run.status == TimedOut
  }

  /** The run needs nothing: it has its result, is given up, cannot be repeated, or is still under way. */
  predicate Speaks(x: Preparation, run: Run) {
    match run.status
    case Completed | NeedsMoreInformation | Cancelled | DeadLetter | Validating => true
    case Failed | TimedOut => run.attempt >= run.maxAttempts
    case Queued | Preparing | Running => !x.recover
  }

  /** What the answer means for the rows. */
  ghost predicate Leaves(db: Db, x: Preparation, o: PreparationOutcome, t: Db)
    requires x.message in db.messages
  {
    var m := db.messages[x.message];
    match o
    case Suppressed =>
      && t == db.(messages := t.messages, audit := db.audit + [AnalysisSuppressed(x.message)])
      && t.messages == (match m.status
                        case QueuedForAnalysis | ContextPrepared | AgentQueued | Analysing =>
                          db.messages[x.message := Message(AnalysisFailed, Some("MESSAGE_RECALLED"), m.version + 1)]
                        case _ => db.messages)
    case Answered(_) => t == db
    case Reused(_) => t == db
    case Created(id) =>
      && t == db.(runs := t.runs, messages := t.messages, audit := db.audit + [RunPrepared(id)])
      && t.runs == db.runs[id := Run(ForMessage(x.message), Queued, 1, x.maxAttempts, None, None, x.at, None, None, x.worker, None, None, 1)]
      && t.messages == db.messages[x.message := Message(AgentQueued, None, m.version + if m.status == QueuedForAnalysis then 2 else 3)]
    case GaveUp(id) =>
      && t == db.(runs := t.runs, attempts := t.attempts, messages := t.messages) && AttemptEnds(db, x, id, t)
      && t.messages == db.messages[x.message := Message(MessageDeadLetter, Some("AGENT_RUNTIME_START_FAILED"), m.version + 2)]
      && id in db.runs && id in t.runs && t.runs == db.runs[id := t.runs[id]]
      && t.runs[id] == db.runs[id].(status := DeadLetter, failure := Some("AGENT_RUNTIME_START_FAILED"), finishedAt := Some(x.at),
                                    updatedAt := x.at, leaseExpiresAt := t.runs[id].leaseExpiresAt, version := db.runs[id].version + 2)
    case Requeued(id) =>
      && id in db.runs && id in t.runs && t.runs == db.runs[id := t.runs[id]]
      && t == db.(runs := t.runs, attempts := t.attempts, messages := t.messages,
                  audit := db.audit + [RunRequeued(id, db.runs[id].attempt + 1, x.recover)])
      && t.runs[id] == db.runs[id].(status := Queued, attempt := db.runs[id].attempt + 1, failure := None, finishedAt := None,
                                    updatedAt := x.at, leaseExpiresAt := t.runs[id].leaseExpiresAt, version := t.runs[id].version)
      && t.runs[id].version == db.runs[id].version + (if Over(db.runs[id]) then 1 else 2)
      && t.messages == db.messages[x.message := Message(AgentQueued, None, m.version + if Over(db.runs[id]) then 3 else 4)]
      && (if Over(db.runs[id]) then t.attempts == db.attempts else AttemptEnds(db, x, id, t))
  }

  /** The interrupted attempt expires exactly if its lease is over. */
  ghost predicate AttemptEnds(db: Db, x: Preparation, id: RunId, t: Db) {
    && id in db.runs
    && var key := (id, db.runs[id].attempt);
       if key in db.attempts && db.attempts[key].status == AttemptRunning && db.attempts[key].leaseExpiresAt <= x.expireAt then
         && key in t.attempts && t.attempts == db.attempts[key := t.attempts[key]]
         && t.attempts[key] == db.attempts[key].(status := AttemptExpired, finishedAt := Some(x.expireAt),
                                                 leaseExpiresAt := x.expireAt, failure := Some("AGENT_LEASE_EXPIRED"))
         && id in t.runs && t.runs[id].leaseExpiresAt == None
       else t.attempts == db.attempts && id in t.runs && t.runs[id].leaseExpiresAt == db.runs[id].leaseExpiresAt
  }

  lemma OverAnsweredExactly(db: Db, x: Preparation, id: RunId, o: PreparationOutcome)
    requires Listed(db, x) && ReachesRun(db, x, id) && Over(db.runs[id])
    ensures PrepareTx(db, x).Ok? && PrepareTx(db, x).value.outcome == o <==> Earns(db, x, o)
  {
    assert PrepareTx(db, x) == LatestTx(db, x, id);
  }

  lemma RunAnsweredExactly(db: Db, x: Preparation, id: RunId, o: PreparationOutcome)
    requires Listed(db, x) && ReachesRun(db, x, id) && !Over(db.runs[id])
    ensures PrepareTx(db, x).Ok? && PrepareTx(db, x).value.outcome == o <==> Earns(db, x, o)
  {
    assert PrepareTx(db, x) == LatestTx(db, x, id);
  }

  /** Each delivery gets an answer exactly if it earns it; one that earns none is refused. */
  lemma AnsweredExactly(db: Db, x: Preparation, o: PreparationOutcome)
    requires Listed(db, x)
    ensures PrepareTx(db, x).Ok? && PrepareTx(db, x).value.outcome == o <==> Earns(db, x, o)
    ensures PrepareTx(db, x).Err? ==> PrepareTx(db, x).error == if x.message in db.messages then InvalidTransition else NotFound
  {
    if x.latest.Some? && ReachesRun(db, x, x.latest.value) {
      var id := x.latest.value;
      if Over(db.runs[id]) { OverAnsweredExactly(db, x, id, o); } else { RunAnsweredExactly(db, x, id, o); }
    }
  }

  lemma CreateLeaves(db: Db, x: Preparation)
    requires x.message in db.messages && CreateTx(db, x).Ok?
    ensures CreateTx(db, x).value.outcome == Created(x.newRun) && Leaves(db, x, Created(x.newRun), CreateTx(db, x).value.db)
  {
  }

  lemma RetryLeaves(db: Db, x: Preparation, id: RunId)
    requires id in db.runs && x.message in db.messages && Over(db.runs[id]) && RetryTx(db, x, id).Ok?
    ensures RetryTx(db, x, id).value.outcome == Requeued(id) && Leaves(db, x, Requeued(id), RetryTx(db, x, id).value.db)
  {
  }

  lemma InterruptedAttempt(db: Db, x: Preparation, id: RunId, t: Db)
    requires id in db.runs && x.message in db.messages && id in t.runs
    requires t.attempts == Interrupted(db, x, id).attempts
    requires t.runs[id].leaseExpiresAt == Interrupted(db, x, id).runs[id].leaseExpiresAt
    ensures AttemptEnds(db, x, id, t)
  {
  }

  lemma GiveUpLeaves(db: Db, x: Preparation, id: RunId)
    requires id in db.runs && x.message in db.messages && !Over(db.runs[id]) && InterruptTx(db, x, id).Ok?
    requires db.runs[id].attempt >= db.runs[id].maxAttempts
    ensures InterruptTx(db, x, id).value.outcome == GaveUp(id) && Leaves(db, x, GaveUp(id), InterruptTx(db, x, id).value.db)
  {
    InterruptedAttempt(db, x, id, InterruptTx(db, x, id).value.db);
  }

  lemma InterruptLeaves(db: Db, x: Preparation, id: RunId)
    requires id in db.runs && x.message in db.messages && !Over(db.runs[id]) && InterruptTx(db, x, id).Ok?
    requires db.runs[id].attempt < db.runs[id].maxAttempts
    ensures InterruptTx(db, x, id).value.outcome == Requeued(id) && Leaves(db, x, Requeued(id), InterruptTx(db, x, id).value.db)
  {
    var failed := Interrupted(db, x, id);
    assert InterruptTx(db, x, id) == RetryTx(failed, x, id);
    InterruptedAttempt(db, x, id, InterruptTx(db, x, id).value.db);
  }

  lemma LatestLeaves(db: Db, x: Preparation, id: RunId)
    requires id in db.runs && x.message in db.messages && LatestTx(db, x, id).Ok?
    ensures Leaves(db, x, LatestTx(db, x, id).value.outcome, LatestTx(db, x, id).value.db)
  {
    var run := db.runs[id];
    if x.recover && run.status in {Preparing, Running} {
      if run.attempt >= run.maxAttempts { GiveUpLeaves(db, x, id); } else { InterruptLeaves(db, x, id); }
    } else if run.status in {Failed, TimedOut} && Retryable(run) {
      RetryLeaves(db, x, id);
    }
  }

  /** What an answered delivery leaves behind, in every row. */
  lemma AnswerLeaves(db: Db, x: Preparation)
    requires Listed(db, x) && PrepareTx(db, x).Ok?
    ensures Leaves(db, x, PrepareTx(db, x).value.outcome, PrepareTx(db, x).value.db)
  {
    if x.suppressed {
    } else if x.force || (x.candidate.None? && x.latest.None?) {
      CreateLeaves(db, x);
    } else if x.candidate.None? && db.messages[x.message].status != Ignored {
      LatestLeaves(db, x, x.latest.value);
    }
  }

  /** A worker that finds its message recalled gives up the run: exactly if it is still active. */
  lemma SuppressedExactly(db: Db, id: RunId, at: Instant)
    ensures var r := SuppressTx(db, id, at);
            && (r.Ok? <==> id in db.runs && db.runs[id].owner.ForMessage? && db.runs[id].owner.message in db.messages
                           && db.runs[id].status in {Queued, Preparing, Running, Validating})
            && (r.Ok? ==>
                  var t, run := r.value, db.runs[id];
                  var m := run.owner.message;
                  && t == db.(runs := t.runs, messages := t.messages, audit := db.audit + [AnalysisSuppressed(m)])
                  && t.runs == db.runs[id := run.(status := Cancelled, failure := Some("MESSAGE_RECALLED"), finishedAt := Some(at),
                                                  updatedAt := at, version := run.version + 1)]
                  && t.messages == (match db.messages[m].status
                                    case QueuedForAnalysis | ContextPrepared | AgentQueued | Analysing =>
                                      db.messages[m := Message(AnalysisFailed, Some("MESSAGE_RECALLED"), db.messages[m].version + 1)]
                                    case _ => db.messages))
  {
  }
}
