/** When each transaction of a worker or an operator succeeds, and every row it leaves behind, in plain statuses; and
    that what one of them starts another can finish. */
module WorkerOutcomes {
  import opened Prelude
  import opened AgentRuns
  import opened AgentLeases
  import opened AgentOperations
  import Text
  import MessagePreparation
  import PreparationOutcomes

  /** The lease is good at the worker's clock and at the database's. */
  predicate Good(db: Db, lease: Lease, at: Instant, dbNow: Instant) {
    var key := (lease.run, lease.attempt);
    && key in db.attempts && db.attempts[key].token == lease.token && db.attempts[key].status == AttemptRunning
    && at < db.attempts[key].leaseExpiresAt && dbNow < db.attempts[key].leaseExpiresAt
  }

  // ---------------------------------------------------------------- claiming

  /** A claim succeeds exactly for a queued run with a number, whose message was handed over, under a name and a fresh token. */
  lemma StartedExactly(db: Db, id: RunId, worker: string, token: Token, times: StartTimes, leaseSeconds: int)
    ensures StartTx(db, id, worker, token, times, leaseSeconds).Ok? <==>
            && id in db.runs && db.runs[id].status == Queued && db.runs[id].attempt >= 1 && !Text.IsBlank(worker)
            && (match db.runs[id].owner
                case ForMessage(m) => m in db.messages && db.messages[m].status == AgentQueued
                case _ => true)
            && (id, db.runs[id].attempt) !in db.attempts && forall key :: key in db.attempts ==> db.attempts[key].token != token
  {
  }

  /** The claimed run and its attempt, both running under the lease, and its message under analysis. */
  lemma StartLeaves(db: Db, id: RunId, worker: string, token: Token, times: StartTimes, leaseSeconds: int)
    requires StartTx(db, id, worker, token, times, leaseSeconds).Ok?
    ensures var t, run := StartTx(db, id, worker, token, times, leaseSeconds).value, db.runs[id];
            && t == db.(runs := t.runs, attempts := t.attempts, messages := t.messages)
            && id in t.runs && t.runs == db.runs[id := t.runs[id]]
            && t.runs[id] == run.(status := Running, worker := Some(worker), leaseExpiresAt := Some(times.preparing + leaseSeconds),
                                  startedAt := if run.startedAt.Some? then run.startedAt else Some(t.runs[id].updatedAt),
                                  heartbeatAt := if run.startedAt.Some? then run.heartbeatAt else Some(t.runs[id].updatedAt),
                                  updatedAt := t.runs[id].updatedAt, version := run.version + 2)
            && times.preparing < t.runs[id].updatedAt
            && (times.preparing < times.running ==> t.runs[id].updatedAt == times.running)
            && t.attempts == db.attempts[(id, run.attempt) := Attempt(token, worker, AttemptRunning, times.claimed + leaseSeconds,
                                                                      times.claimed, None, None)]
            && t.messages == match run.owner
                             case ForMessage(m) => db.messages[m := Message(Analysing, None, db.messages[m].version + 1)]
                             case _ => db.messages
  {
  }

  // ---------------------------------------------------------------- renewing

  /** A heartbeat succeeds exactly under a good lease of a started run. Then the lease is good until `leaseSeconds` after
      it, whichever clock is asked, and no other lease, run, or row is touched. */
  lemma HeartbeatRenews(db: Db, lease: Lease, at: Instant, dbNow: Instant, changedAt: Instant, leaseSeconds: int)
    ensures var r := HeartbeatTx(db, lease, at, dbNow, changedAt, leaseSeconds);
            && (r.Ok? <==> lease.run in db.runs && Good(db, lease, at, dbNow) && db.runs[lease.run].status in {Preparing, Running})
            && (r.Ok? ==>
                  var t := r.value;
                  && t == db.(runs := t.runs, attempts := t.attempts)
                  && t.runs == db.runs[lease.run := db.runs[lease.run].(leaseExpiresAt := Some(at + leaseSeconds),
                                                                       heartbeatAt := Some(changedAt), updatedAt := changedAt,
                                                                       version := db.runs[lease.run].version + 1)]
                  && (forall a, d :: Good(t, lease, a, d) <==> a < at + leaseSeconds && d < at + leaseSeconds)
                  && (lease.run, lease.attempt) in t.attempts && t.attempts[(lease.run, lease.attempt)].heartbeatAt == at
                  && t.attempts == db.attempts[(lease.run, lease.attempt) := t.attempts[(lease.run, lease.attempt)]])
  {
  }

  // ---------------------------------------------------------------- what a worker needs of its rows

  /** The run's own rows are there, and nobody else took its phase over. */
  predicate InCharge(db: Db, id: RunId) {
    && id in db.runs
    && match db.runs[id].owner
       case Unowned => false
       case ForMessage(m) => m in db.messages
       case ForPlan(p, role, step) =>
         && p in db.plans
         && match role
            case ButlerPlanning => db.plans[p].planningRun == Some(id)
            case ButlerSynthesis => db.plans[p].synthesisRun == Some(id)
            case Specialist =>
              step.Some? && step.value in db.plans[p].steps && step.value in db.steps && db.steps[step.value].latestRun == Some(id)
            case Standalone => true
  }

  lemma InChargePasses(db: Db, id: RunId)
    requires id in db.runs
    ensures WorkerGuard(db, id).None? <==> InCharge(db, id)
  {
  }

  // ---------------------------------------------------------------- delivering

  lemma CompletedExactly(db: Db, lease: Lease, product: Product, at: Instant, dbNow: Instant, changedAt: Instant)
    ensures CompleteTx(db, lease, product, at, dbNow, changedAt).Ok? <==>
            && InCharge(db, lease.run) && Good(db, lease, at, dbNow) && db.runs[lease.run].status == Running
            && (match db.runs[lease.run].owner
                case ForMessage(m) => db.messages[m].status == Analysing
                case _ => true)
  {
    if lease.run in db.runs { InChargePasses(db, lease.run); }
  }

  /** The delivered run is final with its output, its attempt is over, and its message, plan or step is answered. */
  lemma CompleteLeaves(db: Db, lease: Lease, product: Product, at: Instant, dbNow: Instant, changedAt: Instant)
    requires CompleteTx(db, lease, product, at, dbNow, changedAt).Ok?
    ensures var t, run, key := CompleteTx(db, lease, product, at, dbNow, changedAt).value, db.runs[lease.run], (lease.run, lease.attempt);
            && t == db.(runs := t.runs, attempts := t.attempts, messages := t.messages, plans := t.plans, steps := t.steps)
            && t.runs == db.runs[lease.run := run.(status := if product.needsInformation && !run.owner.ForMessage?
                                                            then NeedsMoreInformation else Completed,
                                                   output := Some(product.output), failure := None, leaseExpiresAt := None,
                                                   finishedAt := Some(changedAt), updatedAt := changedAt, version := run.version + 2)]
            && t.attempts == db.attempts[key := db.attempts[key].(status := AttemptCompleted, finishedAt := Some(at),
                                                                  leaseExpiresAt := at, failure := None)]
            && PhaseAnswered(db, run.owner, product, changedAt, t)
  {
    InChargePasses(db, lease.run);
  }

  ghost predicate PhaseAnswered(db: Db, owner: Owner, product: Product, at: Instant, t: Db) {
    match owner
    case Unowned => false
    case ForMessage(m) =>
      && t.plans == db.plans && t.steps == db.steps && m in db.messages
      && t.messages == db.messages[m := Message(if product.candidate then CandidateCreated else Ignored, None, db.messages[m].version + 1)]
    case ForPlan(p, role, step) =>
      && t.messages == db.messages && p in db.plans
      && match role
         case ButlerPlanning => t.steps == db.steps && t.plans == db.plans[p := Stamped(db.plans[p], PlanPlanned, at)]
         case ButlerSynthesis =>
           && t.steps == db.steps
           && t.plans == db.plans[p := Stamped(db.plans[p], if product.partial then PlanPartial
                                               else if product.needsInformation then PlanNeedsInformation else PlanCompleted, at)]
         case Specialist =>
           && t.plans == db.plans && step.Some? && step.value in db.steps
           && var s := db.steps[step.value];
              t.steps == db.steps[step.value := PlanStep(if product.needsInformation then StepNeedsInformation else StepCompleted,
                                                         s.latestRun, None, at, s.version + 1)]
         case Standalone => t.plans == db.plans && t.steps == db.steps
  }

  function Stamped(plan: Plan, status: PlanStatus, at: Instant): Plan {
    Plan(status, plan.planningRun, plan.synthesisRun, plan.steps, at, plan.version + 1)
  }

  // ---------------------------------------------------------------- failing

  lemma FailedExactly(db: Db, lease: Lease, f: Failure, at: Instant, dbNow: Instant, changedAt: Instant)
    ensures FailTx(db, lease, f, at, dbNow, changedAt).Ok? <==>
            && (f.status == AttemptFailed || f.status == AttemptTimedOut || f.status == AttemptCancelled)
            && InCharge(db, lease.run) && Good(db, lease, at, dbNow)
            && (match db.runs[lease.run].owner
                case ForMessage(m) =>
                  && db.messages[m].status in {QueuedForAnalysis, ContextPrepared, AgentQueued, Analysing}
                  && (db.runs[lease.run].status == Running
                      || (db.runs[lease.run].status in {Preparing, Validating} && f.status != AttemptTimedOut))
                case _ => db.runs[lease.run].status in {Preparing, Running, Validating})
  {
    if lease.run in db.runs { InChargePasses(db, lease.run); }
  }

  /** Another attempt is due: the failure may pass, and the run has attempts to spare. */
  predicate Repeats(run: Run, f: Failure) {
    f.retryable && run.attempt < run.maxAttempts
  }

  /** The run after a failure: a message run ends as its attempt did, or is given up; a plan run goes back to the queue
      under its next number, or is given up. */
  ghost predicate RunFailed(run: Run, f: Failure, at: Instant, t: Run) {
    if run.owner.ForPlan? && Repeats(run, f) then
      t == run.(status := Queued, attempt := run.attempt + 1, worker := None, failure := None, finishedAt := None,
                leaseExpiresAt := None, updatedAt := at, version := run.version + 2)
    else
      var givenUp := !Repeats(run, f) && (run.owner.ForPlan? || f.status != AttemptCancelled);
      t == run.(status := if givenUp then DeadLetter else if f.status == AttemptTimedOut then TimedOut
                          else if f.status == AttemptCancelled then Cancelled else Failed,
                failure := Some(f.code), finishedAt := Some(at), leaseExpiresAt := None, updatedAt := at,
                version := run.version + if givenUp then 2 else 1)
  }

  lemma OneRunFails(run: Run, f: Failure, at: Instant)
    requires f.status in {AttemptFailed, AttemptTimedOut, AttemptCancelled}
    ensures RunFailed(run, f, at, if run.owner.ForPlan? then FailedPlanRun(run, f.code, f.retryable, at)
                                  else FailedMessageRun(run, f.status, f.code, f.retryable, at))
  {
  }

  lemma RowsFailRun(db: Db, id: RunId, f: Failure, at: Instant)
    requires id in db.runs && f.status in {AttemptFailed, AttemptTimedOut, AttemptCancelled}
    ensures var t := FailedRows(db, id, f, at);
            && t == db.(runs := t.runs, messages := t.messages, plans := t.plans, steps := t.steps, outbox := t.outbox)
            && id in t.runs && t.runs == db.runs[id := t.runs[id]] && RunFailed(db.runs[id], f, at, t.runs[id])
  {
    var run, t := db.runs[id], FailedRows(db, id, f, at);
    OneRunFails(run, f, at);
    assert t.runs == db.runs[id := if run.owner.ForPlan? then FailedPlanRun(run, f.code, f.retryable, at)
                                   else FailedMessageRun(run, f.status, f.code, f.retryable, at)];
  }

  lemma FailLeavesRun(db: Db, lease: Lease, f: Failure, at: Instant, dbNow: Instant, changedAt: Instant)
    requires FailTx(db, lease, f, at, dbNow, changedAt).Ok?
    ensures var t, run, key := FailTx(db, lease, f, at, dbNow, changedAt).value, db.runs[lease.run], (lease.run, lease.attempt);
            && t == db.(runs := t.runs, attempts := t.attempts, messages := t.messages, plans := t.plans, steps := t.steps, outbox := t.outbox)
            && lease.run in t.runs && t.runs == db.runs[lease.run := t.runs[lease.run]]
            && RunFailed(run, f, changedAt, t.runs[lease.run])
            && t.attempts == db.attempts[key := db.attempts[key].(status := f.status, finishedAt := Some(at), leaseExpiresAt := at,
                                                                  failure := Some(f.code))]
  {
    var key := (lease.run, lease.attempt);
    var finished := db.(attempts := db.attempts[key := FinishedAttempt(db.attempts[key], f.status, Some(f.code), at)]);
    RowsFailRun(finished, lease.run, f, changedAt);
  }

  /** The rows above the run: its message fails or is given up with it, or its step or plan waits or fails with it. */
  ghost predicate PhaseGivenUp(db: Db, run: Run, f: Failure, at: Instant, t: Db) {
    match run.owner
    case Unowned => false
    case ForMessage(m) =>
      && t.plans == db.plans && t.steps == db.steps && m in db.messages
      && t.messages == db.messages[m := if Repeats(run, f) || f.status == AttemptCancelled
                                        then Message(AnalysisFailed, Some(f.code), db.messages[m].version + 1)
                                        else Message(MessageDeadLetter, Some(f.code), db.messages[m].version + 2)]
    case ForPlan(p, role, step) =>
      && t.messages == db.messages && p in db.plans
      && if role == Specialist then
           && t.plans == db.plans && step.Some? && step.value in db.steps
           && var s := db.steps[step.value];
              t.steps == db.steps[step.value := PlanStep(if Repeats(run, f) then StepRunning else StepFailed,
                                                         s.latestRun, Some(f.code), at, s.version + 1)]
         else
           && t.steps == db.steps
           && t.plans == db.plans[p := Stamped(db.plans[p], if Repeats(run, f) then db.plans[p].status
                                               else if f.partial then PlanPartial else PlanFailed, at)]
  }

  lemma FailLeavesPhase(db: Db, lease: Lease, f: Failure, at: Instant, dbNow: Instant, changedAt: Instant)
    requires FailTx(db, lease, f, at, dbNow, changedAt).Ok?
    ensures PhaseGivenUp(db, db.runs[lease.run], f, changedAt, FailTx(db, lease, f, at, dbNow, changedAt).value)
  {
    InChargePasses(db, lease.run);
    var finished := db.(attempts := db.attempts[(lease.run, lease.attempt) := FinishedAttempt(db.attempts[(lease.run, lease.attempt)],
                                                                                             f.status, Some(f.code), at)]);
    assert FailTx(db, lease, f, at, dbNow, changedAt).value == FailedRows(finished, lease.run, f, changedAt);
    if db.runs[lease.run].owner.ForPlan? {
      PlanGivesUp(finished, lease.run, f, changedAt);
    } else {
      MessageGivesUp(finished, lease.run, f, changedAt);
    }
  }

  lemma MessageGivesUp(db: Db, id: RunId, f: Failure, at: Instant)
    requires InCharge(db, id) && f.status in {AttemptFailed, AttemptTimedOut, AttemptCancelled} && !db.runs[id].owner.ForPlan?
    ensures PhaseGivenUp(db, db.runs[id], f, at, FailedRows(db, id, f, at))
  {
  }

  lemma PlanGivesUp(db: Db, id: RunId, f: Failure, at: Instant)
    requires InCharge(db, id) && db.runs[id].owner.ForPlan?
    ensures PhaseGivenUp(db, db.runs[id], f, at, FailedRows(db, id, f, at))
  {
  }

  /** Whoever is requeued is asked for: a plan run that fails with attempts to spare leaves a pending request of its plan,
      one more event exactly if none was pending; any other failure leaves the outbox alone. */
  lemma RequeuedIsAnnounced(db: Db, lease: Lease, f: Failure, at: Instant, dbNow: Instant, changedAt: Instant)
    requires FailTx(db, lease, f, at, dbNow, changedAt).Ok?
    ensures var t, run := FailTx(db, lease, f, at, dbNow, changedAt).value, db.runs[lease.run];
            && lease.run in t.runs
            && (t.runs[lease.run].status == Queued <==> run.owner.ForPlan? && Repeats(run, f))
            && (t.runs[lease.run].status == Queued ==> PlanAwaited(t.outbox, run.owner.plan))
            && t.outbox == if t.runs[lease.run].status == Queued && !PlanAwaited(db.outbox, run.owner.plan)
                           then db.outbox + [OutboxEvent(LegalRecoveryRequested(run.owner.plan, lease.run, run.owner.role, RetryableFailure), Pending)]
                           else db.outbox
  {
    var t, run := FailTx(db, lease, f, at, dbNow, changedAt).value, db.runs[lease.run];
    FailLeavesRun(db, lease, f, at, dbNow, changedAt);
    if run.owner.ForPlan? {
      var request := LegalRecoveryRequested(run.owner.plan, lease.run, run.owner.role, RetryableFailure);
      PendingIsAwaited(db.outbox, request);
      if Repeats(run, f) && !PlanAwaited(db.outbox, run.owner.plan) {
        assert t.outbox[|db.outbox|] == OutboxEvent(request, Pending);
      }
    }
  }

  // ---------------------------------------------------------------- why a worker is refused

  /** The rows the worker reads are there. */
  predicate RowsThere(db: Db, id: RunId) {
    && id in db.runs
    && match db.runs[id].owner
       case Unowned => false
       case ForMessage(m) => m in db.messages
       case ForPlan(p, role, step) =>
         p in db.plans && (role == Specialist ==> step.Some? && step.value in db.plans[p].steps && step.value in db.steps)
  }

  lemma WorkerRefused(db: Db, lease: Lease, product: Product, f: Failure, at: Instant, dbNow: Instant, changedAt: Instant)
    requires f.status in {AttemptFailed, AttemptTimedOut, AttemptCancelled}
    ensures var done, failed := CompleteTx(db, lease, product, at, dbNow, changedAt), FailTx(db, lease, f, at, dbNow, changedAt);
            && (done == Err(NotFound) <==> !RowsThere(db, lease.run)) && (failed == Err(NotFound) <==> !RowsThere(db, lease.run))
            && (done == Err(StaleAttempt) <==> RowsThere(db, lease.run) && !(InCharge(db, lease.run) && Good(db, lease, at, dbNow)))
            && (failed == Err(StaleAttempt) <==> RowsThere(db, lease.run) && !(InCharge(db, lease.run) && Good(db, lease, at, dbNow)))
  {
  }

  // ---------------------------------------------------------------- cancelling

  /** An operator stops exactly active runs. The attempt's row stays, but its worker has no run to deliver to; a message
      still under way fails with the run, and any other message stays. */
  lemma CancelledExactly(db: Db, key: string, id: RunId, at: Instant)
    requires key !in db.replays
    ensures var r := CancelTx(db, key, id, at);
            && (r.Ok? <==> id in db.runs && db.runs[id].status in {Queued, Preparing, Running, Validating})
            && (r.Ok? ==>
                  var t, run := r.value.db, db.runs[id];
                  && r.value.reply == Replay(id, Cancelled) && !r.value.replayed
                  && t == db.(runs := t.runs, messages := t.messages, audit := db.audit + [RunCancelled(id)],
                              replays := db.replays[key := Replay(id, Cancelled)])
                  && t.runs == db.runs[id := run.(status := Cancelled, failure := Some("AGENT_RUNTIME_CANCELLED"), leaseExpiresAt := None,
                                                  finishedAt := Some(at), updatedAt := at, version := run.version + 1)]
                  && t.messages == match run.owner
                                   case ForMessage(m) =>
                                     if m in db.messages && db.messages[m].status in {QueuedForAnalysis, ContextPrepared, AgentQueued, Analysing}
                                     then db.messages[m := Message(AnalysisFailed, Some("AGENT_RUNTIME_CANCELLED"), db.messages[m].version + 1)]
                                     else db.messages
                                   case _ => db.messages)
  {
  }

  /** After a cancellation no worker delivers, renews or fails on the run. */
  lemma CancelledIsOver(db: Db, key: string, id: RunId, at: Instant, lease: Lease, product: Product, f: Failure, later: Instant,
                        dbNow: Instant, changedAt: Instant, leaseSeconds: int)
    requires key !in db.replays && CancelTx(db, key, id, at).Ok? && lease.run == id
    ensures var t := CancelTx(db, key, id, at).value.db;
            && CompleteTx(t, lease, product, later, dbNow, changedAt).Err?
            && FailTx(t, lease, f, later, dbNow, changedAt).Err?
            && HeartbeatTx(t, lease, later, dbNow, changedAt, leaseSeconds).Err?
  {
    CancelledExactly(db, key, id, at);
  }

  // ---------------------------------------------------------------- what one starts another can finish

  /** A claim can be delivered as long as its lease runs: exactly if the run is still in charge of its phase. */
  lemma ClaimedWorkCompletes(db: Db, id: RunId, worker: string, token: Token, times: StartTimes, leaseSeconds: int,
                             product: Product, at: Instant, dbNow: Instant, changedAt: Instant)
    requires StartTx(db, id, worker, token, times, leaseSeconds).Ok?
    ensures var t, lease := StartTx(db, id, worker, token, times, leaseSeconds).value, Lease(id, db.runs[id].attempt, token);
            CompleteTx(t, lease, product, at, dbNow, changedAt).Ok? <==>
            InCharge(db, id) && at < times.claimed + leaseSeconds && dbNow < times.claimed + leaseSeconds
  {
    var t, lease := StartTx(db, id, worker, token, times, leaseSeconds).value, Lease(id, db.runs[id].attempt, token);
    StartedExactly(db, id, worker, token, times, leaseSeconds);
    StartLeaves(db, id, worker, token, times, leaseSeconds);
    CompletedExactly(t, lease, product, at, dbNow, changedAt);
  }

  /** A failed plan run that is repeated can be claimed again, under its next number, by anybody with a fresh token. */
  lemma FailedPlanRunIsRepeated(db: Db, lease: Lease, f: Failure, at: Instant, dbNow: Instant, changedAt: Instant,
                                worker: string, token: Token, times: StartTimes, leaseSeconds: int)
    requires FailTx(db, lease, f, at, dbNow, changedAt).Ok? && db.runs[lease.run].owner.ForPlan? && Repeats(db.runs[lease.run], f)
    requires (lease.run, db.runs[lease.run].attempt + 1) !in db.attempts && !Text.IsBlank(worker)
    requires forall key :: key in db.attempts ==> db.attempts[key].token != token
    ensures StartTx(FailTx(db, lease, f, at, dbNow, changedAt).value, lease.run, worker, token, times, leaseSeconds).Ok?
  {
    FailLeavesRun(db, lease, f, at, dbNow, changedAt);
    StartedExactly(FailTx(db, lease, f, at, dbNow, changedAt).value, lease.run, worker, token, times, leaseSeconds);
  }

  /** A failed message run is repeated by the next delivery, exactly if the failure may pass and attempts are left and it
      was not cancelled. */
  lemma FailedMessageRunIsRepeated(db: Db, lease: Lease, f: Failure, at: Instant, dbNow: Instant, changedAt: Instant,
                                   x: MessagePreparation.Preparation)
    requires FailTx(db, lease, f, at, dbNow, changedAt).Ok? && db.runs[lease.run].owner == ForMessage(x.message)
    requires x.latest == Some(lease.run) && !x.suppressed && !x.force && x.candidate.None?
    ensures var t := FailTx(db, lease, f, at, dbNow, changedAt).value;
            && MessagePreparation.Listed(t, x)
            && var r := MessagePreparation.PrepareTx(t, x);
               r.Ok? && (r.value.outcome == MessagePreparation.Requeued(lease.run) <==> Repeats(db.runs[lease.run], f) && f.status != AttemptCancelled)
  {
    var t := FailTx(db, lease, f, at, dbNow, changedAt).value;
    FailLeavesRun(db, lease, f, at, dbNow, changedAt);
    FailLeavesPhase(db, lease, f, at, dbNow, changedAt);
    PreparationOutcomes.AnsweredExactly(t, x, MessagePreparation.Requeued(lease.run));
    PreparationOutcomes.AnsweredExactly(t, x, MessagePreparation.Answered(lease.run));
  }
}
