/** Workers, operators, deliveries, the sweep and the clock as one transition system. Every interleaving of
    committed transactions is a run of it: a crashed worker simply takes no further step, and a
    worker that lost its lease may still present it at any later time, under any clock. */
module AgentProtocol {
  import opened Prelude
  import opened AgentRuns
  import opened AgentLeases
  import opened AnalysisRecovery
  import opened RecoveryTheorems
  import opened AgentOperations
  import opened MessagePreparation
  import Text

  datatype Step =
    | CreateRun(id: RunId, owner: Owner, maxAttempts: nat, at: Instant)
    | PrepareMessage(x: Preparation)
    | WorkerStart(id: RunId, worker: string, token: Token, times: StartTimes, leaseSeconds: int)
    | WorkerSuppress(id: RunId, at: Instant)
    | WorkerHeartbeat(lease: Lease, at: Instant, dbNow: Instant, changedAt: Instant, leaseSeconds: int)
    | WorkerComplete(lease: Lease, product: Product, at: Instant, dbNow: Instant, changedAt: Instant)
    | WorkerFail(lease: Lease, failure: Failure, at: Instant, dbNow: Instant, changedAt: Instant)
    | OperatorCancel(key: string, id: RunId, at: Instant)
    | RecoverySweep(clock: Clock, sel: Selection, b: Batches)
    | Deliver(event: nat, delivery: Delivery)
    // other services move these rows; nothing about runs depends on how
    | ChangeMessage(m: MessageId, message: Message)
    | ChangePlan(p: PlanId, plan: Plan)
    | ChangeStep(s: StepRowId, row: PlanStep)

  const EMPTY := Db(map[], map[], map[], map[], map[], [], [], map[])

  function Commit(db: Db, tx: Result<Db, Error>): Db {
    if tx.Ok? then tx.value else db
  }

  function NewRun(owner: Owner, maxAttempts: nat, at: Instant): Run {
    Run(owner, Queued, 1, maxAttempts, None, None, at, None, None, None, None, None, 1)
  }

  ghost predicate Enabled(db: Db, step: Step) {
    match step
    case CreateRun(id, _, maxAttempts, _) => id !in db.runs && maxAttempts >= 1
    case PrepareMessage(x) => Listed(db, x) && x.newRun !in db.runs && x.maxAttempts >= 1
    case RecoverySweep(clock, sel, b) => Selected(db, sel, b, clock)
    case _ => true
  }

  function Apply(db: Db, step: Step): Db {
    match step
    case CreateRun(id, owner, maxAttempts, at) => db.(runs := db.runs[id := NewRun(owner, maxAttempts, at)])
    case PrepareMessage(x) => AfterPreparation(db, x)
    case WorkerStart(id, worker, token, times, leaseSeconds) =>
      Commit(db, StartTx(db, id, worker, token, times, leaseSeconds))
    case WorkerSuppress(id, at) => Commit(db, SuppressTx(db, id, at))
    case WorkerHeartbeat(lease, at, dbNow, changedAt, leaseSeconds) =>
      Commit(db, HeartbeatTx(db, lease, at, dbNow, changedAt, leaseSeconds))
    case WorkerComplete(lease, product, at, dbNow, changedAt) =>
      Commit(db, CompleteTx(db, lease, product, at, dbNow, changedAt))
    case WorkerFail(lease, failure, at, dbNow, changedAt) =>
      Commit(db, FailTx(db, lease, failure, at, dbNow, changedAt))
    case OperatorCancel(key, id, at) =>
      (var tx := CancelTx(db, key, id, at); if tx.Ok? then tx.value.db else db)
    case RecoverySweep(clock, _, b) => Recovered(db, b, clock).db
    case Deliver(event, delivery) =>
      if event < |db.outbox| then db.(outbox := db.outbox[event := db.outbox[event].(delivery := delivery)]) else db
    case ChangeMessage(m, message) => db.(messages := db.messages[m := message])
    case ChangePlan(p, plan) => db.(plans := db.plans[p := plan])
    case ChangeStep(s, row) => db.(steps := db.steps[s := row])
  }

  function AfterPreparation(db: Db, x: Preparation): Db {
    if !Listed(db, x) then db
    else
      var tx := PrepareTx(db, x);
      if tx.Ok? then tx.value.db else db
  }

  function After(db: Db, steps: seq<Step>): Db
    decreases |steps|
  {
    if steps == [] then db else After(Apply(db, steps[0]), steps[1..])
  }

  /** Each step is enabled where it is taken. */
  ghost predicate Runs(db: Db, steps: seq<Step>)
    decreases |steps|
  {
    steps == [] || (Enabled(db, steps[0]) && Runs(Apply(db, steps[0]), steps[1..]))
  }

  lemma {:induction false} AfterAppend(db: Db, first: seq<Step>, second: seq<Step>)
    ensures After(db, first + second) == After(After(db, first), second)
    ensures Runs(db, first + second) <==> Runs(db, first) && Runs(After(db, first), second)
    decreases |first|
  {
    if first == [] {
      assert first + second == second;
    } else {
      assert (first + second)[1..] == first[1..] + second;
      AfterAppend(Apply(db, first[0]), first[1..], second);
    }
  }

  // ---------------------------------------------------------------- what a step does to one run

  /** The rows of one run: its own row and its attempts. */
  ghost predicate SameRun(db: Db, t: Db, id: RunId) {
    && (id in db.runs <==> id in t.runs) && (id in db.runs ==> t.runs[id] == db.runs[id])
    && (forall k :: (id, k) in db.attempts <==> (id, k) in t.attempts)
    && (forall k :: (id, k) in db.attempts ==> t.attempts[(id, k)] == db.attempts[(id, k)])
  }

  /** The run a step may touch; a sweep may touch any. */
  function Target(step: Step): Option<RunId> {
    match step
    case CreateRun(id, _, _, _) => Some(id)
    case WorkerStart(id, _, _, _, _) => Some(id)
    case WorkerSuppress(id, _) => Some(id)
    case WorkerHeartbeat(lease, _, _, _, _) => Some(lease.run)
    case WorkerComplete(lease, _, _, _, _) => Some(lease.run)
    case WorkerFail(lease, _, _, _, _) => Some(lease.run)
    case OperatorCancel(_, id, _) => Some(id)
    case _ => None
  }

  predicate Touches(step: Step, id: RunId) {
    step.RecoverySweep? || Target(step) == Some(id) || (step.PrepareMessage? && (step.x.newRun == id || step.x.latest == Some(id)))
  }

  lemma StartTouches(db: Db, step: Step, id: RunId)
    requires step.WorkerStart? && step.id != id
    ensures SameRun(db, Apply(db, step), id)
  {
  }

  lemma HeartbeatTouches(db: Db, step: Step, id: RunId)
    requires step.WorkerHeartbeat? && step.lease.run != id
    ensures SameRun(db, Apply(db, step), id)
  {
  }

  lemma FinishTouches(db: Db, step: Step, id: RunId)
    requires (step.WorkerComplete? || step.WorkerFail?) && step.lease.run != id
    ensures SameRun(db, Apply(db, step), id)
  {
    if step.WorkerComplete? {
      CompleteRows(db, step.lease, step.product, step.at, step.dbNow, step.changedAt);
    } else {
      FailRows(db, step.lease, step.failure, step.at, step.dbNow, step.changedAt);
    }
  }

  lemma OthersUntouched(db: Db, step: Step, id: RunId)
    requires !Touches(step, id)
    ensures SameRun(db, Apply(db, step), id)
  {
    if step.PrepareMessage? {
      PrepareTouches(db, step.x, id);
    } else if step.WorkerStart? {
      StartTouches(db, step, id);
    } else if step.WorkerHeartbeat? {
      HeartbeatTouches(db, step, id);
    } else if step.WorkerComplete? || step.WorkerFail? {
      FinishTouches(db, step, id);
    }
  }

  lemma PrepareTouches(db: Db, x: Preparation, id: RunId)
    requires x.newRun != id && x.latest != Some(id)
    ensures SameRun(db, AfterPreparation(db, x), id)
  {
  }

  /** A completion writes the run, its attempt and rows that are neither. */
  lemma CompleteRows(db: Db, lease: Lease, product: Product, at: Instant, dbNow: Instant, changedAt: Instant)
    ensures var tx := CompleteTx(db, lease, product, at, dbNow, changedAt);
            tx.Ok? ==>
              && lease.run in db.runs && WorkerGuard(db, lease.run).None? && LeaseHolds(db.attempts, lease, at, dbNow)
              && db.runs[lease.run].status == Running
              && tx.value.runs == db.runs[lease.run := CompletedRun(db.runs[lease.run], product, changedAt)]
              && var key := (lease.run, lease.attempt);
                 tx.value.attempts == db.attempts[key := FinishedAttempt(db.attempts[key], AttemptCompleted, None, at)]
  {
  }

  function RunAfterFailure(run: Run, f: Failure, changedAt: Instant): Run {
    if run.owner.ForPlan? then FailedPlanRun(run, f.code, f.retryable, changedAt)
    else FailedMessageRun(run, f.status, f.code, f.retryable, changedAt)
  }

  lemma FailRows(db: Db, lease: Lease, f: Failure, at: Instant, dbNow: Instant, changedAt: Instant)
    ensures var tx := FailTx(db, lease, f, at, dbNow, changedAt);
            tx.Ok? ==>
              && lease.run in db.runs && WorkerGuard(db, lease.run).None? && LeaseHolds(db.attempts, lease, at, dbNow)
              && Failed in Successors(db.runs[lease.run].status)
              && f.status in {AttemptFailed, AttemptTimedOut, AttemptCancelled}
              && tx.value.runs == db.runs[lease.run := RunAfterFailure(db.runs[lease.run], f, changedAt)]
              && var key := (lease.run, lease.attempt);
                 tx.value.attempts == db.attempts[key := FinishedAttempt(db.attempts[key], f.status, Some(f.code), at)]
  {
  }

  /** A worker's failure leaves a running run failed or cancelled, or queued under its next attempt. */
  lemma FailedRuns(run: Run, f: Failure, changedAt: Instant)
    ensures var next := RunAfterFailure(run, f, changedAt);
            && next.maxAttempts == run.maxAttempts && next.output == run.output && next.owner == run.owner
            && if run.owner.ForPlan? && Retries(run, f.retryable) then next.status == Queued && next.attempt == run.attempt + 1
               else next.status in {Failed, TimedOut, Cancelled, DeadLetter} && next.attempt == run.attempt
  {
  }

  function AttemptAfterInterrupt(db: Db, x: Preparation, id: RunId, k: nat): Attempt
    requires id in db.runs && (id, k) in db.attempts
  {
    if k == db.runs[id].attempt && Expirable(db.attempts, id, k, x.expireAt)
    then ExpiredAttempt(db.attempts[(id, k)], x.expireAt) else db.attempts[(id, k)]
  }

  /** An interrupted run is dead-lettered on its last attempt and otherwise queued under the next number; its
      current attempt expires if its lease is over, and is left running if not. */
  ghost predicate InterruptedTo(db: Db, x: Preparation, id: RunId, t: Db)
    requires id in db.runs
  {
    var run := db.runs[id];
    && id in t.runs
    && (forall k :: (id, k) in t.attempts <==> (id, k) in db.attempts)
    && (forall k :: (id, k) in t.attempts ==> t.attempts[(id, k)] == AttemptAfterInterrupt(db, x, id, k))
    && t.runs[id].maxAttempts == run.maxAttempts && t.runs[id].output == run.output && t.runs[id].owner == run.owner
    && (if run.attempt >= run.maxAttempts then t.runs[id].status == DeadLetter && t.runs[id].attempt == run.attempt
        else t.runs[id].status == Queued && t.runs[id].attempt == run.attempt + 1)
  }

  lemma InterruptRows(db: Db, x: Preparation, id: RunId)
    requires Listed(db, x) && Interrupts(db, x, id)
    ensures InterruptedTo(db, x, id, AfterPreparation(db, x))
  {
    assert PrepareTx(db, x) == InterruptTx(db, x, id);
    var failed := Interrupted(db, x, id);
    assert forall k :: (id, k) in failed.attempts <==> (id, k) in db.attempts;
  }

  /** Without an interruption the newest run stays or, having failed with attempts to spare, is retried. */
  lemma QuietRows(db: Db, x: Preparation, id: RunId)
    requires Listed(db, x) && x.latest == Some(id) && x.newRun !in db.runs && !Interrupts(db, x, id)
    ensures var t := AfterPreparation(db, x);
            && t.attempts == db.attempts && id in t.runs
            && (t.runs[id] == db.runs[id] || (Retryable(db.runs[id]) && t.runs[id] == RetriedRun(db.runs[id], x.at)))
  {
    if x.message in db.messages && !x.suppressed && !x.force && x.candidate.None? {
      QuietLatest(db, x, id);
    }
  }

  lemma QuietLatest(db: Db, x: Preparation, id: RunId)
    requires id in db.runs && x.message in db.messages
    requires x.recover && db.runs[id].status in {Preparing, Running} ==> !AwaitsAnalysis(db.messages[x.message].status)
    ensures var tx := LatestTx(db, x, id);
            tx.Ok? ==>
              && tx.value.db.attempts == db.attempts && id in tx.value.db.runs
              && (tx.value.db.runs[id] == db.runs[id]
                  || (Retryable(db.runs[id]) && tx.value.db.runs[id] == RetriedRun(db.runs[id], x.at)))
  {
  }

  // ---------------------------------------------------------------- what holds over every run of the system

  predicate Done(s: RunStatus) {
    s in {Completed, NeedsMoreInformation}
  }

  /** Attempt numbers stay within the maximum and never repeat; a result belongs to a finished run. */
  ghost predicate SoundRun(db: Db, id: RunId)
    requires id in db.runs
  {
    var run := db.runs[id];
    && 1 <= run.attempt <= run.maxAttempts
    && run.status !in {Preparing, Validating}
    && (run.status == Queued ==> (id, run.attempt) !in db.attempts)
    && (run.output.Some? <==> Done(run.status))
    && forall k :: (id, k) in db.attempts ==> 1 <= k <= run.attempt
  }

  ghost predicate TokensDiffer(db: Db) {
    forall k1, k2 :: k1 in db.attempts && k2 in db.attempts && db.attempts[k1].token == db.attempts[k2].token ==> k1 == k2
  }

  ghost predicate Sound(db: Db) {
    && (forall id :: id in db.runs ==> SoundRun(db, id))
    && (forall key :: key in db.attempts ==> key.0 in db.runs)
    && TokensDiffer(db)
  }

  lemma SameRunSound(db: Db, t: Db, id: RunId)
    requires id in db.runs && SoundRun(db, id) && SameRun(db, t, id)
    ensures SoundRun(t, id)
  {
  }

  lemma StartSound(db: Db, step: Step, id: RunId)
    requires step.WorkerStart? && id in db.runs && SoundRun(db, id)
    ensures id in Apply(db, step).runs && SoundRun(Apply(db, step), id)
  {
  }

  lemma HeartbeatSound(db: Db, step: Step, id: RunId)
    requires step.WorkerHeartbeat? && id in db.runs && SoundRun(db, id)
    ensures id in Apply(db, step).runs && SoundRun(Apply(db, step), id)
  {
  }

  lemma CompleteSound(db: Db, step: Step, id: RunId)
    requires step.WorkerComplete? && id in db.runs && SoundRun(db, id)
    ensures id in Apply(db, step).runs && SoundRun(Apply(db, step), id)
  {
    CompleteRows(db, step.lease, step.product, step.at, step.dbNow, step.changedAt);
  }

  lemma FailSound(db: Db, step: Step, id: RunId)
    requires step.WorkerFail? && id in db.runs && SoundRun(db, id)
    ensures id in Apply(db, step).runs && SoundRun(Apply(db, step), id)
  {
    FailRows(db, step.lease, step.failure, step.at, step.dbNow, step.changedAt);
    if step.lease.run == id { FailedRuns(db.runs[id], step.failure, step.changedAt); }
  }

  lemma CancelSound(db: Db, step: Step, id: RunId)
    requires (step.OperatorCancel? || step.WorkerSuppress?) && id in db.runs && SoundRun(db, id)
    ensures id in Apply(db, step).runs && SoundRun(Apply(db, step), id)
  {
  }

  lemma PrepareSound(db: Db, step: Step, id: RunId)
    requires step.PrepareMessage? && Enabled(db, step) && id in db.runs && SoundRun(db, id)
    ensures id in Apply(db, step).runs && SoundRun(Apply(db, step), id)
  {
    var x := step.x;
    if x.latest == Some(id) {
      if Interrupts(db, x, id) { InterruptRows(db, x, id); } else { QuietRows(db, x, id); }
    } else {
      PrepareTouches(db, x, id);
      SameRunSound(db, Apply(db, step), id);
    }
  }

  lemma OutcomeSound(db: Db, b: Batches, clock: Clock, t: Db, id: RunId)
    requires id in db.runs && SoundRun(db, id) && id in t.runs && t.runs[id] == Outcome(db, b, clock, id)
    requires CancelledInQueue(db, b.queued, id) ==> db.runs[id].status == Queued
    requires Expires(db, b, clock, id) ==> db.runs[id].status in {Preparing, Running, Validating}
    requires t.attempts.Keys == db.attempts.Keys
    ensures SoundRun(t, id)
  {
    assert forall k :: (id, k) in t.attempts <==> (id, k) in db.attempts;
  }

  lemma SweepSound(db: Db, step: Step, id: RunId)
    requires step.RecoverySweep? && Enabled(db, step) && id in db.runs && SoundRun(db, id)
    ensures id in Apply(db, step).runs && SoundRun(Apply(db, step), id)
  {
    SweepOutcome(db, step.sel, step.b, step.clock);
    StatusBefore(db, step.sel, step.b, step.clock, id);
    OutcomeSound(db, step.b, step.clock, Apply(db, step), id);
  }

  lemma StepSoundRun(db: Db, step: Step, id: RunId)
    requires Enabled(db, step) && id in db.runs && SoundRun(db, id)
    ensures id in Apply(db, step).runs && SoundRun(Apply(db, step), id)
  {
    if !Touches(step, id) {
      OthersUntouched(db, step, id);
      SameRunSound(db, Apply(db, step), id);
    } else {
      match step
      case PrepareMessage(_) => PrepareSound(db, step, id);
      case WorkerStart(_, _, _, _, _) => StartSound(db, step, id);
      case WorkerHeartbeat(_, _, _, _, _) => HeartbeatSound(db, step, id);
      case WorkerComplete(_, _, _, _, _) => CompleteSound(db, step, id);
      case WorkerFail(_, _, _, _, _) => FailSound(db, step, id);
      case WorkerSuppress(_, _) => CancelSound(db, step, id);
      case OperatorCancel(_, _, _) => CancelSound(db, step, id);
      case RecoverySweep(_, _, _) => SweepSound(db, step, id);
      case _ =>
    }
  }

  /** A step keeps every attempt and its token; only a start adds one, under a token nobody had. */
  ghost predicate AttemptsGrow(db: Db, t: Db, step: Step) {
    && db.attempts.Keys <= t.attempts.Keys
    && (forall key :: key in db.attempts ==> t.attempts[key].token == db.attempts[key].token)
    && (forall key :: key in t.attempts && key !in db.attempts ==>
          step.WorkerStart? && key.0 == step.id && key.0 in db.runs && key == (step.id, db.runs[step.id].attempt)
          && t.attempts[key].token == step.token && !TokenTaken(db.attempts, step.token))
  }

  lemma SweepAttemptsGrow(db: Db, step: Step)
    requires step.RecoverySweep? && Enabled(db, step)
    ensures AttemptsGrow(db, Apply(db, step), step)
  {
    SweepOutcome(db, step.sel, step.b, step.clock);
  }

  lemma InterruptAttemptsGrow(db: Db, step: Step, id: RunId)
    requires step.PrepareMessage? && Listed(db, step.x) && Interrupts(db, step.x, id)
    ensures AttemptsGrow(db, Apply(db, step), step)
  {
    var failed := Interrupted(db, step.x, id);
    assert PrepareTx(db, step.x) == InterruptTx(db, step.x, id);
    assert Apply(db, step).attempts == failed.attempts || Apply(db, step) == db;
  }

  lemma PrepareAttemptsGrow(db: Db, step: Step)
    requires step.PrepareMessage? && Enabled(db, step)
    ensures AttemptsGrow(db, Apply(db, step), step)
  {
    var x := step.x;
    if x.latest.Some? {
      if Interrupts(db, x, x.latest.value) {
        InterruptAttemptsGrow(db, step, x.latest.value);
      } else {
        QuietRows(db, x, x.latest.value);
      }
    } else {
      CreatedAttempts(db, x);
    }
  }

  lemma CreatedAttempts(db: Db, x: Preparation)
    requires x.latest.None?
    ensures AfterPreparation(db, x).attempts == db.attempts
  {
  }

  lemma StartAttemptsGrow(db: Db, step: Step)
    requires step.WorkerStart?
    ensures AttemptsGrow(db, Apply(db, step), step)
  {
  }

  lemma HeartbeatAttemptsGrow(db: Db, step: Step)
    requires step.WorkerHeartbeat?
    ensures AttemptsGrow(db, Apply(db, step), step)
  {
  }

  lemma FinishAttemptsGrow(db: Db, step: Step)
    requires step.WorkerComplete? || step.WorkerFail?
    ensures AttemptsGrow(db, Apply(db, step), step)
  {
    if step.WorkerComplete? {
      CompleteRows(db, step.lease, step.product, step.at, step.dbNow, step.changedAt);
    } else {
      FailRows(db, step.lease, step.failure, step.at, step.dbNow, step.changedAt);
    }
  }

  /** Steps that write no attempt. */
  predicate LeavesAttempts(step: Step) {
    || step.CreateRun? || step.WorkerSuppress? || step.OperatorCancel? || step.Deliver?
    || step.ChangeMessage? || step.ChangePlan? || step.ChangeStep?
  }

  lemma AttemptsLeft(db: Db, step: Step)
    requires LeavesAttempts(step)
    ensures Apply(db, step).attempts == db.attempts
  {
  }

  lemma StepAttemptsGrow(db: Db, step: Step)
    requires Enabled(db, step)
    ensures AttemptsGrow(db, Apply(db, step), step)
  {
    if LeavesAttempts(step) {
      AttemptsLeft(db, step);
    } else if step.RecoverySweep? {
      SweepAttemptsGrow(db, step);
    } else if step.PrepareMessage? {
      PrepareAttemptsGrow(db, step);
    } else if step.WorkerStart? {
      StartAttemptsGrow(db, step);
    } else if step.WorkerHeartbeat? {
      HeartbeatAttemptsGrow(db, step);
    } else {
      FinishAttemptsGrow(db, step);
    }
  }

  lemma NothingCreated(db: Db, step: Step, id: RunId)
    requires Enabled(db, step) && id !in db.runs && !step.CreateRun? && !step.PrepareMessage?
    ensures id !in Apply(db, step).runs
  {
    match step
    case RecoverySweep(clock, sel, b) => SweepOutcome(db, sel, b, clock);
    case WorkerComplete(lease, product, at, dbNow, changedAt) => CompleteRows(db, lease, product, at, dbNow, changedAt);
    case WorkerFail(lease, failure, at, dbNow, changedAt) => FailRows(db, lease, failure, at, dbNow, changedAt);
    case _ =>
  }

  lemma PrepareCreates(db: Db, x: Preparation, id: RunId)
    requires Listed(db, x) && id !in db.runs && id in AfterPreparation(db, x).runs
    ensures id == x.newRun && AfterPreparation(db, x).runs[id] == FirstRun(x) && AfterPreparation(db, x).attempts == db.attempts
  {
  }

  /** A run that is new is queued for its first attempt. */
  lemma RunsGrow(db: Db, step: Step, id: RunId)
    requires Enabled(db, step) && id !in db.runs && id in Apply(db, step).runs
    ensures var run := Apply(db, step).runs[id];
            run.status == Queued && run.attempt == 1 <= run.maxAttempts && run.output.None?
            && Apply(db, step).attempts == db.attempts
  {
    if step.PrepareMessage? {
      PrepareCreates(db, step.x, id);
    } else if !step.CreateRun? {
      NothingCreated(db, step, id);
    }
  }

  lemma TokensStayDifferent(db: Db, t: Db, step: Step)
    requires TokensDiffer(db) && AttemptsGrow(db, t, step)
    ensures TokensDiffer(t)
  {
    forall k1, k2 | k1 in t.attempts && k2 in t.attempts && t.attempts[k1].token == t.attempts[k2].token ensures k1 == k2 {
      if k1 in db.attempts && k2 in db.attempts { assert db.attempts[k1].token == db.attempts[k2].token; }
    }
  }

  lemma StepSound(db: Db, step: Step)
    requires Sound(db) && Enabled(db, step)
    ensures Sound(Apply(db, step))
  {
    var t := Apply(db, step);
    StepAttemptsGrow(db, step);
    TokensStayDifferent(db, t, step);
    forall id | id in db.runs ensures id in t.runs { StepSoundRun(db, step, id); }
    forall id | id in t.runs ensures SoundRun(t, id) {
      if id in db.runs { StepSoundRun(db, step, id); } else { RunsGrow(db, step, id); }
    }
  }

  /** Whatever deliveries, workers, operators, sweeps and clocks do, numbers, tokens and results stay sound. */
  lemma {:induction false} SoundHolds(db: Db, steps: seq<Step>)
    requires Sound(db) && Runs(db, steps)
    ensures Sound(After(db, steps))
    decreases |steps|
  {
    if steps != [] {
      StepSound(db, steps[0]);
      SoundHolds(Apply(db, steps[0]), steps[1..]);
    }
  }

  lemma EveryReachableStateIsSound(steps: seq<Step>)
    requires Runs(EMPTY, steps)
    ensures Sound(After(EMPTY, steps))
  {
    SoundHolds(EMPTY, steps);
  }

  /** The unique constraint never refuses the claim of a queued run: only a token used before does. */
  lemma ClaimSucceeds(db: Db, id: RunId, worker: string, token: Token, times: StartTimes, leaseSeconds: int)
    requires Sound(db) && id in db.runs
    ensures StartTx(db, id, worker, token, times, leaseSeconds).Ok?
            <==> db.runs[id].status == Queued && MayMove(db.messages, db.runs[id].owner, Analysing)
                 && !Text.IsBlank(worker) && !TokenTaken(db.attempts, token)
  {
    assert SoundRun(db, id);
  }

  // ---------------------------------------------------------------- one live attempt

  /** The run agrees with its current attempt, and all earlier attempts are over without a result. */
  ghost predicate Consistent(db: Db, id: RunId) {
    && id in db.runs && SoundRun(db, id)
    && var run := db.runs[id];
    && (run.status == Running ==> Has(db, id, run.attempt, AttemptRunning))
    && (run.status in {Failed, TimedOut} ==> !Has(db, id, run.attempt, AttemptRunning))
    && (Done(run.status) <==> Has(db, id, run.attempt, AttemptCompleted))
    && forall k :: (id, k) in db.attempts && k < run.attempt ==> db.attempts[(id, k)].status !in {AttemptRunning, AttemptCompleted}
  }

  predicate Has(db: Db, id: RunId, k: nat, status: AttemptStatus) {
    (id, k) in db.attempts && db.attempts[(id, k)].status == status
  }

  /** The delivery may interrupt the run: the current attempt's lease is over, or there is no next attempt. */
  predicate SafePreparation(db: Db, x: Preparation, id: RunId)
    requires id in db.runs
  {
    Interrupts(db, x, id) ==>
      Expirable(db.attempts, id, db.runs[id].attempt, x.expireAt) || db.runs[id].attempt >= db.runs[id].maxAttempts
  }

  /** A preparation keeps its run consistent exactly when it is safe: a live lease under an interrupted run with
      attempts to spare is the one case in which it does not. */
  lemma PrepareKeepsExactly(db: Db, x: Preparation, id: RunId)
    requires Listed(db, x) && x.newRun !in db.runs && x.latest == Some(id) && Consistent(db, id)
    ensures Consistent(AfterPreparation(db, x), id) <==> SafePreparation(db, x, id)
  {
    var t := AfterPreparation(db, x);
    if Interrupts(db, x, id) {
      InterruptRows(db, x, id);
      InterruptedConsistent(db, x, id, t);
    } else {
      QuietRows(db, x, id);
    }
  }

  lemma InterruptedConsistent(db: Db, x: Preparation, id: RunId, t: Db)
    requires Consistent(db, id) && Interrupts(db, x, id) && InterruptedTo(db, x, id, t)
    ensures Consistent(t, id) <==> SafePreparation(db, x, id)
  {
    var k := db.runs[id].attempt;
    assert (id, k) in db.attempts && (id, k) in t.attempts;
    assert t.attempts[(id, k)] == AttemptAfterInterrupt(db, x, id, k);
  }

  lemma SameRunConsistent(db: Db, t: Db, id: RunId)
    requires Consistent(db, id) && SameRun(db, t, id)
    ensures Consistent(t, id)
  {
  }

  /** Only the current attempt of a running run can hold a lease that a transaction accepts. */
  lemma HolderIsCurrent(db: Db, lease: Lease, at: Instant, dbNow: Instant)
    requires Consistent(db, lease.run) && LeaseHolds(db.attempts, lease, at, dbNow)
    ensures db.runs[lease.run].attempt == lease.attempt
    ensures !Done(db.runs[lease.run].status) && db.runs[lease.run].status !in {Queued, Failed, TimedOut}
  {
    assert (lease.run, lease.attempt) in db.attempts;
  }

  lemma StartKeeps(db: Db, step: Step, id: RunId)
    requires step.WorkerStart? && Consistent(db, id)
    ensures Consistent(Apply(db, step), id)
  {
  }

  lemma HeartbeatKeeps(db: Db, step: Step, id: RunId)
    requires step.WorkerHeartbeat? && Consistent(db, id)
    ensures Consistent(Apply(db, step), id)
  {
  }

  /** The worker of the current attempt finishes it and moves its run on. */
  lemma FinishKeeps(db: Db, t: Db, id: RunId, run: Run, attempt: Attempt)
    requires Consistent(db, id) && (id, db.runs[id].attempt) in db.attempts
    requires t.runs == db.runs[id := run] && t.attempts == db.attempts[(id, db.runs[id].attempt) := attempt]
    requires attempt.status != AttemptRunning && run.maxAttempts == db.runs[id].maxAttempts && run.output.Some? == Done(run.status)
    requires run.status !in {Preparing, Validating, Running}
    requires if run.status == Queued then run.attempt == db.runs[id].attempt + 1 <= run.maxAttempts && attempt.status != AttemptCompleted
             else run.attempt == db.runs[id].attempt && (Done(run.status) <==> attempt.status == AttemptCompleted)
    ensures Consistent(t, id)
  {
    assert forall k :: (id, k) in t.attempts <==> (id, k) in db.attempts;
    assert forall k :: (id, k) in t.attempts && k != db.runs[id].attempt ==> t.attempts[(id, k)] == db.attempts[(id, k)];
  }

  lemma CompleteKeeps(db: Db, step: Step)
    requires step.WorkerComplete? && Consistent(db, step.lease.run)
    ensures Consistent(Apply(db, step), step.lease.run)
  {
    CompleteRows(db, step.lease, step.product, step.at, step.dbNow, step.changedAt);
    if CompleteTx(db, step.lease, step.product, step.at, step.dbNow, step.changedAt).Ok? {
      var id := step.lease.run;
      HolderIsCurrent(db, step.lease, step.at, step.dbNow);
      FinishKeeps(db, Apply(db, step), id, CompletedRun(db.runs[id], step.product, step.changedAt),
                  FinishedAttempt(db.attempts[(id, db.runs[id].attempt)], AttemptCompleted, None, step.at));
    }
  }

  lemma FailKeeps(db: Db, step: Step)
    requires step.WorkerFail? && Consistent(db, step.lease.run)
    ensures Consistent(Apply(db, step), step.lease.run)
  {
    FailRows(db, step.lease, step.failure, step.at, step.dbNow, step.changedAt);
    if FailTx(db, step.lease, step.failure, step.at, step.dbNow, step.changedAt).Ok? {
      var id, f := step.lease.run, step.failure;
      HolderIsCurrent(db, step.lease, step.at, step.dbNow);
      FailedRuns(db.runs[id], f, step.changedAt);
      FinishKeeps(db, Apply(db, step), id, RunAfterFailure(db.runs[id], f, step.changedAt),
                  FinishedAttempt(db.attempts[(id, db.runs[id].attempt)], f.status, Some(f.code), step.at));
    }
  }

  lemma CancelKeeps(db: Db, step: Step, id: RunId)
    requires (step.OperatorCancel? || step.WorkerSuppress?) && Consistent(db, id)
    ensures Consistent(Apply(db, step), id)
  {
  }

  lemma OutcomeKeeps(db: Db, b: Batches, clock: Clock, t: Db, id: RunId)
    requires Consistent(db, id) && id in t.runs && t.runs[id] == Outcome(db, b, clock, id)
    requires CancelledInQueue(db, b.queued, id) ==> db.runs[id].status == Queued
    requires Expires(db, b, clock, id) ==> db.runs[id].status in {Preparing, Running, Validating}
    requires t.attempts.Keys == db.attempts.Keys
    requires forall k :: (id, k) in db.attempts ==>
               t.attempts[(id, k)] == AttemptOutcome(db, Expires(db, b, clock, id), clock, (id, k))
    ensures Consistent(t, id)
  {
    OutcomeSound(db, b, clock, t, id);
    OutcomeAttempts(db, b, clock, t, id);
  }

  lemma OutcomeAttempts(db: Db, b: Batches, clock: Clock, t: Db, id: RunId)
    requires Consistent(db, id) && id in t.runs && t.runs[id] == Outcome(db, b, clock, id)
    requires CancelledInQueue(db, b.queued, id) ==> db.runs[id].status == Queued
    requires Expires(db, b, clock, id) ==> db.runs[id].status in {Preparing, Running, Validating}
    requires t.attempts.Keys == db.attempts.Keys
    requires forall k :: (id, k) in db.attempts ==>
               t.attempts[(id, k)] == AttemptOutcome(db, Expires(db, b, clock, id), clock, (id, k))
    ensures var run := t.runs[id];
            && (run.status == Running ==> Has(t, id, run.attempt, AttemptRunning))
            && (run.status in {Failed, TimedOut} ==> !Has(t, id, run.attempt, AttemptRunning))
            && (Done(run.status) <==> Has(t, id, run.attempt, AttemptCompleted))
            && forall k :: (id, k) in t.attempts && k < run.attempt ==> t.attempts[(id, k)].status !in {AttemptRunning, AttemptCompleted}
  {
    assert forall k :: (id, k) in t.attempts <==> (id, k) in db.attempts;
    if !Expires(db, b, clock, id) {
      assert forall k :: (id, k) in db.attempts ==> t.attempts[(id, k)] == db.attempts[(id, k)];
    } else {
      assert Has(db, id, db.runs[id].attempt, AttemptRunning);
      assert Has(t, id, db.runs[id].attempt, AttemptExpired);
    }
  }

  lemma SweepKeeps(db: Db, step: Step, id: RunId)
    requires step.RecoverySweep? && Enabled(db, step) && Consistent(db, id)
    ensures Consistent(Apply(db, step), id)
  {
    SweepOutcome(db, step.sel, step.b, step.clock);
    StatusBefore(db, step.sel, step.b, step.clock, id);
    OutcomeKeeps(db, step.b, step.clock, Apply(db, step), id);
  }

  /** The step does not take a live run away from its worker. */
  predicate SafeStep(db: Db, step: Step, id: RunId)
    requires id in db.runs
  {
    step.PrepareMessage? && step.x.latest == Some(id) ==> SafePreparation(db, step.x, id)
  }

  /** Every step keeps a run consistent, a preparation if it is safe for it. */
  lemma StepKeeps(db: Db, step: Step, id: RunId)
    requires Enabled(db, step) && Consistent(db, id) && SafeStep(db, step, id)
    ensures Consistent(Apply(db, step), id)
  {
    if !Touches(step, id) {
      OthersUntouched(db, step, id);
      SameRunConsistent(db, Apply(db, step), id);
    } else {
      match step
      case PrepareMessage(x) =>
        if x.latest == Some(id) { PrepareKeepsExactly(db, x, id); } else { PrepareTouches(db, x, id); }
      case WorkerStart(_, _, _, _, _) => StartKeeps(db, step, id);
      case WorkerHeartbeat(_, _, _, _, _) => HeartbeatKeeps(db, step, id);
      case WorkerComplete(_, _, _, _, _) => CompleteKeeps(db, step);
      case WorkerFail(_, _, _, _, _) => FailKeeps(db, step);
      case WorkerSuppress(_, _) => CancelKeeps(db, step, id);
      case OperatorCancel(_, _, _) => CancelKeeps(db, step, id);
      case RecoverySweep(_, _, _) => SweepKeeps(db, step, id);
      case _ =>
    }
  }

  /** Each preparation of the run that is taken is safe where it is taken. */
  ghost predicate SafelyPrepared(db: Db, steps: seq<Step>, id: RunId)
    decreases |steps|
  {
    steps == [] || ((id in db.runs ==> SafeStep(db, steps[0], id)) && SafelyPrepared(Apply(db, steps[0]), steps[1..], id))
  }

  lemma {:induction false} ConsistencyHolds(db: Db, steps: seq<Step>, id: RunId)
    requires Sound(db) && Runs(db, steps) && (id in db.runs ==> Consistent(db, id)) && SafelyPrepared(db, steps, id)
    ensures id in After(db, steps).runs ==> Consistent(After(db, steps), id)
    decreases |steps|
  {
    if steps != [] {
      var t := Apply(db, steps[0]);
      StepSound(db, steps[0]);
      if id in db.runs {
        StepKeeps(db, steps[0], id);
      } else if id in t.runs {
        RunsGrow(db, steps[0], id);
      }
      ConsistencyHolds(t, steps[1..], id);
    }
  }

  /** From the empty database, over every interleaving: a run whose preparations were all safe is consistent,
      whatever happened to other runs. */
  lemma EveryReachableRunIsConsistent(steps: seq<Step>, id: RunId)
    requires Runs(EMPTY, steps) && SafelyPrepared(EMPTY, steps, id) && id in After(EMPTY, steps).runs
    ensures Consistent(After(EMPTY, steps), id)
  {
    ConsistencyHolds(EMPTY, steps, id);
  }

  /** At most one attempt of a consistent run is running or completed, and it is the current one. */
  lemma OneLiveAttempt(db: Db, id: RunId, k1: nat, k2: nat)
    requires Consistent(db, id) && (id, k1) in db.attempts && (id, k2) in db.attempts
    requires db.attempts[(id, k1)].status in {AttemptRunning, AttemptCompleted}
    requires db.attempts[(id, k2)].status in {AttemptRunning, AttemptCompleted}
    ensures k1 == k2 == db.runs[id].attempt
  {
  }

  // ---------------------------------------------------------------- an unsafe preparation

  /** The first delivery creates run 0 of message 0 and its worker starts at 0 with a lease of a minute. */
  const STARTED := [
    ChangeMessage(0, Message(Received, None, 1)),
    PrepareMessage(Preparation(0, None, false, false, false, None, 0, 2, None, 0, 0)),
    WorkerStart(0, "a", 7, StartTimes(0, 0, 0), 60)]

  /** A delivery that recovers the run one second later, and its worker. */
  const EARLY := Preparation(0, Some(0), true, false, false, None, 1, 2, None, 1, 1)

  const RESTARTED := [PrepareMessage(EARLY), WorkerStart(0, "b", 8, StartTimes(1, 1, 1), 60)]

  /** The first worker delivers a second after that. */
  const LATE := WorkerComplete(Lease(0, 1, 7), Product(5, false, true, false), 2, 2, 2)

  function Live(token: Token, worker: string, at: Instant): Attempt {
    Attempt(token, worker, AttemptRunning, at + 60, at, None, None)
  }

  /** Message 0 and its only run, as far as the later steps depend on them. */
  ghost predicate Scene(db: Db, message: MessageStatus, status: RunStatus, attempt: nat, attempts: map<(RunId, nat), Attempt>) {
    && db.messages.Keys == {0} && db.messages[0].status == message
    && db.runs.Keys == {0} && db.attempts == attempts
    && var run := db.runs[0];
       run.owner == ForMessage(0) && run.status == status && run.attempt == attempt && run.maxAttempts == 2
  }

  lemma NotBlank()
    ensures !Text.IsBlank("a") && !Text.IsBlank("b")
  {
    assert 'a' in "a" && !Text.IsSpace('a');
    assert 'b' in "b" && !Text.IsSpace('b');
  }

  lemma SceneClaims(db: Db, step: Step, k: nat, attempts: map<(RunId, nat), Attempt>)
    requires Scene(db, AgentQueued, Queued, k, attempts) && (0, k) !in attempts && k >= 1
    requires step.WorkerStart? && step.id == 0 && !TokenTaken(attempts, step.token) && !Text.IsBlank(step.worker)
    ensures StartTx(db, 0, step.worker, step.token, step.times, step.leaseSeconds).Ok?
  {
  }

  lemma SceneStarts(db: Db, step: Step, k: nat, attempts: map<(RunId, nat), Attempt>)
    requires Scene(db, AgentQueued, Queued, k, attempts) && (0, k) !in attempts && k >= 1
    requires step.WorkerStart? && step.id == 0 && !TokenTaken(attempts, step.token) && !Text.IsBlank(step.worker)
    ensures Scene(Apply(db, step), Analysing, Running, k,
                  attempts[(0, k) := Claim(step.token, step.worker, step.times, step.leaseSeconds)])
  {
    SceneClaims(db, step, k, attempts);
    assert Apply(db, step) == StartTx(db, 0, step.worker, step.token, step.times, step.leaseSeconds).value;
  }

  lemma SceneInterrupts(db: Db)
    requires Scene(db, Analysing, Running, 1, map[(0, 1) := Live(7, "a", 0)])
    ensures Interrupts(db, EARLY, 0) && PrepareTx(db, EARLY) == InterruptTx(db, EARLY, 0)
    ensures !SafePreparation(db, EARLY, 0) && !Expirable(db.attempts, 0, 1, 1)
  {
  }

  lemma SceneInterrupted(db: Db)
    requires Scene(db, Analysing, Running, 1, map[(0, 1) := Live(7, "a", 0)])
    ensures Enabled(db, PrepareMessage(EARLY)) && !SafePreparation(db, EARLY, 0)
    ensures Scene(AfterPreparation(db, EARLY), AgentQueued, Queued, 2, db.attempts)
  {
    SceneInterrupts(db);
  }

  lemma StartedState()
    ensures Runs(EMPTY, STARTED)
    ensures Scene(After(EMPTY, STARTED), Analysing, Running, 1, map[(0, 1) := Live(7, "a", 0)])
  {
    var db1 := Apply(EMPTY, STARTED[0]);
    var db2 := Apply(db1, STARTED[1]);
    assert Scene(db2, AgentQueued, Queued, 1, map[]);
    NotBlank();
    SceneStarts(db2, STARTED[2], 1, map[]);
    assert After(db2, [STARTED[2]]) == Apply(db2, STARTED[2]) && Runs(db2, [STARTED[2]]);
    assert STARTED[1..] == [STARTED[1], STARTED[2]] && STARTED[1..][1..] == [STARTED[2]];
  }

  lemma RestartedState(db: Db)
    requires Scene(db, Analysing, Running, 1, map[(0, 1) := Live(7, "a", 0)])
    ensures Runs(db, RESTARTED) && !SafePreparation(db, EARLY, 0)
    ensures Scene(After(db, RESTARTED), Analysing, Running, 2, map[(0, 1) := Live(7, "a", 0), (0, 2) := Live(8, "b", 1)])
  {
    var db1 := Apply(db, RESTARTED[0]);
    SceneInterrupted(db);
    NotBlank();
    SceneStarts(db1, RESTARTED[1], 2, db.attempts);
    assert RESTARTED[1..] == [RESTARTED[1]];
    assert After(db1, [RESTARTED[1]]) == Apply(db1, RESTARTED[1]) && Runs(db1, [RESTARTED[1]]);
    assert db.attempts[(0, 2) := Live(8, "b", 1)] == map[(0, 1) := Live(7, "a", 0), (0, 2) := Live(8, "b", 1)];
  }

  /** The old worker's completion is accepted: its attempt is still running. */
  lemma LateCompletion(db: Db)
    requires Scene(db, Analysing, Running, 2, map[(0, 1) := Live(7, "a", 0), (0, 2) := Live(8, "b", 1)])
    ensures var t := Apply(db, LATE);
            && 0 in t.runs && t.runs[0].status == Completed && t.runs[0].output == Some(5) && t.runs[0].attempt == 2
            && Has(t, 0, 1, AttemptCompleted) && Has(t, 0, 2, AttemptRunning)
  {
    assert LeaseHolds(db.attempts, LATE.lease, 2, 2);
    assert WorkerGuard(db, 0).None? && CandidateCreated in MessageSuccessors(Analysing);
    assert CompleteTx(db, LATE.lease, LATE.product, 2, 2, 2).Ok?;
    CompleteRows(db, LATE.lease, LATE.product, 2, 2, 2);
  }

  /** The one way to lose the invariant is a run of the system: a delivery that recovers a run whose worker is alive
      leaves two attempts running, and the old worker can still store its result over the new attempt. */
  lemma LivePreparationBreaks()
    ensures Runs(EMPTY, STARTED + RESTARTED + [LATE])
    ensures !SafePreparation(After(EMPTY, STARTED), EARLY, 0)
    ensures var db := After(EMPTY, STARTED + RESTARTED);
            !Consistent(db, 0) && Has(db, 0, 1, AttemptRunning) && Has(db, 0, 2, AttemptRunning)
    ensures var t := After(EMPTY, STARTED + RESTARTED + [LATE]);
            && 0 in t.runs && t.runs[0].status == Completed && t.runs[0].output == Some(5) && t.runs[0].attempt == 2
            && Has(t, 0, 1, AttemptCompleted) && Has(t, 0, 2, AttemptRunning)
  {
    var db := After(EMPTY, STARTED);
    var t := After(db, RESTARTED);
    StartedState();
    RestartedState(db);
    LateCompletion(t);
    AfterAppend(EMPTY, STARTED, RESTARTED);
    AfterAppend(EMPTY, STARTED + RESTARTED, [LATE]);
    assert After(t, [LATE]) == Apply(t, LATE) && Runs(t, [LATE]);
    assert (0, 1) in t.attempts && 1 < t.runs[0].attempt;
  }

  // ---------------------------------------------------------------- fencing

  predicate Over(db: Db, key: (RunId, nat)) {
    key in db.attempts && db.attempts[key].status != AttemptRunning
  }

  ghost predicate Frozen(db: Db, t: Db, key: (RunId, nat)) {
    key in db.attempts && key in t.attempts && t.attempts[key] == db.attempts[key]
  }

  lemma SweepFreezes(db: Db, step: Step, key: (RunId, nat))
    requires step.RecoverySweep? && Enabled(db, step) && Over(db, key)
    ensures Frozen(db, Apply(db, step), key)
  {
    SweepOutcome(db, step.sel, step.b, step.clock);
    if key.0 in db.runs {
      assert Apply(db, step).attempts[key] == AttemptOutcome(db, Expires(db, step.b, step.clock, key.0), step.clock, key);
    }
  }

  lemma PrepareFreezes(db: Db, step: Step, key: (RunId, nat))
    requires step.PrepareMessage? && Enabled(db, step) && Over(db, key)
    ensures Frozen(db, Apply(db, step), key)
  {
    var x := step.x;
    if x.latest == Some(key.0) {
      if Interrupts(db, x, key.0) {
        InterruptRows(db, x, key.0);
        assert (key.0, key.1) == key;
      } else {
        QuietRows(db, x, key.0);
      }
    } else if x.newRun != key.0 {
      PrepareTouches(db, x, key.0);
      assert (key.0, key.1) == key;
    } else {
      PrepareOtherAttempts(db, x, key);
    }
  }

  lemma PrepareOtherAttempts(db: Db, x: Preparation, key: (RunId, nat))
    requires Listed(db, x) && x.latest != Some(key.0) && key in db.attempts
    ensures Frozen(db, AfterPreparation(db, x), key)
  {
  }

  lemma StartFreezes(db: Db, step: Step, key: (RunId, nat))
    requires step.WorkerStart? && Over(db, key)
    ensures Frozen(db, Apply(db, step), key)
  {
  }

  lemma HeartbeatFreezes(db: Db, step: Step, key: (RunId, nat))
    requires step.WorkerHeartbeat? && Over(db, key)
    ensures Frozen(db, Apply(db, step), key)
  {
  }

  lemma StepFreezes(db: Db, step: Step, key: (RunId, nat))
    requires Enabled(db, step) && Over(db, key)
    ensures Frozen(db, Apply(db, step), key)
  {
    match step
    case RecoverySweep(_, _, _) => SweepFreezes(db, step, key);
    case PrepareMessage(_) => PrepareFreezes(db, step, key);
    case WorkerStart(_, _, _, _, _) => StartFreezes(db, step, key);
    case WorkerHeartbeat(_, _, _, _, _) => HeartbeatFreezes(db, step, key);
    case WorkerComplete(lease, product, at, dbNow, changedAt) => CompleteRows(db, lease, product, at, dbNow, changedAt);
    case WorkerFail(lease, failure, at, dbNow, changedAt) => FailRows(db, lease, failure, at, dbNow, changedAt);
    case _ =>
  }

  /** From any state, an attempt that is over, by expiry or otherwise, never changes again. */
  lemma {:induction false} OverForever(db: Db, steps: seq<Step>, key: (RunId, nat))
    requires Runs(db, steps) && Over(db, key)
    ensures Over(After(db, steps), key) && After(db, steps).attempts[key] == db.attempts[key]
    decreases |steps|
  {
    if steps != [] {
      StepFreezes(db, steps[0], key);
      OverForever(Apply(db, steps[0]), steps[1..], key);
    }
  }

  /** No transaction that presents the lease takes effect. */
  ghost predicate Fenced(db: Db, lease: Lease) {
    && (forall at, dbNow, changedAt, leaseSeconds ::
          HeartbeatTx(db, lease, at, dbNow, changedAt, leaseSeconds).Err?)
    && (forall product, at, dbNow, changedAt :: CompleteTx(db, lease, product, at, dbNow, changedAt).Err?)
    && (forall failure, at, dbNow, changedAt :: FailTx(db, lease, failure, at, dbNow, changedAt).Err?)
  }

  lemma NoLeaseNoEffect(db: Db, lease: Lease)
    requires !Has(db, lease.run, lease.attempt, AttemptRunning)
    ensures Fenced(db, lease)
  {
    forall product, at, dbNow, changedAt ensures CompleteTx(db, lease, product, at, dbNow, changedAt).Err? {
      CompleteRows(db, lease, product, at, dbNow, changedAt);
    }
    forall failure, at, dbNow, changedAt ensures FailTx(db, lease, failure, at, dbNow, changedAt).Err? {
      FailRows(db, lease, failure, at, dbNow, changedAt);
    }
  }

  /** Fencing: once an attempt is over, its lease is refused in every later state, whatever deliveries, workers,
      operators, sweeps and clocks did in between, and whether or not its run is consistent. */
  lemma FencedForever(db: Db, steps: seq<Step>, lease: Lease)
    requires Runs(db, steps) && Over(db, (lease.run, lease.attempt))
    ensures Fenced(After(db, steps), lease)
  {
    OverForever(db, steps, (lease.run, lease.attempt));
    NoLeaseNoEffect(After(db, steps), lease);
  }

  /** A lease of any attempt of a consistent run but the current one is refused as well. */
  lemma OldLeasesAreFenced(db: Db, lease: Lease)
    requires Consistent(db, lease.run) && lease.attempt != db.runs[lease.run].attempt
    ensures Fenced(db, lease)
  {
    NoLeaseNoEffect(db, lease);
  }

  // ---------------------------------------------------------------- how a run moves

  /** How a step other than a worker's completion may change a run. */
  ghost predicate RunMoves(before: Run, after: Run) {
    && after.owner == before.owner
    && after.maxAttempts == before.maxAttempts
    && after.output == before.output
    && after.attempt == before.attempt + Int(before.status != Queued && after.status == Queued)
  }

  lemma OutcomeMoves(db: Db, b: Batches, clock: Clock, id: RunId)
    requires id in db.runs
    requires CancelledInQueue(db, b.queued, id) ==> db.runs[id].status == Queued
    requires Expires(db, b, clock, id) ==> db.runs[id].status in {Preparing, Running, Validating}
    ensures RunMoves(db.runs[id], Outcome(db, b, clock, id))
  {
  }

  lemma SweepMoves(db: Db, step: Step, id: RunId)
    requires step.RecoverySweep? && Enabled(db, step) && id in db.runs
    ensures id in Apply(db, step).runs && RunMoves(db.runs[id], Apply(db, step).runs[id])
  {
    SweepOutcome(db, step.sel, step.b, step.clock);
    StatusBefore(db, step.sel, step.b, step.clock, id);
    OutcomeMoves(db, step.b, step.clock, id);
  }

  lemma PrepareMoves(db: Db, step: Step, id: RunId)
    requires step.PrepareMessage? && Enabled(db, step) && id in db.runs
    ensures id in Apply(db, step).runs && RunMoves(db.runs[id], Apply(db, step).runs[id])
  {
    var x := step.x;
    if x.latest == Some(id) {
      if Interrupts(db, x, id) { InterruptRows(db, x, id); } else { QuietRows(db, x, id); }
    } else {
      PrepareTouches(db, x, id);
    }
  }

  lemma FailMoves(db: Db, step: Step, id: RunId)
    requires step.WorkerFail? && id in db.runs
    ensures id in Apply(db, step).runs && RunMoves(db.runs[id], Apply(db, step).runs[id])
  {
    FailRows(db, step.lease, step.failure, step.at, step.dbNow, step.changedAt);
    if step.lease.run == id { FailedRuns(db.runs[id], step.failure, step.changedAt); }
  }

  /** A completion leaves the run or finishes it with the worker's result. */
  lemma CompleteMoves(db: Db, step: Step, id: RunId)
    requires step.WorkerComplete? && id in db.runs
    ensures id in Apply(db, step).runs
    ensures Apply(db, step).runs[id] == db.runs[id]
            || (&& step.lease.run == id && LeaseHolds(db.attempts, step.lease, step.at, step.dbNow)
                && db.runs[id].status == Running && WorkerGuard(db, id).None?
                && Apply(db, step).runs[id] == CompletedRun(db.runs[id], step.product, step.changedAt)
                && Has(Apply(db, step), id, step.lease.attempt, AttemptCompleted))
  {
    CompleteRows(db, step.lease, step.product, step.at, step.dbNow, step.changedAt);
  }

  lemma WorkerMoves(db: Db, step: Step, id: RunId)
    requires (step.WorkerStart? || step.WorkerHeartbeat? || step.WorkerSuppress? || step.OperatorCancel?) && id in db.runs
    ensures id in Apply(db, step).runs && RunMoves(db.runs[id], Apply(db, step).runs[id])
  {
  }

  lemma StepMoves(db: Db, step: Step, id: RunId)
    requires Enabled(db, step) && id in db.runs && !step.WorkerComplete?
    ensures id in Apply(db, step).runs && RunMoves(db.runs[id], Apply(db, step).runs[id])
  {
    match step
    case RecoverySweep(_, _, _) => SweepMoves(db, step, id);
    case PrepareMessage(_) => PrepareMoves(db, step, id);
    case WorkerFail(_, _, _, _, _) => FailMoves(db, step, id);
    case WorkerStart(_, _, _, _, _) => WorkerMoves(db, step, id);
    case WorkerHeartbeat(_, _, _, _, _) => WorkerMoves(db, step, id);
    case WorkerSuppress(_, _) => WorkerMoves(db, step, id);
    case OperatorCancel(_, _, _) => WorkerMoves(db, step, id);
    case _ =>
  }

  /** In every sound state a result appears only by a worker's completion under a lease that holds, on a run
      that is running, and a result once written is never replaced. */
  lemma ResultsAreFinal(db: Db, step: Step, id: RunId)
    requires Sound(db) && Enabled(db, step) && id in db.runs
    requires id in Apply(db, step).runs && Apply(db, step).runs[id].output != db.runs[id].output
    ensures step.WorkerComplete? && step.lease.run == id && LeaseHolds(db.attempts, step.lease, step.at, step.dbNow)
    ensures db.runs[id].output == None && Apply(db, step).runs[id].output == Some(step.product.output)
    ensures db.runs[id].status == Running && Done(Apply(db, step).runs[id].status)
  {
    assert SoundRun(db, id);
    if step.WorkerComplete? { CompleteMoves(db, step, id); } else { StepMoves(db, step, id); }
  }

  /** The result of a consistent run appears only in the transaction that completes its current attempt. */
  lemma ResultsNeedCompletion(db: Db, step: Step, id: RunId)
    requires Enabled(db, step) && Consistent(db, id)
    requires id in Apply(db, step).runs && Apply(db, step).runs[id].output != db.runs[id].output
    ensures step.WorkerComplete? && step.lease == Lease(id, db.runs[id].attempt, step.lease.token)
    ensures LeaseHolds(db.attempts, step.lease, step.at, step.dbNow)
    ensures Has(Apply(db, step), id, db.runs[id].attempt, AttemptCompleted)
    ensures db.runs[id].output == None && Apply(db, step).runs[id].output == Some(step.product.output)
  {
    if step.WorkerComplete? {
      CompleteMoves(db, step, id);
      HolderIsCurrent(db, step.lease, step.at, step.dbNow);
    } else {
      StepMoves(db, step, id);
    }
  }

  /** No step gives a run another owner. */
  lemma OwnerStays(db: Db, step: Step, id: RunId)
    requires Enabled(db, step) && id in db.runs
    ensures id in Apply(db, step).runs && Apply(db, step).runs[id].owner == db.runs[id].owner
  {
    if step.WorkerComplete? { CompleteMoves(db, step, id); } else { StepMoves(db, step, id); }
  }

  lemma {:induction false} PlanRunsAreSafelyPrepared(db: Db, steps: seq<Step>, id: RunId)
    requires Runs(db, steps) && id in After(db, steps).runs && !After(db, steps).runs[id].owner.ForMessage?
    ensures SafelyPrepared(db, steps, id)
    ensures id in db.runs ==> db.runs[id].owner == After(db, steps).runs[id].owner
    decreases |steps|
  {
    if steps != [] {
      PlanRunsAreSafelyPrepared(Apply(db, steps[0]), steps[1..], id);
      if id in db.runs { OwnerStays(db, steps[0], id); }
    }
  }

  /** Plan runs are consistent in every reachable state, unconditionally. */
  lemma PlanRunsAreConsistent(steps: seq<Step>, id: RunId)
    requires Runs(EMPTY, steps) && id in After(EMPTY, steps).runs && !After(EMPTY, steps).runs[id].owner.ForMessage?
    ensures Consistent(After(EMPTY, steps), id)
  {
    PlanRunsAreSafelyPrepared(EMPTY, steps, id);
    EveryReachableRunIsConsistent(steps, id);
  }

  // ---------------------------------------------------------------- retries

  predicate Requeues(db: Db, step: Step, id: RunId) {
    && id in db.runs && id in Apply(db, step).runs
    && db.runs[id].status != Queued && Apply(db, step).runs[id].status == Queued
  }

  /** How often the run went back to the queue. */
  function RequeueCount(db: Db, steps: seq<Step>, id: RunId): nat
    decreases |steps|
  {
    if steps == [] then 0
    else Int(Requeues(db, steps[0], id)) + RequeueCount(Apply(db, steps[0]), steps[1..], id)
  }

  /** A step raises the attempt number by one if it requeues the run, and otherwise keeps it. */
  lemma StepCounts(db: Db, step: Step, id: RunId)
    requires Enabled(db, step) && id in db.runs
    ensures id in Apply(db, step).runs
    ensures Apply(db, step).runs[id].attempt == db.runs[id].attempt + Int(Requeues(db, step, id))
    ensures Apply(db, step).runs[id].maxAttempts == db.runs[id].maxAttempts
  {
    if step.WorkerComplete? { CompleteMoves(db, step, id); } else { StepMoves(db, step, id); }
  }

  /** Retries terminate: over any run of the system, with safe preparations or not, a run of a message or of a plan
      is requeued exactly as often as its attempt number grew, which stays within its maximum. */
  lemma {:induction false} RetriesAreBounded(db: Db, steps: seq<Step>, id: RunId)
    requires Sound(db) && Runs(db, steps) && id in db.runs
    ensures id in After(db, steps).runs
    ensures var last := After(db, steps).runs[id];
            && last.maxAttempts == db.runs[id].maxAttempts
            && RequeueCount(db, steps, id) == last.attempt - db.runs[id].attempt
            && 1 <= db.runs[id].attempt && last.attempt <= last.maxAttempts
    decreases |steps|
  {
    assert SoundRun(db, id);
    if steps != [] {
      StepSound(db, steps[0]);
      StepCounts(db, steps[0], id);
      RetriesAreBounded(Apply(db, steps[0]), steps[1..], id);
    }
  }

  /** The expiry of a current plan run's attempt uses up an attempt or dead-letters the run. */
  lemma ExpiryConsumesAnAttempt(db: Db, clock: Clock, sel: Selection, b: Batches, id: RunId)
    requires Sound(db) && Selected(db, sel, b, clock)
    requires id in db.runs && db.runs[id].owner.ForPlan? && IsCurrent(db, id) && Expires(db, b, clock, id)
    ensures var t, run := Recovered(db, b, clock).db, db.runs[id];
            && id in t.runs
            && if run.attempt == run.maxAttempts then t.runs[id].status == DeadLetter
               else t.runs[id].status == Queued && t.runs[id].attempt == run.attempt + 1
  {
    SweepOutcome(db, sel, b, clock);
    assert SoundRun(db, id);
    assert Recovered(db, b, clock).db.runs[id] == Outcome(db, b, clock, id);
  }

  // ---------------------------------------------------------------- superseded runs

  /** A plan run that no longer owns its phase stores no result and is not put back in the queue by any step:
      not by its worker, whose guard refuses it, and not by a sweep. */
  lemma SupersededIsInert(db: Db, step: Step, id: RunId)
    requires Enabled(db, step) && id in db.runs && db.runs[id].owner.ForPlan? && db.runs[id].owner.role != Standalone
    requires !IsCurrent(db, id)
    ensures id in Apply(db, step).runs && Apply(db, step).runs[id].output == db.runs[id].output
    ensures !Requeues(db, step, id)
  {
    GuardIsCurrent(db, id);
    if step.WorkerComplete? {
      CompleteMoves(db, step, id);
    } else if step.WorkerFail? {
      FailRows(db, step.lease, step.failure, step.at, step.dbNow, step.changedAt);
    } else {
      StepMoves(db, step, id);
      if step.RecoverySweep? { SupersededNeverRequeued(db, step.sel, step.b, step.clock, id); }
      if step.PrepareMessage? { PrepareTouches(db, step.x, id); }
    }
  }

  /** The plan and step rows a worker of a run may change: its own phase's, and those only while it owns it; the links
      between plans, steps and runs stay. */
  ghost predicate KeepsForeignPhases(db: Db, t: Db, id: RunId) {
    && SamePointers(db.plans, t.plans) && SameLatest(db.steps, t.steps)
    && ((t.plans == db.plans && t.steps == db.steps)
        || (id in db.runs && db.runs[id].owner.ForPlan? && (db.runs[id].owner.role == Standalone || IsCurrent(db, id))))
    && (forall p :: p in db.plans && t.plans[p] != db.plans[p] ==>
          id in db.runs && db.runs[id].owner.ForPlan? && db.runs[id].owner.plan == p && db.runs[id].owner.role != Specialist)
    && (forall s :: s in db.steps && t.steps[s] != db.steps[s] ==> id in db.runs && OwnsStep(db, id, s))
  }

  lemma PlanRowChange(db: Db, t: Db, id: RunId, p: PlanId, status: PlanStatus, at: Instant)
    requires id in db.runs && db.runs[id].owner.ForPlan? && db.runs[id].owner.plan == p && db.runs[id].owner.role != Specialist
    requires p in db.plans && (db.runs[id].owner.role == Standalone || IsCurrent(db, id))
    requires t.steps == db.steps && t.plans == db.plans[p := TouchPlan(db.plans[p], status, at)]
    ensures KeepsForeignPhases(db, t, id)
  {
  }

  lemma StepRowChange(db: Db, t: Db, id: RunId, s: StepRowId, row: PlanStep)
    requires OwnsStep(db, id, s) && IsCurrent(db, id) && s in db.steps && row.latestRun == db.steps[s].latestRun
    requires t.plans == db.plans && t.steps == db.steps[s := row]
    ensures KeepsForeignPhases(db, t, id)
  {
  }

  lemma DeliveryKeepsForeign(db: Db, id: RunId, t: Db, product: Product, at: Instant)
    requires id in db.runs && WorkerGuard(db, id).None? && t.plans == db.plans && t.steps == db.steps
    ensures KeepsForeignPhases(db, PhaseDelivered(t, db.runs[id].owner, product, at), id)
  {
    var owner := db.runs[id].owner;
    if owner.ForPlan? && owner.role != Standalone {
      GuardIsCurrent(db, id);
      var after := PhaseDelivered(t, owner, product, at);
      if owner.role == Specialist {
        StepRowChange(db, after, id, owner.step.value, after.steps[owner.step.value]);
      } else {
        PlanRowChange(db, after, id, owner.plan, after.plans[owner.plan].status, at);
      }
    }
  }

  lemma FailedStepKeepsForeign(db: Db, id: RunId, t: Db, retried: bool, f: Failure, at: Instant)
    requires IsCurrent(db, id) && db.runs[id].owner.role == Specialist && t.plans == db.plans && t.steps == db.steps
    ensures KeepsForeignPhases(db, PhaseFailedOrRetried(t, db.runs[id].owner, retried, f.code, f.partial, at), id)
  {
    var owner := db.runs[id].owner;
    var after := PhaseFailedOrRetried(t, owner, retried, f.code, f.partial, at);
    StepRowChange(db, after, id, owner.step.value, after.steps[owner.step.value]);
  }

  lemma FailureKeepsForeign(db: Db, id: RunId, t: Db, retried: bool, f: Failure, at: Instant)
    requires id in db.runs && WorkerGuard(db, id).None? && t.plans == db.plans && t.steps == db.steps
    ensures KeepsForeignPhases(db, PhaseFailedOrRetried(t, db.runs[id].owner, retried, f.code, f.partial, at), id)
  {
    var owner := db.runs[id].owner;
    if owner.ForPlan? {
      if owner.role != Standalone { GuardIsCurrent(db, id); }
      if owner.role == Specialist {
        FailedStepKeepsForeign(db, id, t, retried, f, at);
      } else {
        var status := if retried then db.plans[owner.plan].status else if f.partial then PlanPartial else PlanFailed;
        PlanRowChange(db, PhaseFailedOrRetried(t, owner, retried, f.code, f.partial, at), id, owner.plan, status, at);
      }
    }
  }

  lemma CompletePhase(db: Db, step: Step)
    requires step.WorkerComplete?
    ensures KeepsForeignPhases(db, Apply(db, step), step.lease.run)
  {
    var id := step.lease.run;
    if CompleteTx(db, step.lease, step.product, step.at, step.dbNow, step.changedAt).Ok? {
      var owner := db.runs[id].owner;
      var key := (id, step.lease.attempt);
      var stored := db.(runs := db.runs[id := CompletedRun(db.runs[id], step.product, step.changedAt)],
                        attempts := db.attempts[key := FinishedAttempt(db.attempts[key], AttemptCompleted, None, step.at)],
                        messages := MovedMessages(db.messages, owner, FinalMessage(step.product)));
      DeliveryKeepsForeign(db, id, stored, step.product, step.changedAt);
    }
  }

  lemma FailPhase(db: Db, step: Step)
    requires step.WorkerFail?
    ensures KeepsForeignPhases(db, Apply(db, step), step.lease.run)
  {
    var id, f := step.lease.run, step.failure;
    if FailTx(db, step.lease, f, step.at, step.dbNow, step.changedAt).Ok? {
      var key := (id, step.lease.attempt);
      var run, finished := db.runs[id],
        db.(attempts := db.attempts[key := FinishedAttempt(db.attempts[key], f.status, Some(f.code), step.at)]);
      if run.owner.ForPlan? {
        var request := LegalRecoveryRequested(run.owner.plan, id, run.owner.role, RetryableFailure);
        var retried := Retries(run, f.retryable);
        var stored := finished.(runs := db.runs[id := FailedPlanRun(run, f.code, f.retryable, step.changedAt)],
                                outbox := if retried && !HasPending(db.outbox, request)
                                          then db.outbox + [OutboxEvent(request, Pending)] else db.outbox);
        FailureKeepsForeign(db, id, stored, retried, f, step.changedAt);
      }
    }
  }

  /** A worker's failure or success changes plan and step rows only for a run that owns its phase, and then only
      the row of that phase. */
  lemma WorkersKeepForeignPhases(db: Db, step: Step)
    requires step.WorkerComplete? || step.WorkerFail?
    ensures KeepsForeignPhases(db, Apply(db, step), step.lease.run)
  {
    if step.WorkerComplete? { CompletePhase(db, step); } else { FailPhase(db, step); }
  }
}
