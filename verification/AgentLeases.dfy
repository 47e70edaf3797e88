/** Claiming, renewing and finishing agent attempts: the worker's transactions, first as functions
    of the database, then as the service that updates a unit of work in place. */
module AgentLeases {
  import opened Prelude
  import opened AgentRuns
  import Text

  /** The three clock readings of `start`: before the claim, inside it, and after it. */
  datatype StartTimes = StartTimes(preparing: Instant, claimed: Instant, running: Instant)

  function Claim(token: Token, worker: string, times: StartTimes, leaseSeconds: int): Attempt {
    Attempt(token, worker, AttemptRunning, times.claimed + leaseSeconds, times.claimed, None, None)
  }

  function StartedRun(run: Run, worker: string, times: StartTimes, leaseSeconds: int): Run {
    var preparing := TransitionTo(run, Preparing, times.preparing)
                     .(worker := Some(worker), leaseExpiresAt := Some(times.preparing + leaseSeconds));
    TransitionTo(preparing, Running,
                 if times.running <= times.preparing then times.preparing + 1 else times.running)
  }

  predicate TokenTaken(attempts: map<(RunId, nat), Attempt>, token: Token) {
    exists key :: key in attempts && attempts[key].token == token
  }

  /** The message of a message run moves on; other runs have none. */
  function MovedMessages(messages: map<MessageId, Message>, owner: Owner, target: MessageStatus): map<MessageId, Message> {
    if owner.ForMessage? && owner.message in messages
    then messages[owner.message := MoveMessage(messages[owner.message], target)] else messages
  }

  /** The message of a message run may make this move. */
  predicate MayMove(messages: map<MessageId, Message>, owner: Owner, target: MessageStatus) {
    owner.ForMessage? ==> owner.message in messages && target in MessageSuccessors(messages[owner.message].status)
  }

  predicate MessageMissing(messages: map<MessageId, Message>, owner: Owner) {
    owner.ForMessage? && owner.message !in messages
  }

  /** Claim a queued run. The unique constraints on (run, attempt) and on the token refuse the
      rest when the unit of work commits. */
  function StartTx(db: Db, id: RunId, worker: string, token: Token, times: StartTimes, leaseSeconds: int)
    : Result<Db, Error>
  {
    if id !in db.runs || MessageMissing(db.messages, db.runs[id].owner) then Err(NotFound)
    else if Preparing !in Successors(db.runs[id].status) then Err(InvalidTransition)
    else if db.runs[id].attempt < 1 || Text.IsBlank(worker) then Err(Validation)
    else if !MayMove(db.messages, db.runs[id].owner, Analysing) then Err(InvalidTransition)
    else if (id, db.runs[id].attempt) in db.attempts || TokenTaken(db.attempts, token) then Err(Conflict)
    else Ok(db.(runs := db.runs[id := StartedRun(db.runs[id], worker, times, leaseSeconds)],
                attempts := db.attempts[(id, db.runs[id].attempt) := Claim(token, worker, times, leaseSeconds)],
                messages := MovedMessages(db.messages, db.runs[id].owner, Analysing)))
  }

  function HeartbeatTx(db: Db, lease: Lease, at: Instant, dbNow: Instant, changedAt: Instant, leaseSeconds: int)
    : Result<Db, Error>
  {
    var key := (lease.run, lease.attempt);
    if lease.run !in db.runs then Err(NotFound)
    else if !LeaseHolds(db.attempts, lease, at, dbNow) then Err(StaleAttempt)
    else if db.runs[lease.run].status !in {Preparing, Running} then Err(InvalidTransition)
    else
      var run := db.runs[lease.run];
      Ok(db.(runs := db.runs[lease.run := run.(leaseExpiresAt := Some(at + leaseSeconds),
                                               heartbeatAt := Some(changedAt),
                                               updatedAt := changedAt,
                                               version := run.version + 1)],
             attempts := db.attempts[key := db.attempts[key].(heartbeatAt := at,
                                                              leaseExpiresAt := at + leaseSeconds)]))
  }

  /** What a worker delivers: the result, whether information is missing, whether a message becomes a
      candidate, and whether some step of a synthesised plan failed. */
  datatype Product = Product(output: Payload, needsInformation: bool, candidate: bool, partial: bool)

  function FinalStatus(owner: Owner, product: Product): RunStatus {
    if !owner.ForMessage? && product.needsInformation then NeedsMoreInformation else Completed
  }

  function FinalMessage(product: Product): MessageStatus {
    if product.candidate then CandidateCreated else Ignored
  }

  /** What a worker checks before it stores anything: its rows exist, and a plan's run still owns its phase. */
  function WorkerGuard(db: Db, id: RunId): Option<Error>
    requires id in db.runs
  {
    match db.runs[id].owner
    case Unowned => Some(NotFound)
    case ForMessage(m) => if m !in db.messages then Some(NotFound) else None
    case ForPlan(p, role, step) =>
      if p !in db.plans then Some(NotFound)
      else match role
        case ButlerPlanning => if db.plans[p].planningRun != Some(id) then Some(StaleAttempt) else None
        case ButlerSynthesis => if db.plans[p].synthesisRun != Some(id) then Some(StaleAttempt) else None
        case Specialist =>
          if step.None? || step.value !in db.plans[p].steps || step.value !in db.steps then Some(NotFound)
          else if db.steps[step.value].latestRun != Some(id) then Some(StaleAttempt) else None
        case Standalone => None
  }

  /** The guard lets exactly the current run of a phase pass. */
  lemma GuardIsCurrent(db: Db, id: RunId)
    requires id in db.runs && db.runs[id].owner.ForPlan? && db.runs[id].owner.role != Standalone
    ensures WorkerGuard(db, id).None? <==> IsCurrent(db, id)
  {
  }

  /** The plan or step row of a phase that delivered. */
  function PhaseDelivered(db: Db, owner: Owner, product: Product, at: Instant): Db {
    if !owner.ForPlan? || owner.plan !in db.plans then db
    else
      var plan := db.plans[owner.plan];
      match owner.role
      case ButlerPlanning => db.(plans := db.plans[owner.plan := TouchPlan(plan, PlanPlanned, at)])
      case ButlerSynthesis =>
        var status := if product.partial then PlanPartial
                      else if product.needsInformation then PlanNeedsInformation else PlanCompleted;
        db.(plans := db.plans[owner.plan := TouchPlan(plan, status, at)])
      case Specialist =>
        if owner.step.None? || owner.step.value !in db.steps then db
        else
          var status := if product.needsInformation then StepNeedsInformation else StepCompleted;
          db.(steps := db.steps[owner.step.value := TouchStep(db.steps[owner.step.value], status, None, at)])
      case Standalone => db
  }

  function TouchPlan(plan: Plan, status: PlanStatus, at: Instant): Plan {
    plan.(status := status, updatedAt := at, version := plan.version + 1)
  }

  function TouchStep(step: PlanStep, status: StepStatus, failure: Option<string>, at: Instant): PlanStep {
    step.(status := status, failure := failure, updatedAt := at, version := step.version + 1)
  }

  /** Finish the attempt, then store the result: the order the lease service insists on. */
  function CompleteTx(db: Db, lease: Lease, product: Product, at: Instant, dbNow: Instant, changedAt: Instant)
    : Result<Db, Error>
  {
    var key := (lease.run, lease.attempt);
    if lease.run !in db.runs then Err(NotFound)
    else if WorkerGuard(db, lease.run).Some? then Err(WorkerGuard(db, lease.run).value)
    else if !LeaseHolds(db.attempts, lease, at, dbNow) then Err(StaleAttempt)
    else if Validating !in Successors(db.runs[lease.run].status) then Err(InvalidTransition)
    else if !MayMove(db.messages, db.runs[lease.run].owner, FinalMessage(product)) then Err(InvalidTransition)
    else
      var owner := db.runs[lease.run].owner;
      Ok(PhaseDelivered(
           db.(runs := db.runs[lease.run := CompletedRun(db.runs[lease.run], product, changedAt)],
               attempts := db.attempts[key := FinishedAttempt(db.attempts[key], AttemptCompleted, None, at)],
               messages := MovedMessages(db.messages, owner, FinalMessage(product))),
           owner, product, changedAt))
  }

  function CompletedRun(run: Run, product: Product, changedAt: Instant): Run {
    var validating := TransitionTo(run.(leaseExpiresAt := None), Validating, changedAt)
                      .(output := Some(product.output), failure := None);
    TransitionTo(validating, FinalStatus(run.owner, product), changedAt)
  }

  predicate HasPending(outbox: seq<OutboxEvent>, request: Request) {
    exists i :: 0 <= i < |outbox| && outbox[i].delivery == Pending && SameAggregate(outbox[i].request, request)
  }

  /** Same event type and same aggregate, whatever the rest of the payload says. */
  predicate SameAggregate(a: Request, b: Request) {
    match (a, b)
    case (AnalysisRequested(m, _), AnalysisRequested(n, _)) => m == n
    case (LegalRecoveryRequested(p, _, _, _), LegalRecoveryRequested(q, _, _, _)) => p == q
    case _ => false
  }

  /** A request for the message, or for the plan, still waits to be delivered. */
  ghost predicate MessageAwaited(outbox: seq<OutboxEvent>, m: MessageId) {
    exists i :: 0 <= i < |outbox| && outbox[i].delivery == Pending && outbox[i].request.AnalysisRequested? && outbox[i].request.message == m
  }

  ghost predicate PlanAwaited(outbox: seq<OutboxEvent>, p: PlanId) {
    exists i :: 0 <= i < |outbox| && outbox[i].delivery == Pending && outbox[i].request.LegalRecoveryRequested? && outbox[i].request.plan == p
  }

  /** Requests wait per message and per plan, whatever their reason. */
  lemma PendingIsAwaited(outbox: seq<OutboxEvent>, request: Request)
    ensures HasPending(outbox, request) <==>
            match request
            case AnalysisRequested(m, _) => MessageAwaited(outbox, m)
            case LegalRecoveryRequested(p, _, _, _) => PlanAwaited(outbox, p)
  {
    forall i | 0 <= i < |outbox|
      ensures SameAggregate(outbox[i].request, request) <==>
              match request
              case AnalysisRequested(m, _) => outbox[i].request.AnalysisRequested? && outbox[i].request.message == m
              case LegalRecoveryRequested(p, _, _, _) => outbox[i].request.LegalRecoveryRequested? && outbox[i].request.plan == p
    {
    }
  }

  /** A message run whose worker failed: the attempt's status, then DeadLetter when it may not retry. */
  function FailedMessageRun(run: Run, status: AttemptStatus, code: string, retryable: bool, changedAt: Instant): Run {
    var target := if status == AttemptTimedOut then TimedOut
                  else if status == AttemptCancelled then Cancelled else Failed;
    var failed := TransitionTo(run.(leaseExpiresAt := None, failure := Some(code)), target, changedAt);
    if target != Cancelled && (!retryable || run.attempt >= run.maxAttempts)
    then TransitionTo(failed, DeadLetter, changedAt)
    else failed
  }

  predicate Retries(run: Run, retryable: bool) {
    retryable && run.attempt < run.maxAttempts
  }

  /** A failed run put back in the queue under its next attempt number. */
  function RequeuedRun(failed: Run, changedAt: Instant): Run {
    TransitionTo(failed.(attempt := failed.attempt + 1), Queued, changedAt)
    .(finishedAt := None, worker := None, failure := None)
  }

  function FailedPlanRun(run: Run, code: string, retryable: bool, changedAt: Instant): Run {
    var failed := TransitionTo(run.(leaseExpiresAt := None, failure := Some(code)), Failed, changedAt);
    if Retries(run, retryable) then RequeuedRun(failed, changedAt)
    else TransitionTo(failed, DeadLetter, changedAt)
  }

  /** The message after its run failed: failed, and dead-lettered when the run is. */
  function FailedMessages(messages: map<MessageId, Message>, owner: Owner, code: string, dead: bool): map<MessageId, Message> {
    if owner.ForMessage? && owner.message in messages then
      var failed := FailMessage(messages[owner.message], AnalysisFailed, code);
      messages[owner.message := if dead then FailMessage(failed, MessageDeadLetter, code) else failed]
    else messages
  }

  /** The plan or step row of a phase whose run failed and was requeued or gave up. */
  function PhaseFailedOrRetried(db: Db, owner: Owner, retried: bool, code: string, partial: bool, at: Instant): Db {
    if !owner.ForPlan? || owner.plan !in db.plans then db
    else if owner.role == Specialist then
      if owner.step.None? || owner.step.value !in db.steps then db
      else
        var step := TouchStep(db.steps[owner.step.value], if retried then StepRunning else StepFailed, Some(code), at);
        db.(steps := db.steps[owner.step.value := step])
    else
      var plan := db.plans[owner.plan];
      var status := if retried then plan.status else if partial then PlanPartial else PlanFailed;
      db.(plans := db.plans[owner.plan := TouchPlan(plan, status, at)])
  }

  /** How a run failed: `partial` says that other steps of a synthesised plan delivered. */
  datatype Failure = Failure(status: AttemptStatus, code: string, retryable: bool, partial: bool)

  function FailRefusal(db: Db, lease: Lease, f: Failure, at: Instant, dbNow: Instant): Option<Error> {
    if f.status !in {AttemptFailed, AttemptTimedOut, AttemptCancelled} then Some(Validation)
    else if lease.run !in db.runs then Some(NotFound)
    else if WorkerGuard(db, lease.run).Some? then WorkerGuard(db, lease.run)
    else if !LeaseHolds(db.attempts, lease, at, dbNow) then Some(StaleAttempt)
    else if Failed !in Successors(db.runs[lease.run].status) then Some(InvalidTransition)
    else if f.status == AttemptTimedOut && db.runs[lease.run].owner.ForMessage?
            && TimedOut !in Successors(db.runs[lease.run].status) then Some(InvalidTransition)
    else if !MayMove(db.messages, db.runs[lease.run].owner, AnalysisFailed) then Some(InvalidTransition)
    else None
  }

  /** The rows of a failed run: its message fails with it, or its phase is retried or fails with it. */
  function FailedRows(db: Db, id: RunId, f: Failure, changedAt: Instant): Db
    requires id in db.runs
  {
    var run := db.runs[id];
    if run.owner.ForPlan? then
      var request := LegalRecoveryRequested(run.owner.plan, id, run.owner.role, RetryableFailure);
      var retried := Retries(run, f.retryable);
      var stored := db.(runs := db.runs[id := FailedPlanRun(run, f.code, f.retryable, changedAt)],
                        outbox := if retried && !HasPending(db.outbox, request)
                                  then db.outbox + [OutboxEvent(request, Pending)] else db.outbox);
      PhaseFailedOrRetried(stored, run.owner, retried, f.code, f.partial, changedAt)
    else
      var next := FailedMessageRun(run, f.status, f.code, f.retryable, changedAt);
      db.(runs := db.runs[id := next],
          messages := FailedMessages(db.messages, run.owner, f.code, next.status == DeadLetter))
  }

  function FailTx(db: Db, lease: Lease, f: Failure, at: Instant, dbNow: Instant, changedAt: Instant): Result<Db, Error> {
    var key := (lease.run, lease.attempt);
    var refusal := FailRefusal(db, lease, f, at, dbNow);
    if refusal.Some? then Err(refusal.value)
    else
      var finished := db.(attempts := db.attempts[key := FinishedAttempt(db.attempts[key], f.status, Some(f.code), at)]);
      Ok(FailedRows(finished, lease.run, f, changedAt))
  }

  /** The rows a unit of work holds; committing publishes them, an error restores them. */
  class Store {
    var runs: map<RunId, Run>
    var attempts: map<(RunId, nat), Attempt>
    var messages: map<MessageId, Message>
    var plans: map<PlanId, Plan>
    var steps: map<StepRowId, PlanStep>
    var outbox: seq<OutboxEvent>
    var audit: seq<AuditEvent>
    var replays: map<string, Replay>

    ghost function State(): Db
      reads this
    {
      Db(runs, attempts, messages, plans, steps, outbox, audit, replays)
    }

    constructor (db: Db)
      ensures State() == db
    {
      runs, attempts, messages, plans := db.runs, db.attempts, db.messages, db.plans;
      steps, outbox, audit, replays := db.steps, db.outbox, db.audit, db.replays;
    }

    method HeartbeatAttempt(lease: Lease, at: Instant, dbNow: Instant, leaseExpiresAt: Instant) returns (held: bool)
      modifies this`attempts
      ensures held == LeaseHolds(old(attempts), lease, at, dbNow)
      ensures !held ==> attempts == old(attempts)
      ensures held ==>
                var key := (lease.run, lease.attempt);
                attempts == old(attempts)[key := old(attempts)[key].(heartbeatAt := at, leaseExpiresAt := leaseExpiresAt)]
    {
      held := LeaseHolds(attempts, lease, at, dbNow);
      if held {
        var key := (lease.run, lease.attempt);
        attempts := attempts[key := attempts[key].(heartbeatAt := at, leaseExpiresAt := leaseExpiresAt)];
      }
    }

    method FinishAttempt(lease: Lease, status: AttemptStatus, failure: Option<string>, at: Instant, dbNow: Instant)
      returns (held: bool)
      modifies this`attempts
      ensures held == LeaseHolds(old(attempts), lease, at, dbNow)
      ensures !held ==> attempts == old(attempts)
      ensures held ==>
                var key := (lease.run, lease.attempt);
                attempts == old(attempts)[key := FinishedAttempt(old(attempts)[key], status, failure, at)]
    {
      held := LeaseHolds(attempts, lease, at, dbNow);
      if held {
        var key := (lease.run, lease.attempt);
        attempts := attempts[key := FinishedAttempt(attempts[key], status, failure, at)];
      }
    }

    method ExpireAttempt(run: RunId, attempt: nat, at: Instant) returns (expired: bool)
      modifies this`attempts
      ensures expired == Expirable(old(attempts), run, attempt, at)
      ensures attempts == if expired then old(attempts)[(run, attempt) := ExpiredAttempt(old(attempts)[(run, attempt)], at)]
                          else old(attempts)
    {
      expired := Expirable(attempts, run, attempt, at);
      if expired {
        attempts := attempts[(run, attempt) := ExpiredAttempt(attempts[(run, attempt)], at)];
      }
    }

    method Start(id: RunId, worker: string, token: Token, times: StartTimes, leaseSeconds: int)
      returns (r: Result<Lease, Error>)
      modifies this
      ensures match StartTx(old(State()), id, worker, token, times, leaseSeconds)
              case Ok(db) => State() == db && r == Ok(Lease(id, old(runs)[id].attempt, token))
              case Err(e) => State() == old(State()) && r == Err(e)
    {
      if id !in runs || MessageMissing(messages, runs[id].owner) { return Err(NotFound); }
      var run := runs[id];
      if Preparing !in Successors(run.status) { return Err(InvalidTransition); }
      run := TransitionTo(run, Preparing, times.preparing).(worker := Some(worker));
      if run.attempt < 1 || Text.IsBlank(worker) { return Err(Validation); }
      if !MayMove(messages, run.owner, Analysing) { return Err(InvalidTransition); }
      var key := (id, run.attempt);
      if key in attempts || TokenTaken(attempts, token) { return Err(Conflict); }
      attempts := attempts[key := Claim(token, worker, times, leaseSeconds)];
      run := run.(leaseExpiresAt := Some(times.preparing + leaseSeconds));
      var runningAt := times.running;
      if runningAt <= times.preparing {
        runningAt := times.preparing + 1;
      }
      run := TransitionTo(run, Running, runningAt);
      messages := MovedMessages(messages, run.owner, Analysing);
      runs := runs[id := run];
      return Ok(Lease(id, run.attempt, token));
    }

    method Heartbeat(lease: Lease, at: Instant, dbNow: Instant, changedAt: Instant, leaseSeconds: int)
      returns (error: Option<Error>)
      modifies this
      ensures Settles(HeartbeatTx(old(State()), lease, at, dbNow, changedAt, leaseSeconds), old(State()), error)
    {
      if lease.run !in runs { return Some(NotFound); }
      var savepoint := attempts;
      var held := HeartbeatAttempt(lease, at, dbNow, at + leaseSeconds);
      if !held { return Some(StaleAttempt); }
      var run := runs[lease.run].(leaseExpiresAt := Some(at + leaseSeconds));
      if run.status !in {Preparing, Running} {
        attempts := savepoint;
        return Some(InvalidTransition);
      }
      runs := runs[lease.run := run.(heartbeatAt := Some(changedAt), updatedAt := changedAt, version := run.version + 1)];
      return None;
    }

    method Complete(lease: Lease, product: Product, at: Instant, dbNow: Instant, changedAt: Instant)
      returns (error: Option<Error>)
      modifies this
      ensures Settles(CompleteTx(old(State()), lease, product, at, dbNow, changedAt), old(State()), error)
    {
      if lease.run !in runs { return Some(NotFound); }
      var refused := CheckWorker(lease.run);
      if refused.Some? { return refused; }
      var savepoint := attempts;
      var held := FinishAttempt(lease, AttemptCompleted, None, at, dbNow);
      if !held { return Some(StaleAttempt); }
      var run := runs[lease.run].(leaseExpiresAt := None);
      if Validating !in Successors(run.status) || !MayMove(messages, run.owner, FinalMessage(product)) {
        attempts := savepoint;
        return Some(InvalidTransition);
      }
      run := TransitionTo(run, Validating, changedAt).(output := Some(product.output), failure := None);
      run := TransitionTo(run, FinalStatus(run.owner, product), changedAt);
      runs := runs[lease.run := run];
      messages := MovedMessages(messages, run.owner, FinalMessage(product));
      DeliverPhase(run.owner, product, changedAt);
      return None;
    }

    /** The rows of the worker's unit of work, and that a plan's run is still current. */
    method CheckWorker(id: RunId) returns (refused: Option<Error>)
      requires id in runs
      ensures refused == WorkerGuard(State(), id)
    {
      match runs[id].owner {
        case Unowned => return Some(NotFound);
        case ForMessage(m) =>
          if m !in messages { return Some(NotFound); }
        case ForPlan(p, role, step) =>
          if p !in plans { return Some(NotFound); }
          var plan := plans[p];
          if role == Specialist {
            if step.None? || step.value !in plan.steps || step.value !in steps { return Some(NotFound); }
            if steps[step.value].latestRun != Some(id) { return Some(StaleAttempt); }
          } else if (role == ButlerPlanning && plan.planningRun != Some(id))
                    || (role == ButlerSynthesis && plan.synthesisRun != Some(id)) {
            return Some(StaleAttempt);
          }
      }
      return None;
    }

    method DeliverPhase(owner: Owner, product: Product, at: Instant)
      modifies this
      ensures State() == PhaseDelivered(old(State()), owner, product, at)
    {
      if owner.ForPlan? && owner.plan in plans {
        if owner.role == ButlerPlanning {
          plans := plans[owner.plan := TouchPlan(plans[owner.plan], PlanPlanned, at)];
        } else if owner.role == ButlerSynthesis {
          var status := if product.partial then PlanPartial
                        else if product.needsInformation then PlanNeedsInformation else PlanCompleted;
          plans := plans[owner.plan := TouchPlan(plans[owner.plan], status, at)];
        } else if owner.role == Specialist && owner.step.Some? && owner.step.value in steps {
          var status := if product.needsInformation then StepNeedsInformation else StepCompleted;
          steps := steps[owner.step.value := TouchStep(steps[owner.step.value], status, None, at)];
        }
      }
    }

    method Fail(lease: Lease, f: Failure, at: Instant, dbNow: Instant, changedAt: Instant)
      returns (error: Option<Error>)
      modifies this
      ensures Settles(FailTx(old(State()), lease, f, at, dbNow, changedAt), old(State()), error)
    {
      if f.status !in {AttemptFailed, AttemptTimedOut, AttemptCancelled} { return Some(Validation); }
      if lease.run !in runs { return Some(NotFound); }
      var refused := CheckWorker(lease.run);
      if refused.Some? { return refused; }
      var savepoint := attempts;
      var held := FinishAttempt(lease, f.status, Some(f.code), at, dbNow);
      if !held { return Some(StaleAttempt); }
      var run := runs[lease.run];
      if Failed !in Successors(run.status)
         || (f.status == AttemptTimedOut && run.owner.ForMessage? && TimedOut !in Successors(run.status))
         || !MayMove(messages, run.owner, AnalysisFailed) {
        attempts := savepoint;
        return Some(InvalidTransition);
      }
      FailRun(lease.run, f, changedAt);
      return None;
    }

    method FailRun(id: RunId, f: Failure, changedAt: Instant)
      requires id in runs
      modifies this
      ensures State() == FailedRows(old(State()), id, f, changedAt)
    {
      var run := runs[id];
      if run.owner.ForPlan? {
        runs := runs[id := FailedPlanRun(run, f.code, f.retryable, changedAt)];
        var retried := Retries(run, f.retryable);
        var request := LegalRecoveryRequested(run.owner.plan, id, run.owner.role, RetryableFailure);
        if retried && !HasPending(outbox, request) {
          outbox := outbox + [OutboxEvent(request, Pending)];
        }
        FailPhase(run.owner, retried, f, changedAt);
      } else {
        var next := FailedMessageRun(run, f.status, f.code, f.retryable, changedAt);
        runs := runs[id := next];
        messages := FailedMessages(messages, run.owner, f.code, next.status == DeadLetter);
      }
    }

    method FailPhase(owner: Owner, retried: bool, f: Failure, at: Instant)
      modifies this
      ensures State() == PhaseFailedOrRetried(old(State()), owner, retried, f.code, f.partial, at)
    {
      if owner.ForPlan? && owner.plan in plans {
        if owner.role == Specialist {
          if owner.step.Some? && owner.step.value in steps {
            steps := steps[owner.step.value :=
              TouchStep(steps[owner.step.value], if retried then StepRunning else StepFailed, Some(f.code), at)];
          }
        } else {
          var plan := plans[owner.plan];
          plans := plans[owner.plan :=
            TouchPlan(plan, if retried then plan.status else if f.partial then PlanPartial else PlanFailed, at)];
        }
      }
    }

    /** The transaction's outcome is the state: the new rows on success, the old ones on error. */
    ghost predicate Settles(tx: Result<Db, Error>, before: Db, error: Option<Error>)
      reads this
    {
      match tx
      case Ok(db) => error == None && State() == db
      case Err(e) => error == Some(e) && State() == before
    }
  }
}
