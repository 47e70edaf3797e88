/** Agent runs, their fenced attempts, and the rows one unit of work can see. */
module AgentRuns {
  import opened Prelude

  type RunId = nat
  type MessageId = nat
  type PlanId = nat
  type StepRowId = nat
  type Token = nat
  type Instant = int
  type Payload = nat

  datatype RunStatus =
    | Queued | Preparing | Running | Validating
    | Completed | NeedsMoreInformation
    | Failed | TimedOut | Cancelled | DeadLetter

  datatype Role = Standalone | ButlerPlanning | Specialist | ButlerSynthesis

  /** A run belongs to one message, to one phase of a plan, or to neither. */
  datatype Owner =
    | ForMessage(message: MessageId)
    | ForPlan(plan: PlanId, role: Role, step: Option<StepRowId>)
    | Unowned

  datatype Run = Run(
    owner: Owner,
    status: RunStatus,
    attempt: nat,
    maxAttempts: nat,
    startedAt: Option<Instant>,
    heartbeatAt: Option<Instant>,
    updatedAt: Instant,
    finishedAt: Option<Instant>,
    leaseExpiresAt: Option<Instant>,
    worker: Option<string>,
    failure: Option<string>,
    output: Option<Payload>,
    version: nat)

  datatype AttemptStatus =
    | AttemptRunning | AttemptCompleted | AttemptFailed
    | AttemptTimedOut | AttemptCancelled | AttemptExpired

  datatype Attempt = Attempt(
    token: Token,
    worker: string,
    status: AttemptStatus,
    leaseExpiresAt: Instant,
    heartbeatAt: Instant,
    finishedAt: Option<Instant>,
    failure: Option<string>)

  /** What a worker holds after claiming a run. */
  datatype Lease = Lease(run: RunId, attempt: nat, token: Token)

  datatype MessageStatus =
    | Received | QueuedForAnalysis | ContextPrepared | AgentQueued | Analysing
    | CandidateCreated | Ignored | AnalysisFailed | MessageDeadLetter | Unsupported

  datatype Message = Message(status: MessageStatus, failure: Option<string>, version: nat)

  datatype StepStatus =
    | StepPending | StepReady | StepRunning | StepCompleted
    | StepFailed | StepSkipped | StepNeedsInformation

  datatype PlanStep = PlanStep(
    status: StepStatus, latestRun: Option<RunId>, failure: Option<string>, updatedAt: Instant, version: nat)

  datatype PlanStatus =
    | PlanQueued | PlanPlanning | PlanPlanned | PlanRunning | PlanPartial
    | PlanCompleted | PlanFailed | PlanNeedsInformation | PlanCancelled

  datatype Plan = Plan(
    status: PlanStatus,
    planningRun: Option<RunId>,
    synthesisRun: Option<RunId>,
    steps: set<StepRowId>,
    updatedAt: Instant,
    version: nat)

  datatype Reason = MissingActiveRun | StaleQueuedRun | ExpiredLease | RetryableFailure

  /** What an outbox event asks for; the aggregate is the message or the plan. */
  datatype Request =
    | AnalysisRequested(message: MessageId, reason: Reason)
    | LegalRecoveryRequested(plan: PlanId, run: RunId, role: Role, reason: Reason)

  datatype Delivery = Pending | Published | DeadLettered

  datatype OutboxEvent = OutboxEvent(request: Request, delivery: Delivery)

  datatype Action = RequeuedAction | AlreadyPendingAction | DeadLetteredAction

  datatype AuditEvent =
    | RecoveryEnqueued(request: Request)
    | LeaseRecovered(run: RunId, attempt: nat, action: Action)
    | RunSuperseded(run: RunId, attempt: nat)
    | RunCancelled(run: RunId)
    | RunPrepared(run: RunId)
    | RunRequeued(run: RunId, attempt: nat, recovered: bool)
    | AnalysisSuppressed(message: MessageId)

  /** The stored answer of a cancel command: the run it hashed, and the reported status. */
  datatype Replay = Replay(run: RunId, status: RunStatus)

  datatype Db = Db(
    runs: map<RunId, Run>,
    attempts: map<(RunId, nat), Attempt>,
    messages: map<MessageId, Message>,
    plans: map<PlanId, Plan>,
    steps: map<StepRowId, PlanStep>,
    outbox: seq<OutboxEvent>,
    audit: seq<AuditEvent>,
    replays: map<string, Replay>)

  datatype Error = NotFound | StaleAttempt | InvalidTransition | Conflict | Validation

  /** The legal status changes of a run. */
  function Successors(s: RunStatus): set<RunStatus> {
    match s
    case Queued => {Preparing, Cancelled}
    case Preparing => {Running, Failed, Cancelled}
    case Running => {Validating, Failed, TimedOut, Cancelled}
    case Validating => {Completed, NeedsMoreInformation, Failed, Cancelled}
    case Failed => {Queued, DeadLetter}
    case TimedOut => {Queued, DeadLetter}
    case _ => {}
  }

  predicate Finishes(s: RunStatus) {
    s in {Completed, NeedsMoreInformation, Cancelled, DeadLetter, Failed, TimedOut}
  }

  /** The effect of a status change; whether it is legal is `Successors`. */
  function TransitionTo(run: Run, target: RunStatus, at: Instant): Run {
    var first := target == Running && run.startedAt.None?;
    run.(status := target,
         startedAt := if first then Some(at) else run.startedAt,
         heartbeatAt := if first then Some(at) else run.heartbeatAt,
         finishedAt := if Finishes(target) then Some(at) else run.finishedAt,
         updatedAt := at,
         version := run.version + 1)
  }

  function MessageSuccessors(s: MessageStatus): set<MessageStatus> {
    match s
    case Received => {QueuedForAnalysis}
    case QueuedForAnalysis => {ContextPrepared, AnalysisFailed, MessageDeadLetter}
    case ContextPrepared => {AgentQueued, AnalysisFailed}
    case AgentQueued => {Analysing, AnalysisFailed}
    case Analysing => {CandidateCreated, Ignored, AnalysisFailed}
    case AnalysisFailed => {QueuedForAnalysis, MessageDeadLetter}
    case CandidateCreated => {QueuedForAnalysis}
    case Ignored => {QueuedForAnalysis}
    case MessageDeadLetter => {QueuedForAnalysis}
    case Unsupported => {}
  }

  /** Message statuses that an analysis failure moves to AnalysisFailed. */
  predicate AwaitsAnalysis(s: MessageStatus) {
    s in {QueuedForAnalysis, ContextPrepared, AgentQueued, Analysing}
  }

  function MoveMessage(m: Message, target: MessageStatus): Message {
    Message(target, None, m.version + 1)
  }

  function FailMessage(m: Message, target: MessageStatus, code: string): Message {
    Message(target, Some(code), m.version + 1)
  }

  /** The run owns its phase: it is the plan's planning or synthesis run, or its step's latest run. */
  predicate IsCurrent(db: Db, id: RunId) {
    && id in db.runs
    && db.runs[id].owner.ForPlan?
    && var owner := db.runs[id].owner;
       && owner.plan in db.plans
       && var plan := db.plans[owner.plan];
          match owner.role
          case ButlerPlanning => plan.planningRun == Some(id)
          case ButlerSynthesis => plan.synthesisRun == Some(id)
          case Specialist =>
            && owner.step.Some?
            && owner.step.value in plan.steps
            && owner.step.value in db.steps
            && db.steps[owner.step.value].latestRun == Some(id)
          case Standalone => false
  }

  predicate ActiveRun(s: RunStatus) {
    s in {Queued, Preparing, Running, Validating}
  }

  /** Compare-and-set guard of every worker update: the exact lease, still running, and not
      expired by the worker's clock `at` nor by the database's clock `dbNow`. */
  predicate LeaseHolds(attempts: map<(RunId, nat), Attempt>, lease: Lease, at: Instant, dbNow: Instant) {
    var key := (lease.run, lease.attempt);
    && key in attempts
    && attempts[key].token == lease.token
    && attempts[key].status == AttemptRunning
    && attempts[key].leaseExpiresAt > at
    && attempts[key].leaseExpiresAt > dbNow
  }

  /** Compare-and-set guard of expiry. */
  predicate Expirable(attempts: map<(RunId, nat), Attempt>, run: RunId, attempt: nat, at: Instant) {
    var key := (run, attempt);
    && key in attempts
    && attempts[key].status == AttemptRunning
    && attempts[key].leaseExpiresAt <= at
  }

  const LEASE_EXPIRED := "AGENT_LEASE_EXPIRED"
  const RUN_SUPERSEDED := "AGENT_RUN_SUPERSEDED"
  const RUN_CANCELLED := "AGENT_RUNTIME_CANCELLED"
  const START_FAILED := "AGENT_RUNTIME_START_FAILED"
  const MESSAGE_RECALLED := "MESSAGE_RECALLED"
  const ATTEMPTS_EXHAUSTED := "AGENT_MAX_ATTEMPTS_EXHAUSTED"

  function ExpiredAttempt(a: Attempt, at: Instant): Attempt {
    a.(status := AttemptExpired, finishedAt := Some(at), leaseExpiresAt := at, failure := Some(LEASE_EXPIRED))
  }

  function FinishedAttempt(a: Attempt, status: AttemptStatus, failure: Option<string>, at: Instant): Attempt {
    a.(status := status, finishedAt := Some(at), leaseExpiresAt := at, failure := failure)
  }
}
