/** The recovery sweep: every row it touches as a function, then the in-place service. */
module AnalysisRecovery {
  import opened Prelude
  import opened AgentRuns
  import opened AgentLeases

  /** `now` is read once per sweep; expiring one run reads the clock again. */
  datatype Clock = Clock(now: Instant, later: map<RunId, Instant>) {
    function At(id: RunId): Instant {
      if id in later then later[id] else now
    }
  }

  /** One row of one of the sweep's five loops. */
  datatype Task =
    | QueuedMessage(message: MessageId)
    | StaleMessageRun(run: RunId)
    | StalePlanRun(run: RunId)
    | MessageLease(run: RunId)
    | PlanLease(run: RunId)

  datatype Counts = Counts(missing: nat, stale: nat, dead: nat, legal: nat, legalDead: nat)

  datatype Sweep = Sweep(db: Db, counts: Counts)

  function Int(b: bool): nat {
    if b then 1 else 0
  }

  /** Append the event and its audit record, unless one for the same aggregate is pending. */
  function EnsureEvent(db: Db, request: Request): Db {
    if HasPending(db.outbox, request) then db
    else db.(outbox := db.outbox + [OutboxEvent(request, Pending)],
             audit := db.audit + [RecoveryEnqueued(request)])
  }

  function SupersededRun(run: Run, now: Instant): Run {
    TransitionTo(run.(failure := Some(RUN_SUPERSEDED), leaseExpiresAt := None, worker := None), Cancelled, now)
  }

  function CancelSuperseded(db: Db, id: RunId, now: Instant): Db
    requires id in db.runs
  {
    db.(runs := db.runs[id := SupersededRun(db.runs[id], now)],
        audit := db.audit + [RunSuperseded(id, db.runs[id].attempt)])
  }

  function FailedStep(step: PlanStep, now: Instant): PlanStep {
    step.(status := StepFailed, failure := Some(ATTEMPTS_EXHAUSTED), updatedAt := now, version := step.version + 1)
  }

  /** Some step of the plan already delivered. */
  predicate Delivered(db: Db, plan: PlanId)
    requires plan in db.plans
  {
    exists s :: s in db.plans[plan].steps && s in db.steps && db.steps[s].status in {StepCompleted, StepNeedsInformation}
  }

  function FailPlan(db: Db, plan: PlanId, role: Role, now: Instant): Plan
    requires plan in db.plans
  {
    var p := db.plans[plan];
    p.(status := if Delivered(db, plan) && role != ButlerPlanning then PlanPartial else PlanFailed,
       updatedAt := now,
       version := p.version + 1)
  }

  /** Fail the phase a dead-lettered run owned. The plan's steps are read before the run's own step
      is marked failed. */
  function MarkPhaseTerminal(db: Db, id: RunId, now: Instant): (r: Db)
    requires id in db.runs
    ensures r == db.(plans := r.plans, steps := r.steps)
  {
    var run := db.runs[id];
    if !run.owner.ForPlan? || run.owner.plan !in db.plans then db
    else
      var plan := db.plans[run.owner.plan];
      var plans := db.plans[run.owner.plan := FailPlan(db, run.owner.plan, run.owner.role, now)];
      if run.owner.role == Specialist && run.owner.step.Some? then
        var s := run.owner.step.value;
        if s !in plan.steps || s !in db.steps || db.steps[s].latestRun != Some(id) then db
        else db.(plans := plans, steps := db.steps[s := FailedStep(db.steps[s], now)])
      else if (run.owner.role == ButlerPlanning && plan.planningRun != Some(id))
              || (run.owner.role == ButlerSynthesis && plan.synthesisRun != Some(id)) then db
      else db.(plans := plans)
  }

  /** The run's own lease column does not protect it any more. */
  predicate LeaseLapsed(run: Run, now: Instant) {
    run.leaseExpiresAt.None? || run.leaseExpiresAt.value <= now
  }

  function Expire(db: Db, id: RunId, at: Instant): Db
    requires id in db.runs && (id, db.runs[id].attempt) in db.attempts
  {
    var key := (id, db.runs[id].attempt);
    db.(attempts := db.attempts[key := ExpiredAttempt(db.attempts[key], at)])
  }

  function LeaseFailedRun(run: Run, now: Instant): Run {
    TransitionTo(run.(failure := Some(LEASE_EXPIRED), leaseExpiresAt := None), Failed, now)
  }

  /** A message run whose lease expired: failed, and dead-lettered once its attempts are used up. */
  function ExpiredMessageRun(run: Run, now: Instant): Run {
    var failed := LeaseFailedRun(run, now);
    if run.attempt >= run.maxAttempts then TransitionTo(failed, DeadLetter, now) else failed
  }

  function ExpiredMessage(m: Message, exhausted: bool): Message {
    var failed := if AwaitsAnalysis(m.status) then FailMessage(m, AnalysisFailed, LEASE_EXPIRED) else m;
    if exhausted && failed.status == AnalysisFailed then FailMessage(failed, MessageDeadLetter, LEASE_EXPIRED)
    else failed
  }

  /** A plan run whose lease expired: queued under its next attempt, or dead-lettered. */
  function ExpiredPlanRun(run: Run, now: Instant): Run {
    var failed := LeaseFailedRun(run, now);
    if run.attempt >= run.maxAttempts then TransitionTo(failed, DeadLetter, now) else RequeuedRun(failed, now)
  }

  predicate RecoversMessageLease(db: Db, id: RunId, clock: Clock) {
    && id in db.runs
    && db.runs[id].owner.ForMessage?
    && LeaseLapsed(db.runs[id], clock.now)
    && db.runs[id].owner.message in db.messages
    && Expirable(db.attempts, id, db.runs[id].attempt, clock.At(id))
  }

  predicate RecoversPlanLease(db: Db, id: RunId, clock: Clock) {
    && id in db.runs
    && db.runs[id].owner.ForPlan?
    && LeaseLapsed(db.runs[id], clock.now)
    && Expirable(db.attempts, id, db.runs[id].attempt, clock.At(id))
  }

  function ActionOf(created: bool): Action {
    if created then RequeuedAction else AlreadyPendingAction
  }

  /** The attempt, the run and the message, before anything is announced. */
  function FailedForLease(db: Db, id: RunId, clock: Clock): Db
    requires RecoversMessageLease(db, id, clock)
  {
    var run := db.runs[id];
    var m := run.owner.message;
    Expire(db, id, clock.At(id))
    .(runs := db.runs[id := ExpiredMessageRun(run, clock.now)],
      messages := db.messages[m := ExpiredMessage(db.messages[m], run.attempt >= run.maxAttempts)])
  }

  function RecoverMessageLease(s: Sweep, id: RunId, clock: Clock): Sweep
    requires RecoversMessageLease(s.db, id, clock)
  {
    var run := s.db.runs[id];
    var request := AnalysisRequested(run.owner.message, ExpiredLease);
    var created := !HasPending(s.db.outbox, request);
    var saved := FailedForLease(s.db, id, clock);
    if run.attempt >= run.maxAttempts then
      Sweep(saved.(audit := saved.audit + [LeaseRecovered(id, run.attempt, DeadLetteredAction)]),
            s.counts.(dead := s.counts.dead + 1))
    else
      var sent := EnsureEvent(saved, request);
      Sweep(sent.(audit := sent.audit + [LeaseRecovered(id, run.attempt, ActionOf(created))]),
            s.counts.(stale := s.counts.stale + Int(created)))
  }

  /** The attempt and the run, before anything is announced. */
  function RequeuedForLease(db: Db, id: RunId, clock: Clock): Db
    requires RecoversPlanLease(db, id, clock)
  {
    Expire(db, id, clock.At(id)).(runs := db.runs[id := ExpiredPlanRun(db.runs[id], clock.now)])
  }

  /** The current run's attempts are used up: fail its phase. */
  function DeadLetterPhase(saved: Sweep, id: RunId, now: Instant): Sweep
    requires id in saved.db.runs
  {
    var marked := MarkPhaseTerminal(saved.db, id, now);
    Sweep(marked.(audit := marked.audit + [LeaseRecovered(id, saved.db.runs[id].attempt, DeadLetteredAction)]),
          saved.counts.(legalDead := saved.counts.legalDead + 1))
  }

  /** The current run has another attempt: ask for it. */
  function AnnounceRequeue(saved: Sweep, id: RunId): Sweep
    requires id in saved.db.runs && saved.db.runs[id].owner.ForPlan?
  {
    var run := saved.db.runs[id];
    var request := LegalRecoveryRequested(run.owner.plan, id, run.owner.role, ExpiredLease);
    var created := !HasPending(saved.db.outbox, request);
    var sent := EnsureEvent(saved.db, request);
    Sweep(sent.(audit := sent.audit + [LeaseRecovered(id, run.attempt, ActionOf(created))]),
          saved.counts.(legal := saved.counts.legal + Int(created)))
  }

  function RecoverPlanLease(s: Sweep, id: RunId, clock: Clock): Sweep
    requires RecoversPlanLease(s.db, id, clock)
  {
    if !IsCurrent(s.db, id) then
      Sweep(CancelSuperseded(Expire(s.db, id, clock.At(id)), id, clock.now), s.counts)
    else
      var saved := Sweep(RequeuedForLease(s.db, id, clock), s.counts);
      if s.db.runs[id].attempt >= s.db.runs[id].maxAttempts then DeadLetterPhase(saved, id, clock.now)
      else AnnounceRequeue(saved, id)
  }

  function Perform(s: Sweep, task: Task, clock: Clock): Sweep {
    match task
    case QueuedMessage(m) =>
      var request := AnalysisRequested(m, MissingActiveRun);
      Sweep(EnsureEvent(s.db, request),
            s.counts.(missing := s.counts.missing + Int(!HasPending(s.db.outbox, request))))
    case StaleMessageRun(id) =>
      if id !in s.db.runs || !s.db.runs[id].owner.ForMessage? then s
      else
        var request := AnalysisRequested(s.db.runs[id].owner.message, StaleQueuedRun);
        Sweep(EnsureEvent(s.db, request),
              s.counts.(stale := s.counts.stale + Int(!HasPending(s.db.outbox, request))))
    case StalePlanRun(id) =>
      if id !in s.db.runs || !s.db.runs[id].owner.ForPlan? then s
      else if !IsCurrent(s.db, id) then s.(db := CancelSuperseded(s.db, id, clock.now))
      else
        var owner := s.db.runs[id].owner;
        var request := LegalRecoveryRequested(owner.plan, id, owner.role, StaleQueuedRun);
        Sweep(EnsureEvent(s.db, request),
              s.counts.(legal := s.counts.legal + Int(!HasPending(s.db.outbox, request))))
    case MessageLease(id) =>
      if RecoversMessageLease(s.db, id, clock) then RecoverMessageLease(s, id, clock) else s
    case PlanLease(id) =>
      if RecoversPlanLease(s.db, id, clock) then RecoverPlanLease(s, id, clock) else s
  }

  function PerformAll(s: Sweep, tasks: seq<Task>, clock: Clock): Sweep {
    if tasks == [] then s
    else Perform(PerformAll(s, tasks[..|tasks| - 1], clock), tasks[|tasks| - 1], clock)
  }

  lemma PerformAllAppend(s: Sweep, tasks: seq<Task>, task: Task, clock: Clock)
    ensures PerformAll(s, tasks + [task], clock) == Perform(PerformAll(s, tasks, clock), task, clock)
  {
    assert (tasks + [task])[..|tasks|] == tasks;
  }

  /** What one task does to the runs: at most its own row changes. */
  function TaskRuns(db: Db, task: Task, clock: Clock): map<RunId, Run> {
    match task
    case QueuedMessage(_) => db.runs
    case StaleMessageRun(_) => db.runs
    case StalePlanRun(id) =>
      if id in db.runs && db.runs[id].owner.ForPlan? && !IsCurrent(db, id)
      then db.runs[id := SupersededRun(db.runs[id], clock.now)] else db.runs
    case MessageLease(id) =>
      if RecoversMessageLease(db, id, clock)
      then db.runs[id := ExpiredMessageRun(db.runs[id], clock.now)] else db.runs
    case PlanLease(id) =>
      if !RecoversPlanLease(db, id, clock) then db.runs
      else db.runs[id := if IsCurrent(db, id) then ExpiredPlanRun(db.runs[id], clock.now)
                         else SupersededRun(db.runs[id], clock.now)]
  }

  lemma PerformRuns(s: Sweep, task: Task, clock: Clock)
    ensures Perform(s, task, clock).db.runs == TaskRuns(s.db, task, clock)
  {
    match task
    case QueuedMessage(_) =>
    case StaleMessageRun(_) =>
    case StalePlanRun(_) =>
    case MessageLease(id) => if RecoversMessageLease(s.db, id, clock) { MessageLeaseRows(s, id, clock); }
    case PlanLease(id) => if RecoversPlanLease(s.db, id, clock) { PlanLeaseRows(s, id, clock); }
  }

  lemma MessageLeaseRows(s: Sweep, id: RunId, clock: Clock)
    requires RecoversMessageLease(s.db, id, clock)
    ensures var after, run := RecoverMessageLease(s, id, clock).db, s.db.runs[id];
            && after.runs == s.db.runs[id := ExpiredMessageRun(run, clock.now)]
            && after.attempts == Expire(s.db, id, clock.At(id)).attempts
            && after.plans == s.db.plans && after.steps == s.db.steps && after.replays == s.db.replays
            && after.messages == s.db.messages[run.owner.message :=
                 ExpiredMessage(s.db.messages[run.owner.message], run.attempt >= run.maxAttempts)]
            && after.outbox == (if run.attempt >= run.maxAttempts then s.db.outbox
                                else EnsureEvent(s.db, AnalysisRequested(run.owner.message, ExpiredLease)).outbox)
  {
  }

  lemma PlanLeaseRows(s: Sweep, id: RunId, clock: Clock)
    requires RecoversPlanLease(s.db, id, clock)
    ensures var after, run := RecoverPlanLease(s, id, clock).db, s.db.runs[id];
            && after.runs == s.db.runs[id := if IsCurrent(s.db, id) then ExpiredPlanRun(run, clock.now)
                                             else SupersededRun(run, clock.now)]
            && after.attempts == Expire(s.db, id, clock.At(id)).attempts
            && after.messages == s.db.messages && after.replays == s.db.replays
            && after.outbox == (if run.attempt >= run.maxAttempts || !IsCurrent(s.db, id) then s.db.outbox
                                else EnsureEvent(s.db, LegalRecoveryRequested(run.owner.plan, id, run.owner.role, ExpiredLease)).outbox)
  {
    var run := s.db.runs[id];
    if IsCurrent(s.db, id) {
      var saved := Sweep(RequeuedForLease(s.db, id, clock), s.counts);
      if run.attempt >= run.maxAttempts {
        assert RecoverPlanLease(s, id, clock) == DeadLetterPhase(saved, id, clock.now);
      } else {
        assert saved.db.runs[id].owner == run.owner;
        assert RecoverPlanLease(s, id, clock) == AnnounceRequeue(saved, id);
      }
    }
  }

  // ---------------------------------------------------------------- what the sweep selects

  /** Rows the sweep may lock, how many it takes per query, and the update stamps the database keeps of messages. */
  datatype Selection = Selection(cutoff: Instant, limit: nat, lockedRuns: set<RunId>, lockedMessages: set<MessageId>,
                                 stamps: map<MessageId, Instant>)

  function LastSign(run: Run): Instant {
    if run.heartbeatAt.Some? then run.heartbeatAt.value else run.updatedAt
  }

  predicate Stale(db: Db, statuses: set<RunStatus>, sel: Selection, id: RunId) {
    && id in db.runs
    && id !in sel.lockedRuns
    && db.runs[id].status in statuses
    && LastSign(db.runs[id]) < sel.cutoff
  }

  function Age(db: Db, id: RunId): Instant {
    if id in db.runs then db.runs[id].updatedAt else 0
  }

  /** The answer of `list_stale`: the oldest stale rows, at most `limit` of them, by age. */
  ghost predicate StaleBatch(db: Db, statuses: set<RunStatus>, sel: Selection, ids: seq<RunId>) {
    && Distinct(ids)
    && |ids| <= sel.limit
    && (forall id :: id in ids ==> Stale(db, statuses, sel, id))
    && (forall i, j :: 0 <= i < j < |ids| ==> Age(db, ids[i]) <= Age(db, ids[j]))
    && (forall id, rest :: id in ids && rest !in ids && Stale(db, statuses, sel, rest) ==> Age(db, id) <= Age(db, rest))
    && (|ids| < sel.limit ==> forall id :: Stale(db, statuses, sel, id) ==> id in ids)
  }

  predicate QueuedWithoutRun(db: Db, sel: Selection, m: MessageId) {
    && m in db.messages
    && m !in sel.lockedMessages
    && db.messages[m].status == QueuedForAnalysis
    && (forall id :: id in db.runs && db.runs[id].owner == ForMessage(m) ==> !ActiveRun(db.runs[id].status))
  }

  function Stamp(sel: Selection, m: MessageId): Instant {
    if m in sel.stamps then sel.stamps[m] else 0
  }

  /** The answer of `list_queued_without_active_run`: the messages least recently updated, in that order. */
  ghost predicate QueuedBatch(db: Db, sel: Selection, ids: seq<MessageId>) {
    && Distinct(ids)
    && |ids| <= sel.limit
    && (forall m :: m in ids ==> QueuedWithoutRun(db, sel, m))
    && (forall i, j :: 0 <= i < j < |ids| ==> Stamp(sel, ids[i]) <= Stamp(sel, ids[j]))
    && (forall m, rest :: m in ids && rest !in ids && QueuedWithoutRun(db, sel, rest) ==> Stamp(sel, m) <= Stamp(sel, rest))
    && (|ids| < sel.limit ==> forall m :: QueuedWithoutRun(db, sel, m) ==> m in ids)
  }

  datatype Batches = Batches(messages: seq<MessageId>, queued: seq<RunId>, leases: seq<RunId>, legal: seq<RunId>)

  function MessageTasks(ids: seq<MessageId>): seq<Task> { seq(|ids|, i requires 0 <= i < |ids| => QueuedMessage(ids[i])) }
  function StaleMessageTasks(ids: seq<RunId>): seq<Task> { seq(|ids|,
                                                               i requires 0 <= i < |ids| => StaleMessageRun(ids[i])) }
  function StalePlanTasks(ids: seq<RunId>): seq<Task> { seq(|ids|, i requires 0 <= i < |ids| => StalePlanRun(ids[i])) }
  function MessageLeaseTasks(ids: seq<RunId>): seq<Task> { seq(|ids|, i requires 0 <= i < |ids| => MessageLease(ids[i])) }
  function PlanLeaseTasks(ids: seq<RunId>): seq<Task> { seq(|ids|, i requires 0 <= i < |ids| => PlanLease(ids[i])) }

  /** The sweep's state after each of its five loops. */
  function AfterMessages(db: Db, b: Batches, clock: Clock): Sweep {
    PerformAll(Sweep(db, Counts(0, 0, 0, 0, 0)), MessageTasks(b.messages), clock)
  }
  function AfterStaleMessageRuns(db: Db, b: Batches, clock: Clock): Sweep {
    PerformAll(AfterMessages(db, b, clock), StaleMessageTasks(b.queued), clock)
  }
  function AfterStalePlanRuns(db: Db, b: Batches, clock: Clock): Sweep {
    PerformAll(AfterStaleMessageRuns(db, b, clock), StalePlanTasks(b.queued), clock)
  }
  function AfterMessageLeases(db: Db, b: Batches, clock: Clock): Sweep {
    PerformAll(AfterStalePlanRuns(db, b, clock), MessageLeaseTasks(b.leases), clock)
  }
  function Recovered(db: Db, b: Batches, clock: Clock): Sweep {
    PerformAll(AfterMessageLeases(db, b, clock), PlanLeaseTasks(b.legal), clock)
  }

  /** Each query reads what the loops before it wrote. */
  ghost predicate Selected(db: Db, sel: Selection, b: Batches, clock: Clock) {
    && QueuedBatch(db, sel, b.messages)
    && StaleBatch(AfterMessages(db, b, clock).db, {Queued}, sel, b.queued)
    && StaleBatch(AfterStalePlanRuns(db, b, clock).db, {Preparing, Running}, sel, b.leases)
    && StaleBatch(AfterMessageLeases(db, b, clock).db, {Preparing, Running, Validating}, sel, b.legal)
  }

  // ---------------------------------------------------------------- the service

  method ListStale(uow: Store, statuses: set<RunStatus>, sel: Selection) returns (ids: seq<RunId>)
    ensures StaleBatch(uow.State(), statuses, sel, ids)
  {
    ghost var db := uow.State();
    var left := set id | id in uow.runs && id !in sel.lockedRuns && uow.runs[id].status in statuses
                                        && LastSign(uow.runs[id]) < sel.cutoff;
    ids := [];
    while left != {} && |ids| < sel.limit
      invariant |ids| <= sel.limit && Distinct(ids)
      invariant forall id :: Stale(db, statuses, sel, id) <==> id in ids || id in left
      invariant forall id :: id in ids ==> id !in left
      invariant forall i, j :: 0 <= i < j < |ids| ==> Age(db, ids[i]) <= Age(db, ids[j])
      invariant forall id, rest :: id in ids && rest in left ==> Age(db, id) <= Age(db, rest)
      decreases left
    {
      var oldest := Oldest(uow, left);
      ids := ids + [oldest];
      left := left - {oldest};
    }
  }

  method Oldest(uow: Store, ids: set<RunId>) returns (oldest: RunId)
    requires ids != {} && ids <= uow.runs.Keys
    ensures oldest in ids
    ensures forall id :: id in ids ==> uow.runs[oldest].updatedAt <= uow.runs[id].updatedAt
  {
    oldest :| oldest in ids;
    var left := ids - {oldest};
    while left != {}
      invariant oldest in ids && left <= ids
      invariant forall id :: id in ids && id !in left ==> uow.runs[oldest].updatedAt <= uow.runs[id].updatedAt
      decreases left
    {
      var id :| id in left;
      if uow.runs[id].updatedAt < uow.runs[oldest].updatedAt {
        oldest := id;
      }
      left := left - {id};
    }
  }

  method LeastStamped(sel: Selection, ids: set<MessageId>) returns (oldest: MessageId)
    requires ids != {}
    ensures oldest in ids
    ensures forall m :: m in ids ==> Stamp(sel, oldest) <= Stamp(sel, m)
  {
    oldest :| oldest in ids;
    var left := ids - {oldest};
    while left != {}
      invariant oldest in ids && left <= ids
      invariant forall m :: m in ids && m !in left ==> Stamp(sel, oldest) <= Stamp(sel, m)
      decreases left
    {
      var m :| m in left;
      if Stamp(sel, m) < Stamp(sel, oldest) {
        oldest := m;
      }
      left := left - {m};
    }
  }

  method ListQueuedWithoutActiveRun(uow: Store, sel: Selection) returns (ids: seq<MessageId>)
    ensures QueuedBatch(uow.State(), sel, ids)
  {
    ghost var db := uow.State();
    var left := set m | m in uow.messages && m !in sel.lockedMessages && uow.messages[m].status == QueuedForAnalysis
                        && (forall id :: id in uow.runs && uow.runs[id].owner == ForMessage(m) ==> !ActiveRun(uow.runs[id].status));
    ids := [];
    while left != {} && |ids| < sel.limit
      invariant |ids| <= sel.limit && Distinct(ids)
      invariant forall m :: QueuedWithoutRun(db, sel, m) <==> m in ids || m in left
      invariant forall m :: m in ids ==> m !in left
      invariant forall i, j :: 0 <= i < j < |ids| ==> Stamp(sel, ids[i]) <= Stamp(sel, ids[j])
      invariant forall m, rest :: m in ids && rest in left ==> Stamp(sel, m) <= Stamp(sel, rest)
      decreases left
    {
      var oldest := LeastStamped(sel, left);
      ids := ids + [oldest];
      left := left - {oldest};
    }
  }

  method EnsureRecoveryEvent(uow: Store, request: Request) returns (created: bool)
    modifies uow
    ensures created == !HasPending(old(uow.outbox), request)
    ensures uow.State() == EnsureEvent(old(uow.State()), request)
  {
    created := !HasPending(uow.outbox, request);
    if created {
      uow.outbox := uow.outbox + [OutboxEvent(request, Pending)];
      uow.audit := uow.audit + [RecoveryEnqueued(request)];
    }
  }

  method IsCurrentLegalRun(uow: Store, id: RunId) returns (current: bool)
    requires id in uow.runs
    ensures current == IsCurrent(uow.State(), id)
  {
    var owner := uow.runs[id].owner;
    if !owner.ForPlan? || owner.plan !in uow.plans { return false; }
    var plan := uow.plans[owner.plan];
    match owner.role {
      case ButlerPlanning => return plan.planningRun == Some(id);
      case ButlerSynthesis => return plan.synthesisRun == Some(id);
      case Standalone => return false;
      case Specialist =>
        if owner.step.None? || owner.step.value !in plan.steps || owner.step.value !in uow.steps { return false; }
        return uow.steps[owner.step.value].latestRun == Some(id);
    }
  }

  method CancelSupersededLegalRun(uow: Store, id: RunId, now: Instant)
    requires id in uow.runs && Cancelled in Successors(uow.runs[id].status)
    modifies uow
    ensures uow.State() == CancelSuperseded(old(uow.State()), id, now)
  {
    var run := uow.runs[id];
    uow.runs := uow.runs[id := SupersededRun(run, now)];
    uow.audit := uow.audit + [RunSuperseded(id, run.attempt)];
  }

  method MarkLegalPhaseTerminal(uow: Store, id: RunId, now: Instant)
    requires id in uow.runs
    modifies uow
    ensures uow.State() == MarkPhaseTerminal(old(uow.State()), id, now)
  {
    var owner := uow.runs[id].owner;
    if !owner.ForPlan? || owner.plan !in uow.plans { return; }
    var plan := uow.plans[owner.plan];
    var completed := exists s :: s in plan.steps && s in uow.steps
                                 && uow.steps[s].status in {StepCompleted, StepNeedsInformation};
    if owner.role == Specialist && owner.step.Some? {
      var s := owner.step.value;
      if s !in plan.steps || s !in uow.steps || uow.steps[s].latestRun != Some(id) { return; }
      uow.steps := uow.steps[s := FailedStep(uow.steps[s], now)];
    } else if owner.role == ButlerPlanning && plan.planningRun != Some(id) {
      return;
    } else if owner.role == ButlerSynthesis && plan.synthesisRun != Some(id) {
      return;
    }
    var status := if completed && owner.role != ButlerPlanning then PlanPartial else PlanFailed;
    uow.plans := uow.plans[owner.plan := plan.(status := status, updatedAt := now, version := plan.version + 1)];
  }

  /** The status changes a message lease's expiry makes, each of them a legal one. */
  method FailMessageAndRun(uow: Store, id: RunId, m: MessageId, now: Instant)
    requires id in uow.runs && uow.runs[id].status in {Preparing, Running}
    requires m in uow.messages
    modifies uow`runs, uow`messages
    ensures var exhausted := old(uow.runs[id]).attempt >= old(uow.runs[id]).maxAttempts;
            && uow.runs == old(uow.runs)[id := ExpiredMessageRun(old(uow.runs[id]), now)]
            && uow.messages == old(uow.messages)[m := ExpiredMessage(old(uow.messages[m]), exhausted)]
  {
    var run := uow.runs[id].(failure := Some(LEASE_EXPIRED), leaseExpiresAt := None);
    var message := uow.messages[m];
    assert Failed in Successors(run.status);
    run := TransitionTo(run, Failed, now);
    if AwaitsAnalysis(message.status) {
      assert AnalysisFailed in MessageSuccessors(message.status);
      message := FailMessage(message, AnalysisFailed, LEASE_EXPIRED);
    }
    if run.attempt >= run.maxAttempts {
      assert DeadLetter in Successors(run.status);
      run := TransitionTo(run, DeadLetter, now);
      if message.status == AnalysisFailed {
        assert MessageDeadLetter in MessageSuccessors(message.status);
        message := FailMessage(message, MessageDeadLetter, LEASE_EXPIRED);
      }
    }
    uow.runs := uow.runs[id := run];
    uow.messages := uow.messages[m := message];
  }

  /** One message lease. */
  method RecoverOneMessageLease(uow: Store, id: RunId, clock: Clock, counts: Counts) returns (after: Counts)
    requires id in uow.runs && uow.runs[id].status in {Preparing, Running}
    modifies uow
    ensures Sweep(uow.State(), after) == Perform(Sweep(old(uow.State()), counts), MessageLease(id), clock)
  {
    ghost var before := Sweep(uow.State(), counts);
    after := counts;
    var run := uow.runs[id];
    if !run.owner.ForMessage? { return; }
    if run.leaseExpiresAt.Some? && run.leaseExpiresAt.value > clock.now { return; }
    var m := run.owner.message;
    if m !in uow.messages { return; }
    var expired := uow.ExpireAttempt(id, run.attempt, clock.At(id));
    if !expired { return; }
    assert RecoversMessageLease(before.db, id, clock) && uow.State() == Expire(before.db, id, clock.At(id));
    FailMessageAndRun(uow, id, m, clock.now);
    assert uow.State() == FailedForLease(before.db, id, clock);
    var action;
    if run.attempt >= run.maxAttempts {
      after := after.(dead := after.dead + 1);
      action := DeadLetteredAction;
    } else {
      var created := EnsureRecoveryEvent(uow, AnalysisRequested(m, ExpiredLease));
      after := after.(stale := after.stale + Int(created));
      action := ActionOf(created);
    }
    uow.audit := uow.audit + [LeaseRecovered(id, run.attempt, action)];
  }

  method FailAndRequeueRun(uow: Store, id: RunId, now: Instant)
    requires id in uow.runs && uow.runs[id].status in {Preparing, Running, Validating}
    modifies uow`runs
    ensures uow.runs == old(uow.runs)[id := ExpiredPlanRun(old(uow.runs[id]), now)]
  {
    var run := uow.runs[id].(failure := Some(LEASE_EXPIRED), leaseExpiresAt := None);
    assert Failed in Successors(run.status);
    run := TransitionTo(run, Failed, now);
    if run.attempt >= run.maxAttempts {
      assert DeadLetter in Successors(run.status);
      run := TransitionTo(run, DeadLetter, now);
    } else {
      assert Queued in Successors(run.status);
      run := run.(attempt := run.attempt + 1);
      run := TransitionTo(run, Queued, now).(finishedAt := None, worker := None, failure := None);
    }
    uow.runs := uow.runs[id := run];
  }

  method AnnounceDeadLetter(uow: Store, id: RunId, now: Instant, counts: Counts) returns (after: Counts)
    requires id in uow.runs
    modifies uow
    ensures Sweep(uow.State(), after) == DeadLetterPhase(Sweep(old(uow.State()), counts), id, now)
  {
    var attempt := uow.runs[id].attempt;
    MarkLegalPhaseTerminal(uow, id, now);
    after := counts.(legalDead := counts.legalDead + 1);
    uow.audit := uow.audit + [LeaseRecovered(id, attempt, DeadLetteredAction)];
  }

  method AskForNextAttempt(uow: Store, id: RunId, counts: Counts) returns (after: Counts)
    requires id in uow.runs && uow.runs[id].owner.ForPlan?
    modifies uow
    ensures Sweep(uow.State(), after) == AnnounceRequeue(Sweep(old(uow.State()), counts), id)
  {
    var run := uow.runs[id];
    var created := EnsureRecoveryEvent(
      uow, LegalRecoveryRequested(run.owner.plan, id, run.owner.role, ExpiredLease));
    after := counts.(legal := counts.legal + Int(created));
    uow.audit := uow.audit + [LeaseRecovered(id, run.attempt, ActionOf(created))];
  }

  /** One plan lease; superseded runs are cancelled instead of requeued. */
  method RecoverOnePlanLease(uow: Store, id: RunId, clock: Clock, counts: Counts) returns (after: Counts)
    requires id in uow.runs && uow.runs[id].status in {Preparing, Running, Validating}
    modifies uow
    ensures Sweep(uow.State(), after) == Perform(Sweep(old(uow.State()), counts), PlanLease(id), clock)
  {
    ghost var before := Sweep(uow.State(), counts);
    after := counts;
    var run := uow.runs[id];
    if !run.owner.ForPlan? { return; }
    if run.leaseExpiresAt.Some? && run.leaseExpiresAt.value > clock.now { return; }
    var current := IsCurrentLegalRun(uow, id);
    var expired := uow.ExpireAttempt(id, run.attempt, clock.At(id));
    if !expired { return; }
    assert RecoversPlanLease(before.db, id, clock) && uow.State() == Expire(before.db, id, clock.At(id));
    if !current {
      CancelSupersededLegalRun(uow, id, clock.now);
      return;
    }
    FailAndRequeueRun(uow, id, clock.now);
    assert uow.State() == RequeuedForLease(before.db, id, clock);
    if run.attempt >= run.maxAttempts {
      after := AnnounceDeadLetter(uow, id, clock.now, counts);
    } else {
      after := AskForNextAttempt(uow, id, counts);
    }
  }

  lemma TaskPrefix(tasks: seq<Task>, i: nat, s: Sweep, clock: Clock)
    requires i < |tasks|
    ensures PerformAll(s, tasks[..i + 1], clock) == Perform(PerformAll(s, tasks[..i], clock), tasks[i], clock)
  {
    assert tasks[..i + 1][..i] == tasks[..i];
  }

  /** A loop that does the tasks of one list in order. */
  ghost predicate Doing(uow: Store, counts: Counts, start: Sweep, tasks: seq<Task>, done: nat, clock: Clock)
    requires done <= |tasks|
    reads uow
  {
    Sweep(uow.State(), counts) == PerformAll(start, tasks[..done], clock)
  }

  method RequeueMessages(uow: Store, ids: seq<MessageId>, clock: Clock, counts: Counts) returns (after: Counts)
    modifies uow
    ensures Sweep(uow.State(), after) == PerformAll(Sweep(old(uow.State()), counts), MessageTasks(ids), clock)
  {
    after := counts;
    ghost var start, tasks := Sweep(uow.State(), counts), MessageTasks(ids);
    for i := 0 to |ids|
      invariant Doing(uow, after, start, tasks, i, clock)
    {
      TaskPrefix(tasks, i, start, clock);
      var created := EnsureRecoveryEvent(uow, AnalysisRequested(ids[i], MissingActiveRun));
      after := after.(missing := after.missing + Int(created));
    }
    assert tasks[..|ids|] == tasks;
  }

  method RequeueStaleMessageRuns(uow: Store, ids: seq<RunId>, clock: Clock, counts: Counts) returns (after: Counts)
    requires forall id :: id in ids ==> id in uow.runs
    modifies uow
    ensures uow.runs == old(uow.runs)
    ensures Sweep(uow.State(), after) == PerformAll(Sweep(old(uow.State()), counts), StaleMessageTasks(ids), clock)
  {
    after := counts;
    ghost var start, tasks := Sweep(uow.State(), counts), StaleMessageTasks(ids);
    for i := 0 to |ids|
      invariant uow.runs == old(uow.runs)
      invariant Doing(uow, after, start, tasks, i, clock)
    {
      TaskPrefix(tasks, i, start, clock);
      var run := uow.runs[ids[i]];
      if !run.owner.ForMessage? { continue; }
      var created := EnsureRecoveryEvent(uow, AnalysisRequested(run.owner.message, StaleQueuedRun));
      after := after.(stale := after.stale + Int(created));
    }
    assert tasks[..|ids|] == tasks;
  }

  method RequeueStalePlanRuns(uow: Store, ids: seq<RunId>, clock: Clock, counts: Counts) returns (after: Counts)
    requires Distinct(ids)
    requires forall id :: id in ids ==> id in uow.runs && uow.runs[id].status == Queued
    modifies uow
    ensures Sweep(uow.State(), after) == PerformAll(Sweep(old(uow.State()), counts), StalePlanTasks(ids), clock)
  {
    after := counts;
    ghost var start, tasks := Sweep(uow.State(), counts), StalePlanTasks(ids);
    for i := 0 to |ids|
      invariant forall k :: i <= k < |ids| ==> ids[k] in uow.runs && uow.runs[ids[k]].status == Queued
      invariant Doing(uow, after, start, tasks, i, clock)
    {
      TaskPrefix(tasks, i, start, clock);
      var id := ids[i];
      var owner := uow.runs[id].owner;
      if !owner.ForPlan? { continue; }
      var current := IsCurrentLegalRun(uow, id);
      if !current {
        CancelSupersededLegalRun(uow, id, clock.now);
        continue;
      }
      var created := EnsureRecoveryEvent(uow, LegalRecoveryRequested(owner.plan, id, owner.role, StaleQueuedRun));
      after := after.(legal := after.legal + Int(created));
    }
    assert tasks[..|ids|] == tasks;
  }

  lemma PerformKeepsOtherRuns(s: Sweep, task: Task, clock: Clock, id: RunId)
    requires id in s.db.runs
    requires task.QueuedMessage? || task.run != id
    ensures id in Perform(s, task, clock).db.runs && Perform(s, task, clock).db.runs[id] == s.db.runs[id]
  {
    PerformRuns(s, task, clock);
  }

  method RecoverMessageLeases(uow: Store, ids: seq<RunId>, clock: Clock, counts: Counts) returns (after: Counts)
    requires Distinct(ids)
    requires forall id :: id in ids ==> id in uow.runs && uow.runs[id].status in {Preparing, Running}
    modifies uow
    ensures Sweep(uow.State(), after) == PerformAll(Sweep(old(uow.State()), counts), MessageLeaseTasks(ids), clock)
  {
    after := counts;
    ghost var start, tasks := Sweep(uow.State(), counts), MessageLeaseTasks(ids);
    for i := 0 to |ids|
      invariant forall k :: i <= k < |ids| ==> ids[k] in uow.runs && uow.runs[ids[k]].status in {Preparing, Running}
      invariant Doing(uow, after, start, tasks, i, clock)
    {
      TaskPrefix(tasks, i, start, clock);
      forall k | i < k < |ids| { PerformKeepsOtherRuns(Sweep(uow.State(), after), tasks[i], clock, ids[k]); }
      after := RecoverOneMessageLease(uow, ids[i], clock, after);
    }
    assert tasks[..|ids|] == tasks;
  }

  method RecoverPlanLeases(uow: Store, ids: seq<RunId>, clock: Clock, counts: Counts) returns (after: Counts)
    requires Distinct(ids)
    requires forall id :: id in ids ==> id in uow.runs && uow.runs[id].status in {Preparing, Running, Validating}
    modifies uow
    ensures Sweep(uow.State(), after) == PerformAll(Sweep(old(uow.State()), counts), PlanLeaseTasks(ids), clock)
  {
    after := counts;
    ghost var start, tasks := Sweep(uow.State(), counts), PlanLeaseTasks(ids);
    for i := 0 to |ids|
      invariant forall k :: i <= k < |ids| ==>
                  ids[k] in uow.runs && uow.runs[ids[k]].status in {Preparing, Running, Validating}
      invariant Doing(uow, after, start, tasks, i, clock)
    {
      TaskPrefix(tasks, i, start, clock);
      forall k | i < k < |ids| { PerformKeepsOtherRuns(Sweep(uow.State(), after), tasks[i], clock, ids[k]); }
      after := RecoverOnePlanLease(uow, ids[i], clock, after);
    }
    assert tasks[..|ids|] == tasks;
  }

  lemma Assemble(db: Db, sel: Selection, b: Batches, clock: Clock, s1: Sweep, s2: Sweep, s3: Sweep, s4: Sweep, s5: Sweep)
    requires s1 == PerformAll(Sweep(db, Counts(0, 0, 0, 0, 0)), MessageTasks(b.messages), clock)
    requires s2 == PerformAll(s1, StaleMessageTasks(b.queued), clock)
    requires s3 == PerformAll(s2, StalePlanTasks(b.queued), clock)
    requires s4 == PerformAll(s3, MessageLeaseTasks(b.leases), clock)
    requires s5 == PerformAll(s4, PlanLeaseTasks(b.legal), clock)
    requires QueuedBatch(db, sel, b.messages)
    requires StaleBatch(s1.db, {Queued}, sel, b.queued)
    requires StaleBatch(s3.db, {Preparing, Running}, sel, b.leases)
    requires StaleBatch(s4.db, {Preparing, Running, Validating}, sel, b.legal)
    ensures Selected(db, sel, b, clock) && s5 == Recovered(db, b, clock)
  {
    assert AfterMessages(db, b, clock) == s1;
    assert AfterStaleMessageRuns(db, b, clock) == s2;
    assert AfterStalePlanRuns(db, b, clock) == s3;
    assert AfterMessageLeases(db, b, clock) == s4;
    assert Recovered(db, b, clock) == s5;
  }

  /** The first three loops: messages and runs that wait in the queue. */
  method RecoverQueued(uow: Store, clock: Clock, sel: Selection, counts: Counts)
    returns (after: Counts, ghost messages: seq<MessageId>, ghost queued: seq<RunId>, ghost s1: Sweep, ghost s2: Sweep)
    modifies uow
    ensures QueuedBatch(old(uow.State()), sel, messages)
    ensures s1 == PerformAll(Sweep(old(uow.State()), counts), MessageTasks(messages), clock)
    ensures StaleBatch(s1.db, {Queued}, sel, queued)
    ensures s2 == PerformAll(s1, StaleMessageTasks(queued), clock)
    ensures Sweep(uow.State(), after) == PerformAll(s2, StalePlanTasks(queued), clock)
  {
    var ms := ListQueuedWithoutActiveRun(uow, sel);
    after := RequeueMessages(uow, ms, clock, counts);
    s1 := Sweep(uow.State(), after);
    var rs := ListStale(uow, {Queued}, sel);
    assert forall id :: id in rs ==> Stale(s1.db, {Queued}, sel, id);
    after := RequeueStaleMessageRuns(uow, rs, clock, after);
    s2 := Sweep(uow.State(), after);
    after := RequeueStalePlanRuns(uow, rs, clock, after);
    messages, queued := ms, rs;
  }

  /** The last two loops: runs whose worker went silent. */
  method RecoverLeases(uow: Store, clock: Clock, sel: Selection, counts: Counts)
    returns (after: Counts, ghost leases: seq<RunId>, ghost legal: seq<RunId>, ghost s4: Sweep)
    modifies uow
    ensures StaleBatch(old(uow.State()), {Preparing, Running}, sel, leases)
    ensures s4 == PerformAll(Sweep(old(uow.State()), counts), MessageLeaseTasks(leases), clock)
    ensures StaleBatch(s4.db, {Preparing, Running, Validating}, sel, legal)
    ensures Sweep(uow.State(), after) == PerformAll(s4, PlanLeaseTasks(legal), clock)
  {
    var ms := ListStale(uow, {Preparing, Running}, sel);
    assert forall id :: id in ms ==> Stale(uow.State(), {Preparing, Running}, sel, id);
    after := RecoverMessageLeases(uow, ms, clock, counts);
    s4 := Sweep(uow.State(), after);
    var ps := ListStale(uow, {Preparing, Running, Validating}, sel);
    assert forall id :: id in ps ==> Stale(s4.db, {Preparing, Running, Validating}, sel, id);
    after := RecoverPlanLeases(uow, ps, clock, after);
    leases, legal := ms, ps;
  }

  /** One sweep, in one transaction. It raises no illegal status change on any database. */
  method Recover(uow: Store, clock: Clock, sel: Selection) returns (counts: Counts, ghost b: Batches)
    modifies uow
    ensures Selected(old(uow.State()), sel, b, clock)
    ensures Sweep(uow.State(), counts) == Recovered(old(uow.State()), b, clock)
  {
    ghost var db := uow.State();
    ghost var messages, queued, leases, legal, s1, s2, s4;
    counts, messages, queued, s1, s2 := RecoverQueued(uow, clock, sel, Counts(0, 0, 0, 0, 0));
    ghost var s3 := Sweep(uow.State(), counts);
    counts, leases, legal, s4 := RecoverLeases(uow, clock, sel, counts);
    b := Batches(messages, queued, leases, legal);
    Assemble(db, sel, b, clock, s1, s2, s3, s4, Sweep(uow.State(), counts));
  }
}
