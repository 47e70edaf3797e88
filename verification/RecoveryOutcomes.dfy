/** What one whole sweep makes of each row, in plain statuses, and that work of a crashed worker is taken up again. */
module RecoveryOutcomes {
  import opened Prelude
  import opened AgentRuns
  import opened AgentLeases
  import opened AnalysisRecovery
  import opened RecoveryTheorems
  import opened MessagePreparation
  import PreparationOutcomes

  // ---------------------------------------------------------------- messages

  /** Some listed run of the message had its lease expired. */
  ghost predicate Hit(db: Db, ids: seq<RunId>, clock: Clock, m: MessageId) {
    exists id :: id in ids && RecoversMessageLease(db, id, clock) && db.runs[id].owner == ForMessage(m)
  }

  /** One of them on its last attempt. */
  ghost predicate Spent(db: Db, ids: seq<RunId>, clock: Clock, m: MessageId) {
    exists id :: id in ids && RecoversMessageLease(db, id, clock) && db.runs[id].owner == ForMessage(m)
                 && db.runs[id].attempt >= db.runs[id].maxAttempts
  }

  /** A message on its way to an answer fails with its run; it is given up, failed before or not, when a run is. */
  function MessageAfter(m: Message, hit: bool, spent: bool): Message {
    match m.status
    case QueuedForAnalysis | ContextPrepared | AgentQueued | Analysing =>
      if spent then Message(MessageDeadLetter, Some("AGENT_LEASE_EXPIRED"), m.version + 2)
      else if hit then Message(AnalysisFailed, Some("AGENT_LEASE_EXPIRED"), m.version + 1)
      else m
    case AnalysisFailed => if spent then Message(MessageDeadLetter, Some("AGENT_LEASE_EXPIRED"), m.version + 1) else m
    case _ => m
  }

  lemma MessageStep(s: Sweep, id: RunId, clock: Clock, m: MessageId)
    requires m in s.db.messages
    ensures var t := Perform(s, MessageLease(id), clock).db;
            var hit := RecoversMessageLease(s.db, id, clock) && s.db.runs[id].owner == ForMessage(m);
            var spent := hit && s.db.runs[id].attempt >= s.db.runs[id].maxAttempts;
            m in t.messages && t.messages[m] == MessageAfter(s.db.messages[m], hit, spent)
  {
    if RecoversMessageLease(s.db, id, clock) { MessageLeaseRows(s, id, clock); }
  }

  lemma MessageAfterTwice(m: Message, hit: bool, spent: bool, again: bool, spentAgain: bool)
    requires (spent ==> hit) && (spentAgain ==> again)
    ensures MessageAfter(MessageAfter(m, hit, spent), again, spentAgain) == MessageAfter(m, hit || again, spent || spentAgain)
  {
  }

  lemma HitsAdd(db: Db, front: seq<RunId>, last: RunId, ids: seq<RunId>, clock: Clock, m: MessageId)
    requires ids == front + [last]
    ensures var hit := RecoversMessageLease(db, last, clock) && db.runs[last].owner == ForMessage(m);
            && (Hit(db, ids, clock, m) <==> Hit(db, front, clock, m) || hit)
            && (Spent(db, ids, clock, m) <==> Spent(db, front, clock, m) || (hit && db.runs[last].attempt >= db.runs[last].maxAttempts))
  {
    assert forall id :: id in ids <==> id in front || id == last;
  }

  lemma {:induction false} MessagesAfterLoop(s: Sweep, ids: seq<RunId>, clock: Clock, m: MessageId)
    requires Distinct(ids) && m in s.db.messages
    ensures var t := PerformAll(s, MessageLeaseTasks(ids), clock).db;
            m in t.messages && t.messages[m] == MessageAfter(s.db.messages[m], Hit(s.db, ids, clock, m), Spent(s.db, ids, clock, m))
  {
    if ids != [] {
      var n := |ids| - 1;
      var last := ids[n];
      MessagesAfterLoop(s, ids[..n], clock, m);
      var before := MessageLeaseUndisturbed(s, ids, clock);
      assert ids == ids[..n] + [last] && last !in ids[..n];
      assert last in s.db.runs ==> before.db.runs[last] == MessageLeaseOutcome(s.db, ids[..n], clock, last);
      MessageStep(before, last, clock, m);
      HitsAdd(s.db, ids[..n], last, ids, clock, m);
      var hit := RecoversMessageLease(s.db, last, clock) && s.db.runs[last].owner == ForMessage(m);
      MessageAfterTwice(s.db.messages[m], Hit(s.db, ids[..n], clock, m), Spent(s.db, ids[..n], clock, m), hit,
                        hit && s.db.runs[last].attempt >= s.db.runs[last].maxAttempts);
    }
  }

  /** The loop finds the message runs as they were before the sweep. */
  lemma HitsAsBefore(db: Db, b: Batches, clock: Clock, s3: Db, s4: Db, s5: Db, m: MessageId)
    requires Staged(db, b, clock, s3, s4, s5)
    ensures Hit(s3, b.leases, clock, m) <==> Hit(db, b.leases, clock, m)
    ensures Spent(s3, b.leases, clock, m) <==> Spent(db, b.leases, clock, m)
  {
    forall id | id in db.runs && db.runs[id].owner.ForMessage?
      ensures s3.runs[id] == db.runs[id] && RecoversMessageLease(s3, id, clock) == RecoversMessageLease(db, id, clock)
    {
      SameVerdicts(db, b, clock, s3, s4, s5, id);
    }
  }

  /** Over a whole sweep, whatever the loops find and change, each message ends as its expired runs say. */
  lemma MessagesAfterSweep(db: Db, sel: Selection, b: Batches, clock: Clock, m: MessageId)
    requires Selected(db, sel, b, clock) && m in db.messages
    ensures var t := Recovered(db, b, clock).db;
            m in t.messages && t.messages[m] == MessageAfter(db.messages[m], Hit(db, b.leases, clock, m), Spent(db, b.leases, clock, m))
  {
    BatchFacts(db, sel, b, clock);
    var s3, s4, s5 := Stages(db, sel, b, clock);
    var t3, t4 := AfterStalePlanRuns(db, b, clock), AfterMessageLeases(db, b, clock);
    MessagesAfterLoop(t3, b.leases, clock, m);
    PlanLeasesOutcome(t4, b.legal, clock);
    HitsAsBefore(db, b, clock, s3, s4, s5, m);
  }

  /** The message of a run whose lease the sweep found expired, with attempts to spare. */
  ghost predicate Crashed(db: Db, b: Batches, clock: Clock, id: RunId, m: MessageId) {
    && ExpiredByMessageLoop(db, b, clock, id) && db.runs[id].owner == ForMessage(m)
    && db.runs[id].attempt < db.runs[id].maxAttempts && m in db.messages
  }

  lemma CrashedRun(db: Db, sel: Selection, b: Batches, clock: Clock, id: RunId, m: MessageId)
    requires Selected(db, sel, b, clock) && Crashed(db, b, clock, id, m)
    ensures var t := Recovered(db, b, clock).db;
            && id in t.runs && t.runs[id].owner == ForMessage(m) && t.runs[id].status == Failed
            && t.runs[id].attempt == db.runs[id].attempt && t.runs[id].maxAttempts == db.runs[id].maxAttempts
  {
    SweepOutcome(db, sel, b, clock);
    assert Recovered(db, b, clock).db.runs[id] == Outcome(db, b, clock, id);
  }

  /** The delivery requeues the run under this number and hands its message to the agent. */
  ghost predicate TakenUp(t: Db, x: Preparation, id: RunId, attempt: nat)
    requires Listed(t, x)
  {
    PrepareTx(t, x).Ok? &&
    var (db, outcome) := (PrepareTx(t, x).value.db, PrepareTx(t, x).value.outcome);
    && outcome == PreparationOutcome.Requeued(id)
    && id in db.runs && db.runs[id].status == Queued && db.runs[id].attempt == attempt
    && x.message in db.messages && db.messages[x.message].status == AgentQueued
  }

  /** The delivery that the sweep asks for takes the run up again under its next number, exactly unless the message
      cannot be analysed at all. */
  lemma CrashedRunIsRetried(db: Db, sel: Selection, b: Batches, clock: Clock, id: RunId, x: Preparation)
    requires Selected(db, sel, b, clock) && Crashed(db, b, clock, id, x.message)
    requires x.latest == Some(id) && !x.suppressed && !x.force && x.candidate.None? && db.messages[x.message].status != Ignored
    ensures Listed(Recovered(db, b, clock).db, x)
    ensures TakenUp(Recovered(db, b, clock).db, x, id, db.runs[id].attempt + 1)
            <==> db.messages[x.message].status != AgentRuns.Unsupported
  {
    CrashedRun(db, sel, b, clock, id, x.message);
    CrashedMessage(db, sel, b, clock, id, x.message);
    FailedRunIsRetried(Recovered(db, b, clock).db, id, x);
  }

  lemma CrashedMessage(db: Db, sel: Selection, b: Batches, clock: Clock, id: RunId, m: MessageId)
    requires Selected(db, sel, b, clock) && Crashed(db, b, clock, id, m) && db.messages[m].status != Ignored
    ensures var t := Recovered(db, b, clock).db;
            && m in t.messages
            && t.messages[m].status in {Received, CandidateCreated, AnalysisFailed, MessageDeadLetter, AgentRuns.Unsupported}
            && (t.messages[m].status == AgentRuns.Unsupported <==> db.messages[m].status == AgentRuns.Unsupported)
  {
    MessagesAfterSweep(db, sel, b, clock, m);
  }

  lemma FailedRunIsRetried(t: Db, id: RunId, x: Preparation)
    requires id in t.runs && t.runs[id].owner == ForMessage(x.message) && t.runs[id].status == Failed
    requires t.runs[id].attempt < t.runs[id].maxAttempts && x.message in t.messages
    requires t.messages[x.message].status in
             {Received, CandidateCreated, AnalysisFailed, MessageDeadLetter, AgentRuns.Unsupported}
    requires x.latest == Some(id) && !x.suppressed && !x.force && x.candidate.None?
    ensures Listed(t, x)
    ensures TakenUp(t, x, id, t.runs[id].attempt + 1) <==> t.messages[x.message].status != AgentRuns.Unsupported
  {
    PreparationOutcomes.AnsweredExactly(t, x, PreparationOutcome.Requeued(id));
    if PrepareTx(t, x).Ok? { PreparationOutcomes.AnswerLeaves(t, x); }
  }

  // ---------------------------------------------------------------- runs and attempts

  /** The row of a run before and after: only these columns, and the stamps, may differ. */
  ghost predicate RunEnds(before: Run, after: Run, status: RunStatus, attempt: nat, failure: Option<string>, worker: Option<string>,
                          finishedAt: Option<Instant>, now: Instant, version: nat)
  {
    after == before.(status := status, attempt := attempt, failure := failure, worker := worker, finishedAt := finishedAt,
                     leaseExpiresAt := None, updatedAt := now, version := version)
  }

  /** Each run after the sweep: cancelled if it lost its phase, requeued or failed with attempts to spare, given up without. */
  lemma RunsAfterSweep(db: Db, sel: Selection, b: Batches, clock: Clock, id: RunId)
    requires Selected(db, sel, b, clock) && id in db.runs
    ensures id in Recovered(db, b, clock).db.runs
    ensures var r, t := db.runs[id], Recovered(db, b, clock).db.runs[id];
            if CancelledInQueue(db, b.queued, id) || (ExpiredByPlanLoop(db, b, clock, id) && !IsCurrent(db, id)) then
              RunEnds(r, t, Cancelled, r.attempt, Some("AGENT_RUN_SUPERSEDED"), None, Some(clock.now), clock.now, r.version + 1)
            else if !Expires(db, b, clock, id) then t == r
            else if r.attempt >= r.maxAttempts then
              RunEnds(r, t, DeadLetter, r.attempt, Some("AGENT_LEASE_EXPIRED"), r.worker, Some(clock.now), clock.now, r.version + 2)
            else if r.owner.ForMessage? then
              RunEnds(r, t, Failed, r.attempt, Some("AGENT_LEASE_EXPIRED"), r.worker, Some(clock.now), clock.now, r.version + 1)
            else
              RunEnds(r, t, Queued, r.attempt + 1, None, None, None, clock.now, r.version + 2)
  {
    SweepOutcome(db, sel, b, clock);
    OutcomeInFull(db, b, clock, id);
  }

  lemma OutcomeInFull(db: Db, b: Batches, clock: Clock, id: RunId)
    requires id in db.runs
    ensures var r, t := db.runs[id], Outcome(db, b, clock, id);
            if CancelledInQueue(db, b.queued, id) || (ExpiredByPlanLoop(db, b, clock, id) && !IsCurrent(db, id)) then
              RunEnds(r, t, Cancelled, r.attempt, Some("AGENT_RUN_SUPERSEDED"), None, Some(clock.now), clock.now, r.version + 1)
            else if !Expires(db, b, clock, id) then t == r
            else if r.attempt >= r.maxAttempts then
              RunEnds(r, t, DeadLetter, r.attempt, Some("AGENT_LEASE_EXPIRED"), r.worker, Some(clock.now), clock.now, r.version + 2)
            else if r.owner.ForMessage? then
              RunEnds(r, t, Failed, r.attempt, Some("AGENT_LEASE_EXPIRED"), r.worker, Some(clock.now), clock.now, r.version + 1)
            else
              RunEnds(r, t, Queued, r.attempt + 1, None, None, None, clock.now, r.version + 2)
  {
  }

  /** Each attempt after the sweep: the current one of an expired run ends, at the clock of its own expiry. */
  lemma AttemptsAfterSweep(db: Db, sel: Selection, b: Batches, clock: Clock, key: (RunId, nat))
    requires Selected(db, sel, b, clock) && key in db.attempts && key.0 in db.runs
    ensures key in Recovered(db, b, clock).db.attempts
    ensures Recovered(db, b, clock).db.attempts[key] ==
            if Expires(db, b, clock, key.0) && key.1 == db.runs[key.0].attempt then
              db.attempts[key].(status := AttemptExpired, finishedAt := Some(clock.At(key.0)), leaseExpiresAt := clock.At(key.0),
                                failure := Some("AGENT_LEASE_EXPIRED"))
            else db.attempts[key]
  {
    SweepOutcome(db, sel, b, clock);
  }

  // ---------------------------------------------------------------- who is recovered

  /** Nothing protects the run any more: not its own lease column, and its attempt still runs under a lease that is over. */
  predicate Abandoned(db: Db, clock: Clock, id: RunId) {
    && id in db.runs
    && (db.runs[id].leaseExpiresAt.Some? ==> db.runs[id].leaseExpiresAt.value <= clock.now)
    && var key := (id, db.runs[id].attempt);
       key in db.attempts && db.attempts[key].status == AttemptRunning && db.attempts[key].leaseExpiresAt <= clock.At(id)
  }

  /** A sweep expires exactly the listed runs that are abandoned and have somebody to tell; a run cancelled in the queue
      is none of them. */
  lemma ExpiresExactly(db: Db, b: Batches, clock: Clock, id: RunId)
    requires id in db.runs
    ensures var owner := db.runs[id].owner;
            Expires(db, b, clock, id) <==>
            Abandoned(db, clock, id) &&
            match owner
            case ForMessage(m) => id in b.leases && m in db.messages
            case ForPlan(_, _, _) => id in b.legal && (id in b.queued ==> IsCurrent(db, id))
            case Unowned => false
  {
  }

  /** Without a sign of life since the cutoff, and not locked by anybody. */
  predicate Silent(db: Db, sel: Selection, id: RunId) {
    && id in db.runs && id !in sel.lockedRuns
    && (match db.runs[id].heartbeatAt case Some(beat) => beat < sel.cutoff case None => db.runs[id].updatedAt < sel.cutoff)
  }

  /** No crashed worker is missed: a sweep with room in its batches expires every started run that is silent and
      abandoned. */
  lemma AbandonedIsRecovered(db: Db, sel: Selection, b: Batches, clock: Clock, id: RunId)
    requires Selected(db, sel, b, clock) && NotFull(sel, b) && Silent(db, sel, id) && Abandoned(db, clock, id)
    requires match db.runs[id].owner
             case ForMessage(m) => m in db.messages && db.runs[id].status in {Preparing, Running}
             case ForPlan(_, _, _) => db.runs[id].status in {Preparing, Running, Validating}
             case Unowned => false
    ensures Expires(db, b, clock, id)
  {
    if id in b.queued { QueuedBefore(db, sel, b, clock, id); }
    ExpiresExactly(db, b, clock, id);
    if !Expires(db, b, clock, id) {
      if db.runs[id].owner.ForMessage? {
        UntouchedLease(db, sel, b, clock, id);
      } else {
        UntouchedListed(db, sel, b, clock, id);
      }
    }
  }

  lemma QueuedIsSilent(db: Db, sel: Selection, b: Batches, clock: Clock, id: RunId)
    requires Selected(db, sel, b, clock) && id in db.runs && id in b.queued
    ensures Silent(db, sel, id)
  {
    MessagesOutcome(Sweep(db, Counts(0, 0, 0, 0, 0)), b.messages, clock);
    assert Stale(AfterMessages(db, b, clock).db, {Queued}, sel, id);
  }

  lemma LeasedIsSilent(db: Db, sel: Selection, b: Batches, clock: Clock, s3: Db, s4: Db, s5: Db, id: RunId)
    requires Staged(db, b, clock, s3, s4, s5) && Expires(db, b, clock, id) && !CancelledInQueue(db, b.queued, id)
    requires id in b.leases ==> Stale(s3, {Preparing, Running}, sel, id)
    requires id in b.legal ==> Stale(s4, {Preparing, Running, Validating}, sel, id)
    ensures Silent(db, sel, id)
  {
    SameVerdicts(db, b, clock, s3, s4, s5, id);
    assert s4.runs[id] == MessageLeaseOutcome(s3, b.leases, clock, id);
  }

  /** Live work is left alone: a run that is locked, or gave a sign of life since the cutoff, is not touched by a sweep. */
  lemma LiveRunIsLeft(db: Db, sel: Selection, b: Batches, clock: Clock, id: RunId)
    requires Selected(db, sel, b, clock) && id in db.runs && !Silent(db, sel, id)
    ensures id in Recovered(db, b, clock).db.runs && Recovered(db, b, clock).db.runs[id] == db.runs[id]
  {
    SweepOutcome(db, sel, b, clock);
    var s3, s4, s5 := Stages(db, sel, b, clock);
    if id in b.queued { QueuedIsSilent(db, sel, b, clock, id); }
    if Expires(db, b, clock, id) { LeasedIsSilent(db, sel, b, clock, s3, s4, s5, id); }
  }

  /** No queued message is forgotten: one without an active run is asked for by a sweep with room in its batches. */
  lemma QueuedMessageIsAskedFor(db: Db, sel: Selection, b: Batches, clock: Clock, m: MessageId)
    requires Selected(db, sel, b, clock) && NotFull(sel, b)
    requires m in db.messages && db.messages[m].status == QueuedForAnalysis && m !in sel.lockedMessages
    requires forall id :: id in db.runs && db.runs[id].owner == ForMessage(m) ==>
               db.runs[id].status !in {Queued, Preparing, Running, Validating}
    ensures MessageAwaited(Recovered(db, b, clock).db.outbox, m)
  {
    assert QueuedWithoutRun(db, sel, m);
    QueuedWorkKept(db, sel, b, clock);
    PendingIsAwaited(Recovered(db, b, clock).db.outbox, AnalysisRequested(m, MissingActiveRun));
  }

  /** No queued run is forgotten: a silent one is asked for, or cancelled if it lost its phase. */
  lemma QueuedRunIsAskedFor(db: Db, sel: Selection, b: Batches, clock: Clock, id: RunId)
    requires Selected(db, sel, b, clock) && NotFull(sel, b) && Silent(db, sel, id) && db.runs[id].status == Queued
    ensures var t := Recovered(db, b, clock).db;
            match db.runs[id].owner
            case Unowned => true
            case ForMessage(m) => MessageAwaited(t.outbox, m)
            case ForPlan(p, _, _) => if IsCurrent(db, id) then PlanAwaited(t.outbox, p) else id in t.runs && t.runs[id].status == Cancelled
  {
    QueuedIsListed(db, sel, b, clock, id);
    QueuedWorkKept(db, sel, b, clock);
    if !db.runs[id].owner.Unowned? {
      if CancelledInQueue(db, b.queued, id) {
        RunsAfterSweep(db, sel, b, clock, id);
      } else {
        CoveredIsAwaited(db, sel, b, clock, id);
      }
    }
  }

  lemma QueuedIsListed(db: Db, sel: Selection, b: Batches, clock: Clock, id: RunId)
    requires Selected(db, sel, b, clock) && NotFull(sel, b) && Silent(db, sel, id) && db.runs[id].status == Queued
    ensures id in b.queued
  {
    MessagesOutcome(Sweep(db, Counts(0, 0, 0, 0, 0)), b.messages, clock);
    assert Stale(AfterMessages(db, b, clock).db, {Queued}, sel, id);
  }

  lemma CoveredIsAwaited(db: Db, sel: Selection, b: Batches, clock: Clock, id: RunId)
    requires Selected(db, sel, b, clock) && id in db.runs && Covered(Recovered(db, b, clock).db, id)
    ensures var t := Recovered(db, b, clock).db;
            match db.runs[id].owner
            case Unowned => true
            case ForMessage(m) => MessageAwaited(t.outbox, m)
            case ForPlan(p, _, _) => PlanAwaited(t.outbox, p)
  {
    SweepOutcome(db, sel, b, clock);
    var t, owner := Recovered(db, b, clock).db, db.runs[id].owner;
    assert t.runs[id].owner == owner;
    match owner
    case Unowned =>
    case ForMessage(m) => PendingIsAwaited(t.outbox, AnalysisRequested(m, StaleQueuedRun));
    case ForPlan(p, role, _) => PendingIsAwaited(t.outbox, LegalRecoveryRequested(p, id, role, StaleQueuedRun));
  }

  // ---------------------------------------------------------------- plans and steps

  /** Some step of the plan has delivered something. */
  ghost predicate SomeDelivery(db: Db, p: PlanId)
    requires p in db.plans
  {
    exists s :: s in db.plans[p].steps && s in db.steps && (db.steps[s].status == StepCompleted || db.steps[s].status == StepNeedsInformation)
  }

  ghost predicate GivesUp(db: Db, ids: seq<RunId>, clock: Clock, p: PlanId, planning: bool) {
    exists id :: LosesPhase(db, ids, clock, id) && db.runs[id].owner.plan == p && (db.runs[id].owner.role == ButlerPlanning) == planning
  }

  /** A plan that the loop gave up is partial only for a lost specialist or synthesis run, with something delivered when
      the loop began, and failed only for a lost planning run or with nothing delivered now. */
  ghost predicate PlanVerdict(db: Db, ids: seq<RunId>, clock: Clock, t: Db, p: PlanId) {
    p in db.plans && p in t.plans && t.plans[p] != db.plans[p] ==>
      && OnlyStatus(db.plans[p], t.plans[p], clock.now)
      && PlanCause(db, ids, clock, t, p)
  }

  /** Nothing but the status, and the stamps of a change at this time, differs. */
  predicate OnlyStatus(before: Plan, after: Plan, now: Instant) {
    after == before.(status := after.status, updatedAt := now, version := after.version) && after.version > before.version
  }

  ghost predicate PlanCause(db: Db, ids: seq<RunId>, clock: Clock, t: Db, p: PlanId)
    requires p in db.plans && p in t.plans
  {
    || (t.plans[p].status == PlanPartial && SomeDelivery(db, p) && GivesUp(db, ids, clock, p, false))
    || (t.plans[p].status == PlanFailed && (GivesUp(db, ids, clock, p, true) || !SomeDelivery(t, p)))
  }

  /** Steps of the loop only ever fail, all for the same reason, and keep their run. */
  ghost predicate StepsOnlyFail(db: Db, t: Db, now: Instant) {
    forall s :: s in t.steps ==>
                  && s in db.steps
                  && (t.steps[s] == db.steps[s] ||
                      (t.steps[s].version > db.steps[s].version &&
                       t.steps[s] == PlanStep(StepFailed, db.steps[s].latestRun, Some("AGENT_MAX_ATTEMPTS_EXHAUSTED"), now, t.steps[s].version)))
  }

  lemma DeliveriesShrink(db: Db, t: Db, p: PlanId, now: Instant)
    requires StepsOnlyFail(db, t, now) && SameLineage(db, t) && p in db.plans && p in t.plans
    ensures SomeDelivery(t, p) ==> SomeDelivery(db, p)
  {
  }

  lemma GivesUpGrows(db: Db, front: seq<RunId>, last: RunId, clock: Clock, p: PlanId, planning: bool)
    ensures GivesUp(db, front, clock, p, planning) ==> GivesUp(db, front + [last], clock, p, planning)
  {
    if GivesUp(db, front, clock, p, planning) {
      var id :| LosesPhase(db, front, clock, id) && db.runs[id].owner.plan == p && (db.runs[id].owner.role == ButlerPlanning) == planning;
      assert LosesPhase(db, front + [last], clock, id);
    }
  }

  lemma VerdictStays(db: Db, front: seq<RunId>, last: RunId, clock: Clock, before: Db, t: Db, p: PlanId)
    requires PlanVerdict(db, front, clock, before, p) && p in before.plans && p in t.plans && t.plans[p] == before.plans[p]
    requires StepsOnlyFail(before, t, clock.now) && SameLineage(before, t)
    ensures PlanVerdict(db, front + [last], clock, t, p)
  {
    GivesUpGrows(db, front, last, clock, p, true);
    GivesUpGrows(db, front, last, clock, p, false);
    DeliveriesShrink(before, t, p, clock.now);
  }

  lemma VerdictGiven(db: Db, front: seq<RunId>, last: RunId, clock: Clock, before: Db, t: Db, p: PlanId)
    requires LosesPhase(db, front + [last], clock, last) && db.runs[last].owner.plan == p && PlanVerdict(db, front, clock, before, p)
    requires p in db.plans && p in before.plans && p in t.plans && FailsPhase(db, before, t, last, clock.now)
    requires StepsOnlyFail(db, before, clock.now) && SameLineage(db, before) && StepsOnlyFail(before, t, clock.now) && SameLineage(before, t)
    ensures PlanVerdict(db, front + [last], clock, t, p)
  {
    DeliveriesShrink(db, before, p, clock.now);
    DeliveriesShrink(before, t, p, clock.now);
    assert Delivered(before, p) <==> SomeDelivery(before, p);
  }

  lemma PlanNext(db: Db, front: seq<RunId>, last: RunId, clock: Clock, before: Sweep, t: Db)
    requires SameLineage(db, before.db) && last !in front && t == Perform(before, PlanLease(last), clock).db
    requires IsCurrent(before.db, last) == IsCurrent(db, last)
    requires RecoversPlanLease(before.db, last, clock) == RecoversPlanLease(db, last, clock)
    requires last in db.runs ==> last in before.db.runs && before.db.runs[last] == db.runs[last]
    requires StepsOnlyFail(db, before.db, clock.now) && forall p :: PlanVerdict(db, front, clock, before.db, p)
    ensures StepsOnlyFail(db, t, clock.now) && forall p :: PlanVerdict(db, front + [last], clock, t, p)
  {
    LeaseFailsSteps(before, last, clock);
    forall p ensures PlanVerdict(db, front + [last], clock, t, p) {
      if p in db.plans && p in before.db.plans && p in t.plans { VerdictNext(db, front, last, clock, before, t, p); }
    }
  }

  lemma LeaseFailsSteps(before: Sweep, last: RunId, clock: Clock)
    ensures var t := Perform(before, PlanLease(last), clock).db; StepsOnlyFail(before.db, t, clock.now) && SameLineage(before.db, t)
  {
    PlanLeasePhase(before, last, clock);
    PerformFrame(before, PlanLease(last), clock);
  }

  lemma VerdictNext(db: Db, front: seq<RunId>, last: RunId, clock: Clock, before: Sweep, t: Db, p: PlanId)
    requires SameLineage(db, before.db) && last !in front && t == Perform(before, PlanLease(last), clock).db
    requires IsCurrent(before.db, last) == IsCurrent(db, last)
    requires RecoversPlanLease(before.db, last, clock) == RecoversPlanLease(db, last, clock)
    requires last in db.runs ==> last in before.db.runs && before.db.runs[last] == db.runs[last]
    requires StepsOnlyFail(db, before.db, clock.now) && PlanVerdict(db, front, clock, before.db, p)
    requires p in db.plans && p in before.db.plans && p in t.plans
    ensures PlanVerdict(db, front + [last], clock, t, p)
  {
    LeaseFailsSteps(before, last, clock);
    PlanLeasePhase(before, last, clock);
    if LosesPhase(db, front + [last], clock, last) && db.runs[last].owner.plan == p {
      VerdictGiven(db, front, last, clock, before.db, t, p);
    } else {
      VerdictStays(db, front, last, clock, before.db, t, p);
    }
  }

  lemma {:induction false} PlansAfterLoop(s: Sweep, ids: seq<RunId>, clock: Clock)
    requires Distinct(ids)
    ensures var t := PerformAll(s, PlanLeaseTasks(ids), clock).db;
            StepsOnlyFail(s.db, t, clock.now) && forall p :: PlanVerdict(s.db, ids, clock, t, p)
  {
    if ids != [] {
      var n := |ids| - 1;
      var last := ids[n];
      PlansAfterLoop(s, ids[..n], clock);
      PlanLeasesOutcome(s, ids[..n], clock);
      var before := PlanLeaseUndisturbed(s, ids, clock);
      assert last !in ids[..n] && ids == ids[..n] + [last];
      assert last in s.db.runs ==> before.db.runs[last] == PlanLeaseOutcome(s.db, ids[..n], clock, last);
      PlanNext(s.db, ids[..n], last, clock, before, PerformAll(s, PlanLeaseTasks(ids), clock).db);
    }
  }

  /** The sweep dead-lettered a run that owned its phase of the plan. */
  ghost predicate LostPhase(db: Db, t: Db, p: PlanId, planning: bool) {
    exists id :: NewlyDead(db, t, id) && IsCurrent(db, id) && db.runs[id].owner.plan == p
                 && (db.runs[id].owner.role == ButlerPlanning) == planning
  }

  lemma LostByLoop(db: Db, b: Batches, clock: Clock, s3: Db, s4: Db, s5: Db, p: PlanId, planning: bool)
    requires Staged(db, b, clock, s3, s4, s5) && GivesUp(s4, b.legal, clock, p, planning)
    ensures LostPhase(db, s5, p, planning)
  {
    var id :| LosesPhase(s4, b.legal, clock, id) && s4.runs[id].owner.plan == p && (s4.runs[id].owner.role == ButlerPlanning) == planning;
    assert id in DeadPlanRuns(s4, b.legal, clock) && id in db.runs;
    LostInPlanLoop(db, b, clock, s3, s4, s5, id);
    SameVerdicts(db, b, clock, s3, s4, s5, id);
  }

  /** As it was, or partial or failed for the phase it lost. */
  ghost predicate PlanSettled(db: Db, t: Db, p: PlanId, now: Instant) {
    p in db.plans && p in t.plans &&
    (|| t.plans[p] == db.plans[p]
     || (&& OnlyStatus(db.plans[p], t.plans[p], now)
         && (|| (t.plans[p].status == PlanPartial && SomeDelivery(db, p) && LostPhase(db, t, p, false))
             || (t.plans[p].status == PlanFailed && (LostPhase(db, t, p, true) || !SomeDelivery(t, p))))))
  }

  lemma VerdictSettles(db: Db, b: Batches, clock: Clock, s3: Db, s4: Db, s5: Db, p: PlanId)
    requires Staged(db, b, clock, s3, s4, s5) && PlanVerdict(s4, b.legal, clock, s5, p)
    requires s4.plans == db.plans && s4.steps == db.steps && p in db.plans && p in s5.plans
    ensures PlanSettled(db, s5, p, clock.now)
  {
    assert SomeDelivery(s4, p) == SomeDelivery(db, p);
    if GivesUp(s4, b.legal, clock, p, false) { LostByLoop(db, b, clock, s3, s4, s5, p, false); }
    if GivesUp(s4, b.legal, clock, p, true) { LostByLoop(db, b, clock, s3, s4, s5, p, true); }
  }

  /** Each plan after the sweep, and each step. */
  lemma PlansAfterSweep(db: Db, sel: Selection, b: Batches, clock: Clock, p: PlanId)
    requires Selected(db, sel, b, clock) && p in db.plans
    ensures PlanSettled(db, Recovered(db, b, clock).db, p, clock.now) && StepsOnlyFail(db, Recovered(db, b, clock).db, clock.now)
  {
    BatchFacts(db, sel, b, clock);
    var s3, s4, s5 := Stages(db, sel, b, clock);
    LeaseLoopKeepsPhases(AfterStalePlanRuns(db, b, clock), b.leases, clock);
    PlansAfterLoop(AfterMessageLeases(db, b, clock), b.legal, clock);
    VerdictSettles(db, b, clock, s3, s4, s5, p);
  }
}
