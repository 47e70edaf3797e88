/** What one recovery sweep guarantees, on every database and every selection of rows. */
module RecoveryTheorems {
  import opened Prelude
  import opened AgentRuns
  import opened AgentLeases
  import opened AnalysisRecovery

  // ---------------------------------------------------------------- frame of a sweep

  ghost predicate SameOwners(a: map<RunId, Run>, b: map<RunId, Run>) {
    a.Keys == b.Keys
    && forall id :: id in a ==> a[id].owner == b[id].owner && a[id].maxAttempts == b[id].maxAttempts
  }

  ghost predicate SamePointers(a: map<PlanId, Plan>, b: map<PlanId, Plan>) {
    a.Keys == b.Keys
    && forall p :: p in a ==>
         a[p].planningRun == b[p].planningRun && a[p].synthesisRun == b[p].synthesisRun && a[p].steps == b[p].steps
  }

  ghost predicate SameLatest(a: map<StepRowId, PlanStep>, b: map<StepRowId, PlanStep>) {
    a.Keys == b.Keys && forall s :: s in a ==> a[s].latestRun == b[s].latestRun
  }

  /** Nothing a sweep does moves a lineage pointer, adds a row or removes one. */
  ghost predicate SameLineage(a: Db, b: Db) {
    && SameOwners(a.runs, b.runs)
    && SamePointers(a.plans, b.plans)
    && SameLatest(a.steps, b.steps)
    && a.attempts.Keys == b.attempts.Keys
    && a.messages.Keys == b.messages.Keys
    && a.replays == b.replays
  }

  lemma SameLineageTransitive(a: Db, b: Db, c: Db)
    requires SameLineage(a, b) && SameLineage(b, c)
    ensures SameLineage(a, c)
  {
  }

  lemma SameCurrent(a: Db, b: Db, id: RunId)
    requires SameLineage(a, b)
    ensures IsCurrent(a, id) == IsCurrent(b, id)
  {
  }

  lemma MarkFrame(db: Db, id: RunId, now: Instant)
    requires id in db.runs
    ensures SamePointers(db.plans, MarkPhaseTerminal(db, id, now).plans)
    ensures SameLatest(db.steps, MarkPhaseTerminal(db, id, now).steps)
  {
  }

  lemma PlanLeasePointers(s: Sweep, id: RunId, clock: Clock)
    requires RecoversPlanLease(s.db, id, clock)
    ensures SamePointers(s.db.plans, RecoverPlanLease(s, id, clock).db.plans)
    ensures SameLatest(s.db.steps, RecoverPlanLease(s, id, clock).db.steps)
  {
    if IsCurrent(s.db, id) {
      var saved := Sweep(RequeuedForLease(s.db, id, clock), s.counts);
      if s.db.runs[id].attempt >= s.db.runs[id].maxAttempts {
        assert RecoverPlanLease(s, id, clock) == DeadLetterPhase(saved, id, clock.now);
        MarkFrame(saved.db, id, clock.now);
      } else {
        assert RecoverPlanLease(s, id, clock) == AnnounceRequeue(saved, id);
      }
    }
  }

  lemma TaskOwners(db: Db, task: Task, clock: Clock)
    ensures SameOwners(db.runs, TaskRuns(db, task, clock))
  {
  }

  lemma PerformFrame(s: Sweep, task: Task, clock: Clock)
    ensures SameLineage(s.db, Perform(s, task, clock).db)
  {
    PerformRuns(s, task, clock);
    TaskOwners(s.db, task, clock);
    PerformOtherFrame(s, task, clock);
  }

  ghost predicate OtherFrame(db: Db, after: Db) {
    && SamePointers(db.plans, after.plans)
    && SameLatest(db.steps, after.steps)
    && db.attempts.Keys == after.attempts.Keys
    && db.messages.Keys == after.messages.Keys
    && db.replays == after.replays
  }

  lemma QueueOtherFrame(s: Sweep, task: Task, clock: Clock)
    requires !task.MessageLease? && !task.PlanLease?
    ensures OtherFrame(s.db, Perform(s, task, clock).db)
  {
    QueueRows(s, task, clock);
  }

  lemma QueueRows(s: Sweep, task: Task, clock: Clock)
    requires !task.MessageLease? && !task.PlanLease?
    ensures var t := Perform(s, task, clock).db; t == s.db.(runs := t.runs, outbox := t.outbox, audit := t.audit)
  {
    match task
    case QueuedMessage(_) =>
    case StaleMessageRun(_) =>
    case StalePlanRun(_) =>
  }

  lemma MessageLeaseOtherFrame(s: Sweep, id: RunId, clock: Clock)
    ensures OtherFrame(s.db, Perform(s, MessageLease(id), clock).db)
  {
    if RecoversMessageLease(s.db, id, clock) { MessageLeaseRows(s, id, clock); }
  }

  lemma PlanLeaseOtherFrame(s: Sweep, id: RunId, clock: Clock)
    ensures OtherFrame(s.db, Perform(s, PlanLease(id), clock).db)
  {
    if RecoversPlanLease(s.db, id, clock) {
      PlanLeaseRows(s, id, clock);
      PlanLeasePointers(s, id, clock);
    }
  }

  lemma PerformOtherFrame(s: Sweep, task: Task, clock: Clock)
    ensures OtherFrame(s.db, Perform(s, task, clock).db)
  {
    match task
    case QueuedMessage(_) => QueueOtherFrame(s, task, clock);
    case StaleMessageRun(_) => QueueOtherFrame(s, task, clock);
    case StalePlanRun(_) => QueueOtherFrame(s, task, clock);
    case MessageLease(id) => MessageLeaseOtherFrame(s, id, clock);
    case PlanLease(id) => PlanLeaseOtherFrame(s, id, clock);
  }

  lemma {:induction false} SweepFrame(s: Sweep, tasks: seq<Task>, clock: Clock)
    ensures SameLineage(s.db, PerformAll(s, tasks, clock).db)
  {
    if tasks != [] {
      SweepFrame(s, tasks[..|tasks| - 1], clock);
      PerformFrame(PerformAll(s, tasks[..|tasks| - 1], clock), tasks[|tasks| - 1], clock);
    }
  }

  // ---------------------------------------------------------------- counters, events and audit

  function Requeued(c: Counts): nat {
    c.missing + c.stale + c.legal
  }

  function Announced(audit: seq<AuditEvent>): seq<Request> {
    if audit == [] then []
    else Announced(audit[..|audit| - 1])
         + (match audit[|audit| - 1] case RecoveryEnqueued(request) => [request] case _ => [])
  }

  function Requests(events: seq<OutboxEvent>): seq<Request> {
    seq(|events|, i requires 0 <= i < |events| => events[i].request)
  }

  /** From `s` to `t`: the outbox only grew, by as many events as the requeue counters did; each new
      event is pending, was announced once in the audit in the same order, and concerns an
      aggregate without a pending event at that moment. */
  ghost predicate Accounts(s: Sweep, t: Sweep) {
    && s.db.outbox <= t.db.outbox
    && Requeued(t.counts) - Requeued(s.counts) == |t.db.outbox| - |s.db.outbox|
    && Announced(t.db.audit) == Announced(s.db.audit) + Requests(t.db.outbox[|s.db.outbox|..])
    && (forall i :: |s.db.outbox| <= i < |t.db.outbox| ==>
          t.db.outbox[i].delivery == Pending && !HasPending(t.db.outbox[..i], t.db.outbox[i].request))
  }

  lemma AccountsTransitive(s: Sweep, t: Sweep, u: Sweep)
    requires Accounts(s, t) && Accounts(t, u)
    ensures Accounts(s, u)
  {
    var a, b, c := s.db.outbox, t.db.outbox, u.db.outbox;
    assert c[|a|..] == b[|a|..] + c[|b|..];
    assert Requests(c[|a|..]) == Requests(b[|a|..]) + Requests(c[|b|..]);
    forall i | |a| <= i < |c|
      ensures c[i].delivery == Pending && !HasPending(c[..i], c[i].request)
    {
      if i < |b| {
        assert c[i] == b[i] && c[..i] == b[..i];
      }
    }
  }

  /** An event that is ensured is counted once, announced once, and nothing else changes. */
  lemma EnsureAccounts(s: Sweep, request: Request, counts: Counts)
    requires Requeued(counts) == Requeued(s.counts) + Int(!HasPending(s.db.outbox, request))
    ensures Accounts(s, Sweep(EnsureEvent(s.db, request), counts))
  {
    var t := EnsureEvent(s.db, request);
    if !HasPending(s.db.outbox, request) {
      assert t.audit[..|t.audit| - 1] == s.db.audit;
      assert t.outbox[..|s.db.outbox|] == s.db.outbox;
      assert t.outbox[|s.db.outbox|..] == [OutboxEvent(request, Pending)];
      assert Requests(t.outbox[|s.db.outbox|..]) == [request];
    } else {
      assert Requests(t.outbox[|s.db.outbox|..]) == [];
    }
  }

  lemma SilentAccounts(s: Sweep, t: Sweep, note: AuditEvent)
    requires t.db.outbox == s.db.outbox && t.db.audit == s.db.audit + [note] && !note.RecoveryEnqueued?
    requires Requeued(t.counts) == Requeued(s.counts)
    ensures Accounts(s, t)
  {
    assert t.db.audit[..|s.db.audit|] == s.db.audit;
    assert Requests(t.db.outbox[|s.db.outbox|..]) == [];
  }

  lemma MessageLeaseAccounts(s: Sweep, id: RunId, clock: Clock)
    requires RecoversMessageLease(s.db, id, clock)
    ensures Accounts(s, RecoverMessageLease(s, id, clock))
  {
    var run := s.db.runs[id];
    var saved := Sweep(FailedForLease(s.db, id, clock), s.counts);
    var after := RecoverMessageLease(s, id, clock);
    if run.attempt >= run.maxAttempts {
      SilentAccounts(s, after, LeaseRecovered(id, run.attempt, DeadLetteredAction));
    } else {
      var request := AnalysisRequested(run.owner.message, ExpiredLease);
      var sent := Sweep(EnsureEvent(saved.db, request), after.counts);
      EnsureAccounts(saved, request, after.counts);
      SilentAccounts(sent, after, LeaseRecovered(id, run.attempt, ActionOf(!HasPending(s.db.outbox, request))));
      AccountsTransitive(saved, sent, after);
    }
  }

  lemma PlanLeaseAccounts(s: Sweep, id: RunId, clock: Clock)
    requires RecoversPlanLease(s.db, id, clock)
    ensures Accounts(s, RecoverPlanLease(s, id, clock))
  {
    var run := s.db.runs[id];
    var after := RecoverPlanLease(s, id, clock);
    if !IsCurrent(s.db, id) {
      SilentAccounts(s, after, RunSuperseded(id, run.attempt));
    } else {
      CurrentPlanLeaseAccounts(s, id, clock);
    }
  }

  lemma CurrentPlanLeaseAccounts(s: Sweep, id: RunId, clock: Clock)
    requires RecoversPlanLease(s.db, id, clock) && IsCurrent(s.db, id)
    ensures Accounts(s, RecoverPlanLease(s, id, clock))
  {
    var run := s.db.runs[id];
    var after := RecoverPlanLease(s, id, clock);
    var saved := Sweep(RequeuedForLease(s.db, id, clock), s.counts);
    if run.attempt >= run.maxAttempts {
      assert after == DeadLetterPhase(saved, id, clock.now);
      SilentAccounts(saved, after, LeaseRecovered(id, saved.db.runs[id].attempt, DeadLetteredAction));
    } else {
      assert after == AnnounceRequeue(saved, id);
      var request := LegalRecoveryRequested(run.owner.plan, id, run.owner.role, ExpiredLease);
      var sent := Sweep(EnsureEvent(saved.db, request), after.counts);
      EnsureAccounts(saved, request, after.counts);
      SilentAccounts(sent, after, LeaseRecovered(id, saved.db.runs[id].attempt, ActionOf(!HasPending(s.db.outbox, request))));
      AccountsTransitive(saved, sent, after);
    }
  }

  lemma PerformAccounts(s: Sweep, task: Task, clock: Clock)
    ensures Accounts(s, Perform(s, task, clock))
  {
    var after := Perform(s, task, clock);
    match task
    case QueuedMessage(m) => EnsureAccounts(s, AnalysisRequested(m, MissingActiveRun), after.counts);
    case StaleMessageRun(id) =>
      if id in s.db.runs && s.db.runs[id].owner.ForMessage? {
        EnsureAccounts(s, AnalysisRequested(s.db.runs[id].owner.message, StaleQueuedRun), after.counts);
      }
    case StalePlanRun(id) =>
      if id in s.db.runs && s.db.runs[id].owner.ForPlan? {
        var owner := s.db.runs[id].owner;
        if IsCurrent(s.db, id) {
          EnsureAccounts(s, LegalRecoveryRequested(owner.plan, id, owner.role, StaleQueuedRun), after.counts);
        } else {
          SilentAccounts(s, after, RunSuperseded(id, s.db.runs[id].attempt));
        }
      }
    case MessageLease(id) => if RecoversMessageLease(s.db, id, clock) { MessageLeaseAccounts(s, id, clock); }
    case PlanLease(id) => if RecoversPlanLease(s.db, id, clock) { PlanLeaseAccounts(s, id, clock); }
  }

  lemma {:induction false} SweepAccounts(s: Sweep, tasks: seq<Task>, clock: Clock)
    ensures Accounts(s, PerformAll(s, tasks, clock))
  {
    if tasks != [] {
      var before := PerformAll(s, tasks[..|tasks| - 1], clock);
      SweepAccounts(s, tasks[..|tasks| - 1], clock);
      PerformAccounts(before, tasks[|tasks| - 1], clock);
      AccountsTransitive(s, before, PerformAll(s, tasks, clock));
    }
  }

  // ---------------------------------------------------------------- what happens to each run

  /** What one task does to the attempts: at most its own run's current attempt expires. */
  function TaskAttempts(db: Db, task: Task, clock: Clock): map<(RunId, nat), Attempt> {
    match task
    case MessageLease(id) =>
      if RecoversMessageLease(db, id, clock) then Expire(db, id, clock.At(id)).attempts else db.attempts
    case PlanLease(id) =>
      if RecoversPlanLease(db, id, clock) then Expire(db, id, clock.At(id)).attempts else db.attempts
    case _ => db.attempts
  }

  lemma PerformAttempts(s: Sweep, task: Task, clock: Clock)
    ensures Perform(s, task, clock).db.attempts == TaskAttempts(s.db, task, clock)
  {
    match task
    case QueuedMessage(_) =>
    case StaleMessageRun(_) =>
    case StalePlanRun(_) =>
    case MessageLease(id) => if RecoversMessageLease(s.db, id, clock) { MessageLeaseRows(s, id, clock); }
    case PlanLease(id) => if RecoversPlanLease(s.db, id, clock) { PlanLeaseRows(s, id, clock); }
  }

  lemma {:induction false} MessagesOutcome(s: Sweep, ids: seq<MessageId>, clock: Clock)
    ensures var t := PerformAll(s, MessageTasks(ids), clock).db;
            t == s.db.(outbox := t.outbox, audit := t.audit)
    ensures forall m :: m in ids ==>
              HasPending(PerformAll(s, MessageTasks(ids), clock).db.outbox, AnalysisRequested(m, MissingActiveRun))
  {
    if ids != [] {
      var n := |ids| - 1;
      MessagesOutcome(s, ids[..n], clock);
      assert MessageTasks(ids)[..n] == MessageTasks(ids[..n]);
      var before := PerformAll(s, MessageTasks(ids[..n]), clock);
      PerformAccounts(before, QueuedMessage(ids[n]), clock);
      var after := PerformAll(s, MessageTasks(ids), clock);
      forall m | m in ids
        ensures HasPending(after.db.outbox, AnalysisRequested(m, MissingActiveRun))
      {
        if m in ids[..n] {
          PendingGrows(before, after, AnalysisRequested(m, MissingActiveRun));
        } else {
          EnsuredPending(before.db, AnalysisRequested(m, MissingActiveRun));
        }
      }
    }
  }

  lemma EnsuredPending(db: Db, request: Request)
    ensures HasPending(EnsureEvent(db, request).outbox, request)
  {
    if !HasPending(db.outbox, request) {
      var out := EnsureEvent(db, request).outbox;
      assert out[|out| - 1].delivery == Pending;
    }
  }

  lemma PendingGrows(s: Sweep, t: Sweep, request: Request)
    requires Accounts(s, t) && HasPending(s.db.outbox, request)
    ensures HasPending(t.db.outbox, request)
  {
    var i :| 0 <= i < |s.db.outbox| && s.db.outbox[i].delivery == Pending && SameAggregate(s.db.outbox[i].request, request);
    assert t.db.outbox[i] == s.db.outbox[i];
  }

  /** The event that covers a run: on its message, or on its plan. */
  ghost predicate Covered(db: Db, id: RunId) {
    && id in db.runs
    && match db.runs[id].owner
       case ForMessage(m) => HasPending(db.outbox, AnalysisRequested(m, StaleQueuedRun))
       case ForPlan(p, role, _) => HasPending(db.outbox, LegalRecoveryRequested(p, id, role, StaleQueuedRun))
       case Unowned => false
  }

  lemma PendingByAggregate(outbox: seq<OutboxEvent>, a: Request, b: Request)
    requires SameAggregate(a, b) && HasPending(outbox, a)
    ensures HasPending(outbox, b)
  {
    var i :| 0 <= i < |outbox| && outbox[i].delivery == Pending && SameAggregate(outbox[i].request, a);
    assert SameAggregate(outbox[i].request, b);
  }

  lemma CoveredStays(s: Sweep, tasks: seq<Task>, clock: Clock, id: RunId)
    requires Covered(s.db, id)
    ensures Covered(PerformAll(s, tasks, clock).db, id)
  {
    var t := PerformAll(s, tasks, clock);
    SweepFrame(s, tasks, clock);
    SweepAccounts(s, tasks, clock);
    match s.db.runs[id].owner
    case ForMessage(m) => PendingGrows(s, t, AnalysisRequested(m, StaleQueuedRun));
    case ForPlan(p, role, _) => PendingGrows(s, t, LegalRecoveryRequested(p, id, role, StaleQueuedRun));
  }

  lemma StaleMessageRunStep(s: Sweep, last: RunId, clock: Clock)
    ensures var t := Perform(s, StaleMessageRun(last), clock).db;
            && t == s.db.(outbox := t.outbox, audit := t.audit)
            && (last in s.db.runs && s.db.runs[last].owner.ForMessage? ==> Covered(t, last))
  {
    if last in s.db.runs && s.db.runs[last].owner.ForMessage? {
      EnsuredPending(s.db, AnalysisRequested(s.db.runs[last].owner.message, StaleQueuedRun));
    }
  }

  lemma CoveredStep(s: Sweep, task: Task, clock: Clock, id: RunId)
    requires Covered(s.db, id)
    ensures Covered(Perform(s, task, clock).db, id)
  {
    PerformAllAppend(s, [], task, clock);
    assert [] + [task] == [task];
    CoveredStays(s, [task], clock, id);
  }

  lemma {:induction false} StaleMessageRunsOutcome(s: Sweep, ids: seq<RunId>, clock: Clock)
    ensures var t := PerformAll(s, StaleMessageTasks(ids), clock).db;
            t == s.db.(outbox := t.outbox, audit := t.audit)
    ensures forall id :: id in ids && id in s.db.runs && s.db.runs[id].owner.ForMessage? ==>
              Covered(PerformAll(s, StaleMessageTasks(ids), clock).db, id)
  {
    if ids != [] {
      var n := |ids| - 1;
      var last := ids[n];
      StaleMessageRunsOutcome(s, ids[..n], clock);
      assert StaleMessageTasks(ids)[..n] == StaleMessageTasks(ids[..n]);
      var before := PerformAll(s, StaleMessageTasks(ids[..n]), clock);
      assert PerformAll(s, StaleMessageTasks(ids), clock) == Perform(before, StaleMessageRun(last), clock);
      StaleMessageRunStep(before, last, clock);
      forall id | id in ids && id in s.db.runs && s.db.runs[id].owner.ForMessage? && id != last
        ensures Covered(Perform(before, StaleMessageRun(last), clock).db, id)
      {
        assert id in ids[..n];
        CoveredStep(before, StaleMessageRun(last), clock, id);
      }
    }
  }

  predicate CancelledInQueue(db: Db, ids: seq<RunId>, id: RunId) {
    id in ids && id in db.runs && db.runs[id].owner.ForPlan? && !IsCurrent(db, id)
  }

  lemma {:induction false} StalePlanRunsOutcome(s: Sweep, ids: seq<RunId>, clock: Clock)
    requires Distinct(ids)
    ensures var t := PerformAll(s, StalePlanTasks(ids), clock).db;
            && t == s.db.(runs := t.runs, outbox := t.outbox, audit := t.audit)
            && t.runs.Keys == s.db.runs.Keys
            && forall id :: id in s.db.runs ==>
                 t.runs[id] == (if CancelledInQueue(s.db, ids, id) then SupersededRun(s.db.runs[id], clock.now) else s.db.runs[id])
    ensures forall id :: id in ids && id in s.db.runs && s.db.runs[id].owner.ForPlan? && IsCurrent(s.db, id) ==>
              Covered(PerformAll(s, StalePlanTasks(ids), clock).db, id)
  {
    if ids != [] {
      var n := |ids| - 1;
      var last := ids[n];
      StalePlanRunsOutcome(s, ids[..n], clock);
      assert StalePlanTasks(ids)[..n] == StalePlanTasks(ids[..n]);
      var before := PerformAll(s, StalePlanTasks(ids[..n]), clock);
      var after := PerformAll(s, StalePlanTasks(ids), clock);
      SweepFrame(s, StalePlanTasks(ids[..n]), clock);
      SameCurrent(s.db, before.db, last);
      PerformRuns(before, StalePlanRun(last), clock);
      forall id | id in ids && id in s.db.runs && s.db.runs[id].owner.ForPlan? && IsCurrent(s.db, id)
        ensures Covered(after.db, id)
      {
        if id in ids[..n] {
          CoveredStep(before, StalePlanRun(last), clock, id);
        } else {
          var owner := s.db.runs[id].owner;
          EnsuredPending(before.db, LegalRecoveryRequested(owner.plan, id, owner.role, StaleQueuedRun));
        }
      }
    }
  }

  /** A run after the loop over message leases. */
  function MessageLeaseOutcome(db: Db, ids: seq<RunId>, clock: Clock, id: RunId): Run
    requires id in db.runs
  {
    if id in ids && RecoversMessageLease(db, id, clock) then ExpiredMessageRun(db.runs[id], clock.now) else db.runs[id]
  }

  /** A run after the loop over plan leases. */
  function PlanLeaseOutcome(db: Db, ids: seq<RunId>, clock: Clock, id: RunId): Run
    requires id in db.runs
  {
    if !(id in ids && RecoversPlanLease(db, id, clock)) then db.runs[id]
    else if IsCurrent(db, id) then ExpiredPlanRun(db.runs[id], clock.now)
    else SupersededRun(db.runs[id], clock.now)
  }

  /** An attempt after a loop over leases: expired exactly if it was its recovered run's current one. */
  function AttemptOutcome(db: Db, recovered: bool, clock: Clock, key: (RunId, nat)): Attempt
    requires key in db.attempts
  {
    if recovered && key.0 in db.runs && key.1 == db.runs[key.0].attempt
    then ExpiredAttempt(db.attempts[key], clock.At(key.0)) else db.attempts[key]
  }

  ghost predicate MessageLeasesDone(db: Db, ids: seq<RunId>, clock: Clock, t: Db) {
    && t.runs.Keys == db.runs.Keys
    && t.attempts.Keys == db.attempts.Keys
    && (forall id :: id in db.runs ==> t.runs[id] == MessageLeaseOutcome(db, ids, clock, id))
    && (forall key :: key in db.attempts ==> (
          t.attempts[key] == AttemptOutcome(db, key.0 in ids && RecoversMessageLease(db, key.0, clock), clock, key)))
  }

  ghost predicate PlanLeasesDone(db: Db, ids: seq<RunId>, clock: Clock, t: Db) {
    && t.runs.Keys == db.runs.Keys
    && t.attempts.Keys == db.attempts.Keys
    && (forall id :: id in db.runs ==> t.runs[id] == PlanLeaseOutcome(db, ids, clock, id))
    && (forall key :: key in db.attempts ==> (
          t.attempts[key] == AttemptOutcome(db, key.0 in ids && RecoversPlanLease(db, key.0, clock), clock, key)))
  }

  lemma {:induction false} MessageLeasesOutcome(s: Sweep, ids: seq<RunId>, clock: Clock)
    requires Distinct(ids)
    ensures MessageLeasesDone(s.db, ids, clock, PerformAll(s, MessageLeaseTasks(ids), clock).db)
  {
    if ids != [] {
      var n := |ids| - 1;
      var last := ids[n];
      MessageLeasesOutcome(s, ids[..n], clock);
      assert MessageLeaseTasks(ids)[..n] == MessageLeaseTasks(ids[..n]);
      var before := PerformAll(s, MessageLeaseTasks(ids[..n]), clock);
      SweepFrame(s, MessageLeaseTasks(ids[..n]), clock);
      assert last !in ids[..n];
      assert RecoversMessageLease(before.db, last, clock) == RecoversMessageLease(s.db, last, clock);
      PerformRuns(before, MessageLease(last), clock);
      PerformAttempts(before, MessageLease(last), clock);
      MessageLeaseDone(s.db, ids[..n], last, ids, clock, before.db, PerformAll(s, MessageLeaseTasks(ids), clock).db);
    }
  }

  lemma MessageLeaseDone(db: Db, front: seq<RunId>, last: RunId, ids: seq<RunId>, clock: Clock, before: Db, after: Db)
    requires ids == front + [last] && last !in front && MessageLeasesDone(db, front, clock, before)
    requires RecoversMessageLease(before, last, clock) == RecoversMessageLease(db, last, clock)
    requires after.runs == TaskRuns(before, MessageLease(last), clock)
    requires after.attempts == TaskAttempts(before, MessageLease(last), clock)
    ensures MessageLeasesDone(db, ids, clock, after)
  {
    assert forall id :: id in ids <==> id in front || id == last;
  }

  lemma PlanLeaseRun(db: Db, front: seq<RunId>, last: RunId, ids: seq<RunId>, clock: Clock, before: Db, after: Db)
    requires ids == front + [last] && last !in front && PlanLeasesDone(db, front, clock, before)
    requires IsCurrent(before, last) == IsCurrent(db, last)
    requires RecoversPlanLease(before, last, clock) == RecoversPlanLease(db, last, clock)
    requires after.runs == TaskRuns(before, PlanLease(last), clock)
    ensures after.runs.Keys == db.runs.Keys
    ensures forall id :: id in db.runs ==> after.runs[id] == PlanLeaseOutcome(db, ids, clock, id)
  {
    assert forall id :: id in ids <==> id in front || id == last;
  }

  lemma PlanLeaseAttempts(db: Db, front: seq<RunId>, last: RunId, ids: seq<RunId>, clock: Clock, before: Db, after: Db)
    requires ids == front + [last] && last !in front && PlanLeasesDone(db, front, clock, before)
    requires RecoversPlanLease(before, last, clock) == RecoversPlanLease(db, last, clock)
    requires after.attempts == TaskAttempts(before, PlanLease(last), clock)
    ensures after.attempts.Keys == db.attempts.Keys
    ensures forall key :: key in db.attempts ==> (
              after.attempts[key] == AttemptOutcome(db, key.0 in ids && RecoversPlanLease(db, key.0, clock), clock, key))
  {
    assert forall id :: id in ids <==> id in front || id == last;
  }

  /** The last plan lease meets its run and its attempt as the loop found them. */
  lemma PlanLeaseUndisturbed(s: Sweep, ids: seq<RunId>, clock: Clock) returns (before: Sweep)
    requires Distinct(ids) && ids != []
    requires PlanLeasesDone(s.db, ids[..|ids| - 1], clock, PerformAll(s, PlanLeaseTasks(ids[..|ids| - 1]), clock).db)
    ensures before == PerformAll(s, PlanLeaseTasks(ids[..|ids| - 1]), clock)
    ensures PerformAll(s, PlanLeaseTasks(ids), clock) == Perform(before, PlanLease(ids[|ids| - 1]), clock)
    ensures SameLineage(s.db, before.db)
    ensures IsCurrent(before.db, ids[|ids| - 1]) == IsCurrent(s.db, ids[|ids| - 1])
    ensures RecoversPlanLease(before.db, ids[|ids| - 1], clock) == RecoversPlanLease(s.db, ids[|ids| - 1], clock)
  {
    var n := |ids| - 1;
    before := PerformAll(s, PlanLeaseTasks(ids[..n]), clock);
    assert PlanLeaseTasks(ids)[..n] == PlanLeaseTasks(ids[..n]);
    SweepFrame(s, PlanLeaseTasks(ids[..n]), clock);
    SameCurrent(s.db, before.db, ids[n]);
    assert ids[n] !in ids[..n];
  }

  lemma {:induction false} PlanLeasesOutcome(s: Sweep, ids: seq<RunId>, clock: Clock)
    requires Distinct(ids)
    ensures PlanLeasesDone(s.db, ids, clock, PerformAll(s, PlanLeaseTasks(ids), clock).db)
    ensures PerformAll(s, PlanLeaseTasks(ids), clock).db.messages == s.db.messages
  {
    if ids != [] {
      var n := |ids| - 1;
      var last := ids[n];
      PlanLeasesOutcome(s, ids[..n], clock);
      var before := PlanLeaseUndisturbed(s, ids, clock);
      PerformRuns(before, PlanLease(last), clock);
      PerformAttempts(before, PlanLease(last), clock);
      var after := PerformAll(s, PlanLeaseTasks(ids), clock).db;
      PlanLeaseRun(s.db, ids[..n], last, ids, clock, before.db, after);
      PlanLeaseAttempts(s.db, ids[..n], last, ids, clock, before.db, after);
      PlanLeaseKeepsMessages(before, last, clock);
    }
  }

  lemma PlanLeaseKeepsMessages(s: Sweep, id: RunId, clock: Clock)
    ensures Perform(s, PlanLease(id), clock).db.messages == s.db.messages
  {
    if RecoversPlanLease(s.db, id, clock) { PlanLeaseRows(s, id, clock); }
  }

  // ---------------------------------------------------------------- the whole sweep

  predicate ExpiredByMessageLoop(db: Db, b: Batches, clock: Clock, id: RunId) {
    id in b.leases && RecoversMessageLease(db, id, clock)
  }

  predicate ExpiredByPlanLoop(db: Db, b: Batches, clock: Clock, id: RunId) {
    id in b.legal && RecoversPlanLease(db, id, clock) && !CancelledInQueue(db, b.queued, id)
  }

  /** What a sweep makes of one run, read off the database it started from. */
  function Outcome(db: Db, b: Batches, clock: Clock, id: RunId): Run
    requires id in db.runs
  {
    var run := db.runs[id];
    if CancelledInQueue(db, b.queued, id) then SupersededRun(run, clock.now)
    else if ExpiredByMessageLoop(db, b, clock, id) then ExpiredMessageRun(run, clock.now)
    else if ExpiredByPlanLoop(db, b, clock, id) then
      if IsCurrent(db, id) then ExpiredPlanRun(run, clock.now) else SupersededRun(run, clock.now)
    else run
  }

  /** The states between the five loops, with what each loop did to runs and attempts. */
  ghost predicate Staged(db: Db, b: Batches, clock: Clock, s3: Db, s4: Db, s5: Db) {
    && s3 == db.(runs := s3.runs, outbox := s3.outbox, audit := s3.audit)
    && s3.runs.Keys == db.runs.Keys
    && (forall id :: id in db.runs ==>
          s3.runs[id] == (if CancelledInQueue(db, b.queued, id) then SupersededRun(db.runs[id], clock.now) else db.runs[id]))
    && MessageLeasesDone(s3, b.leases, clock, s4)
    && PlanLeasesDone(s4, b.legal, clock, s5)
    && SameLineage(db, s3) && SameLineage(s3, s4)
    && (forall id :: id in b.legal ==> id in s4.runs && s4.runs[id].status in {Preparing, Running, Validating})
  }

  lemma EarlyStages(db: Db, b: Batches, clock: Clock)
    requires Distinct(b.queued)
    ensures var s3 := AfterStalePlanRuns(db, b, clock).db;
            && s3 == db.(runs := s3.runs, outbox := s3.outbox, audit := s3.audit)
            && s3.runs.Keys == db.runs.Keys
            && (forall id :: id in db.runs ==>
                  s3.runs[id] == (if CancelledInQueue(db, b.queued, id) then SupersededRun(db.runs[id], clock.now) else db.runs[id]))
            && SameLineage(db, s3)
  {
    var t1, t2 := AfterMessages(db, b, clock), AfterStaleMessageRuns(db, b, clock);
    MessagesOutcome(Sweep(db, Counts(0, 0, 0, 0, 0)), b.messages, clock);
    StaleMessageRunsOutcome(t1, b.queued, clock);
    StalePlanRunsOutcome(t2, b.queued, clock);
    assert forall id :: CancelledInQueue(t2.db, b.queued, id) == CancelledInQueue(db, b.queued, id);
    SweepFrame(t2, StalePlanTasks(b.queued), clock);
  }

  lemma BatchFacts(db: Db, sel: Selection, b: Batches, clock: Clock)
    requires Selected(db, sel, b, clock)
    ensures Distinct(b.queued) && Distinct(b.leases) && Distinct(b.legal)
    ensures var s3 := AfterStalePlanRuns(db, b, clock).db;
            forall id :: id in b.leases ==> id in s3.runs && s3.runs[id].status in {Preparing, Running}
    ensures var s4 := AfterMessageLeases(db, b, clock).db;
            forall id :: id in b.legal ==> id in s4.runs && s4.runs[id].status in {Preparing, Running, Validating}
  {
    var s3, s4 := AfterStalePlanRuns(db, b, clock).db, AfterMessageLeases(db, b, clock).db;
    assert forall id :: id in b.leases ==> Stale(s3, {Preparing, Running}, sel, id);
    assert forall id :: id in b.legal ==> Stale(s4, {Preparing, Running, Validating}, sel, id);
  }

  lemma Stages(db: Db, sel: Selection, b: Batches, clock: Clock) returns (s3: Db, s4: Db, s5: Db)
    requires Selected(db, sel, b, clock)
    ensures s3 == AfterStalePlanRuns(db, b, clock).db
    ensures s4 == AfterMessageLeases(db, b, clock).db && s5 == Recovered(db, b, clock).db
    ensures Staged(db, b, clock, s3, s4, s5) && SameLineage(db, s5)
  {
    BatchFacts(db, sel, b, clock);
    s3, s4, s5 := LateStages(db, b, clock);
  }

  lemma LateStages(db: Db, b: Batches, clock: Clock) returns (s3: Db, s4: Db, s5: Db)
    requires Distinct(b.queued) && Distinct(b.leases) && Distinct(b.legal)
    requires var s4 := AfterMessageLeases(db, b, clock).db;
             forall id :: id in b.legal ==> id in s4.runs && s4.runs[id].status in {Preparing, Running, Validating}
    ensures s3 == AfterStalePlanRuns(db, b, clock).db
    ensures s4 == AfterMessageLeases(db, b, clock).db && s5 == Recovered(db, b, clock).db
    ensures Staged(db, b, clock, s3, s4, s5) && SameLineage(db, s5)
  {
    var t3, t4 := AfterStalePlanRuns(db, b, clock), AfterMessageLeases(db, b, clock);
    s3, s4, s5 := t3.db, t4.db, Recovered(db, b, clock).db;
    EarlyStages(db, b, clock);
    MessageLeasesOutcome(t3, b.leases, clock);
    PlanLeasesOutcome(t4, b.legal, clock);
    SweepFrame(t3, MessageLeaseTasks(b.leases), clock);
    SweepFrame(t4, PlanLeaseTasks(b.legal), clock);
  }

  /** The lease loops decide about a run as they would have before the sweep. */
  lemma SameVerdicts(db: Db, b: Batches, clock: Clock, s3: Db, s4: Db, s5: Db, id: RunId)
    requires Staged(db, b, clock, s3, s4, s5) && id in db.runs
    ensures RecoversMessageLease(s3, id, clock) == RecoversMessageLease(db, id, clock)
    ensures id in b.legal ==> RecoversPlanLease(s4, id, clock) == RecoversPlanLease(db, id, clock)
    ensures CancelledInQueue(db, b.queued, id) ==> id !in b.legal
    ensures IsCurrent(s4, id) == IsCurrent(db, id)
  {
    SameCurrent(db, s3, id);
    SameCurrent(s3, s4, id);
    assert s4.runs[id] == MessageLeaseOutcome(s3, b.leases, clock, id);
    if id in b.legal && db.runs[id].owner.ForPlan? {
      assert s4.runs[id] == s3.runs[id] == db.runs[id];
      var key := (id, db.runs[id].attempt);
      assert key in db.attempts ==> s4.attempts[key] == db.attempts[key];
    }
  }

  predicate Expires(db: Db, b: Batches, clock: Clock, id: RunId) {
    ExpiredByMessageLoop(db, b, clock, id) || ExpiredByPlanLoop(db, b, clock, id)
  }

  lemma OneRun(db: Db, b: Batches, clock: Clock, s3: Db, s4: Db, s5: Db, id: RunId)
    requires Staged(db, b, clock, s3, s4, s5) && id in db.runs
    ensures s5.runs[id] == Outcome(db, b, clock, id)
  {
    SameVerdicts(db, b, clock, s3, s4, s5, id);
    assert s4.runs[id] == MessageLeaseOutcome(s3, b.leases, clock, id);
    assert s5.runs[id] == PlanLeaseOutcome(s4, b.legal, clock, id);
  }

  lemma OneAttempt(db: Db, b: Batches, clock: Clock, s3: Db, s4: Db, s5: Db, key: (RunId, nat))
    requires Staged(db, b, clock, s3, s4, s5) && key in db.attempts && key.0 in db.runs
    ensures s5.attempts[key] == AttemptOutcome(db, Expires(db, b, clock, key.0), clock, key)
  {
    SameVerdicts(db, b, clock, s3, s4, s5, key.0);
    var early := key.0 in b.leases && RecoversMessageLease(s3, key.0, clock);
    var late := key.0 in b.legal && RecoversPlanLease(s4, key.0, clock);
    assert s4.runs[key.0] == MessageLeaseOutcome(s3, b.leases, clock, key.0);
    assert early == ExpiredByMessageLoop(db, b, clock, key.0) && late == ExpiredByPlanLoop(db, b, clock, key.0);
    assert s4.attempts[key] == AttemptOutcome(s3, early, clock, key) == AttemptOutcome(db, early, clock, key);
    assert s5.attempts[key] == AttemptOutcome(s4, late, clock, key);
  }

  /** The sweep changes runs one by one: each ends as `Outcome` says, and an attempt expires exactly
      when it is the current attempt of a run one of the lease loops recovers. */
  lemma SweepOutcome(db: Db, sel: Selection, b: Batches, clock: Clock)
    requires Selected(db, sel, b, clock)
    ensures var t := Recovered(db, b, clock).db;
            && SameLineage(db, t)
            && (forall id :: id in db.runs ==> t.runs[id] == Outcome(db, b, clock, id))
            && (forall key :: key in db.attempts && key.0 in db.runs ==>
                  t.attempts[key] == AttemptOutcome(db, Expires(db, b, clock, key.0), clock, key))
            && (forall key :: key in db.attempts && key.0 !in db.runs ==> t.attempts[key] == db.attempts[key])
  {
    var s3, s4, s5 := Stages(db, sel, b, clock);
    forall id | id in db.runs { OneRun(db, b, clock, s3, s4, s5, id); }
    forall key | key in db.attempts && key.0 in db.runs { OneAttempt(db, b, clock, s3, s4, s5, key); }
    forall key | key in db.attempts && key.0 !in db.runs
      ensures s5.attempts[key] == db.attempts[key]
    {
      assert s4.attempts[key] == AttemptOutcome(s3, key.0 in b.leases && RecoversMessageLease(s3, key.0, clock), clock, key);
      assert s5.attempts[key] == AttemptOutcome(s4, key.0 in b.legal && RecoversPlanLease(s4, key.0, clock), clock, key);
    }
  }

  // ---------------------------------------------------------------- no work is lost

  lemma {:induction false} MessageLeasesCovered(s: Sweep, ids: seq<RunId>, clock: Clock, id: RunId)
    requires Distinct(ids) && id in ids && RecoversMessageLease(s.db, id, clock)
    requires s.db.runs[id].attempt < s.db.runs[id].maxAttempts
    ensures Covered(PerformAll(s, MessageLeaseTasks(ids), clock).db, id)
  {
    var n := |ids| - 1;
    var before := PerformAll(s, MessageLeaseTasks(ids[..n]), clock);
    assert MessageLeaseTasks(ids)[..n] == MessageLeaseTasks(ids[..n]);
    if id == ids[n] {
      MessageLeasesOutcome(s, ids[..n], clock);
      SweepFrame(s, MessageLeaseTasks(ids[..n]), clock);
      assert before.db.runs[id] == MessageLeaseOutcome(s.db, ids[..n], clock, id);
      assert RecoversMessageLease(before.db, id, clock);
      MessageLeaseRows(before, id, clock);
      var request := AnalysisRequested(s.db.runs[id].owner.message, ExpiredLease);
      EnsuredPending(before.db, request);
      PendingByAggregate(EnsureEvent(before.db, request).outbox, request, AnalysisRequested(request.message, StaleQueuedRun));
    } else {
      MessageLeasesCovered(s, ids[..n], clock, id);
      CoveredStep(before, MessageLease(ids[n]), clock, id);
    }
  }

  lemma PlanLeaseCovers(s: Sweep, id: RunId, clock: Clock)
    requires RecoversPlanLease(s.db, id, clock) && IsCurrent(s.db, id)
    requires s.db.runs[id].attempt < s.db.runs[id].maxAttempts
    ensures Covered(Perform(s, PlanLease(id), clock).db, id)
  {
    PlanLeaseRows(s, id, clock);
    var owner := s.db.runs[id].owner;
    var request := LegalRecoveryRequested(owner.plan, id, owner.role, ExpiredLease);
    EnsuredPending(s.db, request);
    PendingByAggregate(EnsureEvent(s.db, request).outbox, request,
                       LegalRecoveryRequested(owner.plan, id, owner.role, StaleQueuedRun));
  }

  lemma {:induction false} PlanLeasesCovered(s: Sweep, ids: seq<RunId>, clock: Clock, id: RunId)
    requires Distinct(ids) && id in ids && RecoversPlanLease(s.db, id, clock) && IsCurrent(s.db, id)
    requires s.db.runs[id].attempt < s.db.runs[id].maxAttempts
    ensures Covered(PerformAll(s, PlanLeaseTasks(ids), clock).db, id)
  {
    var n := |ids| - 1;
    PlanLeasesOutcome(s, ids[..n], clock);
    var before := PlanLeaseUndisturbed(s, ids, clock);
    if id == ids[n] {
      assert before.db.runs[id] == PlanLeaseOutcome(s.db, ids[..n], clock, id);
      PlanLeaseCovers(before, id, clock);
    } else {
      PlanLeasesCovered(s, ids[..n], clock, id);
      CoveredStep(before, PlanLease(ids[n]), clock, id);
    }
  }

  lemma ListedMessageKept(db: Db, b: Batches, clock: Clock, m: MessageId)
    requires m in b.messages
    ensures HasPending(Recovered(db, b, clock).db.outbox, AnalysisRequested(m, MissingActiveRun))
  {
    MessagesOutcome(Sweep(db, Counts(0, 0, 0, 0, 0)), b.messages, clock);
    LaterAccounts(db, b, clock);
    PendingGrows(AfterMessages(db, b, clock), Recovered(db, b, clock), AnalysisRequested(m, MissingActiveRun));
  }

  lemma CoveredToTheEnd(db: Db, b: Batches, clock: Clock, id: RunId)
    requires Covered(AfterStalePlanRuns(db, b, clock).db, id)
    ensures Covered(Recovered(db, b, clock).db, id)
  {
    CoveredStays(AfterStalePlanRuns(db, b, clock), MessageLeaseTasks(b.leases), clock, id);
    CoveredStays(AfterMessageLeases(db, b, clock), PlanLeaseTasks(b.legal), clock, id);
  }

  lemma ListedRunKept(db: Db, b: Batches, clock: Clock, id: RunId)
    requires Distinct(b.queued) && id in b.queued && id in db.runs
    requires db.runs[id].owner.ForMessage? || (db.runs[id].owner.ForPlan? && IsCurrent(db, id))
    ensures Covered(Recovered(db, b, clock).db, id)
  {
    var t1, t2 := AfterMessages(db, b, clock), AfterStaleMessageRuns(db, b, clock);
    MessagesOutcome(Sweep(db, Counts(0, 0, 0, 0, 0)), b.messages, clock);
    StaleMessageRunsOutcome(t1, b.queued, clock);
    if db.runs[id].owner.ForMessage? {
      CoveredStays(t2, StalePlanTasks(b.queued), clock, id);
    } else {
      StalePlanRunsOutcome(t2, b.queued, clock);
    }
    CoveredToTheEnd(db, b, clock, id);
  }

  /** A sweep leaves no listed row without an owner for its work: it is cancelled as superseded, or a
      pending event covers it. */
  lemma QueuedWorkKept(db: Db, sel: Selection, b: Batches, clock: Clock)
    requires Selected(db, sel, b, clock)
    ensures var t := Recovered(db, b, clock).db;
            && (forall m :: m in b.messages ==> HasPending(t.outbox, AnalysisRequested(m, MissingActiveRun)))
            && (forall id :: id in b.queued && id in db.runs && !db.runs[id].owner.Unowned? ==>
                  if CancelledInQueue(db, b.queued, id)
                  then id in t.runs && t.runs[id] == SupersededRun(db.runs[id], clock.now)
                  else Covered(t, id))
  {
    BatchFacts(db, sel, b, clock);
    SweepOutcome(db, sel, b, clock);
    forall m | m in b.messages { ListedMessageKept(db, b, clock, m); }
    forall id | id in b.queued && id in db.runs && !db.runs[id].owner.Unowned? && !CancelledInQueue(db, b.queued, id) {
      ListedRunKept(db, b, clock, id);
    }
  }

  lemma LaterAccounts(db: Db, b: Batches, clock: Clock)
    ensures Accounts(AfterMessages(db, b, clock), Recovered(db, b, clock))
  {
    var t1, t2 := AfterMessages(db, b, clock), AfterStaleMessageRuns(db, b, clock);
    var t3, t4 := AfterStalePlanRuns(db, b, clock), AfterMessageLeases(db, b, clock);
    SweepAccounts(t1, StaleMessageTasks(b.queued), clock);
    SweepAccounts(t2, StalePlanTasks(b.queued), clock);
    SweepAccounts(t3, MessageLeaseTasks(b.leases), clock);
    SweepAccounts(t4, PlanLeaseTasks(b.legal), clock);
    AccountsTransitive(t1, t2, t3);
    AccountsTransitive(t1, t3, t4);
    AccountsTransitive(t1, t4, Recovered(db, b, clock));
  }

  lemma ExpiredRunCovered(db: Db, sel: Selection, b: Batches, clock: Clock, id: RunId)
    requires Selected(db, sel, b, clock) && Expires(db, b, clock, id)
    requires db.runs[id].attempt < db.runs[id].maxAttempts
    requires db.runs[id].owner.ForPlan? ==> IsCurrent(db, id)
    ensures Covered(Recovered(db, b, clock).db, id)
  {
    BatchFacts(db, sel, b, clock);
    var s3, s4, s5 := Stages(db, sel, b, clock);
    SameVerdicts(db, b, clock, s3, s4, s5, id);
    var t3, t4 := AfterStalePlanRuns(db, b, clock), AfterMessageLeases(db, b, clock);
    assert s3.runs[id] == db.runs[id];
    if db.runs[id].owner.ForMessage? {
      MessageLeasesCovered(t3, b.leases, clock, id);
      CoveredStays(t4, PlanLeaseTasks(b.legal), clock, id);
    } else {
      assert s4.runs[id] == MessageLeaseOutcome(s3, b.leases, clock, id);
      PlanLeasesCovered(t4, b.legal, clock, id);
    }
  }

  /** What becomes of a run whose attempt the sweep expired. */
  ghost predicate Settled(db: Db, t: Db, clock: Clock, id: RunId) {
    && id in db.runs && id in t.runs
    && var run := db.runs[id];
       if run.owner.ForPlan? && !IsCurrent(db, id) then t.runs[id] == SupersededRun(run, clock.now)
       else if run.attempt >= run.maxAttempts then t.runs[id].status == DeadLetter
       else Covered(t, id)
            && t.runs[id] == (if run.owner.ForPlan? then ExpiredPlanRun(run, clock.now) else LeaseFailedRun(run, clock.now))
  }

  /** Every run with an attempt this sweep expired is dead-lettered, cancelled as superseded, or
      waits for another attempt under a pending event of its message or plan. */
  lemma ExpiredWorkKept(db: Db, sel: Selection, b: Batches, clock: Clock, key: (RunId, nat))
    requires Selected(db, sel, b, clock)
    requires key in db.attempts && key.0 in db.runs && db.attempts[key].status == AttemptRunning
    requires var t := Recovered(db, b, clock).db; key in t.attempts && t.attempts[key].status == AttemptExpired
    ensures key.1 == db.runs[key.0].attempt
    ensures Settled(db, Recovered(db, b, clock).db, clock, key.0)
  {
    SweepOutcome(db, sel, b, clock);
    var id, run := key.0, db.runs[key.0];
    assert Expires(db, b, clock, id) && key.1 == run.attempt;
    if run.attempt < run.maxAttempts && (run.owner.ForPlan? ==> IsCurrent(db, id)) {
      ExpiredRunCovered(db, sel, b, clock, id);
    }
  }

  // ---------------------------------------------------------------- a second sweep does nothing

  /** The task finds nothing to do. */
  ghost predicate Idle(db: Db, task: Task, clock: Clock) {
    match task
    case QueuedMessage(m) => HasPending(db.outbox, AnalysisRequested(m, MissingActiveRun))
    case StaleMessageRun(id) => id in db.runs && db.runs[id].owner.ForMessage? ==> Covered(db, id)
    case StalePlanRun(id) => id in db.runs && db.runs[id].owner.ForPlan? ==> IsCurrent(db, id) && Covered(db, id)
    case MessageLease(id) => !RecoversMessageLease(db, id, clock)
    case PlanLease(id) => !RecoversPlanLease(db, id, clock)
  }

  lemma IdleTask(s: Sweep, task: Task, clock: Clock)
    requires Idle(s.db, task, clock)
    ensures Perform(s, task, clock) == s
  {
  }

  lemma {:induction false} IdleTasks(s: Sweep, tasks: seq<Task>, clock: Clock)
    requires forall i :: 0 <= i < |tasks| ==> Idle(s.db, tasks[i], clock)
    ensures PerformAll(s, tasks, clock) == s
  {
    if tasks != [] {
      IdleTasks(s, tasks[..|tasks| - 1], clock);
      IdleTask(s, tasks[|tasks| - 1], clock);
    }
  }

  /** One lease: a message that is still queued was queued before and is not the recovered run's. */
  lemma LeaseLeavesQueued(s: Sweep, id: RunId, clock: Clock, m: MessageId)
    requires m in s.db.messages
    ensures var t := Perform(s, MessageLease(id), clock).db;
            m in t.messages &&
            (t.messages[m].status == QueuedForAnalysis ==>
              && s.db.messages[m].status == QueuedForAnalysis
              && (RecoversMessageLease(s.db, id, clock) ==> s.db.runs[id].owner.message != m))
  {
    if RecoversMessageLease(s.db, id, clock) { MessageLeaseRows(s, id, clock); }
  }

  lemma MessageLeaseUndisturbed(s: Sweep, ids: seq<RunId>, clock: Clock) returns (before: Sweep)
    requires Distinct(ids) && ids != []
    ensures before == PerformAll(s, MessageLeaseTasks(ids[..|ids| - 1]), clock)
    ensures PerformAll(s, MessageLeaseTasks(ids), clock) == Perform(before, MessageLease(ids[|ids| - 1]), clock)
    ensures SameLineage(s.db, before.db) && MessageLeasesDone(s.db, ids[..|ids| - 1], clock, before.db)
    ensures RecoversMessageLease(before.db, ids[|ids| - 1], clock) == RecoversMessageLease(s.db, ids[|ids| - 1], clock)
  {
    var n := |ids| - 1;
    before := PerformAll(s, MessageLeaseTasks(ids[..n]), clock);
    assert MessageLeaseTasks(ids)[..n] == MessageLeaseTasks(ids[..n]);
    MessageLeasesOutcome(s, ids[..n], clock);
    SweepFrame(s, MessageLeaseTasks(ids[..n]), clock);
    assert ids[n] !in ids[..n];
  }

  /** A message that is still queued was touched by no lease of the loop. */
  lemma {:induction false} StillQueued(s: Sweep, ids: seq<RunId>, clock: Clock, m: MessageId)
    requires Distinct(ids) && m in s.db.messages
    ensures var t := PerformAll(s, MessageLeaseTasks(ids), clock).db;
            m in t.messages &&
            (t.messages[m].status == QueuedForAnalysis ==>
              && s.db.messages[m].status == QueuedForAnalysis
              && forall id :: id in ids && RecoversMessageLease(s.db, id, clock) ==> s.db.runs[id].owner.message != m)
  {
    if ids != [] {
      var n := |ids| - 1;
      StillQueued(s, ids[..n], clock, m);
      var before := MessageLeaseUndisturbed(s, ids, clock);
      LeaseLeavesQueued(before, ids[n], clock, m);
      assert forall id :: id in ids ==> id in ids[..n] || id == ids[n];
      assert ids[n] in s.db.runs ==> before.db.runs[ids[n]].owner == s.db.runs[ids[n]].owner;
    }
  }

  /** No query of the sweep was cut off by its limit. */
  predicate NotFull(sel: Selection, b: Batches) {
    |b.messages| < sel.limit && |b.queued| < sel.limit && |b.leases| < sel.limit && |b.legal| < sel.limit
  }

  predicate SameRows(sel: Selection, again: Selection) {
    again == sel.(limit := again.limit, stamps := again.stamps)
  }

  /** Only an untouched run comes out of a sweep active. */
  lemma ActiveOutcome(db: Db, b: Batches, clock: Clock, id: RunId)
    requires id in db.runs && Outcome(db, b, clock, id).status in {Preparing, Running, Validating}
    ensures Outcome(db, b, clock, id) == db.runs[id]
    ensures !CancelledInQueue(db, b.queued, id) && !Expires(db, b, clock, id)
  {
  }

  /** A run the sweep left active was left alone. */
  lemma ActiveMeansUntouched(db: Db, sel: Selection, b: Batches, clock: Clock, t: Db, id: RunId)
    requires Selected(db, sel, b, clock) && t == Recovered(db, b, clock).db
    requires id in t.runs && t.runs[id].status in {Preparing, Running, Validating}
    ensures id in db.runs && t.runs[id] == db.runs[id]
    ensures !CancelledInQueue(db, b.queued, id) && !Expires(db, b, clock, id)
    ensures var key := (id, db.runs[id].attempt);
            key in db.attempts ==> key in t.attempts && t.attempts[key] == db.attempts[key]
    ensures SameLineage(db, t)
  {
    SweepOutcome(db, sel, b, clock);
    assert t.runs[id] == Outcome(db, b, clock, id);
    ActiveOutcome(db, b, clock, id);
    var key := (id, db.runs[id].attempt);
    if key in db.attempts { assert t.attempts[key] == AttemptOutcome(db, false, clock, key); }
  }

  /** With room left in the batch, a stale run is in it. */
  lemma LeaseListed(db: Db, sel: Selection, b: Batches, clock: Clock, id: RunId)
    requires Selected(db, sel, b, clock) && NotFull(sel, b)
    requires Stale(AfterStalePlanRuns(db, b, clock).db, {Preparing, Running}, sel, id)
    ensures id in b.leases
  {
  }

  lemma UntouchedLease(db: Db, sel: Selection, b: Batches, clock: Clock, id: RunId)
    requires Selected(db, sel, b, clock) && NotFull(sel, b) && Stale(db, {Preparing, Running}, sel, id)
    requires !CancelledInQueue(db, b.queued, id) && !Expires(db, b, clock, id)
    ensures id in b.leases
  {
    var s3, s4, s5 := Stages(db, sel, b, clock);
    UntouchedBetween(db, b, clock, s3, s4, s5, id);
    LeaseListed(db, sel, b, clock, id);
  }

  lemma MessageVerdictStays(db: Db, b: Batches, clock: Clock, t: Db, id: RunId)
    requires id in b.leases && id in db.runs && id in t.runs && t.runs[id] == db.runs[id] && !Expires(db, b, clock, id)
    requires SameLineage(db, t)
    requires var key := (id, db.runs[id].attempt); key in db.attempts ==> key in t.attempts && t.attempts[key] == db.attempts[key]
    ensures !RecoversMessageLease(t, id, clock)
  {
  }

  lemma NextLeaseIdle(db: Db, sel: Selection, b: Batches, clock: Clock, t: Db, again: Selection, id: RunId)
    requires Selected(db, sel, b, clock) && NotFull(sel, b) && t == Recovered(db, b, clock).db
    requires SameRows(sel, again) && Stale(t, {Preparing, Running}, again, id)
    ensures Idle(t, MessageLease(id), clock)
  {
    ActiveMeansUntouched(db, sel, b, clock, t, id);
    UntouchedLease(db, sel, b, clock, id);
    MessageVerdictStays(db, b, clock, t, id);
  }

  lemma LegalListed(db: Db, sel: Selection, b: Batches, clock: Clock, id: RunId)
    requires Selected(db, sel, b, clock) && NotFull(sel, b)
    requires Stale(AfterMessageLeases(db, b, clock).db, {Preparing, Running, Validating}, sel, id)
    ensures id in b.legal
  {
  }

  /** A run that no loop touched is between the loops as it was before the sweep. */
  lemma UntouchedBetween(db: Db, b: Batches, clock: Clock, s3: Db, s4: Db, s5: Db, id: RunId)
    requires Staged(db, b, clock, s3, s4, s5) && id in db.runs
    requires !CancelledInQueue(db, b.queued, id) && !Expires(db, b, clock, id)
    ensures id in s3.runs && s3.runs[id] == db.runs[id] && id in s4.runs && s4.runs[id] == db.runs[id]
  {
    SameVerdicts(db, b, clock, s3, s4, s5, id);
    assert s4.runs[id] == MessageLeaseOutcome(s3, b.leases, clock, id);
  }

  lemma UntouchedListed(db: Db, sel: Selection, b: Batches, clock: Clock, id: RunId)
    requires Selected(db, sel, b, clock) && NotFull(sel, b) && Stale(db, {Preparing, Running, Validating}, sel, id)
    requires !CancelledInQueue(db, b.queued, id) && !Expires(db, b, clock, id)
    ensures id in b.legal
  {
    var s3, s4, s5 := Stages(db, sel, b, clock);
    UntouchedBetween(db, b, clock, s3, s4, s5, id);
    LegalListed(db, sel, b, clock, id);
  }

  lemma NextLegalIdle(db: Db, sel: Selection, b: Batches, clock: Clock, t: Db, again: Selection, id: RunId)
    requires Selected(db, sel, b, clock) && NotFull(sel, b) && t == Recovered(db, b, clock).db
    requires SameRows(sel, again) && Stale(t, {Preparing, Running, Validating}, again, id)
    ensures Idle(t, PlanLease(id), clock)
  {
    ActiveMeansUntouched(db, sel, b, clock, t, id);
    UntouchedListed(db, sel, b, clock, id);
    PlanVerdictStays(db, b, clock, t, id);
  }

  lemma PlanVerdictStays(db: Db, b: Batches, clock: Clock, t: Db, id: RunId)
    requires id in b.legal && id in db.runs && id in t.runs && t.runs[id] == db.runs[id]
    requires !CancelledInQueue(db, b.queued, id) && !Expires(db, b, clock, id)
    requires SameLineage(db, t)
    requires var key := (id, db.runs[id].attempt); key in db.attempts ==> key in t.attempts && t.attempts[key] == db.attempts[key]
    ensures !RecoversPlanLease(t, id, clock)
  {
  }

  lemma NextQueuedIdle(db: Db, sel: Selection, b: Batches, clock: Clock, t: Db, again: Selection, id: RunId)
    requires Selected(db, sel, b, clock) && NotFull(sel, b) && t == Recovered(db, b, clock).db
    requires SameRows(sel, again) && Stale(t, {Queued}, again, id)
    ensures Idle(t, StaleMessageRun(id), clock) && Idle(t, StalePlanRun(id), clock)
  {
    SweepOutcome(db, sel, b, clock);
    SameCurrent(db, t, id);
    assert t.runs[id] == Outcome(db, b, clock, id);
    BatchFacts(db, sel, b, clock);
    if t.runs[id] == db.runs[id] {
      MessagesOutcome(Sweep(db, Counts(0, 0, 0, 0, 0)), b.messages, clock);
      assert Stale(AfterMessages(db, b, clock).db, {Queued}, sel, id);
      assert id in b.queued && !CancelledInQueue(db, b.queued, id);
      if !db.runs[id].owner.Unowned? { ListedRunKept(db, b, clock, id); }
    } else {
      assert ExpiredByPlanLoop(db, b, clock, id) && IsCurrent(db, id);
      ExpiredRunCovered(db, sel, b, clock, id);
    }
  }

  lemma NextMessageIdle(db: Db, sel: Selection, b: Batches, clock: Clock, t: Db, again: Selection, m: MessageId)
    requires Selected(db, sel, b, clock) && NotFull(sel, b) && t == Recovered(db, b, clock).db
    requires SameRows(sel, again) && QueuedWithoutRun(t, again, m)
    ensures Idle(t, QueuedMessage(m), clock)
  {
    SweepOutcome(db, sel, b, clock);
    BatchFacts(db, sel, b, clock);
    var t3, t4 := AfterStalePlanRuns(db, b, clock), AfterMessageLeases(db, b, clock);
    PlanLeasesOutcome(t4, b.legal, clock);
    var s3, s4, s5 := Stages(db, sel, b, clock);
    StillQueued(t3, b.leases, clock, m);
    forall id | id in db.runs && db.runs[id].owner == ForMessage(m)
      ensures !ActiveRun(db.runs[id].status)
    {
      SameVerdicts(db, b, clock, s3, s4, s5, id);
      assert t.runs[id] == Outcome(db, b, clock, id) == db.runs[id];
    }
    assert QueuedWithoutRun(db, sel, m);
    ListedMessageKept(db, b, clock, m);
  }

  lemma IdleMessages(db: Db, sel: Selection, b: Batches, clock: Clock, again: Selection, b2: Batches, s: Sweep)
    requires Selected(db, sel, b, clock) && NotFull(sel, b) && SameRows(sel, again)
    requires s == Sweep(Recovered(db, b, clock).db, Counts(0, 0, 0, 0, 0))
    requires forall m :: m in b2.messages ==> QueuedWithoutRun(s.db, again, m)
    ensures AfterMessages(s.db, b2, clock) == s
  {
    forall m | m in b2.messages ensures Idle(s.db, QueuedMessage(m), clock) {
      NextMessageIdle(db, sel, b, clock, s.db, again, m);
    }
    IdleTasks(s, MessageTasks(b2.messages), clock);
  }

  lemma IdleQueued(db: Db, sel: Selection, b: Batches, clock: Clock, again: Selection, b2: Batches, s: Sweep)
    requires Selected(db, sel, b, clock) && NotFull(sel, b) && SameRows(sel, again)
    requires s == Sweep(Recovered(db, b, clock).db, Counts(0, 0, 0, 0, 0)) && AfterMessages(s.db, b2, clock) == s
    requires forall id :: id in b2.queued ==> Stale(s.db, {Queued}, again, id)
    ensures AfterStalePlanRuns(s.db, b2, clock) == s
  {
    forall id | id in b2.queued
      ensures Idle(s.db, StaleMessageRun(id), clock) && Idle(s.db, StalePlanRun(id), clock)
    {
      NextQueuedIdle(db, sel, b, clock, s.db, again, id);
    }
    IdleTasks(s, StaleMessageTasks(b2.queued), clock);
    IdleTasks(s, StalePlanTasks(b2.queued), clock);
  }

  lemma IdleLeases(db: Db, sel: Selection, b: Batches, clock: Clock, again: Selection, b2: Batches, s: Sweep)
    requires Selected(db, sel, b, clock) && NotFull(sel, b) && SameRows(sel, again)
    requires s == Sweep(Recovered(db, b, clock).db, Counts(0, 0, 0, 0, 0)) && AfterStalePlanRuns(s.db, b2, clock) == s
    requires forall id :: id in b2.leases ==> Stale(s.db, {Preparing, Running}, again, id)
    ensures AfterMessageLeases(s.db, b2, clock) == s
  {
    forall id | id in b2.leases ensures Idle(s.db, MessageLease(id), clock) {
      NextLeaseIdle(db, sel, b, clock, s.db, again, id);
    }
    IdleTasks(s, MessageLeaseTasks(b2.leases), clock);
  }

  lemma IdleLegal(db: Db, sel: Selection, b: Batches, clock: Clock, again: Selection, b2: Batches, s: Sweep)
    requires Selected(db, sel, b, clock) && NotFull(sel, b) && SameRows(sel, again)
    requires s == Sweep(Recovered(db, b, clock).db, Counts(0, 0, 0, 0, 0)) && AfterMessageLeases(s.db, b2, clock) == s
    requires forall id :: id in b2.legal ==> Stale(s.db, {Preparing, Running, Validating}, again, id)
    ensures Recovered(s.db, b2, clock) == s
  {
    forall id | id in b2.legal ensures Idle(s.db, PlanLease(id), clock) {
      NextLegalIdle(db, sel, b, clock, s.db, again, id);
    }
    IdleTasks(s, PlanLeaseTasks(b2.legal), clock);
  }

  /** Sweeping again at the same clock, over the same rows, when no query had been cut off, changes
      nothing at all and counts nothing, whatever the second sweep's limit. */
  lemma SecondSweepIsIdle(db: Db, sel: Selection, b: Batches, clock: Clock, again: Selection, b2: Batches)
    requires Selected(db, sel, b, clock) && NotFull(sel, b) && SameRows(sel, again)
    requires Selected(Recovered(db, b, clock).db, again, b2, clock)
    ensures Recovered(Recovered(db, b, clock).db, b2, clock)
            == Sweep(Recovered(db, b, clock).db, Counts(0, 0, 0, 0, 0))
  {
    var t := Recovered(db, b, clock).db;
    var s := Sweep(t, Counts(0, 0, 0, 0, 0));
    assert forall m :: m in b2.messages ==> QueuedWithoutRun(t, again, m);
    IdleMessages(db, sel, b, clock, again, b2, s);
    assert forall id :: id in b2.queued ==> Stale(t, {Queued}, again, id);
    IdleQueued(db, sel, b, clock, again, b2, s);
    assert forall id :: id in b2.leases ==> Stale(t, {Preparing, Running}, again, id);
    IdleLeases(db, sel, b, clock, again, b2, s);
    assert forall id :: id in b2.legal ==> Stale(t, {Preparing, Running, Validating}, again, id);
    IdleLegal(db, sel, b, clock, again, b2, s);
  }

  lemma QueuedBefore(db: Db, sel: Selection, b: Batches, clock: Clock, id: RunId)
    requires Selected(db, sel, b, clock) && id in db.runs && id in b.queued
    ensures db.runs[id].status == Queued
  {
    MessagesOutcome(Sweep(db, Counts(0, 0, 0, 0, 0)), b.messages, clock);
    assert Stale(AfterMessages(db, b, clock).db, {Queued}, sel, id);
  }

  lemma ActiveBefore(db: Db, b: Batches, clock: Clock, s3: Db, s4: Db, s5: Db, id: RunId)
    requires Staged(db, b, clock, s3, s4, s5) && id in db.runs && Expires(db, b, clock, id)
    requires id in b.leases ==> s3.runs[id].status in {Preparing, Running}
    ensures db.runs[id].status in {Preparing, Running, Validating}
  {
    SameVerdicts(db, b, clock, s3, s4, s5, id);
    assert s4.runs[id] == MessageLeaseOutcome(s3, b.leases, clock, id);
  }

  /** A run the sweep cancels in the queue was queued, and one it expires was active. */
  lemma StatusBefore(db: Db, sel: Selection, b: Batches, clock: Clock, id: RunId)
    requires Selected(db, sel, b, clock) && id in db.runs
    ensures CancelledInQueue(db, b.queued, id) ==> db.runs[id].status == Queued
    ensures Expires(db, b, clock, id) ==> db.runs[id].status in {Preparing, Running, Validating}
  {
    if id in b.queued { QueuedBefore(db, sel, b, clock, id); }
    if Expires(db, b, clock, id) {
      BatchFacts(db, sel, b, clock);
      var s3, s4, s5 := Stages(db, sel, b, clock);
      ActiveBefore(db, b, clock, s3, s4, s5, id);
    }
  }

  // ---------------------------------------------------------------- counters

  /** The three requeue counters add up to the outbox events the sweep added, which are pending,
      concern aggregates without a pending event, and have one audit record each, in order. */
  lemma CountersBalance(db: Db, b: Batches, clock: Clock)
    ensures Accounts(Sweep(db, Counts(0, 0, 0, 0, 0)), Recovered(db, b, clock))
  {
    SweepAccounts(Sweep(db, Counts(0, 0, 0, 0, 0)), MessageTasks(b.messages), clock);
    LaterAccounts(db, b, clock);
    AccountsTransitive(Sweep(db, Counts(0, 0, 0, 0, 0)), AfterMessages(db, b, clock), Recovered(db, b, clock));
  }

  predicate Exhausted(db: Db, id: RunId) {
    id in db.runs && db.runs[id].attempt >= db.runs[id].maxAttempts
  }

  function DeadMessageRuns(db: Db, ids: seq<RunId>, clock: Clock): set<RunId> {
    set id | id in ids && RecoversMessageLease(db, id, clock) && Exhausted(db, id)
  }

  function DeadPlanRuns(db: Db, ids: seq<RunId>, clock: Clock): set<RunId> {
    set id | id in ids && RecoversPlanLease(db, id, clock) && IsCurrent(db, id) && Exhausted(db, id)
  }

  lemma OneMoreMessageRun(db: Db, ids: seq<RunId>, clock: Clock)
    requires ids != [] && Distinct(ids)
    ensures |DeadMessageRuns(db, ids, clock)| == |DeadMessageRuns(db, ids[..|ids| - 1], clock)|
            + Int(RecoversMessageLease(db, ids[|ids| - 1], clock) && Exhausted(db, ids[|ids| - 1]))
  {
    var last := ids[|ids| - 1];
    var smaller := DeadMessageRuns(db, ids[..|ids| - 1], clock);
    assert last !in ids[..|ids| - 1];
    assert forall id :: id in ids <==> id in ids[..|ids| - 1] || id == last;
    if RecoversMessageLease(db, last, clock) && Exhausted(db, last) {
      assert DeadMessageRuns(db, ids, clock) == smaller + {last};
    } else {
      assert DeadMessageRuns(db, ids, clock) == smaller;
    }
  }

  lemma {:induction false} MessageDeadCount(s: Sweep, ids: seq<RunId>, clock: Clock)
    requires Distinct(ids)
    ensures var c := PerformAll(s, MessageLeaseTasks(ids), clock).counts;
            && c.dead == s.counts.dead + |DeadMessageRuns(s.db, ids, clock)|
            && c.legalDead == s.counts.legalDead
  {
    if ids != [] {
      var n := |ids| - 1;
      var last := ids[n];
      MessageDeadCount(s, ids[..n], clock);
      MessageLeasesOutcome(s, ids[..n], clock);
      var before := PerformAll(s, MessageLeaseTasks(ids[..n]), clock);
      assert MessageLeaseTasks(ids)[..n] == MessageLeaseTasks(ids[..n]);
      SweepFrame(s, MessageLeaseTasks(ids[..n]), clock);
      assert last !in ids[..n];
      assert RecoversMessageLease(before.db, last, clock) == RecoversMessageLease(s.db, last, clock);
      assert last in s.db.runs ==> before.db.runs[last] == MessageLeaseOutcome(s.db, ids[..n], clock, last);
      MessageLeaseCounts(before, last, clock);
      OneMoreMessageRun(s.db, ids, clock);
    }
  }

  lemma {:induction false} PlanDeadCount(s: Sweep, ids: seq<RunId>, clock: Clock)
    requires Distinct(ids)
    ensures var c := PerformAll(s, PlanLeaseTasks(ids), clock).counts;
            && c.legalDead == s.counts.legalDead + |DeadPlanRuns(s.db, ids, clock)|
            && c.dead == s.counts.dead
  {
    if ids != [] {
      var n := |ids| - 1;
      var last := ids[n];
      PlanDeadCount(s, ids[..n], clock);
      PlanLeasesOutcome(s, ids[..n], clock);
      var before := PlanLeaseUndisturbed(s, ids, clock);
      assert last !in ids[..n];
      assert last in s.db.runs ==> before.db.runs[last] == PlanLeaseOutcome(s.db, ids[..n], clock, last);
      PlanLeaseCounts(before, last, clock);
      var smaller := DeadPlanRuns(s.db, ids[..n], clock);
      if last in DeadPlanRuns(s.db, ids, clock) {
        assert DeadPlanRuns(s.db, ids, clock) == smaller + {last};
      } else {
        assert DeadPlanRuns(s.db, ids, clock) == smaller;
      }
    }
  }

  lemma MessageLeaseCounts(s: Sweep, id: RunId, clock: Clock)
    ensures var c := Perform(s, MessageLease(id), clock).counts;
            && c.dead == s.counts.dead + Int(RecoversMessageLease(s.db, id, clock) && Exhausted(s.db, id))
            && c.legalDead == s.counts.legalDead
  {
  }

  lemma PlanLeaseCounts(s: Sweep, id: RunId, clock: Clock)
    ensures var c := Perform(s, PlanLease(id), clock).counts;
            && c.dead == s.counts.dead
            && c.legalDead == s.counts.legalDead
                              + Int(RecoversPlanLease(s.db, id, clock) && IsCurrent(s.db, id) && Exhausted(s.db, id))
  {
  }

  lemma {:induction false} QueueCounts(s: Sweep, tasks: seq<Task>, clock: Clock)
    requires forall i :: 0 <= i < |tasks| ==> !tasks[i].MessageLease? && !tasks[i].PlanLease?
    ensures var c := PerformAll(s, tasks, clock).counts; c.dead == s.counts.dead && c.legalDead == s.counts.legalDead
  {
    if tasks != [] {
      QueueCounts(s, tasks[..|tasks| - 1], clock);
    }
  }

  predicate NewlyDead(db: Db, t: Db, id: RunId) {
    id in db.runs && id in t.runs && db.runs[id].status != DeadLetter && t.runs[id].status == DeadLetter
  }

  /** A sweep moves a run to dead letter exactly by expiring its last attempt. */
  lemma OutcomeDead(db: Db, b: Batches, clock: Clock, id: RunId)
    requires id in db.runs
    ensures Outcome(db, b, clock, id).status == DeadLetter && db.runs[id].status != DeadLetter <==>
            && !CancelledInQueue(db, b.queued, id) && db.runs[id].status != DeadLetter && Exhausted(db, id)
            && (ExpiredByMessageLoop(db, b, clock, id) || (ExpiredByPlanLoop(db, b, clock, id) && IsCurrent(db, id)))
  {
  }

  lemma LostInMessageLoop(db: Db, b: Batches, clock: Clock, s3: Db, s4: Db, s5: Db, id: RunId)
    requires Staged(db, b, clock, s3, s4, s5) && id in db.runs
    requires id in b.leases ==> s3.runs[id].status in {Preparing, Running}
    ensures id in DeadMessageRuns(s3, b.leases, clock) <==> NewlyDead(db, s5, id) && db.runs[id].owner.ForMessage?
  {
    SameVerdicts(db, b, clock, s3, s4, s5, id);
    OneRun(db, b, clock, s3, s4, s5, id);
    OutcomeDead(db, b, clock, id);
  }

  lemma LostInPlanLoop(db: Db, b: Batches, clock: Clock, s3: Db, s4: Db, s5: Db, id: RunId)
    requires Staged(db, b, clock, s3, s4, s5) && id in db.runs
    ensures id in DeadPlanRuns(s4, b.legal, clock) <==> NewlyDead(db, s5, id) && db.runs[id].owner.ForPlan?
  {
    SameVerdicts(db, b, clock, s3, s4, s5, id);
    OneRun(db, b, clock, s3, s4, s5, id);
    OutcomeDead(db, b, clock, id);
    assert s4.runs[id] == MessageLeaseOutcome(s3, b.leases, clock, id);
  }

  lemma DeadCountsOfLoops(db: Db, sel: Selection, b: Batches, clock: Clock)
    requires Selected(db, sel, b, clock)
    ensures var c, s3, s4 := Recovered(db, b, clock).counts, AfterStalePlanRuns(db, b, clock).db, AfterMessageLeases(db, b, clock).db;
            c.dead == |DeadMessageRuns(s3, b.leases, clock)| && c.legalDead == |DeadPlanRuns(s4, b.legal, clock)|
  {
    QueueCounts(Sweep(db, Counts(0, 0, 0, 0, 0)), MessageTasks(b.messages), clock);
    QueueCounts(AfterMessages(db, b, clock), StaleMessageTasks(b.queued), clock);
    QueueCounts(AfterStaleMessageRuns(db, b, clock), StalePlanTasks(b.queued), clock);
    BatchFacts(db, sel, b, clock);
    MessageDeadCount(AfterStalePlanRuns(db, b, clock), b.leases, clock);
    PlanDeadCount(AfterMessageLeases(db, b, clock), b.legal, clock);
  }

  function Lost(db: Db, t: Db): set<RunId> {
    set id | id in db.runs && NewlyDead(db, t, id)
  }

  lemma LostMessageRuns(db: Db, b: Batches, clock: Clock, s3: Db, s4: Db, s5: Db)
    requires Staged(db, b, clock, s3, s4, s5)
    requires forall id :: id in b.leases ==> id in s3.runs && s3.runs[id].status in {Preparing, Running}
    ensures DeadMessageRuns(s3, b.leases, clock) == set id | id in Lost(db, s5) && db.runs[id].owner.ForMessage?
  {
    forall id ensures id in DeadMessageRuns(s3, b.leases, clock) <==> id in Lost(db, s5) && db.runs[id].owner.ForMessage? {
      if id in db.runs { LostInMessageLoop(db, b, clock, s3, s4, s5, id); }
    }
  }

  lemma LostPlanRuns(db: Db, b: Batches, clock: Clock, s3: Db, s4: Db, s5: Db)
    requires Staged(db, b, clock, s3, s4, s5)
    ensures DeadPlanRuns(s4, b.legal, clock) == set id | id in Lost(db, s5) && db.runs[id].owner.ForPlan?
  {
    forall id ensures id in DeadPlanRuns(s4, b.legal, clock) <==> id in Lost(db, s5) && db.runs[id].owner.ForPlan? {
      if id in db.runs { LostInPlanLoop(db, b, clock, s3, s4, s5, id); }
    }
  }

  /** The two dead-letter counters are the numbers of runs the sweep moved to DeadLetter. */
  lemma DeadCounters(db: Db, sel: Selection, b: Batches, clock: Clock)
    requires Selected(db, sel, b, clock)
    ensures var r := Recovered(db, b, clock);
            && r.counts.dead == |set id | id in Lost(db, r.db) && db.runs[id].owner.ForMessage?|
            && r.counts.legalDead == |set id | id in Lost(db, r.db) && db.runs[id].owner.ForPlan?|
  {
    var s3, s4, s5 := Stages(db, sel, b, clock);
    BatchFacts(db, sel, b, clock);
    DeadCountsOfLoops(db, sel, b, clock);
    LostMessageRuns(db, b, clock, s3, s4, s5);
    LostPlanRuns(db, b, clock, s3, s4, s5);
  }

  // ---------------------------------------------------------------- lineage

  /** Every plan event between `s` and `t` names a run that owns its phase in `db`. */
  ghost predicate OnlyCurrentAnnounced(db: Db, s: Db, t: Db) {
    && s.outbox <= t.outbox
    && forall i :: |s.outbox| <= i < |t.outbox| && t.outbox[i].request.LegalRecoveryRequested? ==>
         var request := t.outbox[i].request;
         IsCurrent(db, request.run) && db.runs[request.run].owner.plan == request.plan
  }

  lemma StalePlanAnnounces(db: Db, s: Sweep, id: RunId, clock: Clock)
    requires SameLineage(db, s.db)
    ensures OnlyCurrentAnnounced(db, s.db, Perform(s, StalePlanRun(id), clock).db)
  {
    SameCurrent(db, s.db, id);
  }

  lemma PlanLeaseAnnounces(db: Db, s: Sweep, id: RunId, clock: Clock)
    requires SameLineage(db, s.db)
    ensures OnlyCurrentAnnounced(db, s.db, Perform(s, PlanLease(id), clock).db)
  {
    SameCurrent(db, s.db, id);
    if RecoversPlanLease(s.db, id, clock) { PlanLeaseRows(s, id, clock); }
  }

  lemma PerformAnnounces(db: Db, s: Sweep, task: Task, clock: Clock)
    requires SameLineage(db, s.db)
    ensures OnlyCurrentAnnounced(db, s.db, Perform(s, task, clock).db)
  {
    match task
    case QueuedMessage(_) =>
    case StaleMessageRun(_) =>
    case StalePlanRun(id) => StalePlanAnnounces(db, s, id, clock);
    case MessageLease(id) => if RecoversMessageLease(s.db, id, clock) { MessageLeaseRows(s, id, clock); }
    case PlanLease(id) => PlanLeaseAnnounces(db, s, id, clock);
  }

  lemma {:induction false} SweepAnnounces(db: Db, s: Sweep, tasks: seq<Task>, clock: Clock)
    requires SameLineage(db, s.db)
    ensures OnlyCurrentAnnounced(db, s.db, PerformAll(s, tasks, clock).db)
    ensures SameLineage(db, PerformAll(s, tasks, clock).db)
  {
    if tasks != [] {
      var before := PerformAll(s, tasks[..|tasks| - 1], clock);
      SweepAnnounces(db, s, tasks[..|tasks| - 1], clock);
      PerformAnnounces(db, before, tasks[|tasks| - 1], clock);
      PerformFrame(before, tasks[|tasks| - 1], clock);
      SameLineageTransitive(db, before.db, PerformAll(s, tasks, clock).db);
    }
  }

  lemma AnnouncesTransitive(db: Db, s: Db, t: Db, u: Db)
    requires OnlyCurrentAnnounced(db, s, t) && OnlyCurrentAnnounced(db, t, u)
    ensures OnlyCurrentAnnounced(db, s, u)
  {
    forall i | |s.outbox| <= i < |u.outbox| && u.outbox[i].request.LegalRecoveryRequested?
      ensures IsCurrent(db, u.outbox[i].request.run)
      ensures db.runs[u.outbox[i].request.run].owner.plan == u.outbox[i].request.plan
    {
      if i < |t.outbox| { assert u.outbox[i] == t.outbox[i]; }
    }
  }

  /** Every plan event a sweep adds asks for the run that owns its phase of that plan. */
  lemma EventsNameCurrentRuns(db: Db, b: Batches, clock: Clock)
    ensures OnlyCurrentAnnounced(db, db, Recovered(db, b, clock).db)
  {
    var t0, t1, t2 := Sweep(db, Counts(0, 0, 0, 0, 0)), AfterMessages(db, b, clock), AfterStaleMessageRuns(db, b, clock);
    var t3, t4 := AfterStalePlanRuns(db, b, clock), AfterMessageLeases(db, b, clock);
    SweepAnnounces(db, t0, MessageTasks(b.messages), clock);
    SweepAnnounces(db, t1, StaleMessageTasks(b.queued), clock);
    SweepAnnounces(db, t2, StalePlanTasks(b.queued), clock);
    SweepAnnounces(db, t3, MessageLeaseTasks(b.leases), clock);
    SweepAnnounces(db, t4, PlanLeaseTasks(b.legal), clock);
    AnnouncesTransitive(db, db, t1.db, t2.db);
    AnnouncesTransitive(db, db, t2.db, t3.db);
    AnnouncesTransitive(db, db, t3.db, t4.db);
    AnnouncesTransitive(db, db, t4.db, Recovered(db, b, clock).db);
  }

  /** A superseded plan run is never requeued: it stays as it is or is cancelled. */
  lemma SupersededNeverRequeued(db: Db, sel: Selection, b: Batches, clock: Clock, id: RunId)
    requires Selected(db, sel, b, clock)
    requires id in db.runs && db.runs[id].owner.ForPlan? && !IsCurrent(db, id)
    ensures var t := Recovered(db, b, clock).db;
            id in t.runs && t.runs[id] in {db.runs[id], SupersededRun(db.runs[id], clock.now)}
  {
    SweepOutcome(db, sel, b, clock);
    assert Recovered(db, b, clock).db.runs[id] == Outcome(db, b, clock, id);
  }

  /** The run is current for its phase and the loop dead-letters it. */
  predicate LosesPhase(db: Db, ids: seq<RunId>, clock: Clock, id: RunId) {
    id in ids && RecoversPlanLease(db, id, clock) && IsCurrent(db, id) && Exhausted(db, id)
  }

  predicate OwnsStep(db: Db, id: RunId, step: StepRowId) {
    id in db.runs && db.runs[id].owner.ForPlan? && db.runs[id].owner.role == Specialist && db.runs[id].owner.step == Some(step)
  }

  /** A plan or step differs from before only through a current run that lost its phase, and every
      such run did fail its plan, and its step if it is a specialist. */
  ghost predicate PhasesExplained(db: Db, ids: seq<RunId>, clock: Clock, t: Db) {
    && (forall p :: p in db.plans && p in t.plans && t.plans[p] != db.plans[p] ==>
          exists id :: LosesPhase(db, ids, clock, id) && db.runs[id].owner.plan == p)
    && (forall s :: s in db.steps && s in t.steps && t.steps[s] != db.steps[s] ==>
          exists id :: LosesPhase(db, ids, clock, id) && OwnsStep(db, id, s))
    && (forall id :: LosesPhase(db, ids, clock, id) ==> PhaseFailed(db, t, id))
  }

  predicate PhaseFailed(db: Db, t: Db, id: RunId)
    requires IsCurrent(db, id)
  {
    var owner := db.runs[id].owner;
    && owner.plan in t.plans
    && t.plans[owner.plan].status in {PlanPartial, PlanFailed}
    && (owner.role == Specialist ==>
          owner.step.value in t.steps && t.steps[owner.step.value].status == StepFailed
          && t.steps[owner.step.value].failure == Some(ATTEMPTS_EXHAUSTED))
  }

  /** One plan lease changes plan and step rows only when its current run is exhausted, and then it
      fails the plan and, for a specialist, the step. */
  lemma PlanLeasePhase(s: Sweep, id: RunId, clock: Clock)
    ensures var t := Perform(s, PlanLease(id), clock).db;
            if RecoversPlanLease(s.db, id, clock) && IsCurrent(s.db, id) && Exhausted(s.db, id) then
              var owner := s.db.runs[id].owner;
              && t.plans == s.db.plans[owner.plan := FailPlan(s.db, owner.plan, owner.role, clock.now)]
              && t.steps == (if owner.role == Specialist
                             then s.db.steps[owner.step.value := FailedStep(s.db.steps[owner.step.value], clock.now)]
                             else s.db.steps)
            else t.plans == s.db.plans && t.steps == s.db.steps
  {
    if RecoversPlanLease(s.db, id, clock) && IsCurrent(s.db, id) && Exhausted(s.db, id) {
      ExhaustedPhase(s, id, clock);
    } else {
      QuietPhase(s, id, clock);
    }
  }

  lemma QuietPhase(s: Sweep, id: RunId, clock: Clock)
    requires !(RecoversPlanLease(s.db, id, clock) && IsCurrent(s.db, id) && Exhausted(s.db, id))
    ensures var t := Perform(s, PlanLease(id), clock).db; t.plans == s.db.plans && t.steps == s.db.steps
  {
  }

  lemma ExhaustedPhase(s: Sweep, id: RunId, clock: Clock)
    requires RecoversPlanLease(s.db, id, clock) && IsCurrent(s.db, id) && Exhausted(s.db, id)
    ensures var t, owner := Perform(s, PlanLease(id), clock).db, s.db.runs[id].owner;
            && t.plans == s.db.plans[owner.plan := FailPlan(s.db, owner.plan, owner.role, clock.now)]
            && t.steps == (if owner.role == Specialist
                           then s.db.steps[owner.step.value := FailedStep(s.db.steps[owner.step.value], clock.now)]
                           else s.db.steps)
  {
    var saved := Sweep(RequeuedForLease(s.db, id, clock), s.counts);
    assert RecoverPlanLease(s, id, clock) == DeadLetterPhase(saved, id, clock.now);
    assert saved.db.runs[id].owner == s.db.runs[id].owner;
    assert Delivered(saved.db, s.db.runs[id].owner.plan) == Delivered(s.db, s.db.runs[id].owner.plan);
  }

  /** `u` is `t` with the phase of `last` failed. */
  ghost predicate FailsPhase(db: Db, t: Db, u: Db, last: RunId, now: Instant)
    requires IsCurrent(db, last)
  {
    var owner := db.runs[last].owner;
    && owner.plan in t.plans
    && u.plans == t.plans[owner.plan := FailPlan(t, owner.plan, owner.role, now)]
    && if owner.role == Specialist
       then owner.step.value in t.steps && u.steps == t.steps[owner.step.value := FailedStep(t.steps[owner.step.value], now)]
       else u.steps == t.steps
  }

  lemma RowsGrow(db: Db, ids: seq<RunId>, last: RunId, clock: Clock, t: Db, u: Db)
    requires PhasesExplained(db, ids, clock, t) && LosesPhase(db, ids + [last], clock, last)
    requires FailsPhase(db, t, u, last, clock.now)
    ensures forall p :: p in db.plans && p in u.plans && u.plans[p] != db.plans[p] ==>
              exists id :: LosesPhase(db, ids + [last], clock, id) && db.runs[id].owner.plan == p
    ensures forall s :: s in db.steps && s in u.steps && u.steps[s] != db.steps[s] ==>
              exists id :: LosesPhase(db, ids + [last], clock, id) && OwnsStep(db, id, s)
  {
    var all := ids + [last];
    assert forall id :: LosesPhase(db, ids, clock, id) ==> LosesPhase(db, all, clock, id);
    forall p | p in db.plans && p in u.plans && u.plans[p] != db.plans[p]
      ensures exists id :: LosesPhase(db, all, clock, id) && db.runs[id].owner.plan == p
    {
      if p != db.runs[last].owner.plan {
        var id :| LosesPhase(db, ids, clock, id) && db.runs[id].owner.plan == p;
        assert LosesPhase(db, all, clock, id);
      }
    }
    forall s | s in db.steps && s in u.steps && u.steps[s] != db.steps[s]
      ensures exists id :: LosesPhase(db, all, clock, id) && OwnsStep(db, id, s)
    {
      if !OwnsStep(db, last, s) {
        var id :| LosesPhase(db, ids, clock, id) && OwnsStep(db, id, s);
        assert LosesPhase(db, all, clock, id);
      }
    }
  }

  lemma FailuresGrow(db: Db, ids: seq<RunId>, last: RunId, clock: Clock, t: Db, u: Db)
    requires PhasesExplained(db, ids, clock, t) && LosesPhase(db, ids + [last], clock, last)
    requires SameLineage(db, t) && FailsPhase(db, t, u, last, clock.now)
    ensures forall id :: LosesPhase(db, ids + [last], clock, id) ==> PhaseFailed(db, u, id)
  {
    forall id | LosesPhase(db, ids + [last], clock, id)
      ensures PhaseFailed(db, u, id)
    {
      if id != last {
        assert LosesPhase(db, ids, clock, id);
        assert PhaseFailed(db, t, id);
      }
    }
  }

  lemma PhasesGrow(db: Db, ids: seq<RunId>, last: RunId, clock: Clock, t: Db, u: Db)
    requires PhasesExplained(db, ids, clock, t) && LosesPhase(db, ids + [last], clock, last)
    requires SameLineage(db, t) && FailsPhase(db, t, u, last, clock.now)
    ensures PhasesExplained(db, ids + [last], clock, u)
  {
    RowsGrow(db, ids, last, clock, t, u);
    FailuresGrow(db, ids, last, clock, t, u);
  }

  lemma PhasesStay(db: Db, ids: seq<RunId>, last: RunId, clock: Clock, t: Db, u: Db)
    requires PhasesExplained(db, ids, clock, t) && !LosesPhase(db, ids + [last], clock, last)
    requires u.plans == t.plans && u.steps == t.steps
    ensures PhasesExplained(db, ids + [last], clock, u)
  {
    assert forall id :: LosesPhase(db, ids, clock, id) <==> LosesPhase(db, ids + [last], clock, id);
    assert forall id :: LosesPhase(db, ids, clock, id) ==> PhaseFailed(db, u, id);
  }

  /** One more plan lease, met with its run as the loop found it. */
  lemma PhaseNext(db: Db, front: seq<RunId>, last: RunId, clock: Clock, before: Sweep)
    requires PhasesExplained(db, front, clock, before.db) && SameLineage(db, before.db) && last !in front
    requires IsCurrent(before.db, last) == IsCurrent(db, last)
    requires RecoversPlanLease(before.db, last, clock) == RecoversPlanLease(db, last, clock)
    requires last in db.runs ==> last in before.db.runs && before.db.runs[last] == db.runs[last]
    ensures PhasesExplained(db, front + [last], clock, Perform(before, PlanLease(last), clock).db)
  {
    var after := Perform(before, PlanLease(last), clock).db;
    PlanLeasePhase(before, last, clock);
    if LosesPhase(db, front + [last], clock, last) {
      PhasesGrow(db, front, last, clock, before.db, after);
    } else {
      PhasesStay(db, front, last, clock, before.db, after);
    }
  }

  lemma {:induction false} PlanLeasesPhases(s: Sweep, ids: seq<RunId>, clock: Clock)
    requires Distinct(ids)
    ensures PhasesExplained(s.db, ids, clock, PerformAll(s, PlanLeaseTasks(ids), clock).db)
  {
    if ids != [] {
      var n := |ids| - 1;
      var last := ids[n];
      PlanLeasesPhases(s, ids[..n], clock);
      PlanLeasesOutcome(s, ids[..n], clock);
      var before := PlanLeaseUndisturbed(s, ids, clock);
      assert last !in ids[..n] && ids == ids[..n] + [last];
      assert last in s.db.runs ==> before.db.runs[last] == PlanLeaseOutcome(s.db, ids[..n], clock, last);
      PhaseNext(s.db, ids[..n], last, clock, before);
    }
  }

  /** A plan or step row changed only because a run that owned that phase ran out of attempts, and
      whenever one did, its plan, and its step if it is a specialist, have failed. */
  ghost predicate PhaseChangesJustified(db: Db, t: Db) {
    && (forall p :: p in db.plans && p in t.plans && t.plans[p] != db.plans[p] ==>
          exists id :: NewlyDead(db, t, id) && IsCurrent(db, id) && db.runs[id].owner.plan == p)
    && (forall s :: s in db.steps && s in t.steps && t.steps[s] != db.steps[s] ==>
          exists id :: NewlyDead(db, t, id) && IsCurrent(db, id) && OwnsStep(db, id, s))
    && (forall id :: NewlyDead(db, t, id) && db.runs[id].owner.ForPlan? ==> IsCurrent(db, id) && PhaseFailed(db, t, id))
  }

  lemma Justify(db: Db, s4: Db, t: Db, ids: seq<RunId>, clock: Clock)
    requires PhasesExplained(s4, ids, clock, t)
    requires s4.plans == db.plans && s4.steps == db.steps && SameOwners(db.runs, s4.runs)
    requires forall id :: id in db.runs ==>
               (LosesPhase(s4, ids, clock, id) <==> NewlyDead(db, t, id) && db.runs[id].owner.ForPlan?)
    ensures PhaseChangesJustified(db, t)
  {
    assert forall id :: id in db.runs ==> IsCurrent(s4, id) == IsCurrent(db, id);
    forall p | p in db.plans && p in t.plans && t.plans[p] != db.plans[p]
      ensures exists id :: NewlyDead(db, t, id) && IsCurrent(db, id) && db.runs[id].owner.plan == p
    {
      var id :| LosesPhase(s4, ids, clock, id) && s4.runs[id].owner.plan == p;
      assert NewlyDead(db, t, id);
    }
    forall s | s in db.steps && s in t.steps && t.steps[s] != db.steps[s]
      ensures exists id :: NewlyDead(db, t, id) && IsCurrent(db, id) && OwnsStep(db, id, s)
    {
      var id :| LosesPhase(s4, ids, clock, id) && OwnsStep(s4, id, s);
      assert NewlyDead(db, t, id) && OwnsStep(db, id, s);
    }
    forall id | NewlyDead(db, t, id) && db.runs[id].owner.ForPlan?
      ensures IsCurrent(db, id) && PhaseFailed(db, t, id)
    {
      assert LosesPhase(s4, ids, clock, id);
      assert PhaseFailed(s4, t, id);
    }
  }

  lemma OnlyCurrentRunsFailPhases(db: Db, sel: Selection, b: Batches, clock: Clock)
    requires Selected(db, sel, b, clock)
    ensures PhaseChangesJustified(db, Recovered(db, b, clock).db)
  {
    BatchFacts(db, sel, b, clock);
    var s3, s4, s5 := Stages(db, sel, b, clock);
    PlanLeasesPhases(AfterMessageLeases(db, b, clock), b.legal, clock);
    LeaseLoopKeepsPhases(AfterStalePlanRuns(db, b, clock), b.leases, clock);
    SameLineageTransitive(db, s3, s4);
    forall id | id in db.runs
      ensures LosesPhase(s4, b.legal, clock, id) <==> NewlyDead(db, s5, id) && db.runs[id].owner.ForPlan?
    {
      LostInPlanLoop(db, b, clock, s3, s4, s5, id);
      assert LosesPhase(s4, b.legal, clock, id) <==> id in DeadPlanRuns(s4, b.legal, clock);
    }
    Justify(db, s4, s5, b.legal, clock);
  }

  lemma {:induction false} LeaseLoopKeepsPhases(s: Sweep, ids: seq<RunId>, clock: Clock)
    ensures var t := PerformAll(s, MessageLeaseTasks(ids), clock).db; t.plans == s.db.plans && t.steps == s.db.steps
  {
    if ids != [] {
      var n := |ids| - 1;
      LeaseLoopKeepsPhases(s, ids[..n], clock);
      assert MessageLeaseTasks(ids)[..n] == MessageLeaseTasks(ids[..n]);
      var before := PerformAll(s, MessageLeaseTasks(ids[..n]), clock);
      if RecoversMessageLease(before.db, ids[n], clock) { MessageLeaseRows(before, ids[n], clock); }
    }
  }
}
