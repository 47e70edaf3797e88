/** The events and audit records of a sweep: each has its cause, and no recovered run goes unreported. */
module RecoveryTrail {
  import opened Prelude
  import opened AgentRuns
  import opened AgentLeases
  import opened AnalysisRecovery
  import opened RecoveryTheorems

  /** Why the sweep may ask for this. */
  ghost predicate Caused(db: Db, b: Batches, clock: Clock, request: Request) {
    match request
    case AnalysisRequested(m, MissingActiveRun) => m in b.messages
    case AnalysisRequested(m, StaleQueuedRun) => exists id :: id in b.queued && id in db.runs && db.runs[id].owner == ForMessage(m)
    case AnalysisRequested(m, ExpiredLease) => exists id :: ExpiredByMessageLoop(db, b, clock, id) && HasAttempts(db, id, ForMessage(m))
    case LegalRecoveryRequested(p, id, role, StaleQueuedRun) => id in b.queued && Owns(db, id, p, role)
    case LegalRecoveryRequested(p, id, role, ExpiredLease) =>
      ExpiredByPlanLoop(db, b, clock, id) && Owns(db, id, p, role) && db.runs[id].attempt < db.runs[id].maxAttempts
    case _ => false
  }

  predicate HasAttempts(db: Db, id: RunId, owner: Owner) {
    id in db.runs && db.runs[id].owner == owner && db.runs[id].attempt < db.runs[id].maxAttempts
  }

  predicate Owns(db: Db, id: RunId, p: PlanId, role: Role) {
    IsCurrent(db, id) && db.runs[id].owner.plan == p && db.runs[id].owner.role == role
  }

  /** What the sweep may write into the audit: a request, the recovery of a lease under the number the run has then, or
      a superseded run. */
  ghost predicate Founded(db: Db, b: Batches, clock: Clock, note: AuditEvent) {
    match note
    case RecoveryEnqueued(request) => Caused(db, b, clock, request)
    case LeaseRecovered(id, attempt, action) =>
      && Expires(db, b, clock, id) && (db.runs[id].owner.ForPlan? ==> IsCurrent(db, id))
      && (if db.runs[id].attempt >= db.runs[id].maxAttempts then action == DeadLetteredAction && attempt == db.runs[id].attempt
          else action != DeadLetteredAction && attempt == db.runs[id].attempt + (if db.runs[id].owner.ForPlan? then 1 else 0))
    case RunSuperseded(id, attempt) =>
      && (CancelledInQueue(db, b.queued, id) || (ExpiredByPlanLoop(db, b, clock, id) && !IsCurrent(db, id)))
      && attempt == db.runs[id].attempt
    case _ => false
  }

  ghost predicate Explained(db: Db, b: Batches, clock: Clock, s: Db, t: Db) {
    && s.outbox <= t.outbox && (forall i :: |s.outbox| <= i < |t.outbox| ==> Caused(db, b, clock, t.outbox[i].request))
    && s.audit <= t.audit && (forall i :: |s.audit| <= i < |t.audit| ==> Founded(db, b, clock, t.audit[i]))
  }

  lemma ExplainedTransitive(db: Db, b: Batches, clock: Clock, s: Db, t: Db, u: Db)
    requires Explained(db, b, clock, s, t) && Explained(db, b, clock, t, u)
    ensures Explained(db, b, clock, s, u)
  {
    forall i | |s.outbox| <= i < |u.outbox| ensures Caused(db, b, clock, u.outbox[i].request) {
      if i < |t.outbox| { assert u.outbox[i] == t.outbox[i]; }
    }
    forall i | |s.audit| <= i < |u.audit| ensures Founded(db, b, clock, u.audit[i]) {
      if i < |t.audit| { assert u.audit[i] == t.audit[i]; }
    }
  }

  /** The task meets its row as the sweep found it. */
  ghost predicate Grounded(db: Db, b: Batches, clock: Clock, before: Db, task: Task) {
    && SameLineage(db, before)
    && match task
       case QueuedMessage(m) => m in b.messages
       case StaleMessageRun(id) => id in b.queued
       case StalePlanRun(id) => id in b.queued && (id in db.runs ==> before.runs[id] == db.runs[id])
       case MessageLease(id) =>
         id in b.leases && (RecoversMessageLease(before, id, clock) ==> ExpiredByMessageLoop(db, b, clock, id) && before.runs[id] == db.runs[id])
       case PlanLease(id) =>
         id in b.legal && (RecoversPlanLease(before, id, clock) ==> ExpiredByPlanLoop(db, b, clock, id) && before.runs[id] == db.runs[id])
  }

  lemma EnsureExplained(db: Db, b: Batches, clock: Clock, s: Db, request: Request)
    requires Caused(db, b, clock, request)
    ensures Explained(db, b, clock, s, EnsureEvent(s, request))
  {
    if !HasPending(s.outbox, request) {
      EventExplained(db, b, clock, s, EnsureEvent(s, request), request);
    } else {
      NothingExplained(db, b, clock, s);
    }
  }

  lemma NothingExplained(db: Db, b: Batches, clock: Clock, s: Db)
    ensures Explained(db, b, clock, s, s)
  {
  }

  lemma EventExplained(db: Db, b: Batches, clock: Clock, s: Db, t: Db, request: Request)
    requires Caused(db, b, clock, request)
    requires t.outbox == s.outbox + [OutboxEvent(request, Pending)] && t.audit == s.audit + [RecoveryEnqueued(request)]
    ensures Explained(db, b, clock, s, t)
  {
    assert Founded(db, b, clock, RecoveryEnqueued(request));
    forall i | |s.outbox| <= i < |t.outbox| ensures Caused(db, b, clock, t.outbox[i].request) {
      assert t.outbox[i] == OutboxEvent(request, Pending);
    }
    forall i | |s.audit| <= i < |t.audit| ensures Founded(db, b, clock, t.audit[i]) {
      assert t.audit[i] == RecoveryEnqueued(request);
    }
  }

  lemma NoteExplained(db: Db, b: Batches, clock: Clock, s: Db, t: Db, note: AuditEvent)
    requires Founded(db, b, clock, note) && t.outbox == s.outbox && t.audit == s.audit + [note]
    ensures Explained(db, b, clock, s, t)
  {
  }

  lemma QueueExplained(db: Db, b: Batches, clock: Clock, s: Sweep, task: Task)
    requires Grounded(db, b, clock, s.db, task) && !task.MessageLease? && !task.PlanLease?
    ensures Explained(db, b, clock, s.db, Perform(s, task, clock).db)
  {
    match task
    case QueuedMessage(m) => EnsureExplained(db, b, clock, s.db, AnalysisRequested(m, MissingActiveRun));
    case StaleMessageRun(id) =>
      if id in s.db.runs && s.db.runs[id].owner.ForMessage? {
        assert id in db.runs && db.runs[id].owner == s.db.runs[id].owner;
        EnsureExplained(db, b, clock, s.db, AnalysisRequested(s.db.runs[id].owner.message, StaleQueuedRun));
      }
    case StalePlanRun(id) =>
      SameCurrent(db, s.db, id);
      if id in s.db.runs && s.db.runs[id].owner.ForPlan? {
        var owner := s.db.runs[id].owner;
        if IsCurrent(s.db, id) {
          EnsureExplained(db, b, clock, s.db, LegalRecoveryRequested(owner.plan, id, owner.role, StaleQueuedRun));
        } else {
          NoteExplained(db, b, clock, s.db, Perform(s, task, clock).db, RunSuperseded(id, s.db.runs[id].attempt));
        }
      }
  }

  lemma MessageLeaseExplained(db: Db, b: Batches, clock: Clock, s: Sweep, id: RunId)
    requires Grounded(db, b, clock, s.db, MessageLease(id)) && RecoversMessageLease(s.db, id, clock)
    ensures Explained(db, b, clock, s.db, RecoverMessageLease(s, id, clock).db)
    ensures RecoverMessageLease(s, id, clock).db.audit != [] && Reports(RecoverMessageLease(s, id, clock).db.audit, |s.db.audit|, id)
  {
    var run, after := s.db.runs[id], RecoverMessageLease(s, id, clock).db;
    var saved := FailedForLease(s.db, id, clock);
    if run.attempt >= run.maxAttempts {
      NoteExplained(db, b, clock, s.db, after, LeaseRecovered(id, run.attempt, DeadLetteredAction));
      assert after.audit[|s.db.audit|] == LeaseRecovered(id, run.attempt, DeadLetteredAction);
    } else {
      var request := AnalysisRequested(run.owner.message, ExpiredLease);
      var sent, created := EnsureEvent(saved, request), !HasPending(s.db.outbox, request);
      EnsureExplained(db, b, clock, saved, request);
      NoteExplained(db, b, clock, sent, after, LeaseRecovered(id, run.attempt, ActionOf(created)));
      ExplainedTransitive(db, b, clock, saved, sent, after);
      assert after.audit[|sent.audit|] == LeaseRecovered(id, run.attempt, ActionOf(created));
    }
  }

  /** From some record on, the audit tells of the run. */
  ghost predicate Reports(audit: seq<AuditEvent>, start: nat, id: RunId) {
    exists i :: start <= i < |audit| && ((audit[i].LeaseRecovered? && audit[i].run == id) || (audit[i].RunSuperseded? && audit[i].run == id))
  }

  lemma PlanLeaseExplained(db: Db, b: Batches, clock: Clock, s: Sweep, id: RunId)
    requires Grounded(db, b, clock, s.db, PlanLease(id)) && RecoversPlanLease(s.db, id, clock)
    ensures Explained(db, b, clock, s.db, RecoverPlanLease(s, id, clock).db)
    ensures Reports(RecoverPlanLease(s, id, clock).db.audit, |s.db.audit|, id)
  {
    SameCurrent(db, s.db, id);
    var run, after := s.db.runs[id], RecoverPlanLease(s, id, clock).db;
    if !IsCurrent(s.db, id) {
      NoteExplained(db, b, clock, s.db, after, RunSuperseded(id, run.attempt));
      assert after.audit[|s.db.audit|] == RunSuperseded(id, run.attempt);
    } else {
      if run.attempt >= run.maxAttempts { DeadLetterExplained(db, b, clock, s, id); } else { RequeueExplained(db, b, clock, s, id); }
    }
  }

  lemma DeadLetterExplained(db: Db, b: Batches, clock: Clock, s: Sweep, id: RunId)
    requires Grounded(db, b, clock, s.db, PlanLease(id)) && RecoversPlanLease(s.db, id, clock) && IsCurrent(s.db, id) && IsCurrent(db, id)
    requires s.db.runs[id].attempt >= s.db.runs[id].maxAttempts
    ensures Explained(db, b, clock, s.db, RecoverPlanLease(s, id, clock).db)
    ensures Reports(RecoverPlanLease(s, id, clock).db.audit, |s.db.audit|, id)
  {
    var after, saved := RecoverPlanLease(s, id, clock).db, Sweep(RequeuedForLease(s.db, id, clock), s.counts);
    var note := LeaseRecovered(id, saved.db.runs[id].attempt, DeadLetteredAction);
    assert after == DeadLetterPhase(saved, id, clock.now).db;
    NoteExplained(db, b, clock, saved.db, after, note);
    assert after.audit[|s.db.audit|] == note;
  }

  lemma RequeueExplained(db: Db, b: Batches, clock: Clock, s: Sweep, id: RunId)
    requires Grounded(db, b, clock, s.db, PlanLease(id)) && RecoversPlanLease(s.db, id, clock) && IsCurrent(s.db, id) && IsCurrent(db, id)
    requires s.db.runs[id].attempt < s.db.runs[id].maxAttempts
    ensures Explained(db, b, clock, s.db, RecoverPlanLease(s, id, clock).db)
    ensures Reports(RecoverPlanLease(s, id, clock).db.audit, |s.db.audit|, id)
  {
    var run, after := s.db.runs[id], RecoverPlanLease(s, id, clock).db;
    var saved := Sweep(RequeuedForLease(s.db, id, clock), s.counts);
    assert after == AnnounceRequeue(saved, id).db;
    var request := LegalRecoveryRequested(run.owner.plan, id, run.owner.role, ExpiredLease);
    var sent := EnsureEvent(saved.db, request);
    var note := LeaseRecovered(id, saved.db.runs[id].attempt, ActionOf(!HasPending(saved.db.outbox, request)));
    EnsureExplained(db, b, clock, saved.db, request);
    NoteExplained(db, b, clock, sent, after, note);
    ExplainedTransitive(db, b, clock, saved.db, sent, after);
    assert after.audit[|sent.audit|] == note;
  }

  lemma TaskExplained(db: Db, b: Batches, clock: Clock, s: Sweep, task: Task)
    requires Grounded(db, b, clock, s.db, task)
    ensures Explained(db, b, clock, s.db, Perform(s, task, clock).db)
  {
    match task
    case MessageLease(id) => if RecoversMessageLease(s.db, id, clock) { MessageLeaseExplained(db, b, clock, s, id); }
    case PlanLease(id) => if RecoversPlanLease(s.db, id, clock) { PlanLeaseExplained(db, b, clock, s, id); }
    case _ => QueueExplained(db, b, clock, s, task);
  }

  // ---------------------------------------------------------------- over the loops

  ghost predicate AllGrounded(db: Db, b: Batches, clock: Clock, s: Sweep, tasks: seq<Task>) {
    forall k :: 0 <= k < |tasks| ==> Grounded(db, b, clock, PerformAll(s, tasks[..k], clock).db, tasks[k])
  }

  /** The task found a lease to recover. */
  predicate Recovers(db: Db, task: Task, clock: Clock) {
    match task
    case MessageLease(id) => RecoversMessageLease(db, id, clock)
    case PlanLease(id) => RecoversPlanLease(db, id, clock)
    case _ => false
  }

  lemma FrontGrounded(db: Db, b: Batches, clock: Clock, s: Sweep, tasks: seq<Task>)
    requires tasks != [] && AllGrounded(db, b, clock, s, tasks)
    ensures AllGrounded(db, b, clock, s, tasks[..|tasks| - 1])
    ensures Grounded(db, b, clock, PerformAll(s, tasks[..|tasks| - 1], clock).db, tasks[|tasks| - 1])
  {
    var front := tasks[..|tasks| - 1];
    forall k | 0 <= k < |front| ensures Grounded(db, b, clock, PerformAll(s, front[..k], clock).db, front[k]) {
      assert front[..k] == tasks[..k] && front[k] == tasks[k];
    }
  }

  lemma {:induction false} LoopExplained(db: Db, b: Batches, clock: Clock, s: Sweep, tasks: seq<Task>)
    requires AllGrounded(db, b, clock, s, tasks)
    ensures Explained(db, b, clock, s.db, PerformAll(s, tasks, clock).db)
  {
    if tasks != [] {
      var n := |tasks| - 1;
      var before := PerformAll(s, tasks[..n], clock);
      FrontGrounded(db, b, clock, s, tasks);
      LoopExplained(db, b, clock, s, tasks[..n]);
      TaskExplained(db, b, clock, before, tasks[n]);
      ExplainedTransitive(db, b, clock, s.db, before.db, PerformAll(s, tasks, clock).db);
    }
  }

  lemma {:induction false} AuditGrows(db: Db, b: Batches, clock: Clock, s: Sweep, tasks: seq<Task>, n: nat)
    requires AllGrounded(db, b, clock, s, tasks) && n <= |tasks|
    ensures PerformAll(s, tasks[..n], clock).db.audit <= PerformAll(s, tasks, clock).db.audit
    decreases |tasks|
  {
    if n < |tasks| {
      var front := tasks[..|tasks| - 1];
      FrontGrounded(db, b, clock, s, tasks);
      AuditGrows(db, b, clock, s, front, n);
      assert front[..n] == tasks[..n];
      TaskExplained(db, b, clock, PerformAll(s, front, clock), tasks[|tasks| - 1]);
    } else {
      assert tasks[..n] == tasks;
    }
  }

  lemma FrontAudit(db: Db, b: Batches, clock: Clock, s: Sweep, tasks: seq<Task>, k: nat)
    requires AllGrounded(db, b, clock, s, tasks) && k < |tasks|
    ensures s.db.audit <= PerformAll(s, tasks[..k], clock).db.audit
  {
    var front := tasks[..k];
    forall j | 0 <= j < k ensures Grounded(db, b, clock, PerformAll(s, front[..j], clock).db, front[j]) {
      assert front[..j] == tasks[..j] && front[j] == tasks[j];
    }
    LoopExplained(db, b, clock, s, front);
  }

  /** A task that finds a lease is reported, and the report stays. */
  lemma TaskReported(db: Db, b: Batches, clock: Clock, before: Sweep, task: Task, start: nat, audit: seq<AuditEvent>)
    requires Grounded(db, b, clock, before.db, task) && Recovers(before.db, task, clock)
    requires start <= |before.db.audit| && Perform(before, task, clock).db.audit <= audit
    ensures Reports(audit, start, task.run)
  {
    LastReports(db, b, clock, before, task);
    ReportStays(Perform(before, task, clock).db.audit, audit, |before.db.audit|, start, task.run);
  }

  lemma PlaceReported(db: Db, b: Batches, clock: Clock, s: Sweep, tasks: seq<Task>, k: nat, before: Sweep, task: Task)
    requires AllGrounded(db, b, clock, s, tasks) && k < |tasks| && task == tasks[k] && before == PerformAll(s, tasks[..k], clock)
    requires Recovers(before.db, task, clock)
    ensures Reports(PerformAll(s, tasks, clock).db.audit, |s.db.audit|, task.run)
  {
    AuditGrows(db, b, clock, s, tasks, k + 1);
    OneMoreTask(s, tasks, clock, k);
    FrontAudit(db, b, clock, s, tasks, k);
    TaskReported(db, b, clock, before, task, |s.db.audit|, PerformAll(s, tasks, clock).db.audit);
  }

  lemma OneMoreTask(s: Sweep, tasks: seq<Task>, clock: Clock, k: nat)
    requires k < |tasks|
    ensures PerformAll(s, tasks[..k + 1], clock) == Perform(PerformAll(s, tasks[..k], clock), tasks[k], clock)
  {
    assert tasks[..k + 1][..k] == tasks[..k];
  }

  lemma LastReports(db: Db, b: Batches, clock: Clock, before: Sweep, task: Task)
    requires Grounded(db, b, clock, before.db, task) && Recovers(before.db, task, clock)
    ensures Reports(Perform(before, task, clock).db.audit, |before.db.audit|, task.run)
  {
    match task
    case MessageLease(id) => MessageLeaseExplained(db, b, clock, before, id);
    case PlanLease(id) => PlanLeaseExplained(db, b, clock, before, id);
  }

  lemma ReportStays(audit: seq<AuditEvent>, longer: seq<AuditEvent>, start: nat, earlier: nat, id: RunId)
    requires audit <= longer && earlier <= start && Reports(audit, start, id)
    ensures Reports(longer, earlier, id)
  {
    var i :| start <= i < |audit| && ((audit[i].LeaseRecovered? && audit[i].run == id) || (audit[i].RunSuperseded? && audit[i].run == id));
    assert longer[i] == audit[i];
  }

  lemma MessagesGrounded(db: Db, b: Batches, clock: Clock)
    ensures AllGrounded(db, b, clock, Sweep(db, Counts(0, 0, 0, 0, 0)), MessageTasks(b.messages))
  {
    var s, tasks := Sweep(db, Counts(0, 0, 0, 0, 0)), MessageTasks(b.messages);
    forall k | 0 <= k < |tasks| ensures Grounded(db, b, clock, PerformAll(s, tasks[..k], clock).db, tasks[k]) {
      SweepFrame(s, tasks[..k], clock);
    }
  }

  lemma StaleMessagesGrounded(db: Db, b: Batches, clock: Clock)
    ensures AllGrounded(db, b, clock, AfterMessages(db, b, clock), StaleMessageTasks(b.queued))
  {
    var s, tasks := AfterMessages(db, b, clock), StaleMessageTasks(b.queued);
    SweepFrame(Sweep(db, Counts(0, 0, 0, 0, 0)), MessageTasks(b.messages), clock);
    forall k | 0 <= k < |tasks| ensures Grounded(db, b, clock, PerformAll(s, tasks[..k], clock).db, tasks[k]) {
      SweepFrame(s, tasks[..k], clock);
      SameLineageTransitive(db, s.db, PerformAll(s, tasks[..k], clock).db);
    }
  }

  lemma StalePlansGrounded(db: Db, b: Batches, clock: Clock)
    requires Distinct(b.queued)
    ensures AllGrounded(db, b, clock, AfterStaleMessageRuns(db, b, clock), StalePlanTasks(b.queued))
  {
    var s, tasks := AfterStaleMessageRuns(db, b, clock), StalePlanTasks(b.queued);
    MessagesOutcome(Sweep(db, Counts(0, 0, 0, 0, 0)), b.messages, clock);
    StaleMessageRunsOutcome(AfterMessages(db, b, clock), b.queued, clock);
    assert SameLineage(db, s.db);
    forall k | 0 <= k < |tasks| ensures Grounded(db, b, clock, PerformAll(s, tasks[..k], clock).db, tasks[k]) {
      var before := PerformAll(s, tasks[..k], clock);
      assert tasks[..k] == StalePlanTasks(b.queued[..k]);
      SweepFrame(s, tasks[..k], clock);
      SameLineageTransitive(db, s.db, before.db);
      StalePlanRunsOutcome(s, b.queued[..k], clock);
      assert b.queued[k] !in b.queued[..k];
    }
  }

  lemma MessageLeaseAfter(s: Sweep, front: seq<RunId>, id: RunId, ids: seq<RunId>, clock: Clock, before: Db)
    requires ids == front + [id] && Distinct(ids) && before == PerformAll(s, MessageLeaseTasks(front), clock).db
    ensures SameLineage(s.db, before) && RecoversMessageLease(before, id, clock) == RecoversMessageLease(s.db, id, clock)
    ensures id in s.db.runs ==> before.runs[id] == s.db.runs[id]
  {
    assert ids[..|ids| - 1] == front && ids[|ids| - 1] == id;
    var met := MessageLeaseUndisturbed(s, ids, clock);
    assert id !in front;
    assert id in s.db.runs ==> before.runs[id] == MessageLeaseOutcome(s.db, front, clock, id);
  }

  /** The `k`-th message lease meets its run as the loop found it. */
  lemma MessageLeaseAt(s: Sweep, ids: seq<RunId>, clock: Clock, k: nat, before: Db)
    requires Distinct(ids) && k < |ids| && before == PerformAll(s, MessageLeaseTasks(ids)[..k], clock).db
    ensures SameLineage(s.db, before) && RecoversMessageLease(before, ids[k], clock) == RecoversMessageLease(s.db, ids[k], clock)
    ensures ids[k] in s.db.runs ==> before.runs[ids[k]] == s.db.runs[ids[k]]
  {
    var front, longer := ids[..k], ids[..k + 1];
    assert MessageLeaseTasks(ids)[..k] == MessageLeaseTasks(front) && longer == front + [ids[k]];
    MessageLeaseAfter(s, front, ids[k], longer, clock, before);
  }

  lemma PlanLeaseAfter(s: Sweep, front: seq<RunId>, id: RunId, ids: seq<RunId>, clock: Clock, before: Db)
    requires ids == front + [id] && Distinct(ids) && before == PerformAll(s, PlanLeaseTasks(front), clock).db
    ensures SameLineage(s.db, before) && RecoversPlanLease(before, id, clock) == RecoversPlanLease(s.db, id, clock)
    ensures id in s.db.runs ==> before.runs[id] == s.db.runs[id]
  {
    assert ids[..|ids| - 1] == front && ids[|ids| - 1] == id;
    PlanLeasesOutcome(s, front, clock);
    var met := PlanLeaseUndisturbed(s, ids, clock);
    assert id !in front;
    assert id in s.db.runs ==> before.runs[id] == PlanLeaseOutcome(s.db, front, clock, id);
  }

  lemma PlanLeaseAt(s: Sweep, ids: seq<RunId>, clock: Clock, k: nat, before: Db)
    requires Distinct(ids) && k < |ids| && before == PerformAll(s, PlanLeaseTasks(ids)[..k], clock).db
    ensures SameLineage(s.db, before) && RecoversPlanLease(before, ids[k], clock) == RecoversPlanLease(s.db, ids[k], clock)
    ensures ids[k] in s.db.runs ==> before.runs[ids[k]] == s.db.runs[ids[k]]
  {
    var front, longer := ids[..k], ids[..k + 1];
    assert PlanLeaseTasks(ids)[..k] == PlanLeaseTasks(front) && longer == front + [ids[k]];
    PlanLeaseAfter(s, front, ids[k], longer, clock, before);
  }

  lemma MessageLeaseGrounded(db: Db, b: Batches, clock: Clock, s3: Db, s4: Db, s5: Db, before: Db, id: RunId)
    requires Staged(db, b, clock, s3, s4, s5) && id in b.leases && SameLineage(s3, before)
    requires RecoversMessageLease(before, id, clock) ==> RecoversMessageLease(s3, id, clock) && before.runs[id] == s3.runs[id]
    ensures Grounded(db, b, clock, before, MessageLease(id))
  {
    SameLineageTransitive(db, s3, before);
    if RecoversMessageLease(before, id, clock) { SameVerdicts(db, b, clock, s3, s4, s5, id); }
  }

  lemma PlanLeaseGrounded(db: Db, b: Batches, clock: Clock, s3: Db, s4: Db, s5: Db, before: Db, id: RunId)
    requires Staged(db, b, clock, s3, s4, s5) && id in b.legal && SameLineage(s4, before)
    requires RecoversPlanLease(before, id, clock) ==> RecoversPlanLease(s4, id, clock) && before.runs[id] == s4.runs[id]
    ensures Grounded(db, b, clock, before, PlanLease(id))
  {
    SameLineageTransitive(db, s3, s4);
    SameLineageTransitive(db, s4, before);
    if RecoversPlanLease(before, id, clock) {
      assert s4.runs[id] == MessageLeaseOutcome(s3, b.leases, clock, id);
      SameVerdicts(db, b, clock, s3, s4, s5, id);
    }
  }

  /** The loops before the leases. */
  lemma QueueLoopsExplained(db: Db, b: Batches, clock: Clock)
    requires Distinct(b.queued)
    ensures Explained(db, b, clock, db, AfterStalePlanRuns(db, b, clock).db)
  {
    var t0, t1, t2 := Sweep(db, Counts(0, 0, 0, 0, 0)), AfterMessages(db, b, clock), AfterStaleMessageRuns(db, b, clock);
    MessagesGrounded(db, b, clock);
    StaleMessagesGrounded(db, b, clock);
    StalePlansGrounded(db, b, clock);
    LoopExplained(db, b, clock, t0, MessageTasks(b.messages));
    LoopExplained(db, b, clock, t1, StaleMessageTasks(b.queued));
    LoopExplained(db, b, clock, t2, StalePlanTasks(b.queued));
    ExplainedTransitive(db, b, clock, db, t1.db, t2.db);
    ExplainedTransitive(db, b, clock, db, t2.db, AfterStalePlanRuns(db, b, clock).db);
  }

  lemma MessageLoopGrounded(db: Db, b: Batches, clock: Clock, s3: Db, s4: Db, s5: Db, s: Sweep)
    requires Staged(db, b, clock, s3, s4, s5) && Distinct(b.leases) && s.db == s3
    ensures AllGrounded(db, b, clock, s, MessageLeaseTasks(b.leases))
  {
    var tasks := MessageLeaseTasks(b.leases);
    forall k | 0 <= k < |tasks| ensures Grounded(db, b, clock, PerformAll(s, tasks[..k], clock).db, tasks[k]) {
      MessageLeaseAt(s, b.leases, clock, k, PerformAll(s, tasks[..k], clock).db);
      MessageLeaseGrounded(db, b, clock, s3, s4, s5, PerformAll(s, tasks[..k], clock).db, b.leases[k]);
    }
  }

  lemma MessageLoopReports(db: Db, b: Batches, s: Sweep, ids: seq<RunId>, clock: Clock, id: RunId)
    requires Distinct(ids) && AllGrounded(db, b, clock, s, MessageLeaseTasks(ids)) && id in ids && RecoversMessageLease(s.db, id, clock)
    ensures Reports(PerformAll(s, MessageLeaseTasks(ids), clock).db.audit, |s.db.audit|, id)
  {
    var tasks := MessageLeaseTasks(ids);
    var k :| 0 <= k < |ids| && ids[k] == id;
    var before := PerformAll(s, tasks[..k], clock);
    MessageLeaseAt(s, ids, clock, k, before.db);
    PlaceReported(db, b, clock, s, tasks, k, before, MessageLease(id));
  }

  lemma PlanLoopGrounded(db: Db, b: Batches, clock: Clock, s3: Db, s4: Db, s5: Db, s: Sweep)
    requires Staged(db, b, clock, s3, s4, s5) && Distinct(b.legal) && s.db == s4
    ensures AllGrounded(db, b, clock, s, PlanLeaseTasks(b.legal))
  {
    var tasks := PlanLeaseTasks(b.legal);
    forall k | 0 <= k < |tasks| ensures Grounded(db, b, clock, PerformAll(s, tasks[..k], clock).db, tasks[k]) {
      PlanLeaseAt(s, b.legal, clock, k, PerformAll(s, tasks[..k], clock).db);
      PlanLeaseGrounded(db, b, clock, s3, s4, s5, PerformAll(s, tasks[..k], clock).db, b.legal[k]);
    }
  }

  lemma PlanLoopReports(db: Db, b: Batches, s: Sweep, ids: seq<RunId>, clock: Clock, id: RunId)
    requires Distinct(ids) && AllGrounded(db, b, clock, s, PlanLeaseTasks(ids)) && id in ids && RecoversPlanLease(s.db, id, clock)
    ensures Reports(PerformAll(s, PlanLeaseTasks(ids), clock).db.audit, |s.db.audit|, id)
  {
    var tasks := PlanLeaseTasks(ids);
    var k :| 0 <= k < |ids| && ids[k] == id;
    var before := PerformAll(s, tasks[..k], clock);
    PlanLeaseAt(s, ids, clock, k, before.db);
    PlaceReported(db, b, clock, s, tasks, k, before, PlanLease(id));
  }

  lemma ExpiredReported(db: Db, b: Batches, clock: Clock, s3: Sweep, s4: Sweep, s5: Sweep, id: RunId)
    requires Staged(db, b, clock, s3.db, s4.db, s5.db) && Expires(db, b, clock, id) && Distinct(b.leases) && Distinct(b.legal)
    requires db.audit <= s3.db.audit && s3.db.audit <= s4.db.audit && s4.db.audit <= s5.db.audit
    requires s4 == PerformAll(s3, MessageLeaseTasks(b.leases), clock) && AllGrounded(db, b, clock, s3, MessageLeaseTasks(b.leases))
    requires s5 == PerformAll(s4, PlanLeaseTasks(b.legal), clock) && AllGrounded(db, b, clock, s4, PlanLeaseTasks(b.legal))
    ensures Reports(s5.db.audit, |db.audit|, id)
  {
    SameVerdicts(db, b, clock, s3.db, s4.db, s5.db, id);
    if ExpiredByMessageLoop(db, b, clock, id) {
      MessageLoopReports(db, b, s3, b.leases, clock, id);
      ReportStays(s4.db.audit, s5.db.audit, |s3.db.audit|, |db.audit|, id);
    } else {
      PlanLoopReports(db, b, s4, b.legal, clock, id);
      ReportStays(s5.db.audit, s5.db.audit, |s4.db.audit|, |db.audit|, id);
    }
  }

  /** Every event and every audit record of a whole sweep is founded in the database it started from, and every run it
      expired is reported. */
  lemma SweepIsExplained(db: Db, sel: Selection, b: Batches, clock: Clock)
    requires Selected(db, sel, b, clock)
    ensures Explained(db, b, clock, db, Recovered(db, b, clock).db)
    ensures forall id :: Expires(db, b, clock, id) ==> Reports(Recovered(db, b, clock).db.audit, |db.audit|, id)
  {
    BatchFacts(db, sel, b, clock);
    var s3, s4, s5 := Stages(db, sel, b, clock);
    var t3, t4, t5 := AfterStalePlanRuns(db, b, clock), AfterMessageLeases(db, b, clock), Recovered(db, b, clock);
    QueueLoopsExplained(db, b, clock);
    MessageLoopGrounded(db, b, clock, s3, s4, s5, t3);
    PlanLoopGrounded(db, b, clock, s3, s4, s5, t4);
    LoopExplained(db, b, clock, t3, MessageLeaseTasks(b.leases));
    LoopExplained(db, b, clock, t4, PlanLeaseTasks(b.legal));
    ExplainedTransitive(db, b, clock, db, s3, s4);
    ExplainedTransitive(db, b, clock, db, s4, s5);
    forall id | Expires(db, b, clock, id) ensures Reports(s5.audit, |db.audit|, id) {
      ExpiredReported(db, b, clock, t3, t4, t5, id);
    }
  }
}
