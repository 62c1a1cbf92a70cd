/** The rows that every transaction leaves behind, column by column. */
module Records {
  import opened Contracts
  import opened Planning
  import opened Store
  import opened Outbox

  /** The rows appended to the log. */
  function Appended(a: Db, b: Db): seq<AuditRow>
    requires |a.audit| <= |b.audit|
  {
    b.audit[|a.audit|..]
  }

  /** A new plan is stored as it is, under its key; the log says from which state to which, whether the plan was
      approved, and once more if the case was escalated or stopped. */
  lemma PlanIsRecorded(db: Db, plan: RecoveryPlan, next: CaseState)
    requires plan.caseId in db.cases && plan.idempotencyKey !in db.plans.byKey && plan.planId !in db.plans.rows
    ensures var tx := CreatePlan(db, plan, next);
      && tx.Commit? && tx.value == plan.planId
      && plan.planId in tx.db.plans.rows && tx.db.plans.rows[plan.planId] == plan
      && plan.idempotencyKey in tx.db.plans.byKey && tx.db.plans.byKey[plan.idempotencyKey] == plan.planId
      && |db.audit| <= |tx.db.audit|
      && var rows, from := Appended(db, tx.db), Some(db.cases[plan.caseId].state);
      && |rows| == (if next in {Escalated, Stopped} then 3 else 2)
      && rows[0] == AuditRow(PolicyEngine, PlanProposed, CaseEntity, plan.caseId, from, Some(next))
      && rows[1] == AuditRow(PolicyEngine, if plan.planStatus == PolicyApproved then PlanApproved else PlanRejected,
                             PlanEntity, plan.planId, None, None)
      && (next == Escalated ==> rows[2] == AuditRow(PolicyEngine, CaseEscalated, CaseEntity, plan.caseId, from, Some(next)))
      && (next == Stopped ==> rows[2] == AuditRow(PolicyEngine, CaseStopped, CaseEntity, plan.caseId, from, Some(next)))
  {}

  /** An enqueued plan has one pending outbox row, with its first job, that the publisher may claim at once. */
  lemma EnqueuingIsRecorded(db: Db, c: string, planId: string, outboxId: string, now: int)
    requires EnqueuePlan(db, c, planId, outboxId, now).Commit? && planId !in db.outbox.byPlan
    ensures var b := EnqueuePlan(db, c, planId, outboxId, now).db;
      && c in db.cases && outboxId !in db.outbox.rows && outboxId in b.outbox.rows
      && var row := b.outbox.rows[outboxId];
      && row.planId == planId && row.known && row.attempts == 0
      && row.job.planId == planId && row.job.caseId == c && row.job.merchantId == db.cases[c].merchantId
      && row.job.attempt == 1
      && (forall t :: Leasable(row, t) <==> t >= now)
      && |db.audit| <= |b.audit|
      && Appended(db, b) == [AuditRow(SystemActor, InterventionEnqueued, CaseEntity, c, Some(PolicyChecked), Some(Queued))]
  {}

  /** A prepared intervention is pending and unlocked, and belongs to the plan, the case and the attempt it was asked for. */
  lemma PreparationIsRecorded(db: Db, cmd: PrepareCommand, newId: string)
    requires cmd.caseId in db.cases && cmd.key !in db.interventions.byKey
    requires PrepareIntervention(db, cmd, newId).Commit?
    ensures var b := PrepareIntervention(db, cmd, newId).db;
      && newId !in db.interventions.rows && newId in b.interventions.rows
      && b.interventions.rows[newId] ==
           InterventionRow(cmd.planId, cmd.caseId, cmd.interventionType, cmd.attempt, cmd.key, PendingStatus, None)
      && |db.audit| <= |b.audit|
      && var prepared := AuditRow(SystemActor, InterventionPrepared, InterventionEntity, newId, None, None);
      && var rows := Appended(db, b);
      && rows == if db.cases[cmd.caseId].state == Queued
                 then [AuditRow(SystemActor, StateTransitioned, CaseEntity, cmd.caseId, Some(Queued), Some(Executing)), prepared]
                 else [prepared]
  {}

  /** A result is stored once: its status in outcome and intervention, its amount unless it is zero, and in the log whether
      it succeeded and how it moved the case. */
  lemma ResultIsRecorded(db: Db, i: string, status: InterventionStatus, recovered: Option<int>, next: CaseState,
    remaining: Option<int>)
    requires i in db.interventions.rows && i !in db.outcomes
    ensures var tx, c := PersistExecutionResult(db, i, status, recovered, next, remaining), db.interventions.rows[i].caseId;
      && tx.Commit? && i in tx.db.outcomes
      && tx.db.outcomes[i] == Outcome(status, if recovered == Some(0) then None else recovered)
      && tx.db.interventions == db.interventions.(rows :=
           db.interventions.rows[i := db.interventions.rows[i].(status := status)])
      && |db.audit| <= |tx.db.audit|
      && var rows := Appended(db, tx.db);
      && rows != []
      && rows[0] == AuditRow(SystemActor, if status == SucceededStatus then InterventionSuccess else InterventionFailed,
                             InterventionEntity, i, None, None)
      && rows[1..] == if c in db.cases && db.cases[c].state != next
           then [AuditRow(SystemActor, StateTransitioned, CaseEntity, c, Some(db.cases[c].state), Some(next))] else []
  {}

  /** A lock is stale exactly if it is at least as old as the limit. */
  lemma StaleByAge(row: InterventionRow, minutes: int, now: int)
    ensures StaleLease(row, now - minutes * 60 * 1000) <==>
      row.lease.Some? && now - row.lease.value.lockedAt >= minutes * 60_000
  {}

  /** Sweeping, releasing, retrying and blocking differ in what they do to status and lock. */
  lemma RowsAfterSweeps(db: Db, i: string, threshold: int)
    requires i in db.interventions.rows
    ensures var row := db.interventions.rows[i];
      var swept, freed := After(db, SweepIntervention(db, i)), ReleaseStaleLocks(db, threshold);
      var retried, blocked := ScheduleRetry(db, i), After(db, BlockExecution(db, i));
      && i in swept.interventions.rows && swept.interventions.rows[i] == row.(status := FailedStatus, lease := None)
      && i in retried.interventions.rows && retried.interventions.rows[i] == row.(status := RetryScheduledStatus)
      && i in blocked.interventions.rows && blocked.interventions.rows[i] == row.(status := StoppedStatus)
      && blocked.cases == db.cases && blocked.audit == db.audit
      && i in freed.interventions.rows
      && freed.interventions.rows[i] ==
           (if row.lease.Some? && row.lease.value.lockedAt <= threshold then row.(lease := None) else row)
      && freed.cases == db.cases && freed.audit == db.audit && freed.outcomes == db.outcomes
  {}

  // ---- leases and delays of the outbox ----

  /** A claimed row can be claimed again exactly when its lease has passed; an error puts a row off until its delay is over. */
  lemma ClaimableAgain(row: OutboxRow, now: int, duration: nat, later: int)
    ensures Leasable(Leased(row, now + duration), later) <==>
      row.status == OutboxPending && row.availableAt <= later && later > now + duration
    ensures row.attempts == 0 ==>
      (Leasable(AfterError(row, 0, now), later) <==> row.status == OutboxPending && later >= now + 1000)
  {
    assert Power(0) == 1;
  }

  /** A release or a sweep frees the outbox locks whose recorded time is at least as old as the limit, and nothing else. */
  lemma OutboxLocksFreed(rows: map<string, OutboxRow>, o: string, minutes: int, now: int)
    requires o in rows
    ensures var freed := FreeOutbox(rows, now - minutes * 60 * 1000);
      && freed.Keys == rows.Keys
      && freed[o] == rows[o].(lockedAt :=
           if rows[o].lockedAt.Some? && now - rows[o].lockedAt.value >= minutes * 60_000 then None else rows[o].lockedAt)
  {}
}
