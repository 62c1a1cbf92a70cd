/** What every transaction does to a case and to the audit rows about it. */
module CaseHistory {
  import opened Contracts
  import opened Planning
  import opened Store

  /** One audited write of a case: the state before, absent for a new case, and the state after. */
  datatype Entry = Entry(previous: Option<CaseState>, next: CaseState)

  /** A planner that stops or escalates repeats its row; the repetition is skipped. */
  predicate Repeats(r: AuditRow) {
    r.actor.PolicyEngine? && (r.action.CaseEscalated? || r.action.CaseStopped?)
  }

  function EntryOf(r: AuditRow, c: string): seq<Entry> {
    if r.entity.CaseEntity? && r.entityId == c && r.next.Some? && !Repeats(r)
    then [Entry(r.previous, r.next.value)] else []
  }

  function Trail(audit: seq<AuditRow>, c: string): seq<Entry> {
    if audit == [] then []
    else Trail(audit[..|audit| - 1], c) + EntryOf(audit[|audit| - 1], c)
  }

  lemma TrailLast(audit: seq<AuditRow>, r: AuditRow, c: string)
    ensures Trail(audit + [r], c) == Trail(audit, c) + EntryOf(r, c)
  {
    assert (audit + [r])[..|audit|] == audit;
  }

  lemma TrailLastTwo(audit: seq<AuditRow>, r: AuditRow, q: AuditRow, c: string)
    ensures Trail(audit + [r, q], c) == Trail(audit, c) + EntryOf(r, c) + EntryOf(q, c)
  {
    assert audit + [r, q] == (audit + [r]) + [q];
    TrailLast(audit, r, c);
    TrailLast(audit + [r], q, c);
  }

  /** The case, present or not, and its trail are as before. */
  ghost predicate Untouched(a: Db, b: Db, c: string) {
    && (c in b.cases <==> c in a.cases)
    && (c in a.cases ==> b.cases[c] == a.cases[c])
    && Trail(b.audit, c) == Trail(a.audit, c)
  }

  /** The case has its next version, and the trail says what happened to the state. */
  ghost predicate Logged(a: Db, b: Db, c: string) {
    && c in a.cases && c in b.cases
    && b.cases[c].version == a.cases[c].version + 1
    && Trail(b.audit, c) == Trail(a.audit, c) + [Entry(Some(a.cases[c].state), b.cases[c].state)]
  }

  predicate SameAmount(a: Db, b: Db, c: string)
    requires c in a.cases && c in b.cases
  {
    b.cases[c].amountMinor == a.cases[c].amountMinor
  }

  /** The transition of a logged write, if there is one, satisfies from and to. */
  ghost predicate Touches(a: Db, b: Db, c: string, from: set<CaseState>, to: set<CaseState>) {
    Untouched(a, b, c) ||
    (Logged(a, b, c) && SameAmount(a, b, c) && a.cases[c].state in from && b.cases[c].state in to)
  }

  const ANY: set<CaseState> :=
    {Detected, Qualified, Diagnosed, Planned, PolicyChecked, Queued, Executing, AwaitingCustomerAction,
     Recovered, Ambiguous, Failed, Retryable, Escalated, Stopped, Expired, Rejected}

  lemma AnyIsAny()
    ensures forall s: CaseState :: s in ANY
  {
    forall s: CaseState ensures s in ANY {
      match s case Detected => case _ =>
    }
  }

  lemma PlanTrail(audit: seq<AuditRow>, plan: RecoveryPlan, previous: CaseState, next: CaseState, c: string)
    ensures Trail(audit + PlanAudit(plan, previous, next), c) ==
      Trail(audit, c) + if plan.caseId == c then [Entry(Some(previous), next)] else []
  {
    hide Trail;
    var rows := PlanAudit(plan, previous, next);
    TrailLastTwo(audit, rows[0], rows[1], c);
    if |rows| == 3 {
      TrailLast(audit + [rows[0], rows[1]], rows[2], c);
      assert audit + rows == audit + [rows[0], rows[1]] + [rows[2]];
    } else {
      assert audit + rows == audit + [rows[0], rows[1]];
    }
  }

  lemma CreatePlanHistory(db: Db, plan: RecoveryPlan, next: CaseState, c: string)
    ensures Touches(db, After(db, CreatePlan(db, plan, next)), c, ANY, {next})
  {
    hide Trail, PlanAudit;
    AnyIsAny();
    if plan.caseId in db.cases { PlanTrail(db.audit, plan, db.cases[plan.caseId].state, next, c); }
  }

  lemma OutboxHistory(db: Db, x: string, planId: string, outboxId: string, job: Job, now: int, c: string)
    ensures Touches(db, After(db, EnqueuePlanWithOutbox(db, x, planId, outboxId, job, now)), c, {PolicyChecked}, {Queued})
  {
    TrailLast(db.audit, CaseAudit(SystemActor, InterventionEnqueued, x, PolicyChecked, Queued), c);
  }

  lemma EnqueuePlanHistory(db: Db, x: string, planId: string, outboxId: string, now: int, c: string)
    ensures Touches(db, After(db, EnqueuePlan(db, x, planId, outboxId, now)), c, {PolicyChecked}, {Queued})
  {
    hide EnqueuePlanWithOutbox, Trail;
    if x in db.cases { OutboxHistory(db, x, planId, outboxId, Job(planId, x, db.cases[x].merchantId, 1), now, c); }
  }

  lemma PrepareTrail(audit: seq<AuditRow>, cmd: PrepareCommand, newId: string, queued: bool, c: string)
    ensures Trail(audit + PrepareAudit(cmd, newId, queued), c) ==
      Trail(audit, c) + if queued && cmd.caseId == c then [Entry(Some(Queued), Executing)] else []
  {
    var moved := CaseAudit(SystemActor, StateTransitioned, cmd.caseId, Queued, Executing);
    var prepared := PlainAudit(SystemActor, InterventionPrepared, InterventionEntity, newId);
    TrailLast(audit, prepared, c);
    TrailLastTwo(audit, moved, prepared, c);
    assert PrepareAudit(cmd, newId, queued) == if queued then [moved, prepared] else [prepared];
  }

  lemma PrepareHistory(db: Db, cmd: PrepareCommand, newId: string, c: string)
    ensures Touches(db, After(db, PrepareIntervention(db, cmd, newId)), c, {Queued}, {Executing})
  {
    hide Trail;
    if cmd.caseId in db.cases {
      var queued := db.cases[cmd.caseId].state.Queued?;
      PrepareTrail(db.audit, cmd, newId, queued, c);
      hide PrepareAudit;
    }
  }

  lemma MarkCaseHistory(db: Db, x: string, final: CaseState, c: string)
    ensures Touches(db, MarkCase(db, x, final), c, ANY, {final})
  {
    AnyIsAny();
    if x in db.cases {
      TrailLast(db.audit, CaseAudit(SystemActor, if final.Escalated? then CaseEscalated else CaseStopped,
                                    x, db.cases[x].state, final), c);
    }
  }

  lemma SweepHistory(db: Db, i: string, c: string)
    ensures Touches(db, After(db, SweepIntervention(db, i)), c, ANY, {Escalated})
  {
    AnyIsAny();
    if i in db.interventions.rows && db.interventions.rows[i].caseId in db.cases {
      var x := db.interventions.rows[i].caseId;
      TrailLast(db.audit, CaseAudit(SystemActor, CaseEscalated, x, db.cases[x].state, Escalated), c);
    }
  }

  lemma ResultTrail(audit: seq<AuditRow>, done: AuditRow, moved: AuditRow, c: string)
    requires EntryOf(done, c) == []
    ensures Trail(audit + [done], c) == Trail(audit, c)
    ensures Trail(audit + [done] + [moved], c) == Trail(audit, c) + EntryOf(moved, c)
  {
    hide Trail;
    TrailLast(audit, done, c);
    TrailLast(audit + [done], moved, c);
  }

  /** The only write that may set the amount. */
  lemma ResultHistory(db: Db, i: string, status: InterventionStatus, recovered: Option<int>,
    next: CaseState, remaining: Option<int>, c: string)
    ensures var b := After(db, PersistExecutionResult(db, i, status, recovered, next, remaining));
      || Untouched(db, b, c)
      || (&& i in db.interventions.rows && i !in db.outcomes && db.interventions.rows[i].caseId == c
          && Logged(db, b, c) && b.cases[c].state == next != db.cases[c].state
          && b.cases[c].amountMinor == (if remaining.Some? then remaining.value else db.cases[c].amountMinor))
  {
    hide Trail;
    if i in db.interventions.rows && i !in db.outcomes {
      var action := if status.SucceededStatus? then InterventionSuccess else InterventionFailed;
      var x := db.interventions.rows[i].caseId;
      ResultTrail(db.audit, PlainAudit(SystemActor, action, InterventionEntity, i),
        CaseAudit(SystemActor, StateTransitioned, x, if x in db.cases then db.cases[x].state else next, next), c);
    }
  }

  /** A new version without an entry in the trail. */
  ghost predicate Silent(a: Db, b: Db, c: string) {
    && c in a.cases && c in b.cases && SameAmount(a, b, c)
    && b.cases[c].version == a.cases[c].version + 1
    && Trail(b.audit, c) == Trail(a.audit, c)
  }

  lemma CaptureHistory(db: Db, x: string, c: string)
    ensures var b := CaptureUpdate(db, x);
      if x == c && Capturable(db, x) then Silent(db, b, c) && b.cases[c].state == Recovered else Untouched(db, b, c)
  {}

  lemma LogCaptureHistory(db: Db, x: string, previous: CaseState, c: string)
    ensures Untouched(db, CaptureAudit(db, x, previous), c)
  {
    TrailLast(db.audit, AuditRow(SystemActor, PaymentCaptured, WebhookCaseEntity, x, Some(previous), Some(Recovered)), c);
  }

  predicate RetryMoves(db: Db, i: string, c: string) {
    && i in db.interventions.rows && db.interventions.rows[i].caseId == c
    && c in db.cases && !db.cases[c].state.Retryable?
  }

  lemma RetryHistory(db: Db, i: string, c: string)
    ensures var b := ScheduleRetry(db, i);
      if RetryMoves(db, i, c) then Silent(db, b, c) && b.cases[c].state == Retryable else Untouched(db, b, c)
  {}

  lemma RecordedHistory(db: Db, cmd: IngestionCommand, ctx: IngestionContext, merchant: Merchant, customer: string,
    c: string)
    ensures var b := Recorded(db, cmd, ctx, merchant, customer);
      && b.cases == db.cases && b.caseOrder == db.caseOrder && Trail(b.audit, c) == Trail(db.audit, c)
      && ctx.eventId in b.events.rows && b.events.rows[ctx.eventId].event == cmd.event
  {
    hide Trail;
    TrailLast(db.audit, PlainAudit(SystemActor, EventIngested, EventEntity, ctx.eventId), c);
  }

  lemma RecoverLatestHistory(db: Db, merchantId: string, customerId: string, c: string)
    ensures var (b, r) := RecoverLatest(db, merchantId, customerId);
      Touches(db, b, c, ANY - {Recovered}, {Recovered})
  {
    hide Trail;
    var open := LatestOpenCase(db.cases, db.caseOrder, merchantId, customerId);
    if open.Some? {
      AnyIsAny();
      TrailLast(db.audit, CaseAudit(SystemActor, CaseRecoveredByEvent, open.value, db.cases[open.value].state, Recovered), c);
    }
  }

  lemma OpenCaseHistory(db: Db, rc: RecoveryCase, c: string)
    requires rc.caseId !in db.cases
    ensures var b := OpenCase(db, rc);
      if c == rc.caseId
      then c in b.cases && b.cases[c] == rc && Trail(b.audit, c) == Trail(db.audit, c) + [Entry(None, rc.state)]
      else Untouched(db, b, c)
  {
    hide Trail;
    TrailLast(db.audit, AuditRow(SystemActor, CaseCreated, CaseEntity, rc.caseId, None, Some(rc.state)), c);
  }

  /** A stored case can only be recovered; a case that is added starts at version 1 with one entry. */
  lemma IngestHistory(db: Db, cmd: IngestionCommand, ctx: IngestionContext, c: string)
    ensures var b := After(db, Ingest(db, cmd, ctx));
      if c in b.cases && c !in db.cases
      then b.cases[c].version == 1 && b.cases[c].state == Detected
        && b.cases[c].amountMinor == cmd.event.amountMinor && b.cases[c].sourceEventId == ctx.eventId
        && ctx.eventId in b.events.rows && b.events.rows[ctx.eventId].event == cmd.event
        && Trail(b.audit, c) == Trail(db.audit, c) + [Entry(None, Detected)]
      else Touches(db, b, c, ANY - {Recovered}, {Recovered})
  {
    hide Qualification.Qualify, ReplayReceipt, Trail, RecoverLatest, Recorded;
    var tx := Ingest(db, cmd, ctx);
    if tx.Commit? && cmd.idempotencyKey !in db.events.byKey {
      var merchant := MerchantFor(db, cmd, ctx).value;
      var customer := CustomerFor(db, cmd, ctx, merchant);
      var recorded := Recorded(db, cmd, ctx, merchant, customer);
      RecordedHistory(db, cmd, ctx, merchant, customer, c);
      RecoverLatestHistory(recorded, merchant.merchantId, customer, c);
      if ctx.caseId !in recorded.cases { OpenCaseHistory(recorded, NewCase(cmd, ctx, merchant, customer), c); }
    }
  }
}
