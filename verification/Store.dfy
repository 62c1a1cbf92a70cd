/** The tables of the store and, as functions, the effect of every transaction on them
    (libs/persistence/prisma/schema.prisma, libs/persistence/src/repositories/prisma). */
module Store {
  import opened Contracts
  import opened Qualification
  import opened Planning

  datatype InterventionStatus =
    | PendingStatus | SucceededStatus | FailedStatus | AmbiguousStatus | RetryScheduledStatus | StoppedStatus

  /** lockedAt and lockedBy, which are always written together. */
  datatype Lease = Lease(lockedAt: int, lockedBy: string)

  datatype InterventionKey = InterventionKey(planId: string, interventionType: InterventionType, attempt: int)

  /** The columns of the second unique index of interventions. */
  datatype Slot = Slot(caseId: string, interventionType: InterventionType, attempt: int)

  datatype InterventionRow = InterventionRow(
    planId: string,
    caseId: string,
    interventionType: InterventionType,
    attempt: int,
    key: InterventionKey,
    status: InterventionStatus,
    lease: Option<Lease>)
  {
    function SlotOf(): Slot { Slot(caseId, interventionType, attempt) }
  }

  datatype Outcome = Outcome(status: InterventionStatus, recovered: Option<int>)

  datatype Job = Job(planId: string, caseId: string, merchantId: string, attempt: int)

  datatype OutboxStatus = OutboxPending | OutboxPublished | OutboxFailed

  /** `known` says whether eventType is the one type the publisher handles. */
  datatype OutboxRow = OutboxRow(
    planId: string,
    known: bool,
    job: Job,
    status: OutboxStatus,
    attempts: int,
    availableAt: int,
    lockedAt: Option<int>)

  datatype Actor = SystemActor | PolicyEngine

  datatype Action =
    | EventIngested | CaseCreated | CaseRecoveredByEvent | PlanProposed | PlanApproved | PlanRejected
    | CaseEscalated | CaseStopped | InterventionEnqueued | StateTransitioned
    | InterventionPrepared | InterventionSuccess | InterventionFailed | PaymentCaptured

  /** The capture webhook spells the entity type of a case in its own way. */
  datatype Entity = EventEntity | CaseEntity | PlanEntity | InterventionEntity | WebhookCaseEntity

  datatype AuditRow = AuditRow(
    actor: Actor,
    action: Action,
    entity: Entity,
    entityId: string,
    previous: Option<CaseState>,
    next: Option<CaseState>)

  datatype Merchant = Merchant(merchantId: string, segment: string)

  datatype StoredEvent = StoredEvent(event: RevenueEvent, merchantId: string, customerId: string, key: string)

  /** Merchants by external reference, customers by merchant and external reference. */
  datatype People = People(merchants: map<string, Merchant>, customers: map<(string, string), string>)

  // A table maps primary keys to rows; beside it stand its unique indexes.

  datatype EventTable = EventTable(
    rows: map<string, StoredEvent>,
    byKey: map<string, string>,
    bySlot: map<(string, string, EventType), string>)

  datatype PlanTable = PlanTable(rows: map<string, RecoveryPlan>, byKey: map<string, string>)

  datatype OutboxTable = OutboxTable(rows: map<string, OutboxRow>, byPlan: map<string, string>)

  datatype InterventionTable = InterventionTable(
    rows: map<string, InterventionRow>,
    byKey: map<InterventionKey, string>,
    bySlot: map<Slot, string>)

  /** Cases also remember the order in which they were created; an intervention has at most one outcome. */
  datatype Db = Db(
    people: People,
    events: EventTable,
    cases: map<string, RecoveryCase>,
    caseOrder: seq<string>,
    plans: PlanTable,
    outbox: OutboxTable,
    interventions: InterventionTable,
    outcomes: map<string, Outcome>,
    audit: seq<AuditRow>)

  const EMPTY :=
    Db(People(map[], map[]), EventTable(map[], map[], map[]), map[], [], PlanTable(map[], map[]),
       OutboxTable(map[], map[]), InterventionTable(map[], map[], map[]), map[], [])

  datatype TxError =
    | CaseNotFound | PlanNotFound | InterventionNotFound | MerchantNotFound
    | PlanNotApproved | NeedsHuman | WrongState | UniqueViolation

  /** A transaction commits a new store or aborts, which rolls everything back. */
  datatype Tx<+T> = Commit(db: Db, value: T) | Abort(error: TxError)

  function After<T>(db: Db, tx: Tx<T>): Db {
    if tx.Commit? then tx.db else db
  }

  // ---- shared row updates ----

  /** A case moves to another state with the next version. */
  function Move(cases: map<string, RecoveryCase>, c: string, next: CaseState): map<string, RecoveryCase>
    requires c in cases
  {
    cases[c := cases[c].(state := next, version := cases[c].version + 1)]
  }

  function CaseAudit(actor: Actor, action: Action, c: string, previous: CaseState, next: CaseState): AuditRow {
    AuditRow(actor, action, CaseEntity, c, Some(previous), Some(next))
  }

  function PlainAudit(actor: Actor, action: Action, entity: Entity, id: string): AuditRow {
    AuditRow(actor, action, entity, id, None, None)
  }

  // ---- planning.ts ----

  /** Rows written beside a new plan; a stop or an escalation is logged twice. */
  function PlanAudit(plan: RecoveryPlan, previous: CaseState, next: CaseState): seq<AuditRow> {
    [CaseAudit(PolicyEngine, PlanProposed, plan.caseId, previous, next),
     PlainAudit(PolicyEngine, if plan.planStatus.PolicyApproved? then PlanApproved else PlanRejected, PlanEntity, plan.planId)]
    + (if next.Escalated? then [CaseAudit(PolicyEngine, CaseEscalated, plan.caseId, previous, next)]
       else if next.Stopped? then [CaseAudit(PolicyEngine, CaseStopped, plan.caseId, previous, next)]
       else [])
  }

  /** Answers the id of the plan that now owns the key. */
  function CreatePlan(db: Db, plan: RecoveryPlan, next: CaseState): Tx<string> {
    if plan.caseId !in db.cases then Abort(CaseNotFound)
    else if plan.idempotencyKey in db.plans.byKey then Commit(db, db.plans.byKey[plan.idempotencyKey])
    else if plan.planId in db.plans.rows then Abort(UniqueViolation)
    else
      Commit(db.(cases := Move(db.cases, plan.caseId, next),
                 plans := PlanTable(db.plans.rows[plan.planId := plan],
                                    db.plans.byKey[plan.idempotencyKey := plan.planId]),
                 audit := db.audit + PlanAudit(plan, db.cases[plan.caseId].state, next)),
             plan.planId)
  }

  function EnqueuePlanWithOutbox(db: Db, c: string, planId: string, outboxId: string, job: Job, now: int): Tx<()> {
    if c !in db.cases then Abort(CaseNotFound)
    else if db.cases[c].state != PolicyChecked then Abort(WrongState)
    else if planId in db.outbox.byPlan then Commit(db, ())
    else if outboxId in db.outbox.rows then Abort(UniqueViolation)
    else
      Commit(db.(cases := Move(db.cases, c, Queued),
                 outbox := OutboxTable(
                   db.outbox.rows[outboxId := OutboxRow(planId, true, job, OutboxPending, 0, now, None)],
                   db.outbox.byPlan[planId := outboxId]),
                 audit := db.audit + [CaseAudit(SystemActor, InterventionEnqueued, c, PolicyChecked, Queued)]),
             ())
  }

  /** The checks of PlanningService.enqueuePlan; plans are never updated, so they may be made in the transaction. */
  function EnqueuePlan(db: Db, c: string, planId: string, outboxId: string, now: int): Tx<()> {
    if c !in db.cases then Abort(CaseNotFound)
    else if planId !in db.plans.rows || db.plans.rows[planId].caseId != c then Abort(PlanNotFound)
    else if !db.plans.rows[planId].planStatus.PolicyApproved? then Abort(PlanNotApproved)
    else if db.plans.rows[planId].requiresHumanApproval then Abort(NeedsHuman)
    else if db.cases[c].state != PolicyChecked then Abort(WrongState)
    else EnqueuePlanWithOutbox(db, c, planId, outboxId, Job(planId, c, db.cases[c].merchantId, 1), now)
  }

  // ---- execution.ts ----

  datatype PrepareCommand = PrepareCommand(
    planId: string,
    caseId: string,
    interventionType: InterventionType,
    key: InterventionKey,
    attempt: int)

  function NewIntervention(cmd: PrepareCommand): InterventionRow {
    InterventionRow(cmd.planId, cmd.caseId, cmd.interventionType, cmd.attempt, cmd.key, PendingStatus, None)
  }

  /** Rows written beside a new intervention. */
  function PrepareAudit(cmd: PrepareCommand, newId: string, queued: bool): seq<AuditRow> {
    (if queued then [CaseAudit(SystemActor, StateTransitioned, cmd.caseId, Queued, Executing)] else [])
    + [PlainAudit(SystemActor, InterventionPrepared, InterventionEntity, newId)]
  }

  function PrepareIntervention(db: Db, cmd: PrepareCommand, newId: string): Tx<string> {
    var row := NewIntervention(cmd);
    if cmd.caseId !in db.cases then Abort(CaseNotFound)
    else if cmd.key in db.interventions.byKey then Commit(db, db.interventions.byKey[cmd.key])
    else if newId in db.interventions.rows || row.SlotOf() in db.interventions.bySlot then Abort(UniqueViolation)
    else
      var queued := db.cases[cmd.caseId].state.Queued?;
      Commit(db.(interventions := InterventionTable(
                   db.interventions.rows[newId := row],
                   db.interventions.byKey[cmd.key := newId],
                   db.interventions.bySlot[row.SlotOf() := newId]),
                 cases := if queued then Move(db.cases, cmd.caseId, Executing) else db.cases,
                 audit := db.audit + PrepareAudit(cmd, newId, queued)),
             newId)
  }

  /** One row of the intervention table is updated; its keys never are. */
  function SetRow(t: InterventionTable, i: string, row: InterventionRow): InterventionTable {
    t.(rows := t.rows[i := row])
  }

  /** The two final markers of a failed workflow. */
  function MarkCase(db: Db, c: string, final: CaseState): Db {
    if c !in db.cases || db.cases[c].state.Escalated? || db.cases[c].state.Stopped? then db
    else
      db.(cases := Move(db.cases, c, final),
          audit := db.audit + [CaseAudit(SystemActor, if final.Escalated? then CaseEscalated else CaseStopped,
                                         c, db.cases[c].state, final)])
  }

  predicate Claimable(db: Db, i: string) {
    i in db.interventions.rows && db.interventions.rows[i].lease.None?
  }

  function ClaimExecutionLock(db: Db, i: string, lease: Lease): Db {
    if Claimable(db, i)
    then db.(interventions := SetRow(db.interventions, i, db.interventions.rows[i].(lease := Some(lease))))
    else db
  }

  predicate StaleLease(row: InterventionRow, threshold: int) {
    row.lease.Some? && row.lease.value.lockedAt <= threshold
  }

  function FreeOutbox(outbox: map<string, OutboxRow>, threshold: int): map<string, OutboxRow> {
    map o | o in outbox ::
      if outbox[o].lockedAt.Some? && outbox[o].lockedAt.value <= threshold then outbox[o].(lockedAt := None) else outbox[o]
  }

  function ReleaseStaleLocks(db: Db, threshold: int): Db {
    db.(interventions := db.interventions.(rows := map i | i in db.interventions.rows ::
          if StaleLease(db.interventions.rows[i], threshold)
          then db.interventions.rows[i].(lease := None) else db.interventions.rows[i]),
        outbox := db.outbox.(rows := FreeOutbox(db.outbox.rows, threshold)))
  }

  /** One iteration of the escalating sweep; the value tells whether the case was escalated. */
  function SweepIntervention(db: Db, i: string): Tx<bool> {
    if i !in db.interventions.rows then Abort(InterventionNotFound)
    else
      var row := db.interventions.rows[i];
      var freed := db.(interventions := SetRow(db.interventions, i, row.(lease := None, status := FailedStatus)));
      var c := row.caseId;
      if c in db.cases && !db.cases[c].state.Escalated? && !db.cases[c].state.Stopped?
      then Commit(freed.(cases := Move(db.cases, c, Escalated),
                         audit := db.audit + [CaseAudit(SystemActor, CaseEscalated, c, db.cases[c].state, Escalated)]), true)
      else Commit(freed, false)
  }

  /** A recovered amount of zero is stored as no amount. */
  function OutcomeRow(status: InterventionStatus, recovered: Option<int>): Outcome {
    Outcome(status, if recovered == Some(0) then None else recovered)
  }

  /** Outcome, status and audit row of a result. */
  function Settle(db: Db, i: string, status: InterventionStatus, recovered: Option<int>): Db
    requires i in db.interventions.rows
  {
    var action := if status.SucceededStatus? then InterventionSuccess else InterventionFailed;
    db.(outcomes := db.outcomes[i := OutcomeRow(status, recovered)],
        interventions := SetRow(db.interventions, i, db.interventions.rows[i].(status := status)),
        audit := db.audit + [PlainAudit(SystemActor, action, InterventionEntity, i)])
  }

  /** The case takes the resulting state, and the remaining amount if there is one, unless it is in that state. */
  function MoveToResult(db: Db, c: string, next: CaseState, remaining: Option<int>): Db {
    if c in db.cases && db.cases[c].state != next then
      var moved := db.cases[c].(state := next, version := db.cases[c].version + 1,
                                amountMinor := if remaining.Some? then remaining.value else db.cases[c].amountMinor);
      db.(cases := db.cases[c := moved],
          audit := db.audit + [CaseAudit(SystemActor, StateTransitioned, c, db.cases[c].state, next)])
    else db
  }

  function PersistExecutionResult(db: Db, i: string, status: InterventionStatus, recovered: Option<int>,
    next: CaseState, remaining: Option<int>): Tx<()>
  {
    if i !in db.interventions.rows then Abort(InterventionNotFound)
    else if i in db.outcomes then Abort(UniqueViolation)
    else
      Commit(MoveToResult(Settle(db, i, status, recovered), db.interventions.rows[i].caseId, next, remaining), ())
  }

  /** Moves the case without an audit row. */
  function ScheduleRetry(db: Db, i: string): Db {
    if i !in db.interventions.rows then db
    else
      var row := db.interventions.rows[i];
      var marked := db.(interventions := SetRow(db.interventions, i, row.(status := RetryScheduledStatus)));
      if row.caseId in db.cases && !db.cases[row.caseId].state.Retryable?
      then marked.(cases := Move(db.cases, row.caseId, Retryable))
      else marked
  }

  function BlockExecution(db: Db, i: string): Tx<()> {
    if i !in db.interventions.rows then Abort(InterventionNotFound)
    else Commit(db.(interventions := SetRow(db.interventions, i, db.interventions.rows[i].(status := StoppedStatus))), ())
  }

  // ---- razorpay-events.processor.ts ----

  predicate Capturable(db: Db, c: string) {
    c in db.cases && db.cases[c].state !in {Recovered, Failed, Stopped}
  }

  function CaptureUpdate(db: Db, c: string): Db {
    if Capturable(db, c) then db.(cases := Move(db.cases, c, Recovered)) else db
  }

  function CaptureAudit(db: Db, c: string, previous: CaseState): Db {
    db.(audit := db.audit + [AuditRow(SystemActor, PaymentCaptured, WebhookCaseEntity, c, Some(previous), Some(Recovered))])
  }

  // ---- ingestion.ts ----

  datatype IngestionCommand = IngestionCommand(
    event: RevenueEvent,
    idempotencyKey: string,
    merchantReference: string,
    customerReference: string)

  /** What one execution finds around it: the clock, a flag and the identifiers it would generate. */
  datatype IngestionContext = IngestionContext(
    now: int,
    allowDemoCreation: bool,
    merchantId: string,
    customerId: string,
    eventId: string,
    caseId: string)

  datatype Receipt = Receipt(eventId: string, caseId: Option<string>, idempotentReplay: bool,
                             qualification: Option<QualificationResult>)

  const DEFAULT_CONFIG := MerchantConfig(
    [PaymentFailed, SubscriptionFailed, InvoiceOverdue, CheckoutAbandoned], 100, 24, [], ["INR", "USD"])

  function MerchantFor(db: Db, cmd: IngestionCommand, ctx: IngestionContext): Option<Merchant> {
    if cmd.merchantReference in db.people.merchants then Some(db.people.merchants[cmd.merchantReference])
    else if ctx.allowDemoCreation then Some(Merchant(ctx.merchantId, "subscription"))
    else None
  }

  function CustomerFor(db: Db, cmd: IngestionCommand, ctx: IngestionContext, merchant: Merchant): string {
    var k := (merchant.merchantId, cmd.customerReference);
    if k in db.people.customers then db.people.customers[k] else ctx.customerId
  }

  /** The case most recently created for the customer that is not recovered. */
  function LatestOpenCase(cases: map<string, RecoveryCase>, order: seq<string>, merchantId: string, customerId: string)
    : (r: Option<string>)
    ensures r.Some? ==> r.value in order && r.value in cases && !cases[r.value].state.Recovered?
  {
    if order == [] then None
    else
      var c := order[|order| - 1];
      if && c in cases && cases[c].merchantId == merchantId && cases[c].customerId == customerId
         && !cases[c].state.Recovered?
      then Some(c)
      else LatestOpenCase(cases, order[..|order| - 1], merchantId, customerId)
  }

  function CaseOfEvent(cases: map<string, RecoveryCase>, order: seq<string>, eventId: string): Option<string> {
    if order == [] then None
    else if order[0] in cases && cases[order[0]].sourceEventId == eventId then Some(order[0])
    else CaseOfEvent(cases, order[1..], eventId)
  }

  /** The event is rebuilt without its failure reason before it is qualified again. */
  function ReplayReceipt(db: Db, eventId: string, now: int): Receipt {
    Receipt(eventId, CaseOfEvent(db.cases, db.caseOrder, eventId), true,
      if eventId in db.events.rows
      then Some(Qualify(db.events.rows[eventId].event.(failureReason := None), DEFAULT_CONFIG, "default", now))
      else None)
  }

  /** Merchant, customer and event rows of a new key. */
  function Recorded(db: Db, cmd: IngestionCommand, ctx: IngestionContext, merchant: Merchant, customer: string): Db {
    db.(people := People(
          db.people.merchants[cmd.merchantReference := merchant],
          db.people.customers[(merchant.merchantId, cmd.customerReference) := customer]),
        events := EventTable(
          db.events.rows[ctx.eventId := StoredEvent(cmd.event, merchant.merchantId, customer, cmd.idempotencyKey)],
          db.events.byKey[cmd.idempotencyKey := ctx.eventId],
          db.events.bySlot[(merchant.merchantId, cmd.event.externalEventId, cmd.event.eventType) := ctx.eventId]),
        audit := db.audit + [PlainAudit(SystemActor, EventIngested, EventEntity, ctx.eventId)])
  }

  function RecoverLatest(db: Db, merchantId: string, customerId: string): (Db, Option<string>) {
    match LatestOpenCase(db.cases, db.caseOrder, merchantId, customerId)
    case None => (db, None)
    case Some(c) =>
      (db.(cases := Move(db.cases, c, Recovered),
           audit := db.audit + [CaseAudit(SystemActor, CaseRecoveredByEvent, c, db.cases[c].state, Recovered)]), Some(c))
  }

  function NewCase(cmd: IngestionCommand, ctx: IngestionContext, merchant: Merchant, customer: string): RecoveryCase {
    RecoveryCase(ctx.caseId, ctx.eventId, merchant.merchantId, customer, cmd.event.amountMinor, cmd.event.currency,
      Detected, 0, 1)
  }

  function OpenCase(db: Db, rc: RecoveryCase): Db {
    db.(cases := db.cases[rc.caseId := rc],
        caseOrder := db.caseOrder + [rc.caseId],
        audit := db.audit + [AuditRow(SystemActor, CaseCreated, CaseEntity, rc.caseId, None, Some(rc.state))])
  }

  function Ingest(db: Db, cmd: IngestionCommand, ctx: IngestionContext): Tx<Receipt> {
    if cmd.idempotencyKey in db.events.byKey then
      Commit(db, ReplayReceipt(db, db.events.byKey[cmd.idempotencyKey], ctx.now))
    else match MerchantFor(db, cmd, ctx)
      case None => Abort(MerchantNotFound)
      case Some(merchant) =>
        var customer := CustomerFor(db, cmd, ctx, merchant);
        if || ctx.eventId in db.events.rows
           || (merchant.merchantId, cmd.event.externalEventId, cmd.event.eventType) in db.events.bySlot
        then Abort(UniqueViolation)
        else
          var recorded := Recorded(db, cmd, ctx, merchant, customer);
          var qual := Qualify(cmd.event, DEFAULT_CONFIG, merchant.segment, ctx.now);
          if cmd.event.eventType.PaymentRecovered? then
            var (recovered, c) := RecoverLatest(recorded, merchant.merchantId, customer);
            Commit(recovered, Receipt(ctx.eventId, c, false, Some(qual)))
          else if !qual.shouldCreateCase then Commit(recorded, Receipt(ctx.eventId, None, false, Some(qual)))
          else if ctx.caseId in db.cases then Abort(UniqueViolation)
          else Commit(OpenCase(recorded, NewCase(cmd, ctx, merchant, customer)),
                      Receipt(ctx.eventId, Some(ctx.caseId), false, Some(qual)))
  }
}
