/** Integrity of the tables, and what a transaction may change in them. */
module TableIntegrity {
  import opened Contracts
  import opened Qualification
  import opened Diagnosis
  import opened Planning
  import opened PlanningTheorems
  import opened Store

  predicate RunsUnattended(plan: RecoveryPlan) {
    plan.planStatus.PolicyApproved? && !plan.requiresHumanApproval
  }

  /** A case stems from a stored event of at least the minimum amount; nobody counts its attempts. */
  ghost predicate CaseOk(c: string, rc: RecoveryCase, events: EventTable) {
    && rc.caseId == c
    && rc.attemptCount == 0
    && rc.version >= 1
    && rc.sourceEventId in events.rows
    && events.rows[rc.sourceEventId].event.amountMinor >= DEFAULT_CONFIG.minimumAmountMinor
  }

  ghost predicate CasesOk(cases: map<string, RecoveryCase>, events: EventTable) {
    forall c | c in cases :: CaseOk(c, cases[c], events)
  }

  /** A plan that runs unattended uses a type that the root cause of its source event admits. */
  ghost predicate PlanOk(plan: RecoveryPlan, cases: map<string, RecoveryCase>, events: EventTable) {
    && plan.caseId in cases
    && cases[plan.caseId].sourceEventId in events.rows
    && (RunsUnattended(plan) ==>
          plan.interventionType in AutomaticTypes(CauseOf(events.rows[cases[plan.caseId].sourceEventId].event)))
  }

  ghost predicate PlansOk(plans: PlanTable, cases: map<string, RecoveryCase>, events: EventTable) {
    forall p | p in plans.rows :: plans.rows[p].planId == p && PlanOk(plans.rows[p], cases, events)
  }

  /** A job names a plan of its case that runs unattended and was enqueued. */
  ghost predicate JobOk(job: Job, plans: PlanTable, outbox: OutboxTable) {
    && job.attempt == 1
    && job.planId in plans.rows && plans.rows[job.planId].caseId == job.caseId
    && RunsUnattended(plans.rows[job.planId])
    && job.planId in outbox.byPlan
  }

  ghost predicate OutboxOk(outbox: OutboxTable, plans: PlanTable) {
    && (forall o | o in outbox.rows ::
          outbox.rows[o].job.planId == outbox.rows[o].planId && JobOk(outbox.rows[o].job, plans, outbox))
    && (forall p | p in outbox.byPlan :: outbox.byPlan[p] in outbox.rows && outbox.rows[outbox.byPlan[p]].planId == p)
  }

  ghost predicate InterventionOk(row: InterventionRow, plans: PlanTable, outbox: OutboxTable) {
    && row.attempt == 1
    && row.key == InterventionKey(row.planId, row.interventionType, row.attempt)
    && row.planId in plans.rows
    && plans.rows[row.planId].caseId == row.caseId
    && plans.rows[row.planId].interventionType == row.interventionType
    && RunsUnattended(plans.rows[row.planId])
    && row.planId in outbox.byPlan
  }

  ghost predicate InterventionsOk(t: InterventionTable, plans: PlanTable, outbox: OutboxTable) {
    forall i | i in t.rows :: InterventionOk(t.rows[i], plans, outbox)
  }

  /** Both unique indexes of interventions point at the rows they index. */
  ghost predicate IndexesOk(t: InterventionTable) {
    && (forall i | i in t.rows :: t.rows[i].SlotOf() in t.bySlot && t.bySlot[t.rows[i].SlotOf()] == i)
    && (forall i | i in t.rows :: t.rows[i].key in t.byKey && t.byKey[t.rows[i].key] == i)
    && (forall k | k in t.byKey :: t.byKey[k] in t.rows && t.rows[t.byKey[k]].key == k)
    && (forall l | l in t.bySlot :: t.bySlot[l] in t.rows && t.rows[t.bySlot[l]].SlotOf() == l)
  }

  ghost predicate OutcomesOk(outcomes: map<string, Outcome>, t: InterventionTable) {
    forall i | i in outcomes :: i in t.rows
  }

  ghost predicate TablesOk(db: Db) {
    && CasesOk(db.cases, db.events)
    && PlansOk(db.plans, db.cases, db.events)
    && OutboxOk(db.outbox, db.plans)
    && InterventionsOk(db.interventions, db.plans, db.outbox)
    && IndexesOk(db.interventions)
    && OutcomesOk(db.outcomes, db.interventions)
  }

  lemma TableParts(db: Db)
    requires TablesOk(db)
    ensures CasesOk(db.cases, db.events) && PlansOk(db.plans, db.cases, db.events) && OutboxOk(db.outbox, db.plans)
    ensures InterventionsOk(db.interventions, db.plans, db.outbox) && IndexesOk(db.interventions)
    ensures OutcomesOk(db.outcomes, db.interventions)
  {}

  // ---- what every transaction leaves alone ----

  ghost predicate Extends<K, V>(a: map<K, V>, b: map<K, V>) {
    forall k | k in a :: k in b && b[k] == a[k]
  }

  /** Only state, amount and version of a case change, and the version only grows. */
  predicate SameCase(a: RecoveryCase, b: RecoveryCase) {
    a == b.(state := a.state, amountMinor := a.amountMinor, version := a.version) && a.version <= b.version
  }

  ghost predicate CasesGrow(a: map<string, RecoveryCase>, b: map<string, RecoveryCase>) {
    forall c | c in a :: c in b && SameCase(a[c], b[c])
  }

  /** Only status and lease of an intervention change. */
  predicate SameIntervention(a: InterventionRow, b: InterventionRow) {
    a == b.(status := a.status, lease := a.lease)
  }

  ghost predicate InterventionsGrow(a: InterventionTable, b: InterventionTable) {
    && (forall i | i in a.rows :: i in b.rows && SameIntervention(a.rows[i], b.rows[i]))
    && Extends(a.byKey, b.byKey) && Extends(a.bySlot, b.bySlot)
  }

  ghost predicate EventsGrow(a: EventTable, b: EventTable) {
    Extends(a.rows, b.rows) && Extends(a.byKey, b.byKey)
  }

  ghost predicate PlansGrow(a: PlanTable, b: PlanTable) {
    Extends(a.rows, b.rows) && Extends(a.byKey, b.byKey)
  }

  /** Events, plans, outcomes and unique keys are permanent; no row disappears or changes its identity. */
  ghost predicate Evolves(a: Db, b: Db) {
    && EventsGrow(a.events, b.events)
    && CasesGrow(a.cases, b.cases)
    && PlansGrow(a.plans, b.plans)
    && Extends(a.outbox.byPlan, b.outbox.byPlan)
    && InterventionsGrow(a.interventions, b.interventions)
    && Extends(a.outcomes, b.outcomes)
  }

  lemma EvolvesIsReflexive(a: Db)
    ensures EventsGrow(a.events, a.events) && CasesGrow(a.cases, a.cases) && PlansGrow(a.plans, a.plans)
    ensures Extends(a.outbox.byPlan, a.outbox.byPlan) && Extends(a.outcomes, a.outcomes)
    ensures InterventionsGrow(a.interventions, a.interventions)
    ensures Evolves(a, a)
  {}

  lemma EvolvesIsTransitive(a: Db, b: Db, c: Db)
    requires Evolves(a, b) && Evolves(b, c)
    ensures Evolves(a, c)
  {}

  // ---- single tables ----

  lemma MoveKeeps(cases: map<string, RecoveryCase>, events: EventTable, c: string, rc: RecoveryCase)
    requires CasesOk(cases, events) && c in cases && SameCase(cases[c], rc)
    ensures CasesOk(cases[c := rc], events) && CasesGrow(cases, cases[c := rc])
  {}

  lemma SetRowKeeps(t: InterventionTable, plans: PlanTable, outbox: OutboxTable, i: string, row: InterventionRow)
    requires InterventionsOk(t, plans, outbox) && IndexesOk(t)
    requires i in t.rows && SameIntervention(t.rows[i], row)
    ensures InterventionsOk(SetRow(t, i, row), plans, outbox) && InterventionsGrow(t, SetRow(t, i, row))
    ensures IndexesOk(SetRow(t, i, row))
  {
    SetRowKeepsIndexes(t, i, row);
  }

  lemma SetRowKeepsIndexes(t: InterventionTable, i: string, row: InterventionRow)
    requires IndexesOk(t) && i in t.rows && SameIntervention(t.rows[i], row)
    ensures IndexesOk(SetRow(t, i, row))
  {
    var u := SetRow(t, i, row);
    assert row.SlotOf() == t.rows[i].SlotOf();
    forall l | l in u.bySlot ensures u.bySlot[l] in u.rows && u.rows[u.bySlot[l]].SlotOf() == l {
      assert t.rows[t.bySlot[l]].SlotOf() == l;
    }
  }

  lemma PlansStay(plans: PlanTable, a: Db, b: Db)
    requires PlansOk(plans, a.cases, a.events) && CasesGrow(a.cases, b.cases) && EventsGrow(a.events, b.events)
    ensures PlansOk(plans, b.cases, b.events)
  {
    forall p | p in plans.rows ensures PlanOk(plans.rows[p], b.cases, b.events) {
      assert SameCase(a.cases[plans.rows[p].caseId], b.cases[plans.rows[p].caseId]);
    }
  }

  lemma OutboxStays(a: Db, b: Db)
    requires OutboxOk(a.outbox, a.plans) && PlansGrow(a.plans, b.plans) && b.outbox == a.outbox
    ensures OutboxOk(b.outbox, b.plans)
  {}

  lemma InterventionsStay(t: InterventionTable, a: Db, b: Db)
    requires InterventionsOk(t, a.plans, a.outbox)
    requires PlansGrow(a.plans, b.plans) && Extends(a.outbox.byPlan, b.outbox.byPlan)
    ensures InterventionsOk(t, b.plans, b.outbox)
  {}

  /** Tables without new plans, outbox rows or interventions. */
  lemma QuietTransaction(a: Db, b: Db)
    requires TablesOk(a)
    requires EventsGrow(a.events, b.events)
    requires CasesOk(b.cases, b.events) && CasesGrow(a.cases, b.cases)
    requires b.plans == a.plans && b.outbox == a.outbox
    requires InterventionsOk(b.interventions, b.plans, b.outbox) && IndexesOk(b.interventions)
    requires InterventionsGrow(a.interventions, b.interventions)
    requires OutcomesOk(b.outcomes, b.interventions) && Extends(a.outcomes, b.outcomes)
    ensures TablesOk(b) && Evolves(a, b)
  {
    PlansStay(b.plans, a, b);
  }

  // ---- every transaction ----

  lemma CreatePlanKeepsPlans(db: Db, plan: RecoveryPlan, next: CaseState)
    requires PlansOk(db.plans, db.cases, db.events) && PlanOk(plan, db.cases, db.events)
    ensures var after := After(db, CreatePlan(db, plan, next));
      PlansGrow(db.plans, after.plans) && PlansOk(after.plans, db.cases, db.events)
  {
    hide PlanAudit, PlanOk;
  }

  lemma CreatePlanKeeps(db: Db, plan: RecoveryPlan, next: CaseState)
    requires TablesOk(db) && PlanOk(plan, db.cases, db.events)
    ensures var after := After(db, CreatePlan(db, plan, next));
      TablesOk(after) && Evolves(db, after)
  {
    hide PlansOk, PlanOk, OutboxOk, InterventionsOk, IndexesOk, CasesOk, OutcomesOk, PlanAudit;
    hide EventsGrow, CasesGrow, PlansGrow, InterventionsGrow, Extends;
    EvolvesIsReflexive(db);
    var tx := CreatePlan(db, plan, next);
    if tx.Commit? && plan.idempotencyKey !in db.plans.byKey {
      var after := tx.db;
      CreatePlanKeepsPlans(db, plan, next);
      MoveKeeps(db.cases, db.events, plan.caseId, after.cases[plan.caseId]);
      PlansStay(after.plans, db, after);
      OutboxStays(db, after);
      InterventionsStay(db.interventions, db, after);
    }
  }

  lemma EnqueuePlanKeepsOutbox(db: Db, c: string, planId: string, outboxId: string, now: int)
    requires OutboxOk(db.outbox, db.plans)
    ensures var after := After(db, EnqueuePlan(db, c, planId, outboxId, now));
      Extends(db.outbox.byPlan, after.outbox.byPlan) && OutboxOk(after.outbox, after.plans)
  {}

  lemma EnqueuePlanKeeps(db: Db, c: string, planId: string, outboxId: string, now: int)
    requires TablesOk(db)
    ensures var after := After(db, EnqueuePlan(db, c, planId, outboxId, now));
      TablesOk(after) && Evolves(db, after)
  {
    hide PlansOk, OutboxOk, InterventionsOk, IndexesOk, CasesOk, OutcomesOk;
    hide EventsGrow, CasesGrow, PlansGrow, InterventionsGrow, Extends;
    EvolvesIsReflexive(db);
    var tx := EnqueuePlan(db, c, planId, outboxId, now);
    if tx.Commit? && planId !in db.outbox.byPlan {
      var after := tx.db;
      EnqueuePlanKeepsOutbox(db, c, planId, outboxId, now);
      MoveKeeps(db.cases, db.events, c, after.cases[c]);
      PlansStay(after.plans, db, after);
      InterventionsStay(db.interventions, db, after);
    }
  }

  lemma PrepareKeeps(db: Db, cmd: PrepareCommand, newId: string)
    requires TablesOk(db) && InterventionOk(NewIntervention(cmd), db.plans, db.outbox)
    ensures var tx := PrepareIntervention(db, cmd, newId);
      TablesOk(After(db, tx)) && Evolves(db, After(db, tx))
  {
    hide PlansOk, OutboxOk, InterventionsOk, InterventionOk, IndexesOk, CasesOk, OutcomesOk;
    hide EventsGrow, CasesGrow, PlansGrow, InterventionsGrow, Extends;
    EvolvesIsReflexive(db);
    var tx := PrepareIntervention(db, cmd, newId);
    if tx.Commit? && cmd.key !in db.interventions.byKey {
      var after := tx.db;
      PrepareKeepsIndexes(db, cmd, newId);
      PrepareKeepsRows(db, cmd, newId);
      MoveKeeps(db.cases, db.events, cmd.caseId, after.cases[cmd.caseId]);
      PlansStay(after.plans, db, after);
    }
  }

  /** The answered row carries the key that was asked for. */
  lemma PreparedRow(db: Db, cmd: PrepareCommand, newId: string)
    requires IndexesOk(db.interventions)
    ensures var tx := PrepareIntervention(db, cmd, newId);
      tx.Commit? ==> tx.value in tx.db.interventions.rows && tx.db.interventions.rows[tx.value].key == cmd.key
  {}

  lemma PrepareKeepsRows(db: Db, cmd: PrepareCommand, newId: string)
    requires InterventionsOk(db.interventions, db.plans, db.outbox)
    requires InterventionOk(NewIntervention(cmd), db.plans, db.outbox)
    ensures var after := After(db, PrepareIntervention(db, cmd, newId));
      && InterventionsOk(after.interventions, after.plans, after.outbox)
      && (OutcomesOk(db.outcomes, db.interventions) ==> OutcomesOk(after.outcomes, after.interventions))
  {}

  lemma PrepareKeepsIndexes(db: Db, cmd: PrepareCommand, newId: string)
    requires IndexesOk(db.interventions)
    ensures var after := After(db, PrepareIntervention(db, cmd, newId));
      IndexesOk(after.interventions) && InterventionsGrow(db.interventions, after.interventions)
  {
    hide IndexesOk, InterventionsGrow;
    NewRowKeepsIndexes(db.interventions, newId, NewIntervention(cmd));
  }

  lemma NewRowKeepsIndexes(t: InterventionTable, newId: string, row: InterventionRow)
    requires IndexesOk(t)
    ensures InterventionsGrow(t, t)
    ensures newId !in t.rows && row.key !in t.byKey && row.SlotOf() !in t.bySlot ==>
      var u := InterventionTable(t.rows[newId := row], t.byKey[row.key := newId], t.bySlot[row.SlotOf() := newId]);
      IndexesOk(u) && InterventionsGrow(t, u)
  {}

  /** Transactions that update an intervention row and perhaps its case. */
  lemma RowUpdateKeeps(a: Db, b: Db, i: string)
    requires TablesOk(a) && i in a.interventions.rows && i in b.interventions.rows
    requires b.events == a.events && b.plans == a.plans && b.outbox == a.outbox
    requires b.interventions == SetRow(a.interventions, i, b.interventions.rows[i])
    requires SameIntervention(a.interventions.rows[i], b.interventions.rows[i])
    requires b.cases == a.cases || CaseUpdate(a.cases, b.cases, a.interventions.rows[i].caseId)
    requires b.outcomes == a.outcomes ||
      (i !in a.outcomes && i in b.outcomes && b.outcomes == a.outcomes[i := b.outcomes[i]])
    ensures TablesOk(b) && Evolves(a, b)
  {
    hide PlansOk, PlanOk, OutboxOk, InterventionsOk, IndexesOk, CasesOk;
    assert OutcomesOk(b.outcomes, b.interventions) && Extends(a.outcomes, b.outcomes);
    SetRowKeeps(a.interventions, a.plans, a.outbox, i, b.interventions.rows[i]);
    var c := a.interventions.rows[i].caseId;
    if b.cases != a.cases { MoveKeeps(a.cases, a.events, c, b.cases[c]); }
    QuietTransaction(a, b);
  }

  ghost predicate CaseUpdate(a: map<string, RecoveryCase>, b: map<string, RecoveryCase>, c: string) {
    c in a && c in b && b == a[c := b[c]] && SameCase(a[c], b[c])
  }

  /** Transactions that only update one case. */
  lemma CaseUpdateKeeps(a: Db, b: Db, c: string)
    requires TablesOk(a) && b == a.(cases := b.cases, audit := b.audit)
    requires CaseUpdate(a.cases, b.cases, c)
    ensures TablesOk(b) && Evolves(a, b)
  {
    hide PlansOk, PlanOk, OutboxOk, InterventionsOk, IndexesOk, CasesOk;
    MoveKeeps(a.cases, a.events, c, b.cases[c]);
    QuietTransaction(a, b);
  }

  lemma MarkCaseKeeps(db: Db, c: string, final: CaseState)
    requires TablesOk(db)
    ensures TablesOk(MarkCase(db, c, final)) && Evolves(db, MarkCase(db, c, final))
  {
    if MarkCase(db, c, final) != db { CaseUpdateKeeps(db, MarkCase(db, c, final), c); }
  }

  lemma CaptureKeeps(db: Db, c: string)
    requires TablesOk(db)
    ensures TablesOk(CaptureUpdate(db, c)) && Evolves(db, CaptureUpdate(db, c))
  {
    if Capturable(db, c) { CaseUpdateKeeps(db, CaptureUpdate(db, c), c); }
  }

  lemma RecordedKeeps(db: Db, cmd: IngestionCommand, ctx: IngestionContext, merchant: Merchant, customer: string)
    requires TablesOk(db) && ctx.eventId !in db.events.rows && cmd.idempotencyKey !in db.events.byKey
    ensures var after := Recorded(db, cmd, ctx, merchant, customer);
      TablesOk(after) && Evolves(db, after)
  {
    hide PlansOk, PlanOk, OutboxOk, InterventionsOk, IndexesOk, CasesOk, OutcomesOk;
    hide EventsGrow, CasesGrow, PlansGrow, InterventionsGrow, Extends;
    EvolvesIsReflexive(db);
    var after := Recorded(db, cmd, ctx, merchant, customer);
    RecordedEvents(db, cmd, ctx, merchant, customer);
    QuietTransaction(db, after);
  }

  lemma RecordedEvents(db: Db, cmd: IngestionCommand, ctx: IngestionContext, merchant: Merchant, customer: string)
    requires CasesOk(db.cases, db.events)
    requires ctx.eventId !in db.events.rows && cmd.idempotencyKey !in db.events.byKey
    ensures var after := Recorded(db, cmd, ctx, merchant, customer);
      EventsGrow(db.events, after.events) && CasesOk(after.cases, after.events)
  {
    var after := Recorded(db, cmd, ctx, merchant, customer);
    forall c | c in after.cases ensures CaseOk(c, after.cases[c], after.events) {
      assert CaseOk(c, db.cases[c], db.events);
    }
  }

  lemma OpenCaseKeeps(db: Db, rc: RecoveryCase)
    requires TablesOk(db) && rc.caseId !in db.cases && CaseOk(rc.caseId, rc, db.events)
    ensures TablesOk(OpenCase(db, rc)) && Evolves(db, OpenCase(db, rc))
  {
    var after := OpenCase(db, rc);
    assert CasesOk(after.cases, after.events) && CasesGrow(db.cases, after.cases);
    hide PlansOk, PlanOk, OutboxOk, InterventionsOk, IndexesOk, CasesOk;
    QuietTransaction(db, after);
  }

  lemma IngestKeeps(db: Db, cmd: IngestionCommand, ctx: IngestionContext)
    requires TablesOk(db)
    ensures var after := After(db, Ingest(db, cmd, ctx));
      TablesOk(after) && Evolves(db, after)
  {
    var tx := Ingest(db, cmd, ctx);
    if tx.Commit? && cmd.idempotencyKey !in db.events.byKey {
      var merchant := MerchantFor(db, cmd, ctx).value;
      var customer := CustomerFor(db, cmd, ctx, merchant);
      var recorded := Recorded(db, cmd, ctx, merchant, customer);
      RecordedKeeps(db, cmd, ctx, merchant, customer);
      hide TablesOk, Evolves, Recorded;
      if cmd.event.eventType.PaymentRecovered? {
        var c := LatestOpenCase(recorded.cases, recorded.caseOrder, merchant.merchantId, customer);
        if c.Some? {
          CaseUpdateKeeps(recorded, tx.db, c.value);
          EvolvesIsTransitive(db, recorded, tx.db);
        }
      } else if Qualify(cmd.event, DEFAULT_CONFIG, merchant.segment, ctx.now).shouldCreateCase {
        var rc := NewCase(cmd, ctx, merchant, customer);
        assert CaseOk(rc.caseId, rc, recorded.events) by { RecordedEvent(db, cmd, ctx, merchant, customer); }
        OpenCaseKeeps(recorded, rc);
        EvolvesIsTransitive(db, recorded, tx.db);
      }
    }
  }

  lemma RecordedEvent(db: Db, cmd: IngestionCommand, ctx: IngestionContext, merchant: Merchant, customer: string)
    ensures var r := Recorded(db, cmd, ctx, merchant, customer);
      && ctx.eventId in r.events.rows && r.events.rows[ctx.eventId].event == cmd.event
      && r.cases == db.cases && r.caseOrder == db.caseOrder
  {}
}
