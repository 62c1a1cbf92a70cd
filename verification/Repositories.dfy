/** The repositories that write the tables, row by row (libs/persistence/src/repositories/prisma). */
module Repositories {
  import opened Contracts
  import opened Planning
  import opened Store

  /** The database as a transaction sees it: single-row reads and writes. */
  class Database {
    var tables: Db

    constructor ()
      ensures tables == EMPTY
    {
      tables := EMPTY;
    }

    /** The guarded update of a case: it writes the row only while its version is the one that was read. */
    method UpdateCaseAtVersion(c: string, version: int, next: CaseState) returns (count: nat)
      modifies this
      ensures count == if c in old(tables.cases) && old(tables.cases)[c].version == version then 1 else 0
      ensures count == 1 ==> tables == old(tables).(cases := Move(old(tables.cases), c, next))
      ensures count == 0 ==> tables == old(tables)
    {
      if c !in tables.cases || tables.cases[c].version != version { return 0; }
      var row := tables.cases[c];
      row := row.(state := next, version := version + 1);
      tables := tables.(cases := tables.cases[c := row]);
      return 1;
    }

    /** The same with the amount at risk, if one is given. */
    method UpdateCaseAndAmountAtVersion(c: string, version: int, next: CaseState,
      amount: Option<int>) returns (count: nat)
      modifies this
      ensures count == if c in old(tables.cases) && old(tables.cases)[c].version == version then 1 else 0
      ensures count == 1 ==> tables == old(tables).(cases := old(tables.cases)[c := old(tables.cases)[c].(
        state := next, version := version + 1,
        amountMinor := if amount.Some? then amount.value else old(tables.cases)[c].amountMinor)])
      ensures count == 0 ==> tables == old(tables)
    {
      if c !in tables.cases || tables.cases[c].version != version { return 0; }
      var row := tables.cases[c];
      row := row.(state := next, version := version + 1);
      if amount.Some? { row := row.(amountMinor := amount.value); }
      tables := tables.(cases := tables.cases[c := row]);
      return 1;
    }

    method AppendAudit(row: AuditRow)
      modifies this
      ensures tables == old(tables).(audit := old(tables.audit) + [row])
    {
      tables := tables.(audit := tables.audit + [row]);
    }

    method UpdateIntervention(i: string, row: InterventionRow)
      requires i in tables.interventions.rows
      modifies this
      ensures tables == old(tables).(interventions := SetRow(old(tables.interventions), i, row))
    {
      tables := tables.(interventions := tables.interventions.(rows := tables.interventions.rows[i := row]));
    }

    /** Unique indexes refuse a second row. */
    method CreateIntervention(id: string, row: InterventionRow) returns (created: bool)
      modifies this
      ensures created <==>
        id !in old(tables.interventions.rows) && row.SlotOf() !in old(tables.interventions.bySlot)
        && row.key !in old(tables.interventions.byKey)
      ensures tables == if !created then old(tables) else
        old(tables).(interventions := InterventionTable(
          old(tables.interventions.rows)[id := row],
          old(tables.interventions.byKey)[row.key := id],
          old(tables.interventions.bySlot)[row.SlotOf() := id]))
    {
      var t := tables.interventions;
      if id in t.rows || row.SlotOf() in t.bySlot || row.key in t.byKey { return false; }
      tables := tables.(interventions :=
        InterventionTable(t.rows[id := row], t.byKey[row.key := id], t.bySlot[row.SlotOf() := id]));
      return true;
    }

    method CreateOutcome(i: string, outcome: Outcome) returns (created: bool)
      modifies this
      ensures created <==> i !in old(tables.outcomes)
      ensures tables == if created then old(tables).(outcomes := old(tables.outcomes)[i := outcome]) else old(tables)
    {
      if i in tables.outcomes { return false; }
      tables := tables.(outcomes := tables.outcomes[i := outcome]);
      return true;
    }

    method CreatePlanRow(plan: RecoveryPlan) returns (created: bool)
      modifies this
      ensures created <==>
        plan.planId !in old(tables.plans.rows) && plan.idempotencyKey !in old(tables.plans.byKey)
      ensures tables == if !created then old(tables) else
        old(tables).(plans := PlanTable(old(tables.plans.rows)[plan.planId := plan],
                                        old(tables.plans.byKey)[plan.idempotencyKey := plan.planId]))
    {
      if plan.planId in tables.plans.rows || plan.idempotencyKey in tables.plans.byKey { return false; }
      tables := tables.(plans := PlanTable(tables.plans.rows[plan.planId := plan],
                                           tables.plans.byKey[plan.idempotencyKey := plan.planId]));
      return true;
    }

    method CreateOutboxRow(id: string, row: OutboxRow) returns (created: bool)
      modifies this
      ensures created <==> id !in old(tables.outbox.rows) && row.planId !in old(tables.outbox.byPlan)
      ensures tables == if !created then old(tables) else
        old(tables).(outbox := OutboxTable(old(tables.outbox.rows)[id := row], old(tables.outbox.byPlan)[row.planId := id]))
    {
      if id in tables.outbox.rows || row.planId in tables.outbox.byPlan { return false; }
      tables := tables.(outbox := OutboxTable(tables.outbox.rows[id := row], tables.outbox.byPlan[row.planId := id]));
      return true;
    }
  }

  function Error<T>(tx: Tx<T>): Option<TxError> {
    if tx.Abort? then Some(tx.error) else None
  }

  lemma RefusalNamesTheState(i: PlanningInput)
    ensures Propose(i).Err? ==> Propose(i).error == i.rc.state
  {}

  /** libs/persistence/src/repositories/prisma/planning.ts */
  class PlanningRepository {
    const db: Database

    constructor (db: Database)
      ensures this.db == db
    {
      this.db := db;
    }

    /** An exception rolls back every write of the transaction. */
    method CreatePlanWithPlanningOutcome(plan: RecoveryPlan, next: CaseState) returns (r: Result<string, TxError>)
      modifies db
      ensures var tx := CreatePlan(old(db.tables), plan, next);
        && db.tables == After(old(db.tables), tx)
        && r == (if tx.Commit? then Ok(tx.value) else Err(tx.error))
    {
      hide CaseAudit, PlainAudit, Move;
      var before := db.tables;
      if plan.caseId !in db.tables.cases { return Err(CaseNotFound); }
      var existing := db.tables.cases[plan.caseId];
      if plan.idempotencyKey in db.tables.plans.byKey {
        return Ok(db.tables.plans.byKey[plan.idempotencyKey]);
      }
      var count := db.UpdateCaseAtVersion(plan.caseId, existing.version, next);
      if count == 0 { assert false; }
      var created := db.CreatePlanRow(plan);
      if !created {
        db.tables := before;
        return Err(UniqueViolation);
      }
      db.AppendAudit(CaseAudit(PolicyEngine, PlanProposed, plan.caseId, existing.state, next));
      var action := if plan.planStatus == PolicyApproved then PlanApproved else PlanRejected;
      db.AppendAudit(PlainAudit(PolicyEngine, action, PlanEntity, plan.planId));
      if next == Escalated {
        db.AppendAudit(CaseAudit(PolicyEngine, CaseEscalated, plan.caseId, existing.state, next));
      } else if next == Stopped {
        db.AppendAudit(CaseAudit(PolicyEngine, CaseStopped, plan.caseId, existing.state, next));
      }
      assert db.tables.audit == before.audit + PlanAudit(plan, existing.state, next);
      return Ok(plan.planId);
    }

    method EnqueuePlanWithOutbox(c: string, planId: string, outboxId: string, job: Job, now: int)
      returns (r: Option<TxError>)
      modifies db
      ensures var tx := Store.EnqueuePlanWithOutbox(old(db.tables), c, planId, outboxId, job, now);
        db.tables == After(old(db.tables), tx) && r == Error(tx)
    {
      var before := db.tables;
      if c !in db.tables.cases { return Some(CaseNotFound); }
      var existing := db.tables.cases[c];
      if existing.state != PolicyChecked { return Some(WrongState); }
      if planId in db.tables.outbox.byPlan { return None; }
      var count := db.UpdateCaseAtVersion(c, existing.version, Queued);
      if count == 0 { assert false; }
      var created := db.CreateOutboxRow(outboxId, OutboxRow(planId, true, job, OutboxPending, 0, now, None));
      if !created {
        db.tables := before;
        return Some(UniqueViolation);
      }
      db.AppendAudit(CaseAudit(SystemActor, InterventionEnqueued, c, existing.state, Queued));
      return None;
    }
  }

  datatype ServiceError = NotFound | NoPolicy | VersionMismatch | CannotPlan(state: CaseState) | Refused(error: TxError)

  /** apps/api/src/modules/planning/planning.service.ts */
  class PlanningService {
    const planningRepo: PlanningRepository

    constructor (planningRepo: PlanningRepository)
      ensures this.planningRepo == planningRepo
    {
      this.planningRepo := planningRepo;
    }

    /** Proposes a plan for the case as it is read here, and persists it in a transaction of its own. */
    method CreatePlan(c: string, policyVersion: string, policy: Option<MerchantPolicy>, active: ActiveSummary,
      score: Option<Propensity>, now: int, newId: string) returns (r: Result<string, ServiceError>)
      requires c in planningRepo.db.tables.cases ==>
        planningRepo.db.tables.cases[c].sourceEventId in planningRepo.db.tables.events.rows
      modifies planningRepo.db
      ensures var before := old(planningRepo.db.tables);
        if c !in before.cases then r == Err(NotFound) && planningRepo.db.tables == before
        else if policy.None? then r == Err(NoPolicy) && planningRepo.db.tables == before
        else if policy.value.policyVersion != policyVersion then r == Err(VersionMismatch) && planningRepo.db.tables == before
        else
          var rc := before.cases[c];
          var event := before.events.rows[rc.sourceEventId].event;
          var proposal := Propose(PlanningInput(rc, event, policy.value, active, now, score, newId));
          if proposal.Err? then r == Err(CannotPlan(rc.state)) && planningRepo.db.tables == before
          else
            var tx := Store.CreatePlan(before, proposal.value.plan, proposal.value.resultingState);
            && planningRepo.db.tables == After(before, tx)
            && r == (if tx.Commit? then Ok(tx.value) else Err(Refused(tx.error)))
    {
      hide Propose, Store.CreatePlan;
      var tables := planningRepo.db.tables;
      if c !in tables.cases { return Err(NotFound); }
      if policy.None? { return Err(NoPolicy); }
      if policy.value.policyVersion != policyVersion { return Err(VersionMismatch); }
      var rc := tables.cases[c];
      var input := PlanningInput(rc, tables.events.rows[rc.sourceEventId].event, policy.value, active, now, score, newId);
      var proposal := ProposeRecoveryPlan(input);
      if proposal.Err? {
        RefusalNamesTheState(input);
        return Err(CannotPlan(proposal.error));
      }
      var persisted := planningRepo.CreatePlanWithPlanningOutcome(proposal.value.plan, proposal.value.resultingState);
      match persisted
      case Ok(id) => return Ok(id);
      case Err(e) => return Err(Refused(e));
    }

    method EnqueuePlan(c: string, planId: string, outboxId: string, now: int) returns (r: Option<TxError>)
      modifies planningRepo.db
      ensures var tx := Store.EnqueuePlan(old(planningRepo.db.tables), c, planId, outboxId, now);
        planningRepo.db.tables == After(old(planningRepo.db.tables), tx) && r == Error(tx)
    {
      var tables := planningRepo.db.tables;
      if c !in tables.cases { return Some(CaseNotFound); }
      if planId !in tables.plans.rows || tables.plans.rows[planId].caseId != c { return Some(PlanNotFound); }
      var plan := tables.plans.rows[planId];
      if plan.planStatus != PolicyApproved { return Some(PlanNotApproved); }
      if plan.requiresHumanApproval { return Some(NeedsHuman); }
      if tables.cases[c].state != PolicyChecked { return Some(WrongState); }
      var job := Job(planId, plan.caseId, tables.cases[c].merchantId, 1);
      r := planningRepo.EnqueuePlanWithOutbox(c, planId, outboxId, job, now);
    }
  }
}
