/** The three keys of the execution chain: plan, outbox row and intervention are created once, and repeating a command
    at any later time changes nothing and answers with the first result. */
module Idempotence {
  import opened Contracts
  import opened Planning
  import opened Store
  import opened TableIntegrity
  import opened Protocol
  import opened ProtocolInvariant

  lemma {:induction false} KeysStay(s: System, log: seq<Step>)
    requires SystemOk(s)
    ensures var u := Exec(s, log);
      && Extends(s.db.plans.byKey, u.db.plans.byKey)
      && Extends(s.db.outbox.byPlan, u.db.outbox.byPlan)
      && Extends(s.db.interventions.byKey, u.db.interventions.byKey)
  {
    hide SystemOk, Exec, Extends;
    RecordsArePermanent(s, log);
  }

  /** However long ago a plan was stored and whatever happened since, a plan with its key is not stored again. */
  lemma {:induction false} PlanningIsIdempotent(s: System, log: seq<Step>, plan: RecoveryPlan, next: CaseState)
    requires SystemOk(s) && plan.idempotencyKey in s.db.plans.byKey
    ensures var u := Exec(s, log).db;
      && After(u, CreatePlan(u, plan, next)) == u
      && (plan.caseId in u.cases ==> CreatePlan(u, plan, next) == Commit(u, s.db.plans.byKey[plan.idempotencyKey]))
  {
    hide SystemOk, Exec;
    KeysStay(s, log);
  }

  lemma {:induction false} EnqueuingIsIdempotent(s: System, log: seq<Step>, c: string, planId: string,
    outboxId: string, now: int)
    requires SystemOk(s) && planId in s.db.outbox.byPlan
    ensures var u := Exec(s, log).db;
      After(u, EnqueuePlan(u, c, planId, outboxId, now)) == u
  {
    hide SystemOk, Exec;
    KeysStay(s, log);
  }

  lemma {:induction false} PreparingIsIdempotent(s: System, log: seq<Step>, cmd: PrepareCommand, newId: string)
    requires SystemOk(s) && cmd.key in s.db.interventions.byKey
    ensures var u := Exec(s, log).db;
      && After(u, PrepareIntervention(u, cmd, newId)) == u
      && (cmd.caseId in u.cases ==> PrepareIntervention(u, cmd, newId) == Commit(u, s.db.interventions.byKey[cmd.key]))
  {
    hide SystemOk, Exec;
    KeysStay(s, log);
  }

  lemma SlotsStay(a: Db, b: Db, l: Slot)
    requires Evolves(a, b) && l in a.interventions.bySlot
    ensures l in b.interventions.bySlot && b.interventions.bySlot[l] == a.interventions.bySlot[l]
  {}

  /** Once an intervention of a type exists for a case, no later preparation of that slot writes anything, for whatever
      plan: the key is known, or the second unique index refuses the row. Another plan of the type can be stored and
      enqueued, but it never runs. */
  lemma {:induction false} SecondPlanOfATypeNeverRuns(s: System, log: seq<Step>, cmd: PrepareCommand, newId: string)
    requires SystemOk(s) && NewIntervention(cmd).SlotOf() in s.db.interventions.bySlot
    ensures var u := Exec(s, log).db;
      && After(u, PrepareIntervention(u, cmd, newId)) == u
  {
    hide SystemOk, Exec, Evolves;
    RecordsArePermanent(s, log);
    SlotsStay(s.db, Exec(s, log).db, NewIntervention(cmd).SlotOf());
  }
}
