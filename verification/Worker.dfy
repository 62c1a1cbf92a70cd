/** The decisions of one execution job (apps/worker/src/processors/recovery-plan-execution.processor.ts). */
module Worker {
  import opened Contracts
  import opened Policy
  import opened Planning
  import opened PlanningTheorems
  import opened Store

  /** What the provider answers; the worker only distinguishes a timeout among the failures. */
  datatype ProviderResult = ProviderResult(success: bool, timedOut: bool, recovered: Option<int>)

  /** What a validation reads besides the tables. */
  datatype Surroundings = Surroundings(
    policy: MerchantPolicy,
    active: ActiveSummary,
    score: Option<Propensity>,
    diagnosedAt: int,
    evaluatedAt: int)

  datatype Validation = Discard | StopCase | Proceed(plan: RecoveryPlan, atRisk: int)

  /** Reads case, plan and source event, and asks the policy again for the stored plan. */
  function Validate(db: Db, job: Job, w: Surroundings): Validation {
    if job.caseId !in db.cases then Discard
    else
      var rc := db.cases[job.caseId];
      if job.planId !in db.plans.rows || db.plans.rows[job.planId].caseId != job.caseId then Discard
      else
        var plan := db.plans.rows[job.planId];
        if !plan.planStatus.PolicyApproved? || plan.requiresHumanApproval then Discard
        else if !rc.state.Queued? && !rc.state.Executing? then Discard
        else if rc.sourceEventId !in db.events.rows then Discard
        else
          var input := PlanningInput(rc, db.events.rows[rc.sourceEventId].event, w.policy, w.active, w.diagnosedAt, w.score, "");
          var decision := Verdict(Reevaluation(input, plan.interventionType, w.evaluatedAt));
          if decision.approved then Proceed(plan, rc.amountMinor)
          else if decision.stopCase then StopCase
          else Discard
  }

  function KeyOf(plan: RecoveryPlan, job: Job): InterventionKey {
    InterventionKey(plan.planId, plan.interventionType, job.attempt)
  }

  function CommandOf(plan: RecoveryPlan, job: Job): PrepareCommand {
    PrepareCommand(plan.planId, plan.caseId, plan.interventionType, KeyOf(plan, job), job.attempt)
  }

  predicate AlreadyExecuted(row: InterventionRow) {
    row.status.SucceededStatus? || row.status.FailedStatus?
  }

  function StatusOf(r: ProviderResult): InterventionStatus {
    if r.success then SucceededStatus else if r.timedOut then AmbiguousStatus else FailedStatus
  }

  /** Next state of the case and, for a partial recovery, the amount that remains at risk. */
  function MapOutcome(t: InterventionType, r: ProviderResult, atRisk: int): (CaseState, Option<int>) {
    match StatusOf(r)
    case AmbiguousStatus => (Ambiguous, None)
    case SucceededStatus =>
      if t.PaymentLink? || IsReminder(t) then (AwaitingCustomerAction, None)
      else if t.PaymentRetry? then
        match r.recovered
        case None => (Failed, None)
        case Some(amount) => if amount < atRisk then (Detected, Some(atRisk - amount)) else (Recovered, None)
      else (Recovered, None)
    case _ => (Failed, None)
  }

  function PersistResult(db: Db, i: string, t: InterventionType, r: ProviderResult, atRisk: int): Tx<()> {
    var (next, remaining) := MapOutcome(t, r, atRisk);
    PersistExecutionResult(db, i, StatusOf(r), r.recovered, next, remaining)
  }
}
