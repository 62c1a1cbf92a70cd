/** One delivery of an execution job, as a program over the repositories
    (apps/worker/src/processors/recovery-plan-execution.processor.ts). */
module Processor {
  import opened Contracts
  import opened Policy
  import opened Planning
  import opened Store
  import opened Worker
  import opened Protocol
  import ER = ExecutionRepository

  datatype JobResult =
    | Discarded
    | StoppedByPolicy
    | Executed(status: InterventionStatus)
    | Thrown

  /** A system in which nothing runs but one worker that has just received the job. */
  function Alone(db: Db, w: string, job: Job): System {
    System(db, {job}, map[], map[w := Received(job)], [])
  }

  /** Everything a delivery meets that the tables do not determine. */
  datatype Delivery = Delivery(
    worker: string,
    job: Job,
    around: Surroundings,
    newId: string,
    now: int,
    result: ProviderResult)
  {
    /** The steps of the protocol that one undisturbed delivery takes. */
    function Steps(): seq<Step> {
      [ValidateJob(worker, around), FindIntervention(worker), Prepare(worker, newId), Claim(worker, now),
       CallProvider(worker, result), Persist(worker)]
    }

    function Prepared(s: System): System { Prepares(Finds(s, worker), worker, newId) }
    function Completed(s: System): System { Persists(Calls(Claims(s, worker, now), worker, result), worker) }

    /** The state after the six steps. */
    function Outcome(db: Db): System {
      Completed(Prepared(Validates(Alone(db, worker, job), worker, around)))
    }
  }

  lemma ExecLast(s: System, log: seq<Step>, st: Step)
    ensures Exec(s, log + [st]) == Apply(Exec(s, log), st)
  {
    assert (log + [st])[..|log|] == log;
  }

  lemma FirstSteps(s: System, d: Delivery)
    ensures Apply(s, ValidateJob(d.worker, d.around)) == Validates(s, d.worker, d.around)
    ensures Apply(s, FindIntervention(d.worker)) == Finds(s, d.worker)
    ensures Apply(s, Prepare(d.worker, d.newId)) == Prepares(s, d.worker, d.newId)
  {
    hide Validates, Finds, Prepares;
  }

  lemma LastSteps(s: System, d: Delivery)
    ensures Apply(s, Claim(d.worker, d.now)) == Claims(s, d.worker, d.now)
    ensures Apply(s, CallProvider(d.worker, d.result)) == Calls(s, d.worker, d.result)
    ensures Apply(s, Persist(d.worker)) == Persists(s, d.worker)
  {
    hide Claims, Calls, Persists;
  }

  /** An undisturbed delivery is the run of its six steps. */
  lemma DeliveryIsARun(d: Delivery, db: Db)
    ensures Exec(Alone(db, d.worker, d.job), d.Steps()) == d.Outcome(db)
  {
    hide Apply, Validates, Finds, Prepares, Claims, Calls, Persists;
    var s, log := Alone(db, d.worker, d.job), d.Steps();
    forall k | 0 <= k < 6 ensures Exec(s, log[..k + 1]) == Apply(Exec(s, log[..k]), log[k]) {
      assert log[..k + 1] == log[..k] + [log[k]];
      ExecLast(s, log[..k], log[k]);
    }
    assert log[..0] == [] && log[..6] == log;
    FirstSteps(s, d);
    FirstSteps(Exec(s, log[..0 + 1]), d);
    FirstSteps(Exec(s, log[..1 + 1]), d);
    LastSteps(Exec(s, log[..2 + 1]), d);
    LastSteps(Exec(s, log[..3 + 1]), d);
    LastSteps(Exec(s, log[..4 + 1]), d);
    assert Exec(s, log[..5 + 1]) == d.Outcome(db);
  }

  /** A worker that has dropped its job does nothing more. */
  lemma DroppedIsOver(d: Delivery, s: System)
    requires d.worker !in s.workers
    ensures d.Completed(s) == s && d.Prepared(s) == s
  {}

  class RecoveryPlanExecutionProcessor {
    const executionRepo: ER.ExecutionRepository

    constructor (executionRepo: ER.ExecutionRepository)
      ensures this.executionRepo == executionRepo
    {
      this.executionRepo := executionRepo;
    }

    /** Reads the case again and asks the policy again, for the stored plan only. */
    method Revalidate(job: Job, w: Surroundings) returns (v: Validation)
      ensures v == Validate(executionRepo.db.tables, job, w)
    {
      var tables := executionRepo.db.tables;
      if job.caseId !in tables.cases { return Discard; }
      var rc := tables.cases[job.caseId];
      if job.planId !in tables.plans.rows || tables.plans.rows[job.planId].caseId != job.caseId { return Discard; }
      var plan := tables.plans.rows[job.planId];
      if plan.planStatus != PolicyApproved || plan.requiresHumanApproval { return Discard; }
      if rc.state != Queued {
        if rc.state != Executing { return Discard; }
      }
      if rc.sourceEventId !in tables.events.rows { return Discard; }
      var input := PlanningInput(rc, tables.events.rows[rc.sourceEventId].event, w.policy, w.active, w.diagnosedAt, w.score, "");
      var again := input.(rc := rc.(state := Detected));
      var proposal := ProposeRecoveryPlan(again);
      var decision := EvaluateRecoveryPolicy(
        PolicyInput(again.rc, proposal.value.diagnosis, plan.interventionType, w.policy, w.evaluatedAt, None, false));
      if !decision.approved {
        if decision.stopCase { return StopCase; }
        return Discard;
      }
      return Proceed(plan, rc.amountMinor);
    }

    /** The mapping of the provider's answer, by assignment. */
    method MapResult(t: InterventionType, result: ProviderResult, atRisk: int)
      returns (status: InterventionStatus, next: CaseState, remaining: Option<int>)
      ensures status == StatusOf(result) && (next, remaining) == MapOutcome(t, result, atRisk)
    {
      status := if result.success then SucceededStatus else if result.timedOut then AmbiguousStatus else FailedStatus;
      next, remaining := Recovered, None;
      if status == SucceededStatus {
        if t == PaymentLink || IsReminder(t) {
          next := AwaitingCustomerAction;
        } else if t == PaymentRetry {
          if result.recovered.Some? {
            if result.recovered.value < atRisk {
              next := Detected;
              remaining := Some(atRisk - result.recovered.value);
            } else {
              next := Recovered;
            }
          } else {
            next := Failed;
          }
        }
      } else if status == AmbiguousStatus {
        next := Ambiguous;
      } else {
        next := Failed;
      }
    }

    /** Looks the intervention up by its key, and prepares it if there is none. */
    method FindOrPrepare(d: Delivery, plan: RecoveryPlan, atRisk: int, ghost s: System)
      returns (r: Result<string, JobResult>)
      requires s.db == executionRepo.db.tables && s.workers == map[d.worker := Approved(d.job, plan, atRisk)]
      modifies executionRepo.db
      ensures executionRepo.db.tables == d.Prepared(s).db
      ensures d.Prepared(s).workers == if r.Ok? then map[d.worker := Ready(d.job, plan, atRisk, r.value)] else map[]
      ensures r.Err? ==> r.error in {Discarded, Thrown}
    {
      var key := KeyOf(plan, d.job);
      var tables := executionRepo.db.tables;
      if key !in tables.interventions.byKey {
        var prepared := executionRepo.PrepareInterventionForExecution(CommandOf(plan, d.job), d.newId);
        hide PrepareIntervention;
        match prepared {
          case Err(_) => return Err(Thrown);
          case Ok(id) => return Ok(id);
        }
      }
      var id := tables.interventions.byKey[key];
      if id !in tables.interventions.rows { return Err(Discarded); }
      var status := tables.interventions.rows[id].status;
      if status == SucceededStatus || status == FailedStatus { return Err(Discarded); }
      return Ok(id);
    }

    /** Claims the lock, calls the provider and stores its answer. */
    method Execute(d: Delivery, plan: RecoveryPlan, atRisk: int, id: string, ghost s: System) returns (r: JobResult)
      requires s.db == executionRepo.db.tables && s.workers == map[d.worker := Ready(d.job, plan, atRisk, id)]
      modifies executionRepo.db
      ensures executionRepo.db.tables == d.Completed(s).db
      ensures !r.StoppedByPolicy?
    {
      var acquired := executionRepo.ClaimExecutionLock(id, d.worker, d.now);
      if !acquired { return Discarded; }
      assert executionRepo.db.tables == Claims(s, d.worker, d.now).db;
      ghost var called := Calls(Claims(s, d.worker, d.now), d.worker, d.result);
      assert called.workers == map[d.worker := Called(d.job, plan, atRisk, id, d.result)];
      var status, next, remaining := MapResult(plan.interventionType, d.result, atRisk);
      hide MapOutcome, Store.PersistExecutionResult;
      var failure := executionRepo.PersistExecutionResult(id, status, d.result.recovered, next, remaining);
      assert executionRepo.db.tables == Persists(called, d.worker).db;
      if failure.Some? { return Thrown; }
      return JobResult.Executed(status);
    }

    /** The body of the try block: it does to the tables what the steps of the protocol do. */
    method Attempt(d: Delivery) returns (r: JobResult)
      modifies executionRepo.db
      ensures r.StoppedByPolicy? <==> Validate(old(executionRepo.db.tables), d.job, d.around).StopCase?
      ensures executionRepo.db.tables ==
        if r.StoppedByPolicy? then MarkCase(old(executionRepo.db.tables), d.job.caseId, Stopped)
        else d.Outcome(old(executionRepo.db.tables)).db
    {
      ghost var validated := Validates(Alone(executionRepo.db.tables, d.worker, d.job), d.worker, d.around);
      var v := Revalidate(d.job, d.around);
      hide Validate;
      if v.Discard? {
        DroppedIsOver(d, validated);
        return Discarded;
      }
      if v.StopCase? {
        executionRepo.MarkCaseAfterWorkflowFailure(d.job.caseId, Stopped);
        return StoppedByPolicy;
      }
      assert validated.workers == map[d.worker := Approved(d.job, v.plan, v.atRisk)];
      ghost var prepared := d.Prepared(validated);
      var id := FindOrPrepare(d, v.plan, v.atRisk, validated);
      hide Finds, Prepares, Claims, Calls, Persists;
      if id.Err? {
        DroppedIsOver(d, prepared);
        return id.error;
      }
      r := Execute(d, v.plan, v.atRisk, id.value, prepared);
    }

    /** An exception is rethrown to the queue; after the last attempt the case is escalated first. */
    method Process(d: Delivery, attemptsMade: nat, attempts: nat) returns (r: JobResult)
      modifies executionRepo.db
      ensures var before, c := old(executionRepo.db.tables), d.job.caseId;
        executionRepo.db.tables ==
          if r.StoppedByPolicy? then MarkCase(before, c, Stopped)
          else if r.Thrown? && attemptsMade + 1 >= (if attempts == 0 then 3 else attempts)
          then MarkCase(d.Outcome(before).db, c, Escalated)
          else d.Outcome(before).db
    {
      r := Attempt(d);
      if r.Thrown? && attemptsMade >= (if attempts == 0 then 3 else attempts) - 1 {
        executionRepo.MarkCaseAfterWorkflowFailure(d.job.caseId, Escalated);
      }
    }
  }
}
