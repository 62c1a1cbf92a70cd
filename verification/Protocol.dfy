/** All writers of the store as interleaved atomic steps. */
module Protocol {
  import opened Contracts
  import opened Planning
  import opened Store
  import opened Worker

  /** How far one delivery of a job has come. */
  datatype Pc =
    | Received(job: Job)
    | Approved(job: Job, plan: RecoveryPlan, atRisk: int)
    | Absent(job: Job, plan: RecoveryPlan, atRisk: int)
    | Ready(job: Job, plan: RecoveryPlan, atRisk: int, id: string)
    | Claimed(job: Job, plan: RecoveryPlan, atRisk: int, id: string)
    | Called(job: Job, plan: RecoveryPlan, atRisk: int, id: string, result: ProviderResult)

  /** A proposal that a planner has computed from what it read but not yet written. */
  datatype Draft = Draft(plan: RecoveryPlan, next: CaseState)

  /** History that no table keeps: locks taken and freed, provider calls, case writes without an audit row. */
  datatype Happening =
    | LockTaken(id: string, caseId: string, interventionType: InterventionType)
    | LockFreed(id: string, caseId: string, interventionType: InterventionType)
    | ProviderCalled(id: string, caseId: string, interventionType: InterventionType)
    | Unlogged(caseId: string)

  datatype System = System(
    db: Db,
    queue: set<Job>,
    planners: map<string, Draft>,
    workers: map<string, Pc>,
    trace: seq<Happening>)

  const START := System(EMPTY, {}, map[], map[], [])

  /** The sweeps are enabled for every row at every time; so are the two markers, which workers reach on errors.
      A worker may crash between any two steps, and a queued job may be delivered any number of times. */
  datatype Step =
    | IngestEvent(cmd: IngestionCommand, ctx: IngestionContext)
    | ReadForPlan(planner: string, caseId: string, policy: MerchantPolicy, active: ActiveSummary,
                  score: Option<Propensity>, now: int, planId: string)
    | CommitPlan(planner: string)
    | Enqueue(caseId: string, planId: string, outboxId: string, now: int)
    | Relay(outboxId: string)
    | Deliver(worker: string, job: Job)
    | ValidateJob(worker: string, around: Surroundings)
    | FindIntervention(worker: string)
    | Prepare(worker: string, newId: string)
    | Claim(worker: string, now: int)
    | CallProvider(worker: string, result: ProviderResult)
    | Persist(worker: string)
    | Crash(worker: string)
    | Mark(caseId: string, escalate: bool)
    | Capture(caseId: string)
    | LogCapture(caseId: string, previous: CaseState)
    | Sweep(id: string)
    | Release(id: string)
    | Retry(id: string)
    | Block(id: string)
    | Reconcile(id: string)

  function Without<T>(m: map<string, T>, k: string): map<string, T> {
    m - {k}
  }

  function Read(s: System, st: Step): System
    requires st.ReadForPlan?
  {
    if st.caseId !in s.db.cases || st.planner in s.planners then s
    else
      var rc := s.db.cases[st.caseId];
      if rc.sourceEventId !in s.db.events.rows then s
      else
        var event := s.db.events.rows[rc.sourceEventId].event;
        var input := PlanningInput(rc, event, st.policy, st.active, st.now, st.score, st.planId);
        match Propose(input)
        case Ok(p) => s.(planners := s.planners[st.planner := Draft(p.plan, p.resultingState)])
        case Err(_) => s
  }

  function Commits(s: System, planner: string): System {
    if planner !in s.planners then s
    else
      var d := s.planners[planner];
      s.(db := After(s.db, CreatePlan(s.db, d.plan, d.next)), planners := Without(s.planners, planner))
  }

  function Validates(s: System, w: string, around: Surroundings): System {
    if w !in s.workers || !s.workers[w].Received? then s
    else
      var job := s.workers[w].job;
      match Worker.Validate(s.db, job, around)
      case Proceed(plan, atRisk) => s.(workers := s.workers[w := Approved(job, plan, atRisk)])
      case _ => s.(workers := Without(s.workers, w))
  }

  function Finds(s: System, w: string): System {
    if w !in s.workers || !s.workers[w].Approved? then s
    else
      var pc := s.workers[w];
      var key := KeyOf(pc.plan, pc.job);
      if key !in s.db.interventions.byKey then s.(workers := s.workers[w := Absent(pc.job, pc.plan, pc.atRisk)])
      else
        var id := s.db.interventions.byKey[key];
        if id !in s.db.interventions.rows || AlreadyExecuted(s.db.interventions.rows[id])
        then s.(workers := Without(s.workers, w))
        else s.(workers := s.workers[w := Ready(pc.job, pc.plan, pc.atRisk, id)])
  }

  function Prepares(s: System, w: string, newId: string): System {
    if w !in s.workers || !s.workers[w].Absent? then s
    else
      var pc := s.workers[w];
      match PrepareIntervention(s.db, CommandOf(pc.plan, pc.job), newId)
      case Commit(db, id) => s.(db := db, workers := s.workers[w := Ready(pc.job, pc.plan, pc.atRisk, id)])
      case Abort(_) => s.(workers := Without(s.workers, w))
  }

  function Claims(s: System, w: string, now: int): System {
    if w !in s.workers || !s.workers[w].Ready? then s
    else
      var pc := s.workers[w];
      if Claimable(s.db, pc.id)
      then
        var row := s.db.interventions.rows[pc.id];
        s.(db := ClaimExecutionLock(s.db, pc.id, Lease(now, w)),
           workers := s.workers[w := Claimed(pc.job, pc.plan, pc.atRisk, pc.id)],
           trace := s.trace + [LockTaken(pc.id, row.caseId, row.interventionType)])
      else s.(workers := Without(s.workers, w))
  }

  function Calls(s: System, w: string, result: ProviderResult): System {
    if w !in s.workers || !s.workers[w].Claimed? then s
    else
      var pc := s.workers[w];
      s.(workers := s.workers[w := Called(pc.job, pc.plan, pc.atRisk, pc.id, result)],
         trace := s.trace + [ProviderCalled(pc.id, pc.job.caseId, pc.plan.interventionType)])
  }

  function Persists(s: System, w: string): System {
    if w !in s.workers || !s.workers[w].Called? then s
    else
      var pc := s.workers[w];
      s.(db := After(s.db, PersistResult(s.db, pc.id, pc.plan.interventionType, pc.result, pc.atRisk)),
         workers := Without(s.workers, w))
  }

  predicate Locked(db: Db, i: string) {
    i in db.interventions.rows && db.interventions.rows[i].lease.Some?
  }

  /** The lock of one row is freed, and the history records it if it was held. */
  function Freed(s: System, i: string, db: Db): System {
    if Locked(s.db, i)
    then s.(db := db, trace := s.trace
              + [LockFreed(i, s.db.interventions.rows[i].caseId, s.db.interventions.rows[i].interventionType)])
    else s.(db := db)
  }

  function FreeLease(db: Db, i: string): Db {
    if i in db.interventions.rows
    then db.(interventions := SetRow(db.interventions, i, db.interventions.rows[i].(lease := None)))
    else db
  }

  function Retries(s: System, i: string): System {
    var moves := i in s.db.interventions.rows && s.db.interventions.rows[i].caseId in s.db.cases
                 && !s.db.cases[s.db.interventions.rows[i].caseId].state.Retryable?;
    s.(db := ScheduleRetry(s.db, i),
       trace := s.trace + (if moves then [Unlogged(s.db.interventions.rows[i].caseId)] else []))
  }

  /** Reports a failure for an intervention whose case was ambiguous when it was read, however long ago. */
  function Reconciles(db: Db, i: string): Db {
    After(db, PersistExecutionResult(db, i, FailedStatus, None, Failed, None))
  }

  function Apply(s: System, st: Step): System {
    match st
    case IngestEvent(cmd, ctx) => s.(db := After(s.db, Ingest(s.db, cmd, ctx)))
    case ReadForPlan(_, _, _, _, _, _, _) => Read(s, st)
    case CommitPlan(planner) => Commits(s, planner)
    case Enqueue(c, planId, outboxId, now) => s.(db := After(s.db, EnqueuePlan(s.db, c, planId, outboxId, now)))
    case Relay(o) => if o in s.db.outbox.rows then s.(queue := s.queue + {s.db.outbox.rows[o].job}) else s
    case Deliver(w, job) => if w !in s.workers && job in s.queue then s.(workers := s.workers[w := Received(job)]) else s
    case ValidateJob(w, around) => Validates(s, w, around)
    case FindIntervention(w) => Finds(s, w)
    case Prepare(w, newId) => Prepares(s, w, newId)
    case Claim(w, now) => Claims(s, w, now)
    case CallProvider(w, result) => Calls(s, w, result)
    case Persist(w) => Persists(s, w)
    case Crash(w) => s.(workers := Without(s.workers, w))
    case Mark(c, escalate) => s.(db := MarkCase(s.db, c, if escalate then Escalated else Stopped))
    case Capture(c) =>
      s.(db := CaptureUpdate(s.db, c), trace := s.trace + (if Capturable(s.db, c) then [Unlogged(c)] else []))
    case LogCapture(c, previous) => s.(db := CaptureAudit(s.db, c, previous))
    case Sweep(i) => Freed(s, i, After(s.db, SweepIntervention(s.db, i)))
    case Release(i) => Freed(s, i, FreeLease(s.db, i))
    case Retry(i) => Retries(s, i)
    case Block(i) => s.(db := After(s.db, BlockExecution(s.db, i)))
    case Reconcile(i) => s.(db := Reconciles(s.db, i))
  }

  /** A run is any sequence of steps; a step that is not enabled changes nothing. */
  function Exec(s: System, log: seq<Step>): System {
    if log == [] then s else Apply(Exec(s, log[..|log| - 1]), log[|log| - 1])
  }
}
