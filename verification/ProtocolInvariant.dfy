/** Every run keeps the tables sound and every worker and planner in step with them. */
module ProtocolInvariant {
  import opened Contracts
  import opened Planning
  import opened PlanningTheorems
  import opened Store
  import opened TableIntegrity
  import opened Worker
  import opened Protocol

  ghost predicate QueueOk(queue: set<Job>, db: Db) {
    forall j | j in queue :: JobOk(j, db.plans, db.outbox)
  }

  ghost predicate DraftOk(d: Draft, db: Db) {
    PlanOk(d.plan, db.cases, db.events) && d.next in {PolicyChecked, Escalated, Stopped, Retryable}
  }

  ghost predicate DraftsOk(planners: map<string, Draft>, db: Db) {
    forall p | p in planners :: DraftOk(planners[p], db)
  }

  predicate HasRow(pc: Pc) { pc.Ready? || pc.Claimed? || pc.Called? }

  /** What a worker remembers agrees with the tables: its job, its plan, the key of its intervention. */
  ghost predicate PcOk(pc: Pc, db: Db) {
    && JobOk(pc.job, db.plans, db.outbox)
    && (!pc.Received? ==> db.plans.rows[pc.job.planId] == pc.plan && pc.plan.planId == pc.job.planId)
    && (HasRow(pc) ==> pc.id in db.interventions.rows && db.interventions.rows[pc.id].key == KeyOf(pc.plan, pc.job))
  }

  ghost predicate WorkersOk(workers: map<string, Pc>, db: Db) {
    forall w | w in workers :: PcOk(workers[w], db)
  }

  ghost predicate SystemOk(s: System) {
    && TablesOk(s.db)
    && QueueOk(s.queue, s.db)
    && DraftsOk(s.planners, s.db)
    && WorkersOk(s.workers, s.db)
  }

  // ---- memories survive what other steps do to the tables ----

  lemma QueueStays(queue: set<Job>, a: Db, b: Db)
    requires QueueOk(queue, a) && Evolves(a, b)
    ensures QueueOk(queue, b)
  {}

  lemma DraftsStay(planners: map<string, Draft>, a: Db, b: Db)
    requires DraftsOk(planners, a) && Evolves(a, b)
    ensures DraftsOk(planners, b)
  {
    forall p | p in planners ensures DraftOk(planners[p], b) {
      assert SameCase(a.cases[planners[p].plan.caseId], b.cases[planners[p].plan.caseId]);
    }
  }

  lemma WorkersStay(workers: map<string, Pc>, a: Db, b: Db)
    requires WorkersOk(workers, a) && Evolves(a, b)
    ensures WorkersOk(workers, b)
  {
    forall w | w in workers ensures PcOk(workers[w], b) {
      assert PcOk(workers[w], a);
      if HasRow(workers[w]) {
        assert SameIntervention(a.interventions.rows[workers[w].id], b.interventions.rows[workers[w].id]);
      }
    }
  }

  /** A step that changes tables, history and perhaps drops or replaces workers. */
  lemma DbStep(s: System, t: System)
    requires SystemOk(s) && TablesOk(t.db) && Evolves(s.db, t.db)
    requires t.queue == s.queue
    requires forall p | p in t.planners :: p in s.planners && t.planners[p] == s.planners[p]
    requires forall w | w in t.workers :: (w in s.workers && t.workers[w] == s.workers[w]) || PcOk(t.workers[w], t.db)
    ensures SystemOk(t)
  {
    hide TablesOk, Evolves;
    QueueStays(s.queue, s.db, t.db);
    DraftsStay(s.planners, s.db, t.db);
    WorkersStay(s.workers, s.db, t.db);
    assert forall p | p in t.planners :: DraftOk(t.planners[p], t.db);
  }

  // ---- planners ----

  lemma ProposalIsSound(i: PlanningInput, db: Db)
    requires i.rc.caseId in db.cases && db.cases[i.rc.caseId].sourceEventId in db.events.rows
    requires i.event == db.events.rows[db.cases[i.rc.caseId].sourceEventId].event
    requires Propose(i).Ok?
    ensures DraftOk(Draft(Propose(i).value.plan, Propose(i).value.resultingState), db)
  {
    if Decision(i).approved && !Decision(i).requiresHumanApproval { UnattendedTypes(i); }
    PlanningOutcomes(i);
  }

  lemma ReadKeeps(s: System, st: Step)
    requires SystemOk(s) && st.ReadForPlan?
    ensures SystemOk(Read(s, st)) && Read(s, st).db == s.db
  {
    hide TablesOk, Propose, DraftOk, QueueOk, WorkersOk;
    var t := Read(s, st);
    if t != s {
      var rc := s.db.cases[st.caseId];
      TableParts(s.db);
      assert CaseOk(st.caseId, rc, s.db.events);
      var event := s.db.events.rows[rc.sourceEventId].event;
      ProposalIsSound(PlanningInput(rc, event, st.policy, st.active, st.now, st.score, st.planId), s.db);
    }
  }

  lemma CommitsKeeps(s: System, planner: string)
    requires SystemOk(s)
    ensures SystemOk(Commits(s, planner)) && Evolves(s.db, Commits(s, planner).db)
  {
    hide TablesOk, Evolves, PlanOk, WorkersOk, QueueOk, CreatePlan;
    EvolvesIsReflexive(s.db);
    if planner in s.planners {
      var d := s.planners[planner];
      assert DraftOk(d, s.db);
      CreatePlanKeeps(s.db, d.plan, d.next);
      DbStep(s, Commits(s, planner));
    }
  }

  // ---- workers ----

  lemma ValidatesKeeps(s: System, w: string, around: Surroundings)
    requires SystemOk(s)
    ensures SystemOk(Validates(s, w, around)) && Validates(s, w, around).db == s.db
  {
    hide TablesOk, JobOk, QueueOk, DraftsOk, PlanOk, Policy.Verdict, PlanningTheorems.Reevaluation;
    TableParts(s.db);
    if w in s.workers && s.workers[w].Received? { assert PcOk(s.workers[w], s.db); }
  }

  lemma FindsKeeps(s: System, w: string)
    requires SystemOk(s)
    ensures SystemOk(Finds(s, w)) && Finds(s, w).db == s.db
  {
    hide TablesOk, JobOk, QueueOk, DraftsOk, CasesOk, PlansOk, OutboxOk, InterventionsOk, OutcomesOk;
    TableParts(s.db);
    if w in s.workers && s.workers[w].Approved? { assert PcOk(s.workers[w], s.db); }
  }

  lemma CommandIsSound(pc: Pc, db: Db)
    requires pc.Absent? && PcOk(pc, db)
    ensures InterventionOk(NewIntervention(CommandOf(pc.plan, pc.job)), db.plans, db.outbox)
  {}

  /** The worker that has prepared an intervention holds the row of its key. */
  lemma PreparedPcOk(pc: Pc, db: Db, newId: string)
    requires pc.Absent? && PcOk(pc, db) && IndexesOk(db.interventions)
    ensures var tx := PrepareIntervention(db, CommandOf(pc.plan, pc.job), newId);
      tx.Commit? && Evolves(db, tx.db) ==> PcOk(Ready(pc.job, pc.plan, pc.atRisk, tx.value), tx.db)
  {
    PreparedRow(db, CommandOf(pc.plan, pc.job), newId);
    hide PrepareIntervention, IndexesOk;
  }

  lemma PreparedDb(s: System, pc: Pc, newId: string)
    requires TablesOk(s.db) && pc.Absent? && PcOk(pc, s.db)
    ensures var tx := PrepareIntervention(s.db, CommandOf(pc.plan, pc.job), newId);
      && TablesOk(After(s.db, tx)) && Evolves(s.db, After(s.db, tx))
      && (tx.Commit? ==> PcOk(Ready(pc.job, pc.plan, pc.atRisk, tx.value), tx.db))
  {
    hide TablesOk, Evolves, PcOk, PrepareIntervention, InterventionOk, CommandOf, IndexesOk;
    CommandIsSound(pc, s.db);
    PrepareKeeps(s.db, CommandOf(pc.plan, pc.job), newId);
    TableParts(s.db);
    PreparedPcOk(pc, s.db, newId);
  }

  lemma PreparesKeeps(s: System, w: string, newId: string)
    requires SystemOk(s)
    ensures SystemOk(Prepares(s, w, newId)) && Evolves(s.db, Prepares(s, w, newId).db)
  {
    hide TablesOk, Evolves, QueueOk, DraftsOk, PcOk, PrepareIntervention, CommandOf;
    EvolvesIsReflexive(s.db);
    if w in s.workers && s.workers[w].Absent? {
      PreparedDb(s, s.workers[w], newId);
      DbStep(s, Prepares(s, w, newId));
    }
  }

  lemma ClaimsKeeps(s: System, w: string, now: int)
    requires SystemOk(s)
    ensures SystemOk(Claims(s, w, now)) && Evolves(s.db, Claims(s, w, now).db)
  {
    hide TablesOk, Evolves, JobOk, QueueOk, DraftsOk;
    EvolvesIsReflexive(s.db);
    if w in s.workers && s.workers[w].Ready? {
      var pc, t := s.workers[w], Claims(s, w, now);
      if Claimable(s.db, pc.id) { RowUpdateKeeps(s.db, t.db, pc.id); }
      WorkersStay(s.workers, s.db, t.db);
      DbStep(s, t);
    }
  }

  lemma CallsKeeps(s: System, w: string, result: ProviderResult)
    requires SystemOk(s)
    ensures SystemOk(Calls(s, w, result)) && Calls(s, w, result).db == s.db
  {
    hide TablesOk, JobOk, QueueOk, DraftsOk;
    if w in s.workers && s.workers[w].Claimed? { assert PcOk(s.workers[w], s.db); }
  }

  lemma ResultKeeps(db: Db, i: string, status: InterventionStatus, recovered: Option<int>,
    next: CaseState, remaining: Option<int>)
    requires TablesOk(db)
    ensures var after := After(db, PersistExecutionResult(db, i, status, recovered, next, remaining));
      TablesOk(after) && Evolves(db, after)
  {
    hide TablesOk, Evolves;
    EvolvesIsReflexive(db);
    var tx := PersistExecutionResult(db, i, status, recovered, next, remaining);
    if tx.Commit? { RowUpdateKeeps(db, tx.db, i); }
  }

  lemma PersistsKeeps(s: System, w: string)
    requires SystemOk(s)
    ensures SystemOk(Persists(s, w)) && Evolves(s.db, Persists(s, w).db)
  {
    hide TablesOk, Evolves, PcOk, QueueOk, DraftsOk, PersistExecutionResult, MapOutcome;
    EvolvesIsReflexive(s.db);
    if w in s.workers && s.workers[w].Called? {
      var pc, t := s.workers[w], Persists(s, w);
      var (next, remaining) := MapOutcome(pc.plan.interventionType, pc.result, pc.atRisk);
      ResultKeeps(s.db, pc.id, StatusOf(pc.result), pc.result.recovered, next, remaining);
      DbStep(s, t);
    }
  }

  // ---- the other writers ----

  lemma FreedKeeps(s: System, i: string, db: Db)
    requires SystemOk(s) && TablesOk(db) && Evolves(s.db, db)
    ensures SystemOk(Freed(s, i, db)) && Freed(s, i, db).db == db
  {
    hide TablesOk, Evolves, QueueOk, DraftsOk, PcOk;
    DbStep(s, Freed(s, i, db));
  }

  lemma SweepKeeps(db: Db, i: string)
    requires TablesOk(db)
    ensures var after := After(db, SweepIntervention(db, i));
      TablesOk(after) && Evolves(db, after)
  {
    hide TablesOk, Evolves;
    EvolvesIsReflexive(db);
    var tx := SweepIntervention(db, i);
    if tx.Commit? { RowUpdateKeeps(db, tx.db, i); }
  }

  lemma ReleaseKeeps(db: Db, i: string)
    requires TablesOk(db)
    ensures TablesOk(FreeLease(db, i)) && Evolves(db, FreeLease(db, i))
  {
    hide TablesOk, Evolves;
    EvolvesIsReflexive(db);
    if i in db.interventions.rows { RowUpdateKeeps(db, FreeLease(db, i), i); }
  }

  lemma RetryKeeps(db: Db, i: string)
    requires TablesOk(db)
    ensures TablesOk(ScheduleRetry(db, i)) && Evolves(db, ScheduleRetry(db, i))
  {
    hide TablesOk, Evolves;
    EvolvesIsReflexive(db);
    if i in db.interventions.rows { RowUpdateKeeps(db, ScheduleRetry(db, i), i); }
  }

  lemma BlockKeeps(db: Db, i: string)
    requires TablesOk(db)
    ensures TablesOk(After(db, BlockExecution(db, i))) && Evolves(db, After(db, BlockExecution(db, i)))
  {
    hide TablesOk, Evolves;
    EvolvesIsReflexive(db);
    if i in db.interventions.rows { RowUpdateKeeps(db, After(db, BlockExecution(db, i)), i); }
  }

  lemma ReconcileKeeps(db: Db, i: string)
    requires TablesOk(db)
    ensures TablesOk(Reconciles(db, i)) && Evolves(db, Reconciles(db, i))
  {
    hide TablesOk, Evolves, PersistExecutionResult;
    EvolvesIsReflexive(db);
    ResultKeeps(db, i, FailedStatus, None, Failed, None);
  }

  lemma RelayKeeps(s: System, o: string)
    requires SystemOk(s) && o in s.db.outbox.rows
    ensures QueueOk(s.queue + {s.db.outbox.rows[o].job}, s.db)
  {
    hide TablesOk;
    TableParts(s.db);
  }

  lemma DbOnlyStep(s: System, db: Db)
    requires SystemOk(s) && TablesOk(db) && Evolves(s.db, db)
    ensures SystemOk(s.(db := db))
  {
    hide TablesOk, Evolves, QueueOk, DraftsOk, PcOk;
    DbStep(s, s.(db := db));
  }

  lemma {:induction false} RunsCompose(s: System, a: seq<Step>, b: seq<Step>)
    ensures Exec(s, a + b) == Exec(Exec(s, a), b)
    decreases |b|
  {
    hide Apply;
    if b == [] {
      assert a + b == a;
    } else {
      assert (a + b)[..|a + b| - 1] == a + b[..|b| - 1];
      RunsCompose(s, a, b[..|b| - 1]);
    }
  }

  lemma WritersLeaveWorkers(s: System, st: Step)
    requires IsWriter(st)
    ensures Apply(s, st).workers == s.workers
  {
    hide Ingest, EnqueuePlan, MarkCase, CaptureUpdate, SweepIntervention, FreeLease, ScheduleRetry, BlockExecution,
      Reconciles;
  }

  lemma StepKeeps(s: System, st: Step)
    requires SystemOk(s)
    ensures SystemOk(Apply(s, st)) && Evolves(s.db, Apply(s, st).db)
  {
    hide SystemOk, Evolves, Apply;
    if IsWriter(st) { WriterStepsKeep(s, st); } else { OtherStepsKeep(s, st); }
  }

  predicate IsWriter(st: Step) {
    || st.IngestEvent? || st.Enqueue? || st.Mark? || st.Capture? || st.LogCapture?
    || st.Sweep? || st.Release? || st.Retry? || st.Block? || st.Reconcile?
  }

  lemma OtherStepsKeep(s: System, st: Step)
    requires SystemOk(s) && !IsWriter(st)
    ensures SystemOk(Apply(s, st)) && Evolves(s.db, Apply(s, st).db)
  {
    hide TablesOk, Evolves, Read, Commits, Validates, Finds, Prepares, Claims, Calls, Persists;
    hide DraftsOk, DraftOk, JobOk;
    EvolvesIsReflexive(s.db);
    match st
    case ReadForPlan(_, _, _, _, _, _, _) => ReadKeeps(s, st);
    case CommitPlan(planner) => CommitsKeeps(s, planner);
    case Relay(o) => if o in s.db.outbox.rows { RelayKeeps(s, o); }
    case Deliver(_, _) =>
    case ValidateJob(w, around) => ValidatesKeeps(s, w, around);
    case FindIntervention(w) => FindsKeeps(s, w);
    case Prepare(w, newId) => PreparesKeeps(s, w, newId);
    case Claim(w, now) => ClaimsKeeps(s, w, now);
    case CallProvider(w, result) => CallsKeeps(s, w, result);
    case Persist(w) => PersistsKeeps(s, w);
    case Crash(_) =>
  }

  predicate WritesRows(st: Step) {
    st.Sweep? || st.Release? || st.Retry? || st.Block? || st.Reconcile?
  }

  lemma WriterStepsKeep(s: System, st: Step)
    requires SystemOk(s) && IsWriter(st)
    ensures SystemOk(Apply(s, st)) && Evolves(s.db, Apply(s, st).db)
  {
    hide SystemOk, Evolves, Apply;
    if WritesRows(st) { RowWritersKeep(s, st); } else { CaseWritersKeep(s, st); }
  }

  lemma CaseWritersKeep(s: System, st: Step)
    requires SystemOk(s) && IsWriter(st) && !WritesRows(st)
    ensures SystemOk(Apply(s, st)) && Evolves(s.db, Apply(s, st).db)
  {
    hide TablesOk, Evolves, QueueOk, DraftsOk, WorkersOk;
    hide Ingest, EnqueuePlan, MarkCase, CaptureUpdate;
    match st
    case IngestEvent(cmd, ctx) =>
      IngestKeeps(s.db, cmd, ctx);
      DbOnlyStep(s, After(s.db, Ingest(s.db, cmd, ctx)));
    case Enqueue(c, planId, outboxId, now) =>
      EnqueuePlanKeeps(s.db, c, planId, outboxId, now);
      DbOnlyStep(s, After(s.db, EnqueuePlan(s.db, c, planId, outboxId, now)));
    case Mark(c, escalate) =>
      MarkCaseKeeps(s.db, c, if escalate then Escalated else Stopped);
      DbOnlyStep(s, MarkCase(s.db, c, if escalate then Escalated else Stopped));
    case Capture(c) =>
      CaptureKeeps(s.db, c);
      DbOnlyStep(s, CaptureUpdate(s.db, c));
    case LogCapture(c, previous) => LogCaptureKeeps(s, c, previous);
  }

  lemma RowWritersKeep(s: System, st: Step)
    requires SystemOk(s) && WritesRows(st)
    ensures SystemOk(Apply(s, st)) && Evolves(s.db, Apply(s, st).db)
  {
    hide TablesOk, Evolves, QueueOk, DraftsOk, WorkersOk, Freed;
    hide SweepIntervention, FreeLease, ScheduleRetry, BlockExecution, Reconciles;
    match st
    case Sweep(i) =>
      SweepKeeps(s.db, i);
      FreedKeeps(s, i, After(s.db, SweepIntervention(s.db, i)));
    case Release(i) =>
      ReleaseKeeps(s.db, i);
      FreedKeeps(s, i, FreeLease(s.db, i));
    case Retry(i) =>
      RetryKeeps(s.db, i);
      DbOnlyStep(s, ScheduleRetry(s.db, i));
    case Block(i) =>
      BlockKeeps(s.db, i);
      DbOnlyStep(s, After(s.db, BlockExecution(s.db, i)));
    case Reconcile(i) =>
      ReconcileKeeps(s.db, i);
      DbOnlyStep(s, Reconciles(s.db, i));
  }

  lemma LogCaptureKeeps(s: System, c: string, previous: CaseState)
    requires SystemOk(s)
    ensures SystemOk(s.(db := CaptureAudit(s.db, c, previous))) && Evolves(s.db, CaptureAudit(s.db, c, previous))
  {
    hide QueueOk, DraftsOk, WorkersOk, CasesOk, PlansOk, OutboxOk, InterventionsOk, IndexesOk, OutcomesOk;
    DbOnlyStep(s, CaptureAudit(s.db, c, previous));
  }

  /** Every reachable state is sound. */
  lemma {:induction false} RunsKeepEverything(log: seq<Step>)
    ensures SystemOk(Exec(START, log))
  {
    if log != [] {
      RunsKeepEverything(log[..|log| - 1]);
      StepKeeps(Exec(START, log[..|log| - 1]), log[|log| - 1]);
    }
  }

  /** In every continuation of a run the recorded facts stay as they are. */
  lemma {:induction false} RecordsArePermanent(s: System, log: seq<Step>)
    requires SystemOk(s)
    ensures SystemOk(Exec(s, log)) && Evolves(s.db, Exec(s, log).db)
  {
    hide SystemOk, Evolves, Apply;
    EvolvesIsReflexive(s.db);
    if log != [] {
      var before := Exec(s, log[..|log| - 1]);
      RecordsArePermanent(s, log[..|log| - 1]);
      StepKeeps(before, log[|log| - 1]);
      EvolvesIsTransitive(s.db, before.db, Exec(s, log).db);
    }
  }

  lemma IngestStepDb(s: System, st: Step)
    requires st.IngestEvent?
    ensures Apply(s, st) == s.(db := After(s.db, Ingest(s.db, st.cmd, st.ctx)))
  {}

  lemma PersistStepDb(s: System, st: Step)
    requires st.Persist?
    ensures Apply(s, st) == Persists(s, st.worker)
  {
    hide Persists;
  }
}
