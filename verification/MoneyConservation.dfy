/** Conservation of the amount at risk over every run. */
module MoneyConservation {
  import opened Contracts
  import opened Planning
  import opened Store
  import opened TableIntegrity
  import opened Worker
  import opened Protocol
  import opened ProtocolInvariant
  import opened LockLedger
  import opened CaseHistory
  import opened AuditReplay

  /** The amount of the event a case stems from. */
  ghost function Initial(db: Db, c: string): int {
    if c in db.cases && db.cases[c].sourceEventId in db.events.rows
    then db.events.rows[db.cases[c].sourceEventId].event.amountMinor else 0
  }

  function RetrySlot(c: string): Slot { Slot(c, PaymentRetry, 1) }

  /** The retry of a case has its outcome. */
  predicate RetrySettled(db: Db, c: string) {
    RetrySlot(c) in db.interventions.bySlot && db.interventions.bySlot[RetrySlot(c)] in db.outcomes
  }

  /** The partial recovery of a case: what its retry recovered, if that was less than the initial amount. */
  ghost function Credit(db: Db, c: string): int {
    if !RetrySettled(db, c) then 0
    else
      var o := db.outcomes[db.interventions.bySlot[RetrySlot(c)]];
      if o.status.SucceededStatus? && o.recovered.Some? && o.recovered.value < Initial(db, c) then o.recovered.value else 0
  }

  ghost predicate HasPlan(plans: PlanTable, c: string) {
    exists p :: p in plans.rows && plans.rows[p].caseId == c
  }

  /** Until the retry has its outcome, a planned case never returns to Detected. */
  ghost predicate AmountOk(db: Db, c: string) {
    c in db.cases ==>
      && db.cases[c].amountMinor == Initial(db, c) - Credit(db, c)
      && (HasPlan(db.plans, c) && !RetrySettled(db, c) ==> !db.cases[c].state.Detected?)
  }

  /** Until then every worker that read the amount has read the initial one. */
  ghost predicate AmountRead(workers: map<string, Pc>, db: Db, c: string) {
    forall w | w in workers && workers[w].job.caseId == c && !workers[w].Received? ::
      RetrySettled(db, c) || workers[w].atRisk == Initial(db, c)
  }

  ghost predicate MoneyOk(s: System, c: string) {
    AmountOk(s.db, c) && AmountRead(s.workers, s.db, c)
  }

  // ---- writes that leave the amount alone ----

  ghost predicate AmountQuiet(a: Db, b: Db, c: string) {
    c in a.cases ==>
      && c in b.cases
      && b.cases[c].amountMinor == a.cases[c].amountMinor
      && (b.cases[c].state.Detected? ==> a.cases[c].state.Detected? && (HasPlan(b.plans, c) ==> HasPlan(a.plans, c)))
  }

  /** The outcome of the retry is neither written nor replaced. */
  ghost predicate RetryQuiet(a: Db, b: Db, c: string) {
    RetrySettled(b, c) ==>
      RetrySettled(a, c) && b.interventions.bySlot[RetrySlot(c)] == a.interventions.bySlot[RetrySlot(c)]
  }

  lemma SettledStays(a: Db, b: Db, c: string)
    requires Evolves(a, b) && c in a.cases && a.cases[c].sourceEventId in a.events.rows
    ensures RetrySettled(a, c) ==>
      && RetrySettled(b, c)
      && b.outcomes[b.interventions.bySlot[RetrySlot(c)]] == a.outcomes[a.interventions.bySlot[RetrySlot(c)]]
    ensures Initial(b, c) == Initial(a, c)
  {
    assert SameCase(a.cases[c], b.cases[c]);
  }

  lemma QuietKeepsAmount(a: Db, b: Db, c: string)
    requires CasesOk(a.cases, a.events) && Evolves(a, b) && AmountOk(a, c) && AmountQuiet(a, b, c) && RetryQuiet(a, b, c)
    requires c in a.cases
    ensures AmountOk(b, c)
  {
    hide Evolves, Initial;
    assert CaseOk(c, a.cases[c], a.events);
    SettledStays(a, b, c);
  }

  /** A job belongs to a stored case. */
  lemma JobHasCase(s: System, w: string)
    requires SystemOk(s) && w in s.workers
    ensures var c := s.workers[w].job.caseId;
      c in s.db.cases && s.db.cases[c].sourceEventId in s.db.events.rows
  {
    hide TablesOk, QueueOk, DraftsOk, CasesOk, OutboxOk, InterventionsOk, IndexesOk, OutcomesOk;
    TableParts(s.db);
    assert PcOk(s.workers[w], s.db);
    assert PlanOk(s.db.plans.rows[s.workers[w].job.planId], s.db.cases, s.db.events);
  }

  /** Workers that go on remember what they read, or have just read the current amount. */
  lemma ReadingStays(s: System, t: System, c: string)
    requires SystemOk(s) && Evolves(s.db, t.db) && MoneyOk(s, c)
    requires forall w | w in t.workers && !t.workers[w].Received? ::
      w in s.workers && t.workers[w].job == s.workers[w].job
      && ((!s.workers[w].Received? && t.workers[w].atRisk == s.workers[w].atRisk)
          || (t.workers[w].job.caseId in s.db.cases
              && t.workers[w].atRisk == s.db.cases[t.workers[w].job.caseId].amountMinor))
    ensures AmountRead(t.workers, t.db, c)
  {
    hide SystemOk, Evolves, Initial;
    forall w | w in t.workers && t.workers[w].job.caseId == c && !t.workers[w].Received?
      ensures RetrySettled(t.db, c) || t.workers[w].atRisk == Initial(t.db, c)
    {
      JobHasCase(s, w);
      SettledStays(s.db, t.db, c);
    }
  }

  predicate RecordsOutcome(st: Step) { st.Persist? || st.Reconcile? }

  lemma OthersAddNoOutcome(s: System, st: Step, c: string)
    requires SystemOk(s) && !RecordsOutcome(st)
    ensures RetryQuiet(s.db, Apply(s, st).db, c)
  {
    hide SystemOk, Apply;
    if st.Prepare? { PrepareStepDb(s, st); PreparesAddsNoOutcome(s, st.worker, st.newId, c); }
    else if st.IngestEvent? { IngestStepDb(s, st); IngestAddsNoOutcome(s.db, st.cmd, st.ctx); }
    else if st.CommitPlan? { CommitsAddsNoOutcome(s, st); }
    else { SlotsAndOutcomesStay(s, st); }
  }

  lemma PrepareStepDb(s: System, st: Step)
    requires st.Prepare?
    ensures Apply(s, st) == Prepares(s, st.worker, st.newId)
  {}

  lemma CommitsAddsNoOutcome(s: System, st: Step)
    requires st.CommitPlan?
    ensures Apply(s, st).db.interventions == s.db.interventions && Apply(s, st).db.outcomes == s.db.outcomes
  {
    hide PlanAudit;
  }

  /** No plan, slot or outcome is added. */
  ghost predicate KeepsRecords(a: Db, b: Db) {
    b.plans == a.plans && b.interventions.bySlot == a.interventions.bySlot && b.outcomes == a.outcomes
  }

  lemma SlotsAndOutcomesStay(s: System, st: Step)
    requires !RecordsOutcome(st) && !st.Prepare? && !st.IngestEvent? && !st.CommitPlan?
    ensures KeepsRecords(s.db, Apply(s, st).db)
  {
    hide KeepsRecords, EnqueuePlan, SweepIntervention, FreeLease, ScheduleRetry, BlockExecution, MarkCase,
      CaptureUpdate;
    hide CaptureAudit, Propose, Validate, KeyOf, AlreadyExecuted, ClaimExecutionLock, Claimable, Locked;
    CaseWritesKeepRecords(s.db, st);
    RowWritesKeepRecords(s.db, st);
  }

  lemma CaseWritesKeepRecords(db: Db, st: Step)
    ensures KeepsRecords(db, db)
    ensures st.Enqueue? ==> KeepsRecords(db, After(db, EnqueuePlan(db, st.caseId, st.planId, st.outboxId, st.now)))
    ensures st.Mark? ==> KeepsRecords(db, MarkCase(db, st.caseId, if st.escalate then Escalated else Stopped))
    ensures st.Capture? ==> KeepsRecords(db, CaptureUpdate(db, st.caseId))
    ensures st.LogCapture? ==> KeepsRecords(db, CaptureAudit(db, st.caseId, st.previous))
  {}

  lemma RowWritesKeepRecords(db: Db, st: Step)
    ensures forall i, lease :: KeepsRecords(db, ClaimExecutionLock(db, i, lease))
    ensures st.Sweep? ==> KeepsRecords(db, After(db, SweepIntervention(db, st.id)))
    ensures st.Release? ==> KeepsRecords(db, FreeLease(db, st.id))
    ensures st.Retry? ==> KeepsRecords(db, ScheduleRetry(db, st.id))
    ensures st.Block? ==> KeepsRecords(db, After(db, BlockExecution(db, st.id)))
  {}

  lemma PreparesAddsNoOutcome(s: System, w: string, newId: string, c: string)
    requires SystemOk(s)
    ensures RetryQuiet(s.db, Prepares(s, w, newId).db, c)
  {
    hide TablesOk, QueueOk, DraftsOk, WorkersOk, CasesOk, PlansOk, OutboxOk, InterventionsOk, CommandOf;
    TableParts(s.db);
  }

  lemma IngestAddsNoOutcome(db: Db, cmd: IngestionCommand, ctx: IngestionContext)
    ensures var b := After(db, Ingest(db, cmd, ctx));
      b.interventions == db.interventions && b.outcomes == db.outcomes && b.plans == db.plans
  {
    hide Qualification.Qualify, LatestOpenCase, ReplayReceipt;
  }

  /** Plans appear only together with a move of their case. */
  lemma PlansComeWithMoves(s: System, st: Step, c: string)
    requires SystemOk(s) && HasPlan(Apply(s, st).db.plans, c)
    ensures HasPlan(s.db.plans, c) || (c in Apply(s, st).db.cases && !Apply(s, st).db.cases[c].state.Detected?)
  {
    hide SystemOk, HasPlan;
    if st.CommitPlan? { CommittedPlan(s, st.planner, c); }
    else if st.IngestEvent? { hide Apply; IngestAddsNoOutcome(s.db, st.cmd, st.ctx); IngestStepDb(s, st); }
    else { PlansStaySame(s, st); }
  }

  lemma PlansStaySame(s: System, st: Step)
    requires !st.CommitPlan? && !st.IngestEvent?
    ensures Apply(s, st).db.plans == s.db.plans
  {
    if st.Persist? { ResultsAddNoPlan(s, st.worker); }
    else if st.Reconcile? { ReconcileAddsNoPlan(s.db, st.id); }
    else if st.Prepare? { PreparesAddsNoPlan(s, st.worker, st.newId); }
    else { hide Apply; SlotsAndOutcomesStay(s, st); }
  }

  lemma ResultsAddNoPlan(s: System, w: string)
    ensures Persists(s, w).db.plans == s.db.plans
  {
    hide MapOutcome;
  }

  lemma ReconcileAddsNoPlan(db: Db, i: string)
    ensures Reconciles(db, i).plans == db.plans
  {}

  lemma PreparesAddsNoPlan(s: System, w: string, newId: string)
    ensures Prepares(s, w, newId).db.plans == s.db.plans
  {
    hide CommandOf;
  }

  lemma CommittedPlan(s: System, planner: string, c: string)
    requires SystemOk(s) && HasPlan(Commits(s, planner).db.plans, c)
    ensures HasPlan(s.db.plans, c) || (c in Commits(s, planner).db.cases && !Commits(s, planner).db.cases[c].state.Detected?)
  {
    hide TablesOk, QueueOk, WorkersOk, PlanOk, PlanAudit;
    var t := Commits(s, planner);
    var p :| p in t.db.plans.rows && t.db.plans.rows[p].caseId == c;
    if p !in s.db.plans.rows {
      assert DraftOk(s.planners[planner], s.db);
    }
  }

  lemma OtherStepsKeepAmount(s: System, st: Step, c: string)
    requires SystemOk(s) && AmountOk(s.db, c) && c in s.db.cases && !RecordsOutcome(st)
    ensures AmountOk(Apply(s, st).db, c)
  {
    hide SystemOk, Apply, AmountOk, AmountQuiet, RetryQuiet, CasesOk, Evolves, IndexesOk, InterventionsOk, PlansOk;
    OthersAddNoOutcome(s, st, c);
    OthersLeaveAmount(s, st, c);
    StepKeeps(s, st);
    SystemTables(s);
    QuietKeepsAmount(s.db, Apply(s, st).db, c);
  }

  lemma OthersLeaveAmount(s: System, st: Step, c: string)
    requires SystemOk(s) && c in s.db.cases && !RecordsOutcome(st)
    ensures AmountQuiet(s.db, Apply(s, st).db, c)
  {
    hide SystemOk, Apply, HasPlan, Trail, SilentWrites;
    EveryStep(s, st, c);
    if HasPlan(Apply(s, st).db.plans, c) { PlansComeWithMoves(s, st, c); }
  }

  lemma SystemTables(s: System)
    requires SystemOk(s)
    ensures CasesOk(s.db.cases, s.db.events) && IndexesOk(s.db.interventions)
    ensures InterventionsOk(s.db.interventions, s.db.plans, s.db.outbox) && PlansOk(s.db.plans, s.db.cases, s.db.events)
  {
    hide QueueOk, DraftsOk, WorkersOk;
  }

  // ---- outcomes ----

  /** The outcome of an intervention of another type or another case. */
  lemma OtherResultKeepsAmount(db: Db, i: string, status: InterventionStatus, recovered: Option<int>,
    next: CaseState, remaining: Option<int>, c: string)
    requires AmountOk(db, c) && c in db.cases && i in db.interventions.rows
    requires db.interventions.rows[i].caseId == c ==> !next.Detected? && remaining.None?
    requires RetrySlot(c) in db.interventions.bySlot ==> db.interventions.bySlot[RetrySlot(c)] != i
    ensures AmountOk(After(db, PersistExecutionResult(db, i, status, recovered, next, remaining)), c)
  {
    hide HasPlan, RetrySettled;
    OtherResultLeavesAmount(db, i, status, recovered, next, remaining, c);
    OtherResultLeavesCredit(db, i, status, recovered, next, remaining, c);
  }

  lemma OtherResultLeavesAmount(db: Db, i: string, status: InterventionStatus, recovered: Option<int>,
    next: CaseState, remaining: Option<int>, c: string)
    requires c in db.cases && i in db.interventions.rows
    requires db.interventions.rows[i].caseId == c ==> !next.Detected? && remaining.None?
    ensures var b := After(db, PersistExecutionResult(db, i, status, recovered, next, remaining));
      && c in b.cases && b.cases[c].amountMinor == db.cases[c].amountMinor && b.plans == db.plans
      && (b.cases[c].state == db.cases[c].state || !b.cases[c].state.Detected?)
  {}

  lemma OtherResultLeavesCredit(db: Db, i: string, status: InterventionStatus, recovered: Option<int>,
    next: CaseState, remaining: Option<int>, c: string)
    requires c in db.cases
    requires RetrySlot(c) in db.interventions.bySlot ==> db.interventions.bySlot[RetrySlot(c)] != i
    ensures var b := After(db, PersistExecutionResult(db, i, status, recovered, next, remaining));
      RetrySettled(b, c) == RetrySettled(db, c) && Credit(b, c) == Credit(db, c) && Initial(b, c) == Initial(db, c)
  {
    hide MoveToResult;
    if i in db.interventions.rows {
      MovingLeavesCredit(Settle(db, i, status, recovered), db.interventions.rows[i].caseId, next, remaining, c);
    }
  }

  lemma MovingLeavesCredit(db: Db, x: string, next: CaseState, remaining: Option<int>, c: string)
    ensures var b := MoveToResult(db, x, next, remaining);
      RetrySettled(b, c) == RetrySettled(db, c) && Credit(b, c) == Credit(db, c) && Initial(b, c) == Initial(db, c)
  {}

  /** A result that recovers nothing keeps the amount, whatever it is for. */
  lemma FailureKeepsAmount(db: Db, i: string, c: string)
    requires IndexesOk(db.interventions) && AmountOk(db, c) && c in db.cases
    ensures AmountOk(Reconciles(db, i), c)
  {
    hide HasPlan;
  }

  /** The outcome of the retry itself. */
  lemma RetryResultKeepsAmount(db: Db, i: string, r: ProviderResult, atRisk: int, c: string)
    requires AmountOk(db, c) && c in db.cases && i in db.interventions.rows && i !in db.outcomes
    requires db.interventions.rows[i].caseId == c
    requires RetrySlot(c) in db.interventions.bySlot && db.interventions.bySlot[RetrySlot(c)] == i
    requires HasPlan(db.plans, c) && atRisk == Initial(db, c)
    ensures AmountOk(After(db, PersistResult(db, i, PaymentRetry, r, atRisk)), c)
  {
    hide HasPlan;
    var b := After(db, PersistResult(db, i, PaymentRetry, r, atRisk));
    assert Initial(b, c) == Initial(db, c);
  }

  lemma PersistKeepsAmount(s: System, w: string, c: string)
    requires SystemOk(s) && MoneyOk(s, c) && c in s.db.cases
    ensures AmountOk(Persists(s, w).db, c)
  {
    hide SystemOk, AmountOk, PersistExecutionResult, CasesOk, InterventionsOk, IndexesOk, HasPlan, RetrySettled;
    SystemTables(s);
    if w in s.workers && s.workers[w].Called? && s.workers[w].id !in s.db.outcomes {
      var pc := s.workers[w];
      RowOfWorker(s, w);
      RowHasSlot(s.db, pc.id);
      var (next, remaining) := MapOutcome(pc.plan.interventionType, pc.result, pc.atRisk);
      if pc.plan.interventionType.PaymentRetry? && pc.job.caseId == c {
        NotSettled(s.db, pc.id, c);
        RetryResultKeepsAmount(s.db, pc.id, pc.result, pc.atRisk, c);
      } else {
        if RetrySlot(c) in s.db.interventions.bySlot { SlotIsOfCase(s.db, c); }
        OtherResultKeepsAmount(s.db, pc.id, StatusOf(pc.result), pc.result.recovered, next, remaining, c);
      }
    } else if w in s.workers && s.workers[w].Called? {
      FinalOutcome(s.db, s.workers[w]);
    }
  }

  lemma FinalOutcome(db: Db, pc: Pc)
    requires pc.Called? && pc.id in db.outcomes
    ensures After(db, PersistResult(db, pc.id, pc.plan.interventionType, pc.result, pc.atRisk)) == db
  {
    hide MapOutcome;
  }

  lemma RowHasSlot(db: Db, i: string)
    requires IndexesOk(db.interventions) && PlansOk(db.plans, db.cases, db.events) && i in db.interventions.rows
    requires InterventionsOk(db.interventions, db.plans, db.outbox)
    ensures var row := db.interventions.rows[i];
      && row.SlotOf() in db.interventions.bySlot && db.interventions.bySlot[row.SlotOf()] == i
      && HasPlan(db.plans, row.caseId)
  {
    assert InterventionOk(db.interventions.rows[i], db.plans, db.outbox);
  }

  lemma SlotIsOfCase(db: Db, c: string)
    requires IndexesOk(db.interventions) && RetrySlot(c) in db.interventions.bySlot
    ensures var i := db.interventions.bySlot[RetrySlot(c)];
      && i in db.interventions.rows
      && db.interventions.rows[i].caseId == c && db.interventions.rows[i].interventionType.PaymentRetry?
  {}

  lemma NotSettled(db: Db, i: string, c: string)
    requires RetrySlot(c) in db.interventions.bySlot && db.interventions.bySlot[RetrySlot(c)] == i && i !in db.outcomes
    ensures !RetrySettled(db, c)
  {}

  // ---- what workers remember ----

  /** A worker keeps its job and the amount it read; only validation reads it. */
  ghost predicate Remembers(s: System, t: System) {
    forall w | w in t.workers && !t.workers[w].Received? ::
      && w in s.workers && t.workers[w].job == s.workers[w].job
      && ((!s.workers[w].Received? && t.workers[w].atRisk == s.workers[w].atRisk)
          || (t.workers[w].job.caseId in s.db.cases
              && t.workers[w].atRisk == s.db.cases[t.workers[w].job.caseId].amountMinor))
  }

  lemma ValidationReadsTheAmount(s: System, w: string, around: Surroundings)
    ensures Remembers(s, Validates(s, w, around))
  {
    hide Policy.Verdict, PlanningTheorems.Reevaluation;
  }

  lemma WorkersRemember(s: System, st: Step)
    requires !IsWriter(st)
    ensures Remembers(s, Apply(s, st))
  {
    hide Propose, Validates, KeyOf, AlreadyExecuted, PrepareIntervention, PersistResult, CreatePlan;
    if st.ValidateJob? { ValidationReadsTheAmount(s, st.worker, st.around); }
  }

  lemma StepKeepsReading(s: System, st: Step, c: string)
    requires SystemOk(s) && MoneyOk(s, c)
    ensures AmountRead(Apply(s, st).workers, Apply(s, st).db, c)
  {
    hide SystemOk, Apply, Evolves, IsWriter, RetrySettled, Initial, AmountOk;
    StepKeeps(s, st);
    if IsWriter(st) { WritersLeaveWorkers(s, st); } else { WorkersRemember(s, st); }
    ReadingStays(s, Apply(s, st), c);
  }

  /** A case that has just been created has no intervention yet. */
  lemma NewCaseHasItsAmount(s: System, st: Step, c: string)
    requires SystemOk(s) && c !in s.db.cases
    ensures AmountOk(Apply(s, st).db, c)
  {
    hide SystemOk, Apply, CasesOk, Trail, SilentWrites, IndexesOk, InterventionsOk, PlansOk, HasPlan;
    EveryStep(s, st, c);
    if st.IngestEvent? && c in Apply(s, st).db.cases {
      SystemTables(s);
      NoSlotYet(s.db, c);
      IngestStepDb(s, st);
      IngestAddsNoOutcome(s.db, st.cmd, st.ctx);
    }
  }

  lemma NoSlotYet(db: Db, c: string)
    requires c !in db.cases && IndexesOk(db.interventions) && PlansOk(db.plans, db.cases, db.events)
    requires InterventionsOk(db.interventions, db.plans, db.outbox)
    ensures RetrySlot(c) !in db.interventions.bySlot && !HasPlan(db.plans, c)
  {
    if RetrySlot(c) in db.interventions.bySlot {
      SlotIsOfCase(db, c);
      RowHasSlot(db, db.interventions.bySlot[RetrySlot(c)]);
    }
    assert forall p | p in db.plans.rows :: PlanOk(db.plans.rows[p], db.cases, db.events);
  }

  lemma StepKeepsMoney(s: System, st: Step, c: string)
    requires SystemOk(s) && MoneyOk(s, c)
    ensures MoneyOk(Apply(s, st), c)
  {
    hide SystemOk, Apply, AmountOk, AmountRead;
    StepKeepsReading(s, st, c);
    if c !in s.db.cases { NewCaseHasItsAmount(s, st, c); }
    else if st.Persist? { PersistStepDb(s, st); PersistKeepsAmount(s, st.worker, c); }
    else if st.Reconcile? { ReconcileStepDb(s, st); ReconcileKeepsAmount(s, st.id, c); }
    else { OtherStepsKeepAmount(s, st, c); }
  }

  lemma ReconcileStepDb(s: System, st: Step)
    requires st.Reconcile?
    ensures Apply(s, st) == s.(db := Reconciles(s.db, st.id))
  {}

  lemma ReconcileKeepsAmount(s: System, i: string, c: string)
    requires SystemOk(s) && AmountOk(s.db, c) && c in s.db.cases
    ensures AmountOk(Reconciles(s.db, i), c)
  {
    hide SystemOk, AmountOk, Reconciles;
    SystemTables(s);
    FailureKeepsAmount(s.db, i, c);
  }

  lemma {:induction false} RunsKeepMoney(log: seq<Step>, c: string)
    ensures MoneyOk(Exec(START, log), c)
  {
    if log != [] {
      hide MoneyOk, Apply, SystemOk;
      RunsKeepMoney(log[..|log| - 1], c);
      RunsKeepEverything(log[..|log| - 1]);
      StepKeepsMoney(Exec(START, log[..|log| - 1]), log[|log| - 1], c);
    }
  }

  /** In every run, however workers interleave, the amount of a case's event is its current amount at risk plus what
      its retry recovered in part, counted once; the current amount is positive, and it has grown only if the provider
      reported a negative recovery. */
  lemma {:induction false} MoneyIsConserved(log: seq<Step>, c: string)
    requires c in Exec(START, log).db.cases
    ensures var db := Exec(START, log).db;
      && db.cases[c].amountMinor + Credit(db, c) == Initial(db, c)
      && db.cases[c].amountMinor > 0
      && (db.cases[c].amountMinor > Initial(db, c) <==> Credit(db, c) < 0)
  {
    hide Exec, Apply, SystemOk;
    RunsKeepMoney(log, c);
    RunsKeepEverything(log);
    PositiveInitial(Exec(START, log), c);
  }

  lemma PositiveInitial(s: System, c: string)
    requires SystemOk(s) && c in s.db.cases
    ensures Initial(s.db, c) > 0 && Credit(s.db, c) < Initial(s.db, c)
  {
    hide SystemOk;
    SystemTables(s);
    assert CaseOk(c, s.db.cases[c], s.db.events);
  }
}
