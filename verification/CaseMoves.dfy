/** Exactly when a step changes the state of a case. */
module CaseMoves {
  import opened Contracts
  import opened Planning
  import opened Store
  import opened TableIntegrity
  import opened Worker
  import opened Protocol
  import opened ProtocolInvariant

  predicate PlanMoves(db: Db, d: Draft, c: string)
    requires c in db.cases
  {
    && d.plan.caseId == c && d.next != db.cases[c].state
    && d.plan.idempotencyKey !in db.plans.byKey && d.plan.planId !in db.plans.rows
  }

  predicate EnqueueMoves(db: Db, x: string, planId: string, outboxId: string, c: string)
    requires c in db.cases
  {
    && x == c && db.cases[c].state.PolicyChecked?
    && planId in db.plans.rows && db.plans.rows[planId].caseId == c && RunsUnattended(db.plans.rows[planId])
    && planId !in db.outbox.byPlan && outboxId !in db.outbox.rows
  }

  predicate PrepareMoves(db: Db, cmd: PrepareCommand, newId: string, c: string)
    requires c in db.cases
  {
    && cmd.caseId == c && db.cases[c].state.Queued?
    && cmd.key !in db.interventions.byKey && newId !in db.interventions.rows
    && NewIntervention(cmd).SlotOf() !in db.interventions.bySlot
  }

  predicate ResultMoves(db: Db, i: string, next: CaseState, c: string)
    requires c in db.cases
  {
    i in db.interventions.rows && i !in db.outcomes && db.interventions.rows[i].caseId == c && next != db.cases[c].state
  }

  /** A new recovery event of a known or admissible merchant whose latest open case is c. */
  predicate IngestMoves(db: Db, cmd: IngestionCommand, ctx: IngestionContext, c: string) {
    && cmd.event.eventType.PaymentRecovered? && cmd.idempotencyKey !in db.events.byKey
    && ctx.eventId !in db.events.rows
    && match MerchantFor(db, cmd, ctx)
       case None => false
       case Some(m) =>
         && (m.merchantId, cmd.event.externalEventId, cmd.event.eventType) !in db.events.bySlot
         && LatestOpenCase(db.cases, db.caseOrder, m.merchantId, CustomerFor(db, cmd, ctx, m)) == Some(c)
  }

  predicate OfCase(db: Db, i: string, c: string) {
    i in db.interventions.rows && db.interventions.rows[i].caseId == c
  }

  /** The guard of each kind of step: what must hold before it for the state of the case to change. */
  predicate Moves(s: System, st: Step, c: string)
    requires c in s.db.cases
  {
    var state := s.db.cases[c].state;
    match st
    case IngestEvent(cmd, ctx) => IngestMoves(s.db, cmd, ctx, c)
    case CommitPlan(p) => p in s.planners && PlanMoves(s.db, s.planners[p], c)
    case Enqueue(x, planId, outboxId, _) => EnqueueMoves(s.db, x, planId, outboxId, c)
    case Prepare(w, newId) =>
      && w in s.workers && s.workers[w].Absent?
      && PrepareMoves(s.db, CommandOf(s.workers[w].plan, s.workers[w].job), newId, c)
    case Persist(w) =>
      && w in s.workers && s.workers[w].Called?
      && var pc := s.workers[w];
         ResultMoves(s.db, pc.id, MapOutcome(pc.plan.interventionType, pc.result, pc.atRisk).0, c)
    case Reconcile(i) => ResultMoves(s.db, i, Failed, c)
    case Mark(x, _) => x == c && state !in {Escalated, Stopped}
    case Capture(x) => x == c && state !in {Recovered, Failed, Stopped}
    case Sweep(i) => OfCase(s.db, i, c) && state !in {Escalated, Stopped}
    case Retry(i) => OfCase(s.db, i, c) && !state.Retryable?
    case _ => false
  }

  predicate ChangesState(a: Db, b: Db, c: string) {
    c in a.cases && c in b.cases && b.cases[c].state != a.cases[c].state
  }

  lemma IngestChanges(db: Db, cmd: IngestionCommand, ctx: IngestionContext, c: string)
    requires c in db.cases
    ensures ChangesState(db, After(db, Ingest(db, cmd, ctx)), c) <==> IngestMoves(db, cmd, ctx, c)
  {
    hide Qualification.Qualify, ReplayReceipt, LatestOpenCase, MerchantFor, CustomerFor;
  }

  lemma PlanChanges(db: Db, d: Draft, c: string)
    requires c in db.cases
    ensures ChangesState(db, After(db, CreatePlan(db, d.plan, d.next)), c) <==> PlanMoves(db, d, c)
  {
    hide PlanAudit;
  }

  lemma EnqueueChanges(db: Db, x: string, planId: string, outboxId: string, now: int, c: string)
    requires c in db.cases
    ensures ChangesState(db, After(db, EnqueuePlan(db, x, planId, outboxId, now)), c) <==>
      EnqueueMoves(db, x, planId, outboxId, c)
  {}

  lemma PrepareChanges(db: Db, cmd: PrepareCommand, newId: string, c: string)
    requires c in db.cases
    ensures ChangesState(db, After(db, PrepareIntervention(db, cmd, newId)), c) <==> PrepareMoves(db, cmd, newId, c)
  {
    hide PrepareAudit;
  }

  lemma ResultChanges(db: Db, i: string, status: InterventionStatus, recovered: Option<int>,
    next: CaseState, remaining: Option<int>, c: string)
    requires c in db.cases
    ensures ChangesState(db, After(db, PersistExecutionResult(db, i, status, recovered, next, remaining)), c) <==>
      ResultMoves(db, i, next, c)
  {
    hide OutcomeRow;
    if i in db.interventions.rows {
      SettlingLeavesCases(db, i, status, recovered);
      MovingChanges(Settle(db, i, status, recovered), db.interventions.rows[i].caseId, next, remaining, c);
    }
    hide Settle, MoveToResult;
  }

  lemma SettlingLeavesCases(db: Db, i: string, status: InterventionStatus, recovered: Option<int>)
    requires i in db.interventions.rows
    ensures Settle(db, i, status, recovered).cases == db.cases
  {}

  lemma MovingChanges(db: Db, x: string, next: CaseState, remaining: Option<int>, c: string)
    requires c in db.cases
    ensures ChangesState(db, MoveToResult(db, x, next, remaining), c) <==> x == c && next != db.cases[c].state
  {}

  lemma MarkersChange(db: Db, x: string, final: CaseState, c: string)
    requires c in db.cases && final in {Escalated, Stopped}
    ensures ChangesState(db, MarkCase(db, x, final), c) <==> x == c && db.cases[c].state !in {Escalated, Stopped}
    ensures ChangesState(db, CaptureUpdate(db, x), c) <==> x == c && db.cases[c].state !in {Recovered, Failed, Stopped}
  {}

  lemma SweepChanges(db: Db, i: string, c: string)
    requires c in db.cases
    ensures ChangesState(db, After(db, SweepIntervention(db, i)), c) <==>
      OfCase(db, i, c) && db.cases[c].state !in {Escalated, Stopped}
    ensures ChangesState(db, ScheduleRetry(db, i), c) <==> OfCase(db, i, c) && !db.cases[c].state.Retryable?
  {}

  predicate WritesState(st: Step) {
    || st.IngestEvent? || st.CommitPlan? || st.Enqueue? || st.Prepare? || st.Persist? || st.Reconcile?
    || st.Mark? || st.Capture? || st.Sweep? || st.Retry?
  }

  lemma OthersLeaveCases(s: System, st: Step)
    requires !WritesState(st)
    ensures Apply(s, st).db.cases == s.db.cases
  {
    hide Propose, Validate, KeyOf, AlreadyExecuted;
  }

  lemma WorkerStepChanges(s: System, st: Step, c: string)
    requires c in s.db.cases && (st.Prepare? || st.Persist? || st.CommitPlan?)
    ensures ChangesState(s.db, Apply(s, st).db, c) <==> Moves(s, st, c)
  {
    hide ChangesState, PlanMoves, PrepareMoves, ResultMoves, CreatePlan, PrepareIntervention, PersistExecutionResult;
    hide CommandOf, MapOutcome;
    assert !ChangesState(s.db, s.db, c) by { Unchanged(s.db, c); }
    match st
    case CommitPlan(p) => if p in s.planners { PlanChanges(s.db, s.planners[p], c); }
    case Prepare(w, newId) =>
      if w in s.workers && s.workers[w].Absent? {
        PrepareChanges(s.db, CommandOf(s.workers[w].plan, s.workers[w].job), newId, c);
      }
    case Persist(w) => PersistChanges(s, w, c);
  }

  lemma PersistChanges(s: System, w: string, c: string)
    requires c in s.db.cases
    ensures ChangesState(s.db, Persists(s, w).db, c) <==> Moves(s, Persist(w), c)
  {
    hide ResultMoves, PersistExecutionResult, MapOutcome;
    if w in s.workers && s.workers[w].Called? {
      var pc := s.workers[w];
      var (next, remaining) := MapOutcome(pc.plan.interventionType, pc.result, pc.atRisk);
      ResultChanges(s.db, pc.id, StatusOf(pc.result), pc.result.recovered, next, remaining, c);
    }
  }

  lemma Unchanged(db: Db, c: string)
    ensures !ChangesState(db, db, c)
  {}

  lemma WriterStepChanges(s: System, st: Step, c: string)
    requires c in s.db.cases && IsWriter(st) && WritesState(st)
    ensures ChangesState(s.db, Apply(s, st).db, c) <==> Moves(s, st, c)
  {
    hide ChangesState, IngestMoves, EnqueueMoves, ResultMoves, OfCase;
    hide Ingest, EnqueuePlan, MarkCase, CaptureUpdate, SweepIntervention, ScheduleRetry, PersistExecutionResult;
    match st
    case IngestEvent(cmd, ctx) => IngestChanges(s.db, cmd, ctx, c);
    case Enqueue(x, planId, outboxId, now) => EnqueueChanges(s.db, x, planId, outboxId, now, c);
    case Mark(x, escalate) => MarkersChange(s.db, x, if escalate then Escalated else Stopped, c);
    case Capture(x) => MarkersChange(s.db, x, Escalated, c);
    case Sweep(i) => SweepChanges(s.db, i, c);
    case Retry(i) => SweepChanges(s.db, i, c);
    case Reconcile(i) => ResultChanges(s.db, i, FailedStatus, None, Failed, None, c);
  }

  /** A step changes the state of a case exactly when the guard of its kind holds before it. */
  lemma {:induction false} MovesExactly(s: System, st: Step, c: string)
    requires c in s.db.cases
    ensures ChangesState(s.db, Apply(s, st).db, c) <==> Moves(s, st, c)
  {
    hide ChangesState, Apply, IsWriter, Moves;
    if !WritesState(st) { QuietChanges(s, st, c); }
    else if st.Prepare? || st.Persist? || st.CommitPlan? { WorkerStepChanges(s, st, c); }
    else { WriterKind(st); WriterStepChanges(s, st, c); }
  }

  lemma WriterKind(st: Step)
    requires WritesState(st) && !st.Prepare? && !st.Persist? && !st.CommitPlan?
    ensures IsWriter(st)
  {}

  lemma QuietChanges(s: System, st: Step, c: string)
    requires c in s.db.cases && !WritesState(st)
    ensures !ChangesState(s.db, Apply(s, st).db, c) && !Moves(s, st, c)
  {
    hide Apply;
    OthersLeaveCases(s, st);
  }
}
