/** The store against the domain's state machine: what can leave a terminal state, and what follows from never
    clearing the lock of an executed intervention. */
module TerminalStates {
  import opened Contracts
  import opened StateMachine
  import opened Store
  import opened TableIntegrity
  import opened Worker
  import opened Protocol
  import opened ProtocolInvariant
  import opened LockLedger
  import opened CaseHistory
  import opened AuditReplay
  import opened Provenance
  import opened CaseMoves

  /** An executed intervention stays locked until a sweep takes the lock. */
  lemma {:induction false} ExecutedStaysLocked(log: seq<Step>, i: string)
    requires Executed(Exec(START, log).trace, OneIntervention(i)) > 0
    requires Released(Exec(START, log).trace, OneIntervention(i)) == 0
    ensures Locked(Exec(START, log).db, i)
  {
    LockConservation(log, i);
  }

  /** So the sweep reaches every executed intervention: the row becomes FAILED and the case is escalated,
      recovered or not; only a stopped case is spared. */
  lemma SweepOverridesOutcome(db: Db, i: string)
    requires i in db.interventions.rows && db.interventions.rows[i].caseId in db.cases
    ensures var b, c := After(db, SweepIntervention(db, i)), db.interventions.rows[i].caseId;
      && i in b.interventions.rows && b.interventions.rows[i].status.FailedStatus?
      && b.interventions.rows[i].lease.None?
      && c in b.cases && b.cases[c].state == (if db.cases[c].state.Stopped? then Stopped else Escalated)
      && b.outcomes == db.outcomes
  {}

  /** A retry that recovers the whole amount leaves the case recovered and the intervention locked; the sweep that
      follows escalates the recovered case while the outcome still says that the money arrived. */
  lemma RecoveredCaseIsEscalated(s: System, w: string)
    requires SystemOk(s) && w in s.workers && s.workers[w].Called? && s.workers[w].id !in s.db.outcomes
    requires s.workers[w].plan.interventionType.PaymentRetry? && s.workers[w].result.success
    requires s.workers[w].result.recovered.Some? && s.workers[w].result.recovered.value >= s.workers[w].atRisk
    requires s.workers[w].job.caseId in s.db.cases && s.db.cases[s.workers[w].job.caseId].state.Executing?
    requires Locked(s.db, s.workers[w].id)
    ensures var i, c := s.workers[w].id, s.workers[w].job.caseId;
      var t := Apply(s, Persist(w));
      var u := Apply(t, Sweep(i));
      && c in t.db.cases && t.db.cases[c].state.Recovered? && Locked(t.db, i)
      && c in u.db.cases && u.db.cases[c].state.Escalated?
      && i in u.db.outcomes && u.db.outcomes[i].status.SucceededStatus?
  {
    hide SystemOk, SweepIntervention;
    RowOfWorker(s, w);
    SweepOverridesOutcome(Persists(s, w).db, s.workers[w].id);
  }

  /** The states that cannot be left: those of the domain machine, and ESCALATED, which the documentation adds. */
  predicate Final(state: CaseState) {
    IsTerminal(state) || state.Escalated?
  }

  /** Exactly when a step takes a case of a run out of such a state: when the guard of its kind holds. Enqueuing and
      preparing never do, and the capture webhook only does from ESCALATED. */
  lemma {:induction false} LeavingTerminal(log: seq<Step>, st: Step, c: string)
    ensures var s := Exec(START, log);
      c in s.db.cases && Final(s.db.cases[c].state) ==>
        && (ChangesState(s.db, Apply(s, st).db, c) <==> Moves(s, st, c))
        && (Moves(s, st, c) ==>
              || st.CommitPlan? || st.Persist? || st.Retry? || st.Sweep? || st.Mark? || st.Reconcile? || st.IngestEvent?
              || (st.Capture? && s.db.cases[c].state.Escalated?))
  {
    hide Exec, Apply, ChangesState, IngestMoves, PlanMoves, ResultMoves, OfCase;
    StoredStates(log, c);
    if c in Exec(START, log).db.cases { MovesExactly(Exec(START, log), st, c); }
  }

  /** A planner that read a case before it became final writes its outcome all the same, unless the key or the
      identifier of its plan is taken: the version it checks is read in the same transaction, and the state is not
      checked. Only a planner that stops leaves the case in a terminal state. */
  lemma {:induction false} LatePlannerReopens(s: System, planner: string)
    requires SystemOk(s) && planner in s.planners && s.planners[planner].plan.caseId in s.db.cases
    requires Final(s.db.cases[s.planners[planner].plan.caseId].state)
    ensures var d, t := s.planners[planner], Apply(s, CommitPlan(planner));
      var c := d.plan.caseId;
      var isNew := d.plan.idempotencyKey !in s.db.plans.byKey && d.plan.planId !in s.db.plans.rows;
      && c in t.db.cases
      && t.db.cases[c].state == (if isNew then d.next else s.db.cases[c].state)
      && (isNew && d.next !in {Stopped, Escalated} ==> !Final(t.db.cases[c].state))
  {
    hide TablesOk, QueueOk, WorkersOk, PlanOk, PlanAudit;
    assert DraftOk(s.planners[planner], s.db);
  }

  /** Enqueuing and preparing follow the domain's state machine; planning a case for execution never does. */
  lemma {:induction false} DomainTransitions(log: seq<Step>, st: Step, c: string)
    ensures var s := Exec(START, log);
      var t := Apply(s, st);
      c in s.db.cases && c in t.db.cases && t.db.cases[c].state != s.db.cases[c].state ==>
        && (st.Enqueue? || st.Prepare? ==> CanTransition(s.db.cases[c].state, t.db.cases[c].state))
        && (t.db.cases[c].state.PolicyChecked? ==> !CanTransition(s.db.cases[c].state, t.db.cases[c].state))
  {
    hide Exec, Apply, SystemOk, Trail, SilentWrites;
    RunsKeepEverything(log);
    StoredStates(log, c);
    EveryStep(Exec(START, log), st, c);
  }

  /** No writer counts attempts: the stored count stays zero in every run, so the attempt gate of the policy can close
      only for a limit of zero or less. */
  lemma {:induction false} AttemptsAreNeverCounted(log: seq<Step>, c: string, limit: int)
    ensures var db := Exec(START, log).db;
      c in db.cases ==> (db.cases[c].attemptCount >= limit <==> limit <= 0)
  {
    hide Exec, Apply, SystemOk;
    RunsKeepEverything(log);
    if c in Exec(START, log).db.cases { StoredAttempts(Exec(START, log), c); }
  }

  lemma StoredAttempts(s: System, c: string)
    requires SystemOk(s) && c in s.db.cases
    ensures s.db.cases[c].attemptCount == 0
  {
    hide QueueOk, DraftsOk, WorkersOk, PlansOk, OutboxOk, InterventionsOk, IndexesOk, OutcomesOk;
    assert CaseOk(c, s.db.cases[c], s.db.events);
  }

  // ---- reconciliation ----

  /** An intervention that has an outcome never gets another one, and reporting one changes nothing at all. */
  lemma OutcomesAreFinal(db: Db, i: string, status: InterventionStatus, recovered: Option<int>,
    next: CaseState, remaining: Option<int>)
    requires i in db.outcomes
    ensures After(db, PersistExecutionResult(db, i, status, recovered, next, remaining)) == db
  {}

  /** A provider timeout makes the case ambiguous and queues a reconciliation. The timeout is itself stored as the
      outcome, so in every continuation of the run the reconciliation changes nothing. */
  lemma {:induction false} TimeoutIsNeverReconciled(s: System, w: string, log: seq<Step>)
    requires SystemOk(s) && w in s.workers && s.workers[w].Called? && StatusOf(s.workers[w].result).AmbiguousStatus?
    ensures var i := s.workers[w].id;
      var u := Exec(Apply(s, Persist(w)), log);
      && i in u.db.outcomes
      && Apply(u, Reconcile(i)) == u
  {
    hide SystemOk, Exec, Evolves, Persists;
    var i, t := s.workers[w].id, Apply(s, Persist(w));
    StepKeeps(s, Persist(w));
    RowOfWorker(s, w);
    OutcomeStored(s, w);
    RecordsArePermanent(t, log);
    var u := Exec(t, log);
    StillStored(t.db, u.db, i);
    OutcomesAreFinal(u.db, i, FailedStatus, None, Failed, None);
  }

  lemma OutcomeStored(s: System, w: string)
    requires w in s.workers && s.workers[w].Called? && s.workers[w].id in s.db.interventions.rows
    ensures s.workers[w].id in Persists(s, w).db.outcomes
  {
    hide MapOutcome;
  }

  lemma StillStored(a: Db, b: Db, i: string)
    requires Evolves(a, b) && i in a.outcomes
    ensures i in b.outcomes && b.outcomes[i] == a.outcomes[i]
  {}
}
