/** Where states and provider calls come from, and what the store allows against the domain's own rules. */
module Provenance {
  import opened Contracts
  import opened Store
  import opened TableIntegrity
  import opened Worker
  import opened Protocol
  import opened ProtocolInvariant
  import opened LockLedger
  import opened CaseHistory
  import opened AuditReplay

  /** A state the store can hold; five states of the domain machine are never written. */
  predicate Storable(state: CaseState) {
    state !in {Qualified, Diagnosed, Planned, Expired, Rejected}
  }

  lemma {:induction false} StoredStates(log: seq<Step>, c: string)
    ensures var s := Exec(START, log);
      c in s.db.cases ==> Storable(s.db.cases[c].state)
  {
    if log != [] {
      hide Apply, SystemOk, CaseStep;
      StoredStates(log[..|log| - 1], c);
      RunsKeepEverything(log[..|log| - 1]);
      EveryStep(Exec(START, log[..|log| - 1]), log[|log| - 1], c);
      StepStoresStorable(Exec(START, log[..|log| - 1]), log[|log| - 1], c);
    }
  }

  lemma StepStoresStorable(s: System, st: Step, c: string)
    requires CaseStep(s, st, c) && (c in s.db.cases ==> Storable(s.db.cases[c].state))
    ensures c in Apply(s, st).db.cases ==> Storable(Apply(s, st).db.cases[c].state)
  {
    hide Apply, Trail, SilentWrites;
  }

  /** The worker's result is a partial recovery of a payment retry. */
  predicate PartialRecovery(pc: Pc) {
    pc.Called? && pc.plan.interventionType.PaymentRetry? && pc.result.success
    && pc.result.recovered.Some? && pc.result.recovered.value < pc.atRisk
  }

  /** Whenever a step of a run changes the state of a case: Executing is entered only from Queued, by preparing an
      intervention; Queued only from PolicyChecked, by enqueuing; PolicyChecked only by planning; and Detected, once
      left, only by a partial recovery. */
  lemma {:induction false} TransitionsHaveProvenance(log: seq<Step>, st: Step, c: string)
    ensures var s := Exec(START, log);
      var t := Apply(s, st);
      c in s.db.cases && c in t.db.cases && t.db.cases[c].state != s.db.cases[c].state ==>
        var from, to := s.db.cases[c].state, t.db.cases[c].state;
        && (to.Executing? ==> from.Queued? && st.Prepare?)
        && (to.Queued? ==> from.PolicyChecked? && st.Enqueue?)
        && (to.PolicyChecked? ==> st.CommitPlan?)
        && (to.Detected? ==> st.Persist? && st.worker in s.workers && PartialRecovery(s.workers[st.worker]))
  {
    hide Exec, Apply, SystemOk, Trail, SilentWrites;
    var s := Exec(START, log);
    RunsKeepEverything(log);
    EveryStep(s, st, c);
    if st.Persist? { DetectedMeansPartial(s, st.worker, c); PersistStepDb(s, st); }
  }

  lemma DetectedMeansPartial(s: System, w: string, c: string)
    ensures var t := Persists(s, w);
      && c in s.db.cases && c in t.db.cases
      && t.db.cases[c].state != s.db.cases[c].state && t.db.cases[c].state.Detected? ==>
        w in s.workers && PartialRecovery(s.workers[w])
  {
    hide PersistExecutionResult, Trail;
    if w in s.workers && s.workers[w].Called? {
      var pc := s.workers[w];
      var (next, remaining) := MapOutcome(pc.plan.interventionType, pc.result, pc.atRisk);
      ResultHistory(s.db, pc.id, StatusOf(pc.result), pc.result.recovered, next, remaining, c);
    }
  }

  // ---- provider calls ----

  /** A call was made for a stored intervention of an approved plan that needs no human and was enqueued. */
  ghost predicate CallOk(h: Happening, db: Db) {
    h.ProviderCalled? ==>
      && h.id in db.interventions.rows
      && var row := db.interventions.rows[h.id];
      && row.caseId == h.caseId && row.interventionType == h.interventionType
      && row.planId in db.plans.rows && RunsUnattended(db.plans.rows[row.planId])
      && db.plans.rows[row.planId].caseId == h.caseId
      && db.plans.rows[row.planId].interventionType == h.interventionType
      && row.planId in db.outbox.byPlan
  }

  lemma CallStays(h: Happening, a: Db, b: Db)
    requires CallOk(h, a) && Evolves(a, b)
    ensures CallOk(h, b)
  {
    if h.ProviderCalled? {
      assert SameIntervention(a.interventions.rows[h.id], b.interventions.rows[h.id]);
    }
  }

  lemma NewCallIsOk(s: System, w: string, result: ProviderResult)
    requires SystemOk(s) && w in s.workers && s.workers[w].Claimed?
    ensures var pc := s.workers[w];
      CallOk(ProviderCalled(pc.id, pc.job.caseId, pc.plan.interventionType), s.db)
  {
    hide TablesOk, QueueOk, DraftsOk, WorkersOk, CasesOk, PlansOk, OutboxOk, IndexesOk, OutcomesOk;
    RowOfWorker(s, w);
    TableParts(s.db);
    assert InterventionOk(s.db.interventions.rows[s.workers[w].id], s.db.plans, s.db.outbox);
  }

  ghost predicate CallsOk(trace: seq<Happening>, db: Db) {
    forall k | 0 <= k < |trace| :: CallOk(trace[k], db)
  }

  lemma StepKeepsCalls(s: System, st: Step)
    requires SystemOk(s) && CallsOk(s.trace, s.db)
    ensures CallsOk(Apply(s, st).trace, Apply(s, st).db)
  {
    hide Apply, SystemOk, CallOk, Evolves;
    var t := Apply(s, st);
    StepKeeps(s, st);
    HistoryGrows(s, st);
    forall k | 0 <= k < |t.trace| ensures CallOk(t.trace[k], t.db) {
      if k < |s.trace| {
        assert t.trace[k] == t.trace[..|s.trace|][k] == s.trace[k];
        CallStays(s.trace[k], s.db, t.db);
      } else {
        NewHappeningIsOk(s, st, k);
      }
    }
  }

  /** Every provider call of every run, when it is made and ever after. */
  lemma {:induction false} CallsAreAuthorised(log: seq<Step>)
    ensures CallsOk(Exec(START, log).trace, Exec(START, log).db)
  {
    if log != [] {
      hide Apply, SystemOk, CallsOk;
      CallsAreAuthorised(log[..|log| - 1]);
      RunsKeepEverything(log[..|log| - 1]);
      StepKeepsCalls(Exec(START, log[..|log| - 1]), log[|log| - 1]);
    }
  }

  lemma NewHappeningIsOk(s: System, st: Step, k: nat)
    requires SystemOk(s) && Evolves(s.db, Apply(s, st).db) && |s.trace| <= k < |Apply(s, st).trace|
    ensures CallOk(Apply(s, st).trace[k], Apply(s, st).db)
  {
    hide Apply, SystemOk, Evolves;
    var t := Apply(s, st);
    HistoryGrows(s, st);
    if t.trace[k].ProviderCalled? {
      NewCallIsOk(s, st.worker, ProviderResult(true, false, None));
      CallStays(t.trace[k], s.db, t.db);
    }
  }
}
