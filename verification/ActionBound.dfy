/** How often one case can reach a customer or a payment provider. */
module ActionBound {
  import opened Contracts
  import opened Diagnosis
  import opened PlanningTheorems
  import opened Store
  import opened TableIntegrity
  import opened Protocol
  import opened ProtocolInvariant
  import opened LockLedger

  function SourceCause(db: Db, c: string): RootCause
    requires c in db.cases && db.cases[c].sourceEventId in db.events.rows
  {
    CauseOf(db.events.rows[db.cases[c].sourceEventId].event)
  }

  lemma {:induction false} DistinctTypes(held: set<string>, t: InterventionTable, types: set<InterventionType>)
    requires forall i | i in held :: i in t.rows && t.rows[i].interventionType in types
    requires forall i, j | i in held && j in held && t.rows[i].interventionType == t.rows[j].interventionType :: i == j
    ensures |held| <= |types|
    decreases held
  {
    if held != {} {
      var i :| i in held;
      DistinctTypes(held - {i}, t, types - {t.rows[i].interventionType});
    }
  }

  /** A case has at most one intervention of each type its root cause admits. */
  lemma OneInterventionPerType(db: Db, c: string)
    requires TablesOk(db) && c in db.cases && db.cases[c].sourceEventId in db.events.rows
    ensures forall i | i in db.interventions.rows && db.interventions.rows[i].caseId == c ::
      db.interventions.rows[i].interventionType in AutomaticTypes(SourceCause(db, c))
    ensures forall i, j | i in db.interventions.rows && j in db.interventions.rows
      && db.interventions.rows[i].caseId == db.interventions.rows[j].caseId == c
      && db.interventions.rows[i].interventionType == db.interventions.rows[j].interventionType :: i == j
  {
    var t := db.interventions;
    forall i | i in t.rows && t.rows[i].caseId == c
      ensures t.rows[i].interventionType in AutomaticTypes(SourceCause(db, c))
    {
      assert InterventionOk(t.rows[i], db.plans, db.outbox);
      assert PlanOk(db.plans.rows[t.rows[i].planId], db.cases, db.events);
    }
    forall i, j | i in t.rows && j in t.rows && t.rows[i].caseId == t.rows[j].caseId == c
      && t.rows[i].interventionType == t.rows[j].interventionType
      ensures i == j
    {
      assert InterventionOk(t.rows[i], db.plans, db.outbox) && InterventionOk(t.rows[j], db.plans, db.outbox);
      assert t.bySlot[t.rows[i].SlotOf()] == i && t.bySlot[t.rows[j].SlotOf()] == j;
    }
  }

  /** In every run the provider calls made for a case are at most the automatic types of its root cause,
      plus one for every time a sweep took a lock of the case away. */
  lemma {:induction false} CallsPerCase(log: seq<Step>, c: string)
    requires c in Exec(START, log).db.cases
    ensures var s := Exec(START, log);
      && s.db.cases[c].sourceEventId in s.db.events.rows
      && Executed(s.trace, WholeCase(c)) <=
           |AutomaticTypes(SourceCause(s.db, c))| + Released(s.trace, WholeCase(c))
  {
    hide Apply, Exec, TablesOk, AutomaticTypes;
    var s := Exec(START, log);
    RunsKeepEverything(log);
    RunsBalance(log, WholeCase(c));
    TableParts(s.db);
    assert CaseOk(c, s.db.cases[c], s.db.events);
    OneInterventionPerType(s.db, c);
    DistinctTypes(LockedIn(s.db.interventions, WholeCase(c)), s.db.interventions, AutomaticTypes(SourceCause(s.db, c)));
  }

  /** Without sweeps a case causes at most three actions, and none when its cause is fraud or unknown. */
  lemma {:induction false} AtMostThreeActions(log: seq<Step>, c: string)
    requires c in Exec(START, log).db.cases
    requires forall k | 0 <= k < |log| :: !log[k].Sweep? && !log[k].Release?
    ensures var s := Exec(START, log);
      && s.db.cases[c].sourceEventId in s.db.events.rows
      && Executed(s.trace, WholeCase(c)) <= 3
      && (SourceCause(s.db, c) in {Fraud, UnknownCause} ==> Executed(s.trace, WholeCase(c)) == 0)
  {
    hide Apply, Exec;
    CallsPerCase(log, c);
    NothingReleased(log, WholeCase(c));
  }

  lemma {:induction false} NothingReleased(log: seq<Step>, scope: Scope)
    requires forall k | 0 <= k < |log| :: !log[k].Sweep? && !log[k].Release?
    ensures Released(Exec(START, log).trace, scope) == 0
  {
    if log != [] {
      NothingReleased(log[..|log| - 1], scope);
      ReleasesNothing(Exec(START, log[..|log| - 1]), log[|log| - 1], scope);
    }
  }

  lemma ReleasesNothing(s: System, st: Step, scope: Scope)
    requires !st.Sweep? && !st.Release?
    ensures Released(Apply(s, st).trace, scope) == Released(s.trace, scope)
  {
    hide Apply;
    HistoryGrows(s, st);
    var t := Apply(s, st);
    if |t.trace| > |s.trace| {
      assert t.trace == s.trace + [t.trace[|s.trace|]];
      CountLast(s.trace, t.trace[|s.trace|], scope.IsRelease());
    } else {
      assert t.trace == s.trace;
    }
  }
}
