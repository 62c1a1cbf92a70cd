/** The execution repository (libs/persistence/src/repositories/prisma/execution.ts). */
module ExecutionRepository {
  import opened Contracts
  import opened Store
  import opened Repositories

  // ---- what a whole sweep does, whatever the order of its iterations ----

  function StaleInterventions(db: Db, threshold: int): set<string> {
    set i | i in db.interventions.rows && StaleLease(db.interventions.rows[i], threshold)
  }

  function StaleOutbox(db: Db, threshold: int): set<string> {
    set o | o in db.outbox.rows && db.outbox.rows[o].lockedAt.Some? && db.outbox.rows[o].lockedAt.value <= threshold
  }

  predicate Escalatable(db: Db, c: string) {
    c in db.cases && !db.cases[c].state.Escalated? && !db.cases[c].state.Stopped?
  }

  /** The cases of the swept interventions that are neither escalated nor stopped. */
  function Hit(db: Db, swept: set<string>): set<string> {
    set i | i in swept && i in db.interventions.rows && Escalatable(db, db.interventions.rows[i].caseId)
      :: db.interventions.rows[i].caseId
  }

  function SweptRows(rows: map<string, InterventionRow>, swept: set<string>): map<string, InterventionRow> {
    map i | i in rows :: if i in swept then rows[i].(lease := None, status := FailedStatus) else rows[i]
  }

  function SweptCases(db: Db, swept: set<string>): map<string, RecoveryCase> {
    map c | c in db.cases ::
      if c in Hit(db, swept) then db.cases[c].(state := Escalated, version := db.cases[c].version + 1) else db.cases[c]
  }

  /** One audit row for every case hit, from its state before the sweep. */
  ghost predicate SweepRowsFor(db: Db, rows: seq<AuditRow>, hit: set<string>) {
    && |rows| == |hit|
    && (forall r | r in rows :: r.entityId in hit && r.entityId in db.cases
          && r == CaseAudit(SystemActor, CaseEscalated, r.entityId, db.cases[r.entityId].state, Escalated))
    && (forall j, k | 0 <= j < k < |rows| :: rows[j].entityId != rows[k].entityId)
  }

  /** b is a with the given interventions swept. */
  ghost predicate SweptBy(a: Db, b: Db, swept: set<string>) {
    && b == a.(interventions := b.interventions, cases := b.cases, audit := b.audit)
    && b.interventions == a.interventions.(rows := SweptRows(a.interventions.rows, swept))
    && b.cases == SweptCases(a, swept)
    && |a.audit| <= |b.audit| && b.audit[..|a.audit|] == a.audit
    && SweepRowsFor(a, b.audit[|a.audit|..], Hit(a, swept))
  }

  lemma SweepNothing(a: Db)
    ensures SweptBy(a, a, {})
  {
    assert SweptRows(a.interventions.rows, {}) == a.interventions.rows;
    assert SweptCases(a, {}) == a.cases;
  }

  lemma HitOneMore(a: Db, swept: set<string>, i: string)
    requires i in a.interventions.rows
    ensures var c := a.interventions.rows[i].caseId;
      Hit(a, swept + {i}) == Hit(a, swept) + if Escalatable(a, c) then {c} else {}
  {}

  lemma RowsOneMore(rows: map<string, InterventionRow>, swept: set<string>, i: string)
    requires i in rows
    ensures var now := SweptRows(rows, swept);
      now[i := now[i].(lease := None, status := FailedStatus)] == SweptRows(rows, swept + {i})
  {}

  predicate EscalatesNow(a: Db, swept: set<string>, c: string) {
    Escalatable(a, c) && c !in Hit(a, swept)
  }

  lemma CasesOneMore(a: Db, swept: set<string>, i: string)
    requires i in a.interventions.rows
    ensures var c := a.interventions.rows[i].caseId;
      if EscalatesNow(a, swept, c)
      then Move(SweptCases(a, swept), c, Escalated) == SweptCases(a, swept + {i})
        && Hit(a, swept + {i}) == Hit(a, swept) + {c}
      else SweptCases(a, swept) == SweptCases(a, swept + {i}) && Hit(a, swept + {i}) == Hit(a, swept)
  {
    HitOneMore(a, swept, i);
    hide Hit;
  }

  lemma AuditOneMore(a: Db, rows: seq<AuditRow>, hit: set<string>, c: string)
    requires SweepRowsFor(a, rows, hit) && c in a.cases && c !in hit
    ensures SweepRowsFor(a, rows + [CaseAudit(SystemActor, CaseEscalated, c, a.cases[c].state, Escalated)], hit + {c})
  {}

  /** One more iteration: it escalates the case unless an earlier iteration already did. */
  lemma SweepOneMore(a: Db, b: Db, swept: set<string>, i: string)
    requires SweptBy(a, b, swept) && i in a.interventions.rows
    ensures var tx := SweepIntervention(b, i);
      && tx.Commit? && SweptBy(a, tx.db, swept + {i})
      && |Hit(a, swept + {i})| == |Hit(a, swept)| + if tx.value then 1 else 0
  {
    hide SweptBy, SweepIntervention, Hit;
    var c := a.interventions.rows[i].caseId;
    if EscalatesNow(a, swept, c) { SweepEscalates(a, b, swept, i, c); } else { SweepSpares(a, b, swept, i, c); }
  }

  /** What the iteration writes, if it escalates the case of the row and if it does not. */
  lemma SweepWrites(b: Db, i: string, c: string)
    requires i in b.interventions.rows && b.interventions.rows[i].caseId == c
    ensures var tx := SweepIntervention(b, i);
      var rows := b.interventions.rows;
      var freed := b.interventions.(rows := rows[i := rows[i].(lease := None, status := FailedStatus)]);
      tx == if Escalatable(b, c)
            then Commit(b.(interventions := freed, cases := Move(b.cases, c, Escalated), audit := b.audit
                          + [CaseAudit(SystemActor, CaseEscalated, c, b.cases[c].state, Escalated)]), true)
            else Commit(b.(interventions := freed), false)
  {}

  lemma SweepEscalates(a: Db, b: Db, swept: set<string>, i: string, c: string)
    requires SweptBy(a, b, swept) && i in a.interventions.rows && c == a.interventions.rows[i].caseId
    requires EscalatesNow(a, swept, c)
    ensures var tx := SweepIntervention(b, i);
      && tx.Commit? && tx.value && SweptBy(a, tx.db, swept + {i})
      && |Hit(a, swept + {i})| == |Hit(a, swept)| + 1
  {
    hide Hit, SweptRows, SweptCases, SweepRowsFor, Move, SweepIntervention;
    SweptKeepsRows(a, b, swept, i);
    RowsOneMore(a.interventions.rows, swept, i);
    CasesOneMore(a, swept, i);
    StillEscalatable(a, swept, c);
    SweepWrites(b, i, c);
    AuditOneMore(a, b.audit[|a.audit|..], Hit(a, swept), c);
    AppendedRow(a.audit, b.audit, CaseAudit(SystemActor, CaseEscalated, c, a.cases[c].state, Escalated));
  }

  lemma AppendedRow(before: seq<AuditRow>, audit: seq<AuditRow>, row: AuditRow)
    requires |before| <= |audit|
    ensures (audit + [row])[|before|..] == audit[|before|..] + [row]
    ensures (audit + [row])[..|before|] == audit[..|before|]
  {}

  lemma SweepSpares(a: Db, b: Db, swept: set<string>, i: string, c: string)
    requires SweptBy(a, b, swept) && i in a.interventions.rows && c == a.interventions.rows[i].caseId
    requires !EscalatesNow(a, swept, c)
    ensures var tx := SweepIntervention(b, i);
      && tx.Commit? && !tx.value && SweptBy(a, tx.db, swept + {i})
      && Hit(a, swept + {i}) == Hit(a, swept)
  {
    hide Hit, SweptRows, SweptCases, SweepRowsFor, Move, SweepIntervention;
    SweptKeepsRows(a, b, swept, i);
    RowsOneMore(a.interventions.rows, swept, i);
    CasesOneMore(a, swept, i);
    StillEscalatable(a, swept, c);
    SweepWrites(b, i, c);
  }

  lemma StillEscalatable(a: Db, swept: set<string>, c: string)
    ensures var now := SweptCases(a, swept);
      EscalatesNow(a, swept, c) <==> c in now && !now[c].state.Escalated? && !now[c].state.Stopped?
    ensures EscalatesNow(a, swept, c) ==> c in a.cases && SweptCases(a, swept)[c] == a.cases[c]
  {}

  lemma SweptKeepsRows(a: Db, b: Db, swept: set<string>, i: string)
    requires SweptBy(a, b, swept) && i in a.interventions.rows
    ensures i in b.interventions.rows && b.interventions.rows[i].caseId == a.interventions.rows[i].caseId
  {}

  class ExecutionRepository {
    const db: Database

    constructor (db: Database)
      ensures this.db == db
    {
      this.db := db;
    }

    method PrepareInterventionForExecution(cmd: PrepareCommand, newId: string) returns (r: Result<string, TxError>)
      modifies db
      ensures var tx := PrepareIntervention(old(db.tables), cmd, newId);
        && db.tables == After(old(db.tables), tx)
        && r == (if tx.Commit? then Ok(tx.value) else Err(tx.error))
    {
      var before := db.tables;
      if cmd.caseId !in db.tables.cases { return Err(CaseNotFound); }
      var existingCase := db.tables.cases[cmd.caseId];
      if cmd.key in db.tables.interventions.byKey { return Ok(db.tables.interventions.byKey[cmd.key]); }
      var created := db.CreateIntervention(newId, NewIntervention(cmd));
      if !created { return Err(UniqueViolation); }
      if existingCase.state == Queued {
        var count := db.UpdateCaseAtVersion(cmd.caseId, existingCase.version, Executing);
        if count == 0 { assert false; }
        db.AppendAudit(CaseAudit(SystemActor, StateTransitioned, cmd.caseId, existingCase.state, Executing));
      }
      db.AppendAudit(PlainAudit(SystemActor, InterventionPrepared, InterventionEntity, newId));
      assert db.tables.audit == before.audit + PrepareAudit(cmd, newId, existingCase.state.Queued?);
      return Ok(newId);
    }

    method MarkCaseAfterWorkflowFailure(c: string, final: CaseState)
      modifies db
      ensures db.tables == MarkCase(old(db.tables), c, final)
    {
      if c !in db.tables.cases || db.tables.cases[c].state == Escalated || db.tables.cases[c].state == Stopped { return; }
      var existing := db.tables.cases[c];
      var count := db.UpdateCaseAtVersion(c, existing.version, final);
      if count > 0 {
        db.AppendAudit(CaseAudit(SystemActor, if final.Escalated? then CaseEscalated else CaseStopped,
                                 c, existing.state, final));
      }
    }

    method ClaimExecutionLock(i: string, workerId: string, now: int) returns (acquired: bool)
      modifies db
      ensures acquired <==> Claimable(old(db.tables), i)
      ensures db.tables == Store.ClaimExecutionLock(old(db.tables), i, Lease(now, workerId))
    {
      if i in db.tables.interventions.rows && db.tables.interventions.rows[i].lease.None? {
        var row := db.tables.interventions.rows[i];
        db.UpdateIntervention(i, row.(lease := Some(Lease(now, workerId))));
        return true;
      }
      return false;
    }

    method MoveCaseToResult(c: string, next: CaseState, remaining: Option<int>)
      modifies db
      ensures db.tables == MoveToResult(old(db.tables), c, next, remaining)
    {
      if c in db.tables.cases && db.tables.cases[c].state != next {
        var existing := db.tables.cases[c];
        var count := db.UpdateCaseAndAmountAtVersion(c, existing.version, next, remaining);
        db.AppendAudit(CaseAudit(SystemActor, StateTransitioned, c, existing.state, next));
      }
    }

    /** Outcome, status and audit row of one result. */
    method RecordOutcome(i: string, status: InterventionStatus, recovered: Option<int>) returns (created: bool)
      requires i in db.tables.interventions.rows
      modifies db
      ensures created <==> i !in old(db.tables.outcomes)
      ensures created ==> db.tables == Settle(old(db.tables), i, status, recovered)
      ensures !created ==> db.tables == old(db.tables)
    {
      created := db.CreateOutcome(i, OutcomeRow(status, recovered));
      if !created { return; }
      db.UpdateIntervention(i, db.tables.interventions.rows[i].(status := status));
      var action := if status == SucceededStatus then InterventionSuccess else InterventionFailed;
      db.AppendAudit(PlainAudit(SystemActor, action, InterventionEntity, i));
    }

    method PersistExecutionResult(i: string, status: InterventionStatus, recovered: Option<int>,
      next: CaseState, remaining: Option<int>) returns (r: Option<TxError>)
      modifies db
      ensures r == Error(Store.PersistExecutionResult(old(db.tables), i, status, recovered, next, remaining))
      ensures db.tables == After(old(db.tables), Store.PersistExecutionResult(old(db.tables), i, status, recovered, next, remaining))
    {
      if i !in db.tables.interventions.rows { return Some(InterventionNotFound); }
      var intervention := db.tables.interventions.rows[i];
      var created := RecordOutcome(i, status, recovered);
      if !created { return Some(UniqueViolation); }
      label settled:
      assert db.tables == Settle(old(db.tables), i, status, recovered);
      MoveCaseToResult(intervention.caseId, next, remaining);
      assert db.tables == MoveToResult(old@settled(db.tables), intervention.caseId, next, remaining);
      assert Store.PersistExecutionResult(old(db.tables), i, status, recovered, next, remaining) == Commit(db.tables, ());
      return None;
    }

    /** Frees every stale lock of interventions and outbox rows, in two updates. */
    method ReleaseStaleLocks(staleLockMinutes: int, now: int) returns (released: nat)
      modifies db
      ensures var threshold := now - staleLockMinutes * 60 * 1000;
        && db.tables == Store.ReleaseStaleLocks(old(db.tables), threshold)
        && released == |StaleInterventions(old(db.tables), threshold)| + |StaleOutbox(old(db.tables), threshold)|
    {
      var threshold := now - staleLockMinutes * 60 * 1000;
      var interventions := StaleInterventions(db.tables, threshold);
      var rows := db.tables.interventions.rows;
      db.tables := db.tables.(interventions := db.tables.interventions.(rows :=
        map i | i in rows :: if i in interventions then rows[i].(lease := None) else rows[i]));
      var outbox := StaleOutbox(db.tables, threshold);
      db.tables := db.tables.(outbox := db.tables.outbox.(rows := FreeOutbox(db.tables.outbox.rows, threshold)));
      assert db.tables.interventions.rows == Store.ReleaseStaleLocks(old(db.tables), threshold).interventions.rows;
      released := |interventions| + |outbox|;
    }

    /** One iteration of the escalating sweep, a transaction of its own. */
    method SweepOne(i: string) returns (escalated: bool)
      requires i in db.tables.interventions.rows
      modifies db
      ensures SweepIntervention(old(db.tables), i) == Commit(db.tables, escalated)
    {
      var intervention := db.tables.interventions.rows[i];
      db.UpdateIntervention(i, intervention.(lease := None, status := FailedStatus));
      var c := intervention.caseId;
      if c in db.tables.cases && db.tables.cases[c].state != Escalated && db.tables.cases[c].state != Stopped {
        var existing := db.tables.cases[c];
        var count := db.UpdateCaseAtVersion(c, existing.version, Escalated);
        db.AppendAudit(CaseAudit(SystemActor, CaseEscalated, c, existing.state, Escalated));
        return true;
      }
      return false;
    }

    /** Sweeps every stale intervention. Outbox locks are freed only if there was one. */
    method EscalateStaleLocks(staleLockMinutes: int, now: int) returns (escalatedCount: nat)
      modifies db
      ensures var threshold := now - staleLockMinutes * 60 * 1000;
        var stale := StaleInterventions(old(db.tables), threshold);
        && escalatedCount == |Hit(old(db.tables), stale)|
        && db.tables.outbox == (if stale == {} then old(db.tables.outbox)
             else old(db.tables.outbox).(rows := FreeOutbox(old(db.tables.outbox.rows), threshold)))
        && SweptBy(old(db.tables), db.tables.(outbox := old(db.tables.outbox)), stale)
    {
      var threshold := now - staleLockMinutes * 60 * 1000;
      var stale := StaleInterventions(db.tables, threshold);
      ghost var before := db.tables;
      SweepNothing(before);
      escalatedCount := 0;
      if stale == {} { return; }
      var rest := stale;
      while rest != {}
        invariant rest <= stale
        invariant SweptBy(before, db.tables, stale - rest)
        invariant escalatedCount == |Hit(before, stale - rest)|
        decreases rest
      {
        hide SweptBy, Hit;
        var i :| i in rest;
        SweepOneMore(before, db.tables, stale - rest, i);
        SweptKeepsRows(before, db.tables, stale - rest, i);
        var escalated := SweepOne(i);
        if escalated { escalatedCount := escalatedCount + 1; }
        assert stale - (rest - {i}) == stale - rest + {i};
        rest := rest - {i};
      }
      assert stale - rest == stale;
      db.tables := db.tables.(outbox := db.tables.outbox.(rows := FreeOutbox(db.tables.outbox.rows, threshold)));
    }

    method ScheduleRetry(i: string)
      modifies db
      ensures db.tables == Store.ScheduleRetry(old(db.tables), i)
    {
      if i !in db.tables.interventions.rows { return; }
      var intervention := db.tables.interventions.rows[i];
      db.UpdateIntervention(i, intervention.(status := RetryScheduledStatus));
      var c := intervention.caseId;
      if c in db.tables.cases && db.tables.cases[c].state != Retryable {
        var count := db.UpdateCaseAtVersion(c, db.tables.cases[c].version, Retryable);
      }
    }

    method BlockExecution(i: string) returns (r: Option<TxError>)
      modifies db
      ensures var tx := Store.BlockExecution(old(db.tables), i);
        db.tables == After(old(db.tables), tx) && r == Error(tx)
    {
      if i !in db.tables.interventions.rows { return Some(InterventionNotFound); }
      db.UpdateIntervention(i, db.tables.interventions.rows[i].(status := StoppedStatus));
      return None;
    }
  }
}
