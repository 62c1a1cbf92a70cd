/** The amount at risk when reads and writes are split: what is conserved, and what a lost update takes away. */
module LostUpdates {
  import opened Contracts
  import opened Planning
  import opened Store
  import opened TableIntegrity
  import opened Worker
  import opened MoneyConservation
  import opened ReadCommitted

  // ---- where results come from ----

  function ResultOf(txn: Txn): ProviderResult
    requires txn.Persist?
  {
    ProviderResult(txn.status.SucceededStatus?, txn.status.AmbiguousStatus?, txn.recovered)
  }

  /** What is persisted for an intervention of type t if the amount at risk was read as atRisk. A reconciliation persists
      the same as a failed call. */
  predicate Reports(txn: Txn, t: InterventionType, atRisk: int)
    requires txn.Persist?
  {
    txn.status == StatusOf(ResultOf(txn)) && (txn.next, txn.remaining) == MapOutcome(t, ResultOf(txn), atRisk)
  }

  /** The amount was read at some time of the run so far. */
  ghost predicate ReportedFrom(acts: seq<Act>, txn: Txn)
    requires txn.Persist? && Fits(Run(BEGIN, acts).db, txn)
  {
    exists j | 0 <= j <= |acts| :: ReportedAt(acts, j, txn)
  }

  ghost predicate ReportedAt(acts: seq<Act>, j: int, txn: Txn)
    requires txn.Persist? && Fits(Run(BEGIN, acts).db, txn) && 0 <= j <= |acts|
  {
    var past, now := Run(BEGIN, acts[..j]).db, Run(BEGIN, acts).db;
    && txn.caseId in past.cases
    && Reports(txn, now.interventions.rows[txn.id].interventionType, past.cases[txn.caseId].amountMinor)
  }

  /** Jobs carry attempt 1, and results are mapped from an amount that was read. */
  ghost predicate BegunByWorkers(acts: seq<Act>, txn: Txn) {
    && (txn.Prepare? ==> txn.cmd.attempt == 1)
    && (txn.Persist? && Fits(Run(BEGIN, acts).db, txn) ==> ReportedFrom(acts, txn))
  }

  ghost predicate FromWorkers(acts: seq<Act>) {
    forall k | 0 <= k < |acts| && acts[k].Begin? :: BegunByWorkers(acts[..k], acts[k].txn)
  }

  // ---- what is lost ----

  /** The commit stores a partial recovery and leaves the case as it is. */
  predicate LosesAmount(db: Db, open: Open) {
    && open.txn.Persist? && open.txn.remaining.Some? && open.txn.recovered.Some?
    && open.txn.id in db.interventions.rows && open.txn.id !in db.outcomes
    && !(&& open.seen.row.Some? && open.seen.row.value.state != open.txn.next
         && Matches(db, open.txn.caseId, open.seen.row.value))
  }

  function LostFrom(db: Db, open: Open, c: string): int {
    if LosesAmount(db, open) && open.txn.caseId == c then open.txn.recovered.value else 0
  }

  function LostBy(s: Sys, act: Act, c: string): int {
    if act.Finish? && act.tx in s.open then LostFrom(s.db, s.open[act.tx], c) else 0
  }

  /** What the commits of the run have recovered for a case without reducing its amount at risk. */
  function Lost(acts: seq<Act>, c: string): int {
    if acts == [] then 0
    else Lost(acts[..|acts| - 1], c) + LostBy(Run(BEGIN, acts[..|acts| - 1]), acts[|acts| - 1], c)
  }

  // ---- rows stay ----

  lemma MatchedCaseGrows(db: Db, c: string, row: RecoveryCase, rc: RecoveryCase)
    requires Matches(db, c, row) && rc == db.cases[c].(state := rc.state, amountMinor := rc.amountMinor,
                                                       version := row.version + 1)
    ensures CasesGrow(db.cases, db.cases[c := rc])
  {}

  lemma SetRowGrows(t: InterventionTable, i: string, row: InterventionRow)
    requires i in t.rows && SameIntervention(t.rows[i], row)
    ensures InterventionsGrow(t, SetRow(t, i, row))
  {}

  lemma PlanEvolves(db: Db, plan: RecoveryPlan, next: CaseState, row: RecoveryCase)
    ensures Evolves(db, CommitPlan(db, plan, next, row))
  {
    hide PlanAudit, EventsGrow, CasesGrow, InterventionsGrow;
    EvolvesIsReflexive(db);
    if Matches(db, plan.caseId, row) {
      MatchedCaseGrows(db, plan.caseId, row, Guarded(db.cases, plan.caseId, row, next)[plan.caseId]);
    }
  }

  lemma EnqueueEvolves(db: Db, c: string, planId: string, outboxId: string, job: Job, now: int, row: RecoveryCase)
    ensures Evolves(db, CommitEnqueue(db, c, planId, outboxId, job, now, row))
  {
    hide EventsGrow, CasesGrow, PlansGrow, InterventionsGrow;
    EvolvesIsReflexive(db);
    if Matches(db, c, row) { MatchedCaseGrows(db, c, row, Guarded(db.cases, c, row, Queued)[c]); }
  }

  lemma PrepareEvolves(db: Db, cmd: PrepareCommand, newId: string, row: RecoveryCase)
    ensures Evolves(db, CommitPrepare(db, cmd, newId, row))
  {
    hide PrepareAudit, EventsGrow, CasesGrow, PlansGrow;
    EvolvesIsReflexive(db);
    if Matches(db, cmd.caseId, row) {
      MatchedCaseGrows(db, cmd.caseId, row, Guarded(db.cases, cmd.caseId, row, Executing)[cmd.caseId]);
    }
  }

  lemma PersistEvolves(db: Db, txn: Txn, seen: Option<RecoveryCase>)
    requires txn.Persist?
    ensures Evolves(db, CommitPersist(db, txn, seen))
  {
    hide EventsGrow, CasesGrow, PlansGrow, InterventionsGrow;
    EvolvesIsReflexive(db);
    if txn.id in db.interventions.rows {
      SetRowGrows(db.interventions, txn.id, db.interventions.rows[txn.id].(status := txn.status));
      var b := CommitPersist(db, txn, seen);
      if seen.Some? && Matches(db, txn.caseId, seen.value) && b.cases != db.cases {
        MatchedCaseGrows(db, txn.caseId, seen.value, b.cases[txn.caseId]);
      }
    }
  }

  lemma SweepEvolves(db: Db, c: string, i: string, seen: Option<RecoveryCase>)
    ensures Evolves(db, CommitSweep(db, c, i, seen))
  {
    hide EventsGrow, CasesGrow, PlansGrow, InterventionsGrow, Extends;
    EvolvesIsReflexive(db);
    if i in db.interventions.rows {
      SetRowGrows(db.interventions, i, db.interventions.rows[i].(lease := None, status := FailedStatus));
    }
    if seen.Some? && Matches(db, c, seen.value) {
      MatchedCaseGrows(db, c, seen.value, Guarded(db.cases, c, seen.value, Escalated)[c]);
    }
  }

  lemma RetryEvolves(db: Db, c: string, i: string, seen: Option<RecoveryCase>)
    ensures Evolves(db, CommitRetry(db, c, i, seen))
  {
    hide EventsGrow, CasesGrow, PlansGrow, InterventionsGrow, Extends;
    EvolvesIsReflexive(db);
    if i in db.interventions.rows {
      SetRowGrows(db.interventions, i, db.interventions.rows[i].(status := RetryScheduledStatus));
    }
    if seen.Some? && Matches(db, c, seen.value) {
      MatchedCaseGrows(db, c, seen.value, Guarded(db.cases, c, seen.value, Retryable)[c]);
    }
  }

  lemma MarkEvolves(db: Db, c: string, final: CaseState, row: RecoveryCase)
    ensures Evolves(db, CommitMark(db, c, final, row))
  {
    hide EventsGrow, CasesGrow, PlansGrow, InterventionsGrow, Extends;
    EvolvesIsReflexive(db);
    if Matches(db, c, row) { MatchedCaseGrows(db, c, row, Guarded(db.cases, c, row, final)[c]); }
  }

  lemma CaptureEvolves(db: Db, c: string, row: RecoveryCase)
    ensures Evolves(db, CommitCapture(db, c, row))
  {
    hide EventsGrow, CasesGrow, PlansGrow, InterventionsGrow, Extends;
    EvolvesIsReflexive(db);
    if Matches(db, c, row) { MatchedCaseGrows(db, c, row, Guarded(db.cases, c, row, Recovered)[c]); }
  }

  lemma RecordedEvolves(db: Db, cmd: IngestionCommand, ctx: IngestionContext, merchant: Merchant, customer: string)
    requires ctx.eventId !in db.events.rows && cmd.idempotencyKey !in db.events.byKey
    ensures EventsGrow(db.events, Recorded(db, cmd, ctx, merchant, customer).events)
  {}

  lemma NoticeEvolves(db: Db, txn: Txn, seen: Seen)
    requires txn.Notice?
    ensures Evolves(db, CommitNotice(db, txn, seen))
  {
    hide EventsGrow, PlansGrow, InterventionsGrow, Extends;
    EvolvesIsReflexive(db);
    if !txn.Refused(db) { RecordedEvolves(db, txn.notice, txn.ctx, txn.merchant, txn.customer); }
  }

  lemma CommitEvolves(db: Db, txn: Txn, seen: Seen)
    ensures Evolves(db, ReadCommitted.Commit(db, txn, seen))
  {
    hide Evolves, CommitPlan, CommitPrepare, CommitPersist, CommitSweep, CommitRetry, CommitMark, CommitCapture,
      CommitEnqueue, CommitNotice;
    EvolvesIsReflexive(db);
    match txn
    case Notice(_, _, _, _, _) => NoticeEvolves(db, txn, seen);
    case Persist(_, _, _, _, _, _) => PersistEvolves(db, txn, seen.row);
    case Sweep(c, i) => SweepEvolves(db, c, i, seen.row);
    case Retry(c, i) => RetryEvolves(db, c, i, seen.row);
    case _ =>
      if seen.row.Some? {
        var row := seen.row.value;
        match txn
        case Plan(plan, next) => PlanEvolves(db, plan, next, row);
        case Enqueue(c, planId, outboxId, job, now) => EnqueueEvolves(db, c, planId, outboxId, job, now, row);
        case Prepare(cmd, newId) => PrepareEvolves(db, cmd, newId, row);
        case Mark(c, final) => MarkEvolves(db, c, final, row);
        case Capture(c) => CaptureEvolves(db, c, row);
        case _ =>
      }
  }

  lemma IngestEvolves(db: Db, cmd: IngestionCommand, ctx: IngestionContext)
    ensures Evolves(db, After(db, Ingest(db, cmd, ctx)))
  {
    hide Qualification.Qualify, LatestOpenCase, ReplayReceipt, EventsGrow, PlansGrow, InterventionsGrow, Extends;
    EvolvesIsReflexive(db);
    var merchant := MerchantFor(db, cmd, ctx);
    if merchant.Some? && ctx.eventId !in db.events.rows && cmd.idempotencyKey !in db.events.byKey {
      RecordedEvolves(db, cmd, ctx, merchant.value, CustomerFor(db, cmd, ctx, merchant.value));
    }
  }

  lemma StepEvolves(s: Sys, act: Act)
    ensures Evolves(s.db, Step(s, act).db)
  {
    hide Evolves, ReadCommitted.Commit, Ingest;
    EvolvesIsReflexive(s.db);
    match act
    case Begin(_, _) =>
    case Finish(tx) => if tx in s.open { CommitEvolves(s.db, s.open[tx].txn, s.open[tx].seen); }
    case Ingestion(cmd, ctx) => IngestEvolves(s.db, cmd, ctx);
  }

  lemma {:induction false} RunEvolves(acts: seq<Act>, j: nat)
    requires j <= |acts|
    ensures Evolves(Run(BEGIN, acts[..j]).db, Run(BEGIN, acts).db)
  {
    hide Evolves, Step;
    if j == |acts| {
      assert acts[..j] == acts;
      EvolvesIsReflexive(Run(BEGIN, acts).db);
    } else {
      var init := acts[..|acts| - 1];
      assert init[..j] == acts[..j];
      RunEvolves(init, j);
      StepEvolves(Run(BEGIN, init), acts[|acts| - 1]);
      EvolvesIsTransitive(Run(BEGIN, acts[..j]).db, Run(BEGIN, init).db, Run(BEGIN, acts).db);
    }
  }

  // ---- the tables of a run ----

  /** Indexes point at their rows, interventions belong to cases and are first attempts, cases stem from events. */
  ghost predicate RowsOk(db: Db) {
    && IndexesOk(db.interventions)
    && (forall i | i in db.interventions.rows :: db.interventions.rows[i].attempt == 1
          && db.interventions.rows[i].caseId in db.cases)
    && OutcomesOk(db.outcomes, db.interventions)
    && (forall c | c in db.cases :: db.cases[c].sourceEventId in db.events.rows)
  }

  /** A result of the retry of its case was mapped from the initial amount, unless the retry is settled by now; no other
      result sets an amount. */
  ghost predicate ResultOk(db: Db, txn: Txn)
    requires txn.Persist?
  {
    && Fits(db, txn)
    && if db.interventions.rows[txn.id].interventionType.PaymentRetry?
       then RetrySettled(db, txn.caseId) || Reports(txn, PaymentRetry, Initial(db, txn.caseId))
       else txn.remaining.None?
  }

  ghost predicate OpenOk(db: Db, open: Open) {
    && (open.txn.Prepare? ==> open.txn.cmd.attempt == 1)
    && (open.txn.Persist? ==> ResultOk(db, open.txn))
  }

  /** The amount of a case is what its event says, without the partial recovery of its retry, unless that was lost. */
  ghost predicate AmountWithout(db: Db, c: string, lost: int) {
    if c in db.cases
    then db.cases[c].amountMinor == Initial(db, c) - Credit(db, c) + lost && (lost == 0 || lost == Credit(db, c))
    else lost == 0
  }

  ghost predicate SplitOk(s: Sys, c: string, lost: int) {
    && RowsOk(s.db) && (forall tx | tx in s.open :: OpenOk(s.db, s.open[tx])) && AmountWithout(s.db, c, lost)
  }

  // ---- results that are open stay what they are ----

  lemma OpenStays(a: Db, b: Db, open: Open)
    requires RowsOk(a) && Evolves(a, b) && OpenOk(a, open)
    ensures OpenOk(b, open)
  {
    if open.txn.Persist? {
      var c := open.txn.caseId;
      assert SameIntervention(a.interventions.rows[open.txn.id], b.interventions.rows[open.txn.id]);
      SettledStays(a, b, c);
      hide Evolves, RetrySettled, Initial, Reports;
    }
  }

  // ---- commits that leave amounts and outcomes alone ----

  ghost predicate SameKeys(a: InterventionTable, b: InterventionTable) {
    b.rows.Keys == a.rows.Keys && b.byKey == a.byKey && b.bySlot == a.bySlot
  }

  ghost predicate Quiet(a: Db, b: Db, c: string) {
    && SameKeys(a.interventions, b.interventions) && b.outcomes == a.outcomes
    && b.cases.Keys == a.cases.Keys
    && (c in a.cases ==> b.cases[c].amountMinor == a.cases[c].amountMinor)
  }

  lemma IndexesStay(a: InterventionTable, b: InterventionTable)
    requires IndexesOk(a) && InterventionsGrow(a, b) && SameKeys(a, b)
    ensures IndexesOk(b)
  {
    forall i | i in b.rows ensures b.rows[i].SlotOf() == a.rows[i].SlotOf() && b.rows[i].key == a.rows[i].key {
      assert SameIntervention(a.rows[i], b.rows[i]);
    }
  }

  lemma RowsStay(a: Db, b: Db)
    requires RowsOk(a) && Evolves(a, b) && SameKeys(a.interventions, b.interventions)
    requires forall i | i in b.outcomes :: i in b.interventions.rows
    requires forall c | c in b.cases :: c in a.cases || b.cases[c].sourceEventId in b.events.rows
    ensures RowsOk(b)
  {
    IndexesStay(a.interventions, b.interventions);
    hide IndexesOk, SameKeys;
    forall i | i in b.interventions.rows
      ensures b.interventions.rows[i].attempt == 1 && b.interventions.rows[i].caseId in b.cases
    {
      assert SameIntervention(a.interventions.rows[i], b.interventions.rows[i]);
    }
    forall c | c in b.cases ensures b.cases[c].sourceEventId in b.events.rows {
      if c in a.cases { assert SameCase(a.cases[c], b.cases[c]); }
    }
  }

  /** Neither the outcome of the retry nor the amount changes. */
  lemma AmountStays(a: Db, b: Db, c: string, lost: int)
    requires RowsOk(a) && Evolves(a, b) && AmountWithout(a, c, lost)
    requires c in b.cases ==> c in a.cases && b.cases[c].amountMinor == a.cases[c].amountMinor
    requires c in a.cases && RetrySettled(b, c) ==> RetrySettled(a, c)
    ensures AmountWithout(b, c, lost)
  {
    if c in a.cases {
      hide Evolves, RowsOk;
      CaseStays(a, b, c);
      hide Initial, RetrySettled;
    }
  }

  lemma CaseStays(a: Db, b: Db, c: string)
    requires RowsOk(a) && Evolves(a, b) && c in a.cases
    ensures c in b.cases && Initial(b, c) == Initial(a, c)
    ensures RetrySettled(a, c) ==> RetrySettled(b, c) && Credit(b, c) == Credit(a, c)
  {
    SettledStays(a, b, c);
    hide IndexesOk, Initial;
  }

  lemma QuietKeeps(a: Db, b: Db, c: string, lost: int)
    requires RowsOk(a) && Evolves(a, b) && Quiet(a, b, c) && AmountWithout(a, c, lost)
    ensures RowsOk(b) && AmountWithout(b, c, lost)
  {
    AmountStays(a, b, c, lost);
    hide Evolves, Credit, Initial;
    RowsStay(a, b);
  }

  lemma NothingIsQuiet(db: Db, c: string)
    ensures Quiet(db, db, c)
  {}

  lemma PlanIsQuiet(db: Db, plan: RecoveryPlan, next: CaseState, row: RecoveryCase, c: string)
    ensures Quiet(db, CommitPlan(db, plan, next, row), c)
  {
    hide PlanAudit;
  }

  lemma CaseWritesAreQuiet(db: Db, txn: Txn, row: RecoveryCase, c: string)
    ensures txn.Enqueue? ==> Quiet(db, CommitEnqueue(db, txn.caseId, txn.planId, txn.outboxId, txn.job, txn.now, row), c)
    ensures txn.Mark? ==> Quiet(db, CommitMark(db, txn.caseId, txn.final, row), c)
    ensures txn.Capture? ==> Quiet(db, CommitCapture(db, txn.caseId, row), c)
  {
    hide Txn.Refused;
  }

  lemma SweepIsQuiet(db: Db, x: string, i: string, seen: Option<RecoveryCase>, c: string)
    ensures Quiet(db, CommitSweep(db, x, i, seen), c)
  {}

  lemma RetryIsQuiet(db: Db, x: string, i: string, seen: Option<RecoveryCase>, c: string)
    ensures Quiet(db, CommitRetry(db, x, i, seen), c)
  {}

  lemma NoticeIsQuiet(db: Db, txn: Txn, seen: Seen, c: string)
    requires txn.Notice?
    ensures Quiet(db, CommitNotice(db, txn, seen), c)
  {
    hide Txn.Refused;
  }

  lemma CommitIsQuiet(db: Db, txn: Txn, seen: Seen, c: string)
    requires !txn.Persist? && !txn.Prepare?
    ensures Quiet(db, ReadCommitted.Commit(db, txn, seen), c)
  {
    hide Quiet, CommitPlan, CommitSweep, CommitRetry, CommitMark, CommitCapture, CommitEnqueue, CommitNotice;
    NothingIsQuiet(db, c);
    match txn
    case Notice(_, _, _, _, _) => NoticeIsQuiet(db, txn, seen, c);
    case Sweep(x, i) => SweepIsQuiet(db, x, i, seen.row, c);
    case Retry(x, i) => RetryIsQuiet(db, x, i, seen.row, c);
    case Plan(plan, next) => if seen.row.Some? { PlanIsQuiet(db, plan, next, seen.row.value, c); }
    case Enqueue(_, _, _, _, _) => if seen.row.Some? { CaseWritesAreQuiet(db, txn, seen.row.value, c); }
    case Mark(_, _) => if seen.row.Some? { CaseWritesAreQuiet(db, txn, seen.row.value, c); }
    case Capture(_) => if seen.row.Some? { CaseWritesAreQuiet(db, txn, seen.row.value, c); }
  }

  // ---- preparing ----

  lemma PreparedIndexes(t: InterventionTable, cmd: PrepareCommand, newId: string)
    requires IndexesOk(t) && newId !in t.rows && cmd.key !in t.byKey && NewIntervention(cmd).SlotOf() !in t.bySlot
    ensures IndexesOk(InterventionTable(t.rows[newId := NewIntervention(cmd)], t.byKey[cmd.key := newId],
      t.bySlot[NewIntervention(cmd).SlotOf() := newId]))
  {
    var u := InterventionTable(t.rows[newId := NewIntervention(cmd)], t.byKey[cmd.key := newId],
      t.bySlot[NewIntervention(cmd).SlotOf() := newId]);
    forall i | i in u.rows && i != newId
      ensures u.rows[i].SlotOf() in u.bySlot && u.bySlot[u.rows[i].SlotOf()] == i
      ensures u.rows[i].key in u.byKey && u.byKey[u.rows[i].key] == i
    {
      assert t.rows[i].SlotOf() in t.bySlot && t.rows[i].key in t.byKey;
    }
  }

  lemma PrepareKeepsRowsOk(db: Db, cmd: PrepareCommand, newId: string, row: RecoveryCase)
    requires RowsOk(db) && cmd.attempt == 1 && cmd.caseId in db.cases
    ensures RowsOk(CommitPrepare(db, cmd, newId, row))
  {
    hide PrepareAudit, IndexesOk;
    if !Txn.Prepare(cmd, newId).Refused(db) { PreparedIndexes(db.interventions, cmd, newId); }
  }

  lemma PrepareSettlesNothing(db: Db, cmd: PrepareCommand, newId: string, row: RecoveryCase, c: string)
    requires RowsOk(db)
    ensures var b := CommitPrepare(db, cmd, newId, row);
      && (RetrySettled(b, c) ==> RetrySettled(db, c))
      && (c in b.cases ==> c in db.cases && b.cases[c].amountMinor == db.cases[c].amountMinor)
  {
    hide PrepareAudit, IndexesOk;
  }

  lemma PrepareKeeps(db: Db, cmd: PrepareCommand, newId: string, row: RecoveryCase, c: string, lost: int)
    requires RowsOk(db) && AmountWithout(db, c, lost) && cmd.attempt == 1 && cmd.caseId in db.cases
    ensures var b := CommitPrepare(db, cmd, newId, row);
      RowsOk(b) && AmountWithout(b, c, lost)
  {
    hide CommitPrepare, RowsOk, AmountWithout, RetrySettled, Evolves;
    PrepareKeepsRowsOk(db, cmd, newId, row);
    PrepareSettlesNothing(db, cmd, newId, row, c);
    PrepareEvolves(db, cmd, newId, row);
    AmountStays(db, CommitPrepare(db, cmd, newId, row), c, lost);
  }

  // ---- results ----

  lemma PersistKeepsRowsOk(db: Db, txn: Txn, seen: Option<RecoveryCase>)
    requires RowsOk(db) && txn.Persist?
    ensures RowsOk(CommitPersist(db, txn, seen))
  {
    hide Evolves, RowsOk;
    PersistEvolves(db, txn, seen);
    PersistKeepsKeys(db, txn, seen);
    RowsStay(db, CommitPersist(db, txn, seen));
  }

  lemma PersistKeepsKeys(db: Db, txn: Txn, seen: Option<RecoveryCase>)
    requires RowsOk(db) && txn.Persist?
    ensures var b := CommitPersist(db, txn, seen);
      && SameKeys(db.interventions, b.interventions) && b.cases.Keys == db.cases.Keys
      && forall i | i in b.outcomes :: i in b.interventions.rows
  {
    hide IndexesOk;
  }

  /** The intervention is the retry of the case. */
  predicate IsRetryOf(db: Db, i: string, c: string) {
    i in db.interventions.rows && db.interventions.rows[i].caseId == c && db.interventions.rows[i].interventionType.PaymentRetry?
  }

  lemma RetryHasSlot(db: Db, i: string, c: string)
    requires RowsOk(db) && i in db.interventions.rows
    ensures IsRetryOf(db, i, c) <==> RetrySlot(c) in db.interventions.bySlot && db.interventions.bySlot[RetrySlot(c)] == i
  {}

  /** Another result sets no amount of the case and does not settle its retry. */
  lemma OtherResultKeeps(db: Db, txn: Txn, seen: Option<RecoveryCase>, c: string, lost: int)
    requires RowsOk(db) && AmountWithout(db, c, lost) && txn.Persist? && ResultOk(db, txn)
    requires !IsRetryOf(db, txn.id, c) || txn.id in db.outcomes
    ensures AmountWithout(CommitPersist(db, txn, seen), c, lost)
  {
    hide AmountWithout, Evolves;
    RetryHasSlot(db, txn.id, c);
    OtherResultIsQuiet(db, txn, seen, c);
    PersistEvolves(db, txn, seen);
    AmountStays(db, CommitPersist(db, txn, seen), c, lost);
  }

  lemma OtherResultIsQuiet(db: Db, txn: Txn, seen: Option<RecoveryCase>, c: string)
    requires txn.Persist? && ResultOk(db, txn)
    requires !IsRetryOf(db, txn.id, c) || txn.id in db.outcomes
    requires IsRetryOf(db, txn.id, c) <==>
      RetrySlot(c) in db.interventions.bySlot && db.interventions.bySlot[RetrySlot(c)] == txn.id
    ensures var b := CommitPersist(db, txn, seen);
      && (c in b.cases ==> c in db.cases && b.cases[c].amountMinor == db.cases[c].amountMinor)
      && (RetrySettled(b, c) ==> RetrySettled(db, c))
  {
    hide Reports;
  }

  /** The result of the retry takes the amount down by what was recovered in part, or loses it. */
  lemma RetryResultKeeps(db: Db, txn: Txn, seen: Option<RecoveryCase>, c: string)
    requires RowsOk(db) && AmountWithout(db, c, 0) && c in db.cases && !RetrySettled(db, c)
    requires txn.Persist? && ResultOk(db, txn) && IsRetryOf(db, txn.id, c) && txn.id !in db.outcomes
    ensures AmountWithout(CommitPersist(db, txn, seen), c, LostFrom(db, Open(txn, Seen(seen, false)), c))
  {
    RetryHasSlot(db, txn.id, c);
    hide RowsOk, CommitPersist, Initial, RetrySettled, Credit, Matches;
    RetryOutcome(db, txn, seen, c);
    RetryAmount(db, txn, seen, c);
    NothingCredited(db, c);
    PartialRecovery(txn, Initial(db, c));
    hide Reports;
  }

  /** A result sets an amount exactly if it recovers less than what was at risk. */
  lemma PartialRecovery(txn: Txn, atRisk: int)
    requires txn.Persist? && Reports(txn, PaymentRetry, atRisk)
    ensures txn.remaining.Some? <==> txn.status.SucceededStatus? && txn.recovered.Some? && txn.recovered.value < atRisk
    ensures txn.remaining.Some? ==> txn.remaining.value == atRisk - txn.recovered.value
  {}

  lemma NothingCredited(db: Db, c: string)
    requires !RetrySettled(db, c)
    ensures Credit(db, c) == 0
  {}

  lemma RetryOutcome(db: Db, txn: Txn, seen: Option<RecoveryCase>, c: string)
    requires RowsOk(db) && c in db.cases && txn.Persist? && txn.caseId == c
    requires txn.id in db.interventions.rows && txn.id !in db.outcomes
    requires RetrySlot(c) in db.interventions.bySlot && db.interventions.bySlot[RetrySlot(c)] == txn.id
    ensures var b, r := CommitPersist(db, txn, seen), txn.recovered;
      && RetrySettled(b, c) && Initial(b, c) == Initial(db, c)
      && Credit(b, c) == if txn.status.SucceededStatus? && r.Some? && r.value < Initial(db, c) then r.value else 0
  {
    hide IndexesOk;
  }

  lemma RetryAmount(db: Db, txn: Txn, seen: Option<RecoveryCase>, c: string)
    requires c in db.cases && txn.Persist? && txn.caseId == c
    requires txn.id in db.interventions.rows && txn.id !in db.outcomes
    ensures var b := CommitPersist(db, txn, seen);
      && c in b.cases
      && b.cases[c].amountMinor ==
           if seen.Some? && seen.value.state != txn.next && Matches(db, c, seen.value) && txn.remaining.Some?
           then txn.remaining.value else db.cases[c].amountMinor
  {}

  // ---- ingestion ----

  lemma IngestOpensWhole(db: Db, cmd: IngestionCommand, ctx: IngestionContext)
    ensures var b := After(db, Ingest(db, cmd, ctx));
      forall c | c in b.cases && c !in db.cases ::
        b.cases[c].sourceEventId in b.events.rows
        && b.cases[c].amountMinor == b.events.rows[b.cases[c].sourceEventId].event.amountMinor
  {
    hide Qualification.Qualify, LatestOpenCase, ReplayReceipt, MerchantFor, CustomerFor;
  }

  lemma IngestKeepsStored(db: Db, cmd: IngestionCommand, ctx: IngestionContext)
    ensures var b := After(db, Ingest(db, cmd, ctx));
      forall c | c in db.cases :: c in b.cases && b.cases[c].amountMinor == db.cases[c].amountMinor
  {
    hide Qualification.Qualify, LatestOpenCase, ReplayReceipt, MerchantFor, CustomerFor;
  }

  lemma IngestKeepsAmounts(db: Db, cmd: IngestionCommand, ctx: IngestionContext, c: string, lost: int)
    requires RowsOk(db) && AmountWithout(db, c, lost)
    ensures var b := After(db, Ingest(db, cmd, ctx));
      RowsOk(b) && AmountWithout(b, c, lost)
  {
    hide Ingest, Evolves;
    IngestAddsNoOutcome(db, cmd, ctx);
    IngestOpensWhole(db, cmd, ctx);
    IngestKeepsStored(db, cmd, ctx);
    IngestEvolves(db, cmd, ctx);
    var b := After(db, Ingest(db, cmd, ctx));
    RowsStay(db, b);
    if c in db.cases || c !in b.cases { AmountStays(db, b, c, lost); } else { NewCaseIsWhole(db, b, c); }
  }

  lemma NewCaseIsWhole(a: Db, b: Db, c: string)
    requires RowsOk(a) && c !in a.cases && c in b.cases && b.interventions == a.interventions
    requires b.cases[c].amountMinor == Initial(b, c)
    ensures AmountWithout(b, c, 0)
  {
    if RetrySlot(c) in a.interventions.bySlot { RetryHasSlot(a, a.interventions.bySlot[RetrySlot(c)], c); }
  }

  // ---- one step ----

  lemma ResultKeeps(db: Db, txn: Txn, seen: Seen, c: string, lost: int)
    requires RowsOk(db) && AmountWithout(db, c, lost) && txn.Persist? && ResultOk(db, txn)
    ensures AmountWithout(CommitPersist(db, txn, seen.row), c, lost + LostFrom(db, Open(txn, seen), c))
  {
    hide CommitPersist, Initial, Matches, Reports;
    if IsRetryOf(db, txn.id, c) && txn.id !in db.outcomes {
      RetryHasSlot(db, txn.id, c);
      NothingCredited(db, c);
      RetryResultKeeps(db, txn, seen.row, c);
    } else {
      OtherResultKeeps(db, txn, seen.row, c, lost);
    }
  }

  lemma PreparationKeeps(db: Db, open: Open, c: string, lost: int)
    requires RowsOk(db) && AmountWithout(db, c, lost) && OpenOk(db, open) && SeenOk(db, open) && open.txn.Prepare?
    ensures var b := ReadCommitted.Commit(db, open.txn, open.seen);
      RowsOk(b) && AmountWithout(b, c, lost)
  {
    hide RowsOk, AmountWithout, CommitPrepare;
    if open.seen.row.Some? { PrepareKeeps(db, open.txn.cmd, open.txn.newId, open.seen.row.value, c, lost); }
  }

  lemma CommitKeeps(db: Db, open: Open, c: string, lost: int)
    requires RowsOk(db) && AmountWithout(db, c, lost) && OpenOk(db, open) && SeenOk(db, open)
    ensures var b := ReadCommitted.Commit(db, open.txn, open.seen);
      RowsOk(b) && AmountWithout(b, c, lost + LostFrom(db, open, c))
  {
    hide RowsOk, AmountWithout, CommitPersist, ReadCommitted.Commit, Evolves, Quiet, ResultOk, SeenOk;
    if open.txn.Persist? {
      PersistCommit(db, open.txn, open.seen);
      PersistKeepsRowsOk(db, open.txn, open.seen.row);
      ResultKeeps(db, open.txn, open.seen, c, lost);
    } else if open.txn.Prepare? {
      PreparationKeeps(db, open, c, lost);
    } else {
      CommitIsQuiet(db, open.txn, open.seen, c);
      CommitEvolves(db, open.txn, open.seen);
      QuietKeeps(db, ReadCommitted.Commit(db, open.txn, open.seen), c, lost);
    }
  }

  lemma PersistCommit(db: Db, txn: Txn, seen: Seen)
    requires txn.Persist?
    ensures ReadCommitted.Commit(db, txn, seen) == CommitPersist(db, txn, seen.row)
  {}

  lemma FinishKeeps(s: Sys, tx: string, c: string, lost: int)
    requires SplitOk(s, c, lost) && tx in s.open && SeenOk(s.db, s.open[tx])
    ensures SplitOk(Step(s, Finish(tx)), c, lost + LostBy(s, Finish(tx), c))
  {
    hide RowsOk, AmountWithout, OpenOk, ReadCommitted.Commit, Evolves, LostFrom, SeenOk;
    CommitKeeps(s.db, s.open[tx], c, lost);
    StepEvolves(s, Finish(tx));
    OpensStay(s, Finish(tx), c, lost);
  }

  lemma IngestionKeeps(s: Sys, act: Act, c: string, lost: int)
    requires SplitOk(s, c, lost) && act.Ingestion?
    ensures SplitOk(Step(s, act), c, lost)
  {
    hide RowsOk, AmountWithout, OpenOk, Ingest, Evolves;
    IngestKeepsAmounts(s.db, act.cmd, act.ctx, c, lost);
    OpensStay(s, act, c, lost);
  }

  /** What was open and still is remains in order. */
  lemma OpensStay(s: Sys, act: Act, c: string, lost: int)
    requires SplitOk(s, c, lost) && !act.Begin?
    ensures forall tx | tx in Step(s, act).open :: OpenOk(Step(s, act).db, Step(s, act).open[tx])
  {
    hide RowsOk, AmountWithout, OpenOk, ReadCommitted.Commit, Ingest, Evolves;
    StepEvolves(s, act);
    var t := Step(s, act);
    forall tx | tx in t.open ensures OpenOk(t.db, t.open[tx]) {
      OpenStays(s.db, t.db, s.open[tx]);
    }
  }

  // ---- runs ----

  /** A result that a worker begins to persist is in order: the amount it was mapped from was the initial one, or the
      retry is settled. */
  lemma BegunResultIsOk(acts: seq<Act>, j: nat, txn: Txn, lost: int)
    requires txn.Persist? && Fits(Run(BEGIN, acts).db, txn) && j <= |acts| && ReportedAt(acts, j, txn)
    requires RowsOk(Run(BEGIN, acts[..j]).db) && AmountWithout(Run(BEGIN, acts[..j]).db, txn.caseId, lost)
    ensures ResultOk(Run(BEGIN, acts).db, txn)
  {
    hide Run, Evolves;
    var past, now, c := Run(BEGIN, acts[..j]).db, Run(BEGIN, acts).db, txn.caseId;
    RunEvolves(acts, j);
    CaseStays(past, now, c);
    if !RetrySettled(now, c) { NothingCredited(past, c); }
    hide RowsOk, RetrySettled, Credit, Initial;
  }

  lemma FromWorkersPrefix(acts: seq<Act>, j: nat)
    requires FromWorkers(acts) && j <= |acts|
    ensures FromWorkers(acts[..j])
    ensures j < |acts| && acts[j].Begin? ==> BegunByWorkers(acts[..j], acts[j].txn)
  {
    hide BegunByWorkers;
    var init := acts[..j];
    assert forall k | 0 <= k < j :: init[..k] == acts[..k] && init[k] == acts[k];
  }

  lemma {:induction false} BeginKeeps(acts: seq<Act>, tx: string, txn: Txn, c: string)
    requires FromWorkers(acts) && BegunByWorkers(acts, txn) && SplitOk(Run(BEGIN, acts), c, Lost(acts, c))
    ensures SplitOk(Step(Run(BEGIN, acts), Begin(tx, txn)), c, Lost(acts, c))
    decreases |acts|, 2
  {
    hide RowsOk, AmountWithout, ResultOk, Evolves, Run, Fits, ReportedAt;
    var s := Run(BEGIN, acts);
    if txn.Persist? && Fits(s.db, txn) {
      var j: nat :| j <= |acts| && ReportedAt(acts, j, txn);
      FromWorkersPrefix(acts, j);
      RunsAccount(acts[..j], txn.caseId);
      BegunResultIsOk(acts, j, txn, Lost(acts[..j], txn.caseId));
    }
  }

  lemma {:induction false} RunsAccount(acts: seq<Act>, c: string)
    requires FromWorkers(acts)
    ensures SplitOk(Run(BEGIN, acts), c, Lost(acts, c))
    decreases |acts|, 1
  {
    if acts == [] {
      assert SplitOk(BEGIN, c, 0);
    } else {
      hide SplitOk, Step, BegunByWorkers, FromWorkers, LostFrom, SeenOk;
      var init, act := acts[..|acts| - 1], acts[|acts| - 1];
      FromWorkersPrefix(acts, |acts| - 1);
      RunsAccount(init, c);
      match act
      case Begin(tx, txn) => BeginKeeps(init, tx, txn, c);
      case Ingestion(_, _) => IngestionKeeps(Run(BEGIN, init), act, c, Lost(init, c));
      case Finish(tx) =>
        EqualVersionMeansEqualRow(init);
        if tx in Run(BEGIN, init).open { FinishKeeps(Run(BEGIN, init), tx, c, Lost(init, c)); }
        else { NothingToFinish(Run(BEGIN, init), tx); }
    }
  }

  lemma NothingToFinish(s: Sys, tx: string)
    requires tx !in s.open
    ensures Step(s, Finish(tx)) == s
  {}

  /** Whatever the interleaving of reads and writes, the amount of a case's event is its current amount at risk plus
      what its retry recovered in part, less what the run has lost: everything or nothing of that recovery. */
  lemma {:induction false} MoneyWithLostUpdates(acts: seq<Act>, c: string)
    requires FromWorkers(acts) && c in Run(BEGIN, acts).db.cases
    ensures var db := Run(BEGIN, acts).db;
      && db.cases[c].amountMinor + Credit(db, c) == Initial(db, c) + Lost(acts, c)
      && (Lost(acts, c) == 0 || Lost(acts, c) == Credit(db, c))
  {
    RunsAccount(acts, c);
    hide Run, Lost, Credit, Initial, RowsOk, OpenOk;
  }

  // ---- every partial recovery can be lost ----

  lemma OneMoreAct(acts: seq<Act>, act: Act, c: string)
    ensures Run(BEGIN, acts + [act]) == Step(Run(BEGIN, acts), act)
    ensures Lost(acts + [act], c) == Lost(acts, c) + LostBy(Run(BEGIN, acts), act, c)
  {
    hide Step, LostBy;
    assert (acts + [act])[..|acts|] == acts;
  }

  /** A capture between read and write. */
  function Captured(w: string, m: string, c: string): seq<Act> {
    [Begin(m, Capture(c)), Finish(m), Finish(w)]
  }

  lemma CaptureWins(s: Sys, w: string, m: string, c: string)
    requires w in s.open && m !in s.open && SeenOk(s.db, s.open[w]) && s.open[w].txn.Persist?
    requires s.open[w].txn.caseId == c && Capturable(s.db, c)
    ensures var t := Step(Step(s, Begin(m, Capture(c))), Finish(m));
      && w in t.open && t.open[w] == s.open[w]
      && t.db.interventions == s.db.interventions && t.db.outcomes == s.db.outcomes
      && (s.open[w].seen.row.Some? ==> !Matches(t.db, c, s.open[w].seen.row.value))
  {
    hide CommitPersist, CommitPlan, CommitEnqueue, CommitPrepare, CommitMark, CommitSweep, CommitRetry, CommitNotice,
      Ingest;
  }

  /** Whenever a worker is about to store a partial recovery, a capture that commits first makes the run lose it. */
  lemma {:induction false} CaptureLosesRecovery(acts: seq<Act>, w: string, m: string, c: string)
    requires w in Run(BEGIN, acts).open && m !in Run(BEGIN, acts).open && Capturable(Run(BEGIN, acts).db, c)
    requires var txn := Run(BEGIN, acts).open[w].txn;
      && txn.Persist? && txn.caseId == c && txn.remaining.Some? && txn.recovered.Some?
      && txn.id in Run(BEGIN, acts).db.interventions.rows && txn.id !in Run(BEGIN, acts).db.outcomes
    ensures Lost(acts + Captured(w, m, c), c) == Lost(acts, c) + Run(BEGIN, acts).open[w].txn.recovered.value
  {
    hide Run, Step, Lost, Matches, SeenOk, Capturable;
    var s := Run(BEGIN, acts);
    var begun := acts + [Begin(m, Capture(c))];
    OneMoreAct(acts, Begin(m, Capture(c)), c);
    OneMoreAct(begun, Finish(m), c);
    OneMoreAct(begun + [Finish(m)], Finish(w), c);
    assert begun + [Finish(m)] + [Finish(w)] == acts + Captured(w, m, c);
    EqualVersionMeansEqualRow(acts);
    CaptureWins(s, w, m, c);
    CaptureReports(s, m, c);
  }

  lemma CaptureReports(s: Sys, m: string, c: string)
    requires m !in s.open
    ensures LostBy(Step(s, Begin(m, Capture(c))), Finish(m), c) == 0
  {}
}
