/** The same transactions with the read and the guarded write as separate steps. Under Read Committed
    (section 13.2.1 of the PostgreSQL manual) a guarded update waits for a concurrent writer of its row and then
    evaluates its guard on the row that was committed, so a transaction takes effect in one step at its commit, with
    everything it has read possibly out of date. */
module ReadCommitted {
  import opened Contracts
  import opened Planning
  import opened Store
  import opened CaseHistory
  import AuditReplay

  datatype Txn =
    | Plan(plan: RecoveryPlan, next: CaseState)
    | Enqueue(caseId: string, planId: string, outboxId: string, job: Job, now: int)
    | Prepare(cmd: PrepareCommand, newId: string)
    | Mark(caseId: string, final: CaseState)
    | Capture(caseId: string)
    | Persist(caseId: string, id: string, status: InterventionStatus, recovered: Option<int>, next: CaseState,
              remaining: Option<int>)
    | Sweep(caseId: string, id: string)
    | Retry(caseId: string, id: string)
    /** A recovery notice, with the merchant and the customer it resolved and the open case it found. */
    | Notice(notice: IngestionCommand, ctx: IngestionContext, merchant: Merchant, customer: string, found: Option<string>)
  {
    function Case(): string {
      match this
      case Plan(plan, _) => plan.caseId
      case Prepare(cmd, _) => cmd.caseId
      case Notice(_, _, _, _, found) => if found.Some? then found.value else ""
      case _ => caseId
    }

    /** The transaction as one atomic step. */
    function Atomic(db: Db): Db {
      match this
      case Plan(plan, next) => After(db, CreatePlan(db, plan, next))
      case Enqueue(c, planId, outboxId, job, now) => After(db, EnqueuePlanWithOutbox(db, c, planId, outboxId, job, now))
      case Prepare(cmd, newId) => After(db, PrepareIntervention(db, cmd, newId))
      case Mark(c, final) => MarkCase(db, c, final)
      case Capture(c) => CaptureUpdate(db, c)
      case Persist(_, i, status, recovered, next, remaining) =>
        After(db, PersistExecutionResult(db, i, status, recovered, next, remaining))
      case Sweep(_, i) => After(db, SweepIntervention(db, i))
      case Retry(_, i) => ScheduleRetry(db, i)
      case Notice(cmd, ctx, _, _, _) => After(db, Ingest(db, cmd, ctx))
    }

    /** The key that makes the transaction a replay exists. */
    predicate KeyExists(db: Db) {
      match this
      case Plan(plan, _) => plan.idempotencyKey in db.plans.byKey
      case Enqueue(_, planId, _, _, _) => planId in db.outbox.byPlan
      case Prepare(cmd, _) => cmd.key in db.interventions.byKey
      case Notice(cmd, _, _, _, _) => cmd.idempotencyKey in db.events.byKey
      case _ => false
    }

    /** A unique index refuses one of its rows. */
    predicate Refused(db: Db) {
      match this
      case Plan(plan, _) => plan.planId in db.plans.rows || KeyExists(db)
      case Enqueue(_, _, outboxId, _, _) => outboxId in db.outbox.rows || KeyExists(db)
      case Prepare(cmd, newId) =>
        newId in db.interventions.rows || NewIntervention(cmd).SlotOf() in db.interventions.bySlot || KeyExists(db)
      case Notice(cmd, ctx, merchant, customer, _) =>
        || ctx.eventId in db.events.rows || KeyExists(db)
        || (merchant.merchantId, cmd.event.externalEventId, cmd.event.eventType) in db.events.bySlot
        || MerchantFor(db, cmd, ctx) != Some(merchant) || CustomerFor(db, cmd, ctx, merchant) != customer
      case _ => false
    }
  }

  /** The transactions about an intervention are about the case of its row, and a notice is about the latest open case
      of its customer. */
  predicate Fits(db: Db, txn: Txn) {
    && (txn.Persist? || txn.Sweep? || txn.Retry? ==>
          txn.id in db.interventions.rows && db.interventions.rows[txn.id].caseId == txn.caseId)
    && (txn.Notice? ==>
          && txn.notice.event.eventType.PaymentRecovered?
          && MerchantFor(db, txn.notice, txn.ctx) == Some(txn.merchant)
          && CustomerFor(db, txn.notice, txn.ctx, txn.merchant) == txn.customer
          && txn.found == LatestOpenCase(db.cases, db.caseOrder, txn.merchant.merchantId, txn.customer))
  }

  /** What a transaction has read when it is about to write. */
  datatype Seen = Seen(row: Option<RecoveryCase>, replay: bool)

  function Read(db: Db, txn: Txn): Seen {
    Seen(if txn.Case() in db.cases then Some(db.cases[txn.Case()]) else None, txn.KeyExists(db))
  }

  /** The guard of updateMany: the stored version is the one that was read. */
  predicate Matches(db: Db, c: string, row: RecoveryCase) {
    c in db.cases && db.cases[c].version == row.version
  }

  /** The guarded update writes the state, and the version that was read plus one. */
  function Guarded(cases: map<string, RecoveryCase>, c: string, row: RecoveryCase, next: CaseState)
    : map<string, RecoveryCase>
    requires c in cases
  {
    cases[c := cases[c].(state := next, version := row.version + 1)]
  }

  // ---- the commits, each from what was read ----

  function CommitPlan(db: Db, plan: RecoveryPlan, next: CaseState, row: RecoveryCase): Db {
    if !Matches(db, plan.caseId, row) || Plan(plan, next).Refused(db) then db
    else
      db.(cases := Guarded(db.cases, plan.caseId, row, next),
          plans := PlanTable(db.plans.rows[plan.planId := plan], db.plans.byKey[plan.idempotencyKey := plan.planId]),
          audit := db.audit + PlanAudit(plan, row.state, next))
  }

  function CommitEnqueue(db: Db, c: string, planId: string, outboxId: string, job: Job, now: int,
    row: RecoveryCase): Db {
    if !row.state.PolicyChecked? || !Matches(db, c, row) || Enqueue(c, planId, outboxId, job, now).Refused(db) then db
    else
      db.(cases := Guarded(db.cases, c, row, Queued),
          outbox := OutboxTable(
            db.outbox.rows[outboxId := OutboxRow(planId, true, job, OutboxPending, 0, now, None)],
            db.outbox.byPlan[planId := outboxId]),
          audit := db.audit + [CaseAudit(SystemActor, InterventionEnqueued, c, row.state, Queued)])
  }

  /** The version is checked only if the case was read in Queued. */
  function CommitPrepare(db: Db, cmd: PrepareCommand, newId: string, row: RecoveryCase): Db {
    var queued := row.state.Queued?;
    if Prepare(cmd, newId).Refused(db) || (queued && !Matches(db, cmd.caseId, row)) then db
    else
      db.(interventions := InterventionTable(
            db.interventions.rows[newId := NewIntervention(cmd)],
            db.interventions.byKey[cmd.key := newId],
            db.interventions.bySlot[NewIntervention(cmd).SlotOf() := newId]),
          cases := if queued then Guarded(db.cases, cmd.caseId, row, Executing) else db.cases,
          audit := db.audit + PrepareAudit(cmd, newId, queued))
  }

  function CommitMark(db: Db, c: string, final: CaseState, row: RecoveryCase): Db {
    if row.state.Escalated? || row.state.Stopped? || !Matches(db, c, row) then db
    else
      db.(cases := Guarded(db.cases, c, row, final),
          audit := db.audit + [CaseAudit(SystemActor, if final.Escalated? then CaseEscalated else CaseStopped,
                                         c, row.state, final)])
  }

  function CommitCapture(db: Db, c: string, row: RecoveryCase): Db {
    if row.state in {Recovered, Failed, Stopped} || !Matches(db, c, row) then db
    else db.(cases := Guarded(db.cases, c, row, Recovered))
  }

  /** The match count is ignored: the audit row is written whether or not the case was. */
  function CommitPersist(db: Db, txn: Txn, seen: Option<RecoveryCase>): Db
    requires txn.Persist?
  {
    if txn.id !in db.interventions.rows || txn.id in db.outcomes then db
    else
      var settled := Settle(db, txn.id, txn.status, txn.recovered);
      var c := txn.caseId;
      match seen
      case None => settled
      case Some(row) =>
        if row.state == txn.next then settled
        else
          var cases := if !Matches(db, c, row) then db.cases else
            db.cases[c := db.cases[c].(state := txn.next, version := row.version + 1,
              amountMinor := if txn.remaining.Some? then txn.remaining.value else db.cases[c].amountMinor)];
          settled.(cases := cases,
                   audit := settled.audit + [CaseAudit(SystemActor, StateTransitioned, c, row.state, txn.next)])
  }

  function CommitSweep(db: Db, c: string, i: string, seen: Option<RecoveryCase>): Db {
    if i !in db.interventions.rows then db
    else
      var freed := db.(interventions :=
        SetRow(db.interventions, i, db.interventions.rows[i].(lease := None, status := FailedStatus)));
      match seen
      case None => freed
      case Some(row) =>
        if row.state.Escalated? || row.state.Stopped? then freed
        else
          freed.(cases := if Matches(db, c, row) then Guarded(db.cases, c, row, Escalated) else db.cases,
                 audit := db.audit + [CaseAudit(SystemActor, CaseEscalated, c, row.state, Escalated)])
  }

  function CommitRetry(db: Db, c: string, i: string, seen: Option<RecoveryCase>): Db {
    if i !in db.interventions.rows then db
    else
      var marked := db.(interventions := SetRow(db.interventions, i, db.interventions.rows[i].(status := RetryScheduledStatus)));
      if seen.Some? && !seen.value.state.Retryable? && Matches(db, c, seen.value)
      then marked.(cases := Guarded(db.cases, c, seen.value, Retryable))
      else marked
  }

  /** The case that was found is updated whatever has happened to it, and its audit row names the state that was read. */
  function CommitNotice(db: Db, txn: Txn, seen: Seen): Db
    requires txn.Notice?
  {
    if seen.replay || txn.Refused(db) then db
    else
      var recorded := Recorded(db, txn.notice, txn.ctx, txn.merchant, txn.customer);
      if txn.found.None? || txn.found.value !in db.cases || seen.row.None? then recorded
      else
        var c := txn.found.value;
        recorded.(cases := Move(db.cases, c, Recovered),
                  audit := recorded.audit + [CaseAudit(SystemActor, CaseRecoveredByEvent, c, seen.row.value.state, Recovered)])
  }

  function Commit(db: Db, txn: Txn, seen: Seen): Db {
    match txn
    case Notice(_, _, _, _, _) => CommitNotice(db, txn, seen)
    case Persist(_, _, _, _, _, _) => CommitPersist(db, txn, seen.row)
    case Sweep(c, i) => CommitSweep(db, c, i, seen.row)
    case Retry(c, i) => CommitRetry(db, c, i, seen.row)
    case _ =>
      if seen.replay then db
      else match seen.row
        case None => db
        case Some(row) =>
          match txn
          case Plan(plan, next) => CommitPlan(db, plan, next, row)
          case Enqueue(c, planId, outboxId, job, now) => CommitEnqueue(db, c, planId, outboxId, job, now, row)
          case Prepare(cmd, newId) => CommitPrepare(db, cmd, newId, row)
          case Mark(c, final) => CommitMark(db, c, final, row)
          case Capture(c) => CommitCapture(db, c, row)
          case _ => db
  }

  /** Every writer whose commit depends on the match count. */
  predicate ChecksCount(txn: Txn) {
    txn.Plan? || txn.Enqueue? || txn.Prepare? || txn.Mark? || txn.Capture?
  }

  // ---- runs ----

  datatype Open = Open(txn: Txn, seen: Seen)

  /** `writes` counts, for every case, the committed changes of its row. */
  datatype Sys = Sys(db: Db, open: map<string, Open>, writes: multiset<string>)

  datatype Act =
    | Begin(tx: string, txn: Txn)
    | Finish(tx: string)
    | Ingestion(cmd: IngestionCommand, ctx: IngestionContext)

  function Changed(a: Db, b: Db): set<string> {
    set c | c in a.cases && c in b.cases && b.cases[c] != a.cases[c]
  }

  function Reaches(s: Sys, db: Db): Sys {
    s.(db := db, writes := s.writes + multiset(Changed(s.db, db)))
  }

  function Step(s: Sys, act: Act): Sys {
    match act
    case Begin(tx, txn) => if tx in s.open || !Fits(s.db, txn) then s else s.(open := s.open[tx := Open(txn, Read(s.db, txn))])
    case Finish(tx) =>
      if tx !in s.open then s
      else Reaches(s.(open := s.open - {tx}), Commit(s.db, s.open[tx].txn, s.open[tx].seen))
    case Ingestion(cmd, ctx) => Reaches(s, After(s.db, Ingest(s.db, cmd, ctx)))
  }

  function Run(s: Sys, acts: seq<Act>): Sys {
    if acts == [] then s else Step(Run(s, acts[..|acts| - 1]), acts[|acts| - 1])
  }

  const BEGIN := Sys(EMPTY, map[], multiset{})

  // ---- versions ----

  /** Every change of a case row takes exactly the next version. */
  ghost predicate Versioned(a: Db, b: Db) {
    && (forall c | c in a.cases :: c in b.cases && (b.cases[c] == a.cases[c] || b.cases[c].version == a.cases[c].version + 1))
    && (forall c | c in b.cases && c !in a.cases :: b.cases[c].version == 1)
  }

  /** A row that was read is the stored one, or the stored one has a later version. */
  ghost predicate SeenOk(db: Db, open: Open) {
    open.seen.row.Some? ==>
      var c, row := open.txn.Case(), open.seen.row.value;
      c in db.cases && (db.cases[c] == row || db.cases[c].version > row.version)
  }

  lemma CommitIsVersioned(db: Db, txn: Txn, seen: Seen)
    ensures Versioned(db, Commit(db, txn, seen))
  {
    hide CommitNotice, CommitPersist, CommitSweep, CommitRetry;
    match txn
    case Notice(_, _, _, _, _) => NoticeIsVersioned(db, txn, seen);
    case Persist(_, _, _, _, _, _) => PersistIsVersioned(db, txn, seen);
    case Sweep(c, i) => SweepIsVersioned(db, c, i, seen);
    case Retry(c, i) => SweepIsVersioned(db, c, i, seen);
    case _ =>
  }

  lemma PersistIsVersioned(db: Db, txn: Txn, seen: Seen)
    requires txn.Persist?
    ensures Versioned(db, CommitPersist(db, txn, seen.row))
  {}

  lemma SweepIsVersioned(db: Db, c: string, i: string, seen: Seen)
    ensures Versioned(db, CommitSweep(db, c, i, seen.row))
    ensures Versioned(db, CommitRetry(db, c, i, seen.row))
  {}

  lemma NoticeIsVersioned(db: Db, txn: Txn, seen: Seen)
    requires txn.Notice?
    ensures Versioned(db, CommitNotice(db, txn, seen))
  {
    hide Txn.Refused;
  }

  lemma IngestionIsVersioned(db: Db, cmd: IngestionCommand, ctx: IngestionContext)
    ensures Versioned(db, After(db, Ingest(db, cmd, ctx)))
  {
    hide Qualification.Qualify, ReplayReceipt;
  }

  lemma StepIsVersioned(s: Sys, act: Act)
    ensures Versioned(s.db, Step(s, act).db)
    ensures Step(s, act).writes == s.writes + multiset(Changed(s.db, Step(s, act).db))
  {
    hide Commit, Ingest;
    assert Changed(s.db, s.db) == {};
    match act
    case Begin(_, _) =>
    case Finish(tx) => if tx in s.open { CommitIsVersioned(s.db, s.open[tx].txn, s.open[tx].seen); }
    case Ingestion(cmd, ctx) => IngestionIsVersioned(s.db, cmd, ctx);
  }

  lemma SeenStays(a: Db, b: Db, open: Open)
    requires SeenOk(a, open) && Versioned(a, b)
    ensures SeenOk(b, open)
  {}

  /** The version of a case is one more than the number of committed changes of its row. */
  ghost predicate Counted(s: Sys) {
    && (forall c | c in s.db.cases :: s.db.cases[c].version == 1 + s.writes[c])
    && (forall c | c !in s.db.cases :: s.writes[c] == 0)
  }

  lemma CountStep(s: Sys, t: Sys)
    requires Counted(s) && Versioned(s.db, t.db) && t.writes == s.writes + multiset(Changed(s.db, t.db))
    ensures Counted(t)
  {}

  /** Whatever the interleaving: versions count committed changes, and a transaction that finds the version it has
      read finds the very row it has read, so all it checked at read time still holds. */
  lemma {:induction false} EqualVersionMeansEqualRow(acts: seq<Act>)
    ensures var s := Run(BEGIN, acts);
      && Counted(s)
      && (forall tx | tx in s.open :: SeenOk(s.db, s.open[tx]))
  {
    if acts != [] {
      var s, act := Run(BEGIN, acts[..|acts| - 1]), acts[|acts| - 1];
      EqualVersionMeansEqualRow(acts[..|acts| - 1]);
      StepIsVersioned(s, act);
      var t := Step(s, act);
      CountStep(s, t);
      hide Commit, Ingest, Versioned, SeenOk, Counted;
      forall tx | tx in t.open ensures SeenOk(t.db, t.open[tx]) {
        if tx in s.open { SeenStays(s.db, t.db, s.open[tx]); }
        else { JustRead(s.db, act.txn); }
      }
    }
  }

  lemma JustRead(db: Db, txn: Txn)
    ensures SeenOk(db, Open(txn, Read(db, txn)))
  {}

  // ---- winners and losers ----

  /** The commit depends on the guard. */
  predicate IsGuarded(open: Open) {
    ChecksCount(open.txn) && (open.txn.Prepare? ==> open.seen.row.Some? && open.seen.row.value.state.Queued?)
  }

  /** A writer that finds another version leaves nothing behind, in any table; one that finds its version does exactly
      what the atomic transaction does. */
  lemma GuardedCommits(db: Db, open: Open)
    requires SeenOk(db, open) && IsGuarded(open) && open.seen.row.Some? && !open.seen.replay
    ensures Commit(db, open.txn, open.seen) ==
      if Matches(db, open.txn.Case(), open.seen.row.value) then open.txn.Atomic(db) else db
  {
    match open.txn
    case Plan(plan, next) => GuardedPlan(db, plan, next, open.seen.row.value);
    case Enqueue(_, _, _, _, _) =>
    case Prepare(cmd, newId) => GuardedPrepare(db, cmd, newId, open.seen.row.value);
    case Mark(_, _) =>
    case Capture(_) =>
  }

  lemma GuardedPlan(db: Db, plan: RecoveryPlan, next: CaseState, row: RecoveryCase)
    requires plan.caseId in db.cases && (db.cases[plan.caseId] == row || db.cases[plan.caseId].version > row.version)
    ensures CommitPlan(db, plan, next, row) ==
      if Matches(db, plan.caseId, row) then After(db, CreatePlan(db, plan, next)) else db
  {
    hide PlanAudit;
  }

  lemma GuardedPrepare(db: Db, cmd: PrepareCommand, newId: string, row: RecoveryCase)
    requires cmd.caseId in db.cases && (db.cases[cmd.caseId] == row || db.cases[cmd.caseId].version > row.version)
    requires row.state.Queued?
    ensures CommitPrepare(db, cmd, newId, row) ==
      if Matches(db, cmd.caseId, row) then After(db, PrepareIntervention(db, cmd, newId)) else db
  {}

  lemma {:induction false} VersionsOnlyGrow(s: Sys, acts: seq<Act>, c: string)
    requires c in s.db.cases
    ensures c in Run(s, acts).db.cases && Run(s, acts).db.cases[c].version >= s.db.cases[c].version
  {
    if acts != [] {
      hide Step;
      VersionsOnlyGrow(s, acts[..|acts| - 1], c);
      StepIsVersioned(Run(s, acts[..|acts| - 1]), acts[|acts| - 1]);
    }
  }

  /** Of all writers that have read one version of a case at most one commits: once a commit has changed the row,
      every other guarded writer that read the same version leaves all tables as they are, however much later. */
  lemma {:induction false} OneWinnerPerVersion(s: Sys, winner: string, loser: string, acts: seq<Act>)
    requires winner in s.open && loser in s.open && SeenOk(s.db, s.open[winner]) && SeenOk(s.db, s.open[loser])
    requires s.open[winner].txn.Case() == s.open[loser].txn.Case() && IsGuarded(s.open[loser])
    requires s.open[winner].seen.row.Some? && s.open[loser].seen.row.Some?
    requires s.open[winner].seen.row.value.version == s.open[loser].seen.row.value.version
    requires s.open[winner].txn.Case() in Changed(s.db, Step(s, Finish(winner)).db)
    requires loser in Run(Step(s, Finish(winner)), acts).open
    requires Run(Step(s, Finish(winner)), acts).open[loser] == s.open[loser]
    ensures var u := Run(Step(s, Finish(winner)), acts);
      Step(u, Finish(loser)).db == u.db
  {
    hide Commit, Run, Ingest;
    var c := s.open[winner].txn.Case();
    var t := Step(s, Finish(winner));
    StepIsVersioned(s, Finish(winner));
    VersionsOnlyGrow(t, acts, c);
    var u := Run(t, acts);
    LoserWritesNothing(u.db, s.open[loser]);
  }

  lemma LoserWritesNothing(db: Db, open: Open)
    requires IsGuarded(open) && open.seen.row.Some?
    requires open.txn.Case() in db.cases && db.cases[open.txn.Case()].version > open.seen.row.value.version
    ensures Commit(db, open.txn, open.seen) == db
  {
    hide Txn.Refused;
  }

  /** An atomic transaction of the first model. */
  datatype Op = Did(txn: Txn) | Ingested(cmd: IngestionCommand, ctx: IngestionContext)

  function Do(db: Db, op: Op): Db {
    match op
    case Did(txn) => txn.Atomic(db)
    case Ingested(cmd, ctx) => After(db, Ingest(db, cmd, ctx))
  }

  function Serial(db: Db, ops: seq<Op>): Db {
    if ops == [] then db else Do(Serial(db, ops[..|ops| - 1]), ops[|ops| - 1])
  }

  predicate Wins(s: Sys, tx: string) {
    && tx in s.open && s.open[tx].seen.row.Some? && !s.open[tx].seen.replay
    && Matches(s.db, s.open[tx].txn.Case(), s.open[tx].seen.row.value)
  }

  /** The winners of a run in the order of their commits. */
  function Winners(acts: seq<Act>): seq<Op> {
    if acts == [] then []
    else
      var s := Run(BEGIN, acts[..|acts| - 1]);
      Winners(acts[..|acts| - 1]) +
      match acts[|acts| - 1]
      case Begin(_, _) => []
      case Finish(tx) => if Wins(s, tx) then [Did(s.open[tx].txn)] else []
      case Ingestion(cmd, ctx) => [Ingested(cmd, ctx)]
  }

  /** Whenever a transaction of the run commits, it is one whose commit depends on the guard. */
  ghost predicate AllGuarded(acts: seq<Act>) {
    forall k, tx | 0 <= k < |acts| && acts[k] == Finish(tx) && tx in Run(BEGIN, acts[..k]).open ::
      IsGuarded(Run(BEGIN, acts[..k]).open[tx])
  }

  lemma SerialLast(db: Db, ops: seq<Op>, op: Op)
    ensures Serial(db, ops + [op]) == Do(Serial(db, ops), op)
  {
    hide Do;
    assert (ops + [op])[..|ops|] == ops;
  }

  /** A transaction without a row to guard commits nothing. */
  lemma NothingWithoutRow(db: Db, open: Open)
    requires IsGuarded(open) && (open.seen.row.None? || open.seen.replay)
    ensures Commit(db, open.txn, open.seen) == db
  {}

  /** Splitting reads from writes adds no behaviour: the tables of every interleaved run of guarded transactions are
      those of the serial run of its winners, in the order of their commits. */
  lemma {:induction false} GuardedRunsAreSerial(acts: seq<Act>)
    requires AllGuarded(acts)
    ensures Run(BEGIN, acts).db == Serial(EMPTY, Winners(acts))
  {
    if acts != [] {
      hide Commit, Ingest, Txn.Atomic, Matches, Txn.Case, Wins;
      var init, act := acts[..|acts| - 1], acts[|acts| - 1];
      var s := Run(BEGIN, init);
      PrefixIsGuarded(acts);
      GuardedRunsAreSerial(init);
      match act
      case Begin(_, _) =>
        assert Winners(acts) == Winners(init);
      case Ingestion(cmd, ctx) =>
        SerialLast(EMPTY, Winners(init), Ingested(cmd, ctx));
      case Finish(tx) =>
        FinishIsSerial(s, tx, acts);
        if Wins(s, tx) { SerialLast(EMPTY, Winners(init), Did(s.open[tx].txn)); }
        else { assert Winners(acts) == Winners(init); }
    }
  }

  lemma PrefixIsGuarded(acts: seq<Act>)
    requires AllGuarded(acts) && acts != []
    ensures AllGuarded(acts[..|acts| - 1])
    ensures forall tx | acts[|acts| - 1] == Finish(tx) && tx in Run(BEGIN, acts[..|acts| - 1]).open ::
      IsGuarded(Run(BEGIN, acts[..|acts| - 1]).open[tx])
  {
    hide Run, IsGuarded;
    var init := acts[..|acts| - 1];
    forall k, tx | 0 <= k < |init| && init[k] == Finish(tx) && tx in Run(BEGIN, init[..k]).open
      ensures IsGuarded(Run(BEGIN, init[..k]).open[tx])
    {
      assert init[..k] == acts[..k] && acts[k] == Finish(tx);
    }
  }

  lemma FinishIsSerial(s: Sys, tx: string, acts: seq<Act>)
    requires acts != [] && s == Run(BEGIN, acts[..|acts| - 1]) && (tx in s.open ==> IsGuarded(s.open[tx]))
    ensures Step(s, Finish(tx)).db == if Wins(s, tx) then s.open[tx].txn.Atomic(s.db) else s.db
  {
    EqualVersionMeansEqualRow(acts[..|acts| - 1]);
    hide Run, Commit, Ingest, Txn.Atomic, Matches, Txn.Case, SeenOk;
    if tx in s.open {
      var open := s.open[tx];
      if open.seen.row.Some? && !open.seen.replay { GuardedCommits(s.db, open); } else { NothingWithoutRow(s.db, open); }
    }
  }

  // ---- audit rows of split transactions ----

  /** The trail of a case is a chain from its creation to its state, one entry per version. */
  ghost predicate Audited(db: Db, c: string) {
    if c in db.cases
    then db.cases[c].version == |Trail(db.audit, c)| && AuditReplay.IsChain(Trail(db.audit, c), db.cases[c].state)
    else Trail(db.audit, c) == []
  }

  lemma TouchKeepsAudit(a: Db, b: Db, c: string, from: set<CaseState>, to: set<CaseState>)
    requires Audited(a, c) && Touches(a, b, c, from, to)
    ensures Audited(b, c)
  {
    hide Trail;
  }

  lemma OpKeepsAudit(db: Db, op: Op, c: string)
    requires Audited(db, c)
    requires op.Did? ==> ChecksCount(op.txn) && !op.txn.Capture?
    ensures Audited(Do(db, op), c)
  {
    hide Audited, Trail, Touches, CreatePlan, EnqueuePlanWithOutbox, PrepareIntervention, MarkCase, Ingest;
    match op
    case Ingested(cmd, ctx) => IngestionKeepsAudit(db, cmd, ctx, c);
    case Did(Plan(plan, next)) =>
      CreatePlanHistory(db, plan, next, c);
      TouchKeepsAudit(db, After(db, CreatePlan(db, plan, next)), c, ANY, {next});
    case Did(Enqueue(x, planId, outboxId, job, now)) =>
      OutboxHistory(db, x, planId, outboxId, job, now, c);
      TouchKeepsAudit(db, After(db, EnqueuePlanWithOutbox(db, x, planId, outboxId, job, now)), c, {PolicyChecked}, {Queued});
    case Did(Prepare(cmd, newId)) =>
      PrepareHistory(db, cmd, newId, c);
      TouchKeepsAudit(db, After(db, PrepareIntervention(db, cmd, newId)), c, {Queued}, {Executing});
    case Did(Mark(x, final)) =>
      MarkCaseHistory(db, x, final, c);
      TouchKeepsAudit(db, MarkCase(db, x, final), c, ANY, {final});
  }

  lemma IngestionKeepsAudit(db: Db, cmd: IngestionCommand, ctx: IngestionContext, c: string)
    requires Audited(db, c)
    ensures Audited(After(db, Ingest(db, cmd, ctx)), c)
  {
    hide Trail, Ingest;
    IngestHistory(db, cmd, ctx, c);
  }

  lemma {:induction false} SerialRunsAreAudited(ops: seq<Op>, c: string)
    requires forall k | 0 <= k < |ops| && ops[k].Did? :: ChecksCount(ops[k].txn) && !ops[k].txn.Capture?
    ensures Audited(Serial(EMPTY, ops), c)
  {
    if ops != [] {
      hide Do, Audited;
      SerialRunsAreAudited(ops[..|ops| - 1], c);
      OpKeepsAudit(Serial(EMPTY, ops[..|ops| - 1]), ops[|ops| - 1], c);
    } else {
      assert Audited(EMPTY, c);
    }
  }

  /** With reads and writes split, the audit log still replays every case, as long as all writers check their count and
      write their audit row in the same transaction. */
  lemma {:induction false} GuardedRunsAreAudited(acts: seq<Act>, c: string)
    requires AllGuarded(acts)
    requires forall k | 0 <= k < |acts| && acts[k].Begin? :: !acts[k].txn.Capture?
    ensures Audited(Run(BEGIN, acts).db, c)
  {
    hide Run, Audited;
    GuardedRunsAreSerial(acts);
    WinnersAreGuarded(acts);
    SerialRunsAreAudited(Winners(acts), c);
  }

  lemma {:induction false} OpenWasBegun(acts: seq<Act>, tx: string)
    requires forall k | 0 <= k < |acts| && acts[k].Begin? :: !acts[k].txn.Capture?
    ensures tx in Run(BEGIN, acts).open ==> !Run(BEGIN, acts).open[tx].txn.Capture?
  {
    if acts != [] {
      hide Commit, Ingest, Read;
      var init := acts[..|acts| - 1];
      OpenWasBegun(init, tx);
      assert acts[|acts| - 1].Begin? ==> !acts[|acts| - 1].txn.Capture?;
    }
  }

  lemma {:induction false} WinnersAreGuarded(acts: seq<Act>)
    requires AllGuarded(acts)
    requires forall k | 0 <= k < |acts| && acts[k].Begin? :: !acts[k].txn.Capture?
    ensures forall k | 0 <= k < |Winners(acts)| && Winners(acts)[k].Did? ::
      ChecksCount(Winners(acts)[k].txn) && !Winners(acts)[k].txn.Capture?
  {
    if acts != [] {
      hide Run, Step, Wins;
      var init, act := acts[..|acts| - 1], acts[|acts| - 1];
      PrefixIsGuarded(acts);
      WinnersAreGuarded(init);
      if act.Finish? && Wins(Run(BEGIN, init), act.tx) {
        WinnerIsOpen(Run(BEGIN, init), act.tx);
        OpenWasBegun(init, act.tx);
      }
    }
  }

  lemma WinnerIsOpen(s: Sys, tx: string)
    requires Wins(s, tx)
    ensures tx in s.open
  {}

  /** Persisting a result ignores the count. Its audit row says that the case moved from the state that was read;
      the case has moved exactly if the version still matched, and otherwise no case has changed. */
  lemma UncheckedAudit(db: Db, txn: Txn, row: RecoveryCase)
    requires txn.Persist? && Fits(db, txn) && txn.id !in db.outcomes && row.state != txn.next
    requires SeenOk(db, Open(txn, Seen(Some(row), false)))
    ensures var b, c := Commit(db, txn, Seen(Some(row), false)), txn.caseId;
      && Trail(b.audit, c) == Trail(db.audit, c) + [Entry(Some(row.state), txn.next)]
      && c in b.cases && c in db.cases
      && (b.cases[c].state == txn.next && b.cases[c].version == db.cases[c].version + 1 <==> Matches(db, c, row))
      && (!Matches(db, c, row) ==> b.cases == db.cases)
  {
    var done := PlainAudit(SystemActor, if txn.status.SucceededStatus? then InterventionSuccess else InterventionFailed,
                           InterventionEntity, txn.id);
    ResultTrail(db.audit, done, CaseAudit(SystemActor, StateTransitioned, txn.caseId, row.state, txn.next), txn.caseId);
    hide Trail;
  }

  /** So it does what the atomic transaction does exactly if the version still matched. */
  lemma UncheckedPersist(db: Db, txn: Txn, row: RecoveryCase)
    requires txn.Persist? && Fits(db, txn) && txn.id !in db.outcomes && row.state != txn.next
    requires SeenOk(db, Open(txn, Seen(Some(row), false)))
    ensures Commit(db, txn, Seen(Some(row), false)) == txn.Atomic(db) <==> Matches(db, txn.caseId, row)
  {
    hide Settle;
    SettleTables(db, txn);
    var b, a, c := Commit(db, txn, Seen(Some(row), false)), txn.Atomic(db), txn.caseId;
    if !Matches(db, c, row) {
      if db.cases[c].state != txn.next { assert a.cases[c].version != b.cases[c].version; }
      else { assert |a.audit| != |b.audit|; }
    }
  }

  lemma SettleTables(db: Db, txn: Txn)
    requires txn.Persist? && txn.id in db.interventions.rows
    ensures Settle(db, txn.id, txn.status, txn.recovered).cases == db.cases
  {}

  /** A partial recovery that loses the race for the version loses its amount: the outcome says what was recovered,
      and the amount at risk has gone down by as much exactly if the version still matched. */
  lemma UncheckedMoney(db: Db, txn: Txn, row: RecoveryCase, recovered: int)
    requires txn.Persist? && Fits(db, txn) && txn.id !in db.outcomes && row.state != txn.next
    requires SeenOk(db, Open(txn, Seen(Some(row), false)))
    requires recovered != 0 && txn.recovered == Some(recovered)
    requires txn.remaining == Some(db.cases[txn.caseId].amountMinor - recovered)
    ensures var b, c := Commit(db, txn, Seen(Some(row), false)), txn.caseId;
      && txn.id in b.outcomes && b.outcomes[txn.id] == Outcome(txn.status, Some(recovered))
      && c in b.cases
      && (b.cases[c].amountMinor + recovered == db.cases[c].amountMinor <==> Matches(db, c, row))
      && (!Matches(db, c, row) ==> b.cases[c].amountMinor == db.cases[c].amountMinor)
  {}

  /** The sweep ignores the count in the same way, in its audit row and in its effect. */
  lemma UncheckedSweep(db: Db, c: string, i: string, row: RecoveryCase)
    requires Fits(db, Sweep(c, i)) && !row.state.Escalated? && !row.state.Stopped?
    requires SeenOk(db, Open(Sweep(c, i), Seen(Some(row), false)))
    ensures var b := Commit(db, Sweep(c, i), Seen(Some(row), false));
      && Trail(b.audit, c) == Trail(db.audit, c) + [Entry(Some(row.state), Escalated)]
      && c in b.cases && c in db.cases
      && (b.cases[c].version == db.cases[c].version + 1 <==> Matches(db, c, row))
      && (!Matches(db, c, row) ==> b.cases == db.cases)
      && (b == Sweep(c, i).Atomic(db) <==> Matches(db, c, row))
  {
    TrailLast(db.audit, CaseAudit(SystemActor, CaseEscalated, c, row.state, Escalated), c);
    hide Trail;
    SweepIsAtomic(db, c, i, row);
  }

  lemma SweepIsAtomic(db: Db, c: string, i: string, row: RecoveryCase)
    requires Fits(db, Sweep(c, i)) && !row.state.Escalated? && !row.state.Stopped?
    requires SeenOk(db, Open(Sweep(c, i), Seen(Some(row), false)))
    ensures Commit(db, Sweep(c, i), Seen(Some(row), false)) == Sweep(c, i).Atomic(db) <==> Matches(db, c, row)
  {
    var b, a := Commit(db, Sweep(c, i), Seen(Some(row), false)), Sweep(c, i).Atomic(db);
    if !Matches(db, c, row) {
      if db.cases[c].state !in {Escalated, Stopped} { assert a.cases[c].version != b.cases[c].version; }
      else { assert |a.audit| != |b.audit|; }
    }
  }

  /** Scheduling a retry writes no audit row; it differs from the atomic transaction exactly if it lost the race and the
      case is not retryable already. */
  lemma UncheckedRetry(db: Db, c: string, i: string, row: RecoveryCase)
    requires Fits(db, Retry(c, i)) && !row.state.Retryable?
    requires SeenOk(db, Open(Retry(c, i), Seen(Some(row), false)))
    ensures Commit(db, Retry(c, i), Seen(Some(row), false)) == Retry(c, i).Atomic(db) <==>
      Matches(db, c, row) || db.cases[c].state.Retryable?
  {
    var b, a := Commit(db, Retry(c, i), Seen(Some(row), false)), Retry(c, i).Atomic(db);
    if !Matches(db, c, row) && !db.cases[c].state.Retryable? { assert a.cases[c].version != b.cases[c].version; }
  }

  /** Ingestion does not look at the version at all. A notice recovers the case it found, whatever has happened to it
      since; its audit row continues the trail of the case exactly if the state is still the one it read, and its
      effect is the atomic one exactly if, in addition, the case is still the latest open one. */
  lemma UncheckedNotice(db: Db, txn: Txn, c: string, row: RecoveryCase)
    requires txn.Notice? && txn.notice.event.eventType.PaymentRecovered? && !txn.Refused(db)
    requires txn.found == Some(c) && SeenOk(db, Open(txn, Seen(Some(row), false)))
    ensures var b := Commit(db, txn, Seen(Some(row), false));
      && c in b.cases && b.cases[c] == db.cases[c].(state := Recovered, version := db.cases[c].version + 1)
      && (Audited(db, c) ==> (Audited(b, c) <==> db.cases[c].state == row.state))
      && (b == txn.Atomic(db) <==>
            && LatestOpenCase(db.cases, db.caseOrder, txn.merchant.merchantId, txn.customer) == Some(c)
            && db.cases[c].state == row.state)
  {
    hide Commit, Txn.Atomic, Txn.Refused, Audited, Trail, LatestOpenCase;
    NoticeTrail(db, txn, c, row);
    NoticeIsAtomic(db, txn, c, row);
    NoticeWrites(db, txn, c, row);
    if Audited(db, c) {
      AuditedExactly(db, Commit(db, txn, Seen(Some(row), false)), c, row.state, Recovered);
    }
  }

  lemma NoticeWrites(db: Db, txn: Txn, c: string, row: RecoveryCase)
    requires txn.Notice? && !txn.Refused(db)
    requires txn.found == Some(c) && SeenOk(db, Open(txn, Seen(Some(row), false)))
    ensures Commit(db, txn, Seen(Some(row), false)).cases == Move(db.cases, c, Recovered)
  {
    hide Txn.Refused;
  }

  /** One more entry keeps the trail a chain exactly if it starts at the present state. */
  lemma AuditedExactly(a: Db, b: Db, c: string, previous: CaseState, next: CaseState)
    requires c in a.cases && Audited(a, c)
    requires c in b.cases && b.cases[c].state == next && b.cases[c].version == a.cases[c].version + 1
    requires Trail(b.audit, c) == Trail(a.audit, c) + [Entry(Some(previous), next)]
    ensures Audited(b, c) <==> a.cases[c].state == previous
  {
    hide Trail;
    var was, now := Trail(a.audit, c), Trail(b.audit, c);
    assert now[|was|].previous == Some(previous) && now[|was| - 1] == was[|was| - 1];
  }

  lemma NoticeTrail(db: Db, txn: Txn, c: string, row: RecoveryCase)
    requires txn.Notice? && !txn.Refused(db)
    requires txn.found == Some(c) && SeenOk(db, Open(txn, Seen(Some(row), false)))
    ensures Trail(Commit(db, txn, Seen(Some(row), false)).audit, c) == Trail(db.audit, c) + [Entry(Some(row.state), Recovered)]
  {
    TrailLastTwo(db.audit, PlainAudit(SystemActor, EventIngested, EventEntity, txn.ctx.eventId),
      CaseAudit(SystemActor, CaseRecoveredByEvent, c, row.state, Recovered), c);
    hide Trail;
  }

  lemma NoticeIsAtomic(db: Db, txn: Txn, c: string, row: RecoveryCase)
    requires txn.Notice? && txn.notice.event.eventType.PaymentRecovered? && !txn.Refused(db)
    requires txn.found == Some(c) && SeenOk(db, Open(txn, Seen(Some(row), false)))
    ensures Commit(db, txn, Seen(Some(row), false)) == txn.Atomic(db) <==>
      && LatestOpenCase(db.cases, db.caseOrder, txn.merchant.merchantId, txn.customer) == Some(c)
      && db.cases[c].state == row.state
  {
    hide Qualification.Qualify, LatestOpenCase;
    var b, a := Commit(db, txn, Seen(Some(row), false)), txn.Atomic(db);
    if LatestOpenCase(db.cases, db.caseOrder, txn.merchant.merchantId, txn.customer) != Some(c) {
      assert a.cases[c] == db.cases[c] && b.cases[c].version == db.cases[c].version + 1;
    } else if db.cases[c].state != row.state {
      assert a.audit[|a.audit| - 1].previous == Some(db.cases[c].state);
      assert b.audit[|b.audit| - 1].previous == Some(row.state);
    }
  }

  /** A notice that finds no open case writes none, whatever has been opened since. */
  lemma UncheckedNoticeWithoutCase(db: Db, txn: Txn, seen: Seen)
    requires txn.Notice? && txn.notice.event.eventType.PaymentRecovered? && !txn.Refused(db) && !seen.replay
    requires txn.found.None?
    ensures Commit(db, txn, seen) == txn.Atomic(db) <==>
      LatestOpenCase(db.cases, db.caseOrder, txn.merchant.merchantId, txn.customer).None?
  {
    hide Qualification.Qualify, LatestOpenCase;
    var a := txn.Atomic(db);
    if LatestOpenCase(db.cases, db.caseOrder, txn.merchant.merchantId, txn.customer).Some? {
      var c := LatestOpenCase(db.cases, db.caseOrder, txn.merchant.merchantId, txn.customer).value;
      assert a.cases[c].version == db.cases[c].version + 1;
    }
  }

  /** Preparing checks the version only when it has read the case in Queued. A preparation that read any other state
      commits whatever happened since; it differs from the atomic transaction exactly if the case is queued by then. */
  lemma LatePreparation(db: Db, cmd: PrepareCommand, newId: string, row: RecoveryCase)
    requires !row.state.Queued? && cmd.caseId in db.cases && !Prepare(cmd, newId).Refused(db)
    ensures CommitPrepare(db, cmd, newId, row) == Prepare(cmd, newId).Atomic(db) <==> !db.cases[cmd.caseId].state.Queued?
  {
    if db.cases[cmd.caseId].state.Queued? {
      assert CommitPrepare(db, cmd, newId, row).cases[cmd.caseId].state.Queued?;
      assert Prepare(cmd, newId).Atomic(db).cases[cmd.caseId].state.Executing?;
    } else {
      assert CommitPrepare(db, cmd, newId, row) == Prepare(cmd, newId).Atomic(db);
    }
  }
}
