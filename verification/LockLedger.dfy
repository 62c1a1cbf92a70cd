/** Conservation of execution locks: every provider call is covered by a claim, and claims balance with releases. */
module LockLedger {
  import opened Contracts
  import opened Store
  import opened TableIntegrity
  import opened Worker
  import opened Protocol
  import opened ProtocolInvariant

  function CountBy(trace: seq<Happening>, p: Happening -> bool): nat {
    if trace == [] then 0
    else CountBy(trace[..|trace| - 1], p) + (if p(trace[|trace| - 1]) then 1 else 0)
  }

  lemma CountLast(trace: seq<Happening>, h: Happening, p: Happening -> bool)
    ensures CountBy(trace + [h], p) == CountBy(trace, p) + (if p(h) then 1 else 0)
  {
    assert (trace + [h])[..|trace|] == trace;
  }

  /** What is counted: the happenings of one intervention, or those of all interventions of one case. */
  datatype Scope = OneIntervention(id: string) | WholeCase(caseId: string)
  {
    predicate Covers(i: string, c: string) {
      match this
      case OneIntervention(id) => i == id
      case WholeCase(caseId) => c == caseId
    }

    function IsClaim(): Happening -> bool { (h: Happening) => h.LockTaken? && Covers(h.id, h.caseId) }
    function IsRelease(): Happening -> bool { (h: Happening) => h.LockFreed? && Covers(h.id, h.caseId) }
    function IsCall(): Happening -> bool { (h: Happening) => h.ProviderCalled? && Covers(h.id, h.caseId) }
  }

  function Claimed(trace: seq<Happening>, scope: Scope): nat { CountBy(trace, scope.IsClaim()) }
  function Released(trace: seq<Happening>, scope: Scope): nat { CountBy(trace, scope.IsRelease()) }
  function Executed(trace: seq<Happening>, scope: Scope): nat { CountBy(trace, scope.IsCall()) }

  function LockedIn(t: InterventionTable, scope: Scope): set<string> {
    set i | i in t.rows && t.rows[i].lease.Some? && scope.Covers(i, t.rows[i].caseId)
  }

  /** Workers that have claimed and not yet called. */
  function AboutToCall(workers: map<string, Pc>, scope: Scope): set<string> {
    set w | w in workers && workers[w].Claimed? && scope.Covers(workers[w].id, workers[w].job.caseId)
  }

  /** Claims are releases plus locks now held, and calls never outnumber claims. */
  ghost predicate Balanced(s: System, scope: Scope) {
    && Claimed(s.trace, scope) == Released(s.trace, scope) + |LockedIn(s.db.interventions, scope)|
    && Executed(s.trace, scope) + |AboutToCall(s.workers, scope)| <= Claimed(s.trace, scope)
  }

  // ---- steps that touch no lock ----

  ghost predicate SameLeases(a: InterventionTable, b: InterventionTable) {
    && (forall i | i in a.rows :: i in b.rows)
    && (forall i | i in b.rows ::
          if i in a.rows then b.rows[i].lease == a.rows[i].lease && b.rows[i].caseId == a.rows[i].caseId
          else b.rows[i].lease.None?)
  }

  ghost predicate NoNewClaims(a: map<string, Pc>, b: map<string, Pc>) {
    forall w | w in b && b[w].Claimed? :: w in a && a[w] == b[w]
  }

  ghost predicate NoLockHappening(a: seq<Happening>, b: seq<Happening>) {
    b == a || (|b| == |a| + 1 && b == a + [b[|a|]] && b[|a|].Unlogged?)
  }

  lemma QuietKeepsBalance(s: System, t: System, scope: Scope)
    requires Balanced(s, scope)
    requires SameLeases(s.db.interventions, t.db.interventions)
    requires NoNewClaims(s.workers, t.workers) && NoLockHappening(s.trace, t.trace)
    ensures Balanced(t, scope)
  {
    assert LockedIn(t.db.interventions, scope) == LockedIn(s.db.interventions, scope);
    Smaller(AboutToCall(t.workers, scope), AboutToCall(s.workers, scope));
    if t.trace != s.trace { HappeningKeepsBalance(s, t, t.trace[|s.trace|], scope); }
  }

  /** One happening is appended, and the two sets change by what it says. */
  lemma HappeningKeepsBalance(s: System, t: System, h: Happening, scope: Scope)
    requires Balanced(s, scope) && t.trace == s.trace + [h]
    requires |LockedIn(t.db.interventions, scope)| + One(scope.IsRelease()(h)) ==
             |LockedIn(s.db.interventions, scope)| + One(scope.IsClaim()(h))
    requires |AboutToCall(t.workers, scope)| + One(scope.IsCall()(h)) <=
             |AboutToCall(s.workers, scope)| + One(scope.IsClaim()(h))
    ensures Balanced(t, scope)
  {
    hide LockedIn, AboutToCall;
    CountLast(s.trace, h, scope.IsClaim());
    CountLast(s.trace, h, scope.IsRelease());
    CountLast(s.trace, h, scope.IsCall());
  }

  function One(b: bool): nat { if b then 1 else 0 }

  lemma Smaller<T>(a: set<T>, b: set<T>)
    requires a <= b
    ensures |a| <= |b|
  {
    assert b == a + (b - a);
  }

  predicate TouchesLocks(st: Step) {
    st.Claim? || st.CallProvider? || st.Sweep? || st.Release?
  }

  /** No lock changes hands between s and t. */
  ghost predicate LeavesLocks(s: System, t: System) {
    && SameLeases(s.db.interventions, t.db.interventions)
    && NoNewClaims(s.workers, t.workers) && NoLockHappening(s.trace, t.trace)
  }

  lemma PreparingIsQuiet(s: System, w: string, newId: string)
    ensures LeavesLocks(s, Prepares(s, w, newId))
  {
    hide CommandOf;
  }

  lemma WorkerStepsAreQuiet(s: System, st: Step)
    requires !TouchesLocks(st) && !IsWriter(st)
    ensures LeavesLocks(s, Apply(s, st))
  {
    hide Planning.Propose, Validate, KeyOf, AlreadyExecuted, Prepares, PersistResult;
    match st
    case Prepare(w, newId) => PreparingIsQuiet(s, w, newId);
    case Persist(w) => PersistingIsQuiet(s, w);
    case _ =>
  }

  lemma PersistingIsQuiet(s: System, w: string)
    ensures LeavesLocks(s, Persists(s, w))
  {
    hide MapOutcome;
  }

  predicate WritesInterventions(st: Step) {
    st.Retry? || st.Block? || st.Reconcile?
  }

  lemma CaseWritersAreQuiet(s: System, st: Step)
    requires !TouchesLocks(st) && IsWriter(st) && !WritesInterventions(st)
    ensures LeavesLocks(s, Apply(s, st)) && Apply(s, st).db.interventions == s.db.interventions
    ensures Apply(s, st).workers == s.workers
  {
    hide Qualification.Qualify, LatestOpenCase, ReplayReceipt, Recorded, EnqueuePlanWithOutbox;
    if st.IngestEvent? { IngestingIsQuiet(s.db, st.cmd, st.ctx); }
    if st.Enqueue? { EnqueueingIsQuiet(s.db, st.caseId, st.planId, st.outboxId, st.now); }
  }

  lemma IngestingIsQuiet(db: Db, cmd: IngestionCommand, ctx: IngestionContext)
    ensures After(db, Ingest(db, cmd, ctx)).interventions == db.interventions
  {
    hide Qualification.Qualify, LatestOpenCase, ReplayReceipt;
  }

  lemma EnqueueingIsQuiet(db: Db, c: string, planId: string, outboxId: string, now: int)
    ensures After(db, EnqueuePlan(db, c, planId, outboxId, now)).interventions == db.interventions
  {}

  lemma InterventionWritersAreQuiet(s: System, st: Step)
    requires WritesInterventions(st)
    ensures LeavesLocks(s, Apply(s, st)) && Apply(s, st).workers == s.workers
  {
    hide Reconciles, ScheduleRetry, BlockExecution, SameLeases;
    if st.Reconcile? { ReconcilingIsQuiet(s.db, st.id); } else { MarkingIsQuiet(s.db, st.id); }
  }

  lemma MarkingIsQuiet(db: Db, i: string)
    ensures SameLeases(db.interventions, ScheduleRetry(db, i).interventions)
    ensures SameLeases(db.interventions, After(db, BlockExecution(db, i)).interventions)
  {
    RetryingIsQuiet(db, i);
    hide ScheduleRetry;
  }

  lemma RetryingIsQuiet(db: Db, i: string)
    ensures SameLeases(db.interventions, ScheduleRetry(db, i).interventions)
  {
    hide Move;
  }

  lemma ReconcilingIsQuiet(db: Db, i: string)
    ensures SameLeases(db.interventions, Reconciles(db, i).interventions)
  {}

  // ---- steps that touch a lock ----

  lemma ClaimKeepsBalance(s: System, w: string, now: int, scope: Scope)
    requires SystemOk(s) && Balanced(s, scope)
    ensures Balanced(Claims(s, w, now), scope)
  {
    hide SystemOk, Balanced;
    var t := Claims(s, w, now);
    if w in s.workers && s.workers[w].Ready? {
      var pc := s.workers[w];
      if Claimable(s.db, pc.id) {
        var row := s.db.interventions.rows[pc.id];
        RowOfWorker(s, w);
        LeaseTaken(s.db.interventions, pc.id, row.(lease := Some(Lease(now, w))), scope);
        WorkerClaimed(s.workers, w, t.workers[w], scope);
        HappeningKeepsBalance(s, t, LockTaken(pc.id, row.caseId, row.interventionType), scope);
      } else {
        QuietKeepsBalance(s, t, scope);
      }
    }
  }

  lemma LeaseTaken(t: InterventionTable, i: string, row: InterventionRow, scope: Scope)
    requires i in t.rows && t.rows[i].lease.None? && row == t.rows[i].(lease := row.lease) && row.lease.Some?
    ensures |LockedIn(SetRow(t, i, row), scope)| == |LockedIn(t, scope)| + One(scope.Covers(i, row.caseId))
  {
    assert LockedIn(SetRow(t, i, row), scope) == LockedIn(t, scope) + if scope.Covers(i, row.caseId) then {i} else {};
  }

  lemma WorkerClaimed(workers: map<string, Pc>, w: string, pc: Pc, scope: Scope)
    requires w in workers && !workers[w].Claimed? && pc.Claimed?
    ensures |AboutToCall(workers[w := pc], scope)| == |AboutToCall(workers, scope)| + One(scope.Covers(pc.id, pc.job.caseId))
  {
    assert AboutToCall(workers[w := pc], scope) ==
      AboutToCall(workers, scope) + if scope.Covers(pc.id, pc.job.caseId) then {w} else {};
  }

  lemma WorkerCalled(workers: map<string, Pc>, w: string, pc: Pc, scope: Scope)
    requires w in workers && workers[w].Claimed? && !pc.Claimed?
    ensures |AboutToCall(workers[w := pc], scope)| + One(scope.Covers(workers[w].id, workers[w].job.caseId))
      == |AboutToCall(workers, scope)|
  {
    assert AboutToCall(workers, scope) == AboutToCall(workers[w := pc], scope)
      + if scope.Covers(workers[w].id, workers[w].job.caseId) then {w} else {};
  }

  /** The intervention a worker holds belongs to the plan and the case of its job. */
  lemma RowOfWorker(s: System, w: string)
    requires SystemOk(s) && w in s.workers && HasRow(s.workers[w])
    ensures var pc := s.workers[w];
      && pc.id in s.db.interventions.rows
      && s.db.interventions.rows[pc.id].caseId == pc.job.caseId
      && s.db.interventions.rows[pc.id].planId == pc.plan.planId == pc.job.planId
      && s.db.interventions.rows[pc.id].interventionType == pc.plan.interventionType
      && s.db.interventions.rows[pc.id].attempt == pc.job.attempt == 1
  {
    hide TablesOk, QueueOk, DraftsOk, CasesOk, PlansOk, OutboxOk, IndexesOk, OutcomesOk;
    TableParts(s.db);
    assert PcOk(s.workers[w], s.db);
    assert InterventionOk(s.db.interventions.rows[s.workers[w].id], s.db.plans, s.db.outbox);
  }

  lemma CallKeepsBalance(s: System, w: string, result: ProviderResult, scope: Scope)
    requires Balanced(s, scope)
    ensures Balanced(Calls(s, w, result), scope)
  {
    hide Balanced, AboutToCall;
    var t := Calls(s, w, result);
    if w in s.workers && s.workers[w].Claimed? {
      var pc := s.workers[w];
      WorkerCalled(s.workers, w, t.workers[w], scope);
      HappeningKeepsBalance(s, t, ProviderCalled(pc.id, pc.job.caseId, pc.plan.interventionType), scope);
    }
  }

  /** The rows of b are those of a, without the lease of row i. */
  ghost predicate LeaseFreed(a: InterventionTable, b: InterventionTable, i: string) {
    && (forall j | j in b.rows :: j in a.rows)
    && (forall j | j in a.rows ::
          && j in b.rows && b.rows[j].caseId == a.rows[j].caseId
          && b.rows[j].lease == (if j == i then None else a.rows[j].lease))
  }

  lemma FreedLease(a: InterventionTable, b: InterventionTable, i: string, scope: Scope)
    requires LeaseFreed(a, b, i)
    ensures |LockedIn(b, scope)| + One(i in LockedIn(a, scope)) == |LockedIn(a, scope)|
  {
    assert LockedIn(b, scope) == LockedIn(a, scope) - {i};
    hide LockedIn;
    Removed(LockedIn(a, scope), i);
  }

  lemma Removed<T>(s: set<T>, x: T)
    ensures |s - {x}| + One(x in s) == |s|
  {
    if x !in s { assert s - {x} == s; }
  }

  lemma FreeingKeepsBalance(s: System, i: string, db: Db, scope: Scope)
    requires Balanced(s, scope) && LeaseFreed(s.db.interventions, db.interventions, i)
    ensures Balanced(Freed(s, i, db), scope)
  {
    hide Balanced, LeaseFreed, AboutToCall;
    var t := Freed(s, i, db);
    FreedLease(s.db.interventions, db.interventions, i, scope);
    if Locked(s.db, i) {
      var row := s.db.interventions.rows[i];
      HappeningKeepsBalance(s, t, LockFreed(i, row.caseId, row.interventionType), scope);
    } else {
      hide LockedIn;
      SameBalance(s, t, scope);
    }
  }

  lemma SameBalance(s: System, t: System, scope: Scope)
    requires Balanced(s, scope) && t.trace == s.trace && t.workers == s.workers
    requires |LockedIn(t.db.interventions, scope)| == |LockedIn(s.db.interventions, scope)|
    ensures Balanced(t, scope)
  {}

  lemma SweepFrees(db: Db, i: string)
    ensures LeaseFreed(db.interventions, After(db, SweepIntervention(db, i)).interventions, i)
    ensures LeaseFreed(db.interventions, FreeLease(db, i).interventions, i)
  {}

  lemma StepKeepsBalance(s: System, st: Step, scope: Scope)
    requires SystemOk(s) && Balanced(s, scope)
    ensures Balanced(Apply(s, st), scope)
  {
    hide SystemOk, Balanced, Claims, Calls, Freed, IsWriter, SweepIntervention, LeaseFreed, FreeLease;
    match st
    case Claim(w, now) => ClaimKeepsBalance(s, w, now, scope);
    case CallProvider(w, result) => CallKeepsBalance(s, w, result, scope);
    case Sweep(i) =>
      SweepFrees(s.db, i);
      FreeingKeepsBalance(s, i, After(s.db, SweepIntervention(s.db, i)), scope);
    case Release(i) =>
      SweepFrees(s.db, i);
      FreeingKeepsBalance(s, i, FreeLease(s.db, i), scope);
    case _ => OtherStepKeepsBalance(s, st, scope);
  }

  lemma OtherStepKeepsBalance(s: System, st: Step, scope: Scope)
    requires Balanced(s, scope) && !TouchesLocks(st)
    ensures Balanced(Apply(s, st), scope)
  {
    hide Balanced, Apply, SameLeases, NoNewClaims, NoLockHappening;
    if !IsWriter(st) { WorkerStepsAreQuiet(s, st); }
    else if WritesInterventions(st) { InterventionWritersAreQuiet(s, st); }
    else { CaseWritersAreQuiet(s, st); }
    QuietKeepsBalance(s, Apply(s, st), scope);
  }

  lemma {:induction false} RunsBalance(log: seq<Step>, scope: Scope)
    ensures Balanced(Exec(START, log), scope)
  {
    if log == [] {
      assert LockedIn(START.db.interventions, scope) == {};
    } else {
      hide Balanced, Apply, SystemOk;
      RunsBalance(log[..|log| - 1], scope);
      RunsKeepEverything(log[..|log| - 1]);
      StepKeepsBalance(Exec(START, log[..|log| - 1]), log[|log| - 1], scope);
    }
  }

  /** In every interleaving the successful claims of an intervention are its releases plus one if it is locked now,
      and every provider call is covered by a claim of its own. */
  lemma {:induction false} LockConservation(log: seq<Step>, i: string)
    ensures var s, scope := Exec(START, log), OneIntervention(i);
      && Claimed(s.trace, scope) == Released(s.trace, scope) + (if Locked(s.db, i) then 1 else 0)
      && Executed(s.trace, scope) <= Claimed(s.trace, scope)
  {
    hide Apply, Exec;
    var s := Exec(START, log);
    RunsBalance(log, OneIntervention(i));
    var held := LockedIn(s.db.interventions, OneIntervention(i));
    assert held == if Locked(s.db, i) then {i} else {};
  }

  /** An intervention whose lock is never taken away is executed at most once, ever. */
  lemma {:induction false} ExecutedAtMostOnce(log: seq<Step>, i: string)
    requires Released(Exec(START, log).trace, OneIntervention(i)) == 0
    ensures Executed(Exec(START, log).trace, OneIntervention(i)) <= 1
  {
    LockConservation(log, i);
  }

  lemma StepFunctions(s: System, w: string, r: ProviderResult, now: int)
    ensures Apply(s, Claim(w, now)) == Claims(s, w, now)
    ensures Apply(Claims(s, w, now), CallProvider(w, r)) == Calls(Claims(s, w, now), w, r)
  {}

  lemma ClaimAndCall(s: System, w: string, i: string, r: ProviderResult, now: int)
    requires w in s.workers && s.workers[w].Ready? && s.workers[w].id == i && Claimable(s.db, i)
    ensures var t := Calls(Claims(s, w, now), w, r);
      && Executed(t.trace, OneIntervention(i)) == Executed(s.trace, OneIntervention(i)) + 1
      && i in t.db.interventions.rows
      && forall v | v != w && v in s.workers :: v in t.workers && t.workers[v] == s.workers[v]
  {
    var s1 := Claims(s, w, now);
    var t := Calls(s1, w, r);
    CountLast(s.trace, s1.trace[|s.trace|], OneIntervention(i).IsCall());
    CountLast(s1.trace, t.trace[|s1.trace|], OneIntervention(i).IsCall());
  }

  lemma SweepStepIs(s: System, i: string)
    ensures Apply(s, Sweep(i)) == Freed(s, i, After(s.db, SweepIntervention(s.db, i)))
  {
    hide Freed, SweepIntervention;
  }

  lemma SweptRowIsFree(db: Db, i: string)
    requires i in db.interventions.rows
    ensures Claimable(After(db, SweepIntervention(db, i)), i)
  {}

  lemma SweptWorkerIsFree(s: System, i: string)
    requires i in s.db.interventions.rows
    ensures var t := Freed(s, i, After(s.db, SweepIntervention(s.db, i)));
      && Claimable(t.db, i) && t.workers == s.workers
      && Executed(t.trace, OneIntervention(i)) == Executed(s.trace, OneIntervention(i))
  {
    SweptRowIsFree(s.db, i);
    hide SweepIntervention, Claimable;
    if Locked(s.db, i) {
      var row := s.db.interventions.rows[i];
      CountLast(s.trace, LockFreed(i, row.caseId, row.interventionType), OneIntervention(i).IsCall());
    }
  }

  /** A step appends at most one happening. */
  lemma HistoryGrows(s: System, st: Step)
    ensures var t := Apply(s, st);
      && |s.trace| <= |t.trace| <= |s.trace| + 1 && t.trace[..|s.trace|] == s.trace
      && (|t.trace| > |s.trace| && t.trace[|s.trace|].ProviderCalled? ==>
            && st.CallProvider? && st.worker in s.workers && s.workers[st.worker].Claimed?
            && var pc := s.workers[st.worker];
               t.trace[|s.trace|] == ProviderCalled(pc.id, pc.job.caseId, pc.plan.interventionType))
      && (|t.trace| > |s.trace| && t.trace[|s.trace|].LockFreed? ==> st.Sweep? || st.Release?)
  {
    hide Planning.Propose, Validate, Ingest, EnqueuePlan, PrepareIntervention, PersistExecutionResult,
      SweepIntervention;
  }
}
