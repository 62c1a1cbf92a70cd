/** How often an intervention can be executed once a sweep has freed its lock. The sweep marks the row FAILED, and a
    lookup discards deliveries of such a row, so the calls that follow belong to workers that had passed their lookup. */
module Executions {
  import opened Store
  import opened TableIntegrity
  import opened Worker
  import opened Protocol
  import opened ProtocolInvariant
  import opened LockLedger

  predicate Done(db: Db, i: string) {
    i in db.interventions.rows && AlreadyExecuted(db.interventions.rows[i])
  }

  /** The worker has found the row, or found none under its key, and has not claimed it. */
  predicate PassedLookup(pc: Pc, db: Db, i: string) {
    || (pc.Ready? && pc.id == i)
    || (pc.Absent? && i in db.interventions.rows && KeyOf(pc.plan, pc.job) == db.interventions.rows[i].key)
  }

  function Waiting(s: System, i: string): set<string> {
    set w | w in s.workers && PassedLookup(s.workers[w], s.db, i)
  }

  /** All workers that may call the provider for the row without another lookup. */
  function MayCall(s: System, i: string): set<string> {
    AboutToCall(s.workers, OneIntervention(i)) + Waiting(s, i)
  }

  /** The step takes the row back from SUCCEEDED or FAILED, so that lookups find it again: a retry is scheduled or a block
      set, or a worker stores a timeout as the row's first outcome. */
  predicate Reopens(s: System, st: Step, i: string) {
    || ((st.Retry? || st.Block?) && st.id == i)
    || (&& st.Persist? && st.worker in s.workers && s.workers[st.worker].Called? && s.workers[st.worker].id == i
        && StatusOf(s.workers[st.worker].result).AmbiguousStatus? && i !in s.db.outcomes)
  }

  // ---- one step ----

  /** Every worker that may call after the step might have called before it. */
  ghost predicate NobodyJoins(s: System, t: System, i: string) {
    forall w | w in t.workers && w in MayCall(t, i) :: w in s.workers && w in MayCall(s, i)
  }

  lemma NobodyJoinsBound(s: System, t: System, i: string)
    requires NobodyJoins(s, t, i)
    ensures |MayCall(t, i)| <= |MayCall(s, i)|
  {
    Smaller(MayCall(t, i), MayCall(s, i));
  }

  /** The row stays done and keeps its key. */
  ghost predicate StaysDone(a: Db, b: Db, i: string)
    requires i in a.interventions.rows
  {
    Done(b, i) && b.interventions.rows[i].key == a.interventions.rows[i].key
  }

  lemma FindingIsLate(s: System, w: string, i: string)
    requires SystemOk(s) && Done(s.db, i)
    ensures NobodyJoins(s, Finds(s, w), i) && Finds(s, w).db == s.db
  {
    hide QueueOk, DraftsOk, WorkersOk, CasesOk, PlansOk, OutboxOk, InterventionsOk, OutcomesOk, KeyOf;
    TableParts(s.db);
  }

  lemma PreparingIsLate(s: System, w: string, newId: string, i: string)
    requires SystemOk(s) && Done(s.db, i)
    ensures NobodyJoins(s, Prepares(s, w, newId), i) && StaysDone(s.db, Prepares(s, w, newId).db, i)
  {
    hide QueueOk, DraftsOk, WorkersOk, CasesOk, PlansOk, OutboxOk, InterventionsOk, OutcomesOk, KeyOf, PrepareAudit;
    TableParts(s.db);
  }

  lemma ClaimingIsLate(s: System, w: string, now: int, i: string)
    requires Done(s.db, i)
    ensures NobodyJoins(s, Claims(s, w, now), i) && StaysDone(s.db, Claims(s, w, now).db, i)
  {
    hide KeyOf;
  }

  lemma PersistingIsLate(s: System, w: string, i: string)
    requires Done(s.db, i) && !Reopens(s, Persist(w), i)
    ensures NobodyJoins(s, Persists(s, w), i) && StaysDone(s.db, Persists(s, w).db, i)
  {
    hide KeyOf, MapOutcome;
  }

  /** The other steps of workers, planners and the relay. */
  lemma ReadingIsLate(s: System, st: Step, i: string)
    requires Done(s.db, i) && !IsWriter(st) && !st.Persist? && !st.Claim? && !st.CallProvider? && !st.Prepare?
    requires !st.FindIntervention?
    ensures NobodyJoins(s, Apply(s, st), i) && Apply(s, st).db.interventions == s.db.interventions
  {
    hide Planning.Propose, Validate, KeyOf, CreatePlan;
    if st.CommitPlan? && st.planner in s.planners { CommittingIsLate(s.db, s.planners, st.planner); }
  }

  lemma CommittingIsLate(db: Db, planners: map<string, Draft>, planner: string)
    requires planner in planners
    ensures After(db, CreatePlan(db, planners[planner].plan, planners[planner].next)).interventions == db.interventions
  {
    hide PlanAudit;
  }

  // ---- writers ----

  lemma FreeingStaysDone(s: System, i: string, j: string)
    requires Done(s.db, i)
    ensures StaysDone(s.db, After(s.db, SweepIntervention(s.db, j)), i)
    ensures StaysDone(s.db, FreeLease(s.db, j), i)
  {}

  lemma MarkingStaysDone(s: System, i: string, j: string)
    requires Done(s.db, i)
    ensures i != j ==> StaysDone(s.db, ScheduleRetry(s.db, j), i)
    ensures i != j ==> StaysDone(s.db, After(s.db, BlockExecution(s.db, j)), i)
    ensures StaysDone(s.db, Reconciles(s.db, j), i)
  {}

  lemma WritersStayDone(s: System, st: Step, i: string)
    requires Done(s.db, i) && IsWriter(st) && !Reopens(s, st, i)
    ensures StaysDone(s.db, Apply(s, st).db, i)
  {
    hide AlreadyExecuted;
    if WritesInterventions(st) { MarkersStayDone(s, st, i); }
    else if TouchesLocks(st) { SweepsStayDone(s, st, i); }
    else {
      hide Apply;
      CaseWritersAreQuiet(s, st);
    }
  }

  lemma MarkersStayDone(s: System, st: Step, i: string)
    requires Done(s.db, i) && WritesInterventions(st) && !Reopens(s, st, i)
    ensures StaysDone(s.db, Apply(s, st).db, i)
  {
    hide AlreadyExecuted, ScheduleRetry, BlockExecution, Reconciles, Ingest, EnqueuePlan, Done, StaysDone;
    MarkingStaysDone(s, i, st.id);
  }

  lemma SweepsStayDone(s: System, st: Step, i: string)
    requires Done(s.db, i) && (st.Sweep? || st.Release?)
    ensures StaysDone(s.db, Apply(s, st).db, i)
  {
    hide AlreadyExecuted, SweepIntervention, FreeLease;
    FreeingStaysDone(s, i, st.id);
  }

  lemma SameWorkersJoinNobody(s: System, t: System, i: string)
    requires Done(s.db, i) && t.workers == s.workers && StaysDone(s.db, t.db, i)
    ensures NobodyJoins(s, t, i)
  {
    hide KeyOf, AlreadyExecuted;
  }

  // ---- the balance ----

  /** Calls so far, and calls that may still come without another lookup. */
  function Exposure(s: System, i: string): nat {
    Executed(s.trace, OneIntervention(i)) + |MayCall(s, i)|
  }

  ghost predicate NoCall(a: seq<Happening>, b: seq<Happening>) {
    b == a || (|b| == |a| + 1 && b == a + [b[|a|]] && !b[|a|].ProviderCalled?)
  }

  lemma NoCallCountsNothing(a: seq<Happening>, b: seq<Happening>, scope: Scope)
    requires NoCall(a, b)
    ensures Executed(b, scope) == Executed(a, scope)
  {
    if b != a { CountLast(a, b[|a|], scope.IsCall()); }
  }

  lemma OnlyCallsCount(s: System, st: Step)
    requires !st.CallProvider?
    ensures NoCall(s.trace, Apply(s, st).trace)
  {
    hide Planning.Propose, Validate, KeyOf, AlreadyExecuted, PrepareIntervention, PersistResult, CreatePlan, Ingest,
      EnqueuePlan, MarkCase, CaptureUpdate, SweepIntervention, FreeLease, ScheduleRetry, BlockExecution, Reconciles;
  }

  lemma CallerLeaves(s: System, w: string, result: ProviderResult, i: string)
    requires w in s.workers && s.workers[w].Claimed?
    ensures MayCall(Calls(s, w, result), i) == MayCall(s, i) - {w}
    ensures w in MayCall(s, i) <==> s.workers[w].id == i
  {
    hide KeyOf;
  }

  lemma CallIsCounted(s: System, w: string, result: ProviderResult, i: string)
    requires w in s.workers && s.workers[w].Claimed?
    ensures Executed(Calls(s, w, result).trace, OneIntervention(i)) ==
      Executed(s.trace, OneIntervention(i)) + One(s.workers[w].id == i)
  {
    hide CountBy;
    CountLast(s.trace, Calls(s, w, result).trace[|s.trace|], OneIntervention(i).IsCall());
  }

  lemma CallSpends(s: System, w: string, result: ProviderResult, i: string)
    ensures Calls(s, w, result).db == s.db
    ensures Exposure(Calls(s, w, result), i) <= Exposure(s, i)
  {
    hide Executed, MayCall;
    if w in s.workers && s.workers[w].Claimed? {
      CallIsCounted(s, w, result, i);
      CallerLeaves(s, w, result, i);
    }
  }

  lemma StepSpends(s: System, st: Step, i: string)
    requires SystemOk(s) && Done(s.db, i) && !Reopens(s, st, i)
    ensures Done(Apply(s, st).db, i) && Exposure(Apply(s, st), i) <= Exposure(s, i)
  {
    hide SystemOk, MayCall, Executed, Claims, Calls, Finds, Prepares, Persists, IsWriter, AlreadyExecuted;
    var t := Apply(s, st);
    if st.CallProvider? { CallSpends(s, st.worker, st.result, i); }
    else {
      OnlyCallsCount(s, st);
      NoCallCountsNothing(s.trace, t.trace, OneIntervention(i));
      JoinsNobody(s, st, i);
      hide Apply;
      NobodyJoinsBound(s, t, i);
    }
  }

  lemma JoinsNobody(s: System, st: Step, i: string)
    requires SystemOk(s) && Done(s.db, i) && !Reopens(s, st, i) && !st.CallProvider?
    ensures NobodyJoins(s, Apply(s, st), i) && StaysDone(s.db, Apply(s, st).db, i)
  {
    hide SystemOk, NobodyJoins, Apply, IsWriter, AlreadyExecuted, Reopens;
    if IsWriter(st) {
      WritersLeaveWorkers(s, st);
      WritersStayDone(s, st, i);
      SameWorkersJoinNobody(s, Apply(s, st), i);
    } else if st.FindIntervention? || st.Prepare? || st.Claim? || st.Persist? {
      WorkersAreLate(s, st, i);
    } else {
      ReadingIsLate(s, st, i);
    }
  }

  lemma WorkersAreLate(s: System, st: Step, i: string)
    requires SystemOk(s) && Done(s.db, i) && !Reopens(s, st, i)
    requires st.FindIntervention? || st.Prepare? || st.Claim? || st.Persist?
    ensures NobodyJoins(s, Apply(s, st), i) && StaysDone(s.db, Apply(s, st).db, i)
  {
    hide SystemOk, NobodyJoins, Claims, Finds, Prepares, Persists, AlreadyExecuted;
    match st
    case FindIntervention(w) => FindingIsLate(s, w, i);
    case Prepare(w, newId) => PreparingIsLate(s, w, newId, i);
    case Claim(w, now) => ClaimingIsLate(s, w, now, i);
    case Persist(w) => PersistingIsLate(s, w, i);
  }

  // ---- runs ----

  /** No step of the run takes the row back. */
  ghost predicate NeverReopens(s: System, log: seq<Step>, i: string) {
    forall k | 0 <= k < |log| :: !Reopens(Exec(s, log[..k]), log[k], i)
  }

  lemma NeverReopensPrefix(s: System, log: seq<Step>, i: string)
    requires NeverReopens(s, log, i) && log != []
    ensures NeverReopens(s, log[..|log| - 1], i)
    ensures !Reopens(Exec(s, log[..|log| - 1]), log[|log| - 1], i)
  {
    hide Exec, Reopens;
    var init := log[..|log| - 1];
    assert forall k | 0 <= k < |init| :: init[..k] == log[..k] && init[k] == log[k];
  }

  lemma {:induction false} RunSpends(s: System, log: seq<Step>, i: string)
    requires SystemOk(s) && Done(s.db, i) && NeverReopens(s, log, i)
    ensures var t := Exec(s, log);
      SystemOk(t) && Done(t.db, i) && Exposure(t, i) <= Exposure(s, i)
  {
    if log != [] {
      hide SystemOk, Done, Reopens, Exposure, Apply, NeverReopens;
      var init := log[..|log| - 1];
      NeverReopensPrefix(s, log, i);
      RunSpends(s, init, i);
      StepKeeps(Exec(s, init), log[|log| - 1]);
      StepSpends(Exec(s, init), log[|log| - 1], i);
    }
  }

  lemma SweepSettles(s: System, i: string)
    requires i in s.db.interventions.rows
    ensures var t := Apply(s, Sweep(i));
      && Done(t.db, i) && t.workers == s.workers && MayCall(t, i) == MayCall(s, i)
      && Executed(t.trace, OneIntervention(i)) == Executed(s.trace, OneIntervention(i))
  {
    hide Executed, KeyOf, SweepIntervention, AboutToCall;
    OnlyCallsCount(s, Sweep(i));
    NoCallCountsNothing(s.trace, Apply(s, Sweep(i)).trace, OneIntervention(i));
    SweptRowIsDone(s.db, i);
    SweepStepIs(s, i);
    hide Apply;
  }

  lemma SweptRowIsDone(db: Db, i: string)
    requires i in db.interventions.rows
    ensures var b := After(db, SweepIntervention(db, i));
      Done(b, i) && b.interventions.rows[i].key == db.interventions.rows[i].key
  {}

  lemma CallersAreClaimedOrWaiting(s: System, i: string)
    ensures |MayCall(s, i)| == |AboutToCall(s.workers, OneIntervention(i))| + |Waiting(s, i)|
  {
    assert AboutToCall(s.workers, OneIntervention(i)) !! Waiting(s, i);
  }

  /** In every run: once an intervention is swept for the first time, it is executed at most once for that past and once
      for every worker that had passed its lookup and not claimed by then, however many deliveries follow, unless a
      step takes the row back from its final status. */
  lemma {:induction false} CallsAfterSweep(log: seq<Step>, i: string, more: seq<Step>)
    requires i in Exec(START, log).db.interventions.rows
    requires Released(Exec(START, log).trace, OneIntervention(i)) == 0
    requires NeverReopens(Apply(Exec(START, log), Sweep(i)), more, i)
    ensures Executed(Exec(Apply(Exec(START, log), Sweep(i)), more).trace, OneIntervention(i)) <=
      1 + |Waiting(Exec(START, log), i)|
  {
    hide Exec, Apply, SystemOk, NeverReopens, Executed, MayCall, Waiting, LockedIn, Locked;
    var s := Exec(START, log);
    RunsKeepEverything(log);
    RunsBalance(log, OneIntervention(i));
    OneLockAtMost(s, i);
    CallersAreClaimedOrWaiting(s, i);
    SweepSettles(s, i);
    StepKeeps(s, Sweep(i));
    RunSpends(Apply(s, Sweep(i)), more, i);
  }

  lemma OneLockAtMost(s: System, i: string)
    ensures |LockedIn(s.db.interventions, OneIntervention(i))| <= 1
  {
    Smaller(LockedIn(s.db.interventions, OneIntervention(i)), {i});
  }

  // ---- the bound is attained ----

  /** Each worker claims and calls, and a sweep follows. */
  function Rounds(workers: seq<string>, i: string, result: ProviderResult, now: int): seq<Step> {
    if workers == [] then []
    else
      [Claim(workers[0], now), CallProvider(workers[0], result), Sweep(i)] + Rounds(workers[1..], i, result, now)
  }

  ghost predicate AllReady(s: System, workers: seq<string>, i: string) {
    && (forall w | w in workers :: w in s.workers && s.workers[w].Ready? && s.workers[w].id == i)
    && (forall j, k | 0 <= j < k < |workers| :: workers[j] != workers[k])
  }

  lemma ThreeSteps(s: System, log: seq<Step>)
    requires |log| == 3
    ensures Exec(s, log) == Apply(Apply(Apply(s, log[0]), log[1]), log[2])
  {
    hide Apply;
    assert log[..2][..1] == log[..1] && log[..1][..0] == [];
    assert Exec(s, log[..1]) == Apply(s, log[0]);
    assert Exec(s, log[..2]) == Apply(Exec(s, log[..1]), log[1]);
  }

  lemma OneRound(s: System, w: string, i: string, result: ProviderResult, now: int)
    requires w in s.workers && s.workers[w].Ready? && s.workers[w].id == i && Claimable(s.db, i)
    ensures var t := Exec(s, [Claim(w, now), CallProvider(w, result), Sweep(i)]);
      && Claimable(t.db, i)
      && Executed(t.trace, OneIntervention(i)) == Executed(s.trace, OneIntervention(i)) + 1
      && forall v | v != w && v in s.workers :: v in t.workers && t.workers[v] == s.workers[v]
  {
    hide Apply, Executed, Claimable, Claims, Calls, Freed, SweepIntervention;
    var log := [Claim(w, now), CallProvider(w, result), Sweep(i)];
    ThreeSteps(s, log);
    StepFunctions(s, w, result, now);
    ClaimAndCall(s, w, i, result, now);
    SweepStepIs(Calls(Claims(s, w, now), w, result), i);
    SweptWorkerIsFree(Calls(Claims(s, w, now), w, result), i);
  }

  /** Every worker that had passed its lookup can indeed call: with a sweep after each of them all do. */
  lemma {:induction false} EveryReadyWorkerCanCall(s: System, workers: seq<string>, i: string, result: ProviderResult,
    now: int)
    requires Claimable(s.db, i) && AllReady(s, workers, i)
    ensures Executed(Exec(s, Rounds(workers, i, result, now)).trace, OneIntervention(i)) ==
      Executed(s.trace, OneIntervention(i)) + |workers|
    decreases |workers|
  {
    if workers != [] {
      hide Exec, Executed, Claimable;
      var first, rest := [Claim(workers[0], now), CallProvider(workers[0], result), Sweep(i)], workers[1..];
      OneRound(s, workers[0], i, result, now);
      EveryReadyWorkerCanCall(Exec(s, first), rest, i, result, now);
      RunsCompose(s, first, Rounds(rest, i, result, now));
    } else {
      assert Rounds(workers, i, result, now) == [];
    }
  }

  lemma TwoReadyWorkersCanCall(s: System, w: string, v: string, i: string, result: ProviderResult, now: int)
    requires w != v && w in s.workers && v in s.workers && Claimable(s.db, i)
    requires s.workers[w].Ready? && s.workers[v].Ready? && s.workers[w].id == s.workers[v].id == i
    ensures Executed(Exec(s, Rounds([w, v], i, result, now)).trace, OneIntervention(i)) ==
      Executed(s.trace, OneIntervention(i)) + 2
  {
    hide Exec, Executed, Claimable, Rounds;
    EveryReadyWorkerCanCall(s, [w, v], i, result, now);
  }
}
