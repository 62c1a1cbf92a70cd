/** Runs of the whole system from its empty store in which the exceptional cases happen. */
module Scenarios {
  import opened Contracts
  import opened Qualification
  import opened Planning
  import opened PlanningTheorems
  import opened Store
  import opened Worker
  import opened Protocol
  import opened ProtocolInvariant
  import opened LockLedger
  import opened Executions
  import opened Deliveries
  import TerminalStates

  // ---- the inputs ----

  /** A payment of ten rupees that failed on a bank timeout, and the notice that it arrived. */
  const FAILURE := RevenueEvent("pay_1", PaymentFailed, Some(BankTimeout), 1000, "INR", 0, None, None)
  const NOTICE := RevenueEvent("pay_2", PaymentRecovered, None, 1000, "INR", 0, None, None)

  const FAILURE_COMMAND := IngestionCommand(FAILURE, "key_1", "shop", "customer")
  const NOTICE_COMMAND := IngestionCommand(NOTICE, "key_2", "shop", "customer")
  const FAILURE_CONTEXT := IngestionContext(0, true, "merchant", "person", "event_1", "case")
  const NOTICE_CONTEXT := IngestionContext(0, true, "merchant", "person", "event_2", "case_2")

  /** The shop and its customer, as the first event registers them. */
  const PEOPLE := People(map["shop" := Merchant("merchant", "subscription")],
    map[("merchant", "customer") := "person"])

  const CASE := RecoveryCase("case", "event_1", "merchant", "person", 1000, "INR", Detected, 0, 1)

  const POLICY := MerchantPolicy("1", true, [PaymentRetry], 3, 5000, 50, 9000, 3, 24, 24, None, None)
  const IDLE := ActiveSummary(false, false, false)
  const INPUT := PlanningInput(CASE, FAILURE, POLICY, IDLE, 0, None, "plan")

  const JOB := Job("plan", "case", "merchant", 1)
  const AROUND := Surroundings(POLICY, IDLE, None, 0, 0)
  const ARRIVED := ProviderResult(true, false, Some(1000))

  function PLAN(): RecoveryPlan { PlanOf(INPUT) }

  lemma RetryIsRecommended()
    ensures Recommended(INPUT) == PaymentRetry
  {
    assert PaymentRetry in Candidates(INPUT);
  }

  lemma RetryIsPlanned()
    ensures MayRunUnattended(INPUT)
    ensures Propose(INPUT) == Ok(Propose(INPUT).value) && Propose(INPUT).value.plan == PLAN()
    ensures Propose(INPUT).value.resultingState == PolicyChecked
    ensures PLAN().planId == "plan" && PLAN().caseId == "case" && PLAN().interventionType == PaymentRetry
    ensures PLAN().planStatus == PolicyApproved && !PLAN().requiresHumanApproval
  {
    hide Recommended, Decision, MayRunUnattended;
    RetryIsRecommended();
    RetryMayRun();
    UnattendedExactly(INPUT);
  }

  lemma RetryMayRun()
    ensures MayRunUnattended(INPUT)
  {
    RetryIsRecommended();
    hide Recommended;
  }

  // ---- the stages ----

  /** How much of the way the case has gone; everything that is not mentioned is empty. */
  ghost predicate Stage(db: Db, state: CaseState, planned: bool, enqueued: bool, prepared: bool) {
    && "case" in db.cases && db.cases["case"] == CASE.(state := state, version := db.cases["case"].version)
    && "event_1" in db.events.rows && db.events.rows["event_1"].event == FAILURE
    && db.plans == (if planned then PlanTable(map["plan" := PLAN()], map[PLAN().idempotencyKey := "plan"])
                    else PlanTable(map[], map[]))
    && (if enqueued then "outbox" in db.outbox.rows && db.outbox.rows["outbox"].job == JOB
             && db.outbox.byPlan == map["plan" := "outbox"]
        else db.outbox == OutboxTable(map[], map[]))
    && (if prepared then "row" in db.interventions.rows
             && db.interventions.rows["row"] == NewIntervention(CommandOf(PLAN(), JOB))
             && db.interventions.byKey == map[KeyOf(PLAN(), JOB) := "row"]
        else db.interventions == InterventionTable(map[], map[], map[]))
    && db.outcomes == map[]
  }

  const DRAFTED := Draft(PLAN(), PolicyChecked)

  lemma FailureOpensCase()
    ensures var s := Apply(START, IngestEvent(FAILURE_COMMAND, FAILURE_CONTEXT));
      && Stage(s.db, Detected, false, false, false) && s.db.cases["case"].version == 1
      && s.planners == map[] && s.workers == map[] && s.queue == {} && s.trace == []
      && s.db.caseOrder == ["case"]
      && s.db.people == PEOPLE
      && s.db.events.byKey == map["key_1" := "event_1"] && s.db.events.rows.Keys == {"event_1"}
      && s.db.events.bySlot.Keys == {("merchant", "pay_1", PaymentFailed)}
  {
    hide Qualify, LatestOpenCase, ReplayReceipt;
    FailureQualifies();
  }

  lemma FailureQualifies()
    ensures Qualify(FAILURE, DEFAULT_CONFIG, "subscription", 0).shouldCreateCase
  {
    hide Objections;
  }

  const READS := ReadForPlan("planner", "case", POLICY, IDLE, None, 0, "plan")

  lemma PlannerReads(s: System)
    requires Stage(s.db, Detected, false, false, false) && s.db.cases["case"].version == 1 && s.planners == map[]
    ensures Apply(s, READS) == s.(planners := map["planner" := DRAFTED])
  {
    RetryIsPlanned();
    hide Propose, PLAN;
  }

  lemma NoticeRecoversCase(s: System)
    requires Stage(s.db, Detected, false, false, false) && s.db.caseOrder == ["case"]
    requires s.db.people == PEOPLE
    requires s.db.events.byKey == map["key_1" := "event_1"] && s.db.events.rows.Keys == {"event_1"}
    requires s.db.events.bySlot.Keys == {("merchant", "pay_1", PaymentFailed)}
    ensures var t := Apply(s, IngestEvent(NOTICE_COMMAND, NOTICE_CONTEXT));
      && Stage(t.db, Recovered, false, false, false)
      && t.planners == s.planners && t.workers == s.workers && t.queue == s.queue
  {
    hide Qualify;
  }

  lemma PlannerCommits(s: System, state: CaseState)
    requires Stage(s.db, state, false, false, false) && s.planners == map["planner" := DRAFTED]
    ensures var t := Apply(s, CommitPlan("planner"));
      && Stage(t.db, PolicyChecked, true, false, false)
      && t.planners == map[] && t.workers == s.workers && t.queue == s.queue && t.trace == s.trace
  {
    RetryIsPlanned();
    hide PlanOf, PlanAudit, PLAN;
  }

  /** Running one more step. */
  lemma OneMore(log: seq<Step>, st: Step)
    ensures Exec(START, log + [st]) == Apply(Exec(START, log), st)
  {
    hide Apply;
    assert (log + [st])[..|log|] == log;
  }

  /** A planner reads a new case, the notice recovers it, and the planner commits. */
  const REOPENING := [IngestEvent(FAILURE_COMMAND, FAILURE_CONTEXT), READS, IngestEvent(NOTICE_COMMAND, NOTICE_CONTEXT)]

  /** A recovered case is planned for execution again. */
  lemma {:induction false} RecoveredCaseIsReopened()
    ensures var s := Exec(START, REOPENING);
      var t := Exec(START, REOPENING + [CommitPlan("planner")]);
      && "case" in s.db.cases && s.db.cases["case"].state.Recovered?
      && "case" in t.db.cases && t.db.cases["case"].state.PolicyChecked?
  {
    hide Apply, Exec, PLAN;
    var open := [REOPENING[0]];
    OneMore([], REOPENING[0]);
    OneMore(open, REOPENING[1]);
    OneMore(open + [REOPENING[1]], REOPENING[2]);
    OneMore(REOPENING, CommitPlan("planner"));
    assert [] + open == open && open + [REOPENING[1]] + [REOPENING[2]] == REOPENING;
    Nothing();
    FailureOpensCase();
    PlannerReads(Exec(START, open));
    NoticeRecoversCase(Exec(START, open + [READS]));
    PlannerCommits(Exec(START, REOPENING), Recovered);
  }

  lemma Nothing()
    ensures Exec(START, []) == START
  {}

  // ---- one plan, two deliveries ----

  lemma EnqueuedTables(db: Db)
    requires Stage(db, PolicyChecked, true, false, false)
    ensures var tx := EnqueuePlan(db, "case", "plan", "outbox", 0);
      tx.Commit? && Stage(tx.db, Queued, true, true, false)
  {
    RetryIsPlanned();
    hide PLAN;
  }

  lemma PlanIsEnqueued(s: System)
    requires Stage(s.db, PolicyChecked, true, false, false)
    ensures var t := Apply(s, Enqueue("case", "plan", "outbox", 0));
      && Stage(t.db, Queued, true, true, false)
      && t.planners == s.planners && t.workers == s.workers && t.queue == s.queue && t.trace == s.trace
  {
    hide Stage, EnqueuePlan, Apply, PLAN;
    EnqueuedTables(s.db);
    EnqueueStepDb(s);
  }

  lemma EnqueueStepDb(s: System)
    ensures Apply(s, Enqueue("case", "plan", "outbox", 0)) ==
      s.(db := Store.After(s.db, EnqueuePlan(s.db, "case", "plan", "outbox", 0)))
  {
    hide EnqueuePlan;
  }

  lemma JobIsRelayed(s: System)
    requires Stage(s.db, Queued, true, true, false)
    ensures Apply(s, Relay("outbox")) == s.(queue := s.queue + {JOB})
  {
    hide PLAN;
  }

  lemma JobIsDelivered(s: System, w: string)
    requires JOB in s.queue && w !in s.workers
    ensures Apply(s, Deliver(w, JOB)) == s.(workers := s.workers[w := Received(JOB)])
  {}

  lemma JobPassesValidation(db: Db)
    requires Stage(db, Queued, true, true, false)
    ensures Validate(db, JOB, AROUND) == Proceed(PLAN(), 1000)
  {
    RetryIsPlanned();
    ValidateExactly(db, JOB, AROUND);
    hide PLAN, Validate;
  }

  lemma JobIsValid(s: System, w: string)
    requires Stage(s.db, Queued, true, true, false) && w in s.workers && s.workers[w] == Received(JOB)
    ensures Apply(s, ValidateJob(w, AROUND)) == s.(workers := s.workers[w := Approved(JOB, PLAN(), 1000)])
  {
    hide PLAN, Stage, Validate, Apply;
    ValidateStepIs(s, w);
    JobPassesValidation(s.db);
  }

  lemma ValidateStepIs(s: System, w: string)
    ensures Apply(s, ValidateJob(w, AROUND)) == Validates(s, w, AROUND)
  {
    hide Validates;
  }

  lemma NoInterventionYet(s: System, w: string)
    requires Stage(s.db, Queued, true, true, false) && w in s.workers && s.workers[w] == Approved(JOB, PLAN(), 1000)
    ensures Apply(s, FindIntervention(w)) == s.(workers := s.workers[w := Absent(JOB, PLAN(), 1000)])
  {
    hide PLAN;
  }

  lemma PreparedTables(db: Db)
    requires Stage(db, Queued, true, true, false)
    ensures var tx := PrepareIntervention(db, CommandOf(PLAN(), JOB), "row");
      tx.Commit? && tx.value == "row" && Stage(tx.db, Executing, true, true, true)
  {
    RetryIsPlanned();
    hide PLAN, PrepareAudit;
  }

  lemma InterventionIsPrepared(s: System, w: string)
    requires Stage(s.db, Queued, true, true, false) && w in s.workers && s.workers[w] == Absent(JOB, PLAN(), 1000)
    ensures var t := Apply(s, Prepare(w, "row"));
      && Stage(t.db, Executing, true, true, true) && t.trace == s.trace
      && t.workers == s.workers[w := Ready(JOB, PLAN(), 1000, "row")]
  {
    PreparedTables(s.db);
    hide Stage, PLAN, PrepareIntervention, CommandOf;
    PrepareStepDb(s, w);
    hide Apply;
  }

  lemma PrepareStepDb(s: System, w: string)
    ensures Apply(s, Prepare(w, "row")) == Prepares(s, w, "row")
  {
    hide Prepares;
  }

  lemma InterventionIsFound(s: System, w: string)
    requires Stage(s.db, Executing, true, true, true) && w in s.workers && s.workers[w] == Approved(JOB, PLAN(), 1000)
    ensures Apply(s, FindIntervention(w)) == s.(workers := s.workers[w := Ready(JOB, PLAN(), 1000, "row")])
  {
    hide PLAN;
  }

  /** Two workers have found the one intervention of the case, which nobody has locked. */
  const BOTH_READY := [
    IngestEvent(FAILURE_COMMAND, FAILURE_CONTEXT), READS, CommitPlan("planner"), Enqueue("case", "plan", "outbox", 0),
    Relay("outbox"), Deliver("w", JOB), Deliver("v", JOB), ValidateJob("w", AROUND), ValidateJob("v", AROUND),
    FindIntervention("w"), Prepare("w", "row"), FindIntervention("v")]

  function Reached(k: nat): System
    requires k <= |BOTH_READY|
  {
    Exec(START, BOTH_READY[..k])
  }

  lemma NextStep(k: nat)
    requires k < |BOTH_READY|
    ensures Reached(k + 1) == Apply(Reached(k), BOTH_READY[k])
  {
    hide Exec, Apply;
    OneMore(BOTH_READY[..k], BOTH_READY[k]);
    assert BOTH_READY[..k] + [BOTH_READY[k]] == BOTH_READY[..k + 1];
  }

  lemma UntilQueued()
    ensures var s := Reached(5);
      && Stage(s.db, Queued, true, true, false) && s.workers == map[] && s.queue == {JOB} && s.trace == []
  {
    hide Apply, Stage, PLAN, Exec;
    Nothing();
    assert BOTH_READY[..0] == [];
    NextStep(0);
    FailureOpensCase();
    NextStep(1);
    PlannerReads(Reached(1));
    NextStep(2);
    PlannerCommits(Reached(2), Detected);
    NextStep(3);
    PlanIsEnqueued(Reached(3));
    NextStep(4);
    JobIsRelayed(Reached(4));
  }

  lemma UntilReady()
    ensures var s := Exec(START, BOTH_READY);
      && Stage(s.db, Executing, true, true, true) && s.trace == []
      && s.workers == map["w" := Ready(JOB, PLAN(), 1000, "row"), "v" := Ready(JOB, PLAN(), 1000, "row")]
  {
    hide Apply, Stage, PLAN, Exec;
    UntilQueued();
    NextStep(5);
    JobIsDelivered(Reached(5), "w");
    NextStep(6);
    JobIsDelivered(Reached(6), "v");
    NextStep(7);
    JobIsValid(Reached(7), "w");
    NextStep(8);
    JobIsValid(Reached(8), "v");
    NextStep(9);
    NoInterventionYet(Reached(9), "w");
    NextStep(10);
    InterventionIsPrepared(Reached(10), "w");
    NextStep(11);
    InterventionIsFound(Reached(11), "v");
    assert BOTH_READY[..12] == BOTH_READY;
  }

  // ---- two executions ----

  lemma RowIsFree(db: Db)
    requires Stage(db, Executing, true, true, true)
    ensures Claimable(db, "row")
  {}

  /** Two workers of one run are ready with one free row. */
  lemma BothReady()
    ensures var s := Exec(START, BOTH_READY);
      && s.trace == [] && Claimable(s.db, "row")
      && s.workers == map["w" := Ready(JOB, PLAN(), 1000, "row"), "v" := Ready(JOB, PLAN(), 1000, "row")]
  {
    hide Exec, Claimable, PLAN, Stage;
    UntilReady();
    RowIsFree(Exec(START, BOTH_READY).db);
  }

  lemma BothExecute(s: System)
    requires s.trace == [] && Claimable(s.db, "row")
    requires s.workers == map["w" := Ready(JOB, PLAN(), 1000, "row"), "v" := Ready(JOB, PLAN(), 1000, "row")]
    ensures Executed(Exec(s, Rounds(["w", "v"], "row", ARRIVED, 0)).trace, OneIntervention("row")) == 2
  {
    assert Executed([], OneIntervention("row")) == 0;
    hide Exec, PLAN, Executed, Claimable, Rounds;
    TwoReadyWorkersCanCall(s, "w", "v", "row", ARRIVED, 0);
  }

  /** A run in which one intervention is executed twice: the sweep of the first lock lets the second worker in. */
  lemma {:induction false} OneInterventionIsExecutedTwice()
    ensures Executed(Exec(START, BOTH_READY + Rounds(["w", "v"], "row", ARRIVED, 0)).trace, OneIntervention("row")) == 2
  {
    hide Exec, PLAN, Executed, Claimable, Rounds;
    BothReady();
    BothExecute(Exec(START, BOTH_READY));
    RunsCompose(START, BOTH_READY, Rounds(["w", "v"], "row", ARRIVED, 0));
  }

  // ---- a recovered case is escalated ----

  lemma LockIsClaimed(s: System)
    requires Stage(s.db, Executing, true, true, true) && "w" in s.workers
    requires s.workers["w"] == Ready(JOB, PLAN(), 1000, "row")
    ensures var t := Apply(s, Claim("w", 0));
      && t.workers == s.workers["w" := Claimed(JOB, PLAN(), 1000, "row")]
      && t.db == ClaimExecutionLock(s.db, "row", Lease(0, "w"))
  {
    hide PLAN;
  }

  lemma PaymentArrives(s: System)
    requires "w" in s.workers && s.workers["w"] == Claimed(JOB, PLAN(), 1000, "row")
    ensures var t := Apply(s, CallProvider("w", ARRIVED));
      t.db == s.db && t.workers == s.workers["w" := Called(JOB, PLAN(), 1000, "row", ARRIVED)]
  {
    hide PLAN;
  }

  /** The delivery of the first worker. */
  const RECOVERY := [Claim("w", 0), CallProvider("w", ARRIVED), Persist("w")]

  lemma AnsweredStage(s: System)
    requires Stage(s.db, Executing, true, true, true) && "w" in s.workers
    requires s.workers["w"] == Ready(JOB, PLAN(), 1000, "row")
    ensures var t := Apply(Apply(s, Claim("w", 0)), CallProvider("w", ARRIVED));
      && "w" in t.workers && t.workers["w"] == Called(JOB, PLAN(), 1000, "row", ARRIVED)
      && "row" !in t.db.outcomes && Locked(t.db, "row")
      && "case" in t.db.cases && t.db.cases["case"].state.Executing?
  {
    hide Apply, PLAN;
    LockIsClaimed(s);
    PaymentArrives(Apply(s, Claim("w", 0)));
  }

  lemma RecoveryFollows(log: seq<Step>)
    ensures Exec(START, log + RECOVERY[..2]) ==
      Apply(Apply(Exec(START, log), Claim("w", 0)), CallProvider("w", ARRIVED))
    ensures Exec(START, log + RECOVERY) == Apply(Exec(START, log + RECOVERY[..2]), Persist("w"))
  {
    hide Exec, Apply;
    var a, b, c := RECOVERY[0], RECOVERY[1], RECOVERY[2];
    OneMore(log, a);
    OneMore(log + [a], b);
    OneMore(log + [a] + [b], c);
    assert log + [a] + [b] == log + RECOVERY[..2] && log + [a] + [b] + [c] == log + RECOVERY;
  }

  lemma PaymentHasArrived()
    ensures var s := Exec(START, BOTH_READY + RECOVERY[..2]);
      && SystemOk(s)
      && "w" in s.workers && s.workers["w"] == Called(JOB, PLAN(), 1000, "row", ARRIVED)
      && "row" !in s.db.outcomes && Locked(s.db, "row")
      && "case" in s.db.cases && s.db.cases["case"].state.Executing?
  {
    hide Exec, Apply, Stage, PLAN, SystemOk;
    UntilReady();
    RecoveryFollows(BOTH_READY);
    AnsweredStage(Exec(START, BOTH_READY));
    RunsKeepEverything(BOTH_READY + RECOVERY[..2]);
  }

  lemma SweepFollows(s: System)
    requires SystemOk(s)
    requires "w" in s.workers && s.workers["w"] == Called(JOB, PLAN(), 1000, "row", ARRIVED)
    requires "row" !in s.db.outcomes && Locked(s.db, "row")
    requires "case" in s.db.cases && s.db.cases["case"].state.Executing?
    ensures var t := Apply(s, Persist("w"));
      var u := Apply(t, Sweep("row"));
      && "case" in t.db.cases && t.db.cases["case"].state.Recovered?
      && "case" in u.db.cases && u.db.cases["case"].state.Escalated?
      && "row" in u.db.outcomes && u.db.outcomes["row"].status.SucceededStatus?
  {
    hide Apply, PLAN, SystemOk, Locked;
    RetryIsPlanned();
    TerminalStates.RecoveredCaseIsEscalated(s, "w");
  }

  /** A run in which the whole payment arrives and the case is recovered, and the sweep that follows escalates it, while
      the outcome still says that the payment succeeded. */
  lemma {:induction false} RecoveredCaseIsEscalated()
    ensures var s := Exec(START, BOTH_READY + RECOVERY);
      var t := Exec(START, BOTH_READY + RECOVERY + [Sweep("row")]);
      && "case" in s.db.cases && s.db.cases["case"].state.Recovered?
      && "case" in t.db.cases && t.db.cases["case"].state.Escalated?
      && "row" in t.db.outcomes && t.db.outcomes["row"].status.SucceededStatus?
  {
    hide Exec, Apply, PLAN, SystemOk, Locked;
    PaymentHasArrived();
    SweepFollows(Exec(START, BOTH_READY + RECOVERY[..2]));
    RecoveryFollows(BOTH_READY);
    OneMore(BOTH_READY + RECOVERY, Sweep("row"));
  }
}
