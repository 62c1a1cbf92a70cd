/** The recovery loop of the evaluation (libs/evaluation/src/baselines/sut.ts). */
module Evaluation {
  import opened Contracts
  import opened StateMachine
  import opened Qualification
  import opened Diagnosis
  import opened Intervention
  import opened Policy
  import opened Planning

  datatype ProviderScenario =
    | Success | PaymentLinkPaidAfterEvent | TimeoutOnceThenSuccess | PermanentFailure | NoCustomerResponse | InvalidResponse

  datatype GroundTruth = GroundTruth(maximumAttempts: int, providerScenario: ProviderScenario)

  /** The event is the one the loop builds: its consents are a text, in which no channel is ever refused. */
  datatype EvaluationCase = EvaluationCase(scenarioId: string, event: RevenueEvent, groundTruth: GroundTruth)

  datatype StrategyResult = StrategyResult(
    interventionsAttempted: nat,
    interventionsSucceeded: nat,
    falseInterventionCount: nat,
    recoveredAmountMinor: int,
    isRecovered: bool,
    policyBlocks: nat,
    escalations: nat,
    stops: nat,
    consentBlocks: nat,
    providerTimeouts: nat,
    providerRetries: nat,
    providerFinalFailures: nat,
    aiRequests: nat,
    aiFallbacks: nat)

  /** The clock of the qualification, the score of every round, and whether the language model fails in it. */
  datatype Surroundings = Surroundings(qualifiedAt: int, scores: nat -> Option<Propensity>, modelFails: nat -> bool)

  const EVALUATION_CONFIG := MerchantConfig(
    [PaymentFailed, SubscriptionFailed, InvoiceOverdue], 50, 720, [], ["INR", "USD"])

  function EvaluationPolicy(truth: GroundTruth): MerchantPolicy {
    MerchantPolicy("1", true, [PaymentRetry, EmailReminder, SmsReminder, NoAction, HumanEscalation],
      truth.maximumAttempts, 1_000_000, 10, 5_000_000, 2, 24, 720, None, None)
  }

  const NO_CONSENTS := Consents(None, None, None)

  function SourceEvent(c: EvaluationCase): RevenueEvent {
    c.event.(consents := Some(NO_CONSENTS), attemptsToday := None)
  }

  predicate Eligible(c: EvaluationCase, env: Surroundings) {
    Qualify(SourceEvent(c), EVALUATION_CONFIG, "standard", env.qualifiedAt).eligible
  }

  function CaseAt(c: EvaluationCase, state: CaseState, k: int): RecoveryCase {
    RecoveryCase("case_test", c.event.externalEventId, "merch_test", "cust_test", c.event.amountMinor, c.event.currency,
      state, k, 1)
  }

  /** Round k plans one simulated hour after round k - 1. */
  function RoundInput(c: EvaluationCase, env: Surroundings, state: CaseState, k: nat): PlanningInput {
    PlanningInput(CaseAt(c, state, k), SourceEvent(c), EvaluationPolicy(c.groundTruth),
      ActiveSummary(false, false, false), c.event.occurredAt + k * 3600 * 1000, env.scores(k), "plan")
  }

  // ---- what the loop computes, round by round ----

  /** What one round decides: to act, or to end the case by an escalation or a stop. */
  datatype Round =
    | Act(message: bool)
    | Halt(escalates: bool, blocked: bool, message: bool)

  predicate IsMessage(t: InterventionType) {
    t.SmsReminder? || t.EmailReminder?
  }

  function RoundOf(d: PolicyDecision, action: InterventionType): Round {
    if !d.approved then Halt(!d.stopCase && d.escalationRequired, true, IsMessage(action))
    else if action.NoAction? then Halt(false, false, false)
    else if action.HumanEscalation? || d.requiresHumanApproval then Halt(true, false, IsMessage(action))
    else Act(IsMessage(action))
  }

  /** The rounds of a case do not depend on its state. */
  function Rounds(c: EvaluationCase, env: Surroundings): nat -> Round {
    (k: nat) => var i := RoundInput(c, env, Detected, k); RoundOf(Decision(i), Recommended(i))
  }

  /** The provider lets attempt number k + 1 succeed. */
  predicate Succeeds(scenario: ProviderScenario, k: nat) {
    match scenario
    case Success => true
    case PaymentLinkPaidAfterEvent => true
    case TimeoutOnceThenSuccess => k > 0
    case _ => false
  }

  /** How many interventions are attempted from round k on. */
  function Attempts(rounds: nat -> Round, truth: GroundTruth, k: nat): (n: nat)
    ensures n > 0 ==> k + n <= truth.maximumAttempts
    ensures forall j | k <= j < k + n :: rounds(j).Act?
    ensures forall j | k <= j < k + n - 1 :: !Succeeds(truth.providerScenario, j)
    ensures k + n < truth.maximumAttempts ==>
      rounds(k + n).Halt? || (n > 0 && Succeeds(truth.providerScenario, k + n - 1))
    decreases truth.maximumAttempts - k
  {
    if k >= truth.maximumAttempts || rounds(k).Halt? then 0
    else if Succeeds(truth.providerScenario, k) then 1
    else 1 + Attempts(rounds, truth, k + 1)
  }

  /** Rounds before k that proposed a message, and those among them whose draft fell back. */
  function Drafts(rounds: nat -> Round, k: nat): (n: nat)
    ensures n <= k
  {
    if k == 0 then 0 else Drafts(rounds, k - 1) + (if rounds(k - 1).message then 1 else 0)
  }

  function Fallbacks(rounds: nat -> Round, modelFails: nat -> bool, k: nat): (n: nat)
    ensures n <= Drafts(rounds, k)
  {
    if k == 0 then 0
    else Fallbacks(rounds, modelFails, k - 1) + (if rounds(k - 1).message && modelFails(k - 1) then 1 else 0)
  }

  /** The result of a case from the number of its attempts alone. Every case ends in exactly one of three ways. */
  function Expected(c: EvaluationCase, env: Surroundings): (r: StrategyResult)
    ensures (if r.isRecovered then 1 else 0) + r.stops + r.escalations == 1
    ensures r.interventionsSucceeded == (if r.isRecovered then 1 else 0) <= r.interventionsAttempted
    ensures r.recoveredAmountMinor == (if r.isRecovered then c.event.amountMinor else 0)
    ensures r.isRecovered ==> c.event.amountMinor >= 50
    ensures r.interventionsAttempted > 0 ==> r.interventionsAttempted <= c.groundTruth.maximumAttempts
    ensures r.consentBlocks == 0 && r.falseInterventionCount == 0
    ensures r.aiFallbacks <= r.aiRequests
  {
    if !Eligible(c, env) then StrategyResult(0, 0, 0, 0, false, 0, 0, 1, 0, 0, 0, 0, 0, 0)
    else
      var rounds, scenario := Rounds(c, env), c.groundTruth.providerScenario;
      var n := Attempts(rounds, c.groundTruth, 0);
      var recovered := n > 0 && Succeeds(scenario, n - 1);
      var exhausted := !recovered && n >= c.groundTruth.maximumAttempts;
      var halted := !recovered && !exhausted;
      var begun := if halted then n + 1 else n;
      var timeouts := if scenario.TimeoutOnceThenSuccess? && n > 0 then 1 else 0;
      StrategyResult(n, if recovered then 1 else 0, 0, if recovered then c.event.amountMinor else 0, recovered,
        if halted && rounds(n).blocked then 1 else 0,
        if exhausted || (halted && rounds(n).escalates) then 1 else 0,
        if halted && !rounds(n).escalates then 1 else 0,
        0, timeouts, timeouts, if scenario.PermanentFailure? then n else 0,
        Drafts(rounds, begun), Fallbacks(rounds, env.modelFails, begun))
  }

  // ---- the loop ----

  lemma VerdictIgnoresState(p: PolicyInput, state: CaseState)
    requires !IsTerminal(p.rc.state) && !IsTerminal(state)
    ensures Verdict(p.(rc := p.rc.(state := state))) == Verdict(p)
  {}

  lemma RecommendationIgnoresState(i: PlanningInput, state: CaseState)
    ensures var j := i.(rc := i.rc.(state := state));
      Recommended(j) == Recommended(i) && FinalDiagnosis(j) == FinalDiagnosis(i)
  {
    hide Diagnose, CauseOf, SelectCandidateInterventions;
  }

  /** Planning looks at the state only to refuse it. */
  lemma StateDoesNotMatter(i: PlanningInput, state: CaseState)
    requires MayPlan(i.rc.state) && MayPlan(state)
    ensures var j := i.(rc := i.rc.(state := state));
      && Propose(j).Ok?
      && Propose(j).value.decision == Decision(i)
      && Propose(j).value.plan.interventionType == Recommended(i)
  {
    RecommendationIgnoresState(i, state);
    VerdictIgnoresState(PolicyQuestion(i), state);
    hide Verdict, Recommended, FinalDiagnosis, ConsentFor, ContactLimitReached;
  }

  /** A text has no channel that is false, so no round is ever blocked for a missing consent. */
  lemma ConsentNeverBlocks(i: PlanningInput)
    requires i.event.consents == Some(NO_CONSENTS)
    ensures ReasonCode.ConsentMissing !in Decision(i).reasonCodes
  {
    hide Recommended, FinalDiagnosis, ContactLimitReached;
    assert ConsentFor(i.event, Recommended(i));
  }

  /** A round of the loop, by its state. */
  lemma RoundAt(c: EvaluationCase, env: Surroundings, state: CaseState, k: nat)
    requires MayPlan(state)
    ensures var p := Propose(RoundInput(c, env, state, k));
      && p.Ok?
      && Rounds(c, env)(k) == RoundOf(p.value.decision, p.value.plan.interventionType)
      && ReasonCode.ConsentMissing !in p.value.decision.reasonCodes
  {
    hide Propose, Decision, Recommended;
    var i := RoundInput(c, env, Detected, k);
    assert RoundInput(c, env, state, k) == i.(rc := i.rc.(state := state));
    StateDoesNotMatter(i, state);
    ConsentNeverBlocks(i);
  }

  /** The counters of the loop. */
  datatype Tally = Tally(
    attempted: nat, succeeded: nat, escalations: nat, stops: nat, policyBlocks: nat, consentBlocks: nat,
    timeouts: nat, retries: nat, finalFailures: nat, aiRequests: nat, aiFallbacks: nat)

  const NO_TALLY := Tally(0, 0, 0, 0, 0, 0, 0, 0, 0, 0, 0)

  /** The counters that depend on the number of rounds alone. */
  predicate Tallied(rounds: nat -> Round, scenario: ProviderScenario, modelFails: nat -> bool, begun: nat, t: Tally) {
    && t.consentBlocks == 0
    && t.timeouts == t.retries == (if scenario.TimeoutOnceThenSuccess? && t.attempted > 0 then 1 else 0)
    && t.finalFailures == (if scenario.PermanentFailure? then t.attempted else 0)
    && t.aiRequests == Drafts(rounds, begun) && t.aiFallbacks == Fallbacks(rounds, modelFails, begun)
  }

  /** Where a case stands, by its state. */
  predicate Stands(rounds: nat -> Round, truth: GroundTruth, state: CaseState, begun: nat, t: Tally) {
    var n := t.attempted;
    && (MayPlan(state) || state in {Recovered, Stopped, Escalated})
    && t.succeeded == (if state.Recovered? then 1 else 0)
    && (n > 0 ==> (Succeeds(truth.providerScenario, n - 1) <==> state.Recovered?))
    && match state
       case Recovered =>
         Attempts(rounds, truth, 0) == n == begun > 0 && t.stops == t.escalations == t.policyBlocks == 0
       case Stopped => Halted(rounds, truth, begun, t) && !rounds(n).escalates
       case Escalated => Halted(rounds, truth, begun, t) && rounds(n).escalates
       case _ =>
         Attempts(rounds, truth, 0) == n + Attempts(rounds, truth, n) && begun == n
         && t.stops == t.escalations == t.policyBlocks == 0
  }

  /** How state and counters stand after `begun` rounds. */
  predicate Reached(rounds: nat -> Round, truth: GroundTruth, modelFails: nat -> bool, state: CaseState, begun: nat,
    t: Tally) {
    Tallied(rounds, truth.providerScenario, modelFails, begun, t) && Stands(rounds, truth, state, begun, t)
  }

  predicate Halted(rounds: nat -> Round, truth: GroundTruth, begun: nat, t: Tally) {
    && Attempts(rounds, truth, 0) == t.attempted == begun - 1 && t.attempted < truth.maximumAttempts
    && rounds(t.attempted).Halt?
    && t.escalations == (if rounds(t.attempted).escalates then 1 else 0) && t.stops == 1 - t.escalations
    && t.policyBlocks == (if rounds(t.attempted).blocked then 1 else 0)
  }

  function ResultOf(t: Tally, isRecovered: bool, amount: int): StrategyResult {
    StrategyResult(t.attempted, t.succeeded, 0, if isRecovered then amount else 0, isRecovered, t.policyBlocks,
      t.escalations, t.stops, t.consentBlocks, t.timeouts, t.retries, t.finalFailures, t.aiRequests, t.aiFallbacks)
  }

  lemma AtTheEnd(c: EvaluationCase, env: Surroundings, state: CaseState, begun: nat, t: Tally)
    requires Eligible(c, env) && Reached(Rounds(c, env), c.groundTruth, env.modelFails, state, begun, t)
    requires t.attempted >= c.groundTruth.maximumAttempts || !MayPlan(state)
    ensures var final := if MayPlan(state) then t.(escalations := t.escalations + 1) else t;
      ResultOf(final, state.Recovered?, c.event.amountMinor) == Expected(c, env)
  {
    hide Rounds, Eligible, Attempts, Drafts, Fallbacks, Succeeds;
  }

  function Counted(round: Round, modelFails: bool, t: Tally): Tally {
    t.(aiRequests := t.aiRequests + (if round.message then 1 else 0),
       aiFallbacks := t.aiFallbacks + (if round.message && modelFails then 1 else 0))
  }

  /** State and counters after one round. */
  predicate Played(round: Round, modelFails: bool, scenario: ProviderScenario, from: CaseState, t: Tally,
    state: CaseState, u: Tally)
  {
    var counted, timeout := Counted(round, modelFails, t), scenario.TimeoutOnceThenSuccess? && t.attempted == 0;
    match round
    case Halt(escalates, blocked, _) =>
      && state == (if escalates then Escalated else Stopped)
      && u == counted.(
           policyBlocks := t.policyBlocks + (if blocked then 1 else 0),
           escalations := t.escalations + (if escalates then 1 else 0),
           stops := t.stops + (if escalates then 0 else 1))
    case Act(_) =>
      && Provided(scenario, t.attempted, from, state)
      && u == counted.(
           attempted := t.attempted + 1,
           succeeded := t.succeeded + (if Succeeds(scenario, t.attempted) then 1 else 0),
           timeouts := t.timeouts + (if timeout then 1 else 0),
           retries := t.retries + (if timeout then 1 else 0),
           finalFailures := t.finalFailures + (if scenario.PermanentFailure? then 1 else 0))
  }

  lemma StandsAfterRound(rounds: nat -> Round, truth: GroundTruth, modelFails: nat -> bool, from: CaseState, begun: nat,
    t: Tally, state: CaseState, u: Tally)
    requires Stands(rounds, truth, from, begun, t) && MayPlan(from) && begun < truth.maximumAttempts
    requires Played(rounds(begun), modelFails(begun), truth.providerScenario, from, t, state, u)
    ensures Stands(rounds, truth, state, begun + 1, u)
  {}

  lemma AfterRound(rounds: nat -> Round, truth: GroundTruth, modelFails: nat -> bool, from: CaseState, begun: nat,
    t: Tally, state: CaseState, u: Tally)
    requires Reached(rounds, truth, modelFails, from, begun, t) && MayPlan(from) && begun < truth.maximumAttempts
    requires Played(rounds(begun), modelFails(begun), truth.providerScenario, from, t, state, u)
    ensures Reached(rounds, truth, modelFails, state, begun + 1, u)
  {
    StandsAfterRound(rounds, truth, modelFails, from, begun, t, state, u);
    GoingOn(rounds, truth, modelFails, from, begun, t);
    hide Stands, Provided, Attempts;
  }

  /** The next state after attempt number k + 1; an invalid response leaves the state alone. */
  predicate Provided(scenario: ProviderScenario, k: nat, state: CaseState, next: CaseState) {
    if Succeeds(scenario, k) then next.Recovered?
    else if scenario.InvalidResponse? then next == state
    else next.Retryable?
  }

  /** One proposal: what to do next, and whether a missing consent was the reason not to. */
  method Decide(c: EvaluationCase, env: Surroundings, state: CaseState, k: nat)
    returns (round: Round, consentMissing: bool)
    requires MayPlan(state)
    ensures round == Rounds(c, env)(k) && !consentMissing
  {
    RoundAt(c, env, state, k);
    hide Propose, Rounds;
    var proposal := ProposeRecoveryPlan(RoundInput(c, env, state, k));
    var action, decision := proposal.value.plan.interventionType, proposal.value.decision;
    var message := action == SmsReminder || action == EmailReminder;
    consentMissing := false;
    if !decision.approved {
      consentMissing := ReasonCode.ConsentMissing in decision.reasonCodes;
      if decision.stopCase {
        round := Halt(false, true, message);
      } else if decision.escalationRequired {
        round := Halt(true, true, message);
      } else {
        round := Halt(false, true, message);
      }
    } else if action == NoAction {
      round := Halt(false, false, message);
    } else if action == HumanEscalation || decision.requiresHumanApproval {
      round := Halt(true, false, message);
    } else {
      round := Act(message);
    }
  }

  /** Simulates the provider and counts what it does. */
  method Provide(scenario: ProviderScenario, attemptCount: nat, state: CaseState, t: Tally)
    returns (next: CaseState, u: Tally)
    requires attemptCount > 0
    ensures Provided(scenario, attemptCount - 1, state, next)
    ensures u == t.(
      succeeded := t.succeeded + (if Succeeds(scenario, attemptCount - 1) then 1 else 0),
      timeouts := t.timeouts + (if scenario.TimeoutOnceThenSuccess? && attemptCount == 1 then 1 else 0),
      retries := t.retries + (if scenario.TimeoutOnceThenSuccess? && attemptCount == 1 then 1 else 0),
      finalFailures := t.finalFailures + (if scenario.PermanentFailure? then 1 else 0))
  {
    next, u := state, t;
    if scenario == Success || scenario == PaymentLinkPaidAfterEvent {
      u := u.(succeeded := u.succeeded + 1);
      next := Recovered;
    } else if scenario == TimeoutOnceThenSuccess {
      if attemptCount == 1 {
        u := u.(timeouts := u.timeouts + 1, retries := u.retries + 1);
        next := Retryable;
      } else {
        u := u.(succeeded := u.succeeded + 1);
        next := Recovered;
      }
    } else if scenario == PermanentFailure {
      u := u.(finalFailures := u.finalFailures + 1);
      next := Retryable;
    } else if scenario == NoCustomerResponse {
      next := Retryable;
    }
  }

  /** Counts the round's draft. */
  method CountDraft(round: Round, modelFails: bool, t: Tally) returns (u: Tally)
    ensures u == t.(aiRequests := t.aiRequests + (if round.message then 1 else 0),
                    aiFallbacks := t.aiFallbacks + (if round.message && modelFails then 1 else 0))
  {
    u := t;
    if round.message {
      u := u.(aiRequests := u.aiRequests + 1);
      if modelFails { u := u.(aiFallbacks := u.aiFallbacks + 1); }
    }
  }

  /** Counts the end of the case. */
  method CountHalt(round: Round, consentMissing: bool, t: Tally) returns (state: CaseState, u: Tally)
    requires round.Halt?
    ensures state == if round.escalates then Escalated else Stopped
    ensures u == t.(
      consentBlocks := t.consentBlocks + (if round.blocked && consentMissing then 1 else 0),
      policyBlocks := t.policyBlocks + (if round.blocked && !consentMissing then 1 else 0),
      escalations := t.escalations + (if round.escalates then 1 else 0),
      stops := t.stops + (if round.escalates then 0 else 1))
  {
    u := t;
    if round.blocked {
      if consentMissing { u := u.(consentBlocks := u.consentBlocks + 1); }
      else { u := u.(policyBlocks := u.policyBlocks + 1); }
    }
    if round.escalates {
      u := u.(escalations := u.escalations + 1);
      state := Escalated;
    } else {
      u := u.(stops := u.stops + 1);
      state := Stopped;
    }
  }

  /** One round of the loop. */
  method PlayRound(c: EvaluationCase, env: Surroundings, from: CaseState, t: Tally)
    returns (state: CaseState, u: Tally)
    requires MayPlan(from)
    ensures Played(Rounds(c, env)(t.attempted), env.modelFails(t.attempted), c.groundTruth.providerScenario, from, t, state, u)
  {
    hide Rounds;
    var round, consentMissing := Decide(c, env, from, t.attempted);
    u := CountDraft(round, env.modelFails(t.attempted), t);
    if round.Halt? {
      state, u := CountHalt(round, consentMissing, u);
    } else {
      u := u.(attempted := u.attempted + 1);
      state, u := Provide(c.groundTruth.providerScenario, u.attempted, from, u);
    }
  }

  /** The loop ends, and never asks the planner in a state it refuses. */
  method RecoveryLoop(c: EvaluationCase, env: Surroundings) returns (state: CaseState, t: Tally, ghost begun: nat)
    ensures Reached(Rounds(c, env), c.groundTruth, env.modelFails, state, begun, t)
    ensures t.attempted >= c.groundTruth.maximumAttempts || !MayPlan(state)
  {
    hide *;
    ghost var rounds := Rounds(c, env);
    state, t, begun := Detected, NO_TALLY, 0;
    NothingBegun(rounds, c.groundTruth, env.modelFails);
    while t.attempted < c.groundTruth.maximumAttempts && state != Recovered && state != Stopped && state != Escalated
      invariant Reached(rounds, c.groundTruth, env.modelFails, state, begun, t)
      decreases c.groundTruth.maximumAttempts - t.attempted, state == Detected || state == Retryable
    {
      GoingOn(rounds, c.groundTruth, env.modelFails, state, begun, t);
      ghost var from, before := state, t;
      state, t := PlayRound(c, env, state, t);
      AfterRound(rounds, c.groundTruth, env.modelFails, from, begun, before, state, t);
      RoundEnds(rounds(begun), env.modelFails(begun), c.groundTruth.providerScenario, from, before, state, t);
      begun := begun + 1;
    }
    EndsOrExhausted(rounds, c.groundTruth, env.modelFails, state, begun, t);
  }

  lemma NothingBegun(rounds: nat -> Round, truth: GroundTruth, modelFails: nat -> bool)
    ensures NO_TALLY.attempted == 0 && Reached(rounds, truth, modelFails, Detected, 0, NO_TALLY)
  {}

  /** A round makes an attempt or ends the case. */
  lemma RoundEnds(round: Round, modelFails: bool, scenario: ProviderScenario, from: CaseState, t: Tally,
    state: CaseState, u: Tally)
    requires Played(round, modelFails, scenario, from, t, state, u)
    ensures u.attempted == t.attempted + 1 || (u.attempted == t.attempted && state in {Stopped, Escalated})
  {}

  lemma EndsOrExhausted(rounds: nat -> Round, truth: GroundTruth, modelFails: nat -> bool, state: CaseState,
    begun: nat, t: Tally)
    requires Reached(rounds, truth, modelFails, state, begun, t)
    ensures MayPlan(state) || state in {Recovered, Stopped, Escalated}
    ensures state in {Recovered, Stopped, Escalated} ==> !MayPlan(state)
  {}

  /** Qualification, loop and the final escalation of a case whose attempts are used up. */
  method Evaluate(c: EvaluationCase, env: Surroundings) returns (r: StrategyResult)
    ensures r == Expected(c, env)
  {
    var qualification := QualifyRevenueEvent(SourceEvent(c), EVALUATION_CONFIG, "standard", env.qualifiedAt);
    if !qualification.eligible {
      return ResultOf(NO_TALLY.(stops := 1), false, 0);
    }
    var state, t, begun := RecoveryLoop(c, env);
    AtTheEnd(c, env, state, begun, t);
    EndsOrExhausted(Rounds(c, env), c.groundTruth, env.modelFails, state, begun, t);
    hide Reached, Expected;
    var isRecovered := state == Recovered;
    if !isRecovered && t.attempted >= c.groundTruth.maximumAttempts && state != Escalated && state != Stopped {
      t := t.(escalations := t.escalations + 1);
    }
    return ResultOf(t, isRecovered, c.event.amountMinor);
  }

  /** What a round may rely on when it begins. */
  lemma GoingOn(rounds: nat -> Round, truth: GroundTruth, modelFails: nat -> bool, state: CaseState, begun: nat,
    t: Tally)
    requires Reached(rounds, truth, modelFails, state, begun, t) && state !in {Recovered, Stopped, Escalated}
    ensures MayPlan(state) && begun == t.attempted && state in {Detected, Retryable}
  {}

  /** Suspected fraud of the dataset carries a reason that the diagnosis does not know: such a case is escalated before
      any attempt, not stopped as fraud. */
  lemma FraudScenarioIsEscalated(c: EvaluationCase, env: Surroundings)
    requires c.event.eventType.PaymentFailed? && c.event.failureReason == Some(OtherReason("FRAUD_SUSPECTED"))
    requires Eligible(c, env)
    ensures var r := Expected(c, env);
      r.escalations == 1 && r.stops == 0 && r.interventionsAttempted == 0 && !r.isRecovered
  {
    if c.groundTruth.maximumAttempts > 0 {
      UnknownCauseEscalates(RoundInput(c, env, Detected, 0));
    }
    hide RoundInput, Decision, Recommended;
  }

  lemma UnknownCauseEscalates(i: PlanningInput)
    requires CauseOf(i.event).UnknownCause? && i.event.eventType.PaymentFailed? && i.rc.state.Detected?
    requires !i.event.failureReason.Some? || i.event.failureReason.value.OtherReason?
    requires i.policy == EvaluationPolicy(GroundTruth(i.policy.maxAttemptsPerCase, Success))
    requires i.rc.attemptCount < i.policy.maxAttemptsPerCase && i.event.consents == Some(NO_CONSENTS)
    ensures Recommended(i) == HumanEscalation && Decision(i).approved && Decision(i).requiresHumanApproval
  {
    UnknownCauseIsForHumans(i);
    hide Recommended;
  }

  lemma UnknownCauseIsForHumans(i: PlanningInput)
    requires CauseOf(i.event).UnknownCause? && i.event.eventType.PaymentFailed?
    requires !i.event.failureReason.Some? || i.event.failureReason.value.OtherReason?
    requires i.policy == EvaluationPolicy(GroundTruth(i.policy.maxAttemptsPerCase, Success))
    ensures Recommended(i) == HumanEscalation
  {
    assert CandidateTable(UnknownCause) == [HumanEscalation, NoAction];
    assert Candidates(i) == [HumanEscalation] + OnlyAllowed([NoAction], i.policy.allowed);
    hide Candidates;
  }
}
