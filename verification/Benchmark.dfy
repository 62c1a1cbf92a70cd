/** The evaluation loop, spelled out in events, amounts and clocks, and what it makes of the generated dataset. */
module Benchmark {
  import opened Contracts
  import opened TimeCompliance
  import opened Qualification
  import opened Planning
  import opened PlanningTheorems
  import opened Decisions
  import opened Evaluation
  import opened Dataset

  /** The simulated clock of round k is inside the contact window. */
  predicate InTime(c: EvaluationCase, k: nat) {
    9 * HOUR_MS <= IstTimeOfDay(c.event.occurredAt + k * HOUR_MS) < 20 * HOUR_MS
  }

  /** What a round makes of the type it plans. */
  function RoundFor(c: EvaluationCase, k: nat, t: InterventionType): Round {
    match t
    case PaymentRetry => if c.event.amountMinor <= 1_000_000 then Act(false) else Halt(false, true, false)
    case HumanEscalation => Halt(true, false, false)
    case _ =>
      if !InTime(c, k) then Halt(false, true, true)
      else if c.event.amountMinor >= 5_000_000 then Halt(true, false, true)
      else Act(true)
  }

  /** The type that is planned: retries for failures of banks and networks, of any amount at first; a person for large
      amounts and for whatever cannot be explained; a message otherwise. */
  function TypeFor(c: EvaluationCase, k: nat, urban: bool): InterventionType {
    var large, reason := c.event.amountMinor >= 5_000_000, c.event.failureReason;
    var message := if urban then EmailReminder else SmsReminder;
    match c.event.eventType
    case PaymentFailed =>
      if reason in {Some(BankTimeout), Some(NetworkError)} then
        if k < 3 || c.event.amountMinor <= 1_000_000 then PaymentRetry else HumanEscalation
      else if reason == Some(InsufficientFunds) then if large then HumanEscalation else message
      else if reason == Some(AuthenticationRequired) then message
      else HumanEscalation
    case CheckoutAbandoned => message
    case SubscriptionFailed => if large then HumanEscalation else EmailReminder
    case InvoiceOverdue => if large then HumanEscalation else EmailReminder
    case _ => HumanEscalation
  }

  lemma TypeByEvent(c: EvaluationCase, env: Surroundings, k: nat)
    requires k < c.groundTruth.maximumAttempts && c.event.failureReason != Some(SuspectedFraud)
    ensures var i := RoundInput(c, env, Detected, k);
      Recommended(i) == TypeFor(c, k, env.scores(k).Some? && env.scores(k).value.urban)
  {
    RecommendationByEvent(RoundInput(c, env, Detected, k));
    hide Recommended;
  }

  lemma SureEnough(event: RevenueEvent)
    requires event.failureReason != Some(SuspectedFraud)
    ensures Diagnosis.ConfidenceOf(event) >= 40 && !Diagnosis.CauseOf(event).Fraud?
  {}

  lemma VerdictByType(c: EvaluationCase, env: Surroundings, k: nat)
    requires k < c.groundTruth.maximumAttempts && c.event.failureReason != Some(SuspectedFraud)
    requires var t := Recommended(RoundInput(c, env, Detected, k));
      t in {PaymentRetry, HumanEscalation, EmailReminder, SmsReminder}
    ensures var i := RoundInput(c, env, Detected, k);
      Rounds(c, env)(k) == RoundFor(c, k, Recommended(i))
  {
    var i := RoundInput(c, env, Detected, k);
    GatesByInputs(i, Recommended(i));
    SureEnough(i.event);
    WindowInTimeOfDay(i.now);
    hide Recommended, Diagnosis.CauseOf, Diagnosis.ConfidenceOf, IstTimeOfDay, IsOutsideTraiWindow, ConsentFor,
      ContactLimitReached;
  }

  /** Every round of every case: a message goes out only inside the contact window, one simulated hour after the other;
      outside it the case is blocked and stopped. */
  lemma RoundExactly(c: EvaluationCase, env: Surroundings, k: nat)
    requires k < c.groundTruth.maximumAttempts && c.event.failureReason != Some(SuspectedFraud)
    ensures Rounds(c, env)(k) == RoundFor(c, k, TypeFor(c, k, env.scores(k).Some? && env.scores(k).value.urban))
  {
    TypeByEvent(c, env, k);
    hide Rounds, RoundInput, Recommended, RoundFor;
    VerdictByType(c, env, k);
  }

  /** Which cases the loop takes on. */
  lemma EligibleExactly(c: EvaluationCase, env: Surroundings)
    ensures Eligible(c, env) <==>
      && c.event.amountMinor >= 50 && c.event.currency in {"INR", "USD"}
      && env.qualifiedAt <= c.event.occurredAt + 720 * HOUR_MS
      && c.event.eventType in {PaymentFailed, SubscriptionFailed, InvoiceOverdue}
      && (c.event.eventType == PaymentFailed ==> c.event.failureReason !in {None, Some(UnknownReason)})
  {
    hide Objections;
  }

  // ---- results ----

  predicate Plays(c: EvaluationCase, env: Surroundings, k: nat) {
    k < c.groundTruth.maximumAttempts && Rounds(c, env)(k).Act?
  }

  /** Which cases are recovered, and by how many attempts: those that act in their first round, for a provider that times
      out once in their first two. */
  lemma RecoveredExactly(c: EvaluationCase, env: Surroundings)
    ensures var r, scenario := Expected(c, env), c.groundTruth.providerScenario;
      && (r.isRecovered <==>
            && Eligible(c, env) && Plays(c, env, 0)
            && scenario in {Success, PaymentLinkPaidAfterEvent, TimeoutOnceThenSuccess}
            && (scenario.TimeoutOnceThenSuccess? ==> Plays(c, env, 1)))
      && (r.isRecovered ==> r.interventionsAttempted == if scenario.TimeoutOnceThenSuccess? then 2 else 1)
  {
    hide Rounds, Eligible, Drafts, Fallbacks;
    var rounds, truth := Rounds(c, env), c.groundTruth;
    assert Attempts(rounds, truth, 0) > 0 <==> Plays(c, env, 0);
    assert Attempts(rounds, truth, 1) > 0 <==> Plays(c, env, 1);
  }

  /** A case that no provider lets succeed acts until its first round that does not, or until its attempts are used up;
      only then it is escalated for being exhausted. */
  lemma UnsuccessfulExactly(c: EvaluationCase, env: Surroundings)
    requires Eligible(c, env) && c.groundTruth.providerScenario in {PermanentFailure, NoCustomerResponse, InvalidResponse}
    ensures var r := Expected(c, env);
      var n := r.interventionsAttempted;
      && !r.isRecovered && (forall k: nat | k < n :: Plays(c, env, k)) && !Plays(c, env, n)
      && r.escalations == (if n < c.groundTruth.maximumAttempts && !Rounds(c, env)(n).escalates then 0 else 1)
      && r.stops == 1 - r.escalations
      && r.policyBlocks == (if n < c.groundTruth.maximumAttempts && Rounds(c, env)(n).blocked then 1 else 0)
      && r.providerFinalFailures == (if c.groundTruth.providerScenario.PermanentFailure? then n else 0)
  {
    hide Rounds, Eligible, Drafts, Fallbacks;
    hide Attempts;
  }

  // ---- the dataset ----

  /** The reason that the loop reads off a scenario's name; the diagnosis knows two of them. */
  function ReasonOf(s: Scenario): FailureReason {
    match s
    case InsufficientFundsCase => InsufficientFunds
    case BankTimeoutCase => BankTimeout
    case CardExpiredCase => CardExpired
    case DoNotHonorCase => OtherReason("DO_NOT_HONOR")
    case InvalidCvvCase => OtherReason("INVALID_CVV")
    case FraudCase => OtherReason("FRAUD_SUSPECTED")
  }

  /** The loop's case is the generated one. */
  predicate Poses(g: GeneratedCase, c: EvaluationCase) {
    && c.event.eventType.PaymentFailed? && c.event.failureReason == Some(ReasonOf(g.scenario))
    && c.event.amountMinor == g.amountMinor
    && c.groundTruth == GroundTruth(g.truth.maximumAttempts, g.truth.providerScenario)
  }

  lemma SoundScenario(g: GeneratedCase)
    requires Sound(g)
    ensures AsPromised(g) && 10_000 <= g.amountMinor <= 500_000
    ensures g.truth.expectedRecovery == if g.truth.recoverable then g.amountMinor else 0
  {
    hide Succeeds;
  }

  lemma TypeOfScenario(g: GeneratedCase, c: EvaluationCase, k: nat, urban: bool)
    requires Poses(g, c) && g.amountMinor <= 500_000
    ensures c.event.failureReason != Some(SuspectedFraud) && c.event.amountMinor <= 500_000
    ensures TypeFor(c, k, urban) ==
      match g.scenario
      case BankTimeoutCase => PaymentRetry
      case InsufficientFundsCase => if urban then EmailReminder else SmsReminder
      case _ => HumanEscalation
  {}

  /** The first three rounds of a generated case. */
  lemma RoundsOfScenario(g: GeneratedCase, c: EvaluationCase, env: Surroundings, k: nat)
    requires Poses(g, c) && g.amountMinor <= 500_000 && k < c.groundTruth.maximumAttempts
    ensures Rounds(c, env)(k) ==
      match g.scenario
      case BankTimeoutCase => Act(false)
      case InsufficientFundsCase => if InTime(c, k) then Act(true) else Halt(false, true, true)
      case _ => Halt(true, false, false)
  {
    var urban := env.scores(k).Some? && env.scores(k).value.urban;
    TypeOfScenario(g, c, k, urban);
    hide Rounds, InTime, TypeFor, Poses;
    RoundExactly(c, env, k);
  }

  lemma TimeoutsAreRecovered(g: GeneratedCase, c: EvaluationCase, env: Surroundings)
    requires AsPromised(g) && g.amountMinor <= 500_000 && Poses(g, c) && Eligible(c, env) && g.scenario.BankTimeoutCase?
    ensures var r := Expected(c, env);
      r.isRecovered && r.interventionsAttempted == g.truth.minimumAttempts && r.recoveredAmountMinor == g.amountMinor
  {
    hide Rounds, Eligible, InTime, Expected;
    RoundsOfScenario(g, c, env, 0);
    RoundsOfScenario(g, c, env, 1);
    RecoveredExactly(c, env);
  }

  lemma OthersAreEscalated(g: GeneratedCase, c: EvaluationCase, env: Surroundings)
    requires AsPromised(g) && g.amountMinor <= 500_000 && Poses(g, c) && Eligible(c, env)
    requires g.scenario in {CardExpiredCase, InvalidCvvCase, DoNotHonorCase, FraudCase}
    ensures var r := Expected(c, env);
      !r.isRecovered && r.interventionsAttempted == 0 && r.escalations == 1
  {
    hide Rounds, Eligible, InTime, Expected;
    RoundsOfScenario(g, c, env, 0);
    HaltedAtOnce(c, env);
    hide Poses;
  }

  lemma ShortFundsAreStopped(g: GeneratedCase, c: EvaluationCase, env: Surroundings)
    requires AsPromised(g) && g.amountMinor <= 500_000 && Poses(g, c) && Eligible(c, env)
    requires g.scenario.InsufficientFundsCase?
    ensures var r := Expected(c, env);
      && !r.isRecovered
      && (r.stops == 1 <==> !InTime(c, 0) || !InTime(c, 1) || !InTime(c, 2))
      && (r.policyBlocks == 1 <==> r.stops == 1)
  {
    hide Rounds, Eligible, InTime, Expected;
    RoundsOfScenario(g, c, env, 0);
    RoundsOfScenario(g, c, env, 1);
    RoundsOfScenario(g, c, env, 2);
    UnsuccessfulExactly(c, env);
    hide Poses;
    var n := Expected(c, env).interventionsAttempted;
    assert n > 0 ==> Plays(c, env, 0) && Plays(c, env, n - 1);
    assert n > 1 ==> Plays(c, env, 1);
  }

  lemma HaltedAtOnce(c: EvaluationCase, env: Surroundings)
    requires Eligible(c, env) && c.groundTruth.maximumAttempts > 0 && Rounds(c, env)(0) == Halt(true, false, false)
    ensures var r := Expected(c, env);
      !r.isRecovered && r.interventionsAttempted == 0 && r.escalations == 1
  {
    hide Rounds, Eligible;
  }

  /** What the loop makes of the dataset. It recovers the bank timeouts, with the attempts and the amount their ground
      truth names, and nothing else: expired cards and invalid codes are recoverable by their ground truth, but their
      reasons are unknown to the diagnosis, so they are escalated before any attempt. */
  lemma TruthIsMetExactly(g: GeneratedCase, c: EvaluationCase, env: Surroundings)
    requires Sound(g) && Poses(g, c) && Eligible(c, env)
    ensures var r := Expected(c, env);
      && (r.isRecovered <==> g.scenario.BankTimeoutCase?)
      && (r.isRecovered == g.truth.recoverable <==> g.scenario !in {CardExpiredCase, InvalidCvvCase})
      && (r.isRecovered ==>
            r.interventionsAttempted == g.truth.minimumAttempts && r.recoveredAmountMinor == g.truth.expectedRecovery)
      && (g.scenario in {CardExpiredCase, InvalidCvvCase, DoNotHonorCase, FraudCase} ==>
            r.interventionsAttempted == 0 && r.escalations == 1)
      && (g.scenario.InsufficientFundsCase? ==>
            && (r.stops == 1 <==> !InTime(c, 0) || !InTime(c, 1) || !InTime(c, 2))
            && (r.policyBlocks == 1 <==> r.stops == 1))
  {
    hide Sound, Poses, Eligible, InTime, Expected;
    SoundScenario(g);
    if g.scenario.BankTimeoutCase? { TimeoutsAreRecovered(g, c, env); }
    else if g.scenario.InsufficientFundsCase? { ShortFundsAreStopped(g, c, env); }
    else { OthersAreEscalated(g, c, env); }
  }
}
