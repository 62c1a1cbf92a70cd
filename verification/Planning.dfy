/** The dunning workflow and the plan it proposes (libs/domain/src/dunning-graph.ts, libs/domain/src/planning.ts). */
module Planning {
  import opened Contracts
  import opened StateMachine
  import opened TimeCompliance
  import opened Diagnosis
  import opened Intervention
  import opened Policy
  import opened Text

  datatype PlanStatus = PolicyApproved | PolicyRejected

  /** plannedAt and the generated link parameter are left out. */
  datatype RecoveryPlan = RecoveryPlan(
    planId: string,
    caseId: string,
    interventionType: InterventionType,
    reasonCodes: seq<ReasonCode>,
    policyVersion: string,
    requiresHumanApproval: bool,
    idempotencyKey: string,
    planStatus: PlanStatus)

  datatype PlanningInput = PlanningInput(
    rc: RecoveryCase,
    event: RevenueEvent,
    policy: MerchantPolicy,
    active: ActiveSummary,
    now: int,
    score: Option<Propensity>,
    planId: string)

  datatype Proposal = Proposal(
    plan: RecoveryPlan,
    diagnosis: DiagnosisResult,
    decision: PolicyDecision,
    resultingState: CaseState)

  /** The key of a plan: four fields joined by underscores. */
  function PlanKey(caseId: string, policyVersion: string, t: InterventionType, attempt: int): string {
    caseId + "_" + policyVersion + "_" + TypeName(t) + "_" + Number(attempt)
  }

  /** Rules of the recommend node that replace the recommendation. */
  function Override(i: PlanningInput, candidates: seq<InterventionType>,
    recommended: InterventionType): InterventionType {
    var cause, reason := CauseOf(i.event), i.event.failureReason;
    if && (reason in {Some(CardExpired), Some(ExpiredCard)} || cause.AuthenticationOrCustomerActionRequired?)
       && PaymentLink in candidates
    then PaymentLink
    else if && (cause.TransientBankOrNetworkFailure? || reason in {Some(BankTimeout), Some(NetworkError)})
            && i.rc.attemptCount < 3
            && PaymentRetry in candidates
    then PaymentRetry
    else recommended
  }

  function Candidates(i: PlanningInput): seq<InterventionType> {
    SelectCandidateInterventions(CauseOf(i.event), i.policy)
  }

  function ScoredDiagnosis(i: PlanningInput): DiagnosisResult {
    Diagnose(i.event, i.policy, i.now).(propensity := i.score)
  }

  function Recommended(i: PlanningInput): InterventionType {
    var candidates := Candidates(i);
    var d := ScoredDiagnosis(i).(candidates := candidates);
    Override(i, candidates, RecommendIntervention(i.rc, d, candidates, i.policy, i.active))
  }

  function FinalDiagnosis(i: PlanningInput): DiagnosisResult {
    ScoredDiagnosis(i).(candidates := Candidates(i), recommended := Recommended(i))
  }

  /** Consent is refused only by an explicit false for the channel of the intervention. */
  function ConsentFor(event: RevenueEvent, t: InterventionType): bool {
    match event.consents
    case None => true
    case Some(c) =>
      match t
      case EmailReminder => c.email != Some(false)
      case SmsReminder => c.sms != Some(false)
      case VoiceReminder => c.voice != Some(false)
      case _ => true
  }

  /** A limit of zero messages counts as three. */
  function MessageLimit(policy: MerchantPolicy): int {
    if policy.maxMessagesPerWindow == 0 then 3 else policy.maxMessagesPerWindow
  }

  predicate ContactLimitReached(i: PlanningInput) {
    || IsOutsideTraiWindow(i.now)
    || (i.event.attemptsToday.Some? && i.event.attemptsToday.value >= MessageLimit(i.policy))
  }

  function PolicyQuestion(i: PlanningInput): PolicyInput {
    PolicyInput(i.rc, FinalDiagnosis(i), Recommended(i), i.policy, i.now,
      Some(ConsentFor(i.event, Recommended(i))), ContactLimitReached(i))
  }

  function Decision(i: PlanningInput): PolicyDecision {
    Verdict(PolicyQuestion(i))
  }

  function PlanOf(i: PlanningInput): RecoveryPlan {
    var d, t := Decision(i), Recommended(i);
    RecoveryPlan(i.planId, i.rc.caseId, t, d.reasonCodes, i.policy.policyVersion, d.requiresHumanApproval,
      PlanKey(i.rc.caseId, i.policy.policyVersion, t, i.rc.attemptCount + 1),
      if d.approved then PolicyApproved else PolicyRejected)
  }

  /** No outcome for a terminal case: the source throws. */
  function ResolvePlanningOutcome(state: CaseState, d: PolicyDecision): Option<CaseState> {
    if IsTerminal(state) then None
    else if d.approved then Some(if d.requiresHumanApproval then Escalated else PolicyChecked)
    else if d.stopCase then Some(Stopped)
    else if d.escalationRequired then Some(Escalated)
    else Some(Retryable)
  }

  predicate MayPlan(state: CaseState) {
    state.Detected? || state.Retryable?
  }

  function Propose(i: PlanningInput): Result<Proposal, CaseState> {
    if MayPlan(i.rc.state)
    then Ok(Proposal(PlanOf(i), FinalDiagnosis(i), Decision(i),
                     ResolvePlanningOutcome(i.rc.state, Decision(i)).value))
    else Err(i.rc.state)
  }

  /** The graph's shared state; every node fills in some of its channels. */
  class DunningState {
    const input: PlanningInput
    var score: Option<Propensity>
    var diagnosis: Option<DiagnosisResult>
    var candidates: seq<InterventionType>
    var recommended: Option<InterventionType>
    var decision: Option<PolicyDecision>
    var plan: Option<RecoveryPlan>

    constructor (input: PlanningInput)
      ensures this.input == input
      ensures diagnosis.None? && recommended.None? && decision.None? && plan.None?
    {
      this.input := input;
      score, diagnosis, candidates, recommended, decision, plan := None, None, [], None, None, None;
    }

    method ScorePropensity()
      modifies this
      ensures score == input.score
    {
      score := input.score;
    }

    method DiagnoseNode()
      requires score == input.score
      modifies this
      ensures diagnosis == Some(ScoredDiagnosis(input))
    {
      var d := DiagnoseRevenueCase(input.event, input.policy, input.now);
      d := d.(propensity := score);
      diagnosis := Some(d);
    }

    method Recommend()
      requires diagnosis == Some(ScoredDiagnosis(input))
      modifies this
      ensures candidates == Candidates(input) && recommended == Some(Recommended(input))
      ensures diagnosis == Some(FinalDiagnosis(input))
    {
      var d := diagnosis.value;
      candidates := SelectCandidateInterventions(d.rootCause, input.policy);
      d := d.(candidates := candidates);
      var choice := RecommendIntervention(input.rc, d, candidates, input.policy, input.active);
      var reason := input.event.failureReason;
      if && (reason == Some(CardExpired) || reason == Some(ExpiredCard)
             || d.rootCause == AuthenticationOrCustomerActionRequired)
         && PaymentLink in candidates
      {
        choice := PaymentLink;
      } else if && (d.rootCause == TransientBankOrNetworkFailure
                    || reason == Some(BankTimeout) || reason == Some(NetworkError))
                && input.rc.attemptCount < 3
                && PaymentRetry in candidates
      {
        choice := PaymentRetry;
      }
      d := d.(recommended := choice);
      diagnosis, recommended := Some(d), Some(choice);
    }

    method EvaluatePolicy()
      requires diagnosis == Some(FinalDiagnosis(input)) && recommended == Some(Recommended(input))
      modifies this`decision
      ensures decision == Some(Decision(input))
    {
      var hasConsent, choice := true, recommended.value;
      if input.event.consents.Some? {
        var consents := input.event.consents.value;
        if choice == EmailReminder && consents.email == Some(false) { hasConsent := false; }
        if choice == SmsReminder && consents.sms == Some(false) { hasConsent := false; }
        if choice == VoiceReminder && consents.voice == Some(false) { hasConsent := false; }
      }
      var limitReached := false;
      if IsOutsideTraiWindow(input.now) {
        limitReached := true;
      }
      if input.event.attemptsToday.Some? {
        var limit := input.policy.maxMessagesPerWindow;
        if limit == 0 { limit := 3; }
        if input.event.attemptsToday.value >= limit { limitReached := true; }
      }
      var question := PolicyInput(input.rc, diagnosis.value, choice, input.policy, input.now,
        Some(hasConsent), limitReached);
      assert question == PolicyQuestion(input);
      var d := EvaluateRecoveryPolicy(question);
      decision := Some(d);
    }

    method CreatePlan()
      requires recommended == Some(Recommended(input)) && decision == Some(Decision(input))
      modifies this`plan
      ensures plan == Some(PlanOf(input))
    {
      var t, d := recommended.value, decision.value;
      var key := PlanKey(input.rc.caseId, input.policy.policyVersion, t, input.rc.attemptCount + 1);
      plan := Some(RecoveryPlan(input.planId, input.rc.caseId, t, d.reasonCodes, input.policy.policyVersion,
        d.requiresHumanApproval, key, if d.approved then PolicyApproved else PolicyRejected));
    }
  }

  /** Guards the case state, runs the nodes in order and resolves the next case state. */
  method ProposeRecoveryPlan(input: PlanningInput) returns (r: Result<Proposal, CaseState>)
    ensures r == Propose(input)
  {
    hide PlanOf, FinalDiagnosis, Decision, Recommended, ScoredDiagnosis, Candidates;
    if input.rc.state != Detected && input.rc.state != Retryable {
      return Err(input.rc.state);
    }
    var s := new DunningState(input);
    s.ScorePropensity();
    s.DiagnoseNode();
    s.Recommend();
    s.EvaluatePolicy();
    s.CreatePlan();
    var outcome := ResolvePlanningOutcome(input.rc.state, s.decision.value);
    r := Ok(Proposal(s.plan.value, s.diagnosis.value, s.decision.value, outcome.value));
  }
}
