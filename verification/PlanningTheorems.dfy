/** What the planning pipeline guarantees as a whole. */
module PlanningTheorems {
  import opened Contracts
  import opened StateMachine
  import opened TimeCompliance
  import opened Diagnosis
  import opened Intervention
  import opened Policy
  import opened Planning

  lemma AutomaticTypesAreFew(cause: RootCause)
    ensures var types := (set t | t in CandidateTable(cause)) - {HumanEscalation, NoAction};
      |types| <= 3 && (cause.Fraud? || cause.UnknownCause? ==> types == {})
  {
    var types := (set t | t in CandidateTable(cause)) - {HumanEscalation, NoAction};
    var first, second, third := CandidateTable(cause)[0], CandidateTable(cause)[1],
      if |CandidateTable(cause)| > 2 then CandidateTable(cause)[2] else NoAction;
    assert types <= {first, second, third};
    assert |{first, second, third}| <= 3;
    assert {first, second, third} == types + ({first, second, third} - types);
  }

  /** The types that can run without a human, by root cause. */
  function AutomaticTypes(cause: RootCause): (types: set<InterventionType>)
    ensures |types| <= 3
    ensures cause.Fraud? || cause.UnknownCause? ==> types == {}
  {
    AutomaticTypesAreFew(cause);
    (set t | t in CandidateTable(cause)) - {HumanEscalation, NoAction}
  }

  /** The recommendation comes from the merchant's share of the table, or is to do nothing. */
  lemma RecommendationComesFromTable(i: PlanningInput)
    ensures Recommended(i) == NoAction ||
      (Recommended(i) in CandidateTable(CauseOf(i.event)) && Recommended(i) in i.policy.allowed)
    ensures !Recommended(i).VoiceReminder?
  {
    assert Recommended(i) == NoAction || Recommended(i) in Candidates(i);
  }

  /** The merchant takes part, in the currency of the case, and the case has attempts left. */
  predicate EarlyGatesOpen(i: PlanningInput) {
    var p := i.policy;
    && p.enabled
    && (p.supportedCurrencies.Some? && p.supportedCurrencies.value != [] ==>
          i.rc.currency in p.supportedCurrencies.value)
    && (p.allowCrossBorder == Some(false) && (p.supportedCurrencies.None? || p.supportedCurrencies.value == []) ==>
          i.rc.currency == "INR")
    && i.rc.attemptCount < p.maxAttemptsPerCase
  }

  /** The customer has not refused the channel of an intervention. */
  predicate NotRefused(i: PlanningInput, t: InterventionType) {
    i.event.consents.Some? ==>
      && (t.EmailReminder? ==> i.event.consents.value.email != Some(false))
      && (t.SmsReminder? ==> i.event.consents.value.sms != Some(false))
      && (t.VoiceReminder? ==> i.event.consents.value.voice != Some(false))
  }

  /** The clock is inside the contact window, and messages are left in it; a limit of zero counts as three. */
  predicate MayContact(i: PlanningInput) {
    && 9 * HOUR_MS <= IstTimeOfDay(i.now) < 20 * HOUR_MS
    && (i.event.attemptsToday.Some? ==>
          i.event.attemptsToday.value < (if i.policy.maxMessagesPerWindow == 0 then 3 else i.policy.maxMessagesPerWindow))
  }

  lemma GatesByInputs(i: PlanningInput, t: InterventionType)
    ensures ContactLimitReached(i) <==> !MayContact(i)
    ensures IsOutsideTraiWindow(i.now) ==> ContactLimitReached(i)
    ensures ConsentFor(i.event, t) <==> NotRefused(i, t)
  {
    WindowInTimeOfDay(i.now);
    hide IsOutsideTraiWindow, IstTimeOfDay;
  }

  /** Everything that must hold for a plan to run unattended, besides the case being plannable. */
  predicate MayRunUnattended(i: PlanningInput) {
    var t, p := Recommended(i), i.policy;
    && EarlyGatesOpen(i)
    && CauseOf(i.event) != Fraud
    && t !in {NoAction, HumanEscalation}
    && ConfidenceOf(i.event) >= p.minimumRecoveryScore
    && (t == PaymentRetry ==> i.rc.amountMinor <= p.maxRetryAmountMinor)
    && NotRefused(i, t)
    && i.rc.amountMinor < p.manualApprovalAboveAmountMinor
    && (IsReminder(t) ==> MayContact(i))
  }

  /** The pipeline ends in PolicyChecked exactly for those plans; only they are approved without a human. */
  lemma UnattendedExactly(i: PlanningInput)
    requires MayPlan(i.rc.state)
    ensures Propose(i).Ok?
    ensures Propose(i).value.resultingState == PolicyChecked <==> MayRunUnattended(i)
    ensures MayRunUnattended(i) <==>
      Propose(i).value.plan.planStatus == PolicyApproved && !Propose(i).value.plan.requiresHumanApproval
  {
    RecommendationComesFromTable(i);
    GatesByInputs(i, Recommended(i));
    hide Recommended, CauseOf, ConsentFor, NotRefused, IsOutsideTraiWindow, ContactLimitReached, MayContact;
  }

  /** Planning never writes any other state, and refuses every other starting state. */
  lemma PlanningOutcomes(i: PlanningInput)
    ensures Propose(i).Ok? <==> i.rc.state in {Detected, Retryable}
    ensures Propose(i).Ok? ==> Propose(i).value.resultingState in {PolicyChecked, Escalated, Stopped, Retryable}
  {}

  lemma SuspectedFraudIsStopped(i: PlanningInput)
    requires MayPlan(i.rc.state) && i.event.failureReason == Some(SuspectedFraud)
    ensures Propose(i).value.resultingState == Stopped
    ensures Propose(i).value.plan.planStatus == PolicyRejected
  {
    assert CauseOf(i.event) == Fraud;
    hide CauseOf, Recommended, ConsentFor, ContactLimitReached, Verdict;
    FraudStops(PolicyQuestion(i));
  }

  lemma FraudStops(q: PolicyInput)
    requires q.diagnosis.rootCause.Fraud? && !IsTerminal(q.rc.state)
    ensures !Verdict(q).approved && Verdict(q).stopCase
  {}

  /** Inside the pipeline the code for a forbidden channel means that nothing could be recommended:
      the second place that emits it, the calling-hours gate, is shadowed by the contact limit. */
  lemma ChannelNotAllowedMeansNoAction(i: PlanningInput)
    requires ChannelNotAllowed in Decision(i).reasonCodes
    ensures Recommended(i) == NoAction && NoAction !in i.policy.allowed
  {
    RecommendationComesFromTable(i);
    hide Recommended, CauseOf, ConsentFor;
  }

  /** A plan that may run unattended uses one of the types its root cause admits: never more than three. */
  lemma UnattendedTypes(i: PlanningInput)
    requires Decision(i).approved && !Decision(i).requiresHumanApproval
    ensures Recommended(i) in AutomaticTypes(CauseOf(i.event))
  {
    RecommendationComesFromTable(i);
  }

  /** Reminders are approved only between 09:00 and 20:00 of the Indian day, with the customer's consent and while
      messages are left in the merchant's window. */
  lemma RemindersRespectTheWindow(i: PlanningInput)
    requires Decision(i).approved && IsReminder(Recommended(i))
    ensures 9 * HOUR_MS <= IstTimeOfDay(i.now) < 20 * HOUR_MS
    ensures i.event.attemptsToday.Some? ==>
      i.event.attemptsToday.value < if i.policy.maxMessagesPerWindow == 0 then 3 else i.policy.maxMessagesPerWindow
    ensures NotRefused(i, Recommended(i))
  {
    GatesByInputs(i, Recommended(i));
    hide Recommended, ConsentFor, NotRefused, ContactLimitReached;
  }

  /** Two inputs that differ in nothing but the score. */
  predicate SameButScore(i: PlanningInput, j: PlanningInput) {
    j == i.(score := j.score)
  }

  lemma ScoreOnlyOrdersReminders(rc: RecoveryCase, d: DiagnosisResult, e: DiagnosisResult,
    candidates: seq<InterventionType>, policy: MerchantPolicy, active: ActiveSummary)
    requires e.rootCause == d.rootCause && e.confidence == d.confidence
    ensures var r, q := RecommendIntervention(rc, d, candidates, policy, active),
                        RecommendIntervention(rc, e, candidates, policy, active);
      r == q || {r, q} == {EmailReminder, SmsReminder}
  {}

  lemma OverrideIgnoresTheScore(i: PlanningInput, j: PlanningInput, c: seq<InterventionType>,
    r: InterventionType, q: InterventionType)
    requires SameButScore(i, j)
    ensures Override(i, c, r) == Override(j, c, r)
    ensures Override(i, c, r) == Override(i, c, q) || (Override(i, c, r) == r && Override(i, c, q) == q)
  {
    hide CauseOf;
  }

  /** The score changes nothing but the order of the two reminders. */
  lemma ScoreOnlyPicksTheReminder(i: PlanningInput, j: PlanningInput)
    requires SameButScore(i, j)
    ensures Recommended(i) == Recommended(j) ||
      {Recommended(i), Recommended(j)} == {EmailReminder, SmsReminder}
  {
    hide RecommendIntervention, Diagnose, CauseOf, SelectCandidateInterventions, Override;
    var c := Candidates(i);
    assert Candidates(j) == c;
    var d, e := ScoredDiagnosis(i).(candidates := c), ScoredDiagnosis(j).(candidates := c);
    ScoreOnlyOrdersReminders(i.rc, d, e, c, i.policy, i.active);
    var r := RecommendIntervention(i.rc, d, c, i.policy, i.active);
    var q := RecommendIntervention(i.rc, e, c, i.policy, i.active);
    OverrideIgnoresTheScore(i, j, c, r, q);
    OverrideIgnoresTheScore(i, j, c, q, r);
    assert Recommended(i) == Override(i, c, r);
    assert Recommended(j) == Override(j, c, q);
  }

  /** A reminder may be exchanged for the other one when both are allowed and no gate tells them apart. */
  lemma VerdictIgnoresTheReminder(a: PolicyInput, b: PolicyInput)
    requires b == a.(diagnosis := b.diagnosis, proposed := b.proposed)
    requires a.diagnosis.rootCause == b.diagnosis.rootCause && a.diagnosis.confidence == b.diagnosis.confidence
    requires a.proposed == b.proposed || (
      && {a.proposed, b.proposed} == {EmailReminder, SmsReminder}
      && a.proposed in a.policy.allowed && b.proposed in a.policy.allowed
      && (IsOutsideTraiWindow(a.now) ==> a.contactLimitReached))
    ensures Verdict(b) == Verdict(a).(approvedIntervention := Verdict(b).approvedIntervention)
    ensures Verdict(a).approvedIntervention.Some? == Verdict(b).approvedIntervention.Some?
  {}

  /** Two runs that differ in the score decide alike when both channels have the same consent. */
  lemma ScoreCannotChangeTheDecision(i: PlanningInput, j: PlanningInput)
    requires SameButScore(i, j)
    requires ConsentFor(i.event, EmailReminder) == ConsentFor(i.event, SmsReminder)
    ensures Decision(j) == Decision(i).(approvedIntervention := Decision(j).approvedIntervention)
    ensures Decision(i).approvedIntervention.Some? == Decision(j).approvedIntervention.Some?
    ensures MayPlan(i.rc.state) ==> Propose(i).value.resultingState == Propose(j).value.resultingState
  {
    ScoreOnlyPicksTheReminder(i, j);
    RecommendationComesFromTable(i);
    RecommendationComesFromTable(j);
    assert PolicyQuestion(i).hasConsent == PolicyQuestion(j).hasConsent;
    VerdictIgnoresTheReminder(PolicyQuestion(i), PolicyQuestion(j));
  }

  predicate Urban(i: PlanningInput) {
    i.score.Some? && i.score.value.urban
  }

  /** Both reminders are open to the recommendation, and it prefers nothing to them. */
  predicate EitherReminder(i: PlanningInput) {
    var cause, p := CauseOf(i.event), i.policy;
    && EmailReminder in p.allowed && SmsReminder in p.allowed
    && !i.active.hasActiveCommunication
    && p.minimumRecoveryScore <= 95
    && (|| cause.CheckoutDropOff?
        || (&& cause.InsufficientFundsLikely?
            && (HumanEscalation in p.allowed ==> i.rc.amountMinor < p.manualApprovalAboveAmountMinor)
            && (PaymentLink in p.allowed ==> i.active.hasActivePaymentLink))
        || (cause.AuthenticationOrCustomerActionRequired? && PaymentLink !in p.allowed))
  }

  lemma CandidatesAre(i: PlanningInput, t: InterventionType)
    requires EmailReminder in i.policy.allowed || SmsReminder in i.policy.allowed
    requires CauseOf(i.event) in {CheckoutDropOff, InsufficientFundsLikely, AuthenticationOrCustomerActionRequired}
    ensures t in Candidates(i) <==> t in CandidateTable(CauseOf(i.event)) && t in i.policy.allowed
    ensures |Candidates(i)| != 1 || Candidates(i) != [NoAction]
  {
    hide CauseOf;
    assert SmsReminder in CandidateTable(CauseOf(i.event)) && EmailReminder in CandidateTable(CauseOf(i.event));
    assert SmsReminder in OnlyAllowed(CandidateTable(CauseOf(i.event)), i.policy.allowed)
      || EmailReminder in OnlyAllowed(CandidateTable(CauseOf(i.event)), i.policy.allowed);
  }

  /** Then the score alone decides between them. */
  lemma ScoreTakesTheReminder(i: PlanningInput)
    requires EitherReminder(i)
    ensures Recommended(i) == if Urban(i) then EmailReminder else SmsReminder
  {
    hide Candidates, CauseOf, RecommendIntervention, Override;
    var c := Candidates(i);
    var d := ScoredDiagnosis(i).(candidates := c);
    CandidatesAre(i, EmailReminder);
    CandidatesAre(i, SmsReminder);
    CandidatesAre(i, HumanEscalation);
    CandidatesAre(i, PaymentLink);
    CandidatesAre(i, PaymentRetry);
    ReminderIsTaken(i.rc, d, c, i.policy, i.active);
    NothingOverrides(i, c, RecommendIntervention(i.rc, d, c, i.policy, i.active));
  }

  lemma ReminderIsTaken(rc: RecoveryCase, d: DiagnosisResult, c: seq<InterventionType>, policy: MerchantPolicy,
    active: ActiveSummary)
    requires EmailReminder in c && SmsReminder in c && PaymentRetry !in c && !active.hasActiveCommunication
    requires d.confidence >= policy.minimumRecoveryScore
    requires rc.amountMinor >= policy.manualApprovalAboveAmountMinor ==> HumanEscalation !in c
    requires PrefersLink(d.rootCause) && PaymentLink in c ==> active.hasActivePaymentLink
    ensures RecommendIntervention(rc, d, c, policy, active) ==
      if d.propensity.Some? && d.propensity.value.urban then EmailReminder else SmsReminder
  {}

  lemma NothingOverrides(i: PlanningInput, c: seq<InterventionType>, r: InterventionType)
    requires PaymentRetry !in c && (PaymentLink in c ==> CauseOf(i.event).InsufficientFundsLikely?)
    ensures Override(i, c, r) == r
  {}

  /** No gate before the one for consent rejects. */
  predicate ReachesConsentGate(q: PolicyInput) {
    && q.policy.enabled && !q.diagnosis.rootCause.Fraud? && !q.CurrencyUnsupported() && !q.CrossBorder()
    && !q.AttemptsExhausted() && !q.TypeNotAllowed() && !q.LowConfidence() && !q.RetryTooLarge()
  }

  /** There a refused consent stops the case; a reminder with consent never ends stopped. */
  lemma ConsentGate(i: PlanningInput)
    requires MayPlan(i.rc.state) && ReachesConsentGate(PolicyQuestion(i))
    ensures !ConsentFor(i.event, Recommended(i)) ==> Propose(i).value.resultingState == Stopped
    ensures ConsentFor(i.event, Recommended(i)) && IsReminder(Recommended(i)) ==>
      Propose(i).value.resultingState != Stopped
  {
    hide Recommended, FinalDiagnosis, ConsentFor, ContactLimitReached;
  }

  /** Before the gate all gates see the two reminders alike. */
  lemma EarlierGatesIgnoreTheReminder(a: PolicyInput, b: PolicyInput)
    requires b == a.(diagnosis := b.diagnosis, proposed := b.proposed, hasConsent := b.hasConsent)
    requires a.diagnosis.rootCause == b.diagnosis.rootCause && a.diagnosis.confidence == b.diagnosis.confidence
    requires {a.proposed, b.proposed} == {EmailReminder, SmsReminder}
    requires a.proposed in a.policy.allowed && b.proposed in a.policy.allowed && !IsTerminal(a.rc.state)
    ensures ReachesConsentGate(a) <==> ReachesConsentGate(b)
    ensures !ReachesConsentGate(a) ==> Verdict(a) == Verdict(b)
  {}

  /** The score changes the resulting state when it exchanges the reminders, their consents differ, and no earlier gate
      decides. */
  lemma ScoreDecidesByReminder(i: PlanningInput, j: PlanningInput)
    requires SameButScore(i, j) && MayPlan(i.rc.state)
    ensures Propose(i).value.resultingState != Propose(j).value.resultingState <==>
      && Recommended(i) != Recommended(j)
      && ConsentFor(i.event, Recommended(i)) != ConsentFor(j.event, Recommended(j))
      && ReachesConsentGate(PolicyQuestion(i))
  {
    ScoreOnlyPicksTheReminder(i, j);
    RecommendationComesFromTable(i);
    RecommendationComesFromTable(j);
    if Recommended(i) == Recommended(j) {
      SameRecommendationSameOutcome(i, j);
    } else if ConsentFor(i.event, Recommended(i)) == ConsentFor(j.event, Recommended(j)) {
      SameConsentSameOutcome(i, j);
    } else {
      OtherReminder(i, j);
      hide Propose, Recommended, PolicyQuestion, ReachesConsentGate, ConsentFor, Verdict;
      if ReachesConsentGate(PolicyQuestion(i)) {
        ConsentGate(i);
        ConsentGate(j);
      }
    }
  }

  /** What a recommended reminder says about the candidates. */
  lemma ReminderComesLast(rc: RecoveryCase, d: DiagnosisResult, c: seq<InterventionType>, policy: MerchantPolicy,
    active: ActiveSummary)
    requires RecommendIntervention(rc, d, c, policy, active) in {EmailReminder, SmsReminder}
    ensures d.confidence >= policy.minimumRecoveryScore && !active.hasActiveCommunication
    ensures rc.amountMinor >= policy.manualApprovalAboveAmountMinor ==> HumanEscalation !in c
    ensures PrefersLink(d.rootCause) && PaymentLink in c ==> active.hasActivePaymentLink
    ensures var urban := d.propensity.Some? && d.propensity.value.urban;
      RecommendReminder(c, urban, false) == Some(RecommendIntervention(rc, d, c, policy, active))
  {}

  lemma OverrideComesLast(i: PlanningInput, c: seq<InterventionType>, r: InterventionType)
    requires Override(i, c, r) in {EmailReminder, SmsReminder}
    ensures r == Override(i, c, r)
    ensures CauseOf(i.event).AuthenticationOrCustomerActionRequired? ==> PaymentLink !in c
  {
    hide CauseOf;
  }

  lemma ReminderCause(i: PlanningInput)
    requires EmailReminder in CandidateTable(CauseOf(i.event)) && SmsReminder in CandidateTable(CauseOf(i.event))
    ensures CauseOf(i.event) in {CheckoutDropOff, InsufficientFundsLikely, AuthenticationOrCustomerActionRequired}
    ensures ConfidenceOf(i.event) == 95
  {
    hide CauseOf;
  }

  lemma ReminderNeedsEither(i: PlanningInput)
    requires Recommended(i) in {EmailReminder, SmsReminder}
    requires EmailReminder in i.policy.allowed && SmsReminder in i.policy.allowed
    requires EmailReminder in CandidateTable(CauseOf(i.event)) && SmsReminder in CandidateTable(CauseOf(i.event))
    ensures EitherReminder(i) && Recommended(i) == if Urban(i) then EmailReminder else SmsReminder
  {
    hide CauseOf, Candidates, RecommendIntervention, Override, ConfidenceOf, RecommendReminder;
    var c := Candidates(i);
    var d := ScoredDiagnosis(i).(candidates := c);
    ReminderCause(i);
    OverrideComesLast(i, c, RecommendIntervention(i.rc, d, c, i.policy, i.active));
    ReminderComesLast(i.rc, d, c, i.policy, i.active);
    CandidatesAre(i, PaymentLink);
    CandidatesAre(i, HumanEscalation);
    EitherIsOpen(i);
    ScoreTakesTheReminder(i);
  }

  lemma EitherIsOpen(i: PlanningInput)
    requires CauseOf(i.event) in {CheckoutDropOff, InsufficientFundsLikely, AuthenticationOrCustomerActionRequired}
    requires EmailReminder in i.policy.allowed && SmsReminder in i.policy.allowed
    requires 95 >= i.policy.minimumRecoveryScore && !i.active.hasActiveCommunication
    requires i.rc.amountMinor >= i.policy.manualApprovalAboveAmountMinor ==>
      !(HumanEscalation in CandidateTable(CauseOf(i.event)) && HumanEscalation in i.policy.allowed)
    requires PrefersLink(CauseOf(i.event)) && PaymentLink in CandidateTable(CauseOf(i.event)) ==>
      PaymentLink !in i.policy.allowed || i.active.hasActivePaymentLink
    requires CauseOf(i.event).AuthenticationOrCustomerActionRequired? ==>
      !(PaymentLink in CandidateTable(CauseOf(i.event)) && PaymentLink in i.policy.allowed)
    ensures EitherReminder(i)
  {
    hide CauseOf;
  }

  /** The score exchanges the recommendation exactly where either reminder is open and the two scores differ in their
      advice on the channel. */
  lemma ScoreExchangesExactly(i: PlanningInput, j: PlanningInput)
    requires SameButScore(i, j)
    ensures Recommended(i) != Recommended(j) <==> EitherReminder(i) && Urban(i) != Urban(j)
  {
    hide Recommended, CauseOf;
    assert EitherReminder(i) == EitherReminder(j);
    hide EitherReminder;
    if EitherReminder(i) {
      ScoreTakesTheReminder(i);
      ScoreTakesTheReminder(j);
    }
    if Recommended(i) != Recommended(j) {
      ScoreOnlyPicksTheReminder(i, j);
      RecommendationComesFromTable(i);
      RecommendationComesFromTable(j);
      ReminderNeedsEither(i);
      ReminderNeedsEither(j);
    }
  }

  /** There the gates before the one for consent depend on the merchant and the case alone. */
  lemma EarlierGatesForReminders(i: PlanningInput)
    requires EitherReminder(i) && MayPlan(i.rc.state) && Recommended(i) in {EmailReminder, SmsReminder}
    ensures ReachesConsentGate(PolicyQuestion(i)) <==> EarlyGatesOpen(i)
  {
    hide Recommended, ConsentFor, ContactLimitReached;
  }

  /** Exactly when the score changes the resulting state, in terms of the inputs: the scores differ in their advice on
      the channel, either reminder is open, just one of them has consent, and no earlier gate decides. */
  lemma ScoreDecidesExactly(i: PlanningInput, j: PlanningInput)
    requires SameButScore(i, j) && MayPlan(i.rc.state)
    ensures Propose(i).value.resultingState != Propose(j).value.resultingState <==>
      && Urban(i) != Urban(j) && EitherReminder(i)
      && ConsentFor(i.event, EmailReminder) != ConsentFor(i.event, SmsReminder)
      && EarlyGatesOpen(i)
  {
    hide Propose, Recommended, PolicyQuestion, ReachesConsentGate, ConsentFor, EitherReminder, EarlyGatesOpen;
    ScoreDecidesByReminder(i, j);
    ScoreExchangesExactly(i, j);
    if EitherReminder(i) && Urban(i) != Urban(j) {
      ScoreOnlyPicksTheReminder(i, j);
      EarlierGatesForReminders(i);
    }
  }

  lemma SameRecommendationSameOutcome(i: PlanningInput, j: PlanningInput)
    requires SameButScore(i, j) && MayPlan(i.rc.state) && Recommended(i) == Recommended(j)
    ensures Propose(i).value.resultingState == Propose(j).value.resultingState
  {
    hide Recommended, ConsentFor;
    VerdictIgnoresTheReminder(PolicyQuestion(i), PolicyQuestion(j));
    hide Verdict;
  }

  lemma SameConsentSameOutcome(i: PlanningInput, j: PlanningInput)
    requires SameButScore(i, j) && MayPlan(i.rc.state)
    requires ConsentFor(i.event, Recommended(i)) == ConsentFor(j.event, Recommended(j))
    requires {Recommended(i), Recommended(j)} == {EmailReminder, SmsReminder}
    requires Recommended(i) in i.policy.allowed && Recommended(j) in i.policy.allowed
    ensures Propose(i).value.resultingState == Propose(j).value.resultingState
  {
    hide Recommended, ConsentFor;
    VerdictIgnoresTheReminder(PolicyQuestion(i), PolicyQuestion(j));
    hide Verdict;
  }

  lemma OtherReminder(i: PlanningInput, j: PlanningInput)
    requires SameButScore(i, j) && MayPlan(i.rc.state)
    requires {Recommended(i), Recommended(j)} == {EmailReminder, SmsReminder}
    requires Recommended(i) in i.policy.allowed && Recommended(j) in i.policy.allowed
    ensures ReachesConsentGate(PolicyQuestion(i)) <==> ReachesConsentGate(PolicyQuestion(j))
    ensures !ReachesConsentGate(PolicyQuestion(i)) ==> Propose(i).value.resultingState == Propose(j).value.resultingState
  {
    hide Recommended, ConsentFor, ReachesConsentGate;
    EarlierGatesIgnoreTheReminder(PolicyQuestion(i), PolicyQuestion(j));
    hide Verdict;
  }

  /** An abandoned checkout at noon of a customer who takes emails but no text messages. */
  function EmailOnlyDropOff(score: Option<Propensity>): PlanningInput {
    var noon := 12 * HOUR_MS - IST_OFFSET_MS;
    PlanningInput(
      RecoveryCase("c", "e", "m", "u", 1000, "INR", Detected, 0, 1),
      RevenueEvent("e", CheckoutAbandoned, None, 1000, "INR", noon, Some(Consents(Some(true), Some(false), None)), None),
      MerchantPolicy("v", true, [SmsReminder, EmailReminder], 3, 5000, 50, 9000, 3, 24, 24, None, None),
      ActiveSummary(false, false, false), noon, score, "p")
  }

  lemma EmailIsPlanned(score: Propensity)
    requires score.urban
    ensures Propose(EmailOnlyDropOff(Some(score))).value.resultingState == PolicyChecked
  {
    hide Recommended, Propose, Verdict;
    ScoreTakesTheReminder(EmailOnlyDropOff(Some(score)));
    UnattendedExactly(EmailOnlyDropOff(Some(score)));
  }

  lemma TextMessageIsStopped()
    ensures Propose(EmailOnlyDropOff(None)).value.resultingState == Stopped
  {
    hide Propose, Verdict;
    ScoreTakesTheReminder(EmailOnlyDropOff(None));
    hide Recommended;
    EarlierGatesForReminders(EmailOnlyDropOff(None));
    hide PolicyQuestion, ReachesConsentGate;
    ConsentGate(EmailOnlyDropOff(None));
  }

  /** Without that condition the score can decide: one channel is refused, the other is not. */
  lemma ScoreDecidesWhenConsentsDiffer(score: Propensity)
    requires score.urban
    ensures var i, j := EmailOnlyDropOff(Some(score)), EmailOnlyDropOff(None);
      && SameButScore(i, j) && MayPlan(i.rc.state)
      && Propose(i).value.resultingState == PolicyChecked && Propose(j).value.resultingState == Stopped
  {
    EmailIsPlanned(score);
    TextMessageIsStopped();
    hide Propose;
  }

  /** What the worker asks before it executes a stored plan: no consent flag, no contact limit. */
  function Reevaluation(j: PlanningInput, planned: InterventionType, now: int): PolicyInput {
    var asNew := j.(rc := j.rc.(state := Detected));
    PolicyInput(asNew.rc, FinalDiagnosis(asNew), planned, j.policy, now, None, false)
  }
}
