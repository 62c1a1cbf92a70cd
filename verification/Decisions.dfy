/** What the planning pipeline decides, spelled out in its inputs: the diagnosis by event, the recommendation by event
    and policy, the verdict as a table of gates, and the state a case ends in. */
module Decisions {
  import opened Contracts
  import opened StateMachine
  import opened TimeCompliance
  import opened Diagnosis
  import opened Intervention
  import opened Policy
  import opened Planning
  import opened PlanningTheorems
  import opened Text

  // ---- diagnosis ----

  /** The cause of a failed payment that is not suspected fraud. */
  function CauseOfFailure(reason: Option<FailureReason>): RootCause {
    if reason in {Some(BankTimeout), Some(NetworkError)} then TransientBankOrNetworkFailure
    else if reason == Some(InsufficientFunds) then InsufficientFundsLikely
    else if reason == Some(AuthenticationRequired) then AuthenticationOrCustomerActionRequired
    else UnknownCause
  }

  /** Suspected fraud is fraud whatever the event; otherwise only failed payments are told apart by their reason, and
      only failed subscriptions and unexplained events lower the confidence. An event is stale exactly if it is older
      than the merchant's limit. */
  lemma DiagnosisByEvent(event: RevenueEvent, policy: MerchantPolicy, now: int)
    ensures var d, fraud := Diagnose(event, policy, now), event.failureReason == Some(SuspectedFraud);
      && (d.rootCause.Fraud? <==> fraud)
      && (!fraud && event.eventType.PaymentFailed? ==> d.rootCause == CauseOfFailure(event.failureReason))
      && (!fraud ==>
            && (d.rootCause.MandateOrSubscriptionIssue? <==> event.eventType.SubscriptionFailed?)
            && (d.rootCause.CheckoutDropOff? <==> event.eventType.CheckoutAbandoned?)
            && (d.rootCause.InvoiceCollectionDelay? <==> event.eventType.InvoiceOverdue?))
      && d.confidence == (if fraud then 0
           else if event.eventType.PaymentFailed? && d.rootCause.UnknownCause? then 75
           else if event.eventType.SubscriptionFailed? && event.failureReason != Some(MandateFailed) then 75
           else if d.rootCause.UnknownCause? then 40
           else 95)
      && (EventTooStale in d.reasonCodes <==> now - event.occurredAt > policy.staleEventLimitHours * HOUR_MS)
      && (FraudDetected in d.reasonCodes <==> fraud)
      && (FailureReasonTransient in d.reasonCodes <==> d.rootCause.TransientBankOrNetworkFailure?)
      && (FailureReasonInsufficientFunds in d.reasonCodes <==> d.rootCause.InsufficientFundsLikely?)
      && (FailureReasonAuthRequired in d.reasonCodes <==> d.rootCause.AuthenticationOrCustomerActionRequired?)
      && (CheckoutAbandonedReason in d.reasonCodes <==> d.rootCause.CheckoutDropOff?)
      && (InvoiceOverdueReason in d.reasonCodes <==> d.rootCause.InvoiceCollectionDelay?)
      && (FailureReasonMandate in d.reasonCodes <==>
            d.rootCause.MandateOrSubscriptionIssue? && event.failureReason == Some(MandateFailed))
  {}

  // ---- recommendation ----

  function ToHuman(i: PlanningInput): InterventionType {
    if HumanEscalation in i.policy.allowed then HumanEscalation else NoAction
  }

  /** A human decides by amount, if humans are allowed. */
  predicate TooLarge(i: PlanningInput) {
    i.rc.amountMinor >= i.policy.manualApprovalAboveAmountMinor && HumanEscalation in i.policy.allowed
  }

  /** A reminder by email or text message: the one the score favours, if it is allowed. */
  function Reminder(i: PlanningInput, otherwise: InterventionType): InterventionType {
    var email, sms := EmailReminder in i.policy.allowed, SmsReminder in i.policy.allowed;
    if i.active.hasActiveCommunication || (!email && !sms) then otherwise
    else if email && (Urban(i) || !sms) then EmailReminder
    else SmsReminder
  }

  function EmailOr(i: PlanningInput, otherwise: InterventionType): InterventionType {
    if EmailReminder in i.policy.allowed && !i.active.hasActiveCommunication then EmailReminder else otherwise
  }

  function LinkOr(i: PlanningInput, otherwise: InterventionType): InterventionType {
    if PaymentLink in i.policy.allowed && !i.active.hasActivePaymentLink then PaymentLink else otherwise
  }

  /** For a bank or network failure: the first three attempts are retries, whatever the rules say that bound the rest. */
  function ForTransient(i: PlanningInput): InterventionType {
    var p := i.policy;
    if PaymentRetry in p.allowed
       && (i.rc.attemptCount < 3 ||
           (p.minimumRecoveryScore <= 95 && !TooLarge(i) && i.rc.amountMinor <= p.maxRetryAmountMinor
            && i.rc.attemptCount < p.maxAttemptsPerCase && !i.active.hasActivePaymentRetry))
    then PaymentRetry else ToHuman(i)
  }

  function ForSubscription(i: PlanningInput): InterventionType {
    var p, confidence := i.policy, if i.event.failureReason == Some(MandateFailed) then 95 else 75;
    if i.event.failureReason in {Some(CardExpired), Some(ExpiredCard)} && PaymentLink in p.allowed then PaymentLink
    else if confidence < p.minimumRecoveryScore || TooLarge(i) then ToHuman(i)
    else LinkOr(i, EmailOr(i, ToHuman(i)))
  }

  /** The recommendation, event by event. */
  function Prescribed(i: PlanningInput): InterventionType {
    var p, reason := i.policy, i.event.failureReason;
    var unsure := 95 < p.minimumRecoveryScore;
    if reason == Some(SuspectedFraud) then ToHuman(i)
    else match i.event.eventType
      case PaymentFailed =>
        if reason in {Some(BankTimeout), Some(NetworkError)} then ForTransient(i)
        else if reason == Some(InsufficientFunds) then
          if unsure || TooLarge(i) then ToHuman(i) else LinkOr(i, Reminder(i, ToHuman(i)))
        else if reason == Some(AuthenticationRequired) then
          if PaymentLink in p.allowed then PaymentLink
          else if unsure then NoAction
          else Reminder(i, NoAction)
        else ToHuman(i)
      case SubscriptionFailed => ForSubscription(i)
      case CheckoutAbandoned => if unsure then NoAction else Reminder(i, NoAction)
      case InvoiceOverdue => if unsure || TooLarge(i) then ToHuman(i) else EmailOr(i, ToHuman(i))
      case _ => ToHuman(i)
  }

  /** The candidates are what the policy allows of the table, or to do nothing. */
  lemma CandidatesByPolicy(i: PlanningInput)
    ensures forall t :: t in Candidates(i) ==>
      (t in CandidateTable(CauseOf(i.event)) && t in i.policy.allowed) || t.NoAction?
    ensures forall t :: t in CandidateTable(CauseOf(i.event)) && t in i.policy.allowed ==> t in Candidates(i)
    ensures NoAction in Candidates(i) && |Candidates(i)| == 1 ==> Candidates(i) == [NoAction]
  {
    hide CauseOf, CandidateTable;
    var kept := OnlyAllowed(CandidateTable(CauseOf(i.event)), i.policy.allowed);
    assert forall t :: t in kept <==> t in CandidateTable(CauseOf(i.event)) && t in i.policy.allowed;
  }

  /** The rules of the recommendation by the candidates alone: lists play no part. */
  lemma RecommendedAre(i: PlanningInput, cause: RootCause, confidence: int)
    requires cause == CauseOf(i.event) && confidence == ConfidenceOf(i.event)
    ensures var c, p := Candidates(i), i.policy;
      var human := if HumanEscalation in c then HumanEscalation else NoAction;
      var large := i.rc.amountMinor >= p.manualApprovalAboveAmountMinor && HumanEscalation in c;
      var d := ScoredDiagnosis(i).(candidates := c);
      RecommendIntervention(i.rc, d, c, p, i.active) ==
        if confidence < p.minimumRecoveryScore || large then human
        else if && PaymentRetry in c && cause.TransientBankOrNetworkFailure?
                && i.rc.amountMinor <= p.maxRetryAmountMinor && i.rc.attemptCount < p.maxAttemptsPerCase
                && !i.active.hasActivePaymentRetry then PaymentRetry
        else if PaymentLink in c && PrefersLink(cause) && !i.active.hasActivePaymentLink then PaymentLink
        else match RecommendReminder(c, Urban(i), i.active.hasActiveCommunication)
          case Some(t) => t
          case None => human
  {
    CandidatesByPolicy(i);
    hide Candidates, CauseOf, ConfidenceOf, CandidateTable;
  }

  /** What the cause says about the event. */
  lemma CauseIsOf(i: PlanningInput)
    ensures var e, reason, cause := i.event, i.event.failureReason, CauseOf(i.event);
      && (cause.TransientBankOrNetworkFailure? ==>
            e.eventType.PaymentFailed? && reason in {Some(BankTimeout), Some(NetworkError)} && ConfidenceOf(e) == 95)
      && (cause.InsufficientFundsLikely? ==>
            e.eventType.PaymentFailed? && reason == Some(InsufficientFunds) && ConfidenceOf(e) == 95)
      && (cause.AuthenticationOrCustomerActionRequired? ==>
            e.eventType.PaymentFailed? && reason == Some(AuthenticationRequired) && ConfidenceOf(e) == 95)
      && (cause.MandateOrSubscriptionIssue? ==>
            e.eventType.SubscriptionFailed? && reason != Some(SuspectedFraud)
            && ConfidenceOf(e) == if reason == Some(MandateFailed) then 95 else 75)
      && (cause.CheckoutDropOff? ==>
            e.eventType.CheckoutAbandoned? && reason != Some(SuspectedFraud) && ConfidenceOf(e) == 95)
      && (cause.InvoiceCollectionDelay? ==>
            e.eventType.InvoiceOverdue? && reason != Some(SuspectedFraud) && ConfidenceOf(e) == 95)
      && (cause.Fraud? <==> reason == Some(SuspectedFraud))
      && (cause.UnknownCause? ==>
            && reason != Some(SuspectedFraud)
            && e.eventType in {PaymentFailed, PaymentRecovered, PaymentStatusUpdated, OtherEvent}
            && (e.eventType.PaymentFailed? ==> CauseOfFailure(reason).UnknownCause?))
  {}

  /** What the overriding rules do, cause by cause. */
  lemma OverridesAre(i: PlanningInput, c: seq<InterventionType>, r: InterventionType)
    requires PaymentRetry in c ==> CauseOf(i.event).TransientBankOrNetworkFailure?
    ensures var cause, reason := CauseOf(i.event), i.event.failureReason;
      Override(i, c, r) ==
        if cause.TransientBankOrNetworkFailure? then
          if i.rc.attemptCount < 3 && PaymentRetry in c then PaymentRetry else r
        else if PaymentLink in c && (cause.AuthenticationOrCustomerActionRequired? ||
                                     reason in {Some(CardExpired), Some(ExpiredCard)}) then PaymentLink
        else r
  {
    CauseIsOf(i);
    hide CauseOf, ConfidenceOf;
  }

  /** What the rule for reminders answers, by what the policy allows. */
  lemma ReminderBy(i: PlanningInput, c: seq<InterventionType>, otherwise: InterventionType)
    requires EmailReminder in c ==> EmailReminder in i.policy.allowed
    requires SmsReminder in c ==> SmsReminder in i.policy.allowed
    ensures var email, sms := EmailReminder in i.policy.allowed, SmsReminder in i.policy.allowed;
      var r := RecommendReminder(c, Urban(i), i.active.hasActiveCommunication);
      && (EmailReminder !in c && SmsReminder !in c ==> r.None?)
      && ((email ==> EmailReminder in c) && (sms ==> SmsReminder in c) ==>
            (if r.Some? then r.value else otherwise) == Reminder(i, otherwise))
      && ((email ==> EmailReminder in c) && SmsReminder !in c ==>
            (if r.Some? then r.value else otherwise) == EmailOr(i, otherwise))
  {}

  lemma TransientByEvent(i: PlanningInput)
    requires CauseOf(i.event).TransientBankOrNetworkFailure?
    ensures Recommended(i) == ForTransient(i)
  {
    CandidatesByPolicy(i);
    RecommendedAre(i, CauseOf(i.event), ConfidenceOf(i.event));
    assert CandidateTable(CauseOf(i.event)) == [PaymentRetry, PaymentLink, HumanEscalation];
    CauseIsOf(i);
    var c := Candidates(i);
    ReminderBy(i, c, ToHuman(i));
    OverridesAre(i, c, RecommendIntervention(i.rc, ScoredDiagnosis(i).(candidates := c), c, i.policy, i.active));
    hide Override, RecommendReminder, Reminder, EmailOr, Candidates, RecommendIntervention, CandidateTable, CauseOf, ConfidenceOf;
  }

  lemma SubscriptionByEvent(i: PlanningInput)
    requires CauseOf(i.event).MandateOrSubscriptionIssue?
    ensures Recommended(i) == ForSubscription(i)
  {
    CandidatesByPolicy(i);
    RecommendedAre(i, CauseOf(i.event), ConfidenceOf(i.event));
    assert CandidateTable(CauseOf(i.event)) == [PaymentLink, EmailReminder, HumanEscalation];
    CauseIsOf(i);
    var c := Candidates(i);
    ReminderBy(i, c, ToHuman(i));
    OverridesAre(i, c, RecommendIntervention(i.rc, ScoredDiagnosis(i).(candidates := c), c, i.policy, i.active));
    hide Override, RecommendReminder, Reminder, EmailOr, Candidates, RecommendIntervention, CandidateTable, CauseOf, ConfidenceOf;
  }

  lemma InsufficientByEvent(i: PlanningInput)
    requires CauseOf(i.event).InsufficientFundsLikely?
    ensures Recommended(i) == Prescribed(i)
  {
    CandidatesByPolicy(i);
    RecommendedAre(i, CauseOf(i.event), ConfidenceOf(i.event));
    assert CandidateTable(CauseOf(i.event)) == [PaymentLink, SmsReminder, EmailReminder, HumanEscalation];
    CauseIsOf(i);
    var c := Candidates(i);
    ReminderBy(i, c, ToHuman(i));
    OverridesAre(i, c, RecommendIntervention(i.rc, ScoredDiagnosis(i).(candidates := c), c, i.policy, i.active));
    hide Override, RecommendReminder, Reminder, EmailOr, Candidates, RecommendIntervention, CandidateTable, CauseOf, ConfidenceOf;
  }

  lemma AuthenticationByEvent(i: PlanningInput)
    requires CauseOf(i.event).AuthenticationOrCustomerActionRequired?
    ensures Recommended(i) == Prescribed(i)
  {
    CandidatesByPolicy(i);
    RecommendedAre(i, CauseOf(i.event), ConfidenceOf(i.event));
    assert CandidateTable(CauseOf(i.event)) == [PaymentLink, SmsReminder, EmailReminder];
    CauseIsOf(i);
    var c := Candidates(i);
    ReminderBy(i, c, NoAction);
    OverridesAre(i, c, RecommendIntervention(i.rc, ScoredDiagnosis(i).(candidates := c), c, i.policy, i.active));
    hide Override, RecommendReminder, Reminder, EmailOr, Candidates, RecommendIntervention, CandidateTable, CauseOf, ConfidenceOf;
  }

  lemma DropOffByEvent(i: PlanningInput)
    requires CauseOf(i.event).CheckoutDropOff?
    ensures Recommended(i) == Prescribed(i)
  {
    CandidatesByPolicy(i);
    RecommendedAre(i, CauseOf(i.event), ConfidenceOf(i.event));
    assert CandidateTable(CauseOf(i.event)) == [SmsReminder, EmailReminder, NoAction];
    CauseIsOf(i);
    var c := Candidates(i);
    ReminderBy(i, c, NoAction);
    OverridesAre(i, c, RecommendIntervention(i.rc, ScoredDiagnosis(i).(candidates := c), c, i.policy, i.active));
    hide Override, RecommendReminder, Reminder, EmailOr, Candidates, RecommendIntervention, CandidateTable, CauseOf, ConfidenceOf;
  }

  lemma InvoiceByEvent(i: PlanningInput)
    requires CauseOf(i.event).InvoiceCollectionDelay?
    ensures Recommended(i) == Prescribed(i)
  {
    CandidatesByPolicy(i);
    RecommendedAre(i, CauseOf(i.event), ConfidenceOf(i.event));
    assert CandidateTable(CauseOf(i.event)) == [EmailReminder, HumanEscalation];
    CauseIsOf(i);
    var c := Candidates(i);
    ReminderBy(i, c, ToHuman(i));
    OverridesAre(i, c, RecommendIntervention(i.rc, ScoredDiagnosis(i).(candidates := c), c, i.policy, i.active));
    hide Override, RecommendReminder, Reminder, EmailOr, Candidates, RecommendIntervention, CandidateTable, CauseOf, ConfidenceOf;
  }

  lemma HumanByEvent(i: PlanningInput)
    requires CauseOf(i.event) in {Fraud, UnknownCause}
    ensures Recommended(i) == ToHuman(i)
  {
    CandidatesByPolicy(i);
    RecommendedAre(i, CauseOf(i.event), ConfidenceOf(i.event));
    assert CandidateTable(CauseOf(i.event)) == [HumanEscalation, NoAction];
    CauseIsOf(i);
    var c := Candidates(i);
    OverridesAre(i, c, RecommendIntervention(i.rc, ScoredDiagnosis(i).(candidates := c), c, i.policy, i.active));
    hide Override, Candidates, RecommendIntervention, CandidateTable, CauseOf, ConfidenceOf;
  }

  lemma HumanIsPrescribed(i: PlanningInput)
    requires CauseOf(i.event) in {Fraud, UnknownCause}
    ensures Prescribed(i) == ToHuman(i)
  {
    CauseIsOf(i);
    hide CauseOf, ToHuman;
  }

  /** What the pipeline recommends is what is prescribed for the event. */
  lemma RecommendationByEvent(i: PlanningInput)
    ensures Recommended(i) == Prescribed(i)
  {
    hide Recommended, ForTransient, ForSubscription, ToHuman, LinkOr, EmailOr, Reminder, TooLarge;
    match CauseOf(i.event)
    case TransientBankOrNetworkFailure => TransientByEvent(i);
    case MandateOrSubscriptionIssue => SubscriptionByEvent(i);
    case InsufficientFundsLikely => InsufficientByEvent(i);
    case AuthenticationOrCustomerActionRequired => AuthenticationByEvent(i);
    case CheckoutDropOff => DropOffByEvent(i);
    case InvoiceCollectionDelay => InvoiceByEvent(i);
    case _ =>
      HumanByEvent(i);
      HumanIsPrescribed(i);
  }

  // ---- the verdict ----

  /** One row of the decision table: when the gate is closed, and what the rejection then says. */
  datatype Gate = Gate(closed: bool, codes: seq<ReasonCode>, human: bool, stop: bool, escalate: bool, wait: Option<int>)

  /** The gates in their order. Only a low confidence, a used-up contact window and the calling hours leave the case
      open: the first goes to a human, the other two wait. */
  function Gates(q: PolicyInput): seq<Gate> {
    var p, t, currency := q.policy, q.proposed, q.rc.currency;
    var listed := if p.supportedCurrencies.Some? then p.supportedCurrencies.value else [];
    var manual := if q.rc.amountMinor >= p.manualApprovalAboveAmountMinor then [HumanApprovalRequired] else [];
    [Gate(q.rc.state in {Recovered, Failed, Stopped, Expired, Rejected}, [TerminalCase], false, true, false, None),
     Gate(!p.enabled, [MerchantPolicyExcluded], false, true, false, None),
     Gate(q.diagnosis.rootCause == Fraud, [FraudDetected], false, true, false, None),
     Gate(listed != [] && currency !in listed, [CurrencyNotSupported], true, true, true, None),
     Gate(listed == [] && p.allowCrossBorder == Some(false) && currency != "INR", [CrossBorderRestricted], true, true,
          true, None),
     Gate(q.rc.attemptCount >= p.maxAttemptsPerCase, [AttemptLimitReached], false, true, false, None),
     Gate(t !in p.allowed, [ChannelNotAllowed], false, true, false, None),
     Gate(q.diagnosis.confidence < p.minimumRecoveryScore && t !in {HumanEscalation, NoAction},
          [LowConfidenceEscalation], true, false, true, None),
     Gate(t == PaymentRetry && q.rc.amountMinor > p.maxRetryAmountMinor, [RetryAmountLimitExceeded], false, true, true,
          None),
     Gate(q.hasConsent == Some(false), [ReasonCode.ConsentMissing], true, true, true, None),
     Gate(q.contactLimitReached && t in {EmailReminder, SmsReminder, VoiceReminder}, [AttemptLimitReached], false, false,
          false, Some(q.now + p.messageWindowHours * 3_600_000)),
     Gate(t in {VoiceReminder, SmsReminder} && !(9 * HOUR_MS <= IstTimeOfDay(q.now) < 20 * HOUR_MS),
          manual + [ChannelNotAllowed], false, false, false, Some(q.now + 43_200_000)),
     Gate(t == NoAction, manual + [NoSafeIntervention], false, true, false, None)]
  }

  lemma CurrencyGates(q: PolicyInput)
    ensures Gates(q)[3].closed <==> q.CurrencyUnsupported()
    ensures !Gates(q)[3].closed ==> (Gates(q)[4].closed <==> q.CrossBorder())
  {
    hide IstTimeOfDay;
  }

  lemma OtherGates(q: PolicyInput)
    ensures var g := Gates(q);
      && |g| == 13
      && (g[0].closed <==> IsTerminal(q.rc.state)) && (g[1].closed <==> !q.policy.enabled)
      && (g[2].closed <==> q.diagnosis.rootCause.Fraud?) && (g[5].closed <==> q.AttemptsExhausted())
      && (g[6].closed <==> q.TypeNotAllowed()) && (g[7].closed <==> q.LowConfidence())
      && (g[8].closed <==> q.RetryTooLarge()) && (g[9].closed <==> q.ConsentMissing())
  {
    hide IstTimeOfDay;
  }

  lemma LastGates(q: PolicyInput)
    ensures var g := Gates(q);
      && |g| == 13
      && (g[10].closed <==> q.ReminderLimited()) && (g[11].closed <==> q.CallingHoursClosed())
      && (g[12].closed <==> q.proposed.NoAction?)
  {
    WindowInTimeOfDay(q.now);
    hide IsOutsideTraiWindow, IstTimeOfDay;
  }

  /** The objections of the policy, gate by gate. */
  lemma GatesAreObjections(q: PolicyInput)
    ensures var g := Gates(q);
      && |g| == 13
      && (g[0].closed <==> IsTerminal(q.rc.state)) && (g[1].closed <==> !q.policy.enabled)
      && (g[2].closed <==> q.diagnosis.rootCause.Fraud?) && (g[3].closed <==> q.CurrencyUnsupported())
      && (!g[3].closed ==> (g[4].closed <==> q.CrossBorder())) && (g[5].closed <==> q.AttemptsExhausted())
      && (g[6].closed <==> q.TypeNotAllowed()) && (g[7].closed <==> q.LowConfidence())
      && (g[8].closed <==> q.RetryTooLarge()) && (g[9].closed <==> q.ConsentMissing())
      && (g[10].closed <==> q.ReminderLimited()) && (g[11].closed <==> q.CallingHoursClosed())
      && (g[12].closed <==> q.proposed.NoAction?)
  {
    hide Gates;
    OtherGates(q);
    CurrencyGates(q);
    LastGates(q);
  }

  lemma FirstClosedGate(q: PolicyInput, k: nat)
    requires k < |Gates(q)| && Gates(q)[k].closed && forall j | 0 <= j < k :: !Gates(q)[j].closed
    ensures var g := Gates(q)[k];
      Verdict(q) == PolicyDecision(false, g.codes, g.human, g.stop, g.escalate, g.wait, None)
  {
    GatesAreObjections(q);
    hide IsOutsideTraiWindow, IstTimeOfDay;
  }

  lemma AllGatesOpen(q: PolicyInput)
    requires forall k | 0 <= k < |Gates(q)| :: !Gates(q)[k].closed
    ensures var large := q.rc.amountMinor >= q.policy.manualApprovalAboveAmountMinor;
      Verdict(q) == PolicyDecision(true, if large then [HumanApprovalRequired] else [],
        large || q.proposed == HumanEscalation, false, q.proposed == HumanEscalation, None, Some(q.proposed))
  {
    GatesAreObjections(q);
    hide Gates, IsOutsideTraiWindow, IstTimeOfDay;
  }

  /** A verdict is the row of the first closed gate; a proposal that meets none is approved, with a human for large
      amounts and escalations. */
  lemma VerdictByTable(q: PolicyInput)
    ensures forall k | 0 <= k < |Gates(q)| && Gates(q)[k].closed && (forall j | 0 <= j < k :: !Gates(q)[j].closed) ::
      var g := Gates(q)[k];
      Verdict(q) == PolicyDecision(false, g.codes, g.human, g.stop, g.escalate, g.wait, None)
    ensures (forall k | 0 <= k < |Gates(q)| :: !Gates(q)[k].closed) ==>
      var large := q.rc.amountMinor >= q.policy.manualApprovalAboveAmountMinor;
      Verdict(q) == PolicyDecision(true, if large then [HumanApprovalRequired] else [],
        large || q.proposed == HumanEscalation, false, q.proposed == HumanEscalation, None, Some(q.proposed))
  {
    hide Gates, Verdict;
    var g := Gates(q);
    forall k | 0 <= k < |g| && g[k].closed && (forall j | 0 <= j < k :: !g[j].closed)
      ensures Verdict(q) == PolicyDecision(false, g[k].codes, g[k].human, g[k].stop, g[k].escalate, g[k].wait, None)
    {
      FirstClosedGate(q, k);
    }
    if forall k | 0 <= k < |g| :: !g[k].closed { AllGatesOpen(q); }
  }

  // ---- where a case ends ----

  /** The gates that neither type nor amount can open again. */
  predicate TakesPart(i: PlanningInput) {
    EarlyGatesOpen(i) && i.event.failureReason != Some(SuspectedFraud)
  }

  predicate Unsure(i: PlanningInput) {
    ConfidenceOf(i.event) < i.policy.minimumRecoveryScore
  }

  /** A human decides: about an escalation, about a type whose diagnosis is too uncertain, and about every large amount
      that nothing else rejects. */
  predicate NeedsHuman(i: PlanningInput, t: InterventionType) {
    || t.HumanEscalation?
    || (t in {PaymentRetry, PaymentLink} && Unsure(i))
    || (&& i.rc.amountMinor >= i.policy.manualApprovalAboveAmountMinor
        && match t
           case PaymentRetry => i.rc.amountMinor <= i.policy.maxRetryAmountMinor
           case PaymentLink => true
           case NoAction => false
           case _ => NotRefused(i, t) && MayContact(i))
  }

  /** Only a reminder that may not be sent now waits. */
  lemma WaitsExactly(i: PlanningInput)
    requires MayPlan(i.rc.state)
    ensures Propose(i).value.resultingState.Retryable? <==>
      TakesPart(i) && IsReminder(Recommended(i)) && NotRefused(i, Recommended(i)) && !MayContact(i)
  {
    RecommendationComesFromTable(i);
    RemindersAreSure(i);
    CauseIsOf(i);
    GatesByInputs(i, Recommended(i));
    hide Recommended, CauseOf, ConfidenceOf, ConsentFor, NotRefused, ContactLimitReached, MayContact, NeedsHuman;
  }

  lemma PlansTheRecommended(i: PlanningInput)
    requires MayPlan(i.rc.state)
    ensures Propose(i).Ok? && Propose(i).value.plan.interventionType == Recommended(i)
  {
    hide Recommended, Decision;
  }

  lemma EscalatesExactly(i: PlanningInput)
    requires MayPlan(i.rc.state)
    ensures Propose(i).value.resultingState.Escalated? <==> TakesPart(i) && NeedsHuman(i, Recommended(i))
  {
    RecommendationComesFromTable(i);
    RemindersAreSure(i);
    CauseIsOf(i);
    GatesByInputs(i, Recommended(i));
    hide Recommended, CauseOf, ConfidenceOf, ConsentFor, ContactLimitReached, MayContact;
  }

  /** The state a plannable case ends in, by its inputs: a reminder that may not be sent now waits as RETRYABLE, what
      needs a human is ESCALATED, what may run unattended is POLICY_CHECKED, and everything else is STOPPED. */
  lemma OutcomeExactly(i: PlanningInput)
    requires MayPlan(i.rc.state)
    ensures var p, t := Propose(i).value, Prescribed(i);
      && p.plan.interventionType == t
      && (p.resultingState.Retryable? <==> TakesPart(i) && IsReminder(t) && NotRefused(i, t) && !MayContact(i))
      && (p.resultingState.Escalated? <==> TakesPart(i) && NeedsHuman(i, t))
      && (p.resultingState.PolicyChecked? <==> MayRunUnattended(i))
      && p.resultingState in {Retryable, Escalated, PolicyChecked, Stopped}
  {
    hide Propose, Recommended, Prescribed, NotRefused, MayContact, NeedsHuman, TakesPart, MayRunUnattended;
    PlansTheRecommended(i);
    RecommendationByEvent(i);
    WaitsExactly(i);
    EscalatesExactly(i);
    UnattendedExactly(i);
    PlanningOutcomes(i);
  }

  /** A reminder is never recommended with too little confidence. */
  lemma RemindersAreSure(i: PlanningInput)
    ensures IsReminder(Recommended(i)) ==> !Unsure(i)
  {
    hide ConfidenceOf, CauseOf, Candidates, RecommendReminder;
  }

  /** A plan is of its case, of the prescribed type and under the policy's version. It is approved exactly if the case may
      run unattended or only waits for a human's word, and for a case without attempts its key ends with attempt 1. */
  lemma PlanExactly(i: PlanningInput)
    requires MayPlan(i.rc.state)
    ensures var p, t, state := Propose(i).value.plan, Prescribed(i), Propose(i).value.resultingState;
      && p.planId == i.planId && p.caseId == i.rc.caseId && p.interventionType == t
      && p.policyVersion == i.policy.policyVersion
      && (p.planStatus == PolicyApproved <==>
            state == PolicyChecked || (state == Escalated && !(t in {PaymentRetry, PaymentLink} && Unsure(i))))
      && (i.rc.attemptCount == 0 ==>
            p.idempotencyKey == i.rc.caseId + "_" + i.policy.policyVersion + "_" + TypeName(t) + "_" + "1")
  {
    hide Recommended, Prescribed, Decision, TypeName, Unsure, ResolvePlanningOutcome, Number, PlanKey;
    RecommendationByEvent(i);
    ApprovedExactly(i);
    FirstKey(i.rc.caseId, i.policy.policyVersion, Prescribed(i));
  }

  lemma FirstKey(caseId: string, policyVersion: string, t: InterventionType)
    ensures PlanKey(caseId, policyVersion, t, 1) == caseId + "_" + policyVersion + "_" + TypeName(t) + "_" + "1"
  {
    hide TypeName;
    assert Number(1) == "1";
  }

  lemma ApprovedExactly(i: PlanningInput)
    requires MayPlan(i.rc.state)
    ensures var state, t := Propose(i).value.resultingState, Recommended(i);
      Propose(i).value.plan.planStatus == PolicyApproved <==>
        state == PolicyChecked || (state == Escalated && !(t in {PaymentRetry, PaymentLink} && Unsure(i)))
  {
    RecommendationComesFromTable(i);
    RemindersAreSure(i);
    CauseIsOf(i);
    hide Recommended, CauseOf, ConfidenceOf, ConsentFor, ContactLimitReached;
  }
}
