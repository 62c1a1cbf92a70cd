/** Candidate selection and recommendation (libs/domain/src/intervention.ts). */
module Intervention {
  import opened Contracts
  import opened Diagnosis

  function CandidateTable(cause: RootCause): seq<InterventionType> {
    match cause
    case TransientBankOrNetworkFailure => [PaymentRetry, PaymentLink, HumanEscalation]
    case InsufficientFundsLikely => [PaymentLink, SmsReminder, EmailReminder, HumanEscalation]
    case AuthenticationOrCustomerActionRequired => [PaymentLink, SmsReminder, EmailReminder]
    case MandateOrSubscriptionIssue => [PaymentLink, EmailReminder, HumanEscalation]
    case CheckoutDropOff => [SmsReminder, EmailReminder, NoAction]
    case InvoiceCollectionDelay => [EmailReminder, HumanEscalation]
    case _ => [HumanEscalation, NoAction]
  }

  function OnlyAllowed(types: seq<InterventionType>, allowed: seq<InterventionType>): (kept: seq<InterventionType>)
    ensures forall t :: t in kept <==> t in types && t in allowed
  {
    if types == [] then []
    else (if types[0] in allowed then [types[0]] else []) + OnlyAllowed(types[1..], allowed)
  }

  function SelectCandidateInterventions(cause: RootCause, policy: MerchantPolicy): (r: seq<InterventionType>)
    ensures r != []
    ensures forall t :: t in r ==>
      (t in CandidateTable(cause) && t in policy.allowed) || (r == [NoAction] && t == NoAction)
  {
    var candidates := OnlyAllowed(CandidateTable(cause), policy.allowed);
    if candidates == [] then [NoAction] else candidates
  }

  predicate PrefersLink(cause: RootCause) {
    || cause.AuthenticationOrCustomerActionRequired?
    || cause.InsufficientFundsLikely?
    || cause.MandateOrSubscriptionIssue?
  }

  function RecommendReminder(candidates: seq<InterventionType>, urban: bool, activeCommunication: bool)
    : Option<InterventionType>
  {
    var first, second := if urban then EmailReminder else SmsReminder, if urban then SmsReminder else EmailReminder;
    if first in candidates && !activeCommunication then Some(first)
    else if second in candidates && !activeCommunication then Some(second)
    else None
  }

  function RecommendIntervention(rc: RecoveryCase, d: DiagnosisResult, candidates: seq<InterventionType>,
    policy: MerchantPolicy, active: ActiveSummary): (r: InterventionType)
    ensures r == NoAction || r in candidates
  {
    if candidates == [] || (NoAction in candidates && |candidates| == 1) then NoAction
    else if d.confidence < policy.minimumRecoveryScore then
      if HumanEscalation in candidates then HumanEscalation else NoAction
    else if rc.amountMinor >= policy.manualApprovalAboveAmountMinor && HumanEscalation in candidates then
      HumanEscalation
    else if && PaymentRetry in candidates
            && d.rootCause.TransientBankOrNetworkFailure?
            && rc.amountMinor <= policy.maxRetryAmountMinor
            && rc.attemptCount < policy.maxAttemptsPerCase
            && !active.hasActivePaymentRetry
    then PaymentRetry
    else if PrefersLink(d.rootCause) && PaymentLink in candidates && !active.hasActivePaymentLink then
      PaymentLink
    else if && d.propensity.Some?
            && d.propensity.value.withLink > d.propensity.value.withRetry
            && PaymentLink in candidates && !active.hasActivePaymentLink
            && PrefersLink(d.rootCause)
    then PaymentLink
    else
      var urban := d.propensity.Some? && d.propensity.value.urban;
      match RecommendReminder(candidates, urban, active.hasActiveCommunication)
      case Some(t) => t
      case None => if HumanEscalation in candidates then HumanEscalation else NoAction
  }
}
