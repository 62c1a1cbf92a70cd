/** Root causes of revenue events (libs/domain/src/diagnosis.ts). */
module Diagnosis {
  import opened Contracts

  /** Confidence is in percent. */
  datatype DiagnosisResult = DiagnosisResult(
    rootCause: RootCause,
    confidence: int,
    reasonCodes: seq<ReasonCode>,
    candidates: seq<InterventionType>,
    recommended: InterventionType,
    propensity: Option<Propensity>)

  /** Suspected fraud outranks the event type; otherwise the pair of type and reason decides. */
  function CauseOf(event: RevenueEvent): RootCause {
    match (event.eventType, event.failureReason)
    case (_, Some(SuspectedFraud)) => Fraud
    case (PaymentFailed, Some(BankTimeout)) => TransientBankOrNetworkFailure
    case (PaymentFailed, Some(NetworkError)) => TransientBankOrNetworkFailure
    case (PaymentFailed, Some(InsufficientFunds)) => InsufficientFundsLikely
    case (PaymentFailed, Some(AuthenticationRequired)) => AuthenticationOrCustomerActionRequired
    case (SubscriptionFailed, _) => MandateOrSubscriptionIssue
    case (CheckoutAbandoned, _) => CheckoutDropOff
    case (InvoiceOverdue, _) => InvoiceCollectionDelay
    case _ => UnknownCause
  }

  function ConfidenceOf(event: RevenueEvent): int {
    match CauseOf(event)
    case Fraud => 0
    case UnknownCause => if event.eventType.PaymentFailed? then 75 else 40
    case MandateOrSubscriptionIssue => if event.failureReason == Some(MandateFailed) then 95 else 75
    case _ => 95
  }

  function ReasonsOf(event: RevenueEvent): seq<ReasonCode> {
    match CauseOf(event)
    case Fraud => [FraudDetected]
    case TransientBankOrNetworkFailure => [FailureReasonTransient]
    case InsufficientFundsLikely => [FailureReasonInsufficientFunds]
    case AuthenticationOrCustomerActionRequired => [FailureReasonAuthRequired]
    case MandateOrSubscriptionIssue =>
      if event.failureReason == Some(MandateFailed) then [FailureReasonMandate] else []
    case CheckoutDropOff => [CheckoutAbandonedReason]
    case InvoiceCollectionDelay => [InvoiceOverdueReason]
    case UnknownCause => []
  }

  function Diagnose(event: RevenueEvent, policy: MerchantPolicy, now: int): DiagnosisResult {
    var stale := now - event.occurredAt > policy.staleEventLimitHours * HOUR_MS;
    DiagnosisResult(CauseOf(event), ConfidenceOf(event),
      ReasonsOf(event) + (if stale then [EventTooStale] else []), [], NoAction, None)
  }

  method DiagnoseRevenueCase(event: RevenueEvent, policy: MerchantPolicy, now: int)
    returns (d: DiagnosisResult)
    ensures d == Diagnose(event, policy, now)
  {
    var rootCause, confidence := UnknownCause, 40;
    var reasonCodes: seq<ReasonCode> := [];
    var reason := event.failureReason;
    if reason == Some(SuspectedFraud) {
      rootCause, confidence := Fraud, 0;
      reasonCodes := reasonCodes + [FraudDetected];
    } else if event.eventType.PaymentFailed? {
      if reason == Some(BankTimeout) || reason == Some(NetworkError) {
        rootCause, confidence := TransientBankOrNetworkFailure, 95;
        reasonCodes := reasonCodes + [FailureReasonTransient];
      } else if reason == Some(InsufficientFunds) {
        rootCause, confidence := InsufficientFundsLikely, 95;
        reasonCodes := reasonCodes + [FailureReasonInsufficientFunds];
      } else if reason == Some(AuthenticationRequired) {
        rootCause, confidence := AuthenticationOrCustomerActionRequired, 95;
        reasonCodes := reasonCodes + [FailureReasonAuthRequired];
      } else {
        confidence := 75;
      }
    } else if event.eventType.SubscriptionFailed? {
      if reason == Some(MandateFailed) {
        rootCause, confidence := MandateOrSubscriptionIssue, 95;
        reasonCodes := reasonCodes + [FailureReasonMandate];
      } else {
        rootCause, confidence := MandateOrSubscriptionIssue, 75;
      }
    } else if event.eventType.CheckoutAbandoned? {
      rootCause, confidence := CheckoutDropOff, 95;
      reasonCodes := reasonCodes + [CheckoutAbandonedReason];
    } else if event.eventType.InvoiceOverdue? {
      rootCause, confidence := InvoiceCollectionDelay, 95;
      reasonCodes := reasonCodes + [InvoiceOverdueReason];
    }
    if now - event.occurredAt > policy.staleEventLimitHours * HOUR_MS {
      reasonCodes := reasonCodes + [EventTooStale];
    }
    d := DiagnosisResult(rootCause, confidence, reasonCodes, [], NoAction, None);
  }
}
