/** Values shared by every component: the enumerations and records of libs/contracts. */
module Contracts {

  datatype Option<+T> = None | Some(value: T)

  datatype Result<+T, +E> = Ok(value: T) | Err(error: E)

  datatype CaseState =
    | Detected | Qualified | Diagnosed | Planned | PolicyChecked | Queued | Executing
    | AwaitingCustomerAction | Recovered | Ambiguous | Failed | Retryable
    | Escalated | Stopped | Expired | Rejected

  datatype EventType =
    | PaymentFailed | CheckoutAbandoned | SubscriptionFailed | InvoiceOverdue
    | PaymentRecovered | PaymentStatusUpdated | OtherEvent

  /** Upper-cased failure reasons; the source compares with two values that its own enumeration lacks. */
  datatype FailureReason =
    | InsufficientFunds | BankTimeout | NetworkError | AuthenticationRequired
    | PaymentMethodDeclined | MandateFailed | SuspectedFraud | UnknownReason
    | CardExpired | ExpiredCard | OtherReason(text: string)

  datatype InterventionType =
    | PaymentRetry | PaymentLink | EmailReminder | SmsReminder | VoiceReminder
    | HumanEscalation | NoAction

  predicate IsReminder(t: InterventionType) {
    t.EmailReminder? || t.SmsReminder? || t.VoiceReminder?
  }

  datatype RootCause =
    | TransientBankOrNetworkFailure | InsufficientFundsLikely
    | AuthenticationOrCustomerActionRequired | MandateOrSubscriptionIssue
    | CheckoutDropOff | InvoiceCollectionDelay | Fraud | UnknownCause

  datatype ReasonCode =
    | FailureReasonTransient | FailureReasonInsufficientFunds | FailureReasonAuthRequired
    | FailureReasonMandate | CheckoutAbandonedReason | InvoiceOverdueReason
    | EventTooStale | AttemptLimitReached | ConsentMissing | ChannelNotAllowed
    | RetryAmountLimitExceeded | LowConfidenceEscalation | HumanApprovalRequired
    | TerminalCase | NoSafeIntervention | MerchantPolicyExcluded | FraudDetected
    | CurrencyNotSupported | CrossBorderRestricted

  /** A consent flag is missing when the metadata does not carry it. */
  datatype Consents = Consents(email: Option<bool>, sms: Option<bool>, voice: Option<bool>)

  /** Times are milliseconds since the epoch, amounts are minor units. */
  datatype RevenueEvent = RevenueEvent(
    externalEventId: string,
    eventType: EventType,
    failureReason: Option<FailureReason>,
    amountMinor: int,
    currency: string,
    occurredAt: int,
    consents: Option<Consents>,
    attemptsToday: Option<int>)

  datatype RecoveryCase = RecoveryCase(
    caseId: string,
    sourceEventId: string,
    merchantId: string,
    customerId: string,
    amountMinor: int,
    currency: string,
    state: CaseState,
    attemptCount: int,
    version: int)

  datatype MerchantPolicy = MerchantPolicy(
    policyVersion: string,
    enabled: bool,
    allowed: seq<InterventionType>,
    maxAttemptsPerCase: int,
    maxRetryAmountMinor: int,
    minimumRecoveryScore: int,
    manualApprovalAboveAmountMinor: int,
    maxMessagesPerWindow: int,
    messageWindowHours: int,
    staleEventLimitHours: int,
    supportedCurrencies: Option<seq<string>>,
    allowCrossBorder: Option<bool>)

  datatype ActiveSummary = ActiveSummary(
    hasActivePaymentRetry: bool,
    hasActivePaymentLink: bool,
    hasActiveCommunication: bool)

  /** What the scoring service answers; its values are arbitrary. */
  datatype Propensity = Propensity(withLink: real, withRetry: real, urban: bool)

  datatype PolicyDecision = PolicyDecision(
    approved: bool,
    reasonCodes: seq<ReasonCode>,
    requiresHumanApproval: bool,
    stopCase: bool,
    escalationRequired: bool,
    retryAfter: Option<int>,
    approvedIntervention: Option<InterventionType>)

  const HOUR_MS := 3_600_000
}
