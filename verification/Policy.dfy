/** The ordered policy gates (libs/domain/src/policy.ts). */
module Policy {
  import opened Contracts
  import opened Diagnosis
  import opened StateMachine
  import opened TimeCompliance

  datatype PolicyInput = PolicyInput(
    rc: RecoveryCase,
    diagnosis: DiagnosisResult,
    proposed: InterventionType,
    policy: MerchantPolicy,
    now: int,
    hasConsent: Option<bool>,
    contactLimitReached: bool)
  {
    predicate CurrencyUnsupported() {
      && policy.supportedCurrencies.Some? && policy.supportedCurrencies.value != []
      && rc.currency !in policy.supportedCurrencies.value
    }

    predicate CrossBorder() {
      && policy.allowCrossBorder == Some(false)
      && rc.currency !in (if policy.supportedCurrencies.Some? && policy.supportedCurrencies.value != []
                          then policy.supportedCurrencies.value else ["INR"])
    }

    predicate AttemptsExhausted() { rc.attemptCount >= policy.maxAttemptsPerCase }

    predicate TypeNotAllowed() { proposed !in policy.allowed }

    predicate LowConfidence() {
      diagnosis.confidence < policy.minimumRecoveryScore && !proposed.HumanEscalation? && !proposed.NoAction?
    }

    predicate RetryTooLarge() { proposed.PaymentRetry? && rc.amountMinor > policy.maxRetryAmountMinor }

    predicate ConsentMissing() { hasConsent == Some(false) }

    predicate NeedsManualApproval() { rc.amountMinor >= policy.manualApprovalAboveAmountMinor }

    predicate ReminderLimited() { contactLimitReached && IsReminder(proposed) }

    predicate CallingHoursClosed() {
      (proposed.VoiceReminder? || proposed.SmsReminder?) && IsOutsideTraiWindow(now)
    }

    /** No gate rejects. */
    predicate PassesEveryGate() {
      && !IsTerminal(rc.state)
      && policy.enabled
      && !diagnosis.rootCause.Fraud?
      && !CurrencyUnsupported()
      && !CrossBorder()
      && !AttemptsExhausted()
      && !TypeNotAllowed()
      && !LowConfidence()
      && !RetryTooLarge()
      && !ConsentMissing()
      && !ReminderLimited()
      && !CallingHoursClosed()
      && !proposed.NoAction?
    }

    function ManualApprovalCodes(): seq<ReasonCode> {
      if NeedsManualApproval() then [HumanApprovalRequired] else []
    }
  }

  function Rejection(codes: seq<ReasonCode>, human: bool, stop: bool, escalate: bool, retryAfter: Option<int>)
    : PolicyDecision
  {
    PolicyDecision(false, codes, human, stop, escalate, retryAfter, None)
  }

  /** The verdict of the first gate that rejects; gates are tried in this order.
      Approval is exactly the absence of every objection. */
  function Verdict(i: PolicyInput): (d: PolicyDecision)
    ensures d.approved <==> i.PassesEveryGate()
    ensures d.approved ==> d.approvedIntervention == Some(i.proposed)
    ensures !d.approved ==> d.reasonCodes != [] && d.approvedIntervention.None?
  {
    if IsTerminal(i.rc.state) then Rejection([TerminalCase], false, true, false, None)
    else if !i.policy.enabled then Rejection([MerchantPolicyExcluded], false, true, false, None)
    else if i.diagnosis.rootCause.Fraud? then Rejection([FraudDetected], false, true, false, None)
    else if i.CurrencyUnsupported() then Rejection([CurrencyNotSupported], true, true, true, None)
    else if i.CrossBorder() then Rejection([CrossBorderRestricted], true, true, true, None)
    else if i.AttemptsExhausted() then Rejection([AttemptLimitReached], false, true, false, None)
    else if i.TypeNotAllowed() then Rejection([ChannelNotAllowed], false, true, false, None)
    else if i.LowConfidence() then Rejection([LowConfidenceEscalation], true, false, true, None)
    else if i.RetryTooLarge() then Rejection([RetryAmountLimitExceeded], false, true, true, None)
    else if i.ConsentMissing() then Rejection([ReasonCode.ConsentMissing], true, true, true, None)
    else if i.ReminderLimited() then
      Rejection([AttemptLimitReached], false, false, false, Some(i.now + i.policy.messageWindowHours * HOUR_MS))
    else if i.CallingHoursClosed() then
      Rejection(i.ManualApprovalCodes() + [ChannelNotAllowed], false, false, false, Some(i.now + 12 * HOUR_MS))
    else if i.proposed.NoAction? then
      Rejection(i.ManualApprovalCodes() + [NoSafeIntervention], false, true, false, None)
    else
      PolicyDecision(true, i.ManualApprovalCodes(), i.NeedsManualApproval() || i.proposed.HumanEscalation?,
        false, i.proposed.HumanEscalation?, None, Some(i.proposed))
  }

  method EvaluateRecoveryPolicy(i: PolicyInput) returns (d: PolicyDecision)
    ensures d == Verdict(i)
  {
    var rc, policy, proposed := i.rc, i.policy, i.proposed;
    var reasonCodes: seq<ReasonCode> := [];
    var requiresHumanApproval, stopCase, escalationRequired := false, false, false;
    if rc.state.Recovered? || rc.state.Failed? || rc.state.Stopped? || rc.state.Expired? || rc.state.Rejected? {
      return PolicyDecision(false, [TerminalCase], false, true, false, None, None);
    }
    if !policy.enabled {
      return PolicyDecision(false, [MerchantPolicyExcluded], false, true, false, None, None);
    }
    if i.diagnosis.rootCause == Fraud {
      reasonCodes := reasonCodes + [FraudDetected];
      return PolicyDecision(false, reasonCodes, false, true, false, None, None);
    }
    if policy.supportedCurrencies.Some? && |policy.supportedCurrencies.value| > 0 {
      if rc.currency !in policy.supportedCurrencies.value {
        reasonCodes := reasonCodes + [CurrencyNotSupported];
        return PolicyDecision(false, reasonCodes, true, true, true, None, None);
      }
    }
    if policy.allowCrossBorder == Some(false) {
      var domestic := ["INR"];
      if policy.supportedCurrencies.Some? && |policy.supportedCurrencies.value| > 0 {
        domestic := policy.supportedCurrencies.value;
      }
      if rc.currency !in domestic {
        reasonCodes := reasonCodes + [CrossBorderRestricted];
        return PolicyDecision(false, reasonCodes, true, true, true, None, None);
      }
    }
    if rc.attemptCount >= policy.maxAttemptsPerCase {
      reasonCodes := reasonCodes + [AttemptLimitReached];
      return PolicyDecision(false, reasonCodes, false, true, false, None, None);
    }
    if proposed !in policy.allowed {
      reasonCodes := reasonCodes + [ChannelNotAllowed];
      return PolicyDecision(false, reasonCodes, false, true, false, None, None);
    }
    if i.diagnosis.confidence < policy.minimumRecoveryScore {
      if proposed != HumanEscalation && proposed != NoAction {
        reasonCodes := reasonCodes + [LowConfidenceEscalation];
        return PolicyDecision(false, reasonCodes, true, false, true, None, None);
      }
    }
    if proposed == PaymentRetry {
      if rc.amountMinor > policy.maxRetryAmountMinor {
        reasonCodes := reasonCodes + [RetryAmountLimitExceeded];
        return PolicyDecision(false, reasonCodes, false, true, true, None, None);
      }
    }
    if i.hasConsent == Some(false) {
      reasonCodes := reasonCodes + [ReasonCode.ConsentMissing];
      return PolicyDecision(false, reasonCodes, true, true, true, None, None);
    }
    if rc.amountMinor >= policy.manualApprovalAboveAmountMinor {
      requiresHumanApproval := true;
      reasonCodes := reasonCodes + [HumanApprovalRequired];
    }
    if i.contactLimitReached {
      if proposed == EmailReminder || proposed == SmsReminder || proposed == VoiceReminder {
        return PolicyDecision(false, [AttemptLimitReached], false, false, false,
          Some(i.now + policy.messageWindowHours * 60 * 60 * 1000), None);
      }
    }
    if proposed == VoiceReminder || proposed == SmsReminder {
      if IsOutsideTraiWindow(i.now) {
        reasonCodes := reasonCodes + [ChannelNotAllowed];
        return PolicyDecision(false, reasonCodes, false, false, false, Some(i.now + 12 * 60 * 60 * 1000), None);
      }
    }
    if proposed == HumanEscalation {
      escalationRequired := true;
      requiresHumanApproval := true;
    }
    if proposed == NoAction {
      stopCase := true;
      reasonCodes := reasonCodes + [NoSafeIntervention];
      return PolicyDecision(false, reasonCodes, false, stopCase, escalationRequired, None, None);
    }
    return PolicyDecision(true, reasonCodes, requiresHumanApproval, false, escalationRequired, None, Some(proposed));
  }
}
