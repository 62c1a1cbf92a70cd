/** Rendering of the values that appear in idempotency keys. */
module Text {
  import opened Contracts

  function TypeName(t: InterventionType): string {
    match t
    case PaymentRetry => "PAYMENT_RETRY"
    case PaymentLink => "PAYMENT_LINK"
    case EmailReminder => "EMAIL_REMINDER"
    case SmsReminder => "SMS_REMINDER"
    case VoiceReminder => "VOICE_REMINDER"
    case HumanEscalation => "HUMAN_ESCALATION"
    case NoAction => "NO_ACTION"
  }

  function Digit(n: nat): char
    requires n < 10
  {
    '0' + n as char
  }

  function Decimal(n: nat): string {
    if n < 10 then [Digit(n)] else Decimal(n / 10) + [Digit(n % 10)]
  }

  function Number(n: int): string {
    if n < 0 then "-" + Decimal(-n) else Decimal(n)
  }
}
