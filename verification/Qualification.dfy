/** Which revenue events open a case (libs/domain/src/qualification.ts). */
module Qualification {
  import opened Contracts

  datatype MerchantConfig = MerchantConfig(
    supportedEventTypes: seq<EventType>,
    minimumAmountMinor: int,
    eventMaxAgeHours: int,
    excludedMerchantSegments: seq<string>,
    supportedCurrencies: seq<string>)

  datatype Objection =
    | MerchantSegmentExcluded | ZeroAmount | BelowMinimumAmount | UnsupportedCurrency | EventStale
    | UnsupportedEventType | UnsupportedFailureReason | NonActionableEventType | UnknownEventType

  datatype QualificationResult = QualificationResult(
    eligible: bool,
    reasonCodes: seq<Objection>,
    shouldCreateCase: bool,
    amountAtRisk: Option<int>,
    initialState: Option<CaseState>)

  predicate IsStale(event: RevenueEvent, config: MerchantConfig, now: int) {
    now - event.occurredAt > config.eventMaxAgeHours * HOUR_MS
  }

  predicate LacksFailureReason(event: RevenueEvent) {
    event.failureReason.None? || event.failureReason.value.UnknownReason?
  }

  function When(broken: bool, objection: Objection): seq<Objection> {
    if broken then [objection] else []
  }

  function AmountObjection(event: RevenueEvent, config: MerchantConfig): seq<Objection> {
    if event.amountMinor <= 0 then [ZeroAmount]
    else When(event.amountMinor < config.minimumAmountMinor, BelowMinimumAmount)
  }

  function TypeObjection(event: RevenueEvent): seq<Objection> {
    match event.eventType
    case PaymentFailed => When(LacksFailureReason(event), UnsupportedFailureReason)
    case PaymentRecovered => [NonActionableEventType]
    case PaymentStatusUpdated => [NonActionableEventType]
    case OtherEvent => [UnknownEventType]
    case _ => []
  }

  /** The independent rules, each with the objection it raises. */
  function Objections(event: RevenueEvent, config: MerchantConfig, segment: string, now: int): seq<Objection> {
    When(segment in config.excludedMerchantSegments, MerchantSegmentExcluded)
    + AmountObjection(event, config)
    + When(event.currency !in config.supportedCurrencies, UnsupportedCurrency)
    + When(IsStale(event, config, now), EventStale)
    + When(event.eventType !in config.supportedEventTypes, UnsupportedEventType)
    + TypeObjection(event)
  }

  lemma RulesAreIndependent(event: RevenueEvent, config: MerchantConfig, segment: string, now: int, o: Objection)
    ensures o in Objections(event, config, segment, now) <==>
      || (o.MerchantSegmentExcluded? && segment in config.excludedMerchantSegments)
      || o in AmountObjection(event, config)
      || (o.UnsupportedCurrency? && event.currency !in config.supportedCurrencies)
      || (o.EventStale? && IsStale(event, config, now))
      || (o.UnsupportedEventType? && event.eventType !in config.supportedEventTypes)
      || o in TypeObjection(event)
  {
    hide AmountObjection, TypeObjection, IsStale;
  }

  /** When an objection is raised. */
  predicate Raised(event: RevenueEvent, config: MerchantConfig, segment: string, now: int, o: Objection) {
    match o
    case MerchantSegmentExcluded => segment in config.excludedMerchantSegments
    case ZeroAmount => event.amountMinor <= 0
    case BelowMinimumAmount => 0 < event.amountMinor < config.minimumAmountMinor
    case UnsupportedCurrency => event.currency !in config.supportedCurrencies
    case EventStale => now > event.occurredAt + config.eventMaxAgeHours * 3_600_000
    case UnsupportedEventType => event.eventType !in config.supportedEventTypes
    case UnsupportedFailureReason =>
      event.eventType == PaymentFailed && (event.failureReason == None || event.failureReason == Some(UnknownReason))
    case NonActionableEventType => event.eventType == PaymentRecovered || event.eventType == PaymentStatusUpdated
    case UnknownEventType => event.eventType == OtherEvent
  }

  /** Every rule raises its own objection, whatever the others say. */
  lemma ObjectionsExactly(event: RevenueEvent, config: MerchantConfig, segment: string, now: int, o: Objection)
    ensures o in Objections(event, config, segment, now) <==> Raised(event, config, segment, now, o)
  {
    RulesAreIndependent(event, config, segment, now, o);
    hide Objections;
  }

  /** A case is opened for the whole amount, in Detected, when no rule objects. */
  function Qualify(event: RevenueEvent, config: MerchantConfig, segment: string, now: int)
    : (q: QualificationResult)
    ensures q.eligible <==>
      && segment !in config.excludedMerchantSegments
      && 0 < event.amountMinor && config.minimumAmountMinor <= event.amountMinor
      && event.currency in config.supportedCurrencies
      && now - event.occurredAt <= config.eventMaxAgeHours * HOUR_MS
      && event.eventType in config.supportedEventTypes
      && event.eventType in {PaymentFailed, SubscriptionFailed, InvoiceOverdue, CheckoutAbandoned}
      && (event.eventType.PaymentFailed? ==> event.failureReason !in {None, Some(UnknownReason)})
    ensures q.eligible == q.shouldCreateCase == q.amountAtRisk.Some? == q.initialState.Some?
    ensures q.eligible <==> q.reasonCodes == []
    ensures q.eligible ==> q.amountAtRisk == Some(event.amountMinor) && q.initialState == Some(Detected)
  {
    var reasons := Objections(event, config, segment, now);
    if reasons == []
    then QualificationResult(true, [], true, Some(event.amountMinor), Some(Detected))
    else QualificationResult(false, reasons, false, None, None)
  }

  /** The switch over the event type. */
  method CheckEventType(event: RevenueEvent, before: seq<Objection>, wasEligible: bool)
    returns (reasons: seq<Objection>, eligible: bool)
    ensures reasons == before + TypeObjection(event)
    ensures eligible == (wasEligible && TypeObjection(event) == [])
  {
    reasons, eligible := before, wasEligible;
    match event.eventType {
      case PaymentFailed =>
        if event.failureReason.None? || event.failureReason.value.UnknownReason? {
          reasons := reasons + [UnsupportedFailureReason];
          eligible := false;
        }
      case SubscriptionFailed =>
      case InvoiceOverdue =>
      case CheckoutAbandoned =>
      case PaymentRecovered =>
        reasons := reasons + [NonActionableEventType];
        eligible := false;
      case PaymentStatusUpdated =>
        reasons := reasons + [NonActionableEventType];
        eligible := false;
      case OtherEvent =>
        reasons := reasons + [UnknownEventType];
        eligible := false;
    }
  }

  method QualifyRevenueEvent(event: RevenueEvent, config: MerchantConfig, segment: string, now: int)
    returns (q: QualificationResult)
    ensures q == Qualify(event, config, segment, now)
  {
    var reasons: seq<Objection> := [];
    var eligible, shouldCreateCase := true, true;
    if segment in config.excludedMerchantSegments {
      reasons := reasons + [MerchantSegmentExcluded];
      eligible := false;
    }
    ghost var seen := When(segment in config.excludedMerchantSegments, MerchantSegmentExcluded);
    assert reasons == seen && eligible == (seen == []);
    if event.amountMinor <= 0 {
      reasons := reasons + [ZeroAmount];
      eligible := false;
    } else if event.amountMinor < config.minimumAmountMinor {
      reasons := reasons + [BelowMinimumAmount];
      eligible := false;
    }
    seen := seen + AmountObjection(event, config);
    assert reasons == seen && eligible == (seen == []);
    if event.currency !in config.supportedCurrencies {
      reasons := reasons + [UnsupportedCurrency];
      eligible := false;
    }
    seen := seen + When(event.currency !in config.supportedCurrencies, UnsupportedCurrency);
    assert reasons == seen && eligible == (seen == []);
    if now - event.occurredAt > config.eventMaxAgeHours * HOUR_MS {
      reasons := reasons + [EventStale];
      eligible := false;
    }
    seen := seen + When(IsStale(event, config, now), EventStale);
    assert reasons == seen && eligible == (seen == []);
    if event.eventType !in config.supportedEventTypes {
      reasons := reasons + [UnsupportedEventType];
      eligible := false;
    }
    seen := seen + When(event.eventType !in config.supportedEventTypes, UnsupportedEventType);
    assert reasons == seen && eligible == (seen == []);
    reasons, eligible := CheckEventType(event, reasons, eligible);
    seen := seen + TypeObjection(event);
    assert reasons == seen && eligible == (seen == []);
    assert reasons == Objections(event, config, segment, now);
    hide Objections;
    if !eligible {
      shouldCreateCase := false;
    }
    q := QualificationResult(eligible, reasons, shouldCreateCase, None, None);
    if eligible {
      q := q.(amountAtRisk := Some(event.amountMinor), initialState := Some(Detected));
    }
  }
}
