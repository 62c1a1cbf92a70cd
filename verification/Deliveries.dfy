/** What one delivery of a job does, spelled out in the job, the stored rows, the policy and the clock. */
module Deliveries {
  import opened Contracts
  import opened TimeCompliance
  import opened Diagnosis
  import opened Policy
  import opened Planning
  import opened PlanningTheorems
  import opened Store
  import opened Worker
  import opened Protocol
  import opened Processor

  // ---- the second look at the policy ----

  /** The job names an approved automatic plan of a case that waits for its execution. */
  predicate Deliverable(db: Db, job: Job) {
    && job.caseId in db.cases && db.cases[job.caseId].state in {Queued, Executing}
    && db.cases[job.caseId].sourceEventId in db.events.rows
    && job.planId in db.plans.rows && db.plans.rows[job.planId].caseId == job.caseId
    && db.plans.rows[job.planId].planStatus == PolicyApproved && !db.plans.rows[job.planId].requiresHumanApproval
  }

  /** The merchant still takes part, and still allows this type for this case. */
  predicate StillAllowed(rc: RecoveryCase, event: RevenueEvent, p: MerchantPolicy, t: InterventionType) {
    && p.enabled
    && event.failureReason != Some(SuspectedFraud)
    && (p.supportedCurrencies.Some? && p.supportedCurrencies.value != [] ==> rc.currency in p.supportedCurrencies.value)
    && (p.allowCrossBorder == Some(false) && (p.supportedCurrencies.None? || p.supportedCurrencies.value == []) ==>
          rc.currency == "INR")
    && rc.attemptCount < p.maxAttemptsPerCase
    && t in p.allowed
  }

  predicate StillSure(event: RevenueEvent, p: MerchantPolicy, t: InterventionType) {
    t in {HumanEscalation, NoAction} || ConfidenceOf(event) >= p.minimumRecoveryScore
  }

  predicate AtTheRightTime(t: InterventionType, now: int) {
    t in {SmsReminder, VoiceReminder} ==> 9 * HOUR_MS <= IstTimeOfDay(now) < 20 * HOUR_MS
  }

  predicate WithinLimits(rc: RecoveryCase, p: MerchantPolicy, t: InterventionType) {
    t != NoAction && (t == PaymentRetry ==> rc.amountMinor <= p.maxRetryAmountMinor)
  }

  /** How a job is answered. It proceeds with the stored plan and the stored amount exactly if everything still holds; a
      text message outside the calling hours is discarded, like a type whose diagnosis is too uncertain by now; every
      other rejection stops the case. */
  lemma ValidateExactly(db: Db, job: Job, w: Surroundings)
    ensures Validate(db, job, w) ==
      if !Deliverable(db, job) then Discard
      else
        var rc, plan := db.cases[job.caseId], db.plans.rows[job.planId];
        var event, t := db.events.rows[rc.sourceEventId].event, plan.interventionType;
        if !StillAllowed(rc, event, w.policy, t) then StopCase
        else if !StillSure(event, w.policy, t) then Discard
        else if !WithinLimits(rc, w.policy, t) then StopCase
        else if !AtTheRightTime(t, w.evaluatedAt) then Discard
        else Proceed(plan, rc.amountMinor)
  {
    if Deliverable(db, job) {
      var rc, plan := db.cases[job.caseId], db.plans.rows[job.planId];
      var event := db.events.rows[rc.sourceEventId].event;
      var input := PlanningInput(rc, event, w.policy, w.active, w.diagnosedAt, w.score, "");
      AskedAgain(input, plan.interventionType, w.evaluatedAt);
      hide Reevaluation, Verdict, StillAllowed, StillSure, WithinLimits, AtTheRightTime;
    }
  }

  /** The policy's second answer. */
  lemma AskedAgain(j: PlanningInput, t: InterventionType, now: int)
    ensures var d := Verdict(Reevaluation(j, t, now));
      if !StillAllowed(j.rc, j.event, j.policy, t) then !d.approved && d.stopCase
      else if !StillSure(j.event, j.policy, t) then !d.approved && !d.stopCase
      else if !WithinLimits(j.rc, j.policy, t) then !d.approved && d.stopCase
      else if !AtTheRightTime(t, now) then !d.approved && !d.stopCase
      else d.approved
  {
    WindowInTimeOfDay(now);
    FraudByReason(j.event);
    hide Recommended, CauseOf, ConfidenceOf, IsOutsideTraiWindow, IstTimeOfDay;
  }

  lemma FraudByReason(event: RevenueEvent)
    ensures CauseOf(event).Fraud? <==> event.failureReason == Some(SuspectedFraud)
  {}

  /** The stored plan, case and event are those of an input. */
  predicate PlannedFrom(db: Db, job: Job, i: PlanningInput) {
    && Deliverable(db, job) && db.plans.rows[job.planId] == PlanOf(i)
    && db.events.rows[db.cases[job.caseId].sourceEventId].event == i.event
    && db.cases[job.caseId].attemptCount == i.rc.attemptCount && db.cases[job.caseId].currency == i.rc.currency
    && db.cases[job.caseId].amountMinor <= i.rc.amountMinor
  }

  /** A plan approved to run unattended proceeds at its delivery, whatever the score and the active interventions are by
      then: a text message exactly inside the contact window, every other type always. */
  lemma ApprovedPlanProceeds(db: Db, job: Job, i: PlanningInput, w: Surroundings)
    requires MayPlan(i.rc.state) && MayRunUnattended(i) && PlannedFrom(db, job, i) && w.policy == i.policy
    ensures Validate(db, job, w) ==
      if Recommended(i) == SmsReminder && !(9 * HOUR_MS <= IstTimeOfDay(w.evaluatedAt) < 20 * HOUR_MS) then Discard
      else Proceed(PlanOf(i), db.cases[job.caseId].amountMinor)
  {
    ValidateExactly(db, job, w);
    RecommendationComesFromTable(i);
    FraudByReason(i.event);
    hide Validate, Recommended, CauseOf, ConfidenceOf, IstTimeOfDay, NotRefused, MayContact, Decision;
  }

  // ---- the provider's answer ----

  /** The state a result leads to, and the amount it leaves at risk. Nothing that is only sent counts as recovered: a
      retry recovers the case exactly if it recovers all that was at risk. */
  lemma ResultExactly(t: InterventionType, r: ProviderResult, atRisk: int)
    ensures var (next, remaining) := MapOutcome(t, r, atRisk);
      && (StatusOf(r).SucceededStatus? <==> r.success)
      && (StatusOf(r).AmbiguousStatus? <==> !r.success && r.timedOut)
      && (StatusOf(r).FailedStatus? <==> !r.success && !r.timedOut)
      && (next == AwaitingCustomerAction <==>
            r.success && t in {PaymentLink, EmailReminder, SmsReminder, VoiceReminder})
      && (next == Recovered <==>
            && r.success
            && (t == PaymentRetry ==> r.recovered.Some? && r.recovered.value >= atRisk)
            && t in {PaymentRetry, HumanEscalation, NoAction})
      && (next == Detected <==> r.success && t == PaymentRetry && r.recovered.Some? && r.recovered.value < atRisk)
      && (next == Ambiguous <==> !r.success && r.timedOut)
      && (next == Failed <==> (!r.success && !r.timedOut) || (r.success && t == PaymentRetry && r.recovered.None?))
      && remaining == if next == Detected then Some(atRisk - r.recovered.value) else None
  {}

  // ---- whether the provider is called ----

  /** The row a delivery works on: the one of its key, or the one it would prepare. */
  function RowFor(db: Db, d: Delivery): string
    requires d.job.planId in db.plans.rows
  {
    var plan := db.plans.rows[d.job.planId];
    var key := InterventionKey(plan.planId, plan.interventionType, d.job.attempt);
    if key in db.interventions.byKey then db.interventions.byKey[key] else d.newId
  }

  /** Nothing keeps the delivery from calling: its row is neither finished nor locked, or can still be created. */
  predicate RowIsOpen(db: Db, d: Delivery)
    requires d.job.planId in db.plans.rows && d.job.caseId in db.cases
  {
    var plan, i := db.plans.rows[d.job.planId], RowFor(db, d);
    if InterventionKey(plan.planId, plan.interventionType, d.job.attempt) in db.interventions.byKey
    then && i in db.interventions.rows && db.interventions.rows[i].lease.None?
         && db.interventions.rows[i].status !in {SucceededStatus, FailedStatus}
    else && i !in db.interventions.rows
         && Slot(plan.caseId, plan.interventionType, d.job.attempt) !in db.interventions.bySlot
  }

  /** An undisturbed delivery calls the provider exactly once, for its own row and the stored type, if its job proceeds
      and the row is open; otherwise it calls nobody, and a delivery that is discarded leaves all tables alone. */
  lemma DeliveryCallsExactly(d: Delivery, db: Db)
    ensures var v, t := Validate(db, d.job, d.around), d.Outcome(db);
      && (v.Proceed? ==> Deliverable(db, d.job) && v.plan == db.plans.rows[d.job.planId])
      && (v.Proceed? && RowIsOpen(db, d) ==>
            |t.trace| == 2 && t.trace[0].LockTaken? && t.trace[0].id == RowFor(db, d)
            && t.trace[1] == ProviderCalled(RowFor(db, d), d.job.caseId, v.plan.interventionType))
      && (!v.Proceed? || !RowIsOpen(db, d) ==> t.trace == [])
      && (!v.Proceed? ==> t.db == db)
  {
    ValidateExactly(db, d.job, d.around);
    hide Validate, StillAllowed, StillSure, WithinLimits, AtTheRightTime;
    var s := Validates(Alone(db, d.worker, d.job), d.worker, d.around);
    if Validate(db, d.job, d.around).Proceed? {
      ProceedingCalls(d, db, s);
    } else {
      DroppedIsOver(d, s);
    }
  }

  lemma ProceedingCalls(d: Delivery, db: Db, s: System)
    requires Deliverable(db, d.job) && s.db == db && s.trace == []
    requires s.workers == map[d.worker := Approved(d.job, db.plans.rows[d.job.planId], db.cases[d.job.caseId].amountMinor)]
    ensures var t, type_ := d.Completed(d.Prepared(s)).trace, db.plans.rows[d.job.planId].interventionType;
      if RowIsOpen(db, d)
      then |t| == 2 && t[0].LockTaken? && t[0].id == RowFor(db, d) && t[1] == ProviderCalled(RowFor(db, d), d.job.caseId, type_)
      else t == []
  {
    PreparingFor(d, db, s);
    hide RowIsOpen, RowFor;
    var p := d.Prepared(s);
    if d.worker in p.workers { CallingFrom(d, p); } else { DroppedIsOver(d, p); }
    hide Delivery.Prepared, Delivery.Completed;
  }

  /** After looking up and preparing, the worker has the row of the delivery, unless that row is not open. */
  predicate ReadyFor(d: Delivery, db: Db, p: System)
    requires Deliverable(db, d.job)
  {
    var plan, atRisk := db.plans.rows[d.job.planId], db.cases[d.job.caseId].amountMinor;
    && p.trace == []
    && (d.worker in p.workers ==> p.workers[d.worker] == Ready(d.job, plan, atRisk, RowFor(db, d)))
    && (RowIsOpen(db, d) <==> d.worker in p.workers && Claimable(p.db, RowFor(db, d)))
  }

  lemma PreparingFor(d: Delivery, db: Db, s: System)
    requires Deliverable(db, d.job) && s.db == db && s.trace == []
    requires s.workers == map[d.worker := Approved(d.job, db.plans.rows[d.job.planId], db.cases[d.job.caseId].amountMinor)]
    ensures ReadyFor(d, db, d.Prepared(s))
  {
    hide ReadyFor, Delivery.Prepared;
    var plan := db.plans.rows[d.job.planId];
    if InterventionKey(plan.planId, plan.interventionType, d.job.attempt) in db.interventions.byKey { FoundFor(d, db, s); }
    else { AbsentFor(d, db, s); }
  }

  lemma FoundFor(d: Delivery, db: Db, s: System)
    requires Deliverable(db, d.job) && s.db == db && s.trace == []
    requires s.workers == map[d.worker := Approved(d.job, db.plans.rows[d.job.planId], db.cases[d.job.caseId].amountMinor)]
    requires var plan := db.plans.rows[d.job.planId];
      InterventionKey(plan.planId, plan.interventionType, d.job.attempt) in db.interventions.byKey
    ensures ReadyFor(d, db, d.Prepared(s))
  {
    hide PrepareIntervention;
  }

  lemma AbsentFor(d: Delivery, db: Db, s: System)
    requires Deliverable(db, d.job) && s.db == db && s.trace == []
    requires s.workers == map[d.worker := Approved(d.job, db.plans.rows[d.job.planId], db.cases[d.job.caseId].amountMinor)]
    requires var plan := db.plans.rows[d.job.planId];
      InterventionKey(plan.planId, plan.interventionType, d.job.attempt) !in db.interventions.byKey
    ensures ReadyFor(d, db, d.Prepared(s))
  {
    hide PrepareAudit;
  }

  lemma CallingFrom(d: Delivery, s: System)
    requires d.worker in s.workers && s.workers[d.worker].Ready? && s.trace == []
    ensures var pc, t := s.workers[d.worker], d.Completed(s).trace;
      if Claimable(s.db, pc.id)
      then |t| == 2 && t[0].LockTaken? && t[0].id == pc.id
        && t[1] == ProviderCalled(pc.id, pc.job.caseId, pc.plan.interventionType)
      else t == []
  {
    hide PersistResult;
  }

  /** A delivery that calls the provider leaves its row locked by its worker and, if the row had no outcome yet, with the
      outcome of this call; the case of the row is in the state the result leads to. */
  lemma DeliveryStoresExactly(d: Delivery, db: Db)
    requires Validate(db, d.job, d.around).Proceed? && RowIsOpen(db, d) && RowFor(db, d) !in db.outcomes
    ensures var t, i, r := d.Outcome(db), RowFor(db, d), d.result;
      var rc, type_ := db.cases[d.job.caseId], db.plans.rows[d.job.planId].interventionType;
      && t.workers == map[]
      && i in t.db.interventions.rows && i in t.db.outcomes
      && t.db.interventions.rows[i].lease == Some(Lease(d.now, d.worker))
      && t.db.interventions.rows[i].status == StatusOf(r)
      && t.db.outcomes[i] == Outcome(StatusOf(r), if r.recovered == Some(0) then None else r.recovered)
      && (t.db.interventions.rows[i].caseId == d.job.caseId ==>
            d.job.caseId in t.db.cases && t.db.cases[d.job.caseId].state == MapOutcome(type_, r, rc.amountMinor).0)
  {
    ValidateExactly(db, d.job, d.around);
    hide Validate, StillAllowed, StillSure, WithinLimits, AtTheRightTime;
    var s := Validates(Alone(db, d.worker, d.job), d.worker, d.around);
    PreparingFor(d, db, s);
    PreparingKeeps(d, db, s);
    hide RowIsOpen, RowFor, Delivery.Prepared, Delivery.Completed;
    StoringFrom(d, d.Prepared(s));
  }

  lemma PreparingKeeps(d: Delivery, db: Db, s: System)
    requires Deliverable(db, d.job) && s.db == db
    requires s.workers == map[d.worker := Approved(d.job, db.plans.rows[d.job.planId], db.cases[d.job.caseId].amountMinor)]
    ensures var p := d.Prepared(s);
      p.db.outcomes == db.outcomes && d.job.caseId in p.db.cases && p.workers.Keys <= {d.worker}
  {
    hide PrepareAudit;
  }

  lemma StoringFrom(d: Delivery, s: System)
    requires d.worker in s.workers && s.workers[d.worker].Ready? && s.workers.Keys <= {d.worker}
    requires Claimable(s.db, s.workers[d.worker].id) && s.workers[d.worker].id !in s.db.outcomes
    ensures var pc, t, r := s.workers[d.worker], d.Completed(s), d.result;
      && t.workers == map[]
      && pc.id in t.db.interventions.rows && pc.id in t.db.outcomes
      && t.db.interventions.rows[pc.id].lease == Some(Lease(d.now, d.worker))
      && t.db.interventions.rows[pc.id].status == StatusOf(r)
      && t.db.outcomes[pc.id] == Outcome(StatusOf(r), if r.recovered == Some(0) then None else r.recovered)
      && var c := t.db.interventions.rows[pc.id].caseId;
      && (c in s.db.cases ==>
            c in t.db.cases && t.db.cases[c].state == MapOutcome(pc.plan.interventionType, r, pc.atRisk).0)
  {
    hide MapOutcome;
  }
}
