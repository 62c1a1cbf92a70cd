/** Whose cases an event recovers, to whom cases belong, and which results lead to which states. */
module Recoveries {
  import opened Contracts
  import opened PlanningTheorems
  import opened Store
  import opened TableIntegrity
  import opened Worker
  import opened Protocol
  import opened ProtocolInvariant
  import opened LockLedger
  import opened CaseHistory
  import opened AuditReplay
  import opened CaseMoves
  import opened Deliveries

  // ---- the latest open case ----

  /** The case found belongs to the merchant and the customer and is not recovered, and all of their later cases are; if
      none is found, all of their cases are recovered. */
  lemma {:induction false} LatestOpenExactly(cases: map<string, RecoveryCase>, order: seq<string>, m: string, u: string)
    ensures var r := LatestOpenCase(cases, order, m, u);
      && (r.Some? ==>
            && r.value in cases && cases[r.value].merchantId == m && cases[r.value].customerId == u
            && !cases[r.value].state.Recovered?
            && exists k | 0 <= k < |order| :: order[k] == r.value && LaterAreRecovered(cases, order, m, u, k))
      && (r.None? ==> LaterAreRecovered(cases, order, m, u, -1))
  {
    if order != [] {
      var n := |order| - 1;
      var init, r := order[..n], LatestOpenCase(cases, order, m, u);
      if && order[n] in cases && cases[order[n]].merchantId == m && cases[order[n]].customerId == u
         && !cases[order[n]].state.Recovered? {
        assert LaterAreRecovered(cases, order, m, u, n);
      } else {
        LatestOpenExactly(cases, init, m, u);
        if r.Some? {
          var k :| 0 <= k < n && init[k] == r.value && LaterAreRecovered(cases, init, m, u, k);
          assert order[k] == r.value && LaterAreRecovered(cases, order, m, u, k);
        }
      }
    }
  }

  predicate LaterAreRecovered(cases: map<string, RecoveryCase>, order: seq<string>, m: string, u: string, k: int) {
    forall j | 0 <= j < |order| && k < j && order[j] in cases
      && cases[order[j]].merchantId == m && cases[order[j]].customerId == u :: cases[order[j]].state.Recovered?
  }

  // ---- owners ----

  /** A case belongs to the merchant and the customer of the event it stems from, in the currency of that event. */
  ghost predicate Owned(db: Db, c: string) {
    c in db.cases ==>
      && db.cases[c].sourceEventId in db.events.rows
      && var e := db.events.rows[db.cases[c].sourceEventId];
      && db.cases[c].merchantId == e.merchantId && db.cases[c].customerId == e.customerId
      && db.cases[c].currency == e.event.currency
  }

  lemma OwnerStays(a: Db, b: Db, c: string)
    requires Owned(a, c) && c in a.cases && Evolves(a, b)
    ensures Owned(b, c)
  {
    assert SameCase(a.cases[c], b.cases[c]);
  }

  lemma NewCaseIsOwned(db: Db, cmd: IngestionCommand, ctx: IngestionContext, c: string)
    requires c !in db.cases
    ensures Owned(After(db, Ingest(db, cmd, ctx)), c)
  {
    hide Qualification.Qualify, LatestOpenCase, ReplayReceipt, MerchantFor, CustomerFor;
  }

  lemma StepKeepsOwners(s: System, st: Step, c: string)
    requires SystemOk(s) && Owned(s.db, c)
    ensures Owned(Apply(s, st).db, c)
  {
    hide SystemOk, Apply, Owned, Evolves, Trail, SilentWrites;
    StepKeeps(s, st);
    if c in s.db.cases { OwnerStays(s.db, Apply(s, st).db, c); }
    else if st.IngestEvent? { IngestStepDb(s, st); NewCaseIsOwned(s.db, st.cmd, st.ctx, c); }
    else { EveryStep(s, st, c); NoCaseIsOwned(Apply(s, st).db, c); }
  }

  lemma NoCaseIsOwned(db: Db, c: string)
    ensures c !in db.cases ==> Owned(db, c)
  {}

  /** In every run. */
  lemma {:induction false} CasesHaveOwners(log: seq<Step>, c: string)
    ensures Owned(Exec(START, log).db, c)
  {
    if log != [] {
      hide Apply, SystemOk, Owned;
      CasesHaveOwners(log[..|log| - 1], c);
      RunsKeepEverything(log[..|log| - 1]);
      StepKeepsOwners(Exec(START, log[..|log| - 1]), log[|log| - 1], c);
    }
  }

  /** The event may open a case of its own. */
  predicate OpensCase(event: RevenueEvent, segment: string, now: int) {
    && event.amountMinor >= 100 && event.currency in {"INR", "USD"}
    && now <= event.occurredAt + 24 * HOUR_MS
    && event.eventType in {PaymentFailed, SubscriptionFailed, InvoiceOverdue, CheckoutAbandoned}
    && (event.eventType == PaymentFailed ==> event.failureReason !in {None, Some(UnknownReason)})
  }

  /** An ingestion opens a case exactly for a new event of a merchant that is known or may be created, if the event
      qualifies; the case is appended to the order in which cases were created. */
  lemma IngestOpensExactly(db: Db, cmd: IngestionCommand, ctx: IngestionContext)
    ensures var b, known := After(db, Ingest(db, cmd, ctx)), cmd.merchantReference in db.people.merchants;
      var m := if known then db.people.merchants[cmd.merchantReference] else Merchant(ctx.merchantId, "subscription");
      var opens := && (known || ctx.allowDemoCreation)
                   && cmd.idempotencyKey !in db.events.byKey && ctx.eventId !in db.events.rows
                   && (m.merchantId, cmd.event.externalEventId, cmd.event.eventType) !in db.events.bySlot
                   && ctx.caseId !in db.cases && OpensCase(cmd.event, m.segment, ctx.now);
      && b.cases.Keys == db.cases.Keys + (if opens then {ctx.caseId} else {})
      && b.caseOrder == db.caseOrder + (if opens then [ctx.caseId] else [])
  {
    hide Ingest, MerchantFor, Qualification.Qualify, OpensCase;
    IngestsFor(db, cmd, ctx);
    if MerchantFor(db, cmd, ctx).Some? { QualifiesExactly(cmd.event, MerchantFor(db, cmd, ctx).value.segment, ctx.now); }
    OpeningFor(db, cmd, ctx);
  }

  lemma QualifiesExactly(event: RevenueEvent, segment: string, now: int)
    ensures OpensCase(event, segment, now) <==>
      Qualification.Qualify(event, DEFAULT_CONFIG, segment, now).shouldCreateCase && !event.eventType.PaymentRecovered?
  {
    hide Qualification.Objections;
  }

  lemma OpeningFor(db: Db, cmd: IngestionCommand, ctx: IngestionContext)
    ensures var b, m := After(db, Ingest(db, cmd, ctx)), MerchantFor(db, cmd, ctx);
      var opens := && m.Some? && cmd.idempotencyKey !in db.events.byKey && ctx.eventId !in db.events.rows
                   && (m.value.merchantId, cmd.event.externalEventId, cmd.event.eventType) !in db.events.bySlot
                   && ctx.caseId !in db.cases && !cmd.event.eventType.PaymentRecovered?
                   && Qualification.Qualify(cmd.event, DEFAULT_CONFIG, m.value.segment, ctx.now).shouldCreateCase;
      && b.cases.Keys == db.cases.Keys + (if opens then {ctx.caseId} else {})
      && b.caseOrder == db.caseOrder + (if opens then [ctx.caseId] else [])
  {
    hide Qualification.Qualify, LatestOpenCase, ReplayReceipt, CustomerFor, MerchantFor;
  }

  lemma IngestsFor(db: Db, cmd: IngestionCommand, ctx: IngestionContext)
    ensures var known := cmd.merchantReference in db.people.merchants;
      MerchantFor(db, cmd, ctx) ==
        if known then Some(db.people.merchants[cmd.merchantReference])
        else if ctx.allowDemoCreation then Some(Merchant(ctx.merchantId, "subscription")) else None
  {}

  /** The stored event of a notice belongs to the merchant and the customer it names, and so does the case. */
  ghost predicate SameOwner(db: Db, rc: RecoveryCase, cmd: IngestionCommand, ctx: IngestionContext) {
    && cmd.merchantReference in db.people.merchants
    && db.people.merchants[cmd.merchantReference].merchantId == rc.merchantId
    && (rc.merchantId, cmd.customerReference) in db.people.customers
    && db.people.customers[(rc.merchantId, cmd.customerReference)] == rc.customerId
    && ctx.eventId in db.events.rows && db.events.rows[ctx.eventId].event == cmd.event
    && db.events.rows[ctx.eventId].merchantId == rc.merchantId
    && db.events.rows[ctx.eventId].customerId == rc.customerId
  }

  /** An ingested event changes the state of a stored case exactly if it is a new notice of recovery, and then the case is
      the latest open one of the merchant and the customer that the notice names. */
  lemma NoticesRecoverTheirCustomer(db: Db, cmd: IngestionCommand, ctx: IngestionContext, c: string)
    requires c in db.cases && ChangesState(db, After(db, Ingest(db, cmd, ctx)), c)
    ensures var b, rc := After(db, Ingest(db, cmd, ctx)), db.cases[c];
      && cmd.event.eventType.PaymentRecovered? && cmd.idempotencyKey !in db.events.byKey
      && c in b.cases && b.cases[c].state.Recovered? && !rc.state.Recovered?
      && SameOwner(b, rc, cmd, ctx)
      && exists k | 0 <= k < |db.caseOrder| ::
           db.caseOrder[k] == c && LaterAreRecovered(db.cases, db.caseOrder, rc.merchantId, rc.customerId, k)
  {
    IngestChanges(db, cmd, ctx, c);
    var m := MerchantFor(db, cmd, ctx).value;
    LatestOpenExactly(db.cases, db.caseOrder, m.merchantId, CustomerFor(db, cmd, ctx, m));
    NoticeWrites(db, cmd, ctx, c);
    hide Ingest, LatestOpenCase, LaterAreRecovered;
  }

  lemma NoticeWrites(db: Db, cmd: IngestionCommand, ctx: IngestionContext, c: string)
    requires IngestMoves(db, cmd, ctx, c)
    ensures var b, m := After(db, Ingest(db, cmd, ctx)), MerchantFor(db, cmd, ctx).value;
      var recorded := Recorded(db, cmd, ctx, m, CustomerFor(db, cmd, ctx, m));
      b.people == recorded.people && b.events == recorded.events && c in b.cases && b.cases[c].state.Recovered?
  {
    hide Qualification.Qualify, LatestOpenCase, ReplayReceipt, MerchantFor, CustomerFor;
  }

  // ---- replays ----

  lemma CaseOfEventStems(cases: map<string, RecoveryCase>, order: seq<string>, eventId: string)
    ensures var r := CaseOfEvent(cases, order, eventId);
      && (r.Some? ==> r.value in cases && r.value in order && cases[r.value].sourceEventId == eventId)
      && (r.None? ==> forall c | c in order && c in cases :: cases[c].sourceEventId != eventId)
    decreases order
  {}

  /** What a replay of a known key answers: its event, a case that stems from it if there is one, and an eligibility in
      which no failed payment is eligible, because its reason is not read back. */
  lemma ReplayExactly(db: Db, cmd: IngestionCommand, ctx: IngestionContext)
    requires cmd.idempotencyKey in db.events.byKey && db.events.byKey[cmd.idempotencyKey] in db.events.rows
    ensures var tx, eventId := Ingest(db, cmd, ctx), db.events.byKey[cmd.idempotencyKey];
      var event := db.events.rows[eventId].event;
      && tx.Commit? && tx.db == db && tx.value.idempotentReplay && tx.value.eventId == eventId
      && (tx.value.caseId.Some? ==>
            tx.value.caseId.value in db.cases && db.cases[tx.value.caseId.value].sourceEventId == eventId)
      && (tx.value.caseId.None? ==> forall c | c in db.caseOrder && c in db.cases :: db.cases[c].sourceEventId != eventId)
      && tx.value.qualification.Some?
      && (tx.value.qualification.value.eligible <==>
            event.eventType != PaymentFailed && OpensCase(event, "default", ctx.now))
  {
    CaseOfEventStems(db.cases, db.caseOrder, db.events.byKey[cmd.idempotencyKey]);
    hide Qualification.Objections, CaseOfEvent;
  }

  // ---- where results lead ----

  /** The worker whose result is persisted, of the case of its job. */
  predicate Persisting(s: System, st: Step, c: string) {
    st.Persist? && st.worker in s.workers && s.workers[st.worker].Called? && s.workers[st.worker].job.caseId == c
  }

  predicate RecoversAll(pc: Pc)
    requires pc.Called?
  {
    && pc.plan.interventionType.PaymentRetry? && pc.result.success
    && pc.result.recovered.Some? && pc.result.recovered.value >= pc.atRisk
  }

  predicate OnlySends(pc: Pc)
    requires pc.Called?
  {
    pc.result.success && pc.plan.interventionType in {PaymentLink, EmailReminder, SmsReminder}
  }

  /** The causes of the states that end or suspend a case, in every run: it is recovered only by a retry that recovered
      all that was at risk, by a captured payment, or by a notice for its own customer; it waits for its customer only
      after a link or a reminder was sent; it is ambiguous only after a timeout. */
  lemma {:induction false} ResultsHaveProvenance(log: seq<Step>, st: Step, c: string)
    requires ChangesState(Exec(START, log).db, Apply(Exec(START, log), st).db, c)
    ensures var s := Exec(START, log);
      var t, to := Apply(s, st), Apply(s, st).db.cases[c].state;
      && (to.Recovered? ==>
            || (Persisting(s, st, c) && RecoversAll(s.workers[st.worker]))
            || st == Capture(c)
            || (st.IngestEvent? && SameOwner(t.db, s.db.cases[c], st.cmd, st.ctx)))
      && (to.AwaitingCustomerAction? ==> Persisting(s, st, c) && OnlySends(s.workers[st.worker]))
      && (to.Ambiguous? ==> Persisting(s, st, c) && !s.workers[st.worker].result.success && s.workers[st.worker].result.timedOut)
      && (to.Failed? ==> st.Reconcile? || (Persisting(s, st, c) && !OnlySends(s.workers[st.worker])))
      && (to.Retryable? ==> st.CommitPlan? || st.Retry?)
      && (to.Stopped? ==> st.CommitPlan? || st == Mark(c, false))
      && (to.Escalated? ==> st.CommitPlan? || st.Sweep? || st == Mark(c, true))
  {
    hide Exec, Apply, SystemOk, Trail, SilentWrites, ChangesState, Moves;
    var s := Exec(START, log);
    RunsKeepEverything(log);
    StateChanged(s, st, c);
    MovesExactly(s, st, c);
    EveryStep(s, st, c);
    if st.Persist? { PersistedState(s, st, c); }
    else if st.IngestEvent? {
      IngestStepDb(s, st);
      NoticesRecoverTheirCustomer(s.db, st.cmd, st.ctx, c);
    } else {
      CaseIsNamed(s, st, c);
      if st.Mark? { MarkedState(s, st, c); }
    }
  }

  lemma MarkedState(s: System, st: Step, c: string)
    requires st.Mark? && ChangesState(s.db, Apply(s, st).db, c)
    ensures Apply(s, st).db.cases[c].state == if st.escalate then Escalated else Stopped
  {
    MarkStepDb(s, st);
    hide Apply;
  }

  lemma MarkStepDb(s: System, st: Step)
    requires st.Mark?
    ensures Apply(s, st) == s.(db := MarkCase(s.db, st.caseId, if st.escalate then Escalated else Stopped))
  {
    hide MarkCase;
  }

  lemma StateChanged(s: System, st: Step, c: string)
    requires ChangesState(s.db, Apply(s, st).db, c)
    ensures c in s.db.cases && c in Apply(s, st).db.cases && Apply(s, st).db.cases[c].state != s.db.cases[c].state
  {
    hide Apply;
  }

  lemma CaseIsNamed(s: System, st: Step, c: string)
    requires c in s.db.cases && Moves(s, st, c)
    ensures st.Mark? || st.Capture? ==> st.caseId == c
  {}

  lemma PersistedState(s: System, st: Step, c: string)
    requires SystemOk(s) && st.Persist? && ChangesState(s.db, Apply(s, st).db, c)
    ensures Persisting(s, st, c)
    ensures var pc, to := s.workers[st.worker], Apply(s, st).db.cases[c].state;
      && (to.Recovered? ==> RecoversAll(pc))
      && (to.AwaitingCustomerAction? ==> OnlySends(pc))
      && (to.Ambiguous? ==> !pc.result.success && pc.result.timedOut)
      && (to.Failed? ==> !OnlySends(pc))
  {
    hide SystemOk, Apply, PersistExecutionResult, MapOutcome, Trail;
    PersistStepDb(s, st);
    if st.worker in s.workers && s.workers[st.worker].Called? {
      var pc := s.workers[st.worker];
      var (next, remaining) := MapOutcome(pc.plan.interventionType, pc.result, pc.atRisk);
      ResultHistory(s.db, pc.id, StatusOf(pc.result), pc.result.recovered, next, remaining, c);
      RowOfWorker(s, st.worker);
      TypeIsAutomatic(s, st.worker);
      ResultExactly(pc.plan.interventionType, pc.result, pc.atRisk);
    }
  }

  lemma TypeIsAutomatic(s: System, w: string)
    requires SystemOk(s) && w in s.workers && HasRow(s.workers[w])
    ensures s.workers[w].plan.interventionType in {PaymentRetry, PaymentLink, EmailReminder, SmsReminder}
  {
    hide QueueOk, DraftsOk, CasesOk, OutboxOk, InterventionsOk, IndexesOk, OutcomesOk;
    TableParts(s.db);
    assert PcOk(s.workers[w], s.db);
    var plan := s.workers[w].plan;
    assert PlanOk(plan, s.db.cases, s.db.events);
    AutomaticTypesAre(Diagnosis.CauseOf(s.db.events.rows[s.db.cases[plan.caseId].sourceEventId].event));
  }

  lemma AutomaticTypesAre(cause: RootCause)
    ensures AutomaticTypes(cause) <= {PaymentRetry, PaymentLink, EmailReminder, SmsReminder}
  {}
}
