/** Ingestion is exactly-once. */
module IngestionReplay {
  import opened Contracts
  import opened Qualification
  import opened Store
  import opened TableIntegrity
  import opened Protocol
  import opened ProtocolInvariant
  import opened CaseHistory
  import opened AuditReplay

  // ---- logs of commands ----

  datatype Request = Request(cmd: IngestionCommand, ctx: IngestionContext)

  function Receive(db: Db, r: Request): Db {
    After(db, Ingest(db, r.cmd, r.ctx))
  }

  function ReceiveAll(db: Db, log: seq<Request>): Db {
    if log == [] then db else Receive(ReceiveAll(db, log[..|log| - 1]), log[|log| - 1])
  }

  /** The request is the first of its key to be accepted. */
  predicate FirstAccepted(db: Db, r: Request) {
    r.cmd.idempotencyKey !in db.events.byKey && Ingest(db, r.cmd, r.ctx).Commit?
  }

  function Kept(db: Db, log: seq<Request>): seq<Request> {
    if log == [] then []
    else
      var init, r := log[..|log| - 1], log[|log| - 1];
      Kept(db, init) + if FirstAccepted(ReceiveAll(db, init), r) then [r] else []
  }

  lemma RejectedChangesNothing(db: Db, r: Request)
    ensures !FirstAccepted(db, r) ==> Receive(db, r) == db
  {
    hide Recorded, RecoverLatest, OpenCase, ReplayReceipt, MerchantFor, CustomerFor, Qualify;
  }

  /** The event table after the first request of a key. */
  lemma AcceptedEvents(db: Db, r: Request)
    requires FirstAccepted(db, r)
    ensures MerchantFor(db, r.cmd, r.ctx).Some? && r.ctx.eventId !in db.events.rows
    ensures var merchant := MerchantFor(db, r.cmd, r.ctx).value;
      Receive(db, r).events ==
        Recorded(db, r.cmd, r.ctx, merchant, CustomerFor(db, r.cmd, r.ctx, merchant)).events
  {
    hide Recorded, ReplayReceipt, MerchantFor, CustomerFor, Qualify, LatestOpenCase;
  }

  lemma OnlyFirstsMatter(db: Db, r: Request)
    ensures !FirstAccepted(db, r) ==> Receive(db, r) == db
    ensures FirstAccepted(db, r) ==>
      && Receive(db, r).events.byKey == db.events.byKey[r.cmd.idempotencyKey := r.ctx.eventId]
      && r.ctx.eventId !in db.events.rows && r.ctx.eventId in Receive(db, r).events.rows
      && Receive(db, r).events.rows == db.events.rows[r.ctx.eventId := Receive(db, r).events.rows[r.ctx.eventId]]
      && Receive(db, r).events.rows[r.ctx.eventId].key == r.cmd.idempotencyKey
  {
    RejectedChangesNothing(db, r);
    if FirstAccepted(db, r) {
      AcceptedEvents(db, r);
      hide Receive, MerchantFor, CustomerFor, FirstAccepted;
    }
  }

  lemma ReceiveLast(db: Db, log: seq<Request>, r: Request)
    ensures ReceiveAll(db, log + [r]) == Receive(ReceiveAll(db, log), r)
  {
    hide Receive;
    assert (log + [r])[..|log|] == log;
  }

  /** Whatever is repeated, and however often, the store is the one that the first accepted request of every key
      produces. */
  lemma {:induction false} RepeatsDoNotMatter(db: Db, log: seq<Request>)
    ensures ReceiveAll(db, log) == ReceiveAll(db, Kept(db, log))
    decreases |log|
  {
    if log != [] {
      hide Receive, FirstAccepted;
      var init, r := log[..|log| - 1], log[|log| - 1];
      RepeatsDoNotMatter(db, init);
      OnlyFirstsMatter(ReceiveAll(db, init), r);
      ReceiveLast(db, Kept(db, init), r);
      assert Kept(db, init) + [] == Kept(db, init);
    }
  }

  /** The kept requests have distinct keys, and together they are exactly the keys of the store. */
  lemma {:induction false} KeptKeys(log: seq<Request>)
    ensures var kept := Kept(EMPTY, log);
      && (forall j, k | 0 <= j < k < |kept| :: kept[j].cmd.idempotencyKey != kept[k].cmd.idempotencyKey)
      && (forall k | 0 <= k < |kept| :: kept[k].cmd.idempotencyKey in ReceiveAll(EMPTY, log).events.byKey)
      && (forall key | key in ReceiveAll(EMPTY, log).events.byKey ::
            exists k | 0 <= k < |kept| :: kept[k].cmd.idempotencyKey == key)
  {
    if log != [] {
      hide Receive;
      var init, r := log[..|log| - 1], log[|log| - 1];
      KeptKeys(init);
      OnlyFirstsMatter(ReceiveAll(EMPTY, init), r);
      var before, kept := Kept(EMPTY, init), Kept(EMPTY, log);
      forall key | key in ReceiveAll(EMPTY, log).events.byKey
        ensures exists k | 0 <= k < |kept| :: kept[k].cmd.idempotencyKey == key
      {
        if key in ReceiveAll(EMPTY, init).events.byKey {
          var k :| 0 <= k < |before| && before[k].cmd.idempotencyKey == key;
          assert kept[k] == before[k];
        } else {
          assert kept[|kept| - 1] == r;
        }
      }
    }
  }

  // ---- inside any run of the whole system ----

  /** Keys and events determine each other, no two cases stem from one event, and the creation order lists the cases. */
  ghost predicate EventsOk(db: Db) {
    && (forall k | k in db.events.byKey :: db.events.byKey[k] in db.events.rows && db.events.rows[db.events.byKey[k]].key == k)
    && (forall e | e in db.events.rows :: db.events.rows[e].key in db.events.byKey && db.events.byKey[db.events.rows[e].key] == e)
  }

  ghost predicate SourcesOk(db: Db) {
    && (forall c | c in db.cases :: c in db.caseOrder && db.cases[c].sourceEventId in db.events.rows)
    && (forall c | c in db.caseOrder :: c in db.cases)
    && (forall c, d | c in db.cases && d in db.cases && db.cases[c].sourceEventId == db.cases[d].sourceEventId :: c == d)
  }

  /** The cases and the events are the same, up to what never changes in them. */
  ghost predicate SameSources(a: Db, b: Db) {
    && b.events == a.events && b.caseOrder == a.caseOrder
    && (forall c | c in b.cases :: c in a.cases && b.cases[c].sourceEventId == a.cases[c].sourceEventId)
    && (forall c | c in a.cases :: c in b.cases)
  }

  lemma SameSourcesKeep(a: Db, b: Db)
    requires EventsOk(a) && SourcesOk(a) && SameSources(a, b)
    ensures EventsOk(b) && SourcesOk(b)
  {}

  lemma IngestKeepsEvents(db: Db, cmd: IngestionCommand, ctx: IngestionContext)
    requires EventsOk(db)
    ensures EventsOk(After(db, Ingest(db, cmd, ctx)))
  {
    hide EventsOk;
    OnlyFirstsMatter(db, Request(cmd, ctx));
    if FirstAccepted(db, Request(cmd, ctx)) {
      NewEventKeeps(db, After(db, Ingest(db, cmd, ctx)), cmd.idempotencyKey, ctx.eventId);
    }
  }

  lemma NewEventKeeps(a: Db, b: Db, key: string, e: string)
    requires EventsOk(a) && key !in a.events.byKey && e !in a.events.rows && e in b.events.rows
    requires b.events.byKey == a.events.byKey[key := e]
    requires b.events.rows == a.events.rows[e := b.events.rows[e]] && b.events.rows[e].key == key
    ensures EventsOk(b)
  {}

  lemma IngestKeepsSources(db: Db, cmd: IngestionCommand, ctx: IngestionContext)
    requires SourcesOk(db)
    ensures SourcesOk(After(db, Ingest(db, cmd, ctx)))
  {
    hide Qualify, ReplayReceipt, SourcesOk, Recorded, OpenCase, RecoverLatest;
    var tx := Ingest(db, cmd, ctx);
    if tx.Commit? && cmd.idempotencyKey !in db.events.byKey {
      var merchant := MerchantFor(db, cmd, ctx).value;
      var customer := CustomerFor(db, cmd, ctx, merchant);
      var recorded := Recorded(db, cmd, ctx, merchant, customer);
      RecordedKeepsSources(db, cmd, ctx, merchant, customer);
      RecoverLatestKeepsSources(recorded, merchant.merchantId, customer);
      if ctx.caseId !in db.cases { OpenCaseKeepsSources(recorded, NewCase(cmd, ctx, merchant, customer)); }
    }
  }

  lemma RecordedKeepsSources(db: Db, cmd: IngestionCommand, ctx: IngestionContext, merchant: Merchant, customer: string)
    requires SourcesOk(db) && ctx.eventId !in db.events.rows
    ensures var b := Recorded(db, cmd, ctx, merchant, customer);
      && SourcesOk(b) && b.cases == db.cases && ctx.eventId in b.events.rows
      && forall c | c in b.cases :: b.cases[c].sourceEventId != ctx.eventId
  {}

  lemma RecoverLatestKeepsSources(db: Db, merchantId: string, customerId: string)
    requires SourcesOk(db)
    ensures SourcesOk(RecoverLatest(db, merchantId, customerId).0)
  {
    hide LatestOpenCase;
  }

  lemma OpenCaseKeepsSources(db: Db, rc: RecoveryCase)
    requires SourcesOk(db) && rc.caseId !in db.cases && rc.sourceEventId in db.events.rows
    requires forall c | c in db.cases :: db.cases[c].sourceEventId != rc.sourceEventId
    ensures SourcesOk(OpenCase(db, rc))
  {}

  ghost predicate KeepsEvents(a: Db, b: Db) {
    b.events == a.events && b.caseOrder == a.caseOrder
  }

  lemma OthersKeepEvents(s: System, st: Step)
    requires !st.IngestEvent?
    ensures KeepsEvents(s.db, Apply(s, st).db)
  {
    hide KeepsEvents, EnqueuePlan, SweepIntervention, FreeLease, ScheduleRetry, BlockExecution, MarkCase, CaptureUpdate;
    hide CaptureAudit, Planning.Propose, Worker.Validate, Worker.KeyOf, Worker.AlreadyExecuted, ClaimExecutionLock,
      Claimable;
    hide Protocol.Locked, CreatePlan, PrepareIntervention, Persists, Reconciles, Worker.CommandOf;
    CaseWritesKeepEvents(s.db, st);
    RowWritesKeepEvents(s.db, st);
    WorkersKeepEvents(s.db);
    if st.Persist? { PersistKeepsEvents(s, st.worker); }
  }

  lemma PersistKeepsEvents(s: System, w: string)
    ensures KeepsEvents(s.db, Persists(s, w).db)
  {
    hide Worker.MapOutcome;
  }

  lemma CaseWritesKeepEvents(db: Db, st: Step)
    ensures KeepsEvents(db, db)
    ensures st.Enqueue? ==> KeepsEvents(db, After(db, EnqueuePlan(db, st.caseId, st.planId, st.outboxId, st.now)))
    ensures st.Mark? ==> KeepsEvents(db, MarkCase(db, st.caseId, if st.escalate then Escalated else Stopped))
    ensures st.Capture? ==> KeepsEvents(db, CaptureUpdate(db, st.caseId))
    ensures st.LogCapture? ==> KeepsEvents(db, CaptureAudit(db, st.caseId, st.previous))
  {}

  lemma RowWritesKeepEvents(db: Db, st: Step)
    ensures forall i, lease :: KeepsEvents(db, ClaimExecutionLock(db, i, lease))
    ensures st.Sweep? ==> KeepsEvents(db, After(db, SweepIntervention(db, st.id)))
    ensures st.Release? ==> KeepsEvents(db, FreeLease(db, st.id))
    ensures st.Retry? ==> KeepsEvents(db, ScheduleRetry(db, st.id))
    ensures st.Block? ==> KeepsEvents(db, After(db, BlockExecution(db, st.id)))
  {}

  lemma WorkersKeepEvents(db: Db)
    ensures forall plan, next :: KeepsEvents(db, After(db, CreatePlan(db, plan, next)))
    ensures forall cmd, id :: KeepsEvents(db, After(db, PrepareIntervention(db, cmd, id)))
    ensures forall i :: KeepsEvents(db, Reconciles(db, i))
  {}

  lemma StepKeepsSources(s: System, st: Step)
    requires SystemOk(s) && EventsOk(s.db) && SourcesOk(s.db)
    ensures EventsOk(Apply(s, st).db) && SourcesOk(Apply(s, st).db)
  {
    hide SystemOk, EventsOk, SourcesOk;
    if st.IngestEvent? {
      IngestKeepsEvents(s.db, st.cmd, st.ctx);
      IngestKeepsSources(s.db, st.cmd, st.ctx);
    } else {
      OthersKeepEvents(s, st);
      OthersKeepCases(s, st);
      SameSourcesKeep(s.db, Apply(s, st).db);
    }
  }

  lemma OthersKeepCases(s: System, st: Step)
    requires SystemOk(s) && !st.IngestEvent?
    ensures var t := Apply(s, st);
      && (forall c | c in t.db.cases :: c in s.db.cases && t.db.cases[c].sourceEventId == s.db.cases[c].sourceEventId)
      && (forall c | c in s.db.cases :: c in t.db.cases)
  {
    hide SystemOk, Apply, Trail, SilentWrites;
    StepKeeps(s, st);
    var t := Apply(s, st);
    forall c | c in t.db.cases ensures c in s.db.cases && t.db.cases[c].sourceEventId == s.db.cases[c].sourceEventId {
      EveryStep(s, st, c);
      SourceStays(s.db, t.db, c);
    }
    forall c | c in s.db.cases ensures c in t.db.cases { SourceStays(s.db, t.db, c); }
  }

  lemma SourceStays(a: Db, b: Db, c: string)
    requires Evolves(a, b) && c in a.cases
    ensures c in b.cases && b.cases[c].sourceEventId == a.cases[c].sourceEventId
  {
    assert SameCase(a.cases[c], b.cases[c]);
  }

  lemma {:induction false} RunsIngestOnce(log: seq<Step>)
    ensures EventsOk(Exec(START, log).db) && SourcesOk(Exec(START, log).db)
  {
    if log != [] {
      hide Apply, SystemOk, EventsOk, SourcesOk;
      RunsIngestOnce(log[..|log| - 1]);
      RunsKeepEverything(log[..|log| - 1]);
      StepKeepsSources(Exec(START, log[..|log| - 1]), log[|log| - 1]);
    }
  }

  /** In every run of the whole system there is one event per key. */
  lemma {:induction false} OneEventPerKey(log: seq<Step>)
    ensures EventsOk(Exec(START, log).db)
  {
    hide *;
    RunsIngestOnce(log);
  }

  /** And at most one case per event. */
  lemma {:induction false} OneCasePerEvent(log: seq<Step>)
    ensures SourcesOk(Exec(START, log).db)
  {
    hide *;
    RunsIngestOnce(log);
  }

  // ---- replays ----

  lemma AcceptedKeyStays(a: Db, b: Db, key: string)
    requires Evolves(a, b) && key in a.events.byKey
    ensures key in b.events.byKey && b.events.byKey[key] == a.events.byKey[key]
  {}

  /** Once a key has been accepted, every later delivery of a command with that key changes nothing at all, however far
      the system has moved on: nothing is recovered again, no case is opened, no row is written. */
  lemma {:induction false} ReplaysChangeNothing(s: System, log: seq<Step>, cmd: IngestionCommand, ctx: IngestionContext)
    requires SystemOk(s) && cmd.idempotencyKey in s.db.events.byKey
    ensures var u := Exec(s, log);
      Apply(u, IngestEvent(cmd, ctx)) == u
  {
    hide SystemOk, Exec, Evolves;
    RecordsArePermanent(s, log);
    AcceptedKeyStays(s.db, Exec(s, log).db, cmd.idempotencyKey);
    ReplayIsNoWrite(Exec(s, log), cmd, ctx);
  }

  lemma ReplayIsNoWrite(u: System, cmd: IngestionCommand, ctx: IngestionContext)
    requires cmd.idempotencyKey in u.db.events.byKey
    ensures Apply(u, IngestEvent(cmd, ctx)) == u
  {
    hide ReplayReceipt;
  }

  lemma {:induction false} CaseOfEventFinds(cases: map<string, RecoveryCase>, order: seq<string>, c: string)
    requires c in cases && c in order
    requires forall d, e | d in cases && e in cases && cases[d].sourceEventId == cases[e].sourceEventId :: d == e
    ensures CaseOfEvent(cases, order, cases[c].sourceEventId) == Some(c)
    decreases order
  {
    if order[0] != c { CaseOfEventFinds(cases, order[1..], c); }
  }

  /** A replay names the event of the key and the one case that stems from it. */
  lemma ReplayNamesTheCase(db: Db, cmd: IngestionCommand, ctx: IngestionContext, c: string)
    requires EventsOk(db) && SourcesOk(db) && cmd.idempotencyKey in db.events.byKey
    requires c in db.cases && db.cases[c].sourceEventId == db.events.byKey[cmd.idempotencyKey]
    ensures var tx := Ingest(db, cmd, ctx);
      && tx.Commit? && tx.value.idempotentReplay
      && tx.value.eventId == db.events.byKey[cmd.idempotencyKey] && tx.value.caseId == Some(c)
  {
    hide Qualify;
    CaseOfEventFinds(db.cases, db.caseOrder, c);
  }

  /** The qualification a replay reports is computed without the failure reason. It agrees on eligibility with the one
      of the stored event exactly when that event is not an eligible payment failure. */
  lemma ReplayedQualification(event: RevenueEvent, segment: string, now: int)
    ensures Qualify(event.(failureReason := None), DEFAULT_CONFIG, segment, now).eligible
         == Qualify(event, DEFAULT_CONFIG, segment, now).eligible
      <==> !(event.eventType.PaymentFailed? && Qualify(event, DEFAULT_CONFIG, segment, now).eligible)
  {
    hide Objections;
  }
}
