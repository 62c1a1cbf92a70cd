/** The ingestion repository (libs/persistence/src/repositories/prisma/ingestion.ts). */
module IngestionRepository {
  import opened Contracts
  import opened Qualification
  import opened Store
  import opened Repositories

  class IngestionRepository {
    const db: Database

    constructor (db: Database)
      ensures this.db == db
    {
      this.db := db;
    }

    /** Finds the merchant, or creates a demonstration merchant where that is allowed. */
    method ResolveMerchant(cmd: IngestionCommand, ctx: IngestionContext) returns (r: Option<Merchant>)
      modifies db
      ensures r == MerchantFor(old(db.tables), cmd, ctx)
      ensures db.tables == if r.None? then old(db.tables) else
        old(db.tables).(people := old(db.tables.people).(
          merchants := old(db.tables.people.merchants)[cmd.merchantReference := r.value]))
    {
      if !ctx.allowDemoCreation {
        if cmd.merchantReference !in db.tables.people.merchants { return None; }
        r := Some(db.tables.people.merchants[cmd.merchantReference]);
      } else if cmd.merchantReference in db.tables.people.merchants {
        r := Some(db.tables.people.merchants[cmd.merchantReference]);
      } else {
        r := Some(Merchant(ctx.merchantId, "subscription"));
      }
      db.tables := db.tables.(people := db.tables.people.(
        merchants := db.tables.people.merchants[cmd.merchantReference := r.value]));
    }

    method ResolveCustomer(cmd: IngestionCommand, ctx: IngestionContext, merchant: Merchant) returns (customer: string)
      modifies db
      ensures customer == CustomerFor(old(db.tables), cmd, ctx, merchant)
      ensures db.tables == old(db.tables).(people := old(db.tables.people).(
        customers := old(db.tables.people.customers)[(merchant.merchantId, cmd.customerReference) := customer]))
    {
      var k := (merchant.merchantId, cmd.customerReference);
      if k in db.tables.people.customers {
        customer := db.tables.people.customers[k];
      } else {
        customer := ctx.customerId;
      }
      db.tables := db.tables.(people := db.tables.people.(customers := db.tables.people.customers[k := customer]));
    }

    method CreateEvent(cmd: IngestionCommand, ctx: IngestionContext, merchant: Merchant, customer: string)
      returns (created: bool)
      modifies db
      ensures created <==>
        && ctx.eventId !in old(db.tables.events.rows)
        && cmd.idempotencyKey !in old(db.tables.events.byKey)
        && (merchant.merchantId, cmd.event.externalEventId, cmd.event.eventType) !in old(db.tables.events.bySlot)
      ensures !created ==> db.tables == old(db.tables)
      ensures created ==> db.tables == old(db.tables).(events := EventTable(
        old(db.tables.events.rows)[ctx.eventId := StoredEvent(cmd.event, merchant.merchantId, customer, cmd.idempotencyKey)],
        old(db.tables.events.byKey)[cmd.idempotencyKey := ctx.eventId],
        old(db.tables.events.bySlot)[(merchant.merchantId, cmd.event.externalEventId, cmd.event.eventType) := ctx.eventId]))
    {
      var t := db.tables.events;
      var slot := (merchant.merchantId, cmd.event.externalEventId, cmd.event.eventType);
      if ctx.eventId in t.rows || cmd.idempotencyKey in t.byKey || slot in t.bySlot { return false; }
      db.tables := db.tables.(events := EventTable(
        t.rows[ctx.eventId := StoredEvent(cmd.event, merchant.merchantId, customer, cmd.idempotencyKey)],
        t.byKey[cmd.idempotencyKey := ctx.eventId],
        t.bySlot[slot := ctx.eventId]));
      return true;
    }

    /** Writes merchant, customer, event and audit row; the value tells whether the unique indexes allowed it. */
    method Record(cmd: IngestionCommand, ctx: IngestionContext) returns (r: Result<(Merchant, string), TxError>)
      requires cmd.idempotencyKey !in db.tables.events.byKey
      modifies db
      ensures r.Ok? ==>
        && MerchantFor(old(db.tables), cmd, ctx) == Some(r.value.0)
        && r.value.1 == CustomerFor(old(db.tables), cmd, ctx, r.value.0)
        && db.tables == Recorded(old(db.tables), cmd, ctx, r.value.0, r.value.1)
        && ctx.eventId !in old(db.tables.events.rows)
        && (r.value.0.merchantId, cmd.event.externalEventId, cmd.event.eventType) !in old(db.tables.events.bySlot)
      ensures r.Err? ==>
        || (r == Err(MerchantNotFound) && MerchantFor(old(db.tables), cmd, ctx).None?)
        || (r == Err(UniqueViolation) && MerchantFor(old(db.tables), cmd, ctx).Some?
            && (ctx.eventId in old(db.tables.events.rows)
                || (MerchantFor(old(db.tables), cmd, ctx).value.merchantId, cmd.event.externalEventId, cmd.event.eventType)
                   in old(db.tables.events.bySlot)))
    {
      var merchant := ResolveMerchant(cmd, ctx);
      if merchant.None? { return Err(MerchantNotFound); }
      var customer := ResolveCustomer(cmd, ctx, merchant.value);
      var created := CreateEvent(cmd, ctx, merchant.value, customer);
      if !created { return Err(UniqueViolation); }
      db.AppendAudit(PlainAudit(SystemActor, EventIngested, EventEntity, ctx.eventId));
      return Ok((merchant.value, customer));
    }

    /** Marks the customer's latest open case as recovered; the update has no version guard. */
    method RecoverLatestCase(merchantId: string, customerId: string) returns (c: Option<string>)
      modifies db
      ensures (db.tables, c) == RecoverLatest(old(db.tables), merchantId, customerId)
    {
      c := LatestOpenCase(db.tables.cases, db.tables.caseOrder, merchantId, customerId);
      if c.Some? {
        var active := db.tables.cases[c.value];
        db.tables := db.tables.(cases := db.tables.cases[c.value :=
          active.(state := Recovered, version := active.version + 1)]);
        db.AppendAudit(CaseAudit(SystemActor, CaseRecoveredByEvent, c.value, active.state, Recovered));
      }
    }

    method CreateCase(rc: RecoveryCase) returns (created: bool)
      modifies db
      ensures created <==> rc.caseId !in old(db.tables.cases)
      ensures db.tables == if created then OpenCase(old(db.tables), rc) else old(db.tables)
    {
      if rc.caseId in db.tables.cases { return false; }
      db.tables := db.tables.(cases := db.tables.cases[rc.caseId := rc], caseOrder := db.tables.caseOrder + [rc.caseId]);
      db.AppendAudit(AuditRow(SystemActor, CaseCreated, CaseEntity, rc.caseId, None, Some(rc.state)));
      return true;
    }

    method IngestEventAndCreateCaseIfEligible(cmd: IngestionCommand, ctx: IngestionContext)
      returns (r: Result<Receipt, TxError>)
      modifies db
      ensures var tx := Ingest(old(db.tables), cmd, ctx);
        && r == (if tx.Commit? then Ok(tx.value) else Err(tx.error))
        && db.tables == After(old(db.tables), tx)
    {
      hide RecoverLatest, Recorded, OpenCase, ReplayReceipt, CustomerFor, MerchantFor;
      var before := db.tables;
      if cmd.idempotencyKey in db.tables.events.byKey {
        return Ok(ReplayReceipt(db.tables, db.tables.events.byKey[cmd.idempotencyKey], ctx.now));
      }
      var recorded := Record(cmd, ctx);
      if recorded.Err? {
        db.tables := before;
        return Err(recorded.error);
      }
      var (merchant, customer) := recorded.value;
      var qual := QualifyRevenueEvent(cmd.event, DEFAULT_CONFIG, merchant.segment, ctx.now);
      if cmd.event.eventType == PaymentRecovered {
        var c := RecoverLatestCase(merchant.merchantId, customer);
        return Ok(Receipt(ctx.eventId, c, false, Some(qual)));
      }
      if qual.shouldCreateCase && qual.initialState.Some? && qual.amountAtRisk.Some? {
        var rc := RecoveryCase(ctx.caseId, ctx.eventId, merchant.merchantId, customer,
          qual.amountAtRisk.value, cmd.event.currency, qual.initialState.value, 0, 1);
        assert rc == NewCase(cmd, ctx, merchant, customer);
        SameCases(before, cmd, ctx, merchant, customer);
        var created := CreateCase(rc);
        if !created {
          db.tables := before;
          return Err(UniqueViolation);
        }
        return Ok(Receipt(ctx.eventId, Some(ctx.caseId), false, Some(qual)));
      }
      return Ok(Receipt(ctx.eventId, None, false, Some(qual)));
    }
  }

  lemma SameCases(db: Db, cmd: IngestionCommand, ctx: IngestionContext, merchant: Merchant, customer: string)
    ensures Recorded(db, cmd, ctx, merchant, customer).cases == db.cases
  {}
}
