/** The outbox repository and the polling publisher, as programs over the tables. */
module OutboxPublisher {
  import opened Contracts
  import opened Store
  import opened Repositories
  import opened Outbox

  /** The first n claimable rows in order of creation. */
  function Oldest(rows: map<string, OutboxRow>, created: seq<string>, n: nat, now: int): (batch: seq<string>)
    ensures |batch| <= n
    ensures forall o | o in batch :: o in created && o in rows && Leasable(rows[o], now)
  {
    if created == [] || n == 0 then []
    else if created[0] in rows && Leasable(rows[created[0]], now)
    then [created[0]] + Oldest(rows, created[1..], n - 1, now)
    else Oldest(rows, created[1..], n, now)
  }

  predicate Distinct(s: seq<string>) {
    forall j, k | 0 <= j < k < |s| :: s[j] != s[k]
  }

  /** Each row is claimed once, and a claimable row is passed over only if the batch is full of older ones. */
  lemma {:induction false} OldestComeFirst(rows: map<string, OutboxRow>, created: seq<string>, n: nat, now: int)
    requires Distinct(created)
    ensures var batch := Oldest(rows, created, n, now);
      && Distinct(batch)
      && forall k | 0 <= k < |created| && created[k] in rows && Leasable(rows[created[k]], now) && created[k] !in batch ::
           |batch| == n && forall o | o in batch :: o in created[..k]
    decreases created
  {
    if created != [] && n > 0 {
      var rest := created[1..];
      var taken := created[0] in rows && Leasable(rows[created[0]], now);
      var m := if taken then n - 1 else n;
      OldestComeFirst(rows, rest, m, now);
      assert created == [created[0]] + rest;
      var batch := Oldest(rows, created, n, now);
      forall k | 0 <= k < |created| && created[k] in rows && Leasable(rows[created[k]], now) && created[k] !in batch
        ensures |batch| == n && forall o | o in batch :: o in created[..k]
      {
        assert k > 0 && created[k] == rest[k - 1];
        assert created[..k] == [created[0]] + rest[..k - 1];
      }
    }
  }

  function LeaseAll(rows: map<string, OutboxRow>, batch: seq<string>, end: int): map<string, OutboxRow> {
    map o | o in rows :: if o in batch then Leased(rows[o], end) else rows[o]
  }

  class OutboxRepository {
    const db: Database

    constructor (db: Database)
      ensures this.db == db
    {
      this.db := db;
    }

    method ClaimPendingOutboxEvents(created: seq<string>, batchSize: nat, lockDurationMs: int, now: int)
      returns (batch: seq<string>)
      modifies db
      ensures batch == Oldest(old(db.tables.outbox.rows), created, batchSize, now)
      ensures db.tables == old(db.tables).(outbox := old(db.tables.outbox).(
        rows := LeaseAll(old(db.tables.outbox.rows), batch, now + lockDurationMs)))
    {
      var lockUntil := now + lockDurationMs;
      batch := Oldest(db.tables.outbox.rows, created, batchSize, now);
      db.tables := db.tables.(outbox := db.tables.outbox.(rows := LeaseAll(db.tables.outbox.rows, batch, lockUntil)));
    }

    /** Updates of a missing row fail; so may any update. */
    method UpdateRow(o: string, row: OutboxRow)
      requires o in db.tables.outbox.rows
      modifies db
      ensures db.tables == old(db.tables).(outbox := old(db.tables.outbox).(rows := old(db.tables.outbox.rows)[o := row]))
    {
      db.tables := db.tables.(outbox := db.tables.outbox.(rows := db.tables.outbox.rows[o := row]));
    }
  }

  /** How the surroundings treat one event: whether the queue accepts the job, the update that follows succeeds, and
      the update of the catch block succeeds; and the time at which the row is handled. */
  datatype Weather = Weather(queueAccepts: bool, marks: bool, recovers: bool, now: int)

  predicate Accepted(row: OutboxRow, w: Weather) {
    row.known && w.queueAccepts
  }

  /** The row after handling; none if even the catch block failed, which ends the poll. */
  function Handled(row: OutboxRow, w: Weather): Option<OutboxRow> {
    if row.known && w.queueAccepts && w.marks then Some(MarkedPublished(row))
    else if !row.known && w.marks then Some(MarkedFailed(row))
    else if w.recovers then Some(AfterError(row, row.attempts, w.now))
    else None
  }

  function JobsOf(rows: map<string, OutboxRow>, batch: seq<string>, weather: string -> Weather): seq<Job>
    requires forall o | o in batch :: o in rows
  {
    if batch == [] then []
    else
      var o := batch[|batch| - 1];
      JobsOf(rows, batch[..|batch| - 1], weather) + if Accepted(rows[o], weather(o)) then [rows[o].job] else []
  }

  function HandledRows(rows: map<string, OutboxRow>, done: seq<string>, weather: string -> Weather)
    : map<string, OutboxRow>
  {
    map o | o in rows ::
      if o in done && Handled(rows[o], weather(o)).Some? then Handled(rows[o], weather(o)).value else rows[o]
  }

  class OutboxPublisherService {
    const outboxRepo: OutboxRepository
    var isProcessing: bool
    var queue: seq<Job>

    constructor (outboxRepo: OutboxRepository)
      ensures this.outboxRepo == outboxRepo && !isProcessing && queue == []
    {
      this.outboxRepo := outboxRepo;
      isProcessing, queue := false, [];
    }

    /** Handles one event; false if the poll has to end. */
    method Handle(o: string, w: Weather) returns (go: bool)
      requires o in outboxRepo.db.tables.outbox.rows
      modifies this`queue, outboxRepo.db
      ensures go == Handled(old(outboxRepo.db.tables.outbox.rows[o]), w).Some?
      ensures HandledBy(o, w, old(outboxRepo.db.tables), old(queue), outboxRepo.db.tables, queue)
    {
      var event := outboxRepo.db.tables.outbox.rows[o];
      var failed := false;
      if event.known {
        if w.queueAccepts {
          queue := queue + [event.job];
          if w.marks { outboxRepo.UpdateRow(o, MarkedPublished(event)); } else { failed := true; }
        } else {
          failed := true;
        }
      } else if w.marks {
        outboxRepo.UpdateRow(o, MarkedFailed(event));
      } else {
        failed := true;
      }
      if failed {
        if !w.recovers { return false; }
        if event.attempts >= 3 {
          outboxRepo.UpdateRow(o, MarkedFailed(event));
        } else {
          var nextAvailable := w.now + Power(if event.attempts < 0 then 0 else event.attempts) * 1000;
          outboxRepo.UpdateRow(o, Rescheduled(event, nextAvailable));
        }
      }
      return true;
    }

    /** Handles the events in order until one of them ends the poll. */
    method HandleAll(batch: seq<string>, weather: string -> Weather) returns (handled: nat)
      requires Distinct(batch) && forall o | o in batch :: o in outboxRepo.db.tables.outbox.rows
      modifies this`queue, outboxRepo.db
      ensures Ended(old(outboxRepo.db.tables), old(queue), batch, weather, handled, outboxRepo.db.tables, queue)
    {
      hide Progress, Handled, HandledRows, JobsOf, Accepted, Distinct;
      ghost var before, queued := outboxRepo.db.tables, queue;
      handled := 0;
      NothingHandled(before, queued, batch, weather);
      while handled < |batch|
        invariant handled <= |batch|
        invariant Progress(before, queued, batch, weather, handled, outboxRepo.db.tables, queue)
      {
        var o := batch[handled];
        ghost var tables, jobs := outboxRepo.db.tables, queue;
        NextUntouched(before, queued, batch, weather, handled, tables, jobs);
        var go := Handle(o, weather(o));
        OneMoreHandled(before, queued, batch, weather, handled, tables, jobs, outboxRepo.db.tables, queue);
        if !go { return; }
        handled := handled + 1;
      }
      AllHandled(before, queued, batch, weather, outboxRepo.db.tables, queue);
    }

    /** Claims up to ten rows for thirty seconds and handles them in order. Every row of the batch that was reached is
        published, failed or rescheduled, its job is in the queue exactly if the queue accepted it, and the rows that
        were not reached keep their lease. */
    method Poll(created: seq<string>, now: int, weather: string -> Weather) returns (batch: seq<string>, handled: nat)
      requires Distinct(created)
      modifies this, outboxRepo.db
      ensures old(isProcessing) ==> isProcessing && queue == old(queue) && outboxRepo.db.tables == old(outboxRepo.db.tables)
      ensures !old(isProcessing) ==>
        var rows := old(outboxRepo.db.tables.outbox.rows);
        var leased := LeaseAll(rows, batch, now + 30000);
        && !isProcessing
        && batch == Oldest(rows, created, 10, now)
        && Ended(old(outboxRepo.db.tables).(outbox := old(outboxRepo.db.tables.outbox).(rows := leased)), old(queue),
                 batch, weather, handled, outboxRepo.db.tables, queue)
    {
      hide Ended;
      if isProcessing { return [], 0; }
      isProcessing := true;
      OldestComeFirst(outboxRepo.db.tables.outbox.rows, created, 10, now);
      batch := outboxRepo.ClaimPendingOutboxEvents(created, 10, 30000, now);
      handled := HandleAll(batch, weather);
      isProcessing := false;
    }
  }

  /** The first k events of the batch have been handled. */
  ghost predicate Progress(before: Db, queued: seq<Job>, batch: seq<string>, weather: string -> Weather, k: nat,
    tables: Db, queue: seq<Job>)
  {
    && k <= |batch| && Distinct(batch) && (forall o | o in batch :: o in before.outbox.rows)
    && (forall j | 0 <= j < k :: Handled(before.outbox.rows[batch[j]], weather(batch[j])).Some?)
    && tables == before.(outbox := before.outbox.(rows := HandledRows(before.outbox.rows, batch[..k], weather)))
    && queue == queued + JobsOf(before.outbox.rows, batch[..k], weather)
  }

  lemma NothingHandled(before: Db, queued: seq<Job>, batch: seq<string>, weather: string -> Weather)
    requires Distinct(batch) && forall o | o in batch :: o in before.outbox.rows
    ensures Progress(before, queued, batch, weather, 0, before, queued)
  {
    assert HandledRows(before.outbox.rows, batch[..0], weather) == before.outbox.rows;
  }

  lemma NextUntouched(before: Db, queued: seq<Job>, batch: seq<string>, weather: string -> Weather, k: nat,
    tables: Db, queue: seq<Job>)
    requires Progress(before, queued, batch, weather, k, tables, queue) && k < |batch|
    ensures batch[k] in tables.outbox.rows && batch[k] in before.outbox.rows
    ensures tables.outbox.rows[batch[k]] == before.outbox.rows[batch[k]]
  {}

  /** What one event does to the tables and the queue. */
  ghost predicate HandledBy(o: string, w: Weather, tables: Db, queue: seq<Job>, tables': Db, queue': seq<Job>)
    requires o in tables.outbox.rows
  {
    var row := tables.outbox.rows[o];
    && queue' == queue + (if Accepted(row, w) then [row.job] else [])
    && tables' == if Handled(row, w).None? then tables else
         tables.(outbox := tables.outbox.(rows := tables.outbox.rows[o := Handled(row, w).value]))
  }

  /** What all of them have done when the poll ends before event k. */
  ghost predicate Ended(before: Db, queued: seq<Job>, batch: seq<string>, weather: string -> Weather, k: nat,
    tables: Db, queue: seq<Job>)
    requires forall o | o in batch :: o in before.outbox.rows
  {
    var rows := before.outbox.rows;
    && k <= |batch|
    && (forall j | 0 <= j < k :: Handled(rows[batch[j]], weather(batch[j])).Some?)
    && (k < |batch| ==> Handled(rows[batch[k]], weather(batch[k])).None?)
    && tables == before.(outbox := before.outbox.(rows := HandledRows(rows, batch[..k], weather)))
    && queue == queued + JobsOf(rows, if k < |batch| then batch[..k + 1] else batch, weather)
  }

  lemma HandledLast(rows: map<string, OutboxRow>, batch: seq<string>, k: nat, weather: string -> Weather)
    requires Distinct(batch) && k < |batch| && batch[k] in rows && Handled(rows[batch[k]], weather(batch[k])).Some?
    ensures HandledRows(rows, batch[..k], weather)[batch[k] := Handled(rows[batch[k]], weather(batch[k])).value] ==
      HandledRows(rows, batch[..k + 1], weather)
  {
    assert batch[..k + 1] == batch[..k] + [batch[k]];
  }

  lemma JobsLast(rows: map<string, OutboxRow>, batch: seq<string>, k: nat, weather: string -> Weather)
    requires k < |batch| && forall o | o in batch :: o in rows
    ensures JobsOf(rows, batch[..k + 1], weather) ==
      JobsOf(rows, batch[..k], weather) + if Accepted(rows[batch[k]], weather(batch[k])) then [rows[batch[k]].job] else []
  {
    assert batch[..k + 1][..k] == batch[..k];
  }

  lemma OneMoreHandled(before: Db, queued: seq<Job>, batch: seq<string>, weather: string -> Weather, k: nat,
    tables: Db, queue: seq<Job>, tables': Db, queue': seq<Job>)
    requires Progress(before, queued, batch, weather, k, tables, queue) && k < |batch|
    requires batch[k] in tables.outbox.rows && batch[k] in before.outbox.rows
    requires HandledBy(batch[k], weather(batch[k]), tables, queue, tables', queue')
    ensures if Handled(before.outbox.rows[batch[k]], weather(batch[k])).Some?
            then Progress(before, queued, batch, weather, k + 1, tables', queue')
            else Ended(before, queued, batch, weather, k, tables', queue')
  {
    NextUntouched(before, queued, batch, weather, k, tables, queue);
    hide Handled, HandledRows, JobsOf, Accepted, Distinct;
    JobsLast(before.outbox.rows, batch, k, weather);
    if Handled(before.outbox.rows[batch[k]], weather(batch[k])).Some? { HandledLast(before.outbox.rows, batch, k, weather); }
  }

  lemma AllHandled(before: Db, queued: seq<Job>, batch: seq<string>, weather: string -> Weather,
    tables: Db, queue: seq<Job>)
    requires Progress(before, queued, batch, weather, |batch|, tables, queue)
    ensures Ended(before, queued, batch, weather, |batch|, tables, queue)
  {
    hide Handled, HandledRows, JobsOf;
    assert batch[..|batch|] == batch;
  }
}
