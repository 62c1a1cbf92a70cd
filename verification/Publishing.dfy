/** The publisher's program against the steps of the outbox: what handling one event does, and that a whole poll is a run
    of those steps. */
module Publishing {
  import opened Contracts
  import opened Store
  import opened Outbox
  import opened OutboxPublisher

  // ---- one event ----

  /** The catch block is reached: the queue refuses a known job, or the update that follows fails. */
  predicate Fails(row: OutboxRow, w: Weather) {
    !w.marks || (row.known && !w.queueAccepts)
  }

  /** How long the catch block puts a row off. */
  function Delay(attempts: int): int {
    if attempts <= 0 then 1000 else if attempts == 1 then 2000 else 4000
  }

  /** A row is published exactly if the queue has its job and the update succeeds, whatever type the queue is never asked
      for fails, and an error uses up an attempt: a row that has made fewer than three stays pending and is put off, a
      row that has made three fails. Only an error of the catch block itself leaves the row as it is. */
  lemma HandlingExactly(row: OutboxRow, w: Weather)
    ensures Accepted(row, w) <==> row.known && w.queueAccepts
    ensures Handled(row, w) ==
      if !Fails(row, w) then
        if row.known then Some(row.(status := OutboxPublished, lockedAt := None))
        else Some(row.(status := OutboxFailed, attempts := row.attempts + 1, lockedAt := None))
      else if !w.recovers then None
      else if row.attempts >= 3 then Some(row.(status := OutboxFailed, attempts := row.attempts + 1, lockedAt := None))
      else Some(row.(attempts := row.attempts + 1, availableAt := w.now + Delay(row.attempts), lockedAt := None))
  {
    assert Power(0) == 1 && Power(1) == 2 && Power(2) == 4;
  }

  /** No job is lost: a pending row that is published has its job in the queue. */
  lemma PublishedWasAccepted(row: OutboxRow, w: Weather)
    requires row.status.OutboxPending? && Handled(row, w).Some? && Handled(row, w).value.status.OutboxPublished?
    ensures Accepted(row, w)
  {
    HandlingExactly(row, w);
  }

  /** An event of the batch has this job, and the queue takes it. */
  predicate Takes(rows: map<string, OutboxRow>, batch: seq<string>, weather: string -> Weather, job: Job)
    requires forall o | o in batch :: o in rows
  {
    exists o | o in batch :: rows[o].job == job && rows[o].known && weather(o).queueAccepts
  }

  lemma TakesOneMore(rows: map<string, OutboxRow>, init: seq<string>, last: string, weather: string -> Weather, job: Job)
    requires forall o | o in init + [last] :: o in rows
    ensures forall o | o in init :: o in rows
    ensures Takes(rows, init + [last], weather, job) <==>
      Takes(rows, init, weather, job) || (rows[last].job == job && rows[last].known && weather(last).queueAccepts)
  {
    forall o | o in init ensures o in rows { assert o in init + [last]; }
    assert last in init + [last];
    if o :| o in init && rows[o].job == job && rows[o].known && weather(o).queueAccepts {
      assert o in init + [last];
    }
  }

  lemma JobsOneMore(rows: map<string, OutboxRow>, init: seq<string>, last: string, weather: string -> Weather, job: Job)
    requires (forall o | o in init + [last] :: o in rows) && forall o | o in init :: o in rows
    ensures job in JobsOf(rows, init + [last], weather) <==>
      job in JobsOf(rows, init, weather) || (rows[last].job == job && Accepted(rows[last], weather(last)))
  {
    assert (init + [last])[..|init|] == init;
  }

  /** The jobs that a poll puts into the queue are those of the rows whose job it accepts. */
  lemma {:induction false} QueuedExactly(rows: map<string, OutboxRow>, batch: seq<string>, weather: string -> Weather, job: Job)
    requires forall o | o in batch :: o in rows
    ensures job in JobsOf(rows, batch, weather) <==> Takes(rows, batch, weather, job)
  {
    if batch != [] {
      hide Takes, JobsOf;
      var init, last := batch[..|batch| - 1], batch[|batch| - 1];
      assert batch == init + [last];
      TakesOneMore(rows, init, last, weather, job);
      JobsOneMore(rows, init, last, weather, job);
      QueuedExactly(rows, init, weather, job);
    }
  }

  // ---- the steps of one event ----

  /** The steps that handling an event takes in the outbox. */
  function ActsFor(poll: string, o: string, row: OutboxRow, w: Weather): seq<Act> {
    if !row.known then
      if w.marks then [RejectUnknown(poll, o)] else if w.recovers then [HandleError(poll, o)] else []
    else if !w.queueAccepts then
      if w.recovers then [HandleError(poll, o)] else []
    else
      [Add(poll, o)] + if w.marks then [Publish(poll, o)] else if w.recovers then [HandleError(poll, o)] else []
  }

  lemma {:induction false} RunAppend(s: Publishers, a: seq<Act>, b: seq<Act>)
    ensures Run(s, a + b) == Run(Run(s, a), b)
    decreases |b|
  {
    hide Step;
    if b == [] {
      assert a + b == a;
    } else {
      assert (a + b)[..|a + b| - 1] == a + b[..|b| - 1];
      RunAppend(s, a, b[..|b| - 1]);
    }
  }

  lemma RunOne(s: Publishers, act: Act)
    ensures Run(s, [act]) == Step(s, act)
  {
    hide Step;
    assert [act][..0] == [];
  }

  /** The poll holds the row as it has claimed it. */
  predicate JustClaimed(s: Publishers, poll: string, o: string) {
    && Holds(s, poll, o)
    && s.held[Holder(poll, o)].attempts == s.rows[o].attempts && !s.held[Holder(poll, o)].added
  }

  /** Everything but one row and its holder is as before. */
  ghost predicate OnlyHandles(s: Publishers, t: Publishers, poll: string, o: string, w: Weather)
    requires o in s.rows
  {
    && t.rows == (if Handled(s.rows[o], w).Some? then s.rows[o := Handled(s.rows[o], w).value] else s.rows)
    && t.jobs == s.jobs + (if Accepted(s.rows[o], w) then {o} else {})
    && t.clock == s.clock
    && forall p | p != Holder(poll, o) :: (p in t.held <==> p in s.held) && (p in s.held ==> t.held[p] == s.held[p])
  }

  /** Handling an event has the effect of its steps. */
  lemma HandlingIsARun(s: Publishers, poll: string, o: string, w: Weather)
    requires JustClaimed(s, poll, o) && s.clock == w.now
    ensures OnlyHandles(s, Run(s, ActsFor(poll, o, s.rows[o], w)), poll, o, w)
  {
    hide OnlyHandles;
    if s.rows[o].known && w.queueAccepts { AcceptedIsARun(s, poll, o, w); } else { RefusedIsARun(s, poll, o, w); }
  }

  /** The steps that handling uses, on a row that the poll holds. */
  lemma StepsOfHolder(s: Publishers, poll: string, o: string)
    requires Holds(s, poll, o)
    ensures var row, record := s.rows[o], s.held[Holder(poll, o)];
      && (row.known ==>
            Step(s, Add(poll, o)) == s.(held := s.held[Holder(poll, o) := record.(added := true)], jobs := s.jobs + {o}))
      && (record.added ==> Step(s, Publish(poll, o)) == Update(s, poll, o, MarkedPublished(row)))
      && (!row.known ==> Step(s, RejectUnknown(poll, o)) == Update(s, poll, o, MarkedFailed(row)))
      && Step(s, HandleError(poll, o)) == Update(s, poll, o, AfterError(row, record.attempts, s.clock))
  {
    hide AfterError, MarkedPublished, MarkedFailed, Update;
  }

  lemma RunTwo(s: Publishers, first: Act, second: Act)
    ensures Run(s, [first] + [second]) == Step(Step(s, first), second)
  {
    hide Step, Run;
    RunOne(s, first);
    RunOne(Step(s, first), second);
    RunAppend(s, [first], [second]);
  }

  lemma AcceptedIsARun(s: Publishers, poll: string, o: string, w: Weather)
    requires JustClaimed(s, poll, o) && s.clock == w.now && s.rows[o].known && w.queueAccepts
    ensures OnlyHandles(s, Run(s, ActsFor(poll, o, s.rows[o], w)), poll, o, w)
  {
    hide Step, Run, AfterError, MarkedPublished;
    StepsOfHolder(s, poll, o);
    var added := Step(s, Add(poll, o));
    StepsOfHolder(added, poll, o);
    if w.marks {
      RunTwo(s, Add(poll, o), Publish(poll, o));
    } else if w.recovers {
      RunTwo(s, Add(poll, o), HandleError(poll, o));
    } else {
      assert [Add(poll, o)] + [] == [Add(poll, o)];
      RunOne(s, Add(poll, o));
    }
  }

  lemma RefusedIsARun(s: Publishers, poll: string, o: string, w: Weather)
    requires JustClaimed(s, poll, o) && s.clock == w.now && !(s.rows[o].known && w.queueAccepts)
    ensures OnlyHandles(s, Run(s, ActsFor(poll, o, s.rows[o], w)), poll, o, w)
  {
    hide Step, Run, AfterError, MarkedFailed;
    StepsOfHolder(s, poll, o);
    RunOne(s, RejectUnknown(poll, o));
    RunOne(s, HandleError(poll, o));
    RunNone(s);
  }

  lemma RunNone(s: Publishers)
    ensures Run(s, []) == s
  {}

  // ---- a whole poll ----

  /** The clock when event k of a batch is handled; it never goes back. */
  function ClockAt(now: int, batch: seq<string>, weather: string -> Weather, k: nat): int
    requires k <= |batch|
  {
    if k == 0 then now else weather(batch[k - 1]).now
  }

  predicate Forward(now: int, batch: seq<string>, weather: string -> Weather) {
    && (forall k | 0 <= k < |batch| :: now <= weather(batch[k]).now)
    && (forall j, k | 0 <= j < k < |batch| :: weather(batch[j]).now <= weather(batch[k]).now)
  }

  function Pause(from: int, to: int): nat {
    if to >= from then to - from else 0
  }

  function Elements(batch: seq<string>): set<string> {
    set o | o in batch
  }

  /** The steps of event k: time passes, and it is handled. */
  function EventActs(poll: string, batch: seq<string>, rows: map<string, OutboxRow>, weather: string -> Weather, now: int,
    k: nat): seq<Act>
    requires k < |batch| && forall o | o in batch :: o in rows
  {
    [Wait(Pause(ClockAt(now, batch, weather, k), weather(batch[k]).now))]
    + ActsFor(poll, batch[k], rows[batch[k]], weather(batch[k]))
  }

  /** The steps of a poll that handles the first k events of its batch. */
  function PollActs(poll: string, batch: seq<string>, rows: map<string, OutboxRow>, weather: string -> Weather, now: int,
    k: nat): seq<Act>
    requires k <= |batch| && forall o | o in batch :: o in rows
  {
    if k == 0 then [Claim(poll, Elements(batch), 10, 30000)]
    else
      PollActs(poll, batch, rows, weather, now, k - 1)
      + EventActs(poll, batch, rows, weather, now, k - 1)
  }

  ghost predicate PolledRows(s: Publishers, t: Publishers, batch: seq<string>, weather: string -> Weather, k: nat)
    requires k <= |batch| && forall o | o in batch :: o in s.rows
  {
    var leased := LeaseAll(s.rows, batch, s.clock + 30000);
    && t.rows == HandledRows(leased, batch[..k], weather)
    && t.jobs == s.jobs + (set o | o in batch[..k] && Accepted(leased[o], weather(o)))
  }

  ghost predicate PolledHolders(s: Publishers, t: Publishers, poll: string, batch: seq<string>, k: nat)
    requires forall o | o in batch :: o in s.rows
  {
    forall j | k <= j < |batch| :: Holder(poll, batch[j]) in t.held
      && t.held[Holder(poll, batch[j])].attempts == s.rows[batch[j]].attempts
      && !t.held[Holder(poll, batch[j])].added
  }

  /** The outbox after the first k events: they are handled, the others are held as they were claimed. */
  ghost predicate PolledUpTo(s: Publishers, t: Publishers, poll: string, batch: seq<string>, weather: string -> Weather,
    k: nat)
    requires k <= |batch| && forall o | o in batch :: o in s.rows
  {
    && PolledRows(s, t, batch, weather, k) && PolledHolders(s, t, poll, batch, k)
    && t.clock == ClockAt(s.clock, batch, weather, k)
  }

  /** The batch may be claimed: distinct claimable rows, at most ten, that the poll does not hold. */
  predicate MayPoll(s: Publishers, poll: string, batch: seq<string>) {
    && Distinct(batch) && |batch| <= 10
    && forall o | o in batch :: o in s.rows && Leasable(s.rows[o], s.clock) && Holder(poll, o) !in s.held
  }

  lemma {:induction false} FewElements(batch: seq<string>)
    ensures |Elements(batch)| <= |batch|
  {
    if batch != [] {
      FewElements(batch[1..]);
      assert Elements(batch) == Elements(batch[1..]) + {batch[0]};
    }
  }

  lemma ClaimIsFirst(s: Publishers, poll: string, batch: seq<string>, weather: string -> Weather)
    requires MayPoll(s, poll, batch)
    ensures PolledUpTo(s, Step(s, Claim(poll, Elements(batch), 10, 30000)), poll, batch, weather, 0)
  {
    assert forall o | o in batch :: o in s.rows && Holder(poll, o) !in s.held;
    hide MayPoll, HandledRows;
    ClaimLeases(s, poll, batch);
    var claim := Claim(poll, Elements(batch), 10, 30000);
    var t := Step(s, claim);
    NothingHandledYet(t.rows, batch, weather);
    forall j | 0 <= j < |batch| ensures Holder(poll, batch[j]) in t.held
      && t.held[Holder(poll, batch[j])] == Record(s.rows[batch[j]].attempts, s.clock + 30000, false) {
      HeldAfterClaim(s, claim, Holder(poll, batch[j]));
    }
    hide Step, LeaseAll;
  }

  lemma NothingHandledYet(rows: map<string, OutboxRow>, batch: seq<string>, weather: string -> Weather)
    ensures HandledRows(rows, batch[..0], weather) == rows
  {
    hide Handled;
  }

  lemma ClaimLeases(s: Publishers, poll: string, batch: seq<string>)
    requires MayPoll(s, poll, batch)
    ensures MayClaim(s, poll, Elements(batch), 10)
    ensures var t := Step(s, Claim(poll, Elements(batch), 10, 30000));
      t.rows == LeaseAll(s.rows, batch, s.clock + 30000) && t.jobs == s.jobs && t.clock == s.clock
  {
    FewElements(batch);
    assert MayClaim(s, poll, Elements(batch), 10);
  }

  lemma HandledOneMore(rows: map<string, OutboxRow>, batch: seq<string>, k: nat, weather: string -> Weather)
    requires Distinct(batch) && k < |batch| && batch[k] in rows
    ensures var now, o := HandledRows(rows, batch[..k], weather), batch[k];
      && o in now && now[o] == rows[o]
      && HandledRows(rows, batch[..k + 1], weather) ==
           if Handled(rows[o], weather(o)).Some? then now[o := Handled(rows[o], weather(o)).value] else now
  {
    hide Handled;
    assert batch[..k + 1] == batch[..k] + [batch[k]];
  }

  lemma AcceptedOneMore(rows: map<string, OutboxRow>, batch: seq<string>, k: nat, weather: string -> Weather)
    requires k < |batch| && forall o | o in batch :: o in rows
    ensures (set o | o in batch[..k + 1] && Accepted(rows[o], weather(o))) ==
      (set o | o in batch[..k] && Accepted(rows[o], weather(o)))
      + if Accepted(rows[batch[k]], weather(batch[k])) then {batch[k]} else {}
  {
    hide Accepted;
    assert batch[..k + 1] == batch[..k] + [batch[k]];
  }

  /** The next row is still held as it was claimed. */
  lemma NextIsClaimed(s: Publishers, t: Publishers, poll: string, batch: seq<string>, weather: string -> Weather, k: nat)
    requires MayPoll(s, poll, batch) && k < |batch|
    requires PolledRows(s, t, batch, weather, k) && PolledHolders(s, t, poll, batch, k)
    ensures JustClaimed(t, poll, batch[k]) && t.rows[batch[k]].known == s.rows[batch[k]].known
  {
    HandledOneMore(LeaseAll(s.rows, batch, s.clock + 30000), batch, k, weather);
    hide Handled, HandledRows, Accepted, Distinct;
    assert batch[k] in s.rows;
  }

  lemma TimePasses(s: Publishers, t: Publishers, poll: string, batch: seq<string>, weather: string -> Weather, k: nat)
    requires MayPoll(s, poll, batch) && Forward(s.clock, batch, weather)
    requires k < |batch| && PolledUpTo(s, t, poll, batch, weather, k)
    ensures var u := Step(t, Wait(Pause(ClockAt(s.clock, batch, weather, k), weather(batch[k]).now)));
      && PolledRows(s, u, batch, weather, k) && PolledHolders(s, u, poll, batch, k)
      && u.clock == weather(batch[k]).now && JustClaimed(u, poll, batch[k])
      && u.rows[batch[k]].known == s.rows[batch[k]].known
  {
    assert forall o | o in batch :: o in s.rows;
    NextIsClaimed(s, t, poll, batch, weather, k);
    hide Handled, HandledRows, Accepted, MayPoll, LeaseAll;
  }

  /** One more event: the clock goes on, and the event is handled by its steps. */
  lemma OneMoreIsARun(s: Publishers, t: Publishers, poll: string, batch: seq<string>, weather: string -> Weather, k: nat)
    requires MayPoll(s, poll, batch) && Forward(s.clock, batch, weather)
    requires k < |batch| && PolledUpTo(s, t, poll, batch, weather, k)
    ensures PolledUpTo(s, Run(t, EventActs(poll, batch, s.rows, weather, s.clock, k)), poll, batch, weather, k + 1)
  {
    assert batch[k] in s.rows;
    hide Run, Step, OnlyHandles, PolledUpTo, PolledRows, PolledHolders, JustClaimed, Handled, HandledRows, Accepted;
    var o, w := batch[k], weather(batch[k]);
    var wait := Wait(Pause(ClockAt(s.clock, batch, weather, k), w.now));
    var u := Step(t, wait);
    TimePasses(s, t, poll, batch, weather, k);
    RunOne(t, wait);
    RunAppend(t, [wait], ActsFor(poll, o, s.rows[o], w));
    HandlingIsARun(u, poll, o, w);
    HandledKeepsPoll(s, u, Run(u, ActsFor(poll, o, u.rows[o], w)), poll, batch, weather, k);
    hide ActsFor;
  }

  lemma HandledKeepsPoll(s: Publishers, u: Publishers, v: Publishers, poll: string, batch: seq<string>,
    weather: string -> Weather, k: nat)
    requires MayPoll(s, poll, batch) && k < |batch| && batch[k] in u.rows
    requires PolledRows(s, u, batch, weather, k) && PolledHolders(s, u, poll, batch, k)
    requires u.clock == weather(batch[k]).now && OnlyHandles(u, v, poll, batch[k], weather(batch[k]))
    ensures PolledUpTo(s, v, poll, batch, weather, k + 1)
  {
    hide Handled, Accepted, HandledRows;
    var leased := LeaseAll(s.rows, batch, s.clock + 30000);
    HandledOneMore(leased, batch, k, weather);
    AcceptedOneMore(leased, batch, k, weather);
    assert PolledHolders(s, v, poll, batch, k + 1) by {
      hide PolledRows;
    }
    hide PolledHolders, LeaseAll;
  }

  lemma PollActsUnfold(poll: string, batch: seq<string>, rows: map<string, OutboxRow>, weather: string -> Weather,
    now: int, k: nat)
    requires k <= |batch| && forall o | o in batch :: o in rows
    ensures PollActs(poll, batch, rows, weather, now, k) ==
      if k == 0 then [Claim(poll, Elements(batch), 10, 30000)]
      else PollActs(poll, batch, rows, weather, now, k - 1) + EventActs(poll, batch, rows, weather, now, k - 1)
  {
    hide EventActs;
  }

  lemma PollBegins(s: Publishers, poll: string, batch: seq<string>, weather: string -> Weather)
    requires MayPoll(s, poll, batch)
    ensures PolledUpTo(s, Run(s, PollActs(poll, batch, s.rows, weather, s.clock, 0)), poll, batch, weather, 0)
  {
    ClaimIsFirst(s, poll, batch, weather);
    hide PolledUpTo, Step, Run, Elements;
    RunOne(s, Claim(poll, Elements(batch), 10, 30000));
  }

  lemma PollGoesOn(s: Publishers, poll: string, batch: seq<string>, weather: string -> Weather, k: nat)
    requires MayPoll(s, poll, batch) && Forward(s.clock, batch, weather) && k < |batch|
    requires PolledUpTo(s, Run(s, PollActs(poll, batch, s.rows, weather, s.clock, k)), poll, batch, weather, k)
    ensures PolledUpTo(s, Run(s, PollActs(poll, batch, s.rows, weather, s.clock, k + 1)), poll, batch, weather, k + 1)
  {
    assert forall o | o in batch :: o in s.rows;
    PollActsUnfold(poll, batch, s.rows, weather, s.clock, k + 1);
    hide *;
    var before := PollActs(poll, batch, s.rows, weather, s.clock, k);
    OneMoreIsARun(s, Run(s, before), poll, batch, weather, k);
    RunAppend(s, before, EventActs(poll, batch, s.rows, weather, s.clock, k));
  }

  /** A poll that claims the oldest claimable rows and handles k events of its batch is the run of its steps: rows, jobs
      and leases are those of the outbox. */
  lemma {:induction false} PollIsARun(s: Publishers, poll: string, batch: seq<string>, weather: string -> Weather, k: nat)
    requires MayPoll(s, poll, batch) && Forward(s.clock, batch, weather) && k <= |batch|
    ensures PolledUpTo(s, Run(s, PollActs(poll, batch, s.rows, weather, s.clock, k)), poll, batch, weather, k)
  {
    hide Run, PollActs, PolledUpTo, Forward, Leasable;
    if k == 0 {
      PollBegins(s, poll, batch, weather);
    } else {
      PollIsARun(s, poll, batch, weather, k - 1);
      PollGoesOn(s, poll, batch, weather, k - 1);
    }
  }

  /** The batch the program claims may be polled. */
  lemma OldestMayBePolled(s: Publishers, poll: string, created: seq<string>)
    requires Distinct(created) && forall o | o in created :: Holder(poll, o) !in s.held
    ensures MayPoll(s, poll, Oldest(s.rows, created, 10, s.clock))
  {
    OldestComeFirst(s.rows, created, 10, s.clock);
    hide Leasable;
  }

  /** What the program's poll leaves behind is what the run leaves behind, up to the event at which it ended. */
  lemma PollRefinesOutbox(before: Db, queued: seq<Job>, after: Db, queue: seq<Job>, batch: seq<string>,
    weather: string -> Weather, handled: nat, s: Publishers, poll: string)
    requires s.rows == before.outbox.rows && MayPoll(s, poll, batch) && Forward(s.clock, batch, weather)
    requires Ended(before.(outbox := before.outbox.(rows := LeaseAll(s.rows, batch, s.clock + 30000))), queued,
      batch, weather, handled, after, queue)
    ensures var reached := if handled < |batch| then handled + 1 else handled;
      var t := Run(s, PollActs(poll, batch, s.rows, weather, s.clock, reached));
      && after == before.(outbox := before.outbox.(rows := t.rows))
      && (forall o | o in batch[..reached] && s.rows[o].known && weather(o).queueAccepts :: o in t.jobs)
  {
    assert Distinct(batch) && forall o | o in batch :: o in s.rows;
    LeasedKeys(s.rows, batch, s.clock + 30000);
    hide Run, PollActs, Forward, MayPoll, Distinct, HandledRows, Handled, JobsOf, PolledUpTo, Ended, LeaseAll;
    var leased := LeaseAll(s.rows, batch, s.clock + 30000);
    var reached := if handled < |batch| then handled + 1 else handled;
    RowsAtTheEnd(before, leased, queued, after, queue, batch, weather, handled);
    PollIsARun(s, poll, batch, weather, reached);
    RowsOfPoll(s, Run(s, PollActs(poll, batch, s.rows, weather, s.clock, reached)), poll, batch, weather, reached);
  }

  lemma LeasedKeys(rows: map<string, OutboxRow>, batch: seq<string>, end: int)
    ensures LeaseAll(rows, batch, end).Keys == rows.Keys
  {}

  lemma RowsOfPoll(s: Publishers, t: Publishers, poll: string, batch: seq<string>, weather: string -> Weather, k: nat)
    requires k <= |batch| && (forall o | o in batch :: o in s.rows) && PolledUpTo(s, t, poll, batch, weather, k)
    ensures t.rows == HandledRows(LeaseAll(s.rows, batch, s.clock + 30000), batch[..k], weather)
    ensures forall o | o in batch[..k] && s.rows[o].known && weather(o).queueAccepts :: o in t.jobs
  {
    hide HandledRows, PolledHolders;
    forall o | o in batch[..k] && s.rows[o].known && weather(o).queueAccepts ensures o in t.jobs {
      assert o in batch && LeaseAll(s.rows, batch, s.clock + 30000)[o].known;
    }
  }

  lemma RowsAtTheEnd(before: Db, leased: map<string, OutboxRow>, queued: seq<Job>, after: Db, queue: seq<Job>,
    batch: seq<string>, weather: string -> Weather, handled: nat)
    requires Distinct(batch) && forall o | o in batch :: o in leased
    requires Ended(before.(outbox := before.outbox.(rows := leased)), queued, batch, weather, handled, after, queue)
    ensures handled <= |batch|
    ensures var reached := if handled < |batch| then handled + 1 else handled;
      after == before.(outbox := before.outbox.(rows := HandledRows(leased, batch[..reached], weather)))
  {
    hide HandledRows, Handled, JobsOf, Distinct;
    if handled < |batch| { HandledOneMore(leased, batch, handled, weather); }
  }
}
