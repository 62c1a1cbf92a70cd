/** Leases, retries and publication of outbox rows (libs/persistence/src/repositories/prisma/outbox.ts and
    apps/api/src/modules/outbox-publisher/outbox-publisher.service.ts). */
module Outbox {
  import opened Contracts
  import opened Store

  // ---- single rows ----

  /** lockedAt holds the end of the lease, and a row can be claimed only after it. */
  predicate Leasable(row: OutboxRow, now: int) {
    && row.status.OutboxPending? && row.availableAt <= now
    && (row.lockedAt.None? || row.lockedAt.value < now)
  }

  function Leased(row: OutboxRow, end: int): OutboxRow {
    row.(lockedAt := Some(end))
  }

  function MarkedPublished(row: OutboxRow): OutboxRow {
    row.(status := OutboxPublished, lockedAt := None)
  }

  function MarkedFailed(row: OutboxRow): OutboxRow {
    row.(status := OutboxFailed, attempts := row.attempts + 1, lockedAt := None)
  }

  function Rescheduled(row: OutboxRow, availableAt: int): OutboxRow {
    row.(attempts := row.attempts + 1, availableAt := availableAt, lockedAt := None)
  }

  function Power(n: nat): nat {
    if n == 0 then 1 else 2 * Power(n - 1)
  }

  const RETRY_LIMIT := 3

  /** What the catch block does: it decides by the attempts of the record that was claimed. */
  function AfterError(row: OutboxRow, seen: int, now: int): OutboxRow {
    if seen >= RETRY_LIMIT then MarkedFailed(row)
    else Rescheduled(row, now + Power(if seen < 0 then 0 else seen) * 1000)
  }

  // ---- publishers ----

  /** A claimed event in the memory of a publisher; `added` once queue.add has answered. */
  datatype Record = Record(attempts: int, leaseEnd: int, added: bool)

  /** Which poll holds which row. */
  datatype Holder = Holder(poll: string, row: string)

  /** Every poll of every publisher has a name; `jobs` are the rows whose job was ever added to the queue. */
  datatype Publishers = Publishers(
    rows: map<string, OutboxRow>,
    held: map<Holder, Record>,
    jobs: set<string>,
    clock: int)

  datatype Act =
    | Insert(o: string, row: OutboxRow)
    | Claim(poll: string, batch: set<string>, limit: nat, duration: nat)
    | Add(poll: string, o: string)
    | Publish(poll: string, o: string)
    | RejectUnknown(poll: string, o: string)
    | HandleError(poll: string, o: string)
    | FreeStale(minutes: nat)
    | Wait(ms: nat)

  predicate MayClaim(s: Publishers, poll: string, batch: set<string>, limit: nat) {
    && |batch| <= limit
    && (forall o | o in batch :: o in s.rows && Leasable(s.rows[o], s.clock) && Holder(poll, o) !in s.held)
  }

  predicate Holds(s: Publishers, poll: string, o: string) {
    Holder(poll, o) in s.held && o in s.rows
  }

  function Update(s: Publishers, poll: string, o: string, row: OutboxRow): Publishers {
    s.(rows := s.rows[o := row], held := s.held - {Holder(poll, o)})
  }

  function Holders(poll: string, batch: set<string>): (holders: set<Holder>)
    ensures forall p :: p in holders <==> p.poll == poll && p.row in batch
  {
    set o | o in batch :: Holder(poll, o)
  }

  function Step(s: Publishers, act: Act): Publishers {
    match act
    case Insert(o, row) =>
      if o in s.rows || row.status != OutboxPending || row.attempts != 0 || row.lockedAt != None then s
      else s.(rows := s.rows[o := row])
    case Claim(poll, batch, limit, duration) =>
      if !MayClaim(s, poll, batch, limit) then s
      else
        var end := s.clock + duration;
        s.(rows := map o | o in s.rows :: if o in batch then Leased(s.rows[o], end) else s.rows[o],
           held := s.held + map p | p in Holders(poll, batch) :: Record(s.rows[p.row].attempts, end, false))
    case Add(poll, o) =>
      if !Holds(s, poll, o) || !s.rows[o].known then s
      else s.(held := s.held[Holder(poll, o) := s.held[Holder(poll, o)].(added := true)], jobs := s.jobs + {o})
    case Publish(poll, o) =>
      if !Holds(s, poll, o) || !s.held[Holder(poll, o)].added then s
      else Update(s, poll, o, MarkedPublished(s.rows[o]))
    case RejectUnknown(poll, o) =>
      if !Holds(s, poll, o) || s.rows[o].known then s
      else Update(s, poll, o, MarkedFailed(s.rows[o]))
    case HandleError(poll, o) =>
      if !Holds(s, poll, o) then s
      else Update(s, poll, o, AfterError(s.rows[o], s.held[Holder(poll, o)].attempts, s.clock))
    case FreeStale(minutes) => s.(rows := FreeOutbox(s.rows, s.clock - minutes * 60 * 1000))
    case Wait(ms) => s.(clock := s.clock + ms)
  }

  function Run(s: Publishers, acts: seq<Act>): Publishers {
    if acts == [] then s else Step(Run(s, acts[..|acts| - 1]), acts[|acts| - 1])
  }

  const IDLE := Publishers(map[], map[], {}, 0)

  /** The row a step handles, and by whom. */
  predicate Handles(act: Act, poll: string, o: string) {
    match act
    case Publish(p, x) => p == poll && x == o
    case RejectUnknown(p, x) => p == poll && x == o
    case HandleError(p, x) => p == poll && x == o
    case _ => false
  }

  predicate HandlesRow(act: Act, o: string) {
    (act.Publish? || act.RejectUnknown? || act.HandleError?) && act.o == o
  }

  // ---- leases ----

  /** As long as nobody handles the row, its lease stands, or the clock has reached its end; it has passed the end if
      every sweep leaves at least a minute. */
  lemma {:induction false} LeaseLasts(s: Publishers, acts: seq<Act>, o: string, end: int)
    requires o in s.rows && s.rows[o].lockedAt == Some(end)
    requires forall k | 0 <= k < |acts| :: !HandlesRow(acts[k], o)
    ensures var t := Run(s, acts);
      && o in t.rows
      && (t.rows[o].lockedAt == Some(end) || t.clock >= end)
      && ((forall k | 0 <= k < |acts| :: acts[k] != FreeStale(0)) ==> t.rows[o].lockedAt == Some(end) || t.clock > end)
  {
    if acts != [] {
      hide Step, HandlesRow;
      LeaseLasts(s, acts[..|acts| - 1], o, end);
      LeaseLastsAStep(Run(s, acts[..|acts| - 1]), acts[|acts| - 1], o, end);
    }
  }

  lemma LeaseLastsAStep(s: Publishers, act: Act, o: string, end: int)
    requires o in s.rows && !HandlesRow(act, o)
    ensures var t := Step(s, act);
      && o in t.rows && t.clock >= s.clock
      && (s.rows[o].lockedAt == Some(end) ==>
            || t.rows[o].lockedAt == Some(end) || s.clock > end || (act == FreeStale(0) && s.clock >= end))
  {}

  predicate Claims(s: Publishers, act: Act, o: string) {
    act.Claim? && o in act.batch && MayClaim(s, act.poll, act.batch, act.limit)
  }

  /** Two claims of a row that nobody has handled in between are more than the duration of the first apart, whatever
      claims and sweeps of a minute or more lie between them: no two polls hold a lease on the row at one time. A sweep
      of zero minutes could free the row at the very end of its lease, and never earlier. */
  lemma {:induction false} LeasesExclude(s: Publishers, first: Act, acts: seq<Act>, second: Act, o: string)
    requires Claims(s, first, o)
    requires forall k | 0 <= k < |acts| :: !HandlesRow(acts[k], o)
    requires Claims(Run(Step(s, first), acts), second, o)
    ensures Run(Step(s, first), acts).clock >= s.clock + first.duration
    ensures (forall k | 0 <= k < |acts| :: acts[k] != FreeStale(0)) ==>
      Run(Step(s, first), acts).clock > s.clock + first.duration
  {
    LeaseTaken(s, first, o);
    var end := s.clock + first.duration;
    hide Run, Step, Claims;
    LeaseLasts(Step(s, first), acts, o, end);
    ClaimIsAfterTheLease(Run(Step(s, first), acts), second, o, end);
  }

  lemma ClaimIsAfterTheLease(s: Publishers, act: Act, o: string, end: int)
    requires Claims(s, act, o) && o in s.rows
    ensures s.rows[o].lockedAt == Some(end) ==> s.clock > end
  {}

  lemma LeaseTaken(s: Publishers, act: Act, o: string)
    requires Claims(s, act, o)
    ensures o in Step(s, act).rows && Step(s, act).rows[o].lockedAt == Some(s.clock + act.duration)
  {}

  // ---- retries ----

  /** Whoever handles a row does so before its lease ends. */
  ghost predicate Timely(acts: seq<Act>) {
    forall k, poll, o | 0 <= k < |acts| && Handles(acts[k], poll, o) && Holder(poll, o) in Run(IDLE, acts[..k]).held ::
      Run(IDLE, acts[..k]).clock < Run(IDLE, acts[..k]).held[Holder(poll, o)].leaseEnd
  }

  /** The record agrees with its row, and nobody else holds the row under a lease in force. */
  ghost predicate Agrees(s: Publishers, p: Holder)
    requires p in s.held
  {
    && p.row in s.rows
    && s.rows[p.row].lockedAt == Some(s.held[p].leaseEnd)
    && s.rows[p.row].attempts == s.held[p].attempts
    && s.rows[p.row].status.OutboxPending?
    && (forall q | q in s.held && q.row == p.row && s.held[q].leaseEnd > s.clock :: q == p)
  }

  ghost predicate InForce(s: Publishers) {
    forall p | p in s.held && s.held[p].leaseEnd > s.clock :: Agrees(s, p)
  }

  predicate AttemptsOk(row: OutboxRow) {
    0 <= row.attempts <= (if row.status.OutboxPending? then RETRY_LIMIT else RETRY_LIMIT + 1)
  }

  ghost predicate RetriesOk(s: Publishers) {
    InForce(s) && forall o | o in s.rows :: AttemptsOk(s.rows[o])
  }

  /** The handler, if the step is one, is in time. */
  ghost predicate InTime(s: Publishers, act: Act) {
    forall poll, o | Handles(act, poll, o) && Holder(poll, o) in s.held :: s.clock < s.held[Holder(poll, o)].leaseEnd
  }

  /** Who holds what after a claim. */
  lemma HeldAfterClaim(s: Publishers, act: Act, p: Holder)
    requires act.Claim? && MayClaim(s, act.poll, act.batch, act.limit)
    ensures var t := Step(s, act);
      && (p in t.held <==> p in s.held || (p.poll == act.poll && p.row in act.batch))
      && (p in s.held ==> t.held[p] == s.held[p])
      && (p in t.held && p !in s.held ==> t.held[p] == Record(s.rows[p.row].attempts, s.clock + act.duration, false))
  {}

  lemma ClaimedRowWasFree(s: Publishers, act: Act, p: Holder)
    requires InForce(s) && act.Claim? && MayClaim(s, act.poll, act.batch, act.limit)
    requires p in s.held && s.held[p].leaseEnd > s.clock
    ensures p.row !in act.batch
  {
    assert s.rows[p.row].lockedAt == Some(s.held[p].leaseEnd);
  }

  lemma ClaimKeepsRetries(s: Publishers, act: Act)
    requires RetriesOk(s) && act.Claim? && MayClaim(s, act.poll, act.batch, act.limit)
    ensures RetriesOk(Step(s, act))
  {
    var t := Step(s, act);
    RowsAfterClaim(s, act);
    forall p | p in t.held && t.held[p].leaseEnd > t.clock ensures Agrees(t, p) {
      HeldAfterClaim(s, act, p);
      if p in s.held { ClaimedRowWasFree(s, act, p); }
      forall q | q in t.held && q.row == p.row && t.held[q].leaseEnd > t.clock ensures q == p {
        HeldAfterClaim(s, act, q);
        if q in s.held { ClaimedRowWasFree(s, act, q); }
      }
    }
  }

  lemma RowsAfterClaim(s: Publishers, act: Act)
    requires RetriesOk(s) && act.Claim? && MayClaim(s, act.poll, act.batch, act.limit)
    ensures var t := Step(s, act);
      && t.clock == s.clock
      && (forall o | o in s.rows ::
            o in t.rows && t.rows[o] == if o in act.batch then Leased(s.rows[o], s.clock + act.duration) else s.rows[o])
      && (forall o | o in t.rows :: AttemptsOk(t.rows[o]))
  {}

  lemma HandlingKeepsRetries(s: Publishers, poll: string, o: string, row: OutboxRow)
    requires RetriesOk(s) && Holds(s, poll, o) && s.held[Holder(poll, o)].leaseEnd > s.clock
    requires AttemptsOk(row)
    ensures RetriesOk(Update(s, poll, o, row))
  {}

  lemma AddKeepsRetries(s: Publishers, act: Act)
    requires RetriesOk(s) && (act.Add? || act.Wait? || act.Insert?)
    ensures RetriesOk(Step(s, act))
  {}

  lemma FreeingKeepsRetries(s: Publishers, act: Act)
    requires RetriesOk(s) && act.FreeStale?
    ensures RetriesOk(Step(s, act))
  {}

  lemma StepKeepsRetries(s: Publishers, act: Act)
    requires RetriesOk(s) && InTime(s, act)
    ensures RetriesOk(Step(s, act))
  {
    match act
    case Claim(_, _, _, _) => if Step(s, act) != s { ClaimKeepsRetries(s, act); }
    case Publish(poll, o) => HandlerKeepsRetries(s, act, poll, o);
    case RejectUnknown(poll, o) => HandlerKeepsRetries(s, act, poll, o);
    case HandleError(poll, o) => HandlerKeepsRetries(s, act, poll, o);
    case FreeStale(_) => FreeingKeepsRetries(s, act);
    case _ => AddKeepsRetries(s, act);
  }

  lemma HandlerKeepsRetries(s: Publishers, act: Act, poll: string, o: string)
    requires RetriesOk(s) && InTime(s, act) && Handles(act, poll, o)
    ensures RetriesOk(Step(s, act))
  {
    if Step(s, act) != s {
      HandlingKeepsRetries(s, poll, o, Step(s, act).rows[o]);
    }
  }

  /** While every row is handled within its lease, no row is tried more than four times: at most three times to be
      rescheduled, a fourth time to be published or failed. */
  lemma {:induction false} RetriesAreBounded(acts: seq<Act>)
    requires Timely(acts)
    ensures RetriesOk(Run(IDLE, acts))
  {
    if acts != [] {
      var init := acts[..|acts| - 1];
      TimelyPrefix(acts);
      RetriesAreBounded(init);
      hide Step, RetriesOk;
      StepKeepsRetries(Run(IDLE, init), acts[|acts| - 1]);
    }
  }

  lemma TimelyPrefix(acts: seq<Act>)
    requires Timely(acts) && acts != []
    ensures Timely(acts[..|acts| - 1]) && InTime(Run(IDLE, acts[..|acts| - 1]), acts[|acts| - 1])
  {
    hide Run;
    var init := acts[..|acts| - 1];
    forall k, poll, o | 0 <= k < |init| && Handles(init[k], poll, o) && Holder(poll, o) in Run(IDLE, init[..k]).held
      ensures Run(IDLE, init[..k]).clock < Run(IDLE, init[..k]).held[Holder(poll, o)].leaseEnd
    {
      assert init[..k] == acts[..k] && Handles(acts[k], poll, o);
    }
    forall poll, o | Handles(acts[|acts| - 1], poll, o) && Holder(poll, o) in Run(IDLE, init).held
      ensures Run(IDLE, init).clock < Run(IDLE, init).held[Holder(poll, o)].leaseEnd
    {
      assert acts[..|acts| - 1] == init;
    }
  }

  /** A failure within the lease uses up one attempt: it reschedules the row one, two or four seconds ahead, or
      fails it. */
  lemma FailureUsesAnAttempt(s: Publishers, poll: string, o: string)
    requires RetriesOk(s) && Holds(s, poll, o) && s.held[Holder(poll, o)].leaseEnd > s.clock
    ensures var t := Step(s, HandleError(poll, o));
      && o in t.rows
      && 4 - t.rows[o].attempts < 4 - s.rows[o].attempts
      && t.rows[o].attempts <= 4
      && (t.rows[o].status.OutboxPending? <==> s.rows[o].attempts < 3)
      && (t.rows[o].status.OutboxPending? ==>
            t.rows[o].availableAt ==
              s.clock + (if s.rows[o].attempts == 0 then 1000 else if s.rows[o].attempts == 1 then 2000 else 4000))
  {
    var p := Holder(poll, o);
    assert Agrees(s, p) && AttemptsOk(s.rows[o]);
    assert Power(0) == 1 && Power(1) == 2 && Power(2) == 4;
  }

  // ---- where the limit ends ----

  /** The step takes a row over the limit: an error of a poll that once saw fewer than three attempts, on a row that has
      made three; or any failure of a row that is done and has made four. */
  predicate Overruns(s: Publishers, act: Act, o: string) {
    && (act.HandleError? || act.RejectUnknown?) && act.o == o && Holds(s, act.poll, o)
    && (act.RejectUnknown? ==> !s.rows[o].known)
    && (if s.rows[o].status.OutboxPending?
        then act.HandleError? && s.rows[o].attempts == RETRY_LIMIT && s.held[Holder(act.poll, o)].attempts < RETRY_LIMIT
        else s.rows[o].attempts == RETRY_LIMIT + 1)
  }

  lemma StepBreaksLimitExactly(s: Publishers, act: Act, o: string)
    requires o in s.rows && AttemptsOk(s.rows[o])
    ensures o in Step(s, act).rows
    ensures !AttemptsOk(Step(s, act).rows[o]) <==> Overruns(s, act, o)
  {
    match act
    case HandleError(poll, x) => hide Power;
    case _ =>
  }

  ghost predicate LimitHolds(s: Publishers) {
    forall o | o in s.rows :: AttemptsOk(s.rows[o])
  }

  lemma NewRowsAreWithinLimit(s: Publishers, act: Act, o: string)
    requires o in Step(s, act).rows && o !in s.rows
    ensures AttemptsOk(Step(s, act).rows[o])
  {
    hide Power;
  }

  ghost predicate LimitHoldsThroughout(acts: seq<Act>) {
    forall k | 0 <= k <= |acts| :: LimitHolds(Run(IDLE, acts[..k]))
  }

  ghost predicate StaysWithinLimit(s: Publishers, act: Act) {
    forall o | o in s.rows :: !Overruns(s, act, o)
  }

  ghost predicate NeverOverruns(acts: seq<Act>) {
    forall k | 0 <= k < |acts| :: StaysWithinLimit(Run(IDLE, acts[..k]), acts[k])
  }

  lemma LimitUpToLast(acts: seq<Act>)
    requires acts != []
    ensures LimitHoldsThroughout(acts) <==>
      LimitHoldsThroughout(acts[..|acts| - 1]) && LimitHolds(Run(IDLE, acts))
    ensures LimitHoldsThroughout(acts[..|acts| - 1]) ==> LimitHolds(Run(IDLE, acts[..|acts| - 1]))
  {
    hide Run, LimitHolds;
    var init := acts[..|acts| - 1];
    assert forall k | 0 <= k <= |init| :: init[..k] == acts[..k];
    assert init[..|init|] == init && acts[..|acts|] == acts;
  }

  lemma OverrunsUpToLast(acts: seq<Act>)
    requires acts != []
    ensures var init := acts[..|acts| - 1];
      NeverOverruns(acts) <==> NeverOverruns(init) && StaysWithinLimit(Run(IDLE, init), acts[|acts| - 1])
  {
    hide Run, StaysWithinLimit;
    var init := acts[..|acts| - 1];
    assert forall k | 0 <= k < |init| :: init[..k] == acts[..k] && init[k] == acts[k];
  }

  /** The limit holds throughout a run exactly if none of its steps overruns it. */
  lemma {:induction false} LimitHoldsExactly(acts: seq<Act>)
    ensures LimitHoldsThroughout(acts) <==> NeverOverruns(acts)
  {
    if acts != [] {
      hide LimitHoldsThroughout, NeverOverruns, LimitHolds, StaysWithinLimit, Step;
      var init := acts[..|acts| - 1];
      LimitHoldsExactly(init);
      LimitUpToLast(acts);
      OverrunsUpToLast(acts);
      if LimitHoldsThroughout(init) { LastStepBreaksLimit(Run(IDLE, init), acts[|acts| - 1]); }
    }
  }

  lemma LastStepBreaksLimit(s: Publishers, act: Act)
    requires LimitHolds(s)
    ensures LimitHolds(Step(s, act)) <==> StaysWithinLimit(s, act)
  {
    hide Step, Overruns;
    forall o | o in s.rows ensures o in Step(s, act).rows && (!AttemptsOk(Step(s, act).rows[o]) <==> Overruns(s, act, o)) {
      StepBreaksLimitExactly(s, act, o);
    }
    forall o | o in Step(s, act).rows && o !in s.rows ensures AttemptsOk(Step(s, act).rows[o]) {
      NewRowsAreWithinLimit(s, act, o);
    }
  }

  /** At or beyond the limit a pending row stays pending exactly if the poll that failed has seen fewer attempts than
      three, which means that its record is out of date. */
  lemma StalePollReschedules(s: Publishers, poll: string, o: string)
    requires Holds(s, poll, o) && s.rows[o].status.OutboxPending? && s.rows[o].attempts >= RETRY_LIMIT
    ensures var t := Step(s, HandleError(poll, o));
      && (t.rows[o].status.OutboxPending? <==> s.held[Holder(poll, o)].attempts < RETRY_LIMIT)
      && (t.rows[o].status.OutboxPending? ==> s.held[Holder(poll, o)].attempts != s.rows[o].attempts)
  {
    hide Power;
  }

  /** Poll number k, by its name. */
  function Poll(k: nat): string {
    if k == 0 then "p" else Poll(k - 1) + "p"
  }

  lemma {:induction false} PollNames(k: nat)
    ensures |Poll(k)| == k + 1
  {
    if k > 0 { PollNames(k - 1); }
  }

  /** Polls 0 to n - 1 each claim the row and stall until their lease has lapsed. */
  function Stalls(o: string, row: OutboxRow, n: nat): seq<Act> {
    if n == 0 then [Insert(o, row)] else Stalls(o, row, n - 1) + [Claim(Poll(n - 1), {o}, 1, 30000), Wait(30001)]
  }

  /** Then the first k of them report an error, one after the other. */
  function Errors(o: string, k: nat): seq<Act> {
    if k == 0 then [] else Errors(o, k - 1) + [HandleError(Poll(k - 1), o)]
  }

  predicate Fresh(row: OutboxRow) {
    row.status.OutboxPending? && row.attempts == 0 && row.lockedAt.None? && row.availableAt <= 0
  }

  lemma RunLast(s: Publishers, acts: seq<Act>, act: Act)
    ensures Run(s, acts + [act]) == Step(Run(s, acts), act)
  {
    hide Step;
    assert (acts + [act])[..|acts|] == acts;
  }

  /** The row with n stalled polls, all of which have seen it without attempts. */
  ghost predicate Stalled(s: Publishers, o: string, n: nat) {
    && s.clock >= 0 && o in s.rows
    && s.rows[o].status.OutboxPending? && s.rows[o].attempts == 0 && s.rows[o].availableAt <= 0
    && (s.rows[o].lockedAt.Some? ==> s.rows[o].lockedAt.value < s.clock)
    && (forall k: nat :: Holder(Poll(k), o) in s.held <==> k < n)
    && (forall k: nat | k < n :: s.held[Holder(Poll(k), o)].attempts == 0)
  }

  lemma OneMoreStalls(s: Publishers, o: string, n: nat)
    requires Stalled(s, o, n)
    ensures Stalled(Step(Step(s, Claim(Poll(n), {o}, 1, 30000)), Wait(30001)), o, n + 1)
  {
    hide Step, Poll;
    ClaimTakesRow(s, o, n);
    var t := Step(s, Claim(Poll(n), {o}, 1, 30000));
    forall k: nat
      ensures Holder(Poll(k), o) in t.held <==> k < n + 1
      ensures k < n + 1 ==> t.held[Holder(Poll(k), o)].attempts == 0
    {
      ClaimAddsPoll(s, o, n, k);
    }
    TimePasses(t, o, n + 1);
  }

  lemma ClaimTakesRow(s: Publishers, o: string, n: nat)
    requires Stalled(s, o, n)
    ensures var t := Step(s, Claim(Poll(n), {o}, 1, 30000));
      && t.clock == s.clock && o in t.rows && t.rows[o] == Leased(s.rows[o], s.clock + 30000)
  {
    hide Poll;
    assert MayClaim(s, Poll(n), {o}, 1);
  }

  lemma ClaimAddsPoll(s: Publishers, o: string, n: nat, k: nat)
    requires Stalled(s, o, n)
    ensures var t := Step(s, Claim(Poll(n), {o}, 1, 30000));
      && (Holder(Poll(k), o) in t.held <==> k < n + 1)
      && (k < n + 1 ==> t.held[Holder(Poll(k), o)].attempts == 0)
  {
    assert MayClaim(s, Poll(n), {o}, 1);
    PollNames(k);
    PollNames(n);
    hide Poll;
    HeldAfterClaim(s, Claim(Poll(n), {o}, 1, 30000), Holder(Poll(k), o));
    hide Step;
  }

  lemma TimePasses(t: Publishers, o: string, n: nat)
    requires t.clock >= 0 && o in t.rows
    requires t.rows[o].status.OutboxPending? && t.rows[o].attempts == 0 && t.rows[o].availableAt <= 0
    requires t.rows[o].lockedAt == Some(t.clock + 30000)
    requires forall k: nat :: Holder(Poll(k), o) in t.held <==> k < n
    requires forall k: nat | k < n :: t.held[Holder(Poll(k), o)].attempts == 0
    ensures Stalled(Step(t, Wait(30001)), o, n)
  {
    hide Poll;
  }

  lemma {:induction false} PollsStall(o: string, row: OutboxRow, n: nat)
    requires Fresh(row)
    ensures Stalled(Run(IDLE, Stalls(o, row, n)), o, n)
  {
    hide Stalled, Step;
    if n == 0 {
      RunLast(IDLE, [], Insert(o, row));
      assert [] + [Insert(o, row)] == [Insert(o, row)];
      Inserted(o, row);
    } else {
      var init := Stalls(o, row, n - 1);
      var claim := Claim(Poll(n - 1), {o}, 1, 30000);
      PollsStall(o, row, n - 1);
      OneMoreStalls(Run(IDLE, init), o, n - 1);
      RunLast(IDLE, init, claim);
      RunLast(IDLE, init + [claim], Wait(30001));
      assert Stalls(o, row, n) == init + [claim] + [Wait(30001)];
    }
  }

  lemma Inserted(o: string, row: OutboxRow)
    requires Fresh(row)
    ensures Stalled(Step(IDLE, Insert(o, row)), o, 0)
  {}

  /** The row after k errors, while the other polls still hold what they saw. */
  ghost predicate Failed(s: Publishers, o: string, n: nat, k: nat) {
    && o in s.rows && s.rows[o].status.OutboxPending? && s.rows[o].attempts == k
    && forall j: nat | k <= j < n :: Holder(Poll(j), o) in s.held && s.held[Holder(Poll(j), o)].attempts == 0
  }

  lemma OneMoreFails(s: Publishers, o: string, n: nat, k: nat)
    requires Failed(s, o, n, k) && k < n
    ensures Failed(Step(s, HandleError(Poll(k), o)), o, n, k + 1)
  {
    hide Power;
    forall j: nat | k + 1 <= j < n ensures Poll(j) != Poll(k) {
      PollNames(j);
      PollNames(k);
    }
    hide Poll;
  }

  lemma {:induction false} ErrorsAddUp(o: string, row: OutboxRow, n: nat, k: nat)
    requires Fresh(row) && k <= n
    ensures Failed(Run(IDLE, Stalls(o, row, n) + Errors(o, k)), o, n, k)
  {
    if k == 0 {
      PollsStall(o, row, n);
      assert Stalls(o, row, n) + [] == Stalls(o, row, n);
    } else {
      hide Run, Step, Failed, Stalls;
      ErrorsAddUp(o, row, n, k - 1);
      var init := Stalls(o, row, n) + Errors(o, k - 1);
      RunLast(IDLE, init, HandleError(Poll(k - 1), o));
      OneMoreFails(Run(IDLE, init), o, n, k - 1);
      assert Stalls(o, row, n) + Errors(o, k) == init + [HandleError(Poll(k - 1), o)];
    }
  }

  /** Beyond leases there is no limit: for every n a run makes n attempts and leaves the row pending. */
  lemma {:induction false} StalePollsOverrun(o: string, row: OutboxRow, n: nat)
    requires Fresh(row)
    ensures var s := Run(IDLE, Stalls(o, row, n) + Errors(o, n));
      o in s.rows && s.rows[o].status.OutboxPending? && s.rows[o].attempts == n
  {
    ErrorsAddUp(o, row, n, n);
  }

  // ---- publication ----

  ghost predicate JobsOk(s: Publishers) {
    && (forall o | o in s.rows && s.rows[o].status.OutboxPublished? :: o in s.jobs)
    && (forall p | p in s.held && s.held[p].added :: p.row in s.jobs)
  }

  lemma StepKeepsJobs(s: Publishers, act: Act)
    requires JobsOk(s)
    ensures JobsOk(Step(s, act))
  {
    if act.Claim? && MayClaim(s, act.poll, act.batch, act.limit) {
      forall p | p in Step(s, act).held && Step(s, act).held[p].added ensures p.row in s.jobs {
        HeldAfterClaim(s, act, p);
      }
    }
  }

  /** In every run, timely or not, a published row had its job added to the queue. */
  lemma {:induction false} PublishedMeansAdded(acts: seq<Act>)
    ensures JobsOk(Run(IDLE, acts))
  {
    if acts != [] {
      hide Step, JobsOk;
      PublishedMeansAdded(acts[..|acts| - 1]);
      StepKeepsJobs(Run(IDLE, acts[..|acts| - 1]), acts[|acts| - 1]);
    }
  }

  /** A row that has left PENDING never returns, and no claim ever takes it again. */
  lemma {:induction false} LeavingPendingIsFinal(s: Publishers, acts: seq<Act>, o: string)
    requires o in s.rows && !s.rows[o].status.OutboxPending?
    ensures var t := Run(s, acts);
      && o in t.rows && !t.rows[o].status.OutboxPending?
      && forall act :: !Claims(t, act, o)
  {
    if acts != [] {
      hide Step;
      LeavingPendingIsFinal(s, acts[..|acts| - 1], o);
      StepLeavesDone(Run(s, acts[..|acts| - 1]), acts[|acts| - 1], o);
    }
  }

  lemma StepLeavesDone(s: Publishers, act: Act, o: string)
    requires o in s.rows && !s.rows[o].status.OutboxPending? && !Claims(s, act, o)
    ensures o in Step(s, act).rows && !Step(s, act).rows[o].status.OutboxPending?
  {}
}
