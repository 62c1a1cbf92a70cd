/** Every version of a case is either audited or known to be silent, and transitions have a provenance. */
module AuditReplay {
  import opened Contracts
  import opened Store
  import opened TableIntegrity
  import opened Worker
  import opened Protocol
  import opened ProtocolInvariant
  import opened LockLedger
  import opened CaseHistory

  function IsUnlogged(c: string): Happening -> bool { (h: Happening) => h.Unlogged? && h.caseId == c }

  /** Writes of a case that left no entry in its trail. */
  function SilentWrites(trace: seq<Happening>, c: string): nat { CountBy(trace, IsUnlogged(c)) }

  /** What a logged write of one step may do to the state of a case. */
  predicate Permitted(st: Step, from: CaseState, to: CaseState) {
    match st
    case IngestEvent(_, _) => to.Recovered? && !from.Recovered?
    case CommitPlan(_) => to in {PolicyChecked, Escalated, Stopped, Retryable}
    case Enqueue(_, _, _, _) => from.PolicyChecked? && to.Queued?
    case Prepare(_, _) => from.Queued? && to.Executing?
    case Persist(_) => to in {AwaitingCustomerAction, Recovered, Ambiguous, Failed, Detected} && to != from
    case Mark(_, _) => to in {Escalated, Stopped} && from !in {Escalated, Stopped}
    case Sweep(_) => to.Escalated? && from !in {Escalated, Stopped}
    case Reconcile(_) => to.Failed? && !from.Failed?
    case _ => false
  }

  /** A step brings a case into being. */
  ghost predicate Created(a: Db, b: Db, c: string) {
    && c !in a.cases && c in b.cases && b.cases[c].version == 1 && b.cases[c].state == Detected
    && b.cases[c].sourceEventId in b.events.rows
    && b.cases[c].amountMinor == b.events.rows[b.cases[c].sourceEventId].event.amountMinor
    && Trail(b.audit, c) == Trail(a.audit, c) + [Entry(None, Detected)]
  }

  /** What a step can do to a case, stored or not. */
  ghost predicate CaseStep(s: System, st: Step, c: string) {
    var t := Apply(s, st);
    || (st.IngestEvent? && Created(s.db, t.db, c) && t.trace == s.trace)
    || (Untouched(s.db, t.db, c) && SilentWrites(t.trace, c) == SilentWrites(s.trace, c))
    || (Logged(s.db, t.db, c) && SilentWrites(t.trace, c) == SilentWrites(s.trace, c)
        && (st.Persist? || SameAmount(s.db, t.db, c))
        && Permitted(st, s.db.cases[c].state, t.db.cases[c].state))
    || (Silent(s.db, t.db, c) && SilentWrites(t.trace, c) == SilentWrites(s.trace, c) + 1
        && if st.Capture? then t.db.cases[c].state.Recovered? else st.Retry? && t.db.cases[c].state.Retryable?)
  }

  predicate WritesNoCase(st: Step) {
    !IsWriter(st) && !st.CommitPlan? && !st.Prepare? && !st.Persist?
  }

  lemma QuietTables(s: System, st: Step)
    requires WritesNoCase(st)
    ensures var t := Apply(s, st);
      && t.db.cases == s.db.cases && t.db.audit == s.db.audit
      && (t.trace == s.trace || (t.trace == s.trace + [t.trace[|t.trace| - 1]] && !t.trace[|t.trace| - 1].Unlogged?))
  {
    hide Planning.Propose, Validate, KeyOf, AlreadyExecuted;
  }

  lemma QuietStep(s: System, st: Step, c: string)
    requires WritesNoCase(st)
    ensures CaseStep(s, st, c)
  {
    hide Apply, Trail, Permitted, WritesNoCase;
    QuietTables(s, st);
    var t := Apply(s, st);
    if t.trace != s.trace { CountLast(s.trace, t.trace[|t.trace| - 1], IsUnlogged(c)); }
  }

  lemma CommitPlanStep(s: System, planner: string, c: string)
    requires SystemOk(s)
    ensures CaseStep(s, CommitPlan(planner), c)
  {
    hide TablesOk, QueueOk, WorkersOk, PlanOk, CreatePlan, Trail;
    if planner in s.planners {
      var d := s.planners[planner];
      assert DraftOk(d, s.db);
      CreatePlanHistory(s.db, d.plan, d.next, c);
    }
  }

  lemma PrepareStep(s: System, w: string, newId: string, c: string)
    ensures CaseStep(s, Prepare(w, newId), c)
  {
    hide PrepareIntervention, Trail;
    if w in s.workers && s.workers[w].Absent? {
      PrepareHistory(s.db, CommandOf(s.workers[w].plan, s.workers[w].job), newId, c);
    }
  }

  lemma PersistStep(s: System, w: string, c: string)
    ensures CaseStep(s, Persist(w), c)
  {
    hide PersistExecutionResult, Trail;
    if w in s.workers && s.workers[w].Called? {
      var pc := s.workers[w];
      var (next, remaining) := MapOutcome(pc.plan.interventionType, pc.result, pc.atRisk);
      ResultHistory(s.db, pc.id, StatusOf(pc.result), pc.result.recovered, next, remaining, c);
    }
  }

  lemma IngestStep(s: System, cmd: IngestionCommand, ctx: IngestionContext, c: string)
    ensures CaseStep(s, IngestEvent(cmd, ctx), c)
  {
    hide Ingest, Trail;
    IngestHistory(s.db, cmd, ctx, c);
  }

  lemma EnqueueStep(s: System, x: string, planId: string, outboxId: string, now: int, c: string)
    ensures CaseStep(s, Enqueue(x, planId, outboxId, now), c)
  {
    hide EnqueuePlan, Trail;
    EnqueuePlanHistory(s.db, x, planId, outboxId, now, c);
  }

  lemma MarkStep(s: System, x: string, escalate: bool, c: string)
    ensures CaseStep(s, Mark(x, escalate), c)
  {
    hide Trail;
    MarkCaseHistory(s.db, x, if escalate then Escalated else Stopped, c);
  }

  lemma CaptureStep(s: System, x: string, c: string)
    ensures CaseStep(s, Capture(x), c)
  {
    hide Trail;
    CaptureHistory(s.db, x, c);
    CountLast(s.trace, Unlogged(x), IsUnlogged(c));
    assert s.trace + [] == s.trace;
  }

  lemma LogCaptureStep(s: System, x: string, previous: CaseState, c: string)
    ensures CaseStep(s, LogCapture(x, previous), c)
  {
    hide Trail;
    LogCaptureHistory(s.db, x, previous, c);
  }

  lemma SweepStep(s: System, i: string, c: string)
    ensures CaseStep(s, Sweep(i), c)
  {
    hide Trail;
    SweepHistory(s.db, i, c);
    if Locked(s.db, i) {
      var row := s.db.interventions.rows[i];
      CountLast(s.trace, LockFreed(i, row.caseId, row.interventionType), IsUnlogged(c));
    }
  }

  lemma ReleaseStep(s: System, i: string, c: string)
    ensures CaseStep(s, Release(i), c)
  {
    hide Trail;
    if Locked(s.db, i) {
      var row := s.db.interventions.rows[i];
      CountLast(s.trace, LockFreed(i, row.caseId, row.interventionType), IsUnlogged(c));
    }
  }

  lemma RetryStep(s: System, i: string, c: string)
    ensures CaseStep(s, Retry(i), c)
  {
    hide Trail, ScheduleRetry;
    RetryHistory(s.db, i, c);
    assert s.trace + [] == s.trace;
    if i in s.db.interventions.rows { CountLast(s.trace, Unlogged(s.db.interventions.rows[i].caseId), IsUnlogged(c)); }
  }

  lemma ReconcileStep(s: System, i: string, c: string)
    ensures CaseStep(s, Reconcile(i), c)
  {
    hide Trail, PersistExecutionResult;
    ResultHistory(s.db, i, FailedStatus, None, Failed, None, c);
  }

  lemma EveryStep(s: System, st: Step, c: string)
    requires SystemOk(s)
    ensures CaseStep(s, st, c)
  {
    hide SystemOk, CaseStep;
    match st
    case IngestEvent(cmd, ctx) => IngestStep(s, cmd, ctx, c);
    case CommitPlan(planner) => CommitPlanStep(s, planner, c);
    case Enqueue(x, planId, outboxId, now) => EnqueueStep(s, x, planId, outboxId, now, c);
    case Prepare(w, newId) => PrepareStep(s, w, newId, c);
    case Persist(w) => PersistStep(s, w, c);
    case Mark(x, escalate) => MarkStep(s, x, escalate, c);
    case Capture(x) => CaptureStep(s, x, c);
    case LogCapture(x, previous) => LogCaptureStep(s, x, previous, c);
    case Sweep(i) => SweepStep(s, i, c);
    case Release(i) => ReleaseStep(s, i, c);
    case Retry(i) => RetryStep(s, i, c);
    case Block(i) => BlockStep(s, i, c);
    case Reconcile(i) => ReconcileStep(s, i, c);
    case _ => QuietStep(s, st, c);
  }

  lemma BlockStep(s: System, i: string, c: string)
    ensures CaseStep(s, Block(i), c)
  {
    hide Trail;
  }

  // ---- replaying the audit log ----

  /** Each entry starts where the one before it ended; the first creates the case, the last ends in the state. */
  predicate IsChain(trail: seq<Entry>, state: CaseState) {
    && trail != [] && trail[0] == Entry(None, Detected) && trail[|trail| - 1].next == state
    && (forall k | 0 < k < |trail| :: trail[k].previous == Some(trail[k - 1].next))
  }

  ghost predicate AuditOk(s: System, c: string) {
    if c in s.db.cases then
      && s.db.cases[c].version == |Trail(s.db.audit, c)| + SilentWrites(s.trace, c)
      && (SilentWrites(s.trace, c) == 0 ==> IsChain(Trail(s.db.audit, c), s.db.cases[c].state))
    else Trail(s.db.audit, c) == [] && SilentWrites(s.trace, c) == 0
  }

  lemma StepKeepsAudit(s: System, st: Step, c: string)
    requires SystemOk(s) && AuditOk(s, c)
    ensures AuditOk(Apply(s, st), c)
  {
    hide SystemOk, Apply, Trail, SilentWrites, Permitted;
    EveryStep(s, st, c);
  }

  /** Version = audited writes + silent writes, in every run; and a case without silent writes is replayed from its
      audit rows alone: their transitions chain from creation to the current state, one per version. */
  lemma {:induction false} AuditReplaysCases(log: seq<Step>, c: string)
    ensures AuditOk(Exec(START, log), c)
  {
    if log != [] {
      hide AuditOk, Apply, SystemOk;
      AuditReplaysCases(log[..|log| - 1], c);
      RunsKeepEverything(log[..|log| - 1]);
      StepKeepsAudit(Exec(START, log[..|log| - 1]), log[|log| - 1], c);
    }
  }
}
