/** The domain state machine (libs/domain/src/state-machine.ts). */
module StateMachine {
  import opened Contracts

  predicate IsTerminal(s: CaseState) {
    s in {Recovered, Failed, Stopped, Expired, Rejected}
  }

  function ValidTransitions(s: CaseState): set<CaseState> {
    match s
    case Detected => {Qualified, Rejected}
    case Qualified => {Diagnosed, Rejected}
    case Diagnosed => {Planned, Escalated}
    case Planned => {PolicyChecked, Rejected}
    case PolicyChecked => {Queued, Rejected, Stopped}
    case Queued => {Executing, Stopped}
    case Executing =>
      {Recovered, Failed, Retryable, Escalated, Stopped, AwaitingCustomerAction, Ambiguous}
    case AwaitingCustomerAction => {Recovered, Failed, Retryable, Escalated, Stopped, Expired}
    case Retryable => {Planned, Queued, Escalated, Stopped, Expired}
    case Escalated => {Stopped, Recovered, Failed}
    case Ambiguous => {Recovered, Failed, Retryable, Escalated, Stopped}
    case _ => {}
  }

  predicate CanTransition(from: CaseState, to: CaseState) {
    to in ValidTransitions(from)
  }

  /** The same machine, told by where a state can be entered from. */
  function Predecessors(s: CaseState): set<CaseState> {
    match s
    case Qualified => {Detected}
    case Diagnosed => {Qualified}
    case Planned => {Diagnosed, Retryable}
    case PolicyChecked => {Planned}
    case Queued => {PolicyChecked, Retryable}
    case Executing => {Queued}
    case AwaitingCustomerAction => {Executing}
    case Ambiguous => {Executing}
    case Recovered => {Executing, AwaitingCustomerAction, Ambiguous, Escalated}
    case Failed => {Executing, AwaitingCustomerAction, Ambiguous, Escalated}
    case Retryable => {Executing, AwaitingCustomerAction, Ambiguous}
    case Escalated => {Diagnosed, Executing, AwaitingCustomerAction, Ambiguous, Retryable}
    case Stopped => {PolicyChecked, Queued, Executing, AwaitingCustomerAction, Ambiguous, Retryable, Escalated}
    case Expired => {AwaitingCustomerAction, Retryable}
    case Rejected => {Detected, Qualified, Planned, PolicyChecked}
    case Detected => {}
  }

  /** Every transition is seen from both of its ends; Detected is never entered again. */
  lemma TransitionsFromBothEnds(from: CaseState, to: CaseState)
    ensures CanTransition(from, to) <==> from in Predecessors(to)
  {
    match to case Detected => case Recovered => case Failed => case Stopped => case Escalated => case _ =>
  }

  /** The error carries the refused pair of states. */
  function TransitionRevenueCase(rc: RecoveryCase, next: CaseState)
    : Result<RecoveryCase, (CaseState, CaseState)>
  {
    if CanTransition(rc.state, next)
    then Ok(rc.(state := next, version := rc.version + 1))
    else Err((rc.state, next))
  }

  /** Requests the states of `path` one after the other, stopping at the first refusal. */
  function Drive(rc: RecoveryCase, path: seq<CaseState>): Result<RecoveryCase, (CaseState, CaseState)>
    decreases path
  {
    if path == [] then Ok(rc)
    else match TransitionRevenueCase(rc, path[0])
      case Ok(next) => Drive(next, path[1..])
      case Err(e) => Err(e)
  }

  predicate IsRun(from: CaseState, path: seq<CaseState>)
    decreases path
  {
    path == [] || (CanTransition(from, path[0]) && IsRun(path[0], path[1..]))
  }

  function Visits(path: seq<CaseState>, s: CaseState): nat {
    if path == [] then 0 else (if path[0] == s then 1 else 0) + Visits(path[1..], s)
  }

  function LastState(from: CaseState, path: seq<CaseState>): CaseState
    decreases path
  {
    if path == [] then from else LastState(path[0], path[1..])
  }

  /** Driving a case succeeds exactly along runs, and then only state and version change. */
  lemma {:induction false} DriveFollowsRuns(rc: RecoveryCase, path: seq<CaseState>)
    ensures Drive(rc, path).Ok? <==> IsRun(rc.state, path)
    ensures Drive(rc, path).Ok? ==>
      Drive(rc, path).value == rc.(state := LastState(rc.state, path), version := rc.version + |path|)
    decreases path
  {
    if path != [] && CanTransition(rc.state, path[0]) {
      DriveFollowsRuns(TransitionRevenueCase(rc, path[0]).value, path[1..]);
    }
  }

  lemma {:induction false} TerminalStatesAbsorb(from: CaseState, path: seq<CaseState>)
    ensures IsTerminal(from) <==> forall next :: !CanTransition(from, next)
    ensures IsRun(from, path) && IsTerminal(from) ==> path == []
  {
    assert !IsTerminal(from) ==>
      CanTransition(from, match from
        case Detected => Qualified case Qualified => Diagnosed case Diagnosed => Planned
        case Planned => PolicyChecked case PolicyChecked => Queued case Queued => Executing
        case Retryable => Planned case _ => Recovered);
  }

  /** The most transitions still possible from a state before the next visit to Retryable. */
  function Distance(s: CaseState): nat {
    match s
    case Detected => 9 case Qualified => 8 case Diagnosed => 7 case Retryable => 7
    case Planned => 6 case PolicyChecked => 5 case Queued => 4 case Executing => 3
    case AwaitingCustomerAction => 2 case Ambiguous => 2 case Escalated => 1
    case _ => 0
  }

  lemma {:induction false} RunLengthFrom(from: CaseState, path: seq<CaseState>)
    requires IsRun(from, path)
    ensures |path| + Distance(LastState(from, path)) <= Distance(from) + 6 * Visits(path, Retryable)
    decreases path
  {
    if path != [] { RunLengthFrom(path[0], path[1..]); }
  }

  /** A run from Detected that visits Retryable k times has at most 9 + 6k transitions. */
  lemma RunLengthBound(path: seq<CaseState>)
    requires IsRun(Detected, path)
    ensures |path| <= 9 + 6 * Visits(path, Retryable)
  {
    RunLengthFrom(Detected, path);
  }

  function LongTail(k: nat): seq<CaseState> {
    if k == 0 then [Escalated, Failed]
    else [Retryable, Planned, PolicyChecked, Queued, Executing, AwaitingCustomerAction] + LongTail(k - 1)
  }

  function LongestRun(k: nat): seq<CaseState> {
    [Qualified, Diagnosed, Planned, PolicyChecked, Queued, Executing, AwaitingCustomerAction] + LongTail(k)
  }

  lemma {:induction false} RunsConcatenate(from: CaseState, a: seq<CaseState>, b: seq<CaseState>)
    requires IsRun(from, a) && IsRun(LastState(from, a), b)
    ensures IsRun(from, a + b)
    ensures forall s :: Visits(a + b, s) == Visits(a, s) + Visits(b, s)
    decreases a
  {
    if a == [] {
      assert a + b == b;
    } else {
      assert (a + b)[1..] == a[1..] + b;
      RunsConcatenate(a[0], a[1..], b);
    }
  }

  lemma {:induction false} LongTailIsRun(k: nat)
    ensures IsRun(AwaitingCustomerAction, LongTail(k))
    ensures |LongTail(k)| == 2 + 6 * k && Visits(LongTail(k), Retryable) == k
  {
    if k == 0 {
      assert LongTail(0)[1..] == [Failed];
    } else {
      LongTailIsRun(k - 1);
      var lap := [Retryable, Planned, PolicyChecked, Queued, Executing, AwaitingCustomerAction];
      assert lap[1..][1..] == [PolicyChecked, Queued, Executing, AwaitingCustomerAction];
      assert lap[1..][1..][1..][1..] == [Executing, AwaitingCustomerAction];
      RunsConcatenate(AwaitingCustomerAction, lap, LongTail(k - 1));
    }
  }

  /** The bound is attained for every number of retries. */
  lemma RunLengthBoundIsTight(k: nat)
    ensures IsRun(Detected, LongestRun(k))
    ensures |LongestRun(k)| == 9 + 6 * k && Visits(LongestRun(k), Retryable) == k
  {
    LongTailIsRun(k);
    var head := [Qualified, Diagnosed, Planned, PolicyChecked, Queued, Executing, AwaitingCustomerAction];
    assert head[1..][1..] == [Planned, PolicyChecked, Queued, Executing, AwaitingCustomerAction];
    assert head[1..][1..][1..][1..] == [Queued, Executing, AwaitingCustomerAction];
    RunsConcatenate(Detected, head, LongTail(k));
  }

  /** States in which the last execution is not yet answered by a visit to Retryable. */
  predicate AfterExecution(s: CaseState) {
    s in {Executing, AwaitingCustomerAction, Ambiguous}
  }

  lemma {:induction false} ExecutionBalance(from: CaseState, path: seq<CaseState>)
    requires IsRun(from, path)
    requires !IsTerminal(LastState(from, path)) && !LastState(from, path).Escalated?
    ensures Visits(path, Executing) + (if AfterExecution(from) then 1 else 0) ==
            Visits(path, Retryable) + (if AfterExecution(LastState(from, path)) then 1 else 0)
    decreases path
  {
    if path != [] {
      if path[0].Escalated? || IsTerminal(path[0]) {
        EscalatedIsLeftForGood(path[0], path[1..]);
        assert false;
      }
      ExecutionBalance(path[0], path[1..]);
    }
  }

  lemma {:induction false} EscalatedIsLeftForGood(from: CaseState, path: seq<CaseState>)
    requires from.Escalated? || IsTerminal(from)
    requires IsRun(from, path)
    ensures LastState(from, path).Escalated? || IsTerminal(LastState(from, path))
    decreases path
  {
    if path != [] { EscalatedIsLeftForGood(path[0], path[1..]); }
  }

  /** Between one visit to Retryable and the next there is exactly one execution. */
  lemma OneExecutionPerRetry(path: seq<CaseState>)
    requires IsRun(Retryable, path) && path != []
    requires LastState(Retryable, path) == Retryable && Visits(path, Retryable) == 1
    ensures Visits(path, Executing) == 1
  {
    ExecutionBalance(Retryable, path);
  }
}
