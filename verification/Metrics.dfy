/** Metrics, net return and integrity assertions (libs/evaluation/src/metrics). */
module Metrics {
  import opened Contracts
  import opened Evaluation

  // ---- sums ----

  function Total<T>(s: seq<T>, f: T -> int): int {
    if s == [] then 0 else Total(s[..|s| - 1], f) + f(s[|s| - 1])
  }

  lemma TotalLast<T>(s: seq<T>, k: nat, f: T -> int)
    requires k < |s|
    ensures Total(s[..k + 1], f) == Total(s[..k], f) + f(s[k])
  {
    assert s[..k + 1][..k] == s[..k];
  }

  const AMOUNT := (c: EvaluationCase) => c.event.amountMinor
  const RECOVERED := (r: StrategyResult) => r.recoveredAmountMinor
  const ATTEMPTED := (r: StrategyResult) => r.interventionsAttempted as int
  const SUCCEEDED := (r: StrategyResult) => r.interventionsSucceeded as int
  const FALSE_ONES := (r: StrategyResult) => r.falseInterventionCount as int
  const BLOCKED := (r: StrategyResult) => r.policyBlocks as int
  const ESCALATED := (r: StrategyResult) => r.escalations as int
  const STOPPED := (r: StrategyResult) => r.stops as int

  /** The metrics that the assertions and the accounting below speak about. */
  datatype EvaluationMetrics = EvaluationMetrics(
    totalAtRisk: int,
    naturallyRecovered: int,
    baseline1Recovered: int,
    systemRecovered: int,
    incrementalVsBaseline0: int,
    incrementalVsBaseline1: int,
    incrementalNetRoi: int,
    interventionsAttempted: int,
    interventionsSucceeded: int,
    failedInterventions: int,
    falseInterventionCount: int,
    policyBlockCount: int,
    escalationCount: int,
    stoppedCaseCount: int,
    systemRoi: RoiResult,
    baseline1Roi: RoiResult)

  datatype RoiResult = RoiResult(totalCost: int, netRoi: int, chargebackCount: nat)

  const COST_PER_INTERVENTION := 50
  const FRAUD_CHARGEBACK_PENALTY := 150_000

  predicate ChargedBack(c: EvaluationCase, r: StrategyResult) {
    c.scenarioId == "SCN_FRAUD_SUSPECTED" && r.interventionsAttempted > 0
  }

  function Chargebacks(cases: seq<EvaluationCase>, results: seq<StrategyResult>): nat
    requires |cases| == |results|
  {
    if cases == [] then 0
    else
      Chargebacks(cases[..|cases| - 1], results[..|cases| - 1])
      + if ChargedBack(cases[|cases| - 1], results[|cases| - 1]) then 1 else 0
  }

  /** Pairs each result with its case; a result without a case is ignored. */
  method ComputeNetRoi(results: seq<StrategyResult>, cases: seq<EvaluationCase>) returns (r: RoiResult)
    ensures var n := if |results| <= |cases| then |results| else |cases|;
      && r.chargebackCount == Chargebacks(cases[..n], results[..n])
      && r.totalCost == 50 * Total(results[..n], ATTEMPTED) + 150_000 * r.chargebackCount
      && r.netRoi + r.totalCost == Total(results[..n], RECOVERED)
  {
    var totalCost, grossRecovered, chargebackCount := 0, 0, 0;
    var i := 0;
    ghost var n := if |results| <= |cases| then |results| else |cases|;
    while i < |results|
      invariant 0 <= i <= |results|
      invariant var k := if i <= n then i else n;
        && chargebackCount == Chargebacks(cases[..k], results[..k])
        && grossRecovered == Total(results[..k], RECOVERED)
        && totalCost == 50 * Total(results[..k], ATTEMPTED) + 150_000 * chargebackCount
    {
      if i < |cases| {
        var result, c := results[i], cases[i];
        TotalLast(results, i, RECOVERED);
        TotalLast(results, i, ATTEMPTED);
        assert cases[..i + 1][..i] == cases[..i] && results[..i + 1][..i] == results[..i];
        grossRecovered := grossRecovered + result.recoveredAmountMinor;
        totalCost := totalCost + result.interventionsAttempted * COST_PER_INTERVENTION;
        if c.scenarioId == "SCN_FRAUD_SUSPECTED" && result.interventionsAttempted > 0 {
          totalCost := totalCost + FRAUD_CHARGEBACK_PENALTY;
          chargebackCount := chargebackCount + 1;
        }
      }
      i := i + 1;
    }
    r := RoiResult(totalCost, grossRecovered - totalCost, chargebackCount);
  }

  method SumAll<T>(s: seq<T>, f: T -> int) returns (sum: int)
    ensures sum == Total(s, f)
  {
    sum := 0;
    for i := 0 to |s|
      invariant sum == Total(s[..i], f)
    {
      TotalLast(s, i, f);
      sum := sum + f(s[i]);
    }
    assert s[..|s|] == s;
  }

  function Gross(results: seq<StrategyResult>, n: nat): int {
    Total(if n <= |results| then results[..n] else results, RECOVERED)
  }

  method Compute(cases: seq<EvaluationCase>, baseline0: seq<StrategyResult>, baseline1: seq<StrategyResult>,
    sut: seq<StrategyResult>) returns (m: EvaluationMetrics)
    ensures m.totalAtRisk == Total(cases, AMOUNT)
    ensures m.naturallyRecovered == Total(baseline0, RECOVERED) && m.baseline1Recovered == Total(baseline1, RECOVERED)
    ensures m.systemRecovered == Total(sut, RECOVERED)
    ensures m.incrementalVsBaseline0 == m.systemRecovered - m.naturallyRecovered
    ensures m.incrementalVsBaseline1 == m.systemRecovered - m.baseline1Recovered
    ensures m.interventionsAttempted == Total(sut, ATTEMPTED) && m.interventionsSucceeded == Total(sut, SUCCEEDED)
    ensures m.failedInterventions + m.interventionsSucceeded == m.interventionsAttempted
    ensures m.falseInterventionCount == Total(sut, FALSE_ONES) && m.policyBlockCount == Total(sut, BLOCKED)
    ensures m.escalationCount == Total(sut, ESCALATED) && m.stoppedCaseCount == Total(sut, STOPPED)
    ensures m.systemRoi.netRoi + m.systemRoi.totalCost == Gross(sut, |cases|)
    ensures m.baseline1Roi.netRoi + m.baseline1Roi.totalCost == Gross(baseline1, |cases|)
    ensures m.incrementalNetRoi == m.systemRoi.netRoi - m.baseline1Roi.netRoi
  {
    var totalAtRisk := SumAll(cases, AMOUNT);
    var naturallyRecovered := SumAll(baseline0, RECOVERED);
    var b1Recovered := SumAll(baseline1, RECOVERED);
    var sysRecovered := SumAll(sut, RECOVERED);
    var attempted, succeeded, falseOnes, blocks, escalations, stops := 0, 0, 0, 0, 0, 0;
    for i := 0 to |sut|
      invariant attempted == Total(sut[..i], ATTEMPTED) && succeeded == Total(sut[..i], SUCCEEDED)
      invariant falseOnes == Total(sut[..i], FALSE_ONES) && blocks == Total(sut[..i], BLOCKED)
      invariant escalations == Total(sut[..i], ESCALATED) && stops == Total(sut[..i], STOPPED)
    {
      var r := sut[i];
      TotalLast(sut, i, ATTEMPTED);
      TotalLast(sut, i, SUCCEEDED);
      TotalLast(sut, i, FALSE_ONES);
      TotalLast(sut, i, BLOCKED);
      TotalLast(sut, i, ESCALATED);
      TotalLast(sut, i, STOPPED);
      attempted := attempted + r.interventionsAttempted;
      succeeded := succeeded + r.interventionsSucceeded;
      falseOnes := falseOnes + r.falseInterventionCount;
      blocks := blocks + r.policyBlocks;
      escalations := escalations + r.escalations;
      stops := stops + r.stops;
    }
    assert sut[..|sut|] == sut;
    var b1Roi := ComputeNetRoi(baseline1, cases);
    var sysRoi := ComputeNetRoi(sut, cases);
    assert |sut| <= |cases| ==> sut[..|sut|] == sut;
    assert |baseline1| <= |cases| ==> baseline1[..|baseline1|] == baseline1;
    m := EvaluationMetrics(totalAtRisk, naturallyRecovered, b1Recovered, sysRecovered,
      sysRecovered - naturallyRecovered, sysRecovered - b1Recovered, sysRoi.netRoi - b1Roi.netRoi,
      attempted, succeeded, attempted - succeeded, falseOnes, blocks, escalations, stops, sysRoi, b1Roi);
  }

  datatype IntegrityFailure = RecoveredExceedsRisk | FalseExceedsAttempted | SucceededExceedsAttempted

  function AssertValid(m: EvaluationMetrics): Option<IntegrityFailure> {
    if m.systemRecovered > m.totalAtRisk then Some(RecoveredExceedsRisk)
    else if m.falseInterventionCount > m.interventionsAttempted then Some(FalseExceedsAttempted)
    else if m.interventionsSucceeded > m.interventionsAttempted then Some(SucceededExceedsAttempted)
    else None
  }

  // ---- accounting over whole datasets ----

  /** The results of the system under test, case by case. */
  ghost predicate ResultsOf(cases: seq<EvaluationCase>, envs: seq<Surroundings>, results: seq<StrategyResult>) {
    |cases| == |envs| == |results| && forall k | 0 <= k < |cases| :: results[k] == Expected(cases[k], envs[k])
  }

  /** Runs the system under test on every case. */
  method EvaluateAll(cases: seq<EvaluationCase>, envs: seq<Surroundings>) returns (results: seq<StrategyResult>)
    requires |cases| == |envs|
    ensures ResultsOf(cases, envs, results)
  {
    results := [];
    for i := 0 to |cases|
      invariant |results| == i && forall k | 0 <= k < i :: results[k] == Expected(cases[k], envs[k])
    {
      hide Expected;
      var r := Evaluate(cases[i], envs[i]);
      results := results + [r];
    }
  }

  /** Every case is counted once: as a success, as a stop or as an escalation. */
  lemma {:induction false} EveryCaseEndsOnce(cases: seq<EvaluationCase>, envs: seq<Surroundings>,
    results: seq<StrategyResult>)
    requires ResultsOf(cases, envs, results)
    ensures Total(results, SUCCEEDED) + Total(results, STOPPED) + Total(results, ESCALATED) == |cases|
    ensures 0 <= Total(results, FALSE_ONES) <= Total(results, SUCCEEDED) <= Total(results, ATTEMPTED)
  {
    if results != [] {
      var n := |results| - 1;
      EveryCaseEndsOnce(cases[..n], envs[..n], results[..n]);
      assert results[n] == Expected(cases[n], envs[n]);
      hide Expected;
    }
  }

  /** The amounts of the cases that were not recovered. */
  function Unrecovered(cases: seq<EvaluationCase>, results: seq<StrategyResult>): int
    requires |cases| == |results|
  {
    if cases == [] then 0
    else
      var n := |cases| - 1;
      Unrecovered(cases[..n], results[..n]) + (if results[n].isRecovered then 0 else cases[n].event.amountMinor)
  }

  lemma UpToLast(cases: seq<EvaluationCase>, envs: seq<Surroundings>, results: seq<StrategyResult>)
    requires ResultsOf(cases, envs, results) && results != []
    ensures |cases| == |envs| == |results|
    ensures var n := |results| - 1;
      && ResultsOf(cases[..n], envs[..n], results[..n])
      && results[n].recoveredAmountMinor == (if results[n].isRecovered then cases[n].event.amountMinor else 0)
  {
    hide Expected;
    var n := |results| - 1;
    assert results[n] == Expected(cases[n], envs[n]);
  }

  /** The amounts at risk are recovered or not. */
  lemma {:induction false} RiskIsRecoveredOrNot(cases: seq<EvaluationCase>, envs: seq<Surroundings>,
    results: seq<StrategyResult>)
    requires ResultsOf(cases, envs, results)
    ensures Total(cases, AMOUNT) == Total(results, RECOVERED) + Unrecovered(cases, results)
  {
    if results != [] {
      hide ResultsOf;
      var n := |results| - 1;
      UpToLast(cases, envs, results);
      RiskIsRecoveredOrNot(cases[..n], envs[..n], results[..n]);
    }
  }

  lemma {:induction false} NonNegativeAmounts(cases: seq<EvaluationCase>, results: seq<StrategyResult>)
    requires |cases| == |results| && forall k | 0 <= k < |cases| :: cases[k].event.amountMinor >= 0
    ensures Unrecovered(cases, results) >= 0
  {
    if cases != [] {
      var n := |cases| - 1;
      NonNegativeAmounts(cases[..n], results[..n]);
    }
  }

  /** The metrics are those of the system under test on this dataset. */
  ghost predicate MetricsOf(m: EvaluationMetrics, cases: seq<EvaluationCase>, results: seq<StrategyResult>) {
    && m.totalAtRisk == Total(cases, AMOUNT) && m.systemRecovered == Total(results, RECOVERED)
    && m.interventionsAttempted == Total(results, ATTEMPTED) && m.interventionsSucceeded == Total(results, SUCCEEDED)
    && m.falseInterventionCount == Total(results, FALSE_ONES)
  }

  /** The integrity assertions fire exactly when the amounts that were not recovered add up to less than nothing. */
  lemma IntegrityExactly(m: EvaluationMetrics, cases: seq<EvaluationCase>, envs: seq<Surroundings>,
    results: seq<StrategyResult>)
    requires ResultsOf(cases, envs, results) && MetricsOf(m, cases, results)
    ensures AssertValid(m).Some? <==> Unrecovered(cases, results) < 0
    ensures AssertValid(m).Some? ==> AssertValid(m) == Some(RecoveredExceedsRisk)
  {
    EveryCaseEndsOnce(cases, envs, results);
    RiskIsRecoveredOrNot(cases, envs, results);
  }

  /** They never fire on a dataset without negative amounts. */
  lemma IntegrityHolds(m: EvaluationMetrics, cases: seq<EvaluationCase>, envs: seq<Surroundings>,
    results: seq<StrategyResult>)
    requires ResultsOf(cases, envs, results) && MetricsOf(m, cases, results)
    requires forall k | 0 <= k < |cases| :: cases[k].event.amountMinor >= 0
    ensures AssertValid(m) == None
  {
    IntegrityExactly(m, cases, envs, results);
    NonNegativeAmounts(cases, results);
  }

  /** One ineligible case with a negative amount is enough to make them fire. */
  lemma NegativeAmountBreaksIntegrity(c: EvaluationCase, env: Surroundings, m: EvaluationMetrics)
    requires c.event.amountMinor < 0 && MetricsOf(m, [c], [Expected(c, env)])
    ensures AssertValid(m) == Some(RecoveredExceedsRisk)
  {
    var r := Expected(c, env);
    assert !r.isRecovered;
    hide Expected;
    IntegrityExactly(m, [c], [env], [r]);
    assert Unrecovered([c], [r]) == Unrecovered([], []) + c.event.amountMinor;
  }

  /** No chargeback is ever charged to the system under test for suspected fraud of the dataset. */
  lemma {:induction false} NoChargebacks(cases: seq<EvaluationCase>, envs: seq<Surroundings>,
    results: seq<StrategyResult>)
    requires ResultsOf(cases, envs, results)
    requires forall k | 0 <= k < |cases| && cases[k].scenarioId == "SCN_FRAUD_SUSPECTED" ::
      cases[k].event.eventType.PaymentFailed? && cases[k].event.failureReason == Some(OtherReason("FRAUD_SUSPECTED"))
    ensures Chargebacks(cases, results) == 0
  {
    if cases != [] {
      var n := |cases| - 1;
      NoChargebacks(cases[..n], envs[..n], results[..n]);
      var r := Expected(cases[n], envs[n]);
      assert results[n] == r;
      if cases[n].scenarioId == "SCN_FRAUD_SUSPECTED" && Eligible(cases[n], envs[n]) {
        FraudScenarioIsEscalated(cases[n], envs[n]);
      }
    }
  }
}
