/**
 * The counting in DisplayTestSummary: totals, pass rate, verdict and total
 * duration, computed from the field values of the finished results.
 */
module ReportAggregator {
  import opened Wrappers
  import opened Models

  /** Which closing line the summary prints. */
  datatype Verdict = AllPassed | MaintenanceWarning

  datatype Summary = Summary(
    total: nat,
    passed: nat,
    failed: nat,
    passRate: Option<real>,
    verdict: Verdict,
    totalDurationMs: real)

  /** `results.Count(r => r.Passed)`. */
  function CountPassed(results: seq<TestRecord>): (n: nat)
    ensures n <= |results|
    ensures n == |results| <==> forall i :: 0 <= i < |results| ==> results[i].passed
    ensures n == 0 <==> forall i :: 0 <= i < |results| ==> !results[i].passed
  {
    if results == [] then 0
    else
      var rest := CountPassed(results[..|results| - 1]);
      assert forall i :: 0 <= i < |results| - 1 ==> results[..|results| - 1][i] == results[i];
      rest + if results[|results| - 1].passed then 1 else 0
  }

  /** Counting splits over concatenation, so it does not depend on grouping. */
  lemma {:induction false} CountPassedAppend(a: seq<TestRecord>, b: seq<TestRecord>)
    ensures CountPassed(a + b) == CountPassed(a) + CountPassed(b)
    decreases |b|
  {
    if b == [] {
      assert a + b == a;
    } else {
      CountPassedAppend(a, b[..|b| - 1]);
      assert (a + b)[..|a + b| - 1] == a + b[..|b| - 1];
    }
  }

  /** `results.Sum(r => r.Duration.TotalMilliseconds)`. */
  function TotalDuration(results: seq<TestRecord>): (total: real)
    ensures total >= 0.0
    ensures (forall i :: 0 <= i < |results| ==> results[i].duration == 0.0) ==> total == 0.0
  {
    if results == [] then 0.0
    else
      assert forall i :: 0 <= i < |results| - 1 ==> results[..|results| - 1][i] == results[i];
      TotalDuration(results[..|results| - 1]) + results[|results| - 1].duration
  }

  /** The total duration of a concatenation is the sum of the totals. */
  lemma {:induction false} TotalDurationAppend(a: seq<TestRecord>, b: seq<TestRecord>)
    ensures TotalDuration(a + b) == TotalDuration(a) + TotalDuration(b)
    decreases |b|
  {
    if b == [] {
      assert a + b == a;
    } else {
      TotalDurationAppend(a, b[..|b| - 1]);
      assert (a + b)[..|a + b| - 1] == a + b[..|b| - 1];
    }
  }

  /**
   * The summary of a result list: passed and failed add up to the total,
   * the pass rate is passed / total * 100 (`None` for an empty list, where
   * the `double` division 0 / 0 gives NaN), and the warning verdict is
   * chosen exactly when some test failed.
   */
  function Summarize(results: seq<TestRecord>): (s: Summary)
    ensures s.total == |results| && s.passed + s.failed == s.total
    ensures s.passed == CountPassed(results)
    ensures s.passRate.None? <==> |results| == 0
    ensures s.passRate.Some? ==> s.passRate.value == s.passed as real / s.total as real * 100.0
    ensures s.passRate.Some? ==> 0.0 <= s.passRate.value <= 100.0
    ensures s.passRate.Some? ==> (s.passRate.value == 100.0 <==> forall i :: 0 <= i < |results| ==> results[i].passed)
    ensures s.verdict == MaintenanceWarning <==> s.failed > 0
    ensures s.verdict == AllPassed <==> forall i :: 0 <= i < |results| ==> results[i].passed
    ensures s.totalDurationMs == TotalDuration(results)
  {
    var passed := CountPassed(results);
    var failed := |results| - passed;
    var passRate := if |results| == 0 then None else Some(passed as real / |results| as real * 100.0);
    if |results| > 0 then
      RateBounds(passed, |results|);
      Summary(|results|, passed, failed, passRate, if failed > 0 then MaintenanceWarning else AllPassed, TotalDuration(results))
    else
      Summary(|results|, passed, failed, passRate, if failed > 0 then MaintenanceWarning else AllPassed, TotalDuration(results))
  }

  lemma RateBounds(passed: nat, total: nat)
    requires 0 < total && passed <= total
    ensures 0.0 <= passed as real / total as real * 100.0 <= 100.0
    ensures passed as real / total as real * 100.0 == 100.0 <==> passed == total
  {
    var q := passed as real / total as real;
    assert q * total as real == passed as real;
    assert (1.0 - q) * total as real == (total - passed) as real;
    assert q >= 0.0;
  }
}
