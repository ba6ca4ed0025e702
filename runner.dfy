/**
 * The PumpTestRunner object: the random source it owns, the plan it builds
 * for a configuration, the in-place execution of one test and the run over
 * the whole plan.
 */
module Services {
  import opened Wrappers
  import opened Runtime
  import opened Models
  import opened ConfigurationCatalog
  import opened TestPlanGenerator
  import opened TestExecutor
  import opened ReportAggregator

  /** A value `Random.NextDouble` returns. */
  type Draw = r: real | 0.0 <= r < 1.0 witness 0.0

  /** What a result the plan creates holds before it is executed. */
  function Blank(c: TestCase): (r: TestRecord)
    ensures r.testName == c.name && r.unit == c.unit && r.status == "" && r.notes == None
  {
    DefaultRecord.(testName := c.name, unit := c.unit)
  }

  /** The field values of a list of results. */
  function Snapshots(results: seq<PumpTestResult>): (r: seq<TestRecord>)
    reads results
    ensures |r| == |results|
    ensures forall i :: 0 <= i < |results| ==> r[i] == results[i].Snapshot()
  {
    seq(|results|, i reads results requires 0 <= i < |results| => results[i].Snapshot())
  }

  /** A pump start resolves the pump limits and plans seven tests, ending with Motor Current. */
  lemma PumpStartScenario()
    ensures GetConfiguration("pump", "start").Some?
    ensures var c := GetConfiguration("pump", "start").value;
      c.maxPressure == 150.0 && c.maxFlow == 500.0 && c.maxTemperature == 180.0
      && PlanFor(ToLower(c.operation)) == PlanFor("start")
      && NoteText(Pressure, c, true) == "Within normal range (< 150 PSI)"
    ensures |PlanFor("start")| == 7 && PlanFor("start")[6] == TestCase("Motor Current Test", "Amps")
  {
    CatalogEntry("pump", "start");
    var c := GetConfiguration("pump", "start").value;
    PressureNoteShowsLimit(c, 150);
    assert NatToString(150) == "150";
  }

  /** A valve test resolves the valve limits and plans eight tests, ending with Noise Level. */
  lemma ValveTestScenario()
    ensures GetConfiguration("valve", "test").Some?
    ensures var c := GetConfiguration("valve", "test").value;
      c.maxPressure == 600.0 && PlanFor(ToLower(c.operation)) == PlanFor("test")
    ensures |PlanFor("test")| == 8 && PlanFor("test")[7] == TestCase("Noise Level Test", "dB")
  {
    CatalogEntry("valve", "test");
  }

  /** An unknown pair, or a known one spelled in capitals, resolves nothing. */
  lemma UnknownPairScenario()
    ensures GetConfiguration("drone", "fly").None?
    ensures GetConfiguration("Pump", "start").None?
  {
    assert "Pump"[0] != "pump"[0];
  }

  /** What RunTests leaves: nothing for an unknown pair, or the results and their summary. */
  datatype RunReport =
    | Unsupported
    | Completed(config: PumpConfiguration, results: seq<PumpTestResult>, summary: Summary)

  class PumpTestRunner {
    /** The values `_random` yields, in order, and how many have been taken so far. */
    const draws: nat -> Draw
    var cursor: nat

    constructor (draws: nat -> Draw)
      ensures this.draws == draws && cursor == 0
    {
      this.draws := draws;
      cursor := 0;
    }

    /** `_random.NextDouble()`: the next draw, in [0, 1). */
    method NextDouble() returns (d: Draw)
      modifies this
      ensures d == draws(old(cursor))
      ensures cursor == old(cursor) + 1
    {
      d := draws(cursor);
      cursor := cursor + 1;
    }

    /** `_random.Next(minValue, maxValue)`: an integer in [minValue, maxValue), or minValue when the two are equal. */
    method Next(minValue: int, maxValue: int) returns (n: int)
      requires minValue <= maxValue
      modifies this
      ensures n == minValue + (draws(old(cursor)) * (maxValue - minValue) as real).Floor
      ensures minValue <= n && (n < maxValue || n == minValue)
      ensures cursor == old(cursor) + 1
    {
      var d := NextDouble();
      var range := (maxValue - minValue) as real;
      var scaled := d * range;
      if minValue < maxValue {
        ScaleBelow(d, range);
      } else {
        assert scaled == 0.0;
      }
      n := minValue + scaled.Floor;
    }

    /** Result i holds only the name and unit of planned test i. */
    static ghost predicate Planned(tests: seq<PumpTestResult>, plan: seq<TestCase>)
      reads tests
    {
      |tests| == |plan| && forall i :: 0 <= i < |tests| ==> tests[i].Snapshot() == Blank(plan[i])
    }

    /** No result object appears twice. */
    static ghost predicate Distinct(tests: seq<PumpTestResult>)
    {
      forall i, j :: 0 <= i < j < |tests| ==> tests[i] != tests[j]
    }

    /**
     * `tests.Add(new PumpTestResult { TestName = ..., Unit = ... })`, where the
     * added test is the next one of `plan`.
     */
    static method AddTest(tests: seq<PumpTestResult>, ghost plan: seq<TestCase>, c: TestCase) returns (r: seq<PumpTestResult>)
      requires |tests| < |plan| && c == plan[|tests|]
      requires Planned(tests, plan[..|tests|]) && Distinct(tests)
      ensures |r| == |tests| + 1 && r[..|tests|] == tests
      ensures Planned(r, plan[..|r|]) && Distinct(r)
      ensures forall t :: t in r ==> t in tests || fresh(t)
    {
      var t := new PumpTestResult();
      t.testName := c.name;
      t.unit := c.unit;
      r := tests + [t];
      assert plan[..|r|] == plan[..|tests|] + [c];
    }

    /** The list initializer of `GenerateTestsForOperation`: the five base tests. */
    static method BaseTestResults() returns (tests: seq<PumpTestResult>)
      ensures Planned(tests, BaseTests) && Distinct(tests)
      ensures forall t :: t in tests ==> fresh(t)
    {
      tests := [];
      tests := AddTest(tests, BaseTests, TestCase("Pressure Test", "PSI"));
      tests := AddTest(tests, BaseTests, TestCase("Flow Rate Test", "GPM"));
      tests := AddTest(tests, BaseTests, TestCase("Temperature Test", "°F"));
      tests := AddTest(tests, BaseTests, TestCase("Vibration Test", "mm/s"));
      tests := AddTest(tests, BaseTests, TestCase("Seal Integrity Test", "%"));
      assert BaseTests[..|tests|] == BaseTests;
    }

    /** The `switch` of `GenerateTestsForOperation`: the tests added for a lower-cased operation. */
    static method OperationTestResults(operation: string) returns (tests: seq<PumpTestResult>)
      ensures Planned(tests, OperationTests(operation)) && Distinct(tests)
      ensures forall t :: t in tests ==> fresh(t)
    {
      ghost var plan := OperationTests(operation);
      tests := [];
      if operation == "opened" {
        tests := AddTest(tests, plan, TestCase("Opening Time Test", "seconds"));
        tests := AddTest(tests, plan, TestCase("Full Open Position Test", "%"));
      } else if operation == "close" {
        tests := AddTest(tests, plan, TestCase("Closing Time Test", "seconds"));
        tests := AddTest(tests, plan, TestCase("Leak Test (Closed)", "ml/min"));
      } else if operation == "start" {
        tests := AddTest(tests, plan, TestCase("Startup Time Test", "seconds"));
        tests := AddTest(tests, plan, TestCase("Motor Current Test", "Amps"));
      } else if operation == "stop" {
        tests := AddTest(tests, plan, TestCase("Shutdown Time Test", "seconds"));
        tests := AddTest(tests, plan, TestCase("Coast Down Test", "seconds"));
      } else if operation == "test" {
        tests := AddTest(tests, plan, TestCase("Efficiency Test", "%"));
        tests := AddTest(tests, plan, TestCase("Power Consumption Test", "kW"));
        tests := AddTest(tests, plan, TestCase("Noise Level Test", "dB"));
      }
      assert plan[..|tests|] == plan;
    }

    /**
     * `GenerateTestsForOperation`: one fresh result per planned test of the
     * lower-cased operation, in plan order, each holding only its name and unit.
     */
    method GenerateTestsForOperation(config: PumpConfiguration) returns (tests: seq<PumpTestResult>)
      ensures Planned(tests, PlanFor(ToLower(config.operation)))
      ensures Distinct(tests)
      ensures forall t :: t in tests ==> fresh(t)
    {
      var baseTests := BaseTestResults();
      var added := OperationTestResults(ToLower(config.operation));
      assert forall t :: t in added ==> t !in baseTests;
      tests := baseTests + added;
      PlannedConcat(baseTests, added, BaseTests, OperationTests(ToLower(config.operation)));
      DistinctConcat(baseTests, added);
    }

    static lemma PlannedConcat(a: seq<PumpTestResult>, b: seq<PumpTestResult>, p: seq<TestCase>, q: seq<TestCase>)
      requires Planned(a, p) && Planned(b, q)
      ensures Planned(a + b, p + q)
    {
    }

    static lemma DistinctConcat(a: seq<PumpTestResult>, b: seq<PumpTestResult>)
      requires Distinct(a) && Distinct(b)
      requires forall t :: t in b ==> t !in a
      ensures Distinct(a + b)
    {
      forall i, j | 0 <= i < j < |a + b|
        ensures (a + b)[i] != (a + b)[j]
      {
        if j >= |a| && i < |a| {
          assert (a + b)[j] in b && (a + b)[i] == a[i];
        }
      }
    }

    /**
     * `ExecuteTest`: overwrites the result it is given and returns that same
     * object. It takes two draws: the generic pass/fail draw and the value draw.
     */
    method ExecuteTest(test: PumpTestResult, config: PumpConfiguration, elapsed: Millis) returns (result: PumpTestResult)
      modifies this, test
      ensures result == test
      ensures cursor == old(cursor) + 2
      ensures test.Snapshot() == Executed(old(test.Snapshot()), config, draws(old(cursor)), draws(old(cursor) + 1), elapsed)
    {
      var passDraw := NextDouble();
      var passed := passDraw > 1.0 - PassRate;

      test.passed := passed;
      test.status := StatusText(passed);

      var m := Classify(test.testName);
      var d := NextDouble();
      Measure(test, m, config, d);

      test.duration := elapsed;
      test.value := Round2(test.value);
      result := test;
    }

    /**
     * The `switch` of `ExecuteTest` on the lower-cased test name: the
     * unrounded value, the Seal Integrity override of the verdict, and the note.
     */
    static method Measure(test: PumpTestResult, m: Measurement, config: PumpConfiguration, d: real)
      requires test.status == StatusText(test.passed)
      modifies test
      ensures test.value == RawValue(m, config, old(test.passed), d)
      ensures test.passed == if m == SealIntegrity then test.value > SealThreshold else old(test.passed)
      ensures test.status == StatusText(test.passed)
      ensures test.notes == if m == Generic && test.passed then old(test.notes) else Some(NoteText(m, config, test.passed))
      ensures test.testName == old(test.testName) && test.unit == old(test.unit) && test.duration == old(test.duration)
    {
      var passed := test.passed;
      match m {
        case Pressure =>
          test.value := d * config.maxPressure * (if passed then 0.8 else 1.1);
          assert test.value == RawValue(Pressure, config, passed, d);
          test.notes := Some(NoteText(Pressure, config, passed));
        case FlowRate =>
          test.value := d * config.maxFlow * (if passed then 0.9 else 0.5);
          assert test.value == RawValue(FlowRate, config, passed, d);
          test.notes := Some(NoteText(FlowRate, config, passed));
        case Temperature =>
          test.value := d * config.maxTemperature * (if passed then 0.7 else 1.2);
          assert test.value == RawValue(Temperature, config, passed, d);
          test.notes := Some(NoteText(Temperature, config, passed));
        case Vibration =>
          test.value := d * 10.0 * (if passed then 0.5 else 2.0);
          assert test.value == RawValue(Vibration, config, passed, d);
          test.notes := Some(NoteText(Vibration, config, passed));
        case SealIntegrity =>
          test.value := d * 100.0;
          assert test.value == RawValue(SealIntegrity, config, passed, d);
          test.passed := test.value > 95.0;
          test.status := StatusText(test.passed);
          test.notes := Some(NoteText(SealIntegrity, config, test.passed));
        case Generic =>
          test.value := d * 100.0;
          assert test.value == RawValue(Generic, config, passed, d);
          if !passed {
            test.notes := Some(NoteText(Generic, config, passed));
          }
      }
    }

    /**
     * What executing planned test j leaves in its result, in a run that
     * started with `start` draws taken: test j is executed with the two draws
     * after the one its settling delay takes, and measures `elapsed(j)`.
     */
    ghost function Outcome(plan: seq<TestCase>, config: PumpConfiguration, start: nat, elapsed: nat -> Millis, j: nat): TestRecord
      requires j < |plan|
    {
      Executed(Blank(plan[j]), config, draws(start + 3 * j + 1), draws(start + 3 * j + 2), elapsed(j))
    }

    /** What a whole run of `plan` leaves in its results, in plan order. */
    ghost function Outcomes(plan: seq<TestCase>, config: PumpConfiguration, start: nat, elapsed: nat -> Millis): (r: seq<TestRecord>)
      ensures |r| == |plan|
      ensures forall j :: 0 <= j < |plan| ==> r[j] == Outcome(plan, config, start, elapsed, j)
    {
      seq(|plan|, j requires 0 <= j < |plan| => Outcome(plan, config, start, elapsed, j))
    }

    /**
     * Test i of a run keeps its planned name and unit; Seal Integrity (the
     * fifth) passes exactly when its value draw exceeds 0.95, every other
     * test exactly when its pass draw exceeds 0.15; the five base tests always
     * carry a note, and a passing operation-specific test none.
     */
    lemma PlannedTestOutcome(operation: string, config: PumpConfiguration, start: nat, elapsed: nat -> Millis, i: nat)
      requires i < |PlanFor(operation)|
      ensures var r := Outcomes(PlanFor(operation), config, start, elapsed)[i];
        && r.testName == PlanFor(operation)[i].name && r.unit == PlanFor(operation)[i].unit
        && (i == 4 ==> (r.passed <==> draws(start + 3 * i + 2) * 100.0 > 95.0))
        && (i != 4 ==> (r.passed <==> draws(start + 3 * i + 1) > 0.15))
        && (i < 5 ==> r.notes.Some?)
        && (i >= 5 && r.passed ==> r.notes == None)
    {
      var plan := PlanFor(operation);
      var passDraw, valueDraw := draws(start + 3 * i + 1), draws(start + 3 * i + 2);
      PlanClassification(operation, i);
      PassFlag(Blank(plan[i]), config, passDraw, valueDraw, elapsed(i));
      NotesRule(Blank(plan[i]), config, passDraw, valueDraw, elapsed(i));
      NameAndUnitKept(Blank(plan[i]), config, passDraw, valueDraw, elapsed(i));
    }

    /**
     * One pass of the `foreach` loop of `RunTests`: the settling delay takes
     * one draw, then planned test i is executed in place. `expected` names
     * the outcome of every test of a run that started with `start` draws taken.
     */
    method RunOne(test: PumpTestResult, i: nat, ghost plan: seq<TestCase>, config: PumpConfiguration,
                  elapsed: nat -> Millis, ghost start: nat, ghost expected: seq<TestRecord>) returns (result: PumpTestResult)
      requires i < |plan| == |expected| && cursor == start + 3 * i
      requires test.Snapshot() == Blank(plan[i])
      requires forall j {:trigger Outcome(plan, config, start, elapsed, j)} :: 0 <= j < |plan| ==>
                 expected[j] == Outcome(plan, config, start, elapsed, j)
      modifies this, test
      ensures result == test
      ensures cursor == old(cursor) + 3
      ensures test.Snapshot() == expected[i]
    {
      var delay := Next(500, 1500);
      result := ExecuteTest(test, config, elapsed(i));
      assert test.Snapshot() == Outcome(plan, config, start, elapsed, i);
    }

    /**
     * The `foreach` loop of `RunTests`: each result of the plan, in order,
     * is run by `RunOne` and collected.
     */
    method ExecutePlan(tests: seq<PumpTestResult>, ghost plan: seq<TestCase>, config: PumpConfiguration,
                       elapsed: nat -> Millis, ghost start: nat, ghost expected: seq<TestRecord>) returns (results: seq<PumpTestResult>)
      requires Planned(tests, plan) && Distinct(tests) && |expected| == |plan| && cursor == start
      requires forall j {:trigger Outcome(plan, config, start, elapsed, j)} :: 0 <= j < |plan| ==>
                 expected[j] == Outcome(plan, config, start, elapsed, j)
      modifies this, tests
      ensures results == tests
      ensures cursor == start + 3 * |tests|
      ensures Snapshots(tests) == expected
    {
      results := [];
      var i := 0;
      while i < |tests|
        invariant 0 <= i <= |tests| == |plan|
        invariant results == tests[..i]
        invariant cursor == start + 3 * i
        invariant forall j :: i <= j < |tests| ==> tests[j].Snapshot() == Blank(plan[j])
        invariant forall j :: 0 <= j < i ==> tests[j].Snapshot() == expected[j]
      {
        assert forall j :: 0 <= j < |tests| && j != i ==> tests[j] != tests[i];
        var result := RunOne(tests[i], i, plan, config, elapsed, start, expected);
        assert tests[..i + 1] == tests[..i] + [tests[i]];
        results := results + [result];
        i := i + 1;
      }
    }

    /**
     * `RunTests`: an unknown pair takes no draw and builds nothing; a known
     * one runs every planned test once, in plan order, and summarizes them.
     * `elapsed(i)` is the time test i measures.
     */
    method RunTests(pumpType: string, operation: string, elapsed: nat -> Millis) returns (run: RunReport)
      modifies this
      ensures GetConfiguration(pumpType, operation).None? ==> run == Unsupported && cursor == old(cursor)
      ensures GetConfiguration(pumpType, operation).Some? ==>
        && run.Completed?
        && run.config == GetConfiguration(pumpType, operation).value
        && |run.results| == |PlanFor(operation)|
        && cursor == old(cursor) + 3 * |PlanFor(operation)|
        && (forall t :: t in run.results ==> fresh(t))
        && Distinct(run.results)
        && Snapshots(run.results) == Outcomes(PlanFor(operation), run.config, old(cursor), elapsed)
        && run.summary == Summarize(Outcomes(PlanFor(operation), run.config, old(cursor), elapsed))
    {
      ghost var start := cursor;
      var found := GetConfiguration(pumpType, operation);
      if found.None? {
        return Unsupported;
      }
      var config := found.value;
      CatalogEntry(pumpType, operation);
      PlanStartsWithBaseTests(operation);
      var tests := GenerateTestsForOperation(config);
      assert forall j :: 0 <= j < |tests| ==> tests[j] in tests;
      var results := ExecutePlan(tests, PlanFor(operation), config, elapsed, start, Outcomes(PlanFor(operation), config, start, elapsed));
      var summary := Summarize(Snapshots(results));
      run := Completed(config, results, summary);
    }
  }
}
