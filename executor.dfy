/**
 * What ExecuteTest does to one result, as a function of the result before,
 * the configuration, the two draws it takes from the random source and the
 * elapsed time it measures.
 */
module TestExecutor {
  import opened Wrappers
  import opened Runtime
  import opened Models
  import opened TestPlanGenerator

  /** The branch of the `switch` on the lower-cased test name. */
  datatype Measurement = Pressure | FlowRate | Temperature | Vibration | SealIntegrity | Generic

  /** The five lower-cased names the `switch` has a case for. */
  const NamedTests: set<string> := {"pressure test", "flow rate test", "temperature test", "vibration test", "seal integrity test"}

  /** A named branch is taken exactly when the lower-cased name is one of the five case labels. */
  function Classify(testName: string): (m: Measurement)
    ensures m != Generic <==> ToLower(testName) in NamedTests
  {
    var lower := ToLower(testName);
    if lower == "pressure test" then Pressure
    else if lower == "flow rate test" then FlowRate
    else if lower == "temperature test" then Temperature
    else if lower == "vibration test" then Vibration
    else if lower == "seal integrity test" then SealIntegrity
    else Generic
  }

  /** The switch ignores case: a lower-cased name takes the same branch as the name itself. */
  lemma ClassifyIgnoresCase(testName: string)
    ensures Classify(ToLower(testName)) == Classify(testName)
  {
    ToLowerIdempotent(testName);
  }

  /** The target pass rate of the generic draw. */
  const PassRate: real := 0.85

  /** The fixed ceiling of the vibration value, independent of the configuration. */
  const VibrationLimit: real := 10.0

  /** A value above this passes the seal integrity test. */
  const SealThreshold: real := 95.0

  /** The outcome of the generic draw: pass when it exceeds 1 - 0.85. */
  predicate GenericPass(draw: real)
  {
    draw > 1.0 - PassRate
  }

  function StatusText(passed: bool): string
  {
    if passed then "PASSED" else "FAILED"
  }

  /** The factor the limit is scaled by, for a passing and a failing draw. */
  function Factor(m: Measurement, passed: bool): real
  {
    match m
    case Pressure => if passed then 0.8 else 1.1
    case FlowRate => if passed then 0.9 else 0.5
    case Temperature => if passed then 0.7 else 1.2
    case Vibration => if passed then 0.5 else 2.0
    case _ => 1.0
  }

  /** The limit a measurement is scaled against. */
  function Limit(m: Measurement, config: PumpConfiguration): real
  {
    match m
    case Pressure => config.maxPressure
    case FlowRate => config.maxFlow
    case Temperature => config.maxTemperature
    case Vibration => VibrationLimit
    case _ => 100.0
  }

  /** The unrounded value: the value draw times the limit times the factor. */
  function RawValue(m: Measurement, config: PumpConfiguration, passed: bool, draw: real): real
  {
    Scale(draw, Limit(m, config), Factor(m, passed))
  }

  /** A draw times a limit times a factor. */
  function Scale(draw: real, limit: real, factor: real): real
  {
    draw * limit * factor
  }

  /** The note each named test gets, and the one a failing generic test gets. */
  function NoteText(m: Measurement, config: PumpConfiguration, passed: bool): string
  {
    match m
    case Pressure =>
      if passed then "Within normal range (< " + FormatNumber(config.maxPressure) + " PSI)"
      else "Exceeds maximum pressure limit!"
    case FlowRate => if passed then "Flow rate nominal" else "Flow rate below minimum threshold"
    case Temperature => if passed then "Operating temperature normal" else "Temperature exceeds safe limits!"
    case Vibration => if passed then "Vibration within acceptable limits" else "Excessive vibration detected"
    case SealIntegrity => if passed then "Seal integrity excellent" else "Potential seal leakage detected"
    case Generic => "Test failed - requires maintenance attention"
  }

  /**
   * A whole-number pressure limit appears in the passing Pressure note as its
   * decimal digits, and those digits read back to the limit.
   */
  lemma PressureNoteShowsLimit(config: PumpConfiguration, n: nat)
    requires config.maxPressure == n as real
    ensures NoteText(Pressure, config, true) == "Within normal range (< " + NatToString(n) + " PSI)"
    ensures DigitsValue(NatToString(n)) == n
  {
    FormatWholeNumber(n);
    NatToStringRoundTrip(n);
  }

  /**
   * The result ExecuteTest leaves behind. The pass flag and status come from
   * the generic draw, except that Seal Integrity overrides both from its own
   * unrounded value; a passing generic test keeps whatever note it had.
   */
  function Executed(before: TestRecord, config: PumpConfiguration, passDraw: real, valueDraw: real, elapsed: Millis): (r: TestRecord)
    ensures r.testName == before.testName && r.unit == before.unit
    ensures r.status == StatusText(r.passed)
    ensures r.duration == elapsed && TwoDecimals(r.value)
  {
    var generic := GenericPass(passDraw);
    var m := Classify(before.testName);
    var raw := RawValue(m, config, generic, valueDraw);
    var passed := if m == SealIntegrity then raw > SealThreshold else generic;
    var notes := if m == Generic && passed then before.notes else Some(NoteText(m, config, passed));
    before.(passed := passed, status := StatusText(passed), value := Round2(raw), duration := elapsed, notes := notes)
  }

  /** The status text agrees with the pass flag on every branch. */
  lemma StatusMatchesPassed(before: TestRecord, config: PumpConfiguration, passDraw: real, valueDraw: real, elapsed: Millis)
    ensures var r := Executed(before, config, passDraw, valueDraw, elapsed);
      (r.status == "PASSED" <==> r.passed) && (r.status == "FAILED" <==> !r.passed)
  {
  }

  /** Name and unit are never touched. */
  lemma NameAndUnitKept(before: TestRecord, config: PumpConfiguration, passDraw: real, valueDraw: real, elapsed: Millis)
    ensures var r := Executed(before, config, passDraw, valueDraw, elapsed);
      r.testName == before.testName && r.unit == before.unit
  {
  }

  /**
   * Seal Integrity passes exactly when its unrounded value is above 95,
   * whatever the generic draw was; every other test passes exactly when the
   * generic draw is above 1 - 0.85.
   */
  lemma PassFlag(before: TestRecord, config: PumpConfiguration, passDraw: real, valueDraw: real, elapsed: Millis)
    ensures var r := Executed(before, config, passDraw, valueDraw, elapsed);
      if Classify(before.testName) == SealIntegrity then r.passed == (valueDraw * 100.0 > 95.0)
      else r.passed == (passDraw > 0.15)
  {
  }

  /** The five named tests always get a note; the others only when they fail. */
  lemma NotesRule(before: TestRecord, config: PumpConfiguration, passDraw: real, valueDraw: real, elapsed: Millis)
    ensures var r := Executed(before, config, passDraw, valueDraw, elapsed);
      && (Classify(before.testName) != Generic ==> r.notes.Some?)
      && (Classify(before.testName) == Generic && !r.passed ==> r.notes == Some("Test failed - requires maintenance attention"))
      && (Classify(before.testName) == Generic && r.passed ==> r.notes == before.notes)
  {
  }

  /** The unrounded value lies in [0, factor * limit) for a draw in [0, 1). */
  lemma RawValueBounds(m: Measurement, config: PumpConfiguration, passed: bool, draw: real)
    requires 0.0 <= draw < 1.0
    requires Limit(m, config) > 0.0
    ensures 0.0 <= RawValue(m, config, passed, draw) < Limit(m, config) * Factor(m, passed)
  {
    assert Factor(m, passed) > 0.0;
    ScaledBelow(draw, Limit(m, config), Factor(m, passed));
  }

  /** A draw in [0, 1) scales a positive bound and a positive factor to below their product. */
  lemma ScaledBelow(d: real, b: real, f: real)
    requires 0.0 <= d < 1.0 && b > 0.0 && f > 0.0
    ensures 0.0 <= Scale(d, b, f) < b * f
  {
    ScaleBelow(d, b);
    ScaleMonotone(d * b, b, f);
  }

  lemma ScaleBelow(d: real, b: real)
    requires 0.0 <= d < 1.0 && b > 0.0
    ensures 0.0 <= d * b < b
  {
    assert (1.0 - d) * b > 0.0;
  }

  lemma ScaleMonotone(x: real, y: real, f: real)
    requires 0.0 <= x
    requires x < y
    requires f > 0.0
    ensures 0.0 <= x * f < y * f
  {
    assert (y - x) * f > 0.0;
  }

  /**
   * With a value draw in [0, 1) and positive limits, the unrounded value of
   * each test lies in [0, factor * limit), the factor chosen by the generic
   * draw; Seal Integrity and the operation-specific tests lie in [0, 100).
   */
  lemma ValueBounds(testName: string, config: PumpConfiguration, passDraw: real, valueDraw: real)
    requires 0.0 <= valueDraw < 1.0
    requires config.maxPressure > 0.0 && config.maxFlow > 0.0 && config.maxTemperature > 0.0
    ensures var m := Classify(testName);
      var p := GenericPass(passDraw);
      var raw := RawValue(m, config, p, valueDraw);
      && (m == Pressure ==> 0.0 <= raw < config.maxPressure * (if p then 0.8 else 1.1))
      && (m == FlowRate ==> 0.0 <= raw < config.maxFlow * (if p then 0.9 else 0.5))
      && (m == Temperature ==> 0.0 <= raw < config.maxTemperature * (if p then 0.7 else 1.2))
      && (m == Vibration ==> 0.0 <= raw < 10.0 * (if p then 0.5 else 2.0))
      && (m == SealIntegrity || m == Generic ==> 0.0 <= raw < 100.0)
  {
    RawValueBounds(Classify(testName), config, GenericPass(passDraw), valueDraw);
  }

  /**
   * The reported value is the unrounded one rounded to two decimals; for
   * Seal Integrity and the operation-specific tests it lies in [0, 100].
   */
  lemma ReportedValue(before: TestRecord, config: PumpConfiguration, passDraw: real, valueDraw: real, elapsed: Millis)
    requires 0.0 <= valueDraw < 1.0
    ensures var m := Classify(before.testName);
      var raw := RawValue(m, config, GenericPass(passDraw), valueDraw);
      var r := Executed(before, config, passDraw, valueDraw, elapsed);
      && r.value == Round2(raw) && TwoDecimals(r.value) && -0.005 <= r.value - raw <= 0.005
      && (m == SealIntegrity || m == Generic ==> 0.0 <= r.value <= 100.0)
  {
    var m := Classify(before.testName);
    if m == SealIntegrity || m == Generic {
      var raw := RawValue(m, config, GenericPass(passDraw), valueDraw);
      RawValueBounds(m, config, GenericPass(passDraw), valueDraw);
      Round2Within(raw, 100.0);
    }
  }

  /**
   * A reported Seal Integrity value above 95 always comes with a pass, since
   * a rounded value above 95 is at least 95.01.
   */
  lemma SealReportedAbovePasses(before: TestRecord, config: PumpConfiguration, passDraw: real, valueDraw: real, elapsed: Millis)
    requires Classify(before.testName) == SealIntegrity
    ensures var r := Executed(before, config, passDraw, valueDraw, elapsed);
      r.value > 95.0 ==> r.passed
  {
    var r := Executed(before, config, passDraw, valueDraw, elapsed);
    var raw := valueDraw * 100.0;
    if r.value > 95.0 {
      assert (r.value * 100.0).Floor as real == r.value * 100.0;
      assert (r.value * 100.0).Floor > 9500;
      assert r.value >= 95.01;
    }
  }

  /**
   * The converse fails for the reported value: the pass decision is taken on
   * the unrounded value, so a value draw of 0.95001 passes and is reported
   * as 95.00.
   */
  lemma SealPassedAtReportedThreshold(config: PumpConfiguration, passDraw: real, elapsed: Millis)
    ensures var r := Executed(DefaultRecord.(testName := "Seal Integrity Test", unit := "%"), config, passDraw, 0.95001, elapsed);
      r.passed && r.value == 95.0
  {
    SealIntegrityClassified();
    var raw := 0.95001 * 100.0;
    assert raw == 95.001;
    assert (raw * 100.0).Floor == 9500;
  }

  /** How each planned test is classified: the five base tests by name, the rest as generic. */
  lemma PlanClassification(operation: string, i: nat)
    requires i < |PlanFor(operation)|
    ensures i < 5 ==> Classify(PlanFor(operation)[i].name) == [Pressure, FlowRate, Temperature, Vibration, SealIntegrity][i]
    ensures i >= 5 ==> Classify(PlanFor(operation)[i].name) == Generic
  {
    if i < 5 {
      BaseTestClassified(i);
    } else {
      OperationTestGeneric(operation, i - 5);
    }
  }

  lemma BaseTestClassified(i: nat)
    requires i < 5
    ensures Classify(BaseTests[i].name) == [Pressure, FlowRate, Temperature, Vibration, SealIntegrity][i]
  {
    if i == 0 { PressureClassified(); }
    else if i == 1 { FlowRateClassified(); }
    else if i == 2 { TemperatureClassified(); }
    else if i == 3 { VibrationClassified(); }
    else { SealIntegrityClassified(); }
  }

  lemma PressureClassified()
    ensures Classify("Pressure Test") == Pressure
  {
    assert ToLower("Pressure Test") == "pressure test";
  }

  lemma FlowRateClassified()
    ensures Classify("Flow Rate Test") == FlowRate
  {
    assert ToLower("Flow Rate Test") == "flow rate test";
  }

  lemma TemperatureClassified()
    ensures Classify("Temperature Test") == Temperature
  {
    assert ToLower("Temperature Test") == "temperature test";
  }

  lemma VibrationClassified()
    ensures Classify("Vibration Test") == Vibration
  {
    assert ToLower("Vibration Test") == "vibration test";
  }

  lemma SealIntegrityClassified()
    ensures Classify("Seal Integrity Test") == SealIntegrity
  {
    assert ToLower("Seal Integrity Test") == "seal integrity test";
  }

  lemma OperationTestGeneric(operation: string, j: nat)
    requires j < |OperationTests(operation)|
    ensures Classify(OperationTests(operation)[j].name) == Generic
  {
    if operation == "opened" { OpenedTestsGeneric(); }
    else if operation == "close" { CloseTestsGeneric(); }
    else if operation == "start" { StartTestsGeneric(); }
    else if operation == "stop" { StopTestsGeneric(); }
    else if operation == "test" { TestTestsGeneric(); }
  }

  lemma OpenedTestsGeneric()
    ensures Classify("Opening Time Test") == Generic
    ensures Classify("Full Open Position Test") == Generic
  {
  }

  lemma CloseTestsGeneric()
    ensures Classify("Closing Time Test") == Generic
    ensures Classify("Leak Test (Closed)") == Generic
  {
  }

  lemma StartTestsGeneric()
    ensures Classify("Startup Time Test") == Generic
    ensures Classify("Motor Current Test") == Generic
  {
  }

  lemma StopTestsGeneric()
    ensures Classify("Shutdown Time Test") == Generic
    ensures Classify("Coast Down Test") == Generic
  {
  }

  lemma TestTestsGeneric()
    ensures Classify("Efficiency Test") == Generic
    ensures Classify("Power Consumption Test") == Generic
    ensures Classify("Noise Level Test") == Generic
  {
    assert ToLower("Noise Level Test")[0] == 'n';
  }
}
