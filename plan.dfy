/**
 * The test plan GenerateTestsForOperation builds: five base tests, then the
 * tests selected by the configuration's operation (lower-cased).
 */
module TestPlanGenerator {

  /** A planned test: the name and unit a fresh result is given. */
  datatype TestCase = TestCase(name: string, unit: string)

  /** The tests every plan starts with, in order. */
  const BaseTests: seq<TestCase> := [
    TestCase("Pressure Test", "PSI"),
    TestCase("Flow Rate Test", "GPM"),
    TestCase("Temperature Test", "°F"),
    TestCase("Vibration Test", "mm/s"),
    TestCase("Seal Integrity Test", "%")
  ]

  /** The tests the `switch` appends for a lower-cased operation name. */
  function OperationTests(operation: string): (r: seq<TestCase>)
    ensures r == [] <==> operation !in {"opened", "close", "start", "stop", "test"}
  {
    if operation == "opened" then
      [TestCase("Opening Time Test", "seconds"), TestCase("Full Open Position Test", "%")]
    else if operation == "close" then
      [TestCase("Closing Time Test", "seconds"), TestCase("Leak Test (Closed)", "ml/min")]
    else if operation == "start" then
      [TestCase("Startup Time Test", "seconds"), TestCase("Motor Current Test", "Amps")]
    else if operation == "stop" then
      [TestCase("Shutdown Time Test", "seconds"), TestCase("Coast Down Test", "seconds")]
    else if operation == "test" then
      [TestCase("Efficiency Test", "%"), TestCase("Power Consumption Test", "kW"), TestCase("Noise Level Test", "dB")]
    else
      []
  }

  /** The whole plan for a lower-cased operation name. */
  function PlanFor(operation: string): (r: seq<TestCase>)
    ensures |r| >= 5 && r[..5] == BaseTests
    ensures forall i, j :: 0 <= i < j < |r| ==> r[i].name != r[j].name
  {
    BaseTests + OperationTests(operation)
  }

  /** Every plan begins with the five base tests, in their fixed order. */
  lemma PlanStartsWithBaseTests(operation: string)
    ensures |PlanFor(operation)| >= 5
    ensures PlanFor(operation)[..5] == BaseTests
    ensures PlanFor(operation)[0] == TestCase("Pressure Test", "PSI")
    ensures PlanFor(operation)[1] == TestCase("Flow Rate Test", "GPM")
    ensures PlanFor(operation)[2] == TestCase("Temperature Test", "°F")
    ensures PlanFor(operation)[3] == TestCase("Vibration Test", "mm/s")
    ensures PlanFor(operation)[4] == TestCase("Seal Integrity Test", "%")
  {
  }

  /** The operation's own tests come after the base tests, in their listed order. */
  lemma PlanEndsWithOperationTests(operation: string)
    ensures PlanFor(operation)[5..] == OperationTests(operation)
  {
  }

  /** Seven tests for opened/close/start/stop, eight for test, five for anything else. */
  lemma PlanLength(operation: string)
    ensures |PlanFor(operation)| ==
      if operation in {"opened", "close", "start", "stop"} then 7
      else if operation == "test" then 8
      else 5
  {
  }
}
