/**
 * The data types of Models/PumpModels.cs: the mutable test result that the
 * executor fills in place, the equipment configuration, and the two enums.
 */
module Models {
  import opened Wrappers

  /** A `TimeSpan` measured in milliseconds; elapsed times are never negative. */
  type Millis = r: real | 0.0 <= r witness 0.0

  /** The value of every field of a `PumpTestResult` at one moment. */
  datatype TestRecord = TestRecord(
    testName: string,
    passed: bool,
    value: real,
    unit: string,
    status: string,
    duration: Millis,
    notes: Option<string>)

  /** What `new PumpTestResult()` holds: empty strings, zeros, no note. */
  const DefaultRecord: TestRecord := TestRecord("", false, 0.0, "", "", 0.0, None)

  /** `PumpTestResult`: a bag of settable properties. */
  class PumpTestResult {
    var testName: string
    var passed: bool
    var value: real
    var unit: string
    var status: string
    var duration: Millis
    var notes: Option<string>

    constructor ()
      ensures testName == "" && unit == "" && status == ""
      ensures notes == None
      ensures !passed && value == 0.0 && duration == 0.0
    {
      testName, passed, value, unit, status, duration, notes := "", false, 0.0, "", "", 0.0, None;
    }

    /** The current value of all fields. */
    function Snapshot(): (r: TestRecord)
      reads this
    {
      TestRecord(testName, passed, value, unit, status, duration, notes)
    }
  }

  /**
   * `PumpConfiguration`. The C# class has setters, but nothing writes to a
   * configuration after the catalog builds it, so it is a value here.
   */
  datatype PumpConfiguration = PumpConfiguration(
    typeName: string,
    operation: string,
    maxPressure: real,
    maxFlow: real,
    maxTemperature: real,
    testDurationSeconds: int)

  /** What `new PumpConfiguration()` holds before its initializer runs. */
  function DefaultConfiguration(): (c: PumpConfiguration)
    ensures c.typeName == "" && c.operation == ""
  {
    PumpConfiguration("", "", 0.0, 0.0, 0.0, 0)
  }

  datatype PumpType = Pump | Compressor | Valve

  datatype Operation = Open | Close | Start | Stop | Test

  /** The enums have exactly the members listed in the source. */
  lemma EnumMembers(t: PumpType, o: Operation)
    ensures t == Pump || t == Compressor || t == Valve
    ensures o == Open || o == Close || o == Start || o == Stop || o == Test
  {
  }
}
