/**
 * The equipment catalog of PumpTestRunner: fifteen configurations keyed by
 * the string "{type}_{operation}", looked up exactly (case-sensitively).
 */
module ConfigurationCatalog {
  import opened Wrappers
  import opened Runtime
  import opened Models

  /** The equipment types and operations the catalog knows, as key parts. */
  const PumpTypeKeys: set<string> := {"pump", "compressor", "valve"}
  const OperationKeys: set<string> := {"opened", "close", "start", "stop", "test"}

  function Key(pumpType: string, operation: string): string
  {
    pumpType + "_" + operation
  }

  /** The fixed table the runner builds once, in its constructor. */
  function InitializeConfigurations(): (table: map<string, PumpConfiguration>)
    ensures forall k :: k in table ==>
      table[k].maxPressure > 0.0 && table[k].maxFlow > 0.0 && table[k].maxTemperature > 0.0
      && table[k].testDurationSeconds > 0
  {
    map[
      "pump_opened" := PumpConfiguration("Centrifugal Pump", "Opened", 150.0, 500.0, 180.0, 30),
      "pump_close" := PumpConfiguration("Centrifugal Pump", "Close", 150.0, 500.0, 180.0, 15),
      "pump_start" := PumpConfiguration("Centrifugal Pump", "Start", 150.0, 500.0, 180.0, 45),
      "pump_stop" := PumpConfiguration("Centrifugal Pump", "Stop", 150.0, 500.0, 180.0, 20),
      "pump_test" := PumpConfiguration("Centrifugal Pump", "Test", 150.0, 500.0, 180.0, 60),

      "compressor_opened" := PumpConfiguration("Rotary Compressor", "Opened", 300.0, 200.0, 220.0, 25),
      "compressor_close" := PumpConfiguration("Rotary Compressor", "Close", 300.0, 200.0, 220.0, 20),
      "compressor_start" := PumpConfiguration("Rotary Compressor", "Start", 300.0, 200.0, 220.0, 50),
      "compressor_stop" := PumpConfiguration("Rotary Compressor", "Stop", 300.0, 200.0, 220.0, 25),
      "compressor_test" := PumpConfiguration("Rotary Compressor", "Test", 300.0, 200.0, 220.0, 90),

      "valve_opened" := PumpConfiguration("Ball Valve", "Opened", 600.0, 1000.0, 400.0, 10),
      "valve_close" := PumpConfiguration("Ball Valve", "Close", 600.0, 1000.0, 400.0, 10),
      "valve_start" := PumpConfiguration("Ball Valve", "Start", 600.0, 1000.0, 400.0, 15),
      "valve_stop" := PumpConfiguration("Ball Valve", "Stop", 600.0, 1000.0, 400.0, 15),
      "valve_test" := PumpConfiguration("Ball Valve", "Test", 600.0, 1000.0, 400.0, 30)
    ]
  }

  /** Every listed pair builds a key of the table. */
  lemma ListedPairBuildsKey(pumpType: string, operation: string)
    requires pumpType in PumpTypeKeys && operation in OperationKeys
    ensures Key(pumpType, operation) in InitializeConfigurations()
  {
    CatalogKeysByType();
    assert Key(pumpType, operation) in TypeKeys(pumpType);
  }

  /** Only a listed pair builds a key of the table. */
  lemma KeyBuiltFromListedPair(pumpType: string, operation: string)
    requires Key(pumpType, operation) in InitializeConfigurations()
    ensures pumpType in PumpTypeKeys && operation in OperationKeys
  {
    var k := Key(pumpType, operation);
    CatalogKeysByType();
    if k in TypeKeys("pump") { KeyOfType(pumpType, operation, "pump"); }
    else if k in TypeKeys("compressor") { KeyOfType(pumpType, operation, "compressor"); }
    else { KeyOfType(pumpType, operation, "valve"); }
  }

  /** The five keys of one equipment type. */
  function TypeKeys(t: string): set<string>
  {
    {Key(t, "opened"), Key(t, "close"), Key(t, "start"), Key(t, "stop"), Key(t, "test")}
  }

  /** The table's keys are the five keys of each of the three types. */
  lemma CatalogKeysByType()
    ensures InitializeConfigurations().Keys == TypeKeys("pump") + TypeKeys("compressor") + TypeKeys("valve")
  {
    PumpKeySpelling();
    CompressorKeySpelling();
    ValveKeySpelling();
  }

  /** The literal keys of the table are the keys `Key` builds, type by type. */
  lemma PumpKeySpelling()
    ensures Key("pump", "opened") == "pump_opened"
    ensures Key("pump", "close") == "pump_close"
    ensures Key("pump", "start") == "pump_start"
    ensures Key("pump", "stop") == "pump_stop"
    ensures Key("pump", "test") == "pump_test"
  {
  }

  lemma CompressorKeySpelling()
    ensures Key("compressor", "opened") == "compressor_opened"
    ensures Key("compressor", "close") == "compressor_close"
    ensures Key("compressor", "start") == "compressor_start"
    ensures Key("compressor", "stop") == "compressor_stop"
    ensures Key("compressor", "test") == "compressor_test"
  {
  }

  lemma ValveKeySpelling()
    ensures Key("valve", "opened") == "valve_opened"
    ensures Key("valve", "close") == "valve_close"
    ensures Key("valve", "start") == "valve_start"
    ensures Key("valve", "stop") == "valve_stop"
    ensures Key("valve", "test") == "valve_test"
  {
  }

  /** A key among one equipment type's five splits into that type and a listed operation. */
  lemma KeyOfType(pumpType: string, operation: string, t: string)
    requires t in PumpTypeKeys
    requires Key(pumpType, operation) in TypeKeys(t)
    ensures pumpType == t && operation in OperationKeys
  {
    assert '_' !in t;
    var k := Key(pumpType, operation);
    if k == Key(t, "opened") { KeySplit(pumpType, operation, t, "opened"); }
    else if k == Key(t, "close") { KeySplit(pumpType, operation, t, "close"); }
    else if k == Key(t, "start") { KeySplit(pumpType, operation, t, "start"); }
    else if k == Key(t, "stop") { KeySplit(pumpType, operation, t, "stop"); }
    else { KeySplit(pumpType, operation, t, "test"); }
  }

  /**
   * A key with a single '_' determines the pair it was built from, whatever
   * the caller's strings contain.
   */
  lemma {:induction false} KeySplit(pumpType: string, operation: string, t: string, o: string)
    requires '_' !in t && '_' !in o
    requires Key(pumpType, operation) == Key(t, o)
    ensures pumpType == t && operation == o
  {
    var k := Key(t, o);
    assert k[|pumpType|] == '_';
    assert pumpType == k[..|t|] == t;
    assert operation == k[|t| + 1..] == o;
  }

  /**
   * `GetConfiguration`: a configuration exactly for the lower-case type and
   * operation the catalog lists; every other pair, including one spelled
   * with different case, gets `None`.
   */
  function GetConfiguration(pumpType: string, operation: string): (r: Option<PumpConfiguration>)
    ensures r.Some? <==> pumpType in PumpTypeKeys && operation in OperationKeys
    ensures r.Some? <==> Key(pumpType, operation) in InitializeConfigurations()
    ensures r.Some? ==> r.value == InitializeConfigurations()[Key(pumpType, operation)]
  {
    var key := Key(pumpType, operation);
    if key in InitializeConfigurations() then
      KeyBuiltFromListedPair(pumpType, operation);
      Some(InitializeConfigurations()[key])
    else
      if pumpType in PumpTypeKeys && operation in OperationKeys then
        ListedPairBuildsKey(pumpType, operation);
        None
      else
        None
  }

  /** The display name of each equipment type. */
  function TypeDisplayName(pumpType: string): string
  {
    if pumpType == "pump" then "Centrifugal Pump"
    else if pumpType == "compressor" then "Rotary Compressor"
    else "Ball Valve"
  }

  /** The display name of each operation. */
  function OperationDisplayName(operation: string): string
  {
    if operation == "opened" then "Opened"
    else if operation == "close" then "Close"
    else if operation == "start" then "Start"
    else if operation == "stop" then "Stop"
    else "Test"
  }

  /**
   * What every entry holds: the type's display name and limits, and the
   * operation's display name, which lower-cases back to the key part.
   */
  lemma CatalogEntry(pumpType: string, operation: string)
    requires GetConfiguration(pumpType, operation).Some?
    ensures var c := GetConfiguration(pumpType, operation).value;
      && c.typeName == TypeDisplayName(pumpType)
      && (pumpType == "pump" ==> c.maxPressure == 150.0 && c.maxFlow == 500.0 && c.maxTemperature == 180.0)
      && (pumpType == "compressor" ==> c.maxPressure == 300.0 && c.maxFlow == 200.0 && c.maxTemperature == 220.0)
      && (pumpType == "valve" ==> c.maxPressure == 600.0 && c.maxFlow == 1000.0 && c.maxTemperature == 400.0)
      && c.operation == OperationDisplayName(operation)
      && ToLower(c.operation) == operation
  {
    if pumpType == "pump" { PumpEntries(operation); }
    else if pumpType == "compressor" { CompressorEntries(operation); }
    else { ValveEntries(operation); }
    OperationDisplayNameLowers(operation);
  }

  /** Each operation display name lower-cases to its key part. */
  lemma OperationDisplayNameLowers(operation: string)
    requires operation in OperationKeys
    ensures ToLower(OperationDisplayName(operation)) == operation
  {
  }

  lemma PumpEntries(operation: string)
    requires operation in OperationKeys
    ensures var c := GetConfiguration("pump", operation).value;
      c.typeName == "Centrifugal Pump" && c.operation == OperationDisplayName(operation)
      && c.maxPressure == 150.0 && c.maxFlow == 500.0 && c.maxTemperature == 180.0
  {
    PumpKeySpelling();
  }

  lemma CompressorEntries(operation: string)
    requires operation in OperationKeys
    ensures var c := GetConfiguration("compressor", operation).value;
      c.typeName == "Rotary Compressor" && c.operation == OperationDisplayName(operation)
      && c.maxPressure == 300.0 && c.maxFlow == 200.0 && c.maxTemperature == 220.0
  {
    CompressorKeySpelling();
  }

  lemma ValveEntries(operation: string)
    requires operation in OperationKeys
    ensures var c := GetConfiguration("valve", operation).value;
      c.typeName == "Ball Valve" && c.operation == OperationDisplayName(operation)
      && c.maxPressure == 600.0 && c.maxFlow == 1000.0 && c.maxTemperature == 400.0
  {
    ValveKeySpelling();
  }

  /**
   * The name of each enum member, as `ToString()` gives it. Nothing in the
   * engine uses the enums; these relate their names to the catalog's keys.
   */
  function TypeName(t: PumpType): string
  {
    match t
    case Pump => "Pump"
    case Compressor => "Compressor"
    case Valve => "Valve"
  }

  function OperationName(o: Operation): string
  {
    match o
    case Open => "Open"
    case Close => "Close"
    case Start => "Start"
    case Stop => "Stop"
    case Test => "Test"
  }

  /**
   * Lower-casing an equipment type's name gives a catalog key part, one per
   * member, but does so for only four of the five operations: `Open` becomes
   * "open", while the catalog's key part is "opened".
   */
  lemma EnumNamesAsKeys(t: PumpType, o: Operation)
    ensures ToLower(TypeName(t)) in PumpTypeKeys
    ensures o != Open <==> ToLower(OperationName(o)) in OperationKeys
    ensures ToLower(OperationName(Open)) == "open"
  {
    TypeNameAsKey(t);
    OperationNameAsKey(o);
    OperationNameAsKey(Open);
  }

  lemma TypeNameAsKey(t: PumpType)
    ensures ToLower(TypeName(t)) in PumpTypeKeys
  {
    match t
    case Pump => assert ToLower("Pump") == "pump";
    case Compressor => assert ToLower("Compressor") == "compressor";
    case Valve => assert ToLower("Valve") == "valve";
  }

  lemma OperationNameAsKey(o: Operation)
    ensures o != Open <==> ToLower(OperationName(o)) in OperationKeys
    ensures o == Open ==> ToLower(OperationName(o)) == "open"
  {
    match o
    case Open =>
      assert ToLower("Open") == "open";
      assert |"open"| < |"opened"|;
    case Close => assert ToLower("Close") == "close";
    case Start => assert ToLower("Start") == "start";
    case Stop => assert ToLower("Stop") == "stop";
    case Test => assert ToLower("Test") == "test";
  }

  /** Every equipment type and operation key part is some member's lower-cased name, except "opened". */
  lemma KeysAsEnumNames(s: string)
    ensures s in PumpTypeKeys <==> exists t :: ToLower(TypeName(t)) == s
    ensures s in OperationKeys && s != "opened" <==> exists o :: ToLower(OperationName(o)) == s && o != Open
  {
    if s in PumpTypeKeys {
      if s == "pump" { assert ToLower(TypeName(Pump)) == s; }
      else if s == "compressor" { assert ToLower(TypeName(Compressor)) == s; }
      else { assert ToLower(TypeName(Valve)) == s; }
    }
    if s in OperationKeys && s != "opened" {
      if s == "close" { assert ToLower(OperationName(Close)) == s; }
      else if s == "start" { assert ToLower(OperationName(Start)) == s; }
      else if s == "stop" { assert ToLower(OperationName(Stop)) == s; }
      else { assert ToLower(OperationName(Test)) == s; }
    }
    forall t | ToLower(TypeName(t)) == s ensures s in PumpTypeKeys { EnumNamesAsKeys(t, Open); }
    forall o | ToLower(OperationName(o)) == s && o != Open ensures s in OperationKeys && s != "opened" {
      EnumNamesAsKeys(Pump, o);
      assert |s| < |"opened"|;
    }
  }

  /** So the lower-cased name of `Operation.Open` finds no configuration, for any equipment type. */
  lemma OpenResolvesNothing(t: PumpType)
    ensures GetConfiguration(ToLower(TypeName(t)), ToLower(OperationName(Open))).None?
  {
    EnumNamesAsKeys(t, Open);
  }
}
