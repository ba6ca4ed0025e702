# Pump test factory, verified model

This project models the pump test factory's engine, which does four things:

- It looks up the operating limits of a piece of equipment: a centrifugal pump, a rotary compressor or a ball valve.
- It builds the ordered list of tests for one of five operations: opened, close, start, stop or test.
- It runs each test with a random pass/fail draw and a measured value scaled to the equipment's limits.
- It summarizes the results: counts, pass rate, verdict and total duration.

The model follows the shape of the C# code:

- `Models` covers the types of `Models/PumpModels.cs`:
  - `PumpTestResult` is a class whose fields the executor overwrites in place. `TestRecord` is a snapshot of its field values.
  - `PumpConfiguration` is a value. It is never written after the catalog builds it.
  - `PumpType` and `Operation` are the two enums.
- `ConfigurationCatalog` covers the fixed table of fifteen configurations and the lookup by the key `"{type}_{operation}"`.
- `TestPlanGenerator` covers the plan: five base tests, then the tests for the lower-cased operation name.
- `TestExecutor` covers what one execution leaves in a result. This is a function of the result before, the configuration, the two random draws the test takes and the time it measures.
- `ReportAggregator` covers the counting in the summary.
- `Services.PumpTestRunner` is the runner object. It owns the random source, which is a fixed stream of draws plus a cursor:
  - every `Next` or `NextDouble` call takes one draw;
  - `GenerateTestsForOperation` allocates fresh result objects in plan order;
  - `ExecuteTest` fills one result in place;
  - `RunTests` loops over the plan. Each pass takes one draw for the settling delay, then executes the test.
- `Runtime` covers the .NET library calls the engine relies on: `ToLower`, number-to-text conversion in interpolated strings, and `Math.Round(x, 2)`.

Three behaviours of the code deserve a note:

- The lookup is case-sensitive. The key is built from the caller's strings unchanged (`Services/PumpTestRunner.cs:79`) and matched exactly; only `Program.cs` lower-cases the command-line arguments. `UnknownPairScenario` shows `"Pump"` resolving to nothing.
- Seal Integrity decides pass/fail on the unrounded value (`Services/PumpTestRunner.cs:158-159`), and the value is rounded only afterwards (line 175). A passing test can therefore report exactly 95.00, as `SealPassedAtReportedThreshold` shows; a reported value above 95 always comes with a pass (`SealReportedAbovePasses`).
- The `PumpType` and `Operation` enums are never used by the engine. Lower-casing their member names gives the catalog's key parts for the three types and for four operations, but `Operation.Open` lower-cases to "open", which is not a key ("opened" is); `OpenResolvesNothing` states the consequence.

The whole project verifies with

    dafny verify --resource-limit 2000000 --verification-time-limit 0 --warn-contradictory-assumptions wrappers.dfy runtime.dfy models.dfy catalog.dfy plan.dfy executor.dfy summary.dfy runner.dfy

and equally with plain `dafny verify` on the same files.

## Model

| member | source | states |
|---|---|---|
| Models.PumpTestResult.constructor | Models/PumpModels.cs:3-12 | a fresh result has empty name, unit and status, no note, and zero flag, value and duration |
| Models.DefaultConfiguration | Models/PumpModels.cs:14-22 | a fresh configuration has empty type and operation strings |
| Models.EnumMembers | Models/PumpModels.cs:24-38 | `PumpType` has exactly Pump, Compressor and Valve; `Operation` has exactly Open, Close, Start, Stop and Test |
| ConfigurationCatalog.TypeNameAsKey | Models/PumpModels.cs:24-29 | each `PumpType` member's name lower-cases to a catalog type key part |
| ConfigurationCatalog.OperationNameAsKey | Models/PumpModels.cs:31-38 | an `Operation` member's name lower-cases to a catalog operation key part exactly when the member is not `Open`, whose name lower-cases to "open" |
| ConfigurationCatalog.EnumNamesAsKeys | Models/PumpModels.cs:24-38 | both of the above, for any pair of members |
| ConfigurationCatalog.KeysAsEnumNames | Models/PumpModels.cs:24-38 | the type key parts are exactly the lower-cased `PumpType` names; the operation key parts other than "opened" are exactly the lower-cased names of the members other than `Open` |
| ConfigurationCatalog.OpenResolvesNothing | Services/PumpTestRunner.cs:77-81 | the lower-cased name of `Operation.Open` finds no configuration for any equipment type |
| ConfigurationCatalog.InitializeConfigurations | Services/PumpTestRunner.cs:53-75 | every entry of the table has positive pressure, flow and temperature limits and a positive test duration |
| ConfigurationCatalog.GetConfiguration | Services/PumpTestRunner.cs:77-81 | a configuration is found exactly when the type is one of pump/compressor/valve and the operation one of opened/close/start/stop/test, in lower case; it is the table entry under the joined key; every other pair, differently cased ones included, gets nothing |
| ConfigurationCatalog.ListedPairBuildsKey | Services/PumpTestRunner.cs:53-81 | every listed pair's joined key is in the table |
| ConfigurationCatalog.KeyBuiltFromListedPair | Services/PumpTestRunner.cs:53-81 | only a listed pair's joined key is in the table, whatever the caller's strings contain |
| ConfigurationCatalog.KeySplit | Services/PumpTestRunner.cs:79 | a key joined with one `_` from parts without `_` determines both parts |
| ConfigurationCatalog.CatalogKeysByType | Services/PumpTestRunner.cs:55-74 | the table has exactly the fifteen keys of the three types times the five operations |
| ConfigurationCatalog.CatalogEntry | Services/PumpTestRunner.cs:57-73 | each found entry carries its type's display name and limits (150/500/180, 300/200/220 or 600/1000/400) and its operation's display name, which lower-cases back to the key part |
| ConfigurationCatalog.PumpEntries | Services/PumpTestRunner.cs:57-61 | the pump entries are "Centrifugal Pump" with limits 150/500/180 |
| ConfigurationCatalog.CompressorEntries | Services/PumpTestRunner.cs:63-67 | the compressor entries are "Rotary Compressor" with limits 300/200/220 |
| ConfigurationCatalog.ValveEntries | Services/PumpTestRunner.cs:69-73 | the valve entries are "Ball Valve" with limits 600/1000/400 |
| ConfigurationCatalog.OperationDisplayNameLowers | Services/PumpTestRunner.cs:95 | "Opened", "Close", "Start", "Stop" and "Test" lower-case to the five operation names the plan switch selects on |
| TestPlanGenerator.OperationTests | Services/PumpTestRunner.cs:95-118 | the switch adds tests exactly for the five operation names opened, close, start, stop and test, and none for any other string |
| TestPlanGenerator.PlanFor | Services/PumpTestRunner.cs:85-120 | every plan has at least five tests, begins with the base tests, and no two of its tests share a name |
| TestPlanGenerator.PlanStartsWithBaseTests | Services/PumpTestRunner.cs:85-92 | every plan has at least five tests and begins with Pressure/PSI, Flow Rate/GPM, Temperature/°F, Vibration/mm/s and Seal Integrity/%, in that order |
| TestPlanGenerator.PlanEndsWithOperationTests | Services/PumpTestRunner.cs:94-118 | after the base tests come exactly the operation's own tests, in their listed order |
| TestPlanGenerator.PlanLength | Services/PumpTestRunner.cs:85-120 | a plan has 7 tests for opened/close/start/stop, 8 for test and 5 for any other operation string |
| TestExecutor.Classify | Services/PumpTestRunner.cs:135-171 | a named branch of the switch is taken exactly when the lower-cased test name is one of the five case labels |
| TestExecutor.ClassifyIgnoresCase | Services/PumpTestRunner.cs:135 | a name and its lower-cased form take the same branch |
| TestExecutor.Executed | Services/PumpTestRunner.cs:123-178 | what execution leaves in a result keeps its name and unit, has the status text of its pass flag, the measured duration, and a value with two decimals; `PassFlag`, `NotesRule` and `ReportedValue` state the rest |
| TestExecutor.PressureNoteShowsLimit | Services/PumpTestRunner.cs:139 | a whole-number pressure limit appears in the passing Pressure note as its decimal digits, which read back to the limit |
| TestExecutor.StatusMatchesPassed | Services/PumpTestRunner.cs:131-160 | after execution the status is "PASSED" exactly when the flag is set, and "FAILED" exactly when it is not, on every branch |
| TestExecutor.NameAndUnitKept | Services/PumpTestRunner.cs:123-178 | execution never changes the test's name or unit |
| TestExecutor.PassFlag | Services/PumpTestRunner.cs:128-159 | Seal Integrity passes exactly when its unrounded value is above 95, whatever the generic draw; every other test passes exactly when the generic draw exceeds 1 - 0.85 |
| TestExecutor.NotesRule | Services/PumpTestRunner.cs:137-171 | the five named tests always get a note; any other test gets the maintenance note when it fails and keeps its note when it passes |
| TestExecutor.RawValueBounds | Services/PumpTestRunner.cs:136-166 | for a draw in [0, 1) and a positive limit, the unrounded value lies in [0, limit × factor) |
| TestExecutor.ValueBounds | Services/PumpTestRunner.cs:136-166 | Pressure, Flow Rate, Temperature and Vibration values lie below the limit scaled by 0.8/1.1, 0.9/0.5, 0.7/1.2 or 0.5/2 (the factor chosen by the generic draw; the Vibration limit is 10); Seal Integrity and the other tests lie in [0, 100) |
| TestExecutor.ReportedValue | Services/PumpTestRunner.cs:175 | the reported value is the unrounded value rounded to two decimals, at most 0.005 away from it; for Seal Integrity and the other tests it lies in [0, 100] |
| TestExecutor.SealReportedAbovePasses | Services/PumpTestRunner.cs:157-175 | a Seal Integrity test whose reported value is above 95 has passed |
| TestExecutor.SealPassedAtReportedThreshold | Services/PumpTestRunner.cs:157-175 | a value draw of 0.95001 passes Seal Integrity and is reported as exactly 95.00 |
| TestExecutor.PlanClassification | Services/PumpTestRunner.cs:135-171 | the five base tests of every plan take the Pressure, Flow Rate, Temperature, Vibration and Seal Integrity branches of the switch, in that order; every operation-specific test takes the default branch |
| ReportAggregator.CountPassed | Services/PumpTestRunner.cs:187 | the pass count is at most the count of results; it equals that count exactly when all passed, and is zero exactly when none did |
| ReportAggregator.CountPassedAppend | Services/PumpTestRunner.cs:187 | the pass count of two lists concatenated is the sum of their counts |
| ReportAggregator.TotalDuration | Services/PumpTestRunner.cs:217 | the total duration is non-negative, and zero when every duration is zero |
| ReportAggregator.TotalDurationAppend | Services/PumpTestRunner.cs:217 | the total duration of two lists concatenated is the sum of their totals |
| ReportAggregator.RateBounds | Services/PumpTestRunner.cs:189 | passed / total × 100 lies in [0, 100] and is 100 exactly when all passed |
| ReportAggregator.Summarize | Services/PumpTestRunner.cs:187-217 | passed plus failed is the total; passed is the count of passing results; the rate is passed / total × 100, absent only for an empty list; the warning verdict is chosen exactly when some test failed, "all passed" exactly when every test passed; the total duration is the sum of the durations |
| Runtime.ToLower | Services/PumpTestRunner.cs:95 | lower-casing keeps the length and every character that is not an upper-case letter |
| Runtime.ToLowerHasNoUpper | Services/PumpTestRunner.cs:135 | a lower-cased string has no upper-case letter |
| Runtime.ToLowerIdempotent | Services/PumpTestRunner.cs:135 | lower-casing twice is lower-casing once |
| Runtime.ToLowerFixesLowerCase | Services/PumpTestRunner.cs:95 | a string without upper-case letters lower-cases to itself |
| Runtime.NatToStringRoundTrip | Services/PumpTestRunner.cs:139 | reading back the digits a whole number is written with gives that number |
| Runtime.FormatNumber | Services/PumpTestRunner.cs:139 | a number's text is non-empty and starts with '-' exactly when the number is negative |
| Runtime.FormatWholeNumber | Services/PumpTestRunner.cs:139 | a whole number is written as its decimal digits alone, as the catalog limits are in the pressure note |
| Runtime.Round2 | Services/PumpTestRunner.cs:175 | the rounded value is a whole number of hundredths, at most 0.005 from the input |
| Runtime.Round2TieToEven | Services/PumpTestRunner.cs:175 | a value halfway between two hundredths rounds to the even one |
| Runtime.Round2Keeps | Services/PumpTestRunner.cs:175 | a value with two decimals is left as it is |
| Runtime.Round2Idempotent | Services/PumpTestRunner.cs:175 | rounding twice is rounding once |
| Runtime.Round2Within | Services/PumpTestRunner.cs:175 | a value in [0, bound) rounds into [0, bound] when the bound has two decimals |
| Services.Blank | Services/PumpTestRunner.cs:85-117 | a result the plan creates holds the planned name and unit, empty status and no note |
| Services.PumpTestRunner.constructor | Services/PumpTestRunner.cs:7-13 | a new runner owns the given stream of draws, none of them taken |
| Services.PumpTestRunner.NextDouble | Services/PumpTestRunner.cs:129 | returns the next draw of the stream and advances it by one |
| Services.PumpTestRunner.Next | Services/PumpTestRunner.cs:36 | returns min plus the floor of the draw times the range, which lies in [min, max) (min when the range is empty), and takes one draw |
| Services.PumpTestRunner.AddTest | Services/PumpTestRunner.cs:98-116 | appends one fresh result holding the next planned name and unit, keeping the earlier results and their distinctness |
| Services.PumpTestRunner.BaseTestResults | Services/PumpTestRunner.cs:85-92 | builds five distinct fresh results holding the base tests' names and units, in order |
| Services.PumpTestRunner.OperationTestResults | Services/PumpTestRunner.cs:94-118 | builds distinct fresh results holding the operation's own tests' names and units, in order, and none for an unknown operation |
| Services.PumpTestRunner.GenerateTestsForOperation | Services/PumpTestRunner.cs:83-121 | builds distinct fresh results holding exactly the plan for the lower-cased configuration operation, in order, each otherwise blank |
| Services.PumpTestRunner.ExecuteTest | Services/PumpTestRunner.cs:123-178 | returns the very object it was given, takes exactly two draws, and leaves in it what `TestExecutor.Executed` computes from its old fields, the two draws and the measured time |
| Services.PumpTestRunner.Measure | Services/PumpTestRunner.cs:134-172 | the switch on the test's branch: sets the unrounded value from the value draw; only Seal Integrity recomputes flag and status; sets the branch's note, except that a passing default-branch test keeps its note; leaves name, unit and duration alone |
| Services.PumpTestRunner.RunOne | Services/PumpTestRunner.cs:31-39 | one pass of the loop takes three draws (the delay, then the execution's two) and leaves the test's planned outcome in it |
| Services.PumpTestRunner.ExecutePlan | Services/PumpTestRunner.cs:28-48 | runs every planned result exactly once, in plan order, taking three draws each; the results list is the plan's result list, and each result holds its planned outcome |
| Services.PumpTestRunner.PlannedTestOutcome | Services/PumpTestRunner.cs:31-39 | test i of a run keeps its planned name and unit; Seal Integrity passes exactly when its value draw exceeds 0.95, and every other test exactly when its pass draw exceeds 0.15; base tests always carry a note, and a passing operation-specific test none |
| Services.PumpTestRunner.RunTests | Services/PumpTestRunner.cs:15-51 | an unknown pair takes no draw and runs nothing; a known pair executes one distinct fresh result per planned test, in plan order, each holding its planned outcome, and summarizes exactly those outcomes |
| Services.PumpStartScenario | Services/PumpTestRunner.cs:59 | "pump"/"start" resolves limits 150/500/180, a passing Pressure note reading "Within normal range (< 150 PSI)", and a seven-test plan ending with Motor Current |
| Services.ValveTestScenario | Services/PumpTestRunner.cs:73 | "valve"/"test" resolves maximum pressure 600 and an eight-test plan ending with Noise Level |
| Services.UnknownPairScenario | Services/PumpTestRunner.cs:77-81 | "drone"/"fly" and "Pump"/"start" resolve nothing |

## Left out

- Console output is not modelled: the header, the per-test lines, the summary text, the result table, emoji and column padding. It is presentation only. The summary's numbers and verdict are modelled as `ReportAggregator.Summary`.
- The `Thread.Sleep` pause is not modelled. The `Next(500, 1500)` call that sizes it is modelled, because it takes a draw, so the later draws line up.
- `DateTime.Now` is not modelled. The duration test i measures is an input, `elapsed(i)`, and is assumed non-negative.
- `System.Random` is replaced by a fixed stream of draws in [0, 1). Its statistics, such as the 85% pass rate over many runs, are not claims a proof can make.
- Services.PumpTestRunner.Next: the draw is a value in [0, 1), not the generator's own integer algorithm for `Next(min, max)`.
- Values are exact reals, not IEEE doubles. `Runtime.Round2` rounds a real exactly, with ties to even, so any double representation error is not modelled.
- Runtime.ToLower: assumes a culture whose lower-casing maps exactly A-Z to a-z, such as the invariant culture. `ToLower()` at `Services/PumpTestRunner.cs:95` and `:135` uses the current culture. Under a Turkic culture (tr-TR, az) 'I' lower-cases to dotless 'ı', so "Seal Integrity Test" becomes "seal ıntegrity test" and takes the default branch: the Seal override never runs, and `TestExecutor.PlanClassification` (the fifth test) and `Services.PumpTestRunner.PlannedTestOutcome` (its clause for the fifth test) do not hold there. Non-ASCII letters are also left unchanged by the model.
- Runtime.FormatNumber: writes a number as plain decimal digits with up to 15 fraction digits. It does not model the exponent notation or the shortest round-trip digits of .NET's default conversion. The only numbers the engine formats are the catalog's whole-number limits.
- The pass rate of an empty list is 0 / 0 in `double`, which is NaN. The model gives it as `None`. Every run has at least five tests, so this case does not arise from `RunTests`.
- The `:F1`/`:F2`/`:F0` display formatting of the summary is not modelled.
- `Program.cs` is not part of this model: the argument-count check, the usage text and the lower-casing of the command-line arguments.
