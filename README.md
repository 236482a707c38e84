# Telemetry hook and dispatch rule of the go-algorand logger

This project models the level-gated telemetry path of the go-algorand
logging package as its tests pin it down. It has two parts:

- the recording hook the tests use (`mockTelemetryHook`), in imperative form.
  `MakeLevels` keeps, from the fixed most-severe-first list of logrus
  levels, those at or above a threshold. `Fire` appends the entry's message
  and its field map to two parallel buffers. `Entries` and `Data` return
  the buffers.
- the dispatch rule that decides what reaches the hook, as pure functions
  over the configuration and the calls made:
  - a logger call of severity Error or worse logs a synthetic Error-severity
    stack-trace record first, then its own record, which carries the
    logger's field map;
  - a record is forwarded iff it is at least as severe as `MinLogLevel`;
  - a forwarded record gets the log history (field `"log"`) iff it is the
    caller's own record and at least as severe as `ReportHistoryLevel`;
  - `logEvent` always fires one Info-severity entry;
  - `logMetrics` fires nothing for nil metrics and one entry otherwise;
  - messages are composed by the uninterpreted `buildMessage(category, name)`;
  - a hook-factory error at construction is returned unchanged, with no state.

The classes `TelemetryState` and `Logger` connect the rule to the hook. The
`Scenarios` module restates the core tests (`TestCreateHookError`,
`TestTelemetryHook`, `TestNilMetrics`, `TestDetails`, `TestMetrics`,
`TestLogHook`, `TestLogLevels` and `TestLogHistoryLevels`) as methods whose
postconditions are the tests' assertions, and proves them from the contracts
above.

Modules: `Severities` (severity.dfy), `Entries` (entry.dfy), `MockHook`
(mock_hook.dfy), `Dispatch` (dispatch.dfy), `Telemetry`
(telemetry_state.dfy), `Scenarios` (scenarios.dfy), `Wrappers`
(wrappers.dfy).

Inputs supplied by the environment:
- `buildMessage` is a function-valued parameter of construction.
- The message of each call's stack-trace record is a field of `Call` (`stack`), supplied by the environment.
- The test strings `testString1` and `testString2` are method parameters.
- The default `ReportHistoryLevel` of `createTelemetryConfig` is a parameter
  of the fixture.

## Model

| member | source | states |
|---|---|---|
| Severities.Ordinal | logging/telemetry_test.go:45-52 | a severity's level number is its position in the most-severe-first list Panic, Fatal, Error, Warn, Info, Debug |
| Severities.Allows | logging/telemetry_test.go:53 | the threshold admits a severity iff its level number is not above the threshold's: every threshold admits Panic and a Debug threshold admits everything |
| Severities.AllowsByList | logging/telemetry_test.go:45-56 | a threshold admits exactly the severities that come no later than it in the most-severe-first list |
| Severities.AllSeveritiesByOrdinal | logging/telemetry_test.go:45-52 | the list holds six severities; each sits at the index equal to its level number, and every severity is in it |
| Severities.AllowsExtremes | logging/telemetry_test.go:53 | only a Debug threshold admits Debug; a Panic threshold admits only Panic |
| Severities.AllowsTotalOrder | logging/telemetry_test.go:53 | "at least as severe as" is reflexive, total, antisymmetric and transitive |
| MockHook.MakeLevels | logging/telemetry_test.go:43-56 | the kept levels are the list's prefix that ends at the threshold; a level is kept iff it is at least as severe as the threshold; the levels are in strictly increasing order; Panic is always kept |
| MockHook.MockTelemetryHook.constructor | logging/telemetry_test.go:43-62 | a new hook advertises exactly that prefix and has empty buffers |
| MockHook.MockTelemetryHook.Levels | logging/telemetry_test.go:109-111 | returns the advertised levels |
| MockHook.MockTelemetryHook.Fire | logging/telemetry_test.go:113-122 | appends exactly the entry's message to one buffer and its field map to the other; earlier elements and the levels are unchanged; both buffers keep equal length |
| MockHook.MockTelemetryHook.Data | logging/telemetry_test.go:124-128 | returns the field-map buffer |
| MockHook.MockTelemetryHook.Entries | logging/telemetry_test.go:130-134 | returns the message buffer |
| Dispatch.Expand | logging/telemetry_test.go:329-336 | an Error-or-worse call yields two records, the Error stack trace first and the caller's record, with the call's fields, last; any other call yields only its own record |
| Dispatch.CarriesHistory | logging/telemetry_test.go:331-336 | a stack-trace record never carries the history; a caller's own record carries it iff it is at or above ReportHistoryLevel |
| Dispatch.Annotate | logging/telemetry_test.go:328-336 | the hook keeps level, message and all other fields; "log" is present iff the record is a caller's own record at or above ReportHistoryLevel, or was already there |
| Dispatch.Forward | logging/telemetry_test.go:283-301 | never forwards more entries than records; every forwarded entry is at least as severe as MinLogLevel |
| Dispatch.Mirror | logging/telemetry_test.go:283-301 | the entries of a call sequence number at most two per call, and each is at least as severe as MinLogLevel |
| Dispatch.ExpandAllLength | logging/telemetry_test.go:329-336 | every call expands to at most two records |
| Dispatch.ForwardAppend | logging/telemetry_test.go:313-336 | forwarding two record sequences one after the other gives the concatenation of their entries, so order is preserved |
| Dispatch.ForwardMembers | logging/telemetry_test.go:283-301 | an entry is forwarded iff it is the annotation of some record that passes MinLogLevel |
| Dispatch.ForwardMonotone | logging/telemetry_test.go:273-281 | a less strict MinLogLevel never forwards fewer entries |
| Dispatch.ForwardDebugKeepsAll | logging/telemetry_test.go:275 | at MinLogLevel Debug every record is forwarded |
| Dispatch.CallShape | logging/telemetry_test.go:329-336 | one call forwards its stack trace (only for Error or worse with Error admitted) before its own record (only if admitted); the stack trace is the bare Error entry of the stack text; the own record keeps the call's level, message and other fields, and carries "log" iff it is at or above ReportHistoryLevel or the call brought one |
| Dispatch.MirrorAppend | logging/telemetry_test.go:313-336 | one more logger call appends exactly that call's entries after all earlier ones |
| Dispatch.ExpandAllSource | logging/telemetry_test.go:329-336 | every record of a call sequence is some call's own record or, for an Error-or-worse call, its stack trace |
| Dispatch.MirrorHistorySound | logging/telemetry_test.go:323-336 | every mirrored entry passes MinLogLevel and is either some call's own record (its level, message and fields, with "log" added exactly under the history rule) or an Error-or-worse call's bare stack trace; when no call brings a "log" field, "log" appears only at or above ReportHistoryLevel |
| Dispatch.EventEntry | logging/telemetry_test.go:159-191 | logEvent's entry has message buildMessage(category, event); "details" holds the details unchanged and is absent iff they are nil; there is no "metrics" field |
| Dispatch.MetricsEntries | logging/telemetry_test.go:159-176 | nil metrics give no entry; otherwise exactly one, with message buildMessage(category, identifier), the metrics unchanged under "metrics", and the details under "details" iff they are non-nil |
| Telemetry.TelemetryState.constructor | logging/telemetry_test.go:88-90 | a state holds exactly the configuration, the hook and the message builder it is built with |
| Telemetry.TelemetryState.ForwardRecord | logging/telemetry_test.go:283-301 | the hook receives exactly the gated, annotated entries of one record |
| Telemetry.TelemetryState.Mirror | logging/telemetry_test.go:329-336 | the hook receives exactly the entries the dispatch rule gives for one call, stack trace first |
| Telemetry.TelemetryState.LogEvent | logging/telemetry_test.go:160-165 | the hook receives exactly the one event entry |
| Telemetry.TelemetryState.LogMetrics | logging/telemetry_test.go:159 | the hook receives exactly the metrics entries: none for nil metrics |
| Telemetry.CreateTelemetryState | logging/telemetry_test.go:136-149 | a failing factory gives no state and its own error message unchanged; a succeeding one gives no error and a state owning the factory's hook with the given configuration |
| Telemetry.Logger.constructor | logging/telemetry_test.go:85 | a new logger holds no telemetry state and has the hook not wired in |
| Telemetry.Logger.SetTelemetry | logging/telemetry_test.go:91 | sets the logger's telemetry state without wiring the hook in |
| Telemetry.Logger.GetTelemetryEnabled | logging/telemetry_test.go:262 | reports whether the hook is wired in |
| Telemetry.Logger.Log | logging/telemetry_test.go:267-270 | once wired in, a call sends the hook exactly its dispatch entries; otherwise the hook is untouched |
| Telemetry.EnableTelemetryState | logging/telemetry_test.go:255-271 | wires the state into the logger; cannot change the hook, so it fires nothing |
| Scenarios.MirrorCount | logging/telemetry_test.go:273-301 | the number of mirrored entries is the sum over calls of (stack trace admitted) + (own record admitted) |
| Scenarios.ExpectedLogLevelsCount | logging/telemetry_test.go:275-280 | the expected count at each MinLogLevel lies between 1 and 7 and is the sum of the per-call counts of the five level calls |
| Scenarios.LevelsCalls | logging/telemetry_test.go:288-297 | five calls, each more severe than the one before, none at Fatal, none with fields, with a stack message only where a stack trace is logged |
| Scenarios.LevelsCallsCount | logging/telemetry_test.go:288-297 | the level calls' count is the per-call counts of Debug, Info, Warn, Error and Panic, summed |
| Scenarios.LogLevelsCounts | logging/telemetry_test.go:273-281 | Debug, Info, Warn, Error, Panic calls forward 7, 6, 5, 4, 1, 1 entries at MinLogLevel Debug, Info, Warn, Error, Fatal, Panic |
| Scenarios.HistoryLevelsPattern | logging/telemetry_test.go:303-337 | at MinLogLevel Debug and ReportHistoryLevel Error the entries are debug, info, warn, error-stack, error, panic-stack, panic; only error and panic carry "log" |
| Scenarios.PlainCallEntries | logging/telemetry_test.go:313-315 | at MinLogLevel Debug, a call below Error and below ReportHistoryLevel forwards only its own record, with the call's fields and no added "log" |
| Scenarios.TracedCallEntries | logging/telemetry_test.go:316-336 | at MinLogLevel Debug, a call at Error or worse and at or above ReportHistoryLevel forwards its bare stack trace and then its own record, with the call's fields plus "log" |
| Scenarios.MirrorOfFive | logging/telemetry_test.go:313-320 | five calls are mirrored as the entries of each call in turn |
| Scenarios.HistoryLevelsData | logging/telemetry_test.go:323-336 | in that run the seven field maps have "log" exactly at positions 4 and 6 |
| Scenarios.FixtureLevelsAgree | logging/telemetry_test.go:84 | for a fixture, every entry the gate forwards under the fixture's configuration has a level in the fixture hook's advertised levels |
| Scenarios.Fixture.constructor | logging/telemetry_test.go:74-93 | hook and MinLogLevel use the same level, and the hook advertises exactly the most-severe-first prefix ending at it; the hook is empty and owned by the state; the logger holds the state with the hook not wired in |
| Scenarios.Fixture.HookData | logging/telemetry_test.go:99-102 | returns the hook's field maps |
| Scenarios.Fixture.HookEntries | logging/telemetry_test.go:104-107 | returns the hook's messages |
| Scenarios.RunCreateHookError | logging/telemetry_test.go:136-149 | construction with a factory failing "failed" gives no state and error "failed" |
| Scenarios.TestMetrics | logging/telemetry_test.go:231-237 | the test metrics are identified by the second test string, whatever their value, and carry the value unchanged |
| Scenarios.RunTelemetryHook | logging/telemetry_test.go:151-166 | the logger holds a telemetry state; zero entries at first; then empty metrics and a nil-details event give exactly two entries, both buildMessage(testString1, testString2) |
| Scenarios.RunNilMetrics | logging/telemetry_test.go:168-176 | nil metrics give zero entries |
| Scenarios.RunDetails | logging/telemetry_test.go:178-191 | the one entry's "details" is the details value unchanged |
| Scenarios.RunMetrics | logging/telemetry_test.go:239-253 | the one entry's "metrics" is the metrics value unchanged |
| Scenarios.RunLogHook | logging/telemetry_test.go:255-271 | after enabling, telemetry reports enabled with zero entries; one Warn call then gives exactly one entry |
| Scenarios.LogTracked | logging/telemetry_test.go:288-297 | one more logger call leaves in the hook exactly the dispatch entries of all calls so far |
| Scenarios.LogFive | logging/telemetry_test.go:288-297 | the five calls leave in the hook exactly the dispatch entries of those calls |
| Scenarios.RunLogLevels | logging/telemetry_test.go:283-301 | the hook ends with 7, 6, 5, 4, 1 or 1 entries for MinLogLevel Debug, Info, Warn, Error, Fatal or Panic |
| Scenarios.RunLogHistoryLevels | logging/telemetry_test.go:303-337 | seven field maps; "log" is absent on 0-3 and 5 and present on 4 and 6 |

## Left out

- The mutex of the mock hook (`deadlock.Mutex`) and all locking: the model is single-threaded.
- The optional callback `cb` in `Fire`: it is arbitrary foreign code.
- `TestHeartbeatDetails` has no method of its own. Its event and its assertions at lines 196-212 (one entry, whose "details" is the heartbeat value unchanged) are the `RunDetails` case with a different payload, and `EventEntry` states them for every payload. A heartbeat payload is a `Payload` like any other.
- The JSON backward-compatibility check of `TestHeartbeatDetails` (lines 214-228): it depends on `encoding/json`, on struct tags of types that are not part of this model, and on a float comparison.
- `ReadTelemetryConfigOrDefault` (lines 339-353): file-system access and GUID generation.
- `Flush`: asynchronous draining of the production hook. Here it is the identity, and `HookEntries`/`HookData` read the buffers directly.
- The abort of a Panic call and the `os.Exit` of Fatal: only the records logged before the abort are modelled.
- The history buffer: its contents and capacity are not modelled. An attached history is the opaque value `HistoryValue`.
- The implementations of `telemetryState`, `logEvent`, `logMetrics`, `buildMessage`, `makeTelemetryStateContext` and `enableTelemetryState` are not part of this model. The dispatch rule is modelled as the behaviour the tests assert, with these choices where the tests are silent:
  - Fatal, like Error and Panic, logs a stack trace (Fatal cannot be called in a test).
  - `logEvent` and `logMetrics` fire at Info severity straight into the hook, without the MinLogLevel gate (the tests only use MinLogLevel Info for them). The history rule is still applied to that entry.
  - Nil details give no "details" field.
  - "Enabled" means the hook is wired into the logger's call path. A new fixture's logger holds a state but reports not enabled until `enableTelemetryState` runs; the tests only read the flag afterwards (line 262).
  - Each call's stack-trace record has the call's `stack` text as its message, word for word. How the production code builds that message from `debug.Stack()` is not shown.
- logrus's Trace level, below Debug: `Severity` has only the six levels the mock hook lists at lines 45-52. A hook made at Trace would keep all six, as one made at Debug does here. No test uses Trace.
- Whether the synthetic stack-trace record also carries the logger's fields is not fixed by the tests. The model gives it none, while the caller's own record keeps the call's fields (`Call.data`). The tests' logger carries no fields, so every call in `Scenarios` has an empty field map.
- The fields `session`, `hostname`, `instanceName` and `v` that the production path adds to entries: no test inspects them.
- The `Enable` flag of the configuration: every test sets it, so the disabled path is not modelled. The production wrapping of the factory's hook (asynchronous queue, level filter, history annotation) is modelled by `ForwardRecord` and `Annotate` instead.
- `Logger.Log` mirrors into whatever state the logger holds at the time of the call, not into the hook wired in by `enableTelemetryState`. A `SetTelemetry` after enabling would redirect later calls. No test does this.
- The logger argument of `logEvent` and `logMetrics` (lines 159, 160, 173, 186, 248): `TelemetryState.LogEvent` and `LogMetrics` take none, so any fields that logger carries do not reach the entry. The tests' logger carries none.
- The shared base logger: the fixture takes `Base()` (line 85), the package's one base logger, so a hook wired in by one run may stay attached in the next. The model gives each fixture a fresh `Logger`.
- The base logger's own level and output (the fixture sets it to Debug, so it filters nothing), logrus internals, and `partitiontest`.
