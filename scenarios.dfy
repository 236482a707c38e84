/**
 * The logging tests' scenarios: a fixture that builds a mock hook, a
 * telemetry state around it and a logger, the call sequences the tests
 * issue, and the outcomes they assert, proved of the model.
 */
module Scenarios {
  import opened Wrappers
  import opened Severities
  import opened Entries
  import opened MockHook
  import opened Dispatch
  import opened Telemetry

  /**
   * The number of hook entries the six log-level runs expect: the per-call
   * counts of the five level calls, summed.
   */
  function ExpectedLogLevelsCount(minLevel: Severity): (n: nat)
    ensures 1 <= n <= 7
    ensures n == TotalCount(minLevel, LevelsCalls("", ""))
  {
    LevelsCallsCount(minLevel, "", "");
    match minLevel
    case Debug => 7
    case Info => 6
    case Warn => 5
    case Error => 4
    case Fatal => 1
    case Panic => 1
  }

  /**
   * Debug, Info, Warn, Error and Panic calls, as both level tests issue them:
   * each more severe than the one before, none at Fatal, none with fields,
   * and a stack text only on the calls that log a stack trace.
   */
  function LevelsCalls(errorStack: string, panicStack: string): (cs: seq<Call>)
    ensures |cs| == 5
    ensures forall i :: 0 <= i < |cs| ==>
      && cs[i].level != Fatal && cs[i].data == map[]
      && (EmitsStackTrace(cs[i].level) || cs[i].stack == "")
    ensures forall i, j :: 0 <= i < j < |cs| ==> Ordinal(cs[j].level) < Ordinal(cs[i].level)
  {
    [Call(Debug, "debug", map[], ""), Call(Info, "info", map[], ""), Call(Warn, "warn", map[], ""),
     Call(Error, "error", map[], errorStack), Call(Panic, "panic", map[], panicStack)]
  }

  /** The number of entries one call forwards: its stack trace and its own record, each if gated in. */
  function CallCount(minLevel: Severity, level: Severity): nat {
    (if EmitsStackTrace(level) && Allows(minLevel, Error) then 1 else 0)
    + (if Allows(minLevel, level) then 1 else 0)
  }

  /** The per-call counts summed over a call sequence. */
  function TotalCount(minLevel: Severity, calls: seq<Call>): nat {
    if calls == [] then 0 else CallCount(minLevel, calls[0].level) + TotalCount(minLevel, calls[1..])
  }

  /** The number of entries mirrored for any call sequence is the sum of the per-call counts. */
  lemma {:induction false} MirrorCount(cfg: Config, calls: seq<Call>)
    ensures |Mirror(cfg, calls)| == TotalCount(cfg.minLogLevel, calls)
  {
    if calls != [] {
      ForwardAppend(cfg, Expand(calls[0]), ExpandAll(calls[1..]));
      CallShape(cfg, calls[0]);
      MirrorCount(cfg, calls[1..]);
    }
  }

  /** The level calls' count is the sum of the per-call counts of Debug, Info, Warn, Error and Panic. */
  lemma LevelsCallsCount(m: Severity, errorStack: string, panicStack: string)
    ensures TotalCount(m, LevelsCalls(errorStack, panicStack)) ==
      CallCount(m, Debug) + CallCount(m, Info) + CallCount(m, Warn) + CallCount(m, Error) + CallCount(m, Panic)
  {
    var calls := LevelsCalls(errorStack, panicStack);
    assert TotalCount(m, calls[4..]) == CallCount(m, Panic) by {
      assert calls[4..][1..] == [];
    }
    assert TotalCount(m, calls[3..]) == CallCount(m, Error) + TotalCount(m, calls[4..]) by {
      assert calls[3..][1..] == calls[4..];
    }
    assert TotalCount(m, calls[2..]) == CallCount(m, Warn) + TotalCount(m, calls[3..]) by {
      assert calls[2..][1..] == calls[3..];
    }
    assert TotalCount(m, calls[1..]) == CallCount(m, Info) + TotalCount(m, calls[2..]) by {
      assert calls[1..][1..] == calls[2..];
    }
  }

  /** The log-level runs: 7, 6, 5, 4, 1 and 1 entries for Debug down to Panic. */
  lemma LogLevelsCounts(cfg: Config, errorStack: string, panicStack: string)
    ensures |Mirror(cfg, LevelsCalls(errorStack, panicStack))| == ExpectedLogLevelsCount(cfg.minLogLevel)
  {
    MirrorCount(cfg, LevelsCalls(errorStack, panicStack));
    LevelsCallsCount(cfg.minLogLevel, errorStack, panicStack);
    LevelsCallsCount(cfg.minLogLevel, "", "");
  }

  /**
   * The log-history run (MinLogLevel Debug, ReportHistoryLevel Error): the
   * exact entries, in order, with history only on the Error and Panic
   * records themselves and never on their stack traces.
   */
  lemma HistoryLevelsPattern(errorStack: string, panicStack: string)
    ensures Mirror(Config(Debug, Error), LevelsCalls(errorStack, panicStack)) ==
      [Entry(Debug, "debug", map[]), Entry(Info, "info", map[]), Entry(Warn, "warn", map[]),
       Entry(Error, errorStack, map[]), Entry(Error, "error", map[LogKey := HistoryValue]),
       Entry(Error, panicStack, map[]), Entry(Panic, "panic", map[LogKey := HistoryValue])]
  {
    var cfg := Config(Debug, Error);
    var calls := LevelsCalls(errorStack, panicStack);
    MirrorOfFive(cfg, calls);
    PlainCallEntries(cfg, calls[0]);
    PlainCallEntries(cfg, calls[1]);
    PlainCallEntries(cfg, calls[2]);
    TracedCallEntries(cfg, calls[3]);
    TracedCallEntries(cfg, calls[4]);
  }

  /** Below Error and ReportHistoryLevel, with every record gated in: only the call's own record, with its fields. */
  lemma PlainCallEntries(cfg: Config, c: Call)
    requires cfg.minLogLevel == Debug
    requires !EmitsStackTrace(c.level) && !Allows(cfg.reportHistoryLevel, c.level)
    ensures Forward(cfg, Expand(c)) == [Entry(c.level, c.message, c.data)]
  {
  }

  /**
   * At Error or above and at ReportHistoryLevel or above, with every record
   * gated in: the bare stack trace, then the call's record carrying history.
   */
  lemma TracedCallEntries(cfg: Config, c: Call)
    requires cfg.minLogLevel == Debug
    requires EmitsStackTrace(c.level) && Allows(cfg.reportHistoryLevel, c.level)
    ensures Forward(cfg, Expand(c)) ==
      [Entry(Error, c.stack, map[]), Entry(c.level, c.message, c.data[LogKey := HistoryValue])]
  {
    assert Expand(c)[1..][1..] == [];
  }

  /** Five calls are mirrored as their five entry groups, one after the other. */
  lemma MirrorOfFive(cfg: Config, calls: seq<Call>)
    requires |calls| == 5
    ensures Mirror(cfg, calls) ==
      Forward(cfg, Expand(calls[0])) + (Forward(cfg, Expand(calls[1])) + (Forward(cfg, Expand(calls[2]))
      + (Forward(cfg, Expand(calls[3])) + Forward(cfg, Expand(calls[4])))))
  {
    ExpandAllOfFive(calls);
    ForwardOfFive(cfg, Expand(calls[0]), Expand(calls[1]), Expand(calls[2]), Expand(calls[3]), Expand(calls[4]));
  }

  /** Forwarding five record groups in a row forwards each group in turn. */
  lemma ForwardOfFive(cfg: Config, r0: seq<Record>, r1: seq<Record>, r2: seq<Record>, r3: seq<Record>, r4: seq<Record>)
    ensures Forward(cfg, r0 + (r1 + (r2 + (r3 + r4)))) ==
      Forward(cfg, r0) + (Forward(cfg, r1) + (Forward(cfg, r2) + (Forward(cfg, r3) + Forward(cfg, r4))))
  {
    ForwardAppend(cfg, r3, r4);
    ForwardAppend(cfg, r2, r3 + r4);
    ForwardAppend(cfg, r1, r2 + (r3 + r4));
    ForwardAppend(cfg, r0, r1 + (r2 + (r3 + r4)));
  }

  /** The records of five calls are the five calls' records in turn. */
  lemma ExpandAllOfFive(calls: seq<Call>)
    requires |calls| == 5
    ensures ExpandAll(calls) ==
      Expand(calls[0]) + (Expand(calls[1]) + (Expand(calls[2]) + (Expand(calls[3]) + Expand(calls[4]))))
  {
    assert ExpandAll(calls[4..]) == Expand(calls[4]) by {
      assert calls[4..][1..] == [];
    }
    assert ExpandAll(calls[3..]) == Expand(calls[3]) + Expand(calls[4]) by {
      assert calls[3..][1..] == calls[4..];
    }
    assert ExpandAll(calls[2..]) == Expand(calls[2]) + (Expand(calls[3]) + Expand(calls[4])) by {
      assert calls[2..][1..] == calls[3..];
    }
    assert calls[1..][1..] == calls[2..];
  }

  /** The field maps of the log-history run: "log" only at positions 4 and 6. */
  lemma HistoryLevelsData(errorStack: string, panicStack: string)
    ensures
      var ds := DataOf(Mirror(Config(Debug, Error), LevelsCalls(errorStack, panicStack)));
      && |ds| == 7
      && LogKey !in ds[0] && LogKey !in ds[1] && LogKey !in ds[2]
      && LogKey !in ds[3] && LogKey in ds[4]
      && LogKey !in ds[5] && LogKey in ds[6]
  {
    HistoryLevelsPattern(errorStack, panicStack);
  }

  /** The test fixture: a mock hook at the minimum level, a telemetry state owning it, a logger. */
  class Fixture {
    const hook: MockTelemetryHook
    const telem: TelemetryState
    const l: Logger

    ghost predicate Valid()
      reads this, hook, telem, l, l.telemetry
    {
      && telem.hook == hook && l.telemetry == telem
      && hook.Valid() && l.Valid()
      && hook.levels == AllSeverities[..Ordinal(telem.config.minLogLevel) + 1]
    }

    /**
     * makeTelemetryTestFixtureWithConfig: the hook and MinLogLevel both use
     * `minLevel`; the logger holds the state but the hook is not wired in.
     */
    constructor (minLevel: Severity, reportHistoryLevel: Severity, buildMessage: (string, string) -> string)
      ensures Valid() && fresh(hook) && fresh(l)
      ensures hook.fired == [] && !l.telemetryEnabled
      ensures hook.levels == AllSeverities[..Ordinal(minLevel) + 1]
      ensures telem.config == Config(minLevel, reportHistoryLevel) && telem.buildMessage == buildMessage
    {
      var h := new MockTelemetryHook(minLevel);
      var t, _ := CreateTelemetryState(Config(minLevel, reportHistoryLevel), ReturnsHook(h), buildMessage);
      var lg := new Logger();
      lg.SetTelemetry(t);
      hook := h;
      telem := t;
      l := lg;
    }

    /** hookEntries: the messages the hook has received (Flush is the identity here). */
    method HookEntries() returns (r: seq<string>)
      ensures r == hook.entryLog
    {
      r := hook.Entries();
    }

    /** hookData: the field maps the hook has received. */
    method HookData() returns (r: seq<Fields>)
      ensures r == hook.dataLog
    {
      r := hook.Data();
    }
  }

  /**
   * The fixture's hook advertises exactly the levels the gate lets through:
   * every entry mirrored into it is one of the hook's own advertised levels.
   */
  lemma FixtureLevelsAgree(f: Fixture, calls: seq<Call>, e: Entry)
    requires f.Valid()
    requires e in Mirror(f.telem.config, calls)
    ensures e.level in f.hook.levels
  {
    ForwardMembers(f.telem.config, ExpandAll(calls), e);
    AllSeveritiesByOrdinal();
    assert f.hook.levels[Ordinal(e.level)] == e.level;
  }

  /** The metrics type of the tests: any value, identified by the second test string. */
  function TestMetrics(val: string, testString2: string): (m: Metrics)
    ensures m.identifier == testString2 && m.payload.fields == map["val" := val]
  {
    Metrics(testString2, Payload("testMetrics", map["val" := val]))
  }

  /** A failing factory: no state, and the factory's error message unchanged. */
  method RunCreateHookError(cfg: Config, buildMessage: (string, string) -> string)
    returns (telem: TelemetryState?, err: Option<string>)
    ensures telem == null && err == Some("failed")
  {
    telem, err := CreateTelemetryState(cfg, Fails("failed"), buildMessage);
  }

  /** Empty metrics and a nil-details event each forward one entry, both composed the same way. */
  method RunTelemetryHook(reportHistoryLevel: Severity, buildMessage: (string, string) -> string,
                          testString1: string, testString2: string)
    returns (attached: bool, before: nat, entries: seq<string>)
    ensures attached && before == 0
    ensures entries == [buildMessage(testString1, testString2), buildMessage(testString1, testString2)]
  {
    var f := new Fixture(Info, reportHistoryLevel, buildMessage);
    attached := f.l.telemetry != null;
    var e0 := f.HookEntries();
    before := |e0|;
    f.telem.LogMetrics(testString1, Some(TestMetrics("", testString2)), None);
    f.telem.LogEvent(testString1, testString2, None);
    entries := f.HookEntries();
  }

  /** Nil metrics forward nothing. */
  method RunNilMetrics(reportHistoryLevel: Severity, buildMessage: (string, string) -> string, testString1: string)
    returns (count: nat)
    ensures count == 0
  {
    var f := new Fixture(Info, reportHistoryLevel, buildMessage);
    f.telem.LogMetrics(testString1, None, None);
    var entries := f.HookEntries();
    count := |entries|;
  }

  /** An event's details arrive under "details" unchanged. */
  method RunDetails(reportHistoryLevel: Severity, buildMessage: (string, string) -> string,
                    testString1: string, testString2: string)
    returns (data: seq<Fields>)
    ensures |data| == 1 && DetailsKey in data[0]
    ensures data[0][DetailsKey] == DetailsValue(TestMetrics("value", testString2).payload)
  {
    var f := new Fixture(Info, reportHistoryLevel, buildMessage);
    var details := TestMetrics("value", testString2).payload;
    f.telem.LogEvent(testString1, testString2, Some(details));
    data := f.HookData();
  }

  /** A metrics value arrives under "metrics" unchanged. */
  method RunMetrics(reportHistoryLevel: Severity, buildMessage: (string, string) -> string,
                    testString1: string, testString2: string)
    returns (data: seq<Fields>)
    ensures |data| == 1 && MetricsKey in data[0]
    ensures data[0][MetricsKey] == MetricsValue(TestMetrics("value", testString2))
  {
    var f := new Fixture(Info, reportHistoryLevel, buildMessage);
    var metrics := TestMetrics("value", testString2);
    f.telem.LogMetrics(testString1, Some(metrics), None);
    data := f.HookData();
  }

  /** Enabling fires nothing; a Warn call afterwards forwards exactly one entry. */
  method RunLogHook(reportHistoryLevel: Severity, buildMessage: (string, string) -> string)
    returns (enabled: bool, before: nat, after: nat)
    ensures enabled && before == 0 && after == 1
  {
    var f := new Fixture(Info, reportHistoryLevel, buildMessage);
    EnableTelemetryState(f.telem, f.l);
    enabled := f.l.GetTelemetryEnabled();
    var e0 := f.HookEntries();
    before := |e0|;
    f.l.Log(Call(Warn, "some error", map[], ""));
    CallShape(f.telem.config, Call(Warn, "some error", map[], ""));
    var e1 := f.HookEntries();
    after := |e1|;
  }

  /** One logger call of a test, with the calls issued before it. */
  method LogTracked(f: Fixture, c: Call, ghost done: seq<Call>)
    requires f.Valid() && f.l.telemetryEnabled
    requires f.hook.fired == Mirror(f.telem.config, done)
    modifies f.hook
    ensures f.Valid() && f.l.telemetryEnabled
    ensures f.hook.fired == Mirror(f.telem.config, done + [c])
  {
    f.l.Log(c);
    MirrorAppend(f.telem.config, done, c);
  }

  /** Five logger calls in a row, after the hook is wired in, as the log-level tests issue them. */
  method LogFive(f: Fixture, calls: seq<Call>)
    requires |calls| == 5
    requires f.Valid() && f.l.telemetryEnabled && f.hook.fired == []
    modifies f.hook
    ensures f.Valid()
    ensures f.hook.fired == Mirror(f.telem.config, calls)
  {
    assert Mirror(f.telem.config, []) == [];
    ghost var done: seq<Call> := [];
    LogTracked(f, calls[0], done);
    done := done + [calls[0]];
    LogTracked(f, calls[1], done);
    done := done + [calls[1]];
    LogTracked(f, calls[2], done);
    done := done + [calls[2]];
    LogTracked(f, calls[3], done);
    done := done + [calls[3]];
    LogTracked(f, calls[4], done);
    done := done + [calls[4]];
    assert done == calls;
  }

  /** runLogLevelsTest: the number of entries the hook receives at each minimum level. */
  method RunLogLevels(minLevel: Severity, reportHistoryLevel: Severity, buildMessage: (string, string) -> string,
                      errorStack: string, panicStack: string)
    returns (count: nat)
    ensures count == ExpectedLogLevelsCount(minLevel)
  {
    var f := new Fixture(minLevel, reportHistoryLevel, buildMessage);
    EnableTelemetryState(f.telem, f.l);
    LogFive(f, LevelsCalls(errorStack, panicStack));
    var entries := f.HookEntries();
    count := |entries|;
    LogLevelsCounts(f.telem.config, errorStack, panicStack);
  }

  /** TestLogHistoryLevels: "log" is present on entries 4 and 6 (the Error and Panic records) only. */
  method RunLogHistoryLevels(buildMessage: (string, string) -> string, errorStack: string, panicStack: string)
    returns (data: seq<Fields>)
    ensures |data| == 7
    ensures LogKey !in data[0] && LogKey !in data[1] && LogKey !in data[2]
    ensures LogKey !in data[3] && LogKey in data[4]
    ensures LogKey !in data[5] && LogKey in data[6]
  {
    var f := new Fixture(Debug, Error, buildMessage);
    EnableTelemetryState(f.telem, f.l);
    LogFive(f, LevelsCalls(errorStack, panicStack));
    data := f.HookData();
    HistoryLevelsData(errorStack, panicStack);
  }
}
