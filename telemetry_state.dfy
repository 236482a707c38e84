/**
 * The telemetry state and its wiring into a logger: construction through a
 * hook factory, the explicit event and metrics entry points, the mirroring
 * of logger calls, and enabling the mirror on a logger.
 */
module Telemetry {
  import opened Wrappers
  import opened Severities
  import opened Entries
  import opened MockHook
  import opened Dispatch

  /** What the hook factory given to construction does: hand back a hook, or fail with a message. */
  datatype HookFactory = ReturnsHook(hook: MockTelemetryHook) | Fails(message: string)

  class TelemetryState {
    /** The forwarding and history thresholds. */
    const config: Config
    /** The hook that receives forwarded entries. */
    const hook: MockTelemetryHook
    /** The package's message-composition function (buildMessage), left uninterpreted. */
    const buildMessage: (string, string) -> string

    ghost predicate Valid()
      reads this, hook
    {
      hook.Valid()
    }

    constructor (config: Config, hook: MockTelemetryHook, buildMessage: (string, string) -> string)
      ensures this.config == config && this.hook == hook && this.buildMessage == buildMessage
    {
      this.config := config;
      this.hook := hook;
      this.buildMessage := buildMessage;
    }

    /** A logged record reaching telemetry: gated by MinLogLevel, annotated, fired. */
    method ForwardRecord(r: Record)
      requires Valid()
      modifies hook
      ensures Valid() && hook.levels == old(hook.levels)
      ensures hook.fired == old(hook.fired) + Forward(config, [r])
    {
      assert Forward(config, [r][1..]) == [];
      if Allows(config.minLogLevel, r.level) {
        hook.Fire(Annotate(config, r));
        assert Forward(config, [r]) == [Annotate(config, r)];
      } else {
        assert Forward(config, [r]) == [];
      }
    }

    /**
     * One logger call mirrored into telemetry: its stack-trace record (for
     * Error or worse) and then its own record, each through the gate.
     */
    method Mirror(c: Call)
      requires Valid()
      modifies hook
      ensures Valid() && hook.levels == old(hook.levels)
      ensures hook.fired == old(hook.fired) + Forward(config, Expand(c))
    {
      if EmitsStackTrace(c.level) {
        ForwardRecord(StackRecord(c));
        ForwardRecord(PrimaryRecord(c));
        ForwardAppend(config, [StackRecord(c)], [PrimaryRecord(c)]);
        assert Expand(c) == [StackRecord(c)] + [PrimaryRecord(c)];
      } else {
        ForwardRecord(PrimaryRecord(c));
        assert Expand(c) == [PrimaryRecord(c)];
      }
    }

    /** logEvent: one entry, whatever the details. */
    method LogEvent(category: string, event: string, details: Option<Payload>)
      requires Valid()
      modifies hook
      ensures Valid() && hook.levels == old(hook.levels)
      ensures hook.fired == old(hook.fired) + [EventEntry(config, buildMessage, category, event, details)]
    {
      hook.Fire(EventEntry(config, buildMessage, category, event, details));
    }

    /** logMetrics: nothing for nil metrics, one entry otherwise. */
    method LogMetrics(category: string, metrics: Option<Metrics>, details: Option<Payload>)
      requires Valid()
      modifies hook
      ensures Valid() && hook.levels == old(hook.levels)
      ensures hook.fired == old(hook.fired) + MetricsEntries(config, buildMessage, category, metrics, details)
    {
      if metrics.Some? {
        var es := MetricsEntries(config, buildMessage, category, metrics, details);
        hook.Fire(es[0]);
        assert es == [es[0]];
      }
    }
  }

  /**
   * makeTelemetryStateContext: the factory is consulted once; its error, if
   * any, is returned unchanged with no state, otherwise the state owns the
   * factory's hook.
   */
  method CreateTelemetryState(cfg: Config, factory: HookFactory, buildMessage: (string, string) -> string)
    returns (telem: TelemetryState?, err: Option<string>)
    ensures factory.Fails? ==> telem == null && err == Some(factory.message)
    ensures factory.ReturnsHook? ==>
      && err == None && telem != null
      && telem.hook == factory.hook && telem.config == cfg && telem.buildMessage == buildMessage
  {
    match factory
    case Fails(message) =>
      telem := null;
      err := Some(message);
    case ReturnsHook(hook) =>
      telem := new TelemetryState(cfg, hook, buildMessage);
      err := None;
  }

  /** The part of the base logger the telemetry pipeline touches. */
  class Logger {
    /** loggerState.telemetry: the telemetry state the logger may mirror into. */
    var telemetry: TelemetryState?
    /** Whether the telemetry hook is wired into the logger's call path. */
    var telemetryEnabled: bool

    ghost predicate Valid()
      reads this, telemetry, if telemetry != null then {telemetry.hook} else {}
    {
      telemetryEnabled ==> telemetry != null && telemetry.Valid()
    }

    /** A logger with no telemetry attached. */
    constructor ()
      ensures telemetry == null && !telemetryEnabled
    {
      telemetry := null;
      telemetryEnabled := false;
    }

    /** Sets loggerState.telemetry without wiring the hook in. */
    method SetTelemetry(t: TelemetryState)
      modifies this
      ensures telemetry == t && telemetryEnabled == old(telemetryEnabled)
    {
      telemetry := t;
    }

    method GetTelemetryEnabled() returns (enabled: bool)
      ensures enabled == telemetryEnabled
    {
      enabled := telemetryEnabled;
    }

    /**
     * A call at any severity: mirrored into telemetry when the hook is wired
     * in, with no effect on telemetry otherwise.
     */
    method Log(c: Call)
      requires Valid()
      modifies if telemetryEnabled then {telemetry.hook} else {}
      ensures Valid()
      ensures telemetryEnabled ==>
        && telemetry.hook.fired == old(telemetry.hook.fired) + Forward(telemetry.config, Expand(c))
        && telemetry.hook.levels == old(telemetry.hook.levels)
    {
      if telemetryEnabled {
        telemetry.Mirror(c);
      }
    }
  }

  /**
   * enableTelemetryState: wires the state into the logger.  It fires no
   * entry: the hook is outside what it may change.
   */
  method EnableTelemetryState(telem: TelemetryState, l: Logger)
    requires telem.Valid()
    modifies l
    ensures l.telemetry == telem && l.telemetryEnabled && l.Valid()
  {
    l.telemetry := telem;
    l.telemetryEnabled := true;
  }
}
