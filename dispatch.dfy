/**
 * The telemetry dispatch rule, as a function of the configuration and of
 * the calls made: which records a logger call produces, which of them pass
 * the severity gate, which carry the log history, and what the explicit
 * event and metrics entry points hand to the hook.
 */
module Dispatch {
  import opened Wrappers
  import opened Severities
  import opened Entries

  /** The two independent thresholds of a telemetry configuration. */
  datatype Config = Config(minLogLevel: Severity, reportHistoryLevel: Severity)

  /** Whether a record is the caller's own or the synthesized stack trace of an Error-or-worse call. */
  datatype Origin = Primary | StackTrace

  /** A record produced by the base logger, before the telemetry hook sees it. */
  datatype Record = Record(level: Severity, origin: Origin, message: string, data: Fields)

  /**
   * A call on the base logger: its severity, its message, the field map the
   * logger carries, and the message of the stack-trace record the call logs
   * when it is Error or worse (supplied by the environment).
   */
  datatype Call = Call(level: Severity, message: string, data: Fields, stack: string)

  /** Error, Fatal and Panic calls also log a stack trace. */
  predicate EmitsStackTrace(level: Severity) {
    Allows(Error, level)
  }

  /** The synthesized stack-trace record: always at Error severity, with the call's stack message and no fields. */
  function StackRecord(c: Call): Record {
    Record(Error, StackTrace, c.stack, map[])
  }

  /** The caller's own record, with the logger's fields. */
  function PrimaryRecord(c: Call): Record {
    Record(c.level, Primary, c.message, c.data)
  }

  /** The records a logger call produces, in the order they are logged. */
  function Expand(c: Call): (rs: seq<Record>)
    ensures |rs| == if EmitsStackTrace(c.level) then 2 else 1
    ensures rs[|rs| - 1] == PrimaryRecord(c)
    ensures |rs| == 2 ==> rs[0] == StackRecord(c)
  {
    (if EmitsStackTrace(c.level) then [StackRecord(c)] else []) + [PrimaryRecord(c)]
  }

  /** The records of a sequence of calls, call by call. */
  function ExpandAll(calls: seq<Call>): seq<Record> {
    if calls == [] then [] else Expand(calls[0]) + ExpandAll(calls[1..])
  }

  /** The history rule: only primary records at or above ReportHistoryLevel get the log history. */
  predicate CarriesHistory(cfg: Config, r: Record)
    ensures r.origin == StackTrace ==> !CarriesHistory(cfg, r)
    ensures r.origin == Primary ==> (CarriesHistory(cfg, r) <==> Allows(cfg.reportHistoryLevel, r.level))
  {
    r.origin == Primary && Allows(cfg.reportHistoryLevel, r.level)
  }

  /**
   * What the telemetry hook makes of a record it receives: the same entry,
   * with the history snapshot under "log" when the history rule says so.
   */
  function Annotate(cfg: Config, r: Record): (e: Entry)
    ensures e.level == r.level && e.message == r.message
    ensures LogKey in e.data <==> CarriesHistory(cfg, r) || LogKey in r.data
    ensures e.data - {LogKey} == r.data - {LogKey}
  {
    Entry(r.level, r.message, if CarriesHistory(cfg, r) then r.data[LogKey := HistoryValue] else r.data)
  }

  /**
   * The logger-mirroring path: records below MinLogLevel are dropped, the
   * others are annotated and handed on in order.
   */
  function Forward(cfg: Config, rs: seq<Record>): (es: seq<Entry>)
    ensures |es| <= |rs|
    ensures forall e :: e in es ==> Allows(cfg.minLogLevel, e.level)
  {
    if rs == [] then []
    else
      (if Allows(cfg.minLogLevel, rs[0].level) then [Annotate(cfg, rs[0])] else [])
      + Forward(cfg, rs[1..])
  }

  /** What the hook receives for a sequence of logger calls. */
  function Mirror(cfg: Config, calls: seq<Call>): (es: seq<Entry>)
    ensures |es| <= 2 * |calls|
    ensures forall e :: e in es ==> Allows(cfg.minLogLevel, e.level)
  {
    ExpandAllLength(calls);
    Forward(cfg, ExpandAll(calls))
  }

  /** Each call logs at most two records. */
  lemma {:induction false} ExpandAllLength(calls: seq<Call>)
    ensures |ExpandAll(calls)| <= 2 * |calls|
  {
    if calls != [] {
      ExpandAllLength(calls[1..]);
    }
  }

  /** Forwarding distributes over concatenation: order is kept and records are independent. */
  lemma {:induction false} ForwardAppend(cfg: Config, a: seq<Record>, b: seq<Record>)
    ensures Forward(cfg, a + b) == Forward(cfg, a) + Forward(cfg, b)
  {
    if a != [] {
      assert (a + b)[0] == a[0];
      assert (a + b)[1..] == a[1..] + b;
      ForwardAppend(cfg, a[1..], b);
    } else {
      assert a + b == b;
    }
  }

  /**
   * An entry is forwarded iff it is the annotation of some record that
   * passes the gate.
   */
  lemma {:induction false} ForwardMembers(cfg: Config, rs: seq<Record>, e: Entry)
    ensures e in Forward(cfg, rs) <==>
      exists i :: 0 <= i < |rs| && Allows(cfg.minLogLevel, rs[i].level) && e == Annotate(cfg, rs[i])
  {
    if rs != [] {
      ForwardMembers(cfg, rs[1..], e);
      if e in Forward(cfg, rs[1..]) {
        var i :| 0 <= i < |rs[1..]| && Allows(cfg.minLogLevel, rs[1..][i].level) && e == Annotate(cfg, rs[1..][i]);
        assert rs[i + 1] == rs[1..][i];
      }
      if exists i :: 0 <= i < |rs| && Allows(cfg.minLogLevel, rs[i].level) && e == Annotate(cfg, rs[i]) {
        var i :| 0 <= i < |rs| && Allows(cfg.minLogLevel, rs[i].level) && e == Annotate(cfg, rs[i]);
        if i > 0 {
          assert rs[1..][i - 1] == rs[i];
        }
      }
    }
  }

  /** Raising MinLogLevel (admitting less severe records) never forwards fewer entries. */
  lemma {:induction false} ForwardMonotone(h: Severity, strict: Severity, loose: Severity, rs: seq<Record>)
    requires Allows(loose, strict)
    ensures |Forward(Config(strict, h), rs)| <= |Forward(Config(loose, h), rs)|
  {
    if rs != [] {
      ForwardMonotone(h, strict, loose, rs[1..]);
    }
  }

  /** At MinLogLevel = Debug every record is forwarded. */
  lemma {:induction false} ForwardDebugKeepsAll(h: Severity, rs: seq<Record>)
    ensures |Forward(Config(Debug, h), rs)| == |rs|
  {
    if rs != [] {
      ForwardDebugKeepsAll(h, rs[1..]);
    }
  }

  /**
   * The entries of one logger call: the stack trace (if the call is Error or
   * worse and Error passes the gate) comes first and never has history; the
   * primary record (if its own severity passes the gate) comes last and has
   * history iff its severity is at or above ReportHistoryLevel.
   */
  lemma CallShape(cfg: Config, c: Call)
    ensures
      var es := Forward(cfg, Expand(c));
      var stack := EmitsStackTrace(c.level) && Allows(cfg.minLogLevel, Error);
      var primary := Allows(cfg.minLogLevel, c.level);
      && (stack ==> primary)
      && |es| == (if stack then 1 else 0) + (if primary then 1 else 0)
      && (stack ==> es[0] == Entry(Error, c.stack, map[]))
      && (primary ==>
            && es[|es| - 1].level == c.level
            && es[|es| - 1].message == c.message
            && (LogKey in es[|es| - 1].data <==> Allows(cfg.reportHistoryLevel, c.level) || LogKey in c.data)
            && es[|es| - 1].data - {LogKey} == c.data - {LogKey})
  {
  }

  /** Expanding one more call appends exactly that call's records. */
  lemma {:induction false} ExpandAllAppend(calls: seq<Call>, c: Call)
    ensures ExpandAll(calls + [c]) == ExpandAll(calls) + Expand(c)
  {
    if calls == [] {
      assert ExpandAll([c]) == Expand(c) + ExpandAll([]);
    } else {
      assert (calls + [c])[0] == calls[0];
      assert (calls + [c])[1..] == calls[1..] + [c];
      ExpandAllAppend(calls[1..], c);
    }
  }

  /** Calls are mirrored in order: one more call appends exactly its own entries. */
  lemma MirrorAppend(cfg: Config, calls: seq<Call>, c: Call)
    ensures Mirror(cfg, calls + [c]) == Mirror(cfg, calls) + Forward(cfg, Expand(c))
  {
    ExpandAllAppend(calls, c);
    ForwardAppend(cfg, ExpandAll(calls), Expand(c));
  }

  /** Every expanded record is a call's own record or, for an Error-or-worse call, its stack trace. */
  lemma {:induction false} ExpandAllSource(calls: seq<Call>, i: nat) returns (c: Call)
    requires i < |ExpandAll(calls)|
    ensures c in calls
    ensures ExpandAll(calls)[i] == PrimaryRecord(c)
      || (EmitsStackTrace(c.level) && ExpandAll(calls)[i] == StackRecord(c))
  {
    var first := Expand(calls[0]);
    if i >= |first| {
      c := ExpandAllSource(calls[1..], i - |first|);
    } else {
      c := calls[0];
    }
  }

  /**
   * `e` is an entry a call `c` can hand to the hook: either the call's own
   * record, with its level, message and fields and "log" added exactly under
   * the history rule, or the call's bare Error stack trace.
   */
  predicate EntryOfCall(cfg: Config, c: Call, e: Entry) {
    || (&& e.level == c.level && e.message == c.message
        && e.data - {LogKey} == c.data - {LogKey}
        && (LogKey in e.data <==> Allows(cfg.reportHistoryLevel, c.level) || LogKey in c.data))
    || (EmitsStackTrace(c.level) && e == Entry(Error, c.stack, map[]))
  }

  /**
   * Over any sequence of logger calls, every entry passes MinLogLevel and
   * is an entry of one of the calls.  So when no call brings its own "log"
   * field, an entry carries the log history only if it is at or above
   * ReportHistoryLevel.
   */
  lemma MirrorHistorySound(cfg: Config, calls: seq<Call>, e: Entry)
    requires e in Mirror(cfg, calls)
    ensures Allows(cfg.minLogLevel, e.level)
    ensures exists c :: c in calls && EntryOfCall(cfg, c, e)
    ensures (forall c :: c in calls ==> LogKey !in c.data) ==>
      (LogKey in e.data ==> Allows(cfg.reportHistoryLevel, e.level))
  {
    ForwardMembers(cfg, ExpandAll(calls), e);
    var i :| 0 <= i < |ExpandAll(calls)| && Allows(cfg.minLogLevel, ExpandAll(calls)[i].level)
      && e == Annotate(cfg, ExpandAll(calls)[i]);
    var c := ExpandAllSource(calls, i);
    assert c in calls;
  }

  /** A details value as the shared helper behind logEvent and logMetrics stores it: under "details", only when non-nil. */
  function DetailsField(details: Option<Payload>): Fields {
    match details
    case None => map[]
    case Some(d) => map[DetailsKey := DetailsValue(d)]
  }

  /** The Info-severity record that helper hands straight to the hook. */
  function TelemetryRecord(message: string, data: Fields): Record {
    Record(Info, Primary, message, data)
  }

  /**
   * logEvent: exactly one entry, whose message is the composition of
   * category and event name and whose "details" field is the caller's
   * details unchanged (absent when nil).
   */
  function EventEntry(cfg: Config, buildMessage: (string, string) -> string,
                      category: string, event: string, details: Option<Payload>): (e: Entry)
    ensures e.level == Info
    ensures e.message == buildMessage(category, event)
    ensures DetailsKey in e.data <==> details.Some?
    ensures details.Some? ==> e.data[DetailsKey] == DetailsValue(details.value)
    ensures MetricsKey !in e.data
    ensures LogKey in e.data <==> Allows(cfg.reportHistoryLevel, Info)
  {
    Annotate(cfg, TelemetryRecord(buildMessage(category, event), DetailsField(details)))
  }

  /**
   * logMetrics: nothing for nil metrics; otherwise exactly one entry whose
   * message composes category and the metrics' identifier, with the metrics
   * under "metrics" and the details (when non-nil) under "details".
   */
  function MetricsEntries(cfg: Config, buildMessage: (string, string) -> string,
                          category: string, metrics: Option<Metrics>, details: Option<Payload>): (es: seq<Entry>)
    ensures metrics.None? ==> es == []
    ensures metrics.Some? ==>
      && |es| == 1
      && es[0].level == Info
      && es[0].message == buildMessage(category, metrics.value.identifier)
      && MetricsKey in es[0].data && es[0].data[MetricsKey] == MetricsValue(metrics.value)
      && (DetailsKey in es[0].data <==> details.Some?)
      && (details.Some? ==> es[0].data[DetailsKey] == DetailsValue(details.value))
      && (LogKey in es[0].data <==> Allows(cfg.reportHistoryLevel, Info))
  {
    match metrics
    case None => []
    case Some(m) =>
      [Annotate(cfg, TelemetryRecord(buildMessage(category, m.identifier),
                                     DetailsField(details)[MetricsKey := MetricsValue(m)]))]
  }
}
