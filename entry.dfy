/**
 * What reaches a telemetry hook: a logrus entry with a severity, a message
 * and a field map (logrus.Fields).  Caller payloads are opaque values that
 * the pipeline only copies.
 */
module Entries {
  import opened Severities

  /** An opaque caller-supplied payload (a Go struct value): its type name and its fields. */
  datatype Payload = Payload(typeName: string, fields: map<string, string>)

  /** A metrics value: a payload that also names itself (MetricDetails.Identifier). */
  datatype Metrics = Metrics(identifier: string, payload: Payload)

  /** The values the pipeline stores in an entry's field map. */
  datatype Value =
    | DetailsValue(details: Payload)
    | MetricsValue(metrics: Metrics)
    | HistoryValue  // the log-history snapshot, kept opaque

  type Fields = map<string, Value>

  /** Field keys the pipeline writes. */
  const DetailsKey: string := "details"
  const MetricsKey: string := "metrics"
  const LogKey: string := "log"

  datatype Entry = Entry(level: Severity, message: string, data: Fields)

  /** The messages of a sequence of entries, in order. */
  function Messages(es: seq<Entry>): (ms: seq<string>)
    ensures |ms| == |es|
    ensures forall i :: 0 <= i < |es| ==> ms[i] == es[i].message
  {
    if es == [] then [] else [es[0].message] + Messages(es[1..])
  }

  /** The field maps of a sequence of entries, in order. */
  function DataOf(es: seq<Entry>): (ds: seq<Fields>)
    ensures |ds| == |es|
    ensures forall i :: 0 <= i < |es| ==> ds[i] == es[i].data
  {
    if es == [] then [] else [es[0].data] + DataOf(es[1..])
  }
}
