/**
 * The logger's severities (logrus levels), most severe first.  A lower
 * ordinal means a more severe record; the ordinals are those of logrus
 * (PanicLevel = 0 ... DebugLevel = 5).
 */
module Severities {

  datatype Severity = Panic | Fatal | Error | Warn | Info | Debug

  /** Every severity, in the most-severe-first order the mock hook walks. */
  const AllSeverities: seq<Severity> := [Panic, Fatal, Error, Warn, Info, Debug]

  /** The numeric logrus level of a severity: its position in the most-severe-first list. */
  function Ordinal(s: Severity): (n: nat)
    ensures n < |AllSeverities| && AllSeverities[n] == s
  {
    match s
    case Panic => 0
    case Fatal => 1
    case Error => 2
    case Warn => 3
    case Info => 4
    case Debug => 5
  }

  /**
   * True iff a record of severity `actual` passes a threshold `configured`:
   * `actual` is at least as severe as `configured`.  Any threshold lets
   * Panic through, and Debug lets everything through.
   */
  predicate Allows(configured: Severity, actual: Severity)
    ensures actual == Panic ==> Allows(configured, actual)
    ensures configured == Debug ==> Allows(configured, actual)
  {
    Ordinal(actual) <= Ordinal(configured)
  }

  /** A threshold lets through exactly the severities up to it in the most-severe-first list. */
  lemma AllowsByList(configured: Severity, actual: Severity)
    ensures Allows(configured, actual) <==> actual in AllSeverities[..Ordinal(configured) + 1]
  {
  }

  /** The list of all severities is indexed by ordinal and lists each severity once. */
  lemma AllSeveritiesByOrdinal()
    ensures |AllSeverities| == 6
    ensures forall i :: 0 <= i < |AllSeverities| ==> Ordinal(AllSeverities[i]) == i
    ensures forall s: Severity :: AllSeverities[Ordinal(s)] == s
  {
  }

  /** Only Debug lets Debug through, and Panic lets only Panic through. */
  lemma AllowsExtremes(configured: Severity, actual: Severity)
    ensures Allows(configured, Debug) <==> configured == Debug
    ensures Allows(Panic, actual) <==> actual == Panic
  {
  }

  /** "At least as severe" is a total preorder that identifies equal severities. */
  lemma AllowsTotalOrder(a: Severity, b: Severity, c: Severity)
    ensures Allows(a, a)
    ensures Allows(a, b) || Allows(b, a)
    ensures Allows(a, b) && Allows(b, a) ==> a == b
    ensures Allows(a, b) && Allows(b, c) ==> Allows(a, c)
  {
  }
}
