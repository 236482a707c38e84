/**
 * The recording telemetry hook of the logging tests (mockTelemetryHook):
 * it advertises the severities at or above a threshold and appends the
 * message and the field map of every entry fired at it to two parallel
 * buffers.
 */
module MockHook {
  import opened Severities
  import opened Entries

  /**
   * makeMockTelemetryHook's level list: walk all severities most severe
   * first and keep those at least as severe as `level`.  The result is the
   * prefix of that walk that ends at `level`.
   */
  method MakeLevels(level: Severity) returns (levels: seq<Severity>)
    ensures levels == AllSeverities[..Ordinal(level) + 1]
    ensures forall s: Severity :: s in levels <==> Allows(level, s)
    ensures forall i, j :: 0 <= i < j < |levels| ==> Ordinal(levels[i]) < Ordinal(levels[j])
    ensures Panic in levels
  {
    AllSeveritiesByOrdinal();
    levels := [];
    for i := 0 to |AllSeverities|
      invariant levels == AllSeverities[..if i <= Ordinal(level) then i else Ordinal(level) + 1]
    {
      if Ordinal(AllSeverities[i]) <= Ordinal(level) {
        levels := levels + [AllSeverities[i]];
      }
    }
    forall s: Severity ensures s in levels <==> Allows(level, s) {
      assert AllSeverities[Ordinal(s)] == s;
      if s in levels {
        var k :| 0 <= k < |levels| && levels[k] == s;
        assert Ordinal(s) == k;
      }
    }
  }

  class MockTelemetryHook {
    /** The severities the hook advertises (Levels). */
    var levels: seq<Severity>
    /** Messages of the fired entries (_entries). */
    var entryLog: seq<string>
    /** Field maps of the fired entries (_data), parallel to entryLog. */
    var dataLog: seq<Fields>
    /** The entries fired so far, in order: the hook's abstract state. */
    ghost var fired: seq<Entry>

    /** The two buffers hold the messages and the field maps of the same fired entries. */
    ghost predicate Valid()
      reads this
    {
      entryLog == Messages(fired) && dataLog == DataOf(fired)
    }

    /** makeMockTelemetryHook: an empty hook listening at `level` and above. */
    constructor (level: Severity)
      ensures Valid() && fired == []
      ensures levels == AllSeverities[..Ordinal(level) + 1]
    {
      var ls := MakeLevels(level);
      levels := ls;
      entryLog := [];
      dataLog := [];
      fired := [];
    }

    /** The severities the hook wants to receive. */
    method Levels() returns (r: seq<Severity>)
      ensures r == levels
    {
      r := levels;
    }

    /**
     * Records one entry: its message and its field map are appended to the
     * two buffers, nothing else changes.
     */
    method Fire(e: Entry)
      requires Valid()
      modifies this
      ensures Valid() && fired == old(fired) + [e]
      ensures |entryLog| == |dataLog|
      ensures entryLog == old(entryLog) + [e.message]
      ensures dataLog == old(dataLog) + [e.data]
      ensures levels == old(levels)
    {
      entryLog := entryLog + [e.message];
      dataLog := dataLog + [e.data];
      fired := fired + [e];
    }

    /** The messages recorded so far (entries). */
    method Entries() returns (r: seq<string>)
      ensures r == entryLog
    {
      r := entryLog;
    }

    /** The field maps recorded so far (data). */
    method Data() returns (r: seq<Fields>)
      ensures r == dataLog
    {
      r := dataLog;
    }
  }
}
