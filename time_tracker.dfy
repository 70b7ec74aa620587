/**
 * `TimeTracker` of app/utils/time_tracker.py: a start time and a log of labelled
 * elapsed-millisecond marks. The clock `time.time()` is a parameter, in seconds.
 */
module TimeTracking {
  import Numeric

  /** `int((now - start) * 1000)`. */
  function ElapsedMs(start: real, now: real): (ms: int)
    ensures now >= start ==> 0 <= ms && ms as real <= (now - start) * 1000.0 < ms as real + 1.0
    ensures now < start ==> ms <= 0 && ms as real - 1.0 < (now - start) * 1000.0
  {
    Numeric.Trunc((now - start) * 1000.0)
  }

  /** With a clock that reads whole milliseconds, a mark records their difference. */
  lemma WholeMilliseconds(startMs: int, nowMs: int)
    ensures ElapsedMs(startMs as real / 1000.0, nowMs as real / 1000.0) == nowMs - startMs
  {
    assert (nowMs as real / 1000.0 - startMs as real / 1000.0) * 1000.0 == (nowMs - startMs) as real;
  }

  class TimeTracker {
    var start: real
    var events: seq<(string, int)>

    /** `TimeTracker()` at clock reading `now`. */
    constructor (now: real)
      ensures start == now && events == []
    {
      start := now;
      events := [];
    }

    /** `mark(label)` at clock reading `now`: one event at the end, `start` untouched. */
    method Mark(name: string, now: real)
      modifies this
      ensures start == old(start)
      ensures events == old(events) + [(name, ElapsedMs(old(start), now))]
    {
      var elapsed := ElapsedMs(start, now);
      events := events + [(name, elapsed)];
    }

    /** `report()`: the events in the order they were marked. */
    method Report() returns (r: seq<(string, int)>)
      ensures r == events
    {
      r := events;
    }
  }
}
