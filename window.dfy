/** The hour-aligned one-hour window ending at the current hour boundary, on epoch seconds. */
module Window {

  const SECONDS_PER_MINUTE: int := 60
  const SECONDS_PER_HOUR: int := 3600
  const SECONDS_PER_DAY: int := 86400

  datatype TimeWindow = TimeWindow(start: int, end: int)

  /** The clock fields of an epoch-seconds timestamp (UTC, no leap seconds). */
  function HourOf(t: int): int { (t % SECONDS_PER_DAY) / SECONDS_PER_HOUR }
  function MinuteOf(t: int): int { (t % SECONDS_PER_HOUR) / SECONDS_PER_MINUTE }
  function SecondOf(t: int): int { t % SECONDS_PER_MINUTE }

  /**
   * `get_time_range`: `end` is `now` with minutes and seconds cleared,
   * `start` one hour earlier.
   */
  function GetTimeRange(now: int): (w: TimeWindow)
    ensures MinuteOf(w.end) == 0 && SecondOf(w.end) == 0
    ensures w.start == w.end - SECONDS_PER_HOUR
    ensures w.end <= now < w.end + SECONDS_PER_HOUR
  {
    var end := now - now % SECONDS_PER_HOUR;
    TimeWindow(end - SECONDS_PER_HOUR, end)
  }

  /** The window's end is the only hour boundary in the hour up to `now`. */
  lemma HourBoundaryUnique(now: int, e: int)
    requires MinuteOf(e) == 0 && SecondOf(e) == 0
    requires e <= now < e + SECONDS_PER_HOUR
    ensures e == GetTimeRange(now).end
  {
    var k, r := e / SECONDS_PER_HOUR, e % SECONDS_PER_HOUR;
    assert e == SECONDS_PER_HOUR * k + r;
    assert r < SECONDS_PER_MINUTE;
    assert e == SECONDS_PER_MINUTE * (60 * k) + r;
    assert r == 0;
    assert now == SECONDS_PER_HOUR * k + (now - e);
    assert now / SECONDS_PER_HOUR == k;
  }

  /** Resolving the window again from its own end gives the same window. */
  lemma GetTimeRangeIdempotent(now: int)
    ensures GetTimeRange(GetTimeRange(now).end) == GetTimeRange(now)
  {
    var w := GetTimeRange(now);
    HourBoundaryUnique(w.end, w.end);
  }
}
