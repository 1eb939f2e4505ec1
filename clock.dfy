/**
 * Wall-clock helpers. Time is an integer number of milliseconds, passed in by
 * the caller in place of `Date.now()`.
 */
module Clock {

  const DayMs: int := 86_400_000

  /**
   * The next local midnight after `now`: the value of
   * `new Date().setHours(24, 0, 0, 0)`, with the local time zone taken to be
   * UTC. It is strictly after `now`, at most one day away, and on a day
   * boundary.
   */
  function NextMidnight(now: int): (m: int)
    ensures now < m <= now + DayMs
    ensures m % DayMs == 0
  {
    (now / DayMs + 1) * DayMs
  }

  /** Every instant before the next midnight belongs to the same day. */
  lemma SameDay(now: int, t: int)
    requires now <= t < NextMidnight(now)
    ensures NextMidnight(t) == NextMidnight(now)
  {
    var d := now / DayMs;
    assert d * DayMs <= now;
    assert d * DayMs <= t < (d + 1) * DayMs;
    assert t / DayMs == d;
  }
}
