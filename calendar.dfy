/**
 * Local wall-clock time as whole milliseconds counted from 1970-01-01 00:00,
 * which was a Thursday. Every day has exactly `DAY` milliseconds: time zones
 * and daylight-saving shifts are not modelled.
 */
module Calendar {
  const SECOND: int := 1000
  const MINUTE: int := 60 * SECOND
  const HOUR: int := 60 * MINUTE
  const DAY: int := 24 * HOUR
  const WEEK: int := 7 * DAY

  /** `Date.prototype.getDay`: 0 is Sunday, 1 Monday, ..., 6 Saturday. */
  function WeekDay(t: int): (d: int)
    ensures 0 <= d < 7
  {
    (t / DAY + 4) % 7
  }

  /** Midnight at the start of the day holding `t`. */
  function DayStart(t: int): (r: int)
    ensures r <= t < r + DAY
    ensures r % DAY == 0
  {
    t - t % DAY
  }

  /** Milliseconds elapsed since midnight. */
  function TimeOfDay(t: int): (r: int)
    ensures 0 <= r < DAY
    ensures DayStart(t) + r == t
  {
    t % DAY
  }

  /** Euclidean division by `DAY` has one quotient and remainder. */
  lemma DivModDay(x: int, q: int, r: int)
    requires 0 <= r < DAY && x == q * DAY + r
    ensures x / DAY == q && x % DAY == r
  {
  }

  /** `k` whole days later: one more day per day, the same remainder. */
  lemma ShiftByDays(t: int, k: int)
    ensures (t + k * DAY) / DAY == t / DAY + k
    ensures (t + k * DAY) % DAY == t % DAY
  {
    var q, r := t / DAY, t % DAY;
    assert t + k * DAY == (q + k) * DAY + r;
    DivModDay(t + k * DAY, q + k, r);
  }

  /** `d.setDate(d.getDate() + k)`: the same time of day, `k` days later. */
  function AddDays(t: int, k: int): (r: int)
    ensures TimeOfDay(r) == TimeOfDay(t)
    ensures DayStart(r) == DayStart(t) + k * DAY
    ensures WeekDay(r) == (WeekDay(t) + k) % 7
  {
    ShiftByDays(t, k);
    t + k * DAY
  }

  /** Milliseconds into a day named by its clock fields. */
  function ClockTime(h: int, m: int, s: int, ms: int): int {
    h * HOUR + m * MINUTE + s * SECOND + ms
  }

  /** `d.setHours(h, m, s, ms)`: the same day, at the given clock time. */
  function SetHours(t: int, h: int, m: int, s: int, ms: int): (r: int)
    ensures 0 <= ClockTime(h, m, s, ms) < DAY ==>
      DayStart(r) == DayStart(t) && TimeOfDay(r) == ClockTime(h, m, s, ms) && WeekDay(r) == WeekDay(t)
  {
    DayStart(t) + ClockTime(h, m, s, ms)
  }

  /** Clock fields in their usual ranges make a time within one day. */
  lemma ClockTimeInDay(h: int, m: int, s: int, ms: int)
    requires 0 <= h < 24 && 0 <= m < 60 && 0 <= s < 60 && 0 <= ms < 1000
    ensures 0 <= ClockTime(h, m, s, ms) < DAY
  {
  }

  /** Two instants with the same day start and time of day are equal. */
  lemma SameDayAndTime(a: int, b: int)
    requires DayStart(a) == DayStart(b) && TimeOfDay(a) == TimeOfDay(b)
    ensures a == b
  {
  }
}
