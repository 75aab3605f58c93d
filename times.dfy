/**
 * Instants and durations. Python's naive `datetime` becomes the number of microseconds
 * since 0001-01-01 00:00:00, limited to the years 1 to 9999 that `datetime` can hold;
 * a `timedelta` built from an offset is a whole number of minutes.
 */
module Times {
  import opened Wrappers

  const MicrosPerMinute: int := 60_000_000
  const MinutesPerHour: int := 60
  const MinutesPerDay: int := 1440
  const MicrosPerDay: int := MinutesPerDay * MicrosPerMinute
  /** Days from 0001-01-01 to 9999-12-31 inclusive. */
  const DatetimeDays: int := 3_652_059
  const InstantLimit: int := DatetimeDays * MicrosPerDay
  /** The largest number of days a `timedelta` may hold, in either direction. */
  const MaxDeltaDays: int := 999_999_999

  type Instant = t: int | 0 <= t < InstantLimit
  type TimeOfDay = t: int | 0 <= t < MicrosPerDay
  type Day = d: int | 0 <= d < DatetimeDays

  /** `datetime.combine(day, time)`: the instant at that time of that day. */
  function Combine(day: Day, time: TimeOfDay): (t: Instant)
    ensures t / MicrosPerDay == day && t % MicrosPerDay == time
  {
    day * MicrosPerDay + time
  }

  /** Whether `timedelta(minutes = m)` can be built: its day count, rounded down, is in range. */
  predicate DeltaInRange(minutes: int) {
    -MaxDeltaDays <= minutes / MinutesPerDay <= MaxDeltaDays
  }

  /** `t - timedelta(minutes = m)`; `None` where Python raises `OverflowError`. */
  function Minus(t: Instant, minutes: int): Option<Instant> {
    var r := t - minutes * MicrosPerMinute;
    if 0 <= r < InstantLimit then Some(r) else None
  }
}
