/**
 * The clock the handlers read, passed in as a value: the local (Singapore)
 * date, the weekday, the time of day and an absolute instant, the last two
 * in microseconds (the resolution of Python's datetime).
 */
module Clock {
  import opened Dates

  const MICROS_PER_SECOND: int := 1_000_000
  const MICROS_PER_MINUTE: int := 60 * MICROS_PER_SECOND
  const MICROS_PER_DAY: int := 24 * 60 * MICROS_PER_MINUTE

  /** Microseconds since local midnight. */
  type TimeOfDay = t: int | 0 <= t < MICROS_PER_DAY

  /** Python's `weekday()`: Monday is 0, Sunday is 6. */
  type Weekday = w: int | 0 <= w < 7

  datatype Now = Now(date: Date, weekday: Weekday, time: TimeOfDay, instant: int)

  /** The time of day hh:mm:00. */
  function At(h: nat, m: nat): TimeOfDay
    requires h < 24 && m < 60
  {
    (h * 60 + m) * MICROS_PER_MINUTE
  }

  /** Price checks run from 15:00 to 21:00. */
  const CHECK_START: TimeOfDay := At(15, 0)
  const CHECK_END: TimeOfDay := At(21, 0)

  /** Nag polls run from 17:30 to 21:00. */
  const NAG_START: TimeOfDay := At(17, 30)
  const NAG_END: TimeOfDay := At(21, 0)

  /** Error broadcasts are at least 60 minutes apart. */
  const ERROR_COOLDOWN: int := 60 * MICROS_PER_MINUTE

  /** `is_weekday`: Monday to Friday. */
  predicate IsWeekday(w: Weekday) {
    w < 5
  }

  /** `within_time_window`: both ends belong to the window. */
  predicate WithinTimeWindow(t: TimeOfDay, start: TimeOfDay, end: TimeOfDay) {
    start <= t <= end
  }

  /**
   * The two windows are closed at both ends: 21:00:00 exactly is inside
   * both, one microsecond later is inside neither, and 17:30:00 opens the
   * nag window while one microsecond earlier is still outside it.
   */
  lemma WindowsAreClosed()
    ensures WithinTimeWindow(At(21, 0), CHECK_START, CHECK_END)
    ensures WithinTimeWindow(At(21, 0), NAG_START, NAG_END)
    ensures !WithinTimeWindow(At(21, 0) + 1, CHECK_START, CHECK_END)
    ensures !WithinTimeWindow(At(21, 0) + 1, NAG_START, NAG_END)
    ensures WithinTimeWindow(At(15, 0), CHECK_START, CHECK_END)
    ensures !WithinTimeWindow(At(15, 0) - 1, CHECK_START, CHECK_END)
    ensures WithinTimeWindow(At(17, 30), NAG_START, NAG_END)
    ensures !WithinTimeWindow(At(17, 30) - 1, NAG_START, NAG_END)
  {
  }

  /** The nag window lies inside the check window. */
  lemma NagWindowInsideCheckWindow(t: TimeOfDay)
    ensures WithinTimeWindow(t, NAG_START, NAG_END) ==> WithinTimeWindow(t, CHECK_START, CHECK_END)
  {
  }
}
