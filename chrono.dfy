/** Go's `time.Time` as far as the model needs it: a point on the UTC time
    line, counted in nanoseconds from 0001-01-01T00:00:00Z, which is the
    instant of the zero `time.Time{}` and the one `IsZero` reports. */
module Chrono {

  const NanosPerDay: int := 86_400_000_000_000

  datatype Instant = Instant(nanos: int)

  /** `time.Time{}`. */
  const ZeroTime: Instant := Instant(0)

  predicate IsLeapYear(y: int) {
    y % 4 == 0 && (y % 100 != 0 || y % 400 == 0)
  }

  /** Days from 0001-01-01 to the first of January of year y, proleptic
      Gregorian calendar. */
  function DaysBeforeYear(y: int): int
    requires y >= 1
  {
    var p := y - 1;
    365 * p + p / 4 - p / 100 + p / 400
  }

  /** Days of year y before the first of month m. */
  function DaysBeforeMonth(y: int, m: int): int
    requires 1 <= m <= 12
  {
    var common := [0, 31, 59, 90, 120, 151, 181, 212, 243, 273, 304, 334][m - 1];
    if m > 2 && IsLeapYear(y) then common + 1 else common
  }

  /** The day number of a calendar date, 0 for 0001-01-01. */
  function CivilDay(y: int, m: int, d: int): int
    requires y >= 1 && 1 <= m <= 12
  {
    DaysBeforeYear(y) + DaysBeforeMonth(y, m) + d - 1
  }

  /** The start of day number `day`, UTC. */
  function Midnight(day: int): Instant
  {
    Instant(day * NanosPerDay)
  }
}
