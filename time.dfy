/**
 * The clock values the service uses, as .NET tick counts (100 ns units):
 * `DateTime` for the local clock that dates the seeded todos, and `DateOnly`
 * for the calendar date taken from it.
 */
module Time {

  /** `TimeSpan.TicksPerDay`. */
  const TicksPerDay: int := 864_000_000_000

  /** A local `DateTime`, by its `Ticks` (never negative in .NET). */
  datatype DateTime = DateTime(ticks: int)

  /** A calendar date, by its `DateOnly.DayNumber`. */
  datatype DateOnly = DateOnly(dayNumber: int)

  /** `DateTime.AddDays(days)` for a whole number of days. */
  function AddDays(dt: DateTime, days: int): (r: DateTime) {
    DateTime(dt.ticks + days * TicksPerDay)
  }

  /** `DateOnly.FromDateTime`: the day the instant falls on. */
  function FromDateTime(dt: DateTime): (r: DateOnly) {
    DateOnly(dt.ticks / TicksPerDay)
  }

  /** Adding `days` whole days to a clock reading moves its date exactly `days` days on. */
  lemma DateOfDaysLater(dt: DateTime, days: int)
    ensures FromDateTime(AddDays(dt, days)).dayNumber == FromDateTime(dt).dayNumber + days
  {
    var q, m := dt.ticks / TicksPerDay, dt.ticks % TicksPerDay;
    assert dt.ticks + days * TicksPerDay == (q + days) * TicksPerDay + m;
    assert 0 <= m < TicksPerDay;
  }
}
