/** Time as the generator scripts use it: instants are whole seconds since
    1970-01-01 00:00:00 UTC, a Thursday. */
module Calendar {

  const SecondsPerMinute: int := 60
  const SecondsPerHour: int := 3600
  const SecondsPerDay: int := 86400

  /** Day of the week as Python's `datetime.weekday()` numbers it: 0 is Monday, 6 is Sunday. */
  type Weekday = d: int | 0 <= d < 7

  const Saturday: Weekday := 5
  const Sunday: Weekday := 6

  /** 1970-01-01 was a Thursday. */
  const EpochWeekday: Weekday := 3

  /** The weekday of the day holding instant `t`; `/` rounds down, as the
      calendar does for instants before 1970 too. */
  function WeekdayOf(t: int): (d: Weekday)
  {
    (t / SecondsPerDay + EpochWeekday) % 7
  }

  /** Adding `days` whole days to an instant moves its weekday on by `days`, cyclically. */
  lemma WeekdayAfterDays(t: int, days: int)
    ensures WeekdayOf(t + days * SecondsPerDay) == (WeekdayOf(t) + days) % 7
  {
    var q, r := t / SecondsPerDay, t % SecondsPerDay;
    assert t + days * SecondsPerDay == (q + days) * SecondsPerDay + r;
    assert (t + days * SecondsPerDay) / SecondsPerDay == q + days;
  }
}
