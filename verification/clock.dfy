/** Wall-clock reading in Korea Standard Time.

    A tick's instant is a whole number of seconds since the Unix epoch (UTC).
    Since October 1988 Asia/Seoul has had a fixed offset of nine hours and no
    daylight saving, which covers every instant the monitor reads, so the
    local hour and minute follow from the instant by plain arithmetic. Earlier
    instants (the +8:30 period, the 1987-88 daylight saving) are not modelled. */
module KstClock {

  const SecondsPerMinute: int := 60
  const SecondsPerHour: int := 3600
  const SecondsPerDay: int := 86400
  const KstOffsetSeconds: int := 9 * 3600

  /** A time of day, as `datetime.hour`, `.minute` and `.second` report it. */
  datatype LocalTime = LocalTime(hour: int, minute: int, second: int) {

    predicate Valid() {
      0 <= hour < 24 && 0 <= minute < 60 && 0 <= second < 60
    }

    /** Seconds elapsed since local midnight. */
    function SecondOfDay(): int {
      hour * SecondsPerHour + minute * SecondsPerMinute + second
    }
  }

  /** The local time of day in Korea at UTC instant `now`. */
  function Kst(now: int): (t: LocalTime)
    ensures t.Valid()
    ensures t.SecondOfDay() == (now + KstOffsetSeconds) % SecondsPerDay
  {
    var sod := (now + KstOffsetSeconds) % SecondsPerDay;
    var rest := sod % SecondsPerHour;
    LocalTime(sod / SecondsPerHour, rest / SecondsPerMinute, rest % SecondsPerMinute)
  }

  /** The UTC instant at which Korea shows `t` on day `day` (days counted
      from the local date of the epoch). */
  function KstInstant(day: int, t: LocalTime): int {
    day * SecondsPerDay + t.SecondOfDay() - KstOffsetSeconds
  }

  /** A valid time of day is determined by its second of the day. */
  lemma SecondOfDayInjective(t: LocalTime, u: LocalTime)
    requires t.Valid() && u.Valid()
    requires t.SecondOfDay() == u.SecondOfDay()
    ensures t == u
  {
    var low := t.minute * SecondsPerMinute + t.second;
    var lowU := u.minute * SecondsPerMinute + u.second;
    assert t.hour == u.hour by {
      assert 0 <= low < SecondsPerHour && 0 <= lowU < SecondsPerHour;
    }
  }

  /** Whole days drop out of the second-of-day. */
  lemma DayMod(day: int, x: int)
    requires 0 <= x < SecondsPerDay
    ensures (day * SecondsPerDay + x) % SecondsPerDay == x
  {
  }

  /** Reading the clock at the instant built from a local time gives that
      local time back. */
  lemma KstInstantRoundTrip(day: int, t: LocalTime)
    requires t.Valid()
    ensures Kst(KstInstant(day, t)) == t
  {
    var i := KstInstant(day, t);
    assert i + KstOffsetSeconds == day * SecondsPerDay + t.SecondOfDay();
    DayMod(day, t.SecondOfDay());
    SecondOfDayInjective(Kst(i), t);
  }

  /** The local time of day repeats every 24 hours. */
  lemma KstIsDaily(now: int)
    ensures Kst(now + SecondsPerDay) == Kst(now)
  {
    assert (now + SecondsPerDay + KstOffsetSeconds) % SecondsPerDay
        == (now + KstOffsetSeconds) % SecondsPerDay;
    SecondOfDayInjective(Kst(now + SecondsPerDay), Kst(now));
  }
}
