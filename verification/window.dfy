/** The daily monitoring window gate.

    The comment beside the rule announces 21:30 to 06:00 KST, but the rule
    tests the hour and the minute separately, so within the evening hours it
    opens only in the second half of each hour. */
module MonitoringWindow {
  import opened KstClock

  /** Whether monitoring runs at local time `t`, as the source computes it. */
  predicate InWindow(t: LocalTime) {
    if t.hour >= 21 && t.minute >= 30 then true
    else if t.hour < 6 then true
    else false
  }

  /** The window announced beside the rule: from 21:30 up to 06:00, read as a
      single minute-of-day comparison. */
  predicate AnnouncedWindow(t: LocalTime) {
    t.hour * 60 + t.minute >= 21 * 60 + 30 || t.hour < 6
  }

  /** The gate hour by hour: open all through 00-05, shut all through 06-20,
      and in 21-23 open exactly in minutes 30-59. */
  lemma WindowByHour(t: LocalTime)
    requires t.Valid()
    ensures t.hour < 6 ==> InWindow(t)
    ensures 6 <= t.hour <= 20 ==> !InWindow(t)
    ensures 21 <= t.hour ==> (InWindow(t) <==> t.minute >= 30)
  {
  }

  /** The gate agrees with the announced 21:30-06:00 window except for the
      first half of hours 22 and 23, which it leaves shut. */
  lemma WindowVersusAnnounced(t: LocalTime)
    requires t.Valid()
    ensures InWindow(t) <==> AnnouncedWindow(t) && !(t.hour >= 22 && t.minute < 30)
    ensures InWindow(t) ==> AnnouncedWindow(t)
  {
  }

  /** 22:10 lies inside the announced window but outside the gate. */
  lemma TenPastTenIsShut()
    ensures AnnouncedWindow(LocalTime(22, 10, 0))
    ensures !InWindow(LocalTime(22, 10, 0))
  {
  }

  /** Whether the gate is open at UTC instant `now`. */
  predicate OpenAt(now: int) {
    InWindow(Kst(now))
  }

  /** The gate at an instant only depends on the Korean time of day, so it
      gives the same answer 24 hours later. */
  lemma OpenAtIsDaily(now: int)
    ensures OpenAt(now + SecondsPerDay) == OpenAt(now)
  {
    KstIsDaily(now);
  }
}
