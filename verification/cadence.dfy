/** The notification cadence: at most one "still not listed" email per hour,
    tracked only through the time of the last delivered one. */
module Cadence {
  import opened Options
  import opened State

  const NotificationIntervalSeconds: int := 3600

  /** Whether a status email is due at instant `now`. */
  predicate ShouldNotify(s: MonitorState, now: int) {
    match s.lastNotification
    case None => true
    case Some(t0) => now - t0 >= NotificationIntervalSeconds
  }

  /** Records a delivered status email at `now`; after it, the next status
      email is due exactly one interval later, and the monitoring flags are
      untouched. */
  function RecordNotification(s: MonitorState, now: int): (r: MonitorState)
    ensures forall later :: ShouldNotify(r, later) <==> later >= now + NotificationIntervalSeconds
    ensures !ShouldNotify(r, now)
    ensures r.active == s.active && r.listingConfirmed == s.listingConfirmed
  {
    s.(lastNotification := Some(now))
  }

  /** The cadence rule: always due when nothing was sent yet; otherwise due
      once at least 3600 seconds have elapsed, the bound included. */
  lemma CadenceRule(s: MonitorState, now: int)
    ensures s.lastNotification.None? ==> ShouldNotify(s, now)
    ensures s.lastNotification.Some? ==>
      (ShouldNotify(s, now) <==> now - s.lastNotification.value >= 3600)
    ensures s.lastNotification.Some? ==>
      !ShouldNotify(s, s.lastNotification.value + 3599) && ShouldNotify(s, s.lastNotification.value + 3600)
  {
  }
}
