/** One timer tick of the listing monitor: the body of `main`, shared by the
    HTTP and the yfinance entry points.

    The fetch and the email send are outside collaborators. A tick receives
    the outcome the fetch would report and whether the send would succeed;
    the result records whether the fetch was consulted and which email, if
    any, was attempted. */
module Monitor {
  import opened Options
  import opened MonitoringWindow
  import opened State
  import opened Cadence

  /** What the fetch step tells `main`: a live listing, no listing, or an
      exception that leaves the fetch step. */
  datatype Listing = Listed | NotListed | FetchFailed

  datatype Email = Confirmation | Status

  datatype Send = NoSend | Attempt(email: Email, ok: bool) {
    predicate Delivered(e: Email) {
      this == Attempt(e, true)
    }
  }

  datatype TickResult = TickResult(next: MonitorState, fetched: bool, send: Send)

  /** The state after a delivered confirmation email: monitoring stops for
      the rest of the process. */
  function ConfirmListing(s: MonitorState): (r: MonitorState)
    ensures !r.active && r.listingConfirmed
    ensures !r.Running() && r.Consistent()
    ensures r.lastNotification == s.lastNotification
  {
    s.(active := false, listingConfirmed := true)
  }

  /** The idle result: no fetch, no email, no change. */
  function Idle(s: MonitorState): TickResult {
    TickResult(s, false, NoSend)
  }

  /** One tick at UTC instant `now`. */
  function Tick(s: MonitorState, now: int, fetch: Listing, sendOk: bool): (r: TickResult)
    // the fetch happens exactly when monitoring runs and the window is open
    ensures r.fetched <==> s.Running() && OpenAt(now)
    ensures r.send.Attempt? ==> r.fetched
    // the state moves exactly when an email is delivered
    ensures r.next != s <==> r.send.Attempt? && r.send.ok
    // a confirmation is attempted only on a live listing, a status email
    // only when there is none and the cadence allows it
    ensures r.send.Attempt? && r.send.email == Confirmation ==> fetch == Listed
    ensures r.send.Attempt? && r.send.email == Status ==> fetch == NotListed && ShouldNotify(s, now)
    // the notification time moves exactly on a delivered status email
    ensures r.next.lastNotification
         == if r.send.Delivered(Status) then Some(now) else s.lastNotification
    // a delivered confirmation stops monitoring for good
    ensures r.send.Delivered(Confirmation) ==> r.next.listingConfirmed && !r.next.active
    ensures s.Consistent() ==> r.next.Consistent()
  {
    if !s.Running() then Idle(s)
    else if !OpenAt(now) then Idle(s)
    else match fetch
      case FetchFailed => TickResult(s, true, NoSend)
      case Listed =>
        if sendOk then TickResult(ConfirmListing(s), true, Attempt(Confirmation, true))
        else TickResult(s, true, Attempt(Confirmation, false))
      case NotListed =>
        if !ShouldNotify(s, now) then TickResult(s, true, NoSend)
        else if sendOk then TickResult(RecordNotification(s, now), true, Attempt(Status, true))
        else TickResult(s, true, Attempt(Status, false))
  }

  /** Stopped or confirmed: the tick returns before anything else. */
  lemma StoppedTick(s: MonitorState, now: int, fetch: Listing, sendOk: bool)
    requires !s.Running()
    ensures Tick(s, now, fetch, sendOk) == Idle(s)
  {
  }

  /** Outside the window: no fetch and no change. */
  lemma ClosedWindowTick(s: MonitorState, now: int, fetch: Listing, sendOk: bool)
    requires !OpenAt(now)
    ensures Tick(s, now, fetch, sendOk) == Idle(s)
  {
  }

  /** A live listing: the confirmation email is attempted; if delivered,
      both terminal flags are set and the notification time is kept; if not,
      nothing changes and the next tick tries again. */
  lemma ListedTick(s: MonitorState, now: int, sendOk: bool)
    requires s.Running() && OpenAt(now)
    ensures var r := Tick(s, now, Listed, sendOk);
      && r.fetched
      && r.send == Attempt(Confirmation, sendOk)
      && (sendOk ==> !r.next.active && r.next.listingConfirmed
                     && r.next.lastNotification == s.lastNotification)
      && (!sendOk ==> r.next == s)
  {
  }

  /** No listing: the status email is attempted exactly when the cadence
      allows it; the notification time becomes `now` only when it is
      delivered; the monitoring flags never change on this branch. */
  lemma NotListedTick(s: MonitorState, now: int, sendOk: bool)
    requires s.Running() && OpenAt(now)
    ensures var r := Tick(s, now, NotListed, sendOk);
      && r.fetched
      && r.next.active == s.active
      && r.next.listingConfirmed == s.listingConfirmed
      && r.send == (if ShouldNotify(s, now) then Attempt(Status, sendOk) else NoSend)
      && r.next.lastNotification
         == (if ShouldNotify(s, now) && sendOk then Some(now) else s.lastNotification)
  {
  }

  /** An exception out of the fetch step ends the tick: no email, no change. */
  lemma FetchFailedTick(s: MonitorState, now: int, sendOk: bool)
    requires s.Running() && OpenAt(now)
    ensures Tick(s, now, FetchFailed, sendOk) == TickResult(s, true, NoSend)
  {
  }
}
