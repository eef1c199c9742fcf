/** The entry point that fetches the quote through the yfinance library. */
module YfinanceMonitor {
  import opened Options
  import opened KstClock
  import opened MonitoringWindow
  import opened State
  import opened Cadence
  import opened Monitor

  /** The one-day price history: a frame with some number of rows, or an
      exception raised by the library. */
  datatype History = Frame(rows: nat) | Raised

  /** Listed exactly when the frame is not empty; an exception escapes to
      the `except` of `main`. */
  function Classify(h: History): (l: Listing)
    ensures l == FetchFailed <==> h.Raised?
    ensures l == Listed <==> h.Frame? && h.rows > 0
  {
    match h
    case Raised => FetchFailed
    case Frame(rows) => if rows > 0 then Listed else NotListed
  }

  /** One tick of this entry point. */
  function YfTick(s: MonitorState, now: int, h: History, sendOk: bool): (r: TickResult)
    ensures h.Raised? ==> r.next == s && r.send == NoSend
    ensures r.send.Attempt? && r.send.email == Confirmation ==> h.Frame? && h.rows > 0
  {
    Tick(s, now, Classify(h), sendOk)
  }

  /** The gate of this entry point, in terms of the Korean hour and minute:
      a fetch happens exactly when monitoring runs and either the hour is at
      least 21 with the minute at least 30, or the hour is before 6. */
  lemma GateRule(s: MonitorState, now: int, h: History, sendOk: bool)
    ensures var t := Kst(now);
      YfTick(s, now, h, sendOk).fetched
      <==> s.Running() && ((t.hour >= 21 && t.minute >= 30) || t.hour < 6)
  {
  }

  /** The cadence of this entry point: with an empty frame inside the
      window, a status email is attempted exactly when none was delivered
      yet or at least 3600 seconds have passed since the last one. */
  lemma CadenceRule(s: MonitorState, now: int, sendOk: bool)
    requires s.Running() && OpenAt(now)
    ensures YfTick(s, now, Frame(0), sendOk).send.Attempt?
      <==> s.lastNotification.None? || now - s.lastNotification.value >= 3600
  {
  }

  /** A stopped or confirmed monitor does nothing on this entry point. */
  lemma StoppedIsNoOp(s: MonitorState, now: int, h: History, sendOk: bool)
    requires !s.Running()
    ensures YfTick(s, now, h, sendOk) == Idle(s)
  {
  }

  /** Outside the window: no fetch and no change. */
  lemma ClosedWindowIsNoOp(s: MonitorState, now: int, h: History, sendOk: bool)
    requires !OpenAt(now)
    ensures YfTick(s, now, h, sendOk) == Idle(s)
  {
  }

  /** A non-empty frame attempts the confirmation; a delivered one sets both
      terminal flags and keeps the notification time, a failed one changes
      nothing. */
  lemma NonEmptyFrameConfirms(s: MonitorState, now: int, rows: nat, sendOk: bool)
    requires s.Running() && OpenAt(now) && rows > 0
    ensures var r := YfTick(s, now, Frame(rows), sendOk);
      && r.send == Attempt(Confirmation, sendOk)
      && (sendOk ==> !r.next.active && r.next.listingConfirmed
                     && r.next.lastNotification == s.lastNotification)
      && (!sendOk ==> r.next == s)
  {
    ListedTick(s, now, sendOk);
  }

  /** An empty frame: only the notification time can change, and only to
      `now` after a delivered status email. */
  lemma EmptyFrameNotifies(s: MonitorState, now: int, sendOk: bool)
    requires s.Running() && OpenAt(now)
    ensures var r := YfTick(s, now, Frame(0), sendOk);
      && r.next.active == s.active && r.next.listingConfirmed == s.listingConfirmed
      && r.next.lastNotification
         == (if ShouldNotify(s, now) && sendOk then Some(now) else s.lastNotification)
  {
    NotListedTick(s, now, sendOk);
  }

  /** An exception from the library inside the window was fetched for, but
      ends the tick with no email and no change at all. */
  lemma RaisedFetchIsNoOp(s: MonitorState, now: int, sendOk: bool)
    requires s.Running() && OpenAt(now)
    ensures YfTick(s, now, Raised, sendOk) == TickResult(s, true, NoSend)
  {
    FetchFailedTick(s, now, sendOk);
  }
}
