/** The entry point that fetches the quote with a raw HTTP request. */
module HttpMonitor {
  import opened Options
  import opened Mailer
  import opened MonitoringWindow
  import opened State
  import opened Cadence
  import opened Monitor
  import opened ChartResponse

  /** `main` treats the fetch as listed exactly when `get_stock_data`
      returned a snapshot with a price; since `get_stock_data` swallows its
      own errors, the fetch never fails from `main`'s point of view. */
  function Classify(resp: HttpOutcome): (l: Listing)
    ensures l != FetchFailed
    ensures l == Listed <==> GetStockData(resp).Some?
  {
    var data := GetStockData(resp);
    if data.Some? && data.value.price != JNull then Listed else NotListed
  }

  /** One tick of this entry point. */
  function HttpTick(s: MonitorState, now: int, resp: HttpOutcome, sendOk: bool): (r: TickResult)
    // a confirmation needs a live price in a decoded 200 response
    ensures r.send.Attempt? && r.send.email == Confirmation ==> HasLivePriceResponse(resp)
    // anything else that was fetched is handled as "not listed"
    ensures r.fetched && !HasLivePriceResponse(resp) ==>
      r.send == (if ShouldNotify(s, now) then Attempt(Status, sendOk) else NoSend)
  {
    Tick(s, now, Classify(resp), sendOk)
  }

  /** Every failure of the request reads as "not listed". */
  lemma FailuresReadAsNotListed(resp: HttpOutcome)
    requires FailedRequest(resp)
    ensures Classify(resp) == NotListed
    ensures GetStockData(resp) == None
  {
  }

  /** A timeout, network error or bad response inside the window takes the
      "not listed" branch: a status email goes out when the cadence allows,
      and a delivered one moves the notification time to `now`. The tick is
      not a no-op. */
  lemma FailedFetchMaySendStatus(s: MonitorState, now: int, resp: HttpOutcome, sendOk: bool)
    requires s.Running() && OpenAt(now)
    requires FailedRequest(resp)
    ensures var r := HttpTick(s, now, resp, sendOk);
      && r.fetched
      && r.next.active == s.active && r.next.listingConfirmed == s.listingConfirmed
      && r.send == (if ShouldNotify(s, now) then Attempt(Status, sendOk) else NoSend)
      && r.next.lastNotification
         == (if ShouldNotify(s, now) && sendOk then Some(now) else s.lastNotification)
  {
    FailuresReadAsNotListed(resp);
    NotListedTick(s, now, sendOk);
  }

  /** A send that cannot deliver (a credential missing, or an SMTP port
      `int()` rejects) never moves the state, whatever the response. The
      tick's `sendOk` is whether `send_email_alert` reported delivery. */
  lemma UndeliverableSendKeepsState(s: MonitorState, now: int, resp: HttpOutcome,
                                    env: MailEnv, smtpOk: bool)
    requires !CredentialsComplete(env) || !env.portParses
    ensures SendEmailAlert(env, smtpOk).outcome != Sent
    ensures HttpTick(s, now, resp, SendEmailAlert(env, smtpOk).outcome == Sent).next == s
  {
  }

  /** A live quote inside the window attempts the confirmation email, and a
      delivered one stops the monitor. */
  lemma LivePriceConfirms(s: MonitorState, now: int, data: Json, sendOk: bool)
    requires s.Running() && OpenAt(now)
    requires HasLivePrice(data)
    ensures var r := HttpTick(s, now, Response(200, Some(data)), sendOk);
      && r.send == Attempt(Confirmation, sendOk)
      && (sendOk ==> !r.next.Running() && r.next.listingConfirmed
                     && r.next.lastNotification == s.lastNotification)
      && (!sendOk ==> r.next == s)
  {
    ListedTick(s, now, sendOk);
  }
}
