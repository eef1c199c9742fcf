/** Worked scenarios for the HTTP entry point, on one evening in Korea. */
module Scenarios {
  import opened Options
  import opened KstClock
  import opened State
  import opened Monitor
  import opened ChartResponse
  import opened HttpMonitor

  /** The day used by the scenarios, counted from the epoch's local date. */
  const Day: int := 20000

  /** The instant at which Korea shows `hour:minute:00` on `Day`. */
  function At(hour: int, minute: int): int {
    KstInstant(Day, LocalTime(hour, minute, 0))
  }

  /** A quote with a price of 12.50 in the chart layout (the price is held
      in cents: only its presence matters). */
  const QuoteBody: Json :=
    JObject(map["chart" := JObject(map["result" := JArray([
      JObject(map["meta" := JObject(map["regularMarketPrice" := JNumber(1250),
                                         "currency" := JString("USD")])])])])])

  /** 21:30, nothing sent yet, the request times out: the window is open,
      the timeout reads as "not listed", and the first status email goes
      out and is recorded. */
  lemma StatusAtWindowOpening()
    ensures var r := HttpTick(Initial, At(21, 30), Timeout, true);
      && r.fetched
      && r.send == Attempt(Status, true)
      && r.next == MonitorState(true, false, Some(At(21, 30)))
  {
    KstInstantRoundTrip(Day, LocalTime(21, 30, 0));
  }

  /** 22:15 after a status email at 21:30: the gate is shut (minute 15 of
      hour 22), so nothing is fetched or sent and nothing changes. */
  lemma QuarterPastTenIsShut()
    ensures var s := MonitorState(true, false, Some(At(21, 30)));
      HttpTick(s, At(22, 15), Timeout, true) == Idle(s)
  {
    KstInstantRoundTrip(Day, LocalTime(22, 15, 0));
  }

  /** 22:31 with a live quote: the confirmation is delivered and the
      monitor stops. */
  lemma ListingConfirmedAt2231()
    ensures var s := MonitorState(true, false, Some(At(21, 30)));
      var r := HttpTick(s, At(22, 31), Response(200, Some(QuoteBody)), true);
      && r.send == Attempt(Confirmation, true)
      && r.next == MonitorState(false, true, Some(At(21, 30)))
  {
    KstInstantRoundTrip(Day, LocalTime(22, 31, 0));
    assert HasLivePrice(QuoteBody) by {
      assert PricePath == [Field("chart"), Field("result"), Index(0), Field("meta"),
                           Field("regularMarketPrice")];
      LookupMeta(QuoteBody);
      LookupAppend(QuoteBody, MetaPath, Field("regularMarketPrice"));
    }
  }

  /** 10:00: outside the window, no fetch and no change. */
  lemma MorningIsShut(s: MonitorState, resp: HttpOutcome, sendOk: bool)
    ensures HttpTick(s, At(10, 0), resp, sendOk) == Idle(s)
  {
    KstInstantRoundTrip(Day, LocalTime(10, 0, 0));
  }
}
