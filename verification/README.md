# FRMI listing monitor — Dafny model

The monitor polls one ticker (FRMI) on a timer and emails its owner. Each
tick runs the same steps. A tick returns at once when monitoring has stopped.
It also returns at once outside the nightly window, read on the Korean clock.
Otherwise it fetches a quote. A live quote sends a one-time "listing
confirmed" email, and a delivered one ends monitoring for good. No quote
sends a "still not listed" status email, at most once per 3600 seconds. The
repository has two entry points with the same tick logic. `init/__init__.py`
fetches with a raw HTTP request to the Yahoo Finance chart endpoint.
`init.py` uses the yfinance library.

The model is functional. The module-level globals `MONITORING_ACTIVE`,
`LISTING_CONFIRMED` and `LAST_NOTIFICATION_TIME` form an immutable
`State.MonitorState`. One tick is `Monitor.Tick(state, now, fetch, sendOk)`:

- `now` is the tick's instant in UTC epoch seconds.
- `fetch` is what the fetch step reports: `Listed`, `NotListed` or `FetchFailed`.
- `sendOk` says whether the email send would succeed.

The result gives the next state, whether the fetch was consulted, and which
email was attempted. The entry points differ only in how they turn the fetch
into a `Listing`:

- `HttpMonitor.Classify` maps every failure to `NotListed`, because
  `get_stock_data` swallows its errors.
- `YfinanceMonitor.Classify` maps an exception to `FetchFailed`, which makes
  the tick a no-op.

The multi-tick guarantees in `Runs` are proved once for the shared tick, so
they hold for both entry points:

- A stopped monitor stays idle.
- The confirmation is delivered at most once.
- Delivered status emails are at least 3600 seconds apart.

Modules: `Options`, `KstClock` (Korean wall clock), `MonitoringWindow`
(gate), `State`, `Cadence`, `Monitor` (one tick), `Runs` (sequences of
ticks), `ChartResponse` (`get_stock_data`), `Mailer` (`send_email_alert`),
`HttpMonitor`, `YfinanceMonitor`, and `Scenarios` (worked evenings).

The model follows the code, including where it departs from what the code
itself announces:

- The gate is `hour >= 21 and minute >= 30`, or `hour < 6`. The window
  21:30 to 06:00 is announced by the comment beside the rule
  (init/__init__.py:32), by the log message for a closed window
  (init/__init__.py:219) and by the status email body (init/__init__.py:135).
  The rule leaves 22:00–22:29 and 23:00–23:29 shut
  (`MonitoringWindow.WindowVersusAnnounced`); for example 22:15 lies inside
  the announced window but the gate is shut (`Scenarios.QuarterPastTenIsShut`).
- A fetch error is handled differently by the two entry points. In `init.py`
  the exception reaches the `except` of `main` (init.py:203-204) and the tick
  ends with no email and no state change (`YfinanceMonitor.RaisedFetchIsNoOp`).
  In `init/__init__.py`, `get_stock_data` catches it and returns `None`
  (init/__init__.py:191-199), so the tick goes on as "not listed" and a status
  email may go out (`HttpMonitor.FailedFetchMaySendStatus`).

## Model

| member | source | states |
|---|---|---|
| KstClock.Kst | init/__init__.py:21-24 | the Korean time of day at an instant is a valid hour/minute/second whose second-of-day is the instant plus nine hours, modulo one day |
| KstClock.KstInstantRoundTrip | init/__init__.py:21-24 | reading the clock at the instant built from a local time and day gives that local time back |
| KstClock.KstIsDaily | init/__init__.py:21-24 | the local time of day repeats every 86400 seconds |
| MonitoringWindow.WindowByHour | init/__init__.py:26-38 | the gate is open for every minute of hours 0–5, shut for hours 6–20, and open in hours 21–23 exactly when the minute is at least 30 |
| MonitoringWindow.WindowVersusAnnounced | init/__init__.py:32-34 | the gate equals the announced 21:30–06:00 window minus the first half of hours 22 and 23, and is never open outside the announced window |
| MonitoringWindow.TenPastTenIsShut | init/__init__.py:33-34 | 22:10 lies inside the announced window but the gate is shut |
| MonitoringWindow.OpenAtIsDaily | init/__init__.py:26-31 | the gate gives the same answer at an instant and 24 hours later |
| Cadence.CadenceRule | init/__init__.py:40-51 | a status email is due when none was sent yet, otherwise exactly when at least 3600 seconds have elapsed; not due at 3599, due at 3600 |
| Cadence.RecordNotification | init/__init__.py:53-56 | after recording a notification at `now`, the next one is due exactly from `now + 3600` on, and the monitoring flags are kept |
| Mailer.SendEmailAlert | init/__init__.py:58-86 | delivery happens exactly when sender, receiver and password are all set and non-empty, the port parses and the SMTP session succeeds; missing credentials fail without connecting; a bad port raises |
| ChartResponse.ReadChart | init/__init__.py:162-185 | a snapshot is produced exactly when `chart.result[0].meta.regularMarketPrice` exists and is not null; its price is that value, and currency and exchange are the meta fields or "USD" / "Unknown" |
| ChartResponse.GetStockData | init/__init__.py:151-199 | a snapshot exactly for an HTTP 200 whose body decodes and carries a live price; timeout, network error, other exception, non-200 or undecodable body give none |
| HttpMonitor.Classify | init/__init__.py:224-226 | the HTTP entry point never sees a failed fetch, and treats the quote as listed exactly when `get_stock_data` returned a snapshot |
| HttpMonitor.HttpTick | init/__init__.py:201-258 | a confirmation is attempted only on a decoded 200 response with a live price; any other fetched response takes the status-email path, which the cadence decides |
| HttpMonitor.FailuresReadAsNotListed | init/__init__.py:187-199 | a timeout, network error, other exception, non-200 status or undecodable body reads as not listed |
| HttpMonitor.FailedFetchMaySendStatus | init/__init__.py:241-255 | inside the window a failed request attempts a status email when the cadence allows; a delivered one sets the notification time to `now`; the flags do not change |
| HttpMonitor.UndeliverableSendKeepsState | init/__init__.py:58-68 | with a credential missing or the SMTP port unparsable, the send reports no delivery and the HTTP tick leaves the state unchanged, for every response and SMTP outcome |
| HttpMonitor.LivePriceConfirms | init/__init__.py:226-240 | a live quote inside the window attempts the confirmation; delivered, it stops the monitor and keeps the notification time; failed, nothing changes |
| Monitor.ConfirmListing | init/__init__.py:233-237 | after a delivered confirmation monitoring is inactive and the listing is confirmed, so the monitor no longer runs; the notification time is kept |
| Monitor.Tick | init/__init__.py:201-258 | a fetch happens exactly when monitoring runs and the gate is open; the state changes exactly when an email is delivered; a confirmation needs a listed quote; a status email needs no listing and a due cadence; the notification time moves exactly on a delivered status email, to `now`; a delivered confirmation sets the confirmed flag and clears the active one; consistency is preserved |
| Monitor.StoppedTick | init/__init__.py:205-208 | when stopped or confirmed, the tick fetches nothing, sends nothing and changes nothing |
| Monitor.ClosedWindowTick | init/__init__.py:217-220 | outside the window, the tick fetches nothing, sends nothing and changes nothing |
| Monitor.ListedTick | init/__init__.py:226-240 | on a listing the confirmation is attempted; delivered, both terminal flags are set and the notification time kept; failed, the state is unchanged |
| Monitor.NotListedTick | init/__init__.py:241-255 | with no listing, a status email is attempted exactly when due; the notification time becomes `now` only on delivery; the flags never change |
| Monitor.FetchFailedTick | init.py:203-204 | an exception out of the fetch step ends the tick with no email and no change |
| Runs.Run | init/__init__.py:16-19 | across a run of ticks, every state stays consistent if the first one is, and every delivered confirmation leaves the monitor stopped |
| Runs.StoppedStaysStopped | init/__init__.py:205-208 | from a stopped or confirmed state, every further tick is idle |
| Runs.StopIsPermanent | init/__init__.py:233-238 | in any run, every tick after one that leaves the monitor stopped is idle and leaves that state as it is |
| Runs.AtMostOneConfirmation | init/__init__.py:231-238 | in any run the confirmation email is delivered at most once |
| Runs.StatusAfterLastNotification | init/__init__.py:245-250 | every status email delivered after a notification at `t0` falls at or after `t0 + 3600` |
| Runs.StatusSpacing | init/__init__.py:40-51 | any two status emails delivered in one run are at least 3600 seconds apart, whatever instants the ticks carry |
| Runs.ReachableStatesConsistent | init/__init__.py:16-19 | from the start-up values, no reachable state has the listing confirmed while monitoring is active |
| Scenarios.StatusAtWindowOpening | init/__init__.py:241-253 | at 21:30 with nothing sent and a timed-out request, the status email is delivered and recorded at that instant |
| Scenarios.QuarterPastTenIsShut | init/__init__.py:33-38 | at 22:15 after a 21:30 notification the gate is shut, so nothing is fetched or sent |
| Scenarios.ListingConfirmedAt2231 | init/__init__.py:226-238 | at 22:31 with a live quote the confirmation is delivered and the monitor stops |
| Scenarios.MorningIsShut | init/__init__.py:217-220 | at 10:00 nothing is fetched or sent and nothing changes |
| YfinanceMonitor.Classify | init.py:169-173 | an exception from the library reads as a failed fetch, a non-empty frame as listed, an empty one as not listed |
| YfinanceMonitor.YfTick | init.py:149-204 | an exception from the library leaves the state unchanged with no email; a confirmation needs a non-empty frame |
| YfinanceMonitor.GateRule | init.py:24-36 | this entry point fetches exactly when monitoring runs and either the hour is at least 21 with the minute at least 30, or the hour is before 6 |
| YfinanceMonitor.CadenceRule | init.py:38-49 | with an empty frame inside the window, a status email is attempted exactly when none was delivered yet or at least 3600 seconds have passed |
| YfinanceMonitor.StoppedIsNoOp | init.py:152-155 | a stopped or confirmed monitor is idle on this entry point |
| YfinanceMonitor.ClosedWindowIsNoOp | init.py:164-167 | outside the window this entry point is idle |
| YfinanceMonitor.NonEmptyFrameConfirms | init.py:173-186 | a non-empty frame attempts the confirmation; delivered, both terminal flags are set; failed, nothing changes |
| YfinanceMonitor.EmptyFrameNotifies | init.py:187-201 | with an empty frame only the notification time can change, and only to `now` after a delivered status email |
| YfinanceMonitor.RaisedFetchIsNoOp | init.py:169-171 | an exception from the library inside the window ends the tick with no email and no change |

## Left out

- The HTTP request itself (URL, headers, 10-second timeout) and JSON decoding. The response is an abstract `HttpOutcome` carrying a decoded body or "did not decode".
- JSON numbers are integers and the price is never read. Only whether a price is present matters to the monitor.
- The yfinance call. Its result is a frame with a row count, and `data.empty` is read as "no rows".
- The SMTP session, STARTTLS, login, MIME construction and the HTML email bodies. A send is a boolean; `Mailer` only models the credential and port checks.
- `Mailer.SendEmailAlert`: whether `int()` accepts `SMTP_PORT` is an input flag, not a model of Python's integer parser.
- Environment lookup, the SMTP host and port defaults, and the subject line are not modelled.
- `KstClock.Kst`: uses the fixed +9:00 offset Korea has kept since October 1988; the earlier +8:30 period and the 1987-88 daylight saving are not modelled, as the monitor never reads such instants.
- The clock. `now` is a parameter in whole seconds. Sub-second differences in `total_seconds()` are not modelled.
- The separate clock reads. The source reads the clock again inside the gate, the cadence check and the update of the notification time. The model uses the tick's single `now` for all of them.
- Logging.
- The Azure timer binding.
- `scheduler_test.py` and `test_local.py`: the local busy-loop scheduler and log-file harness. They are glue with no logic of their own.
- Concurrency. Ticks are assumed to run one at a time.
- Process restarts. They reset the globals to `State.Initial`, and the multi-tick guarantees hold only within one process.
