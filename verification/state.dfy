/** The process-wide monitoring state: the module-level globals
    `MONITORING_ACTIVE`, `LISTING_CONFIRMED` and `LAST_NOTIFICATION_TIME`. */
module State {
  import opened Options

  /** `lastNotification` is the UTC instant, in seconds, of the last status
      email that was delivered, if any. */
  datatype MonitorState = MonitorState(active: bool, listingConfirmed: bool, lastNotification: Option<int>) {

    /** A tick does any work only in this state; the entry guard of `main`
        returns at once otherwise. */
    predicate Running() {
      active && !listingConfirmed
    }

    /** Once the listing is confirmed, monitoring is off. */
    predicate Consistent() {
      listingConfirmed ==> !active
    }
  }

  /** The values the globals hold when the process starts. */
  const Initial: MonitorState := MonitorState(true, false, None)
}
