/** Sequences of ticks, as the timer delivers them one after another to the
    same process, and the guarantees that hold across them. */
module Runs {
  import opened State
  import opened Cadence
  import opened Monitor

  /** What one tick is given: its instant, what the fetch would report and
      whether the send would succeed. */
  datatype Input = Input(now: int, fetch: Listing, sendOk: bool)

  /** The results of feeding `ins` to the monitor from state `s`, one per tick. */
  function Run(s: MonitorState, ins: seq<Input>): (log: seq<TickResult>)
    ensures |log| == |ins|
    ensures s.Consistent() ==> forall i :: 0 <= i < |log| ==> log[i].next.Consistent()
    ensures forall i :: 0 <= i < |log| && log[i].send.Delivered(Confirmation) ==> !log[i].next.Running()
    decreases |ins|
  {
    if |ins| == 0 then []
    else
      var r := Tick(s, ins[0].now, ins[0].fetch, ins[0].sendOk);
      [r] + Run(r.next, ins[1..])
  }

  /** After tick `k`, the rest of the run is the run from the state tick `k`
      left behind. */
  lemma {:induction false} RunSuffix(s: MonitorState, ins: seq<Input>, k: int)
    requires 0 <= k < |ins|
    ensures Run(s, ins)[k + 1..] == Run(Run(s, ins)[k].next, ins[k + 1..])
    decreases k
  {
    var r := Tick(s, ins[0].now, ins[0].fetch, ins[0].sendOk);
    assert Run(s, ins) == [r] + Run(r.next, ins[1..]);
    if k > 0 {
      RunSuffix(r.next, ins[1..], k - 1);
      assert ins[1..][k..] == ins[k + 1..];
    }
  }

  /** A stopped monitor stays stopped for any number of ticks, with no fetch,
      no email and no state change on any of them. */
  lemma {:induction false} StoppedStaysStopped(s: MonitorState, ins: seq<Input>)
    requires !s.Running()
    ensures forall i :: 0 <= i < |ins| ==> Run(s, ins)[i] == Idle(s)
    decreases |ins|
  {
    if |ins| > 0 {
      StoppedTick(s, ins[0].now, ins[0].fetch, ins[0].sendOk);
      StoppedStaysStopped(s, ins[1..]);
    }
  }

  /** Stopping is permanent within a run: every tick after one that leaves
      the monitor stopped is idle. */
  lemma StopIsPermanent(s: MonitorState, ins: seq<Input>)
    ensures var log := Run(s, ins);
      forall i, j :: 0 <= i < j < |log| && !log[i].next.Running() ==> log[j] == Idle(log[i].next)
  {
    var log := Run(s, ins);
    forall i, j | 0 <= i < j < |log| && !log[i].next.Running()
      ensures log[j] == Idle(log[i].next)
    {
      RunSuffix(s, ins, i);
      StoppedStaysStopped(log[i].next, ins[i + 1..]);
      assert log[j] == log[i + 1..][j - i - 1];
    }
  }

  /** The confirmation email is delivered at most once per process, however
      many ticks follow it, even at the same instant. */
  lemma AtMostOneConfirmation(s: MonitorState, ins: seq<Input>)
    ensures var log := Run(s, ins);
      forall i, j ::
        (0 <= i < |log| && 0 <= j < |log|
         && log[i].send.Delivered(Confirmation) && log[j].send.Delivered(Confirmation)) ==> i == j
  {
    StopIsPermanent(s, ins);
  }

  /** Every status email delivered in a run from a state that has already
      notified at `t0` is at least one interval after `t0`. */
  lemma {:induction false} StatusAfterLastNotification(s: MonitorState, ins: seq<Input>)
    requires s.lastNotification.Some?
    ensures var log := Run(s, ins);
      forall j :: 0 <= j < |log| && log[j].send.Delivered(Status) ==>
        ins[j].now >= s.lastNotification.value + NotificationIntervalSeconds
    decreases |ins|
  {
    if |ins| > 0 {
      var r := Tick(s, ins[0].now, ins[0].fetch, ins[0].sendOk);
      assert Run(s, ins) == [r] + Run(r.next, ins[1..]);
      StatusAfterLastNotification(r.next, ins[1..]);
      if r.send.Delivered(Status) {
        assert ins[0].now >= s.lastNotification.value + NotificationIntervalSeconds;
      }
      assert forall j :: 1 <= j < |ins| ==> ins[1..][j - 1] == ins[j];
    }
  }

  /** Any two status emails delivered in one run are at least 3600 seconds
      apart, whatever instants the ticks carry. */
  lemma {:induction false} StatusSpacing(s: MonitorState, ins: seq<Input>)
    ensures var log := Run(s, ins);
      forall i, j ::
        (0 <= i < j < |log| && log[i].send.Delivered(Status) && log[j].send.Delivered(Status)) ==>
        ins[j].now - ins[i].now >= NotificationIntervalSeconds
    decreases |ins|
  {
    if |ins| > 0 {
      var r := Tick(s, ins[0].now, ins[0].fetch, ins[0].sendOk);
      assert Run(s, ins) == [r] + Run(r.next, ins[1..]);
      StatusSpacing(r.next, ins[1..]);
      if r.send.Delivered(Status) {
        StatusAfterLastNotification(r.next, ins[1..]);
      }
      assert forall j :: 1 <= j < |ins| ==> ins[1..][j - 1] == ins[j];
    }
  }

  /** From process start, every reachable state keeps the confirmation flag
      and the active flag consistent. */
  lemma ReachableStatesConsistent(ins: seq<Input>)
    ensures forall i :: 0 <= i < |ins| ==> Run(Initial, ins)[i].next.Consistent()
  {
  }
}
