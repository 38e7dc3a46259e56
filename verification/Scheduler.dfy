/** The scheduler's janitor, which reclaims the runs of silent workers. */
module Scheduler {
  import opened Base
  import opened States
  import opened Rows
  import opened S = Store

  // ----------------------------------------------------------------- janitor ---

  /** Retry or fail a crashed run: one attempt more than its retry budget. */
  function AfterCrash(r: Run, now: Time): Intent {
    if r.runCount <= r.retries + 1 then
      Requeue("AwaitingRetry", now + if r.retryDelay > 0 then r.retryDelay else 10 * SECOND)
    else End(DidFail)
  }

  /** What one janitor pass does to a row. */
  function Swept(r: Run, now: Time): Run {
    if Expired(r, now) then Written(Crash(r), AfterCrash(r, now)) else r
  }

  /** The same in the row's own columns: a silent worker's run is requeued after its own
      delay, or ten seconds, while its attempts exceed its retries by one at most, and
      failed beyond that. */
  predicate SweptTo(r: Run, now: Time, t: Run) {
    if r.state in {Running, Pending, Cancelling} && r.lease.Some? && r.lease.value < now then
      if r.runCount > r.retries + 1 then
        t == r.(state := Failed, stateName := "Failed", worker := None, lease := None)
      else
        && t == r.(state := Scheduled, stateName := "AwaitingRetry", scheduledAt := t.scheduledAt,
                  worker := None, lease := None)
        && (r.retryDelay > 0 ==> t.scheduledAt == now + r.retryDelay)
        && (r.retryDelay <= 0 ==> t.scheduledAt == now + 10_000_000_000)
    else t == r
  }

  lemma SweptIs(r: Run, now: Time)
    ensures SweptTo(r, now, Swept(r, now))
  {
  }

  /** reclaim: every run whose lease has lapsed, and no other, is crashed and
      then requeued or failed in the same pass. */
  method Reclaim(st: S.Store, now: Time)
    modifies st`rows
    ensures |st.rows| == |old(st.rows)|
    ensures forall i | 0 <= i < |st.rows| :: SweptTo(old(st.rows)[i], now, st.rows[i])
    ensures forall i | 0 <= i < |st.rows| :: st.rows[i] == Swept(old(st.rows)[i], now)
  {
    ghost var rows0 := st.rows;
    var crashed := st.ReclaimExpiredLeases(now);
    for k := 0 to |crashed|
      invariant |st.rows| == |rows0|
      invariant forall i | 0 <= i < |rows0| && i in crashed[..k] :: st.rows[i] == Swept(rows0[i], now)
      invariant forall i | 0 <= i < |rows0| && i !in crashed[..k] ::
                  st.rows[i] == if Expired(rows0[i], now) then Crash(rows0[i]) else rows0[i]
    {
      var id := crashed[k];
      assert id in crashed;
      assert id !in crashed[..k];
      assert crashed[..k + 1] == crashed[..k] + [id];
      var _ := st.SetFlowRunState(id, AfterCrash(st.rows[id], now), true);
    }
    assert crashed[..|crashed|] == crashed;
    forall i | 0 <= i < |rows0| ensures SweptTo(rows0[i], now, st.rows[i]) {
      SweptIs(rows0[i], now);
    }
  }
}
