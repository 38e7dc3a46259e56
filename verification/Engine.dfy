/** Executing a leased run and settling its outcome. */
module Engine {
  import opened Base
  import opened States
  import opened Rows
  import opened S = Store

  /** How user code came back: a value, or an error with the marks it carries
      (a wrapped error may carry several). */
  datatype Outcome =
    | Returned(result: Option<Val>)
    | Raised(suspend: Option<Time>, cancelled: bool, permanent: bool)

  /** The flow's own defaults. */
  datatype FlowDef = FlowDef(retries: int, retryDelay: Time)

  /** A run's own retry budget, or the flow's when it has none. */
  function Budget(r: Run, f: FlowDef): int { if r.retries == 0 then f.retries else r.retries }

  function RetryPause(r: Run, f: FlowDef): Time {
    if r.retryDelay > 0 then r.retryDelay
    else if f.retryDelay > 0 then f.retryDelay
    else 30 * SECOND
  }

  /** What cancelRequested sees in a row. */
  predicate CancelSeen(r: Run) { r.cancel || r.state == Cancelling || r.state == Cancelled }

  /** The transition an outcome calls for. `run` is the row as the start wrote it. */
  function Settlement(run: Run, f: FlowDef, now: Time, cancelSeen: bool, o: Outcome): Intent {
    if o.Raised? && o.suspend.Some? then Requeue("Suspended", o.suspend.value)
    else if cancelSeen || (o.Raised? && o.cancelled) then End(DidCancel)
    else if o.Returned? then End(DidComplete(o.result))
    else if !o.permanent && run.runCount <= Budget(run, f) then
      Requeue("AwaitingRetry", now + RetryPause(run, f) * run.runCount)
    else End(DidFail)
  }

  /** Only the cancelled settlement is forced from the outset. */
  predicate ForcedAtOnce(i: Intent) { i == End(DidCancel) }

  /** A row settled with the given intent: written, or already in that state. */
  function SettledRow(r: Run, i: Intent): Run {
    if r.state == Target(i) && Target(i) != Scheduled then r else Written(r, i)
  }

  // --------------------------------------------------------- waking a parent ---

  predicate Unfinished(r: Run, parent: RunId) { r.parent == Some(parent) && !IsTerminal(r.state) }

  /** A waiting parent none of whose children is left unfinished. */
  predicate ReadyToWake(rows: seq<Run>, parent: RunId) {
    && parent < |rows| && rows[parent].state == Scheduled
    && forall c | 0 <= c < |rows| :: !Unfinished(rows[c], parent)
  }

  function Woken(rows: seq<Run>, parent: RunId, now: Time): seq<Run> {
    if ReadyToWake(rows, parent) then rows[parent := Resumed(rows[parent], now)] else rows
  }

  /** resumeParentIfReady: the wake-up moves only a waiting parent's time, and
      only when no child of it is left unfinished. */
  method ResumeParentIfReady(st: S.Store, parent: RunId, now: Time)
    modifies st`rows
    ensures st.rows == Woken(old(st.rows), parent, now)
    ensures |st.rows| == |old(st.rows)| && forall j | 0 <= j < |st.rows| && j != parent :: st.rows[j] == old(st.rows)[j]
    ensures parent < |st.rows| ==>
      st.rows[parent] ==
      if old(st.rows)[parent].state == Scheduled
         && forall c | 0 <= c < |st.rows| && old(st.rows)[c].parent == Some(parent) ::
              old(st.rows)[c].state in {Completed, Failed, Cancelled}
      then old(st.rows)[parent].(scheduledAt := now) else old(st.rows)[parent]
  {
    var n := 0;
    for c := 0 to |st.rows|
      invariant n >= 0 && (n == 0 <==> forall k | 0 <= k < c :: !Unfinished(st.rows[k], parent))
    {
      if Unfinished(st.rows[c], parent) {
        n := n + 1;
      }
    }
    if n > 0 {
      return;
    }
    var _ := st.ResumeSuspendedRun(parent, now);
  }

  // ---------------------------------------------------------------- settling ---

  /** The table after a run is settled: its row, and the time of its parent if this
      ended the last child the parent waits for. */
  function SettledRows(rows: seq<Run>, id: RunId, i: Intent, now: Time): seq<Run>
    requires id < |rows|
  {
    var rows' := rows[id := SettledRow(rows[id], i)];
    if IsTerminal(Target(i)) && rows[id].parent.Some? then Woken(rows', rows[id].parent.value, now) else rows'
  }

  /** settle: try once by the rules, then once by force, then wake the parent. */
  method Settle(st: S.Store, id: RunId, i: Intent, force: bool, now: Time)
    modifies st`rows
    ensures id >= |old(st.rows)| ==> st.rows == old(st.rows)
    ensures id < |old(st.rows)| ==> st.rows == SettledRows(old(st.rows), id, i, now)
  {
    var res := st.SetFlowRunState(id, i, force);
    if res != Changed && res != Unchanged {
      res := st.SetFlowRunState(id, i, true);
    }
    if res != Changed && res != Unchanged {
      return;
    }
    assert st.rows == old(st.rows)[id := SettledRow(old(st.rows)[id], i)];
    assert st.rows[id].parent == old(st.rows)[id].parent;
    if IsTerminal(Target(i)) && st.rows[id].parent.Some? {
      ResumeParentIfReady(st, st.rows[id].parent.value, now);
    }
  }

  /** How a finish leaves the row that it finds as `r0`, in the row's own columns.
      A suspension comes first, then a cancellation, asked for or reported, and only
      then does it matter how the flow came back. */
  predicate FinishLeaves(r0: Run, run: Run, f: FlowDef, o: Outcome, now: Time, r1: Run) {
    && r1 == r0.(state := r1.state, stateName := r1.stateName, scheduledAt := r1.scheduledAt,
                 worker := r1.worker, lease := r1.lease, result := r1.result)
    && if o.Raised? && o.suspend.Some? then
         && r1.state == Scheduled && r1.stateName == "Suspended" && r1.scheduledAt == o.suspend.value
         && r1.worker.None? && r1.lease.None? && r1.result == r0.result
       else if r0.cancel || r0.state in {Cancelling, Cancelled} || (o.Raised? && o.cancelled) then
         r1.state == Cancelled && r1.result == r0.result && r1.scheduledAt == r0.scheduledAt
       else if o.Returned? then
         && r1.state == Completed && r1.scheduledAt == r0.scheduledAt
         && (r0.state != Completed ==> r1.result == if o.result.Some? then o.result else r0.result)
       else if !o.permanent && run.runCount <= (if run.retries != 0 then run.retries else f.retries) then
         && r1.state == Scheduled && r1.stateName == "AwaitingRetry" && r1.worker.None? && r1.lease.None?
         && (run.retryDelay > 0 ==> r1.scheduledAt == now + run.retryDelay * run.runCount)
         && (run.retryDelay <= 0 < f.retryDelay ==> r1.scheduledAt == now + f.retryDelay * run.runCount)
         && (run.retryDelay <= 0 && f.retryDelay <= 0 ==> r1.scheduledAt == now + 30_000_000_000 * run.runCount)
       else r1.state == Failed && r1.result == r0.result && r1.scheduledAt == r0.scheduledAt
  }

  lemma FinishedRow(r0: Run, run: Run, f: FlowDef, o: Outcome, now: Time)
    ensures FinishLeaves(r0, run, f, o, now, SettledRow(r0, Settlement(run, f, now, CancelSeen(r0), o)))
  {
  }

  /** A run whose outcome is settled is written once: its own parent's time is the
      only other thing a settlement may change. */
  lemma OwnRowSettles(rows: seq<Run>, id: RunId, i: Intent, now: Time)
    requires id < |rows|
    ensures |SettledRows(rows, id, i, now)| == |rows| && SettledRows(rows, id, i, now)[id] == SettledRow(rows[id], i)
  {
  }

  method Finish(st: S.Store, id: RunId, run: Run, f: FlowDef, o: Outcome, now: Time)
    requires id < |st.rows|
    modifies st`rows
    ensures var i := Settlement(run, f, now, CancelSeen(old(st.rows)[id]), o);
      st.rows == SettledRows(old(st.rows), id, i, now)
    ensures |st.rows| == |old(st.rows)| && FinishLeaves(old(st.rows)[id], run, f, o, now, st.rows[id])
    ensures old(st.rows)[id].cancel || old(st.rows)[id].state in {Cancelling, Cancelled} ==>
      (st.rows[id].state == Cancelled <==> !(o.Raised? && o.suspend.Some?))
    ensures st.rows[id].state == Completed ==>
      o.Returned? && !old(st.rows)[id].cancel && old(st.rows)[id].state !in {Cancelling, Cancelled}
  {
    var i := Settlement(run, f, now, CancelSeen(st.rows[id]), o);
    FinishedRow(st.rows[id], run, f, o, now);
    OwnRowSettles(st.rows, id, i, now);
    Settle(st, id, i, ForcedAtOnce(i), now);
  }

  /** Execute, with nothing else touching the run meanwhile: `o` is what the flow
      function would come back with if it is called. */
  method Execute(st: S.Store, id: RunId, w: string, flow: Option<FlowDef>, o: Outcome, now: Time) returns (ran: bool)
    requires id < |st.rows|
    modifies st`rows
    ensures ran <==> flow.Some? && old(st.rows)[id].state in {Scheduled, Pending, Running, Paused}
    ensures flow.None? ==>
      st.rows == old(st.rows)[id := SettledRow(old(st.rows)[id], Requeue("AwaitingWorker", now + 30 * SECOND))]
    ensures ran ==>
      var started := SettledRow(old(st.rows)[id], Start(w));
      var i := Settlement(started, flow.value, now, CancelSeen(started), o);
      st.rows == SettledRows(old(st.rows)[id := started], id, i, now)
    ensures ran ==>
      var r := old(st.rows)[id];
      var started := if r.state == Running then r else r.(state := Running, stateName := "Running", worker := Some(w));
      |st.rows| == |old(st.rows)| && FinishLeaves(started, started, flow.value, o, now, st.rows[id])
    ensures flow.Some? && !ran ==> st.rows == old(st.rows)
  {
    if flow.None? {
      Settle(st, id, Requeue("AwaitingWorker", now + 30 * SECOND), false, now);
      return false;
    }
    var res := st.SetFlowRunState(id, Start(w), false);
    if res != Changed && res != Unchanged {
      return false;
    }
    assert st.rows == old(st.rows)[id := SettledRow(old(st.rows)[id], Start(w))];
    var run := st.rows[id];
    Finish(st, id, run, flow.value, o, now);
    ran := true;
  }

  /** A waiting parent is made due by the settlement of its last unfinished child and
      of no other; no third run is touched. */
  lemma LastChildWakes(rows: seq<Run>, id: RunId, p: RunId, i: Intent, now: Time)
    requires id < |rows| && p < |rows| && p != id && rows[id].parent == Some(p) && rows[p].state == Scheduled && i.End?
    ensures var t := SettledRows(rows, id, i, now);
      && |t| == |rows| && (forall j | 0 <= j < |rows| && j != id && j != p :: t[j] == rows[j])
      && t[p] == (if forall c | 0 <= c < |rows| && c != id && rows[c].parent == Some(p) ::
                       rows[c].state in {Completed, Failed, Cancelled}
                  then rows[p].(scheduledAt := now) else rows[p])
  {
    var rows' := rows[id := SettledRow(rows[id], i)];
    assert !Unfinished(rows'[id], p);
    if forall c | 0 <= c < |rows| && c != id :: !Unfinished(rows[c], p) {
      assert ReadyToWake(rows', p);
    } else {
      var c :| 0 <= c < |rows| && c != id && Unfinished(rows[c], p);
      assert Unfinished(rows'[c], p);
    }
  }

  /** Whatever the outcome, a settled run is waiting or terminal, holds no lease
      unless it was already terminal, and is COMPLETED only if the flow returned. */
  lemma SettledForGood(r: Run, run: Run, f: FlowDef, now: Time, o: Outcome)
    ensures var t := SettledRow(r, Settlement(run, f, now, CancelSeen(r), o));
      && (t.state == Scheduled || IsTerminal(t.state))
      && (!IsTerminal(r.state) ==> t.worker.None? && t.lease.None?)
      && (t.state == Completed ==> o.Returned?)
  {
  }

  /** A finish that finds the cancel flag, or the state an operator's request leaves,
      settles the run CANCELLED exactly when the flow did not suspend, whatever the
      flow returned or raised. */
  lemma CancelledUnlessSuspended(r: Run, run: Run, f: FlowDef, now: Time, o: Outcome)
    requires r.cancel || r.state in {Cancelling, Cancelled}
    ensures var t := SettledRow(r, Settlement(run, f, now, CancelSeen(r), o));
      && (t.state == Cancelled <==> !(o.Raised? && o.suspend.Some?))
      && (t.state == Scheduled ==> t.stateName == "Suspended" && t.scheduledAt == o.suspend.value)
  {
  }

  /** Once an operator asked to cancel a run, its finish neither completes it, nor
      fails it, nor has it tried again. */
  lemma CancelReachesFinish(r: Run, run: Run, f: FlowDef, now: Time, o: Outcome)
    ensures var asked := CancelRequested(r);
      var t := SettledRow(asked, Settlement(run, f, now, CancelSeen(asked), o));
      && t.state !in {Completed, Failed} && (t.state == Scheduled ==> t.stateName == "Suspended") && t.cancel
      && (r.state in {Running, Pending} ==>
            t.state == Cancelled || (t.state == Scheduled && o.Raised? && o.suspend.Some?))
  {
    var asked := CancelRequested(r);
    assert asked.cancel;
    FinishedRow(asked, run, f, o, now);
  }

  /** A plain failure goes back on the queue exactly while attempts do not exceed
      the budget, and then only for a time that has not come yet, the later the
      more attempts there were. */
  lemma RetryWaits(r: Run, f: FlowDef, now: Time, o: Outcome, more: nat)
    requires r.state == Running && !r.cancel && r.runCount >= 1
    requires o.Raised? && o.suspend.None? && !o.cancelled && !o.permanent
    ensures var t := SettledRow(r, Settlement(r, f, now, CancelSeen(r), o));
      && (t.state == Scheduled <==> r.runCount <= if r.retries != 0 then r.retries else f.retries)
      && (t.state == Scheduled ==> !Due(t, t.queue, now))
      && (t.state != Scheduled ==> t.state == Failed)
    ensures var s := r.(runCount := r.runCount + more + 1);
      s.runCount <= (if r.retries != 0 then r.retries else f.retries) ==>
        Settlement(r, f, now, CancelSeen(r), o).at < Settlement(s, f, now, CancelSeen(s), o).at
  {
    var pause := RetryPause(r, f);
    assert pause > 0;
    Scaled(pause, r.runCount, r.runCount + more + 1);
    assert RetryPause(r.(runCount := r.runCount + more + 1), f) == pause;
  }

  lemma Scaled(pause: int, a: nat, b: nat)
    requires pause > 0 && 1 <= a < b
    ensures 0 < pause * a < pause * b
  {
    assert pause * b == pause * a + pause * (b - a);
  }
}
