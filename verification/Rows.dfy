/** One row of the flow-run table and the effect of each SQL statement on it. */
module Rows {
  import opened Base
  import opened States

  /** A run is named by its row number; the table only ever grows. */
  type RunId = nat

  const PUSH_HOLDER := "push-dispatch"

  datatype Run = Run(
    id: string,
    state: StateType,
    stateName: string,
    queue: string,
    priority: int,
    position: Option<int>,
    scheduledAt: Time,
    createdAt: Time,
    runCount: nat,
    retries: int,
    retryDelay: Time,
    worker: Option<string>,
    lease: Option<Time>,
    result: Option<Val>,
    cancel: bool,
    parent: Option<RunId>,
    deployment: Option<string>,
    idemKey: Option<string>)

  datatype Queue = Queue(paused: bool, limit: Option<int>)

  /** What a caller of CreateFlowRun supplies; `id` is the freshly drawn UUID. */
  datatype NewRun = NewRun(
    id: string,
    queue: string,
    priority: int,
    scheduledAt: Time,
    retries: int,
    retryDelay: Time,
    parent: Option<RunId>,
    deployment: Option<string>,
    idemKey: Option<string>)

  // ------------------------------------------------------------ creation ---

  function FreshRow(n: NewRun, now: Time): Run {
    Run(n.id, Scheduled, "Scheduled",
        if n.queue == "" then "default" else n.queue,
        if n.priority == 0 then 50 else n.priority,
        None, n.scheduledAt, now, 0, n.retries, n.retryDelay,
        None, None, None, false, n.parent, n.deployment, n.idemKey)
  }

  /** The row holding an idempotency key, if there is one. */
  function FindKey(rows: seq<Run>, key: string): (i: Option<RunId>)
    ensures i.Some? ==> i.value < |rows| && rows[i.value].idemKey == Some(key)
    ensures i.None? ==> forall j | 0 <= j < |rows| :: rows[j].idemKey != Some(key)
  {
    if rows == [] then None
    else if rows[|rows| - 1].idemKey == Some(key) then Some(|rows| - 1)
    else FindKey(rows[..|rows| - 1], key)
  }

  /** INSERT ... ON CONFLICT (idempotency_key) DO NOTHING, then the SELECT of the
      existing row: the new table and the row the caller is handed. */
  function Insert(rows: seq<Run>, n: NewRun, now: Time): (seq<Run>, RunId) {
    if n.idemKey.Some? && FindKey(rows, n.idemKey.value).Some? then
      (rows, FindKey(rows, n.idemKey.value).value)
    else
      (rows + [FreshRow(n, now)], |rows|)
  }

  // ------------------------------------------------- conditional updates ---

  /** The shapes of state change that callers of SetFlowRunState ask for. */
  datatype Ending = DidComplete(result: Option<Val>) | DidFail | DidCancel

  datatype Intent =
    | ClaimPush(w: string)
    | Start(w: string)
    | Requeue(name: string, at: Time)
    | End(e: Ending)

  function Target(i: Intent): StateType {
    match i
    case ClaimPush(_) => Pending
    case Start(_) => Running
    case Requeue(_, _) => Scheduled
    case End(DidComplete(_)) => Completed
    case End(DidFail) => Failed
    case End(DidCancel) => Cancelled
  }

  datatype Verdict = NoOp | Invalid | Proceed

  /** What SetFlowRunState decides from the state it read. */
  function Judge(read: StateType, target: StateType, force: bool): Verdict {
    if read == target && target != Scheduled then NoOp
    else if !force && !CanTransition(read, target) then Invalid
    else Proceed
  }

  /** The columns the conditional UPDATE writes. */
  function Written(r: Run, i: Intent): Run {
    match i
    case ClaimPush(w) =>
      r.(state := Pending, stateName := "Pending", worker := Some(w), runCount := r.runCount + 1)
    case Start(w) =>
      r.(state := Running, stateName := "Running", worker := Some(w))
    case Requeue(l, at) =>
      r.(state := Scheduled, stateName := l, scheduledAt := at, worker := None, lease := None)
    case End(DidComplete(v)) =>
      r.(state := Completed, stateName := "Completed", worker := None, lease := None,
         result := if v.Some? then v else r.result)
    case End(DidFail) =>
      r.(state := Failed, stateName := "Failed", worker := None, lease := None)
    case End(DidCancel) =>
      r.(state := Cancelled, stateName := "Cancelled", worker := None, lease := None)
  }

  // ---------------------------------------------------------- statements ---

  /** Listed by PendingInQueue. */
  predicate Waiting(r: Run, q: string) { r.queue == q && r.state == Scheduled && !r.cancel }

  /** Eligible for LeaseFlowRuns. */
  predicate Due(r: Run, q: string, now: Time) { Waiting(r, q) && r.scheduledAt <= now }

  function Leased(r: Run, w: string, exp: Time): Run {
    r.(state := Pending, stateName := "Pending", worker := Some(w), lease := Some(exp), runCount := r.runCount + 1)
  }

  predicate Renewable(r: Run, w: string) { r.worker == Some(w) && IsHeld(r.state) }

  function Renewed(r: Run, exp: Time): Run { r.(lease := Some(exp)) }

  /** User code may be running. */
  predicate InCode(r: Run) { r.state in {Running, Cancelling} }

  predicate Expired(r: Run, now: Time) { IsHeld(r.state) && r.lease.Some? && r.lease.value < now }

  function Crash(r: Run): Run { r.(state := Crashed, stateName := "Crashed", worker := None, lease := None) }

  predicate Holdable(r: Run, now: Time) {
    r.state == Scheduled && (r.worker.None? || r.lease.None? || r.lease.value < now)
  }

  function Held(r: Run, exp: Time): Run { r.(worker := Some(PUSH_HOLDER), lease := Some(exp)) }

  predicate Releasable(r: Run) { r.state == Scheduled && r.worker == Some(PUSH_HOLDER) }

  function Released(r: Run): Run { r.(worker := None, lease := None) }

  function CancelRequested(r: Run): Run {
    match r.state
    case Scheduled => r.(cancel := true, state := Cancelled, stateName := "Cancelled")
    case Running => r.(cancel := true, state := Cancelling, stateName := "Cancelling")
    case Pending => r.(cancel := true, state := Cancelling, stateName := "Cancelling")
    case _ => r.(cancel := true)
  }

  function Rescheduled(r: Run, at: Time): Run {
    r.(state := Scheduled, stateName := "Scheduled", scheduledAt := at, worker := None, lease := None, cancel := false)
  }

  function Resumed(r: Run, at: Time): Run { r.(scheduledAt := at) }

  /** Operator queue controls that never touch the state. */
  datatype Edit = SetPriority(p: int) | Pin(at: int) | Unpin | ToBack(at: Time) | MoveTo(q: string)

  function Edited(r: Run, e: Edit): Run {
    match e
    case SetPriority(p) => r.(priority := Min(Max(p, 0), 100))
    case Pin(at) => r.(position := Some(at))
    case Unpin => r.(position := None)
    case ToBack(at) => r.(position := None, priority := Max(r.priority - 25, 0), scheduledAt := at)
    case MoveTo(q) => r.(queue := q, position := None)
  }
}
