/** The lifecycle states of a flow run and the orchestration rule table. */
module States {

  datatype StateType =
    | Scheduled | Pending | Running | Completed | Failed | Crashed | Cancelling | Cancelled | Paused

  function AllowedTransitions(from: StateType): set<StateType> {
    match from
    case Scheduled => {Pending, Running, Cancelling, Cancelled, Paused, Scheduled}
    case Pending => {Running, Scheduled, Crashed, Cancelling, Cancelled, Failed}
    case Running => {Completed, Failed, Crashed, Cancelling, Cancelled, Scheduled, Paused}
    case Paused => {Scheduled, Running, Cancelled, Cancelling}
    case Cancelling => {Cancelled, Completed, Failed, Crashed}
    case Crashed => {Scheduled, Failed, Cancelled}
    case Completed => {Scheduled}
    case Failed => {Scheduled}
    case Cancelled => {Scheduled}
  }

  predicate CanTransition(from: StateType, to: StateType) { to in AllowedTransitions(from) }

  predicate IsTerminal(s: StateType) { s in {Completed, Failed, Cancelled} }

  /** The states in which a worker owns the run and keeps its lease alive. */
  predicate IsHeld(s: StateType) { s in {Running, Pending, Cancelling} }

  /** The states that count against a queue's concurrency limit. */
  predicate IsActive(s: StateType) { s in {Running, Pending} }

  /** A terminal run can only go back on the queue. */
  lemma TerminalOnlyRequeues(from: StateType, to: StateType)
    requires IsTerminal(from)
    ensures CanTransition(from, to) <==> to == Scheduled
  {
  }

  /** The table by where a run may come from. Only a run that is held can crash; all that
      is not over can be cancelled at once, and all but what is being cancelled can be
      put back on the queue. */
  lemma WhereFrom(from: StateType)
    ensures CanTransition(from, Pending) <==> from == Scheduled
    ensures CanTransition(from, Running) <==> from in {Scheduled, Pending, Paused}
    ensures CanTransition(from, Completed) <==> from in {Running, Cancelling}
    ensures CanTransition(from, Failed) <==> IsHeld(from) || from == Crashed
    ensures CanTransition(from, Crashed) <==> IsHeld(from)
    ensures CanTransition(from, Cancelling) <==> from in {Scheduled, Pending, Running, Paused}
    ensures CanTransition(from, Cancelled) <==> !IsTerminal(from)
    ensures CanTransition(from, Paused) <==> from in {Scheduled, Running}
    ensures CanTransition(from, Scheduled) <==> from != Cancelling
  {
  }

  /** A history in which every step is permitted by the table. */
  ghost predicate LawfulHistory(h: seq<StateType>) {
    forall i | 0 <= i < |h| - 1 :: CanTransition(h[i], h[i + 1])
  }

  /** No lawful history reaches COMPLETED from the queue without ever having
      been RUNNING or CANCELLING in between: success is never invented. */
  lemma {:induction false} SuccessNeedsExecution(h: seq<StateType>)
    requires |h| > 0 && h[0] == Scheduled && h[|h| - 1] == Completed
    requires LawfulHistory(h)
    ensures exists i :: 0 < i < |h| - 1 && h[i] in {Running, Cancelling}
  {
    var n := |h| - 1;
    assert CanTransition(h[n - 1], h[n]);
    assert h[n - 1] in {Running, Cancelling};
  }
}
