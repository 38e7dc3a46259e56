/** Finishing and cancelling a run when several workers think it is theirs. */
module Finishing {
  import opened Base
  import opened States
  import opened Rows
  import opened Protocol

  predicate Over(s: Sys, i: RunId) { i < |s.rows| && IsTerminal(s.rows[i].state) }

  /** This step is a write that takes effect and makes run `i` terminal. */
  ghost predicate Finishes(s: Sys, st: Step, i: RunId) {
    match st
    case Write(p, intent, force) => Applies(s, p, intent, force) && s.snaps[p].run == i && intent.End?
    case RequestCancel(j) => j == i && Free(s, i) && s.rows[i].state == Scheduled
    case _ => false
  }

  /** This step reopens a terminal run `i`: an operator's reschedule, or a write
      that takes effect and does not ask for a terminal state. */
  ghost predicate Reopens(s: Sys, st: Step, i: RunId) {
    && Over(s, i) && Free(s, i)
    && ((st.Reschedule? && st.i == i)
        || (st.Write? && Applies(s, st.p, st.intent, st.force) && s.snaps[st.p].run == i && !st.intent.End?))
  }

  /** Those are exactly the steps after which a terminal run no longer is one. */
  lemma ReopensExactly(s: Sys, st: Step, i: RunId)
    requires LocksSound(s)
    ensures Reopens(s, st, i) <==> Over(s, i) && !Over(Next(s, st), i)
  {
    if Over(s, i) {
      if st.Write? {
        if Applies(s, st.p, st.intent, st.force) {
          assert Next(s, st).rows == s.rows[s.snaps[st.p].run := Written(s.rows[s.snaps[st.p].run], st.intent)];
        }
      } else if SingleRow(st) {
        if Free(s, st.i) {
          assert Next(s, st).rows == s.rows[st.i := Touch(s.rows[st.i], s.now, st)];
          if st.i == i {
            OnlyRescheduleReopens(s.rows[i], s.now, st);
          }
        }
      } else {
        OverStays(s, st, i);
      }
    }
  }

  lemma OnlyRescheduleReopens(r: Run, now: Time, st: Step)
    requires SingleRow(st) && IsTerminal(r.state)
    ensures IsTerminal(Touch(r, now, st).state) <==> !st.Reschedule?
  {
  }

  lemma OverStays(s: Sys, st: Step, i: RunId)
    requires LocksSound(s) && Over(s, i) && !st.Write? && !SingleRow(st)
    ensures Over(Next(s, st), i)
  {
  }

  /** A forced write takes effect on run `i`. */
  ghost predicate ForcedOn(s: Sys, st: Step, i: RunId) {
    st.Write? && st.force && Applies(s, st.p, st.intent, true) && s.snaps[st.p].run == i
  }

  /** No step of the history forces a write on run `i`. */
  ghost predicate Unforced(s: Sys, steps: seq<Step>, i: RunId)
    decreases |steps|
  {
    steps == [] ||
    (!ForcedOn(s, steps[0], i)
     && Unforced(Next(s, steps[0]), steps[1..], i))
  }

  ghost function FinishCount(s: Sys, steps: seq<Step>, i: RunId): nat
    decreases |steps|
  {
    if steps == [] then 0 else Bit(Finishes(s, steps[0], i)) + FinishCount(Next(s, steps[0]), steps[1..], i)
  }

  ghost function ReopenCount(s: Sys, steps: seq<Step>, i: RunId): nat
    decreases |steps|
  {
    if steps == [] then 0 else Bit(Reopens(s, steps[0], i)) + ReopenCount(Next(s, steps[0]), steps[1..], i)
  }

  lemma FinishBalanceStep(s: Sys, st: Step, i: RunId)
    requires LocksSound(s) && i < |s.rows|
    requires !ForcedOn(s, st, i)
    ensures i < |Next(s, st).rows|
    ensures Bit(Finishes(s, st, i)) + Bit(Over(s, i)) == Bit(Reopens(s, st, i)) + Bit(Over(Next(s, st), i))
  {
    ReopensExactly(s, st, i);
    if st.Write? {
      if Applies(s, st.p, st.intent, st.force) && s.snaps[st.p].run == i {
        assert Next(s, st).rows[i] == Written(s.rows[i], st.intent);
      }
    } else if !st.RequestCancel? {
      QuietSteps(s, st, i);
    }
  }

  /** Apart from state changes and cancellation, no step finishes a run. */
  lemma QuietSteps(s: Sys, st: Step, i: RunId)
    requires LocksSound(s) && i < |s.rows| && !st.Write? && !st.RequestCancel?
    ensures i < |Next(s, st).rows|
    ensures Over(Next(s, st), i) ==> Over(s, i)
  {
  }

  /** Conservation: over any interleaving of any number of workers, the writes
      that finished a run and the steps that reopened it cancel out, leaving one
      exactly when the run is terminal now. A second finisher is never paid. */
  lemma {:induction false} FinishBalance(s: Sys, steps: seq<Step>, i: RunId)
    requires LocksSound(s) && i < |s.rows| && Unforced(s, steps, i)
    ensures FinishCount(s, steps, i) + Bit(Over(s, i)) == ReopenCount(s, steps, i) + Bit(Over(Exec(s, steps), i))
    decreases |steps|
  {
    if steps != [] {
      var st, s1 := steps[0], Next(s, steps[0]);
      FinishBalanceStep(s, st, i);
      LocksSoundStep(s, st);
      FinishBalance(s1, steps[1..], i);
    }
  }

  /** Single finisher: from a run in flight, with no forced write, no reschedule of
      the finished run and no requeue or start of it that takes effect, at most one
      terminal write takes effect, ever. */
  lemma {:induction false} SingleFinisher(s: Sys, steps: seq<Step>, i: RunId)
    requires LocksSound(s) && i < |s.rows| && s.rows[i].state in {Running, Cancelling}
    requires Unforced(s, steps, i) && ReopenCount(s, steps, i) == 0
    ensures FinishCount(s, steps, i) == Bit(Over(Exec(s, steps), i)) <= 1
  {
    FinishBalance(s, steps, i);
  }

  datatype WriteOutcome = Applied | Unchanged | Conflicted | Rejected | Blocked

  /** What the caller of SetFlowRunState is told. */
  function Outcome(s: Sys, p: string, intent: Intent, force: bool): WriteOutcome
    requires p in s.snaps
  {
    match Judge(s.snaps[p].state, Target(intent), force)
    case NoOp => Unchanged
    case Invalid => Rejected
    case Proceed =>
      if !Free(s, s.snaps[p].run) then Blocked
      else if s.rows[s.snaps[p].run].state == s.snaps[p].state then Applied
      else Conflicted
  }

  /** The losers of the race: whatever state they read and whenever they read it,
      an unforced finish of a terminal run is a no-op, a conflict or an invalid
      transition, and changes nothing. */
  lemma LosersLearn(s: Sys, p: string, e: Ending)
    requires p in s.snaps && Over(s, s.snaps[p].run) && LocksSound(s)
    ensures Outcome(s, p, End(e), false) in {Unchanged, Conflicted, Rejected}
    ensures Next(s, Write(p, End(e), false)) == s
  {
  }

  /** The rule-table hole the conservation law has to count: a worker whose run
      was finished by somebody else can requeue it, unforced. */
  lemma StaleRequeueReopens(s: Sys, p: string, name: string, at: Time)
    requires p in s.snaps && Free(s, s.snaps[p].run) && Over(s, s.snaps[p].run)
    requires s.snaps[p].state == s.rows[s.snaps[p].run].state
    ensures Reopens(s, Write(p, Requeue(name, at), false), s.snaps[p].run)
  {
  }

  lemma Unrolled(s: Sys, st: Step, rest: seq<Step>, i: RunId)
    ensures FinishCount(s, [st] + rest, i) == Bit(Finishes(s, st, i)) + FinishCount(Next(s, st), rest, i)
    ensures Unforced(Next(s, st), rest, i) && !(st.Write? && st.force) ==> Unforced(s, [st] + rest, i)
  {
    assert ([st] + rest)[1..] == rest;
  }

  /** Process `p` reads run `i` and writes, unforced. */
  function ReadThenWrite(p: string, i: RunId, intent: Intent): seq<Step> { [Read(p, i)] + [Write(p, intent, false)] }

  lemma ReadThenWriteApplies(s: Sys, p: string, i: RunId, intent: Intent, rest: seq<Step>) returns (t: Sys)
    requires Free(s, i) && Judge(s.rows[i].state, Target(intent), false).Proceed?
    ensures Free(t, i) && t.rows[i] == Written(s.rows[i], intent)
    ensures FinishCount(s, ReadThenWrite(p, i, intent) + rest, i) == Bit(intent.End?) + FinishCount(t, rest, i)
    ensures Unforced(t, rest, i) ==> Unforced(s, ReadThenWrite(p, i, intent) + rest, i)
  {
    var a, b := Read(p, i), Write(p, intent, false);
    var s1 := Next(s, a);
    t := Next(s1, b);
    assert ReadThenWrite(p, i, intent) + rest == [a] + ([b] + rest);
    Unrolled(s, a, [b] + rest, i);
    Unrolled(s1, b, rest, i);
  }

  /** Started and failed, once more. */
  function FailAgain(w: string, i: RunId): seq<Step> {
    ReadThenWrite(w, i, Start(w)) + (ReadThenWrite(w, i, End(DidFail)) + [])
  }

  lemma FailsAgain(s: Sys, i: RunId, w: string)
    requires Free(s, i) && s.rows[i].state == Scheduled
    ensures Unforced(s, FailAgain(w, i), i) && FinishCount(s, FailAgain(w, i), i) == 1
  {
    var rest := ReadThenWrite(w, i, End(DidFail)) + [];
    var s1 := ReadThenWriteApplies(s, w, i, Start(w), rest);
    var s2 := ReadThenWriteApplies(s1, w, i, End(DidFail), []);
  }

  /** Completed by `p`, requeued by `q`, which reads COMPLETED, started and failed by `w`. */
  function FinishTwice(p: string, q: string, w: string, i: RunId, at: Time): seq<Step> {
    ReadThenWrite(p, i, End(DidComplete(None)))
    + (ReadThenWrite(q, i, Requeue("AwaitingRetry", at)) + FailAgain(w, i))
  }

  /** Without that exclusion the claim is false of the code: with no forced write and
      no reschedule, two terminal writes take effect. */
  lemma TwoFinishers(s: Sys, i: RunId, p: string, q: string, w: string, at: Time)
    requires Free(s, i) && s.rows[i].state == Running
    ensures var steps := FinishTwice(p, q, w, i, at);
      Unforced(s, steps, i) && NotRescheduled(steps, i) && FinishCount(s, steps, i) == 2
  {
    var rest := ReadThenWrite(q, i, Requeue("AwaitingRetry", at)) + FailAgain(w, i);
    var s1 := ReadThenWriteApplies(s, p, i, End(DidComplete(None)), rest);
    var s2 := ReadThenWriteApplies(s1, q, i, Requeue("AwaitingRetry", at), FailAgain(w, i));
    FailsAgain(s2, i, w);
  }

  // ----------------------------------------------------------- cancellation ---

  /** No step of the history is an operator's reschedule of run `i`. */
  predicate NotRescheduled(steps: seq<Step>, i: RunId) {
    forall k | 0 <= k < |steps| :: !(steps[k].Reschedule? && steps[k].i == i)
  }

  lemma FlagStays(s: Sys, st: Step, i: RunId)
    requires LocksSound(s) && i < |s.rows| && s.rows[i].cancel
    requires !(st.Reschedule? && st.i == i)
    ensures i < |Next(s, st).rows| && Next(s, st).rows[i].cancel
  {
    if st.LeaseCommit? {
      assert i !in LockedBy(s, st.w);
    }
  }

  /** Cancellation is sticky: after the flag is set, whatever happens short of an
      operator's reschedule, the flag stays, and no lease statement of any worker
      has the run locked, so none can commit it. */
  lemma {:induction false} CancelIsSticky(s: Sys, steps: seq<Step>, i: RunId)
    requires LocksSound(s) && i < |s.rows| && s.rows[i].cancel
    requires NotRescheduled(steps, i)
    ensures var s' := Exec(s, steps); i < |s'.rows| && s'.rows[i].cancel && i !in s'.locks
    ensures forall w :: i !in LockedBy(Exec(s, steps), w)
    decreases |steps|
  {
    if steps != [] {
      assert !(steps[0].Reschedule? && steps[0].i == i);
      forall k | 0 <= k < |steps[1..]| ensures !(steps[1..][k].Reschedule? && steps[1..][k].i == i) {
        assert steps[1..][k] == steps[k + 1];
      }
      LocksSoundStep(s, steps[0]);
      FlagStays(s, steps[0], i);
      CancelIsSticky(Next(s, steps[0]), steps[1..], i);
    }
  }

  /** A claim or a start takes effect on the run. Neither looks at the flag. */
  ghost predicate Revives(s: Sys, st: Step, i: RunId) {
    && st.Write? && (st.intent.Start? || st.intent.ClaimPush?)
    && Applies(s, st.p, st.intent, st.force) && s.snaps[st.p].run == i
  }

  /** The only steps that make a flagged run active again are a start and a push claim. */
  lemma StaysDownStep(s: Sys, st: Step, i: RunId)
    requires LocksSound(s) && i < |s.rows| && s.rows[i].cancel && !IsActive(s.rows[i].state)
    requires !(st.Reschedule? && st.i == i)
    ensures i < |Next(s, st).rows|
    ensures IsActive(Next(s, st).rows[i].state) <==> Revives(s, st, i)
  {
    if st.Write? {
      if Applies(s, st.p, st.intent, st.force) && s.snaps[st.p].run == i {
        assert Next(s, st).rows[i] == Written(s.rows[i], st.intent);
      }
    } else if st.LeaseCommit? {
      assert i !in LockedBy(s, st.w);
    } else {
      QuietRowStaysDown(s, st, i);
    }
  }

  lemma QuietRowStaysDown(s: Sys, st: Step, i: RunId)
    requires i < |s.rows| && !IsActive(s.rows[i].state) && !st.Write? && !st.LeaseCommit?
    ensures i < |Next(s, st).rows| && !IsActive(Next(s, st).rows[i].state)
  {
  }

  ghost predicate NeverRevived(s: Sys, steps: seq<Step>, i: RunId)
    decreases |steps|
  {
    steps == [] || (!Revives(s, steps[0], i) && NeverRevived(Next(s, steps[0]), steps[1..], i))
  }

  lemma {:induction false} StaysDown(s: Sys, steps: seq<Step>, i: RunId)
    requires LocksSound(s) && i < |s.rows| && s.rows[i].cancel && !IsActive(s.rows[i].state)
    requires NotRescheduled(steps, i) && NeverRevived(s, steps, i)
    ensures var s' := Exec(s, steps); i < |s'.rows| && !IsActive(s'.rows[i].state)
    decreases |steps|
  {
    if steps != [] {
      assert !(steps[0].Reschedule? && steps[0].i == i);
      forall k | 0 <= k < |steps[1..]| ensures !(steps[1..][k].Reschedule? && steps[1..][k].i == i) {
        assert steps[1..][k] == steps[k + 1];
      }
      StaysDownStep(s, steps[0], i);
      LocksSoundStep(s, steps[0]);
      FlagStays(s, steps[0], i);
      StaysDown(Next(s, steps[0]), steps[1..], i);
    }
  }

  /** A cancel request takes a run out of PENDING and RUNNING at once, and short of a
      reschedule, a start or a push claim nothing ever brings it back there: no
      lease, crash, requeue or operator edit starts a cancelled run again. */
  lemma CancelStops(s: Sys, steps: seq<Step>, i: RunId)
    requires LocksSound(s) && Free(s, i)
    requires var s1 := Next(s, RequestCancel(i)); NotRescheduled(steps, i) && NeverRevived(s1, steps, i)
    ensures var s' := Exec(Next(s, RequestCancel(i)), steps); i < |s'.rows| && !IsActive(s'.rows[i].state)
  {
    LocksSoundStep(s, RequestCancel(i));
    StaysDown(Next(s, RequestCancel(i)), steps, i);
  }

  /** But it need not end CANCELLED: a run cancelled while running whose worker
      then suspends is parked, SCHEDULED and flagged, where no lease will take it. */
  lemma CancelCanPark(s: Sys, p: string, i: RunId, at: Time)
    requires Free(s, i) && s.rows[i].state == Running
    ensures var steps := [RequestCancel(i), Read(p, i), Write(p, Requeue("Suspended", at), true)];
      var s' := Exec(s, steps); i < |s'.rows| && s'.rows[i].state == Scheduled && s'.rows[i].cancel
  {
    var a, b, c := RequestCancel(i), Read(p, i), Write(p, Requeue("Suspended", at), true);
    assert [a, b, c][1..] == [b, c] && [b, c][1..] == [c] && [c][1..] == [];
    var s1 := Next(s, a);
    var s2 := Next(s1, b);
    var s3 := Next(s2, c);
    assert Exec(s, [a, b, c]) == Exec(s1, [b, c]) == Exec(s2, [c]) == Exec(s3, []) == s3;
  }
}
