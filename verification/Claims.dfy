/** Claiming a run: a claim is the move of its row from SCHEDULED to PENDING, by a
    lease statement or by a push receiver, and only one of them makes each move. */
module Claims {
  import opened Base
  import opened States
  import opened Rows
  import opened Protocol

  /** The step takes run `i` off the queue and into a worker's hands. */
  ghost predicate Moves(s: Sys, st: Step, i: RunId) {
    && i < |s.rows| && s.rows[i].state == Scheduled
    && i < |Next(s, st).rows| && Next(s, st).rows[i].state == Pending
  }

  /** The step puts run `i` back on the queue. */
  ghost predicate Requeues(s: Sys, st: Step, i: RunId) {
    && i < |s.rows| && s.rows[i].state != Scheduled
    && i < |Next(s, st).rows| && Next(s, st).rows[i].state == Scheduled
  }

  /** ClaimPushRun never forces its write. */
  predicate ClaimsByTheRules(st: Step) { st.Write? && st.intent.ClaimPush? ==> !st.force }

  /** The claims a step grants on run `i`. */
  ghost function Granted(s: Sys, st: Step, i: RunId): set<Claim> { ClaimsOn(Next(s, st).claims - s.claims, i) }

  /** A step that moves the run grants exactly one claim, to the worker it writes
      into the row, for the attempt it counts; any other step grants none and
      counts none. */
  ghost predicate OneClaimPerMove(s: Sys, st: Step, i: RunId)
    requires i < |s.rows| && i < |Next(s, st).rows|
  {
    var r := Next(s, st).rows[i];
    if Moves(s, st, i) then
      && r.runCount == s.rows[i].runCount + 1 && r.worker.Some?
      && Granted(s, st, i) == {Claim(i, r.runCount, r.worker.value)}
    else
      r.runCount == s.rows[i].runCount && Granted(s, st, i) == {}
  }

  lemma RowsStay(s: Sys, st: Step)
    ensures |s.rows| <= |Next(s, st).rows|
  {
  }

  lemma {:induction false} RowsStayAlways(s: Sys, steps: seq<Step>)
    ensures |s.rows| <= |Exec(s, steps).rows|
    decreases |steps|
  {
    if steps != [] {
      RowsStay(s, steps[0]);
      RowsStayAlways(Next(s, steps[0]), steps[1..]);
    }
  }

  lemma ClaimIsMove(s: Sys, st: Step, i: RunId)
    requires LocksSound(s) && ClaimsExact(s) && i < |s.rows| && ClaimsByTheRules(st)
    ensures i < |Next(s, st).rows| && OneClaimPerMove(s, st, i)
  {
    RowsStay(s, st);
    if st.LeaseCommit? {
      CommitClaims(s, st.w, st.exp, i);
    } else if st.Write? {
      if Applies(s, st.p, st.intent, st.force) {
        WriteClaims(s, st, i);
      }
    } else {
      OthersClaimNothing(s, st, i);
    }
  }

  lemma NotYetGranted(s: Sys, i: RunId, w: string)
    requires ClaimsExact(s) && i < |s.rows|
    ensures Claim(i, s.rows[i].runCount + 1, w) !in s.claims
  {
  }

  lemma CommitClaims(s: Sys, w: string, exp: Time, i: RunId)
    requires LocksSound(s) && ClaimsExact(s) && i < |s.rows|
    ensures OneClaimPerMove(s, LeaseCommit(w, exp), i)
  {
    NotYetGranted(s, i, w);
    var mine := Granted(s, LeaseCommit(w, exp), i);
    if i in LockedBy(s, w) {
      assert Claim(i, s.rows[i].runCount + 1, w) in mine;
      assert mine == {Claim(i, s.rows[i].runCount + 1, w)};
    }
  }

  lemma WriteClaims(s: Sys, st: Step, i: RunId)
    requires ClaimsExact(s) && i < |s.rows| && ClaimsByTheRules(st)
    requires st.Write? && Applies(s, st.p, st.intent, st.force)
    ensures OneClaimPerMove(s, st, i)
  {
    var j := s.snaps[st.p].run;
    var r := s.rows[j];
    assert Next(s, st).rows == s.rows[j := Written(r, st.intent)];
    if st.intent.ClaimPush? {
      assert CanTransition(r.state, Pending);
      NotYetGranted(s, j, st.intent.w);
      var c := Claim(j, r.runCount + 1, st.intent.w);
      assert Next(s, st).claims - s.claims == {c};
      assert ClaimsOn({c}, i) == if i == j then {c} else {};
    } else {
      assert Next(s, st).claims - s.claims == {};
    }
  }

  lemma OthersClaimNothing(s: Sys, st: Step, i: RunId)
    requires i < |s.rows| && i < |Next(s, st).rows| && !st.LeaseCommit? && !st.Write?
    ensures OneClaimPerMove(s, st, i)
  {
    assert Next(s, st).claims - s.claims == {};
    if SingleRow(st) {
      if Free(s, st.i) {
        assert Next(s, st).rows == s.rows[st.i := Touch(s.rows[st.i], s.now, st)];
        TouchDoesNotMove(s.rows[st.i], s.now, st);
      }
    } else {
      assert Next(s, st).rows[i] == s.rows[i];
    }
  }

  lemma TouchDoesNotMove(r: Run, now: Time, st: Step)
    requires SingleRow(st)
    ensures Touch(r, now, st).runCount == r.runCount
    ensures r.state == Scheduled ==> Touch(r, now, st).state != Pending
  {
  }

  // ------------------------------------------------------------ over whole runs ---

  ghost predicate AllByTheRules(steps: seq<Step>) { forall k | 0 <= k < |steps| :: ClaimsByTheRules(steps[k]) }

  ghost function MoveCount(s: Sys, steps: seq<Step>, i: RunId): nat
    decreases |steps|
  {
    if steps == [] then 0 else Bit(Moves(s, steps[0], i)) + MoveCount(Next(s, steps[0]), steps[1..], i)
  }

  ghost function RequeueCount(s: Sys, steps: seq<Step>, i: RunId): nat
    decreases |steps|
  {
    if steps == [] then 0 else Bit(Requeues(s, steps[0], i)) + RequeueCount(Next(s, steps[0]), steps[1..], i)
  }

  /** run_count, zero before the run is created. */
  function RunCount(s: Sys, i: RunId): nat { if i < |s.rows| then s.rows[i].runCount else 0 }

  lemma MoveCounts(s: Sys, st: Step, i: RunId)
    requires LocksSound(s) && ClaimsExact(s) && ClaimsByTheRules(st)
    ensures RunCount(Next(s, st), i) == RunCount(s, i) + Bit(Moves(s, st, i))
  {
    if i < |s.rows| {
      ClaimIsMove(s, st, i);
    }
  }

  /** run_count counts the moves from SCHEDULED to PENDING, over every interleaving. */
  lemma {:induction false} MovesAreCounted(s: Sys, steps: seq<Step>, i: RunId)
    requires LocksSound(s) && ClaimsExact(s) && AllByTheRules(steps)
    ensures RunCount(Exec(s, steps), i) == RunCount(s, i) + MoveCount(s, steps, i)
    decreases |steps|
  {
    if steps != [] {
      MoveCounts(s, steps[0], i);
      LocksSoundStep(s, steps[0]);
      ClaimsExactStep(s, steps[0]);
      MovesAreCounted(Next(s, steps[0]), steps[1..], i);
    }
  }

  /** A run that is off the queue is put back before it is claimed again. */
  lemma {:induction false} RequeuedBetween(s: Sys, steps: seq<Step>, st: Step, i: RunId)
    requires i < |s.rows| && s.rows[i].state != Scheduled
    requires Moves(Exec(s, steps), st, i)
    ensures RequeueCount(s, steps, i) >= 1
    decreases |steps|
  {
    RowsStay(s, steps[0]);
    if Next(s, steps[0]).rows[i].state != Scheduled {
      RequeuedBetween(Next(s, steps[0]), steps[1..], st, i);
    }
  }

  /** No double claim. In every interleaving, from an empty table, of lease
      statements and push claims by any number of workers with everything else:
      the claims on a run are as many as its moves from SCHEDULED to PENDING, which
      is its run_count, and attempt k was granted to exactly one worker. */
  lemma NoDoubleClaim(s: Sys, steps: seq<Step>)
    requires Initial(s) && AllByTheRules(steps)
    ensures ClaimsExact(Exec(s, steps))
    ensures forall i | 0 <= i < |Exec(s, steps).rows| ::
      |ClaimsOn(Exec(s, steps).claims, i)| == MoveCount(s, steps, i) == Exec(s, steps).rows[i].runCount
  {
    ClaimsExactAlways(s, steps);
    forall i | 0 <= i < |Exec(s, steps).rows|
      ensures |ClaimsOn(Exec(s, steps).claims, i)| == MoveCount(s, steps, i) == Exec(s, steps).rows[i].runCount
    {
      MovesAreCounted(s, steps, i);
      ClaimCount(Exec(s, steps), i);
    }
  }

  /** And no run is taken from a worker by another claim: between two claims that
      take effect on a run, however far apart, it was put back on the queue. */
  lemma ClaimedOnlyFromTheQueue(s: Sys, first: Step, between: seq<Step>, second: Step, i: RunId)
    requires Moves(s, first, i) && Moves(Exec(Next(s, first), between), second, i)
    ensures RequeueCount(Next(s, first), between, i) >= 1
  {
    RequeuedBetween(Next(s, first), between, second, i);
  }
}
