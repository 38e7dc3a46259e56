/** Who holds a run, and why a silent holder can always be found out. */
module Ownership {
  import opened Base
  import opened States
  import opened Rows
  import opened Protocol

  // ------------------------------------------------ the holder is the claimant ---

  /** Whoever a held row names is the one worker that was granted its latest attempt. */
  ghost predicate HolderOwns(s: Sys) {
    forall i | 0 <= i < |s.rows| && IsHeld(s.rows[i].state) && s.rows[i].worker.Some? ::
      Claim(i, s.rows[i].runCount, s.rows[i].worker.value) in s.claims
  }

  /** A start takes effect on behalf of a worker that does not own the attempt:
      nothing in the conditional write compares worker ids. */
  ghost predicate ForeignStart(s: Sys, st: Step) {
    && st.Write? && st.intent.Start? && Applies(s, st.p, st.intent, st.force)
    && var i := s.snaps[st.p].run;
       Claim(i, s.rows[i].runCount, st.intent.w) !in s.claims
  }

  /** Every other step keeps holders and claimants the same, and a foreign start
      never does: the condition is exact. */
  lemma HolderOwnsStep(s: Sys, st: Step)
    requires LocksSound(s) && HolderOwns(s)
    ensures HolderOwns(Next(s, st)) <==> !ForeignStart(s, st)
  {
    if st.LeaseCommit? {
      CommitKeepsHolders(s, st.w, st.exp);
    } else if st.Write? {
      if Applies(s, st.p, st.intent, st.force) {
        WriteAndHolders(s, st);
      }
    } else {
      OthersKeepHolders(s, st);
    }
  }

  lemma CommitKeepsHolders(s: Sys, w: string, exp: Time)
    requires HolderOwns(s)
    ensures HolderOwns(Commit(s, w, exp))
  {
    var s' := Commit(s, w, exp);
    forall i | 0 <= i < |s'.rows| && IsHeld(s'.rows[i].state) && s'.rows[i].worker.Some?
      ensures Claim(i, s'.rows[i].runCount, s'.rows[i].worker.value) in s'.claims
    {
      if i in LockedBy(s, w) {
        assert Claim(i, s.rows[i].runCount + 1, w) in s'.claims;
      }
    }
  }

  lemma WriteAndHolders(s: Sys, st: Step)
    requires HolderOwns(s) && st.Write? && Applies(s, st.p, st.intent, st.force)
    ensures HolderOwns(Next(s, st)) <==> !ForeignStart(s, st)
  {
    var i0 := s.snaps[st.p].run;
    var s' := Next(s, st);
    assert s'.rows[i0] == Written(s.rows[i0], st.intent);
    if !ForeignStart(s, st) {
      forall i | 0 <= i < |s'.rows| && IsHeld(s'.rows[i].state) && s'.rows[i].worker.Some?
        ensures Claim(i, s'.rows[i].runCount, s'.rows[i].worker.value) in s'.claims
      {
        if i != i0 {
          assert s'.rows[i] == s.rows[i];
        }
      }
    }
  }

  lemma OthersKeepHolders(s: Sys, st: Step)
    requires HolderOwns(s) && !st.LeaseCommit? && !st.Write?
    ensures HolderOwns(Next(s, st))
  {
    if SingleRow(st) && Free(s, st.i) {
      TouchKeepsHolder(s.rows[st.i], s.now, st);
      var s' := Next(s, st);
      assert s' == Put(s, st.i, Touch(s.rows[st.i], s.now, st));
      assert forall i | 0 <= i < |s'.rows| && i != st.i :: s'.rows[i] == s.rows[i];
    }
  }

  lemma TouchKeepsHolder(r: Run, now: Time, st: Step)
    requires SingleRow(st)
    ensures var t := Touch(r, now, st);
      IsHeld(t.state) ==> IsHeld(r.state) && t.worker == r.worker && t.runCount == r.runCount
  {
  }

  ghost predicate NoForeignStart(s: Sys, steps: seq<Step>)
    decreases |steps|
  {
    steps == [] || (!ForeignStart(s, steps[0]) && NoForeignStart(Next(s, steps[0]), steps[1..]))
  }

  /** So in any run without a foreign start, renewing a lease succeeds only for
      the one owner of the latest attempt: a reclaimed or beaten worker finds out. */
  lemma {:induction false} OnlyTheOwnerRenews(s: Sys, steps: seq<Step>, i: RunId, w: string)
    requires LocksSound(s) && ClaimsExact(s) && HolderOwns(s) && NoForeignStart(s, steps)
    requires i < |Exec(s, steps).rows| && Renewable(Exec(s, steps).rows[i], w)
    ensures Claim(i, Exec(s, steps).rows[i].runCount, w) in Exec(s, steps).claims
    ensures forall v | Claim(i, Exec(s, steps).rows[i].runCount, v) in Exec(s, steps).claims :: v == w
    decreases |steps|
  {
    if steps == [] {
      forall v | Claim(i, s.rows[i].runCount, v) in s.claims ensures v == w {
        assert Claim(i, s.rows[i].runCount, v) == Claim(i, s.rows[i].runCount, w);
      }
    } else {
      LocksSoundStep(s, steps[0]);
      ClaimsExactStep(s, steps[0]);
      HolderOwnsStep(s, steps[0]);
      OnlyTheOwnerRenews(Next(s, steps[0]), steps[1..], i, w);
    }
  }

  // ---------------------------------------------------- nothing gets stranded ---

  /** A held run has a worker and a lease that can lapse; a waiting run has
      neither, or a complete push-dispatch hold; a crashed run has neither. */
  predicate Recoverable(r: Run) {
    && (IsHeld(r.state) ==> r.worker.Some? && r.lease.Some?)
    && (r.state == Scheduled ==>
          (r.worker.None? && r.lease.None?) || (r.worker == Some(PUSH_HOLDER) && r.lease.Some?))
    && (r.state == Crashed ==> r.worker.None? && r.lease.None?)
  }

  ghost predicate AllRecoverable(s: Sys) { forall i | 0 <= i < |s.rows| :: Recoverable(s.rows[i]) }

  /** A claim or a start takes effect on a run that carries no lease: it becomes
      held with nothing to expire. The lease is written only by the next
      statement of the claim, and never by a start. */
  ghost predicate Strands(s: Sys, st: Step) {
    && st.Write? && (st.intent.Start? || st.intent.ClaimPush?)
    && Applies(s, st.p, st.intent, st.force)
    && s.rows[s.snaps[st.p].run].lease.None?
  }

  /** Exactly these steps strand a run. */
  lemma RecoverableStep(s: Sys, st: Step)
    requires LocksSound(s) && AllRecoverable(s)
    ensures AllRecoverable(Next(s, st)) <==> !Strands(s, st)
  {
    var s' := Next(s, st);
    if st.Write? {
      if Applies(s, st.p, st.intent, st.force) {
        var i := s.snaps[st.p].run;
        assert Recoverable(s.rows[i]) && s'.rows[i] == Written(s.rows[i], st.intent);
        assert forall j | 0 <= j < |s'.rows| && j != i :: s'.rows[j] == s.rows[j];
      }
    } else {
      forall i | 0 <= i < |s'.rows| ensures Recoverable(s'.rows[i]) {
        RowStaysRecoverable(s, st, i);
      }
    }
  }

  lemma RowStaysRecoverable(s: Sys, st: Step, i: RunId)
    requires AllRecoverable(s) && !st.Write?
    requires i < |Next(s, st).rows|
    ensures Recoverable(Next(s, st).rows[i])
  {
    assert i < |s.rows| ==> Recoverable(s.rows[i]);
    if SingleRow(st) && Free(s, st.i) {
      assert Next(s, st) == Put(s, st.i, Touch(s.rows[st.i], s.now, st));
      TouchStaysRecoverable(s.rows[st.i], s.now, st);
    }
  }

  lemma TouchStaysRecoverable(r: Run, now: Time, st: Step)
    requires SingleRow(st) && Recoverable(r)
    ensures Recoverable(Touch(r, now, st))
  {
  }

  ghost predicate NeverStrands(s: Sys, steps: seq<Step>)
    decreases |steps|
  {
    steps == [] || (!Strands(s, steps[0]) && NeverStrands(Next(s, steps[0]), steps[1..]))
  }

  lemma {:induction false} RecoverableAlways(s: Sys, steps: seq<Step>)
    requires LocksSound(s) && AllRecoverable(s) && NeverStrands(s, steps)
    ensures AllRecoverable(Exec(s, steps))
    decreases |steps|
  {
    if steps != [] {
      LocksSoundStep(s, steps[0]);
      RecoverableStep(s, steps[0]);
      RecoverableAlways(Next(s, steps[0]), steps[1..]);
    }
  }

  /** Starts from PENDING never strand: a recoverable PENDING run has a lease. */
  lemma StartFromPendingIsSafe(s: Sys, st: Step)
    requires AllRecoverable(s)
    requires st.Write? && st.intent.Start? && Applies(s, st.p, st.intent, st.force)
    requires s.snaps[st.p].state == Pending
    ensures !Strands(s, st)
  {
    assert Recoverable(s.rows[s.snaps[st.p].run]);
  }

  /** A push claim whose two statements run back to back leaves the run
      recoverable, held or not beforehand. */
  lemma WholeClaimIsSafe(s: Sys, p: string, w: string, exp: Time)
    requires AllRecoverable(s)
    requires Applies(s, p, ClaimPush(w), false)
    ensures AllRecoverable(Next(Next(s, Write(p, ClaimPush(w), false)), Renew(s.snaps[p].run, w, exp)))
  {
    var i := s.snaps[p].run;
    var s1 := Next(s, Write(p, ClaimPush(w), false));
    assert Renewable(s1.rows[i], w);
  }

  // --------------------------------------------- histories of whole push claims ---

  /** What happens to the table when every push claim runs its two statements back
      to back: a protocol step, or the claim as a whole. */
  datatype Move = One(st: Step) | WholeClaim(p: string, w: string, exp: Time)

  ghost function After(s: Sys, m: Move): Sys {
    match m
    case One(st) => Next(s, st)
    case WholeClaim(p, w, exp) =>
      if Applies(s, p, ClaimPush(w), false) then
        Next(Next(s, Write(p, ClaimPush(w), false)), Renew(s.snaps[p].run, w, exp))
      else s
  }

  /** The discipline, checked before each move: no push claim in halves, and starts
      only by a worker that read PENDING. */
  ghost predicate Careful(s: Sys, m: Move) {
    m.One? && m.st.Write? ==>
      !m.st.intent.ClaimPush? && (m.st.intent.Start? && m.st.p in s.snaps ==> s.snaps[m.st.p].state == Pending)
  }

  ghost function AfterAll(s: Sys, ms: seq<Move>): Sys
    decreases |ms|
  {
    if ms == [] then s else AfterAll(After(s, ms[0]), ms[1..])
  }

  ghost predicate AlwaysCareful(s: Sys, ms: seq<Move>)
    decreases |ms|
  {
    ms == [] || (Careful(s, ms[0]) && AlwaysCareful(After(s, ms[0]), ms[1..]))
  }

  lemma CarefulMove(s: Sys, m: Move)
    requires LocksSound(s) && AllRecoverable(s) && Careful(s, m)
    ensures LocksSound(After(s, m)) && AllRecoverable(After(s, m))
  {
    match m
    case One(st) =>
      LocksSoundStep(s, st);
      if Strands(s, st) {
        StartFromPendingIsSafe(s, st);
      }
      RecoverableStep(s, st);
    case WholeClaim(p, w, exp) =>
      if Applies(s, p, ClaimPush(w), false) {
        WholeClaimIsSafe(s, p, w, exp);
        LocksSoundStep(s, Write(p, ClaimPush(w), false));
        LocksSoundStep(Next(s, Write(p, ClaimPush(w), false)), Renew(s.snaps[p].run, w, exp));
      }
  }

  /** Nothing is unrecoverable: from an empty table, with push claims taken whole and
      starts taken from PENDING, in every reachable state every PENDING, RUNNING or
      CANCELLING run has a worker and a lease that can lapse, and every SCHEDULED run
      has neither or a complete push-dispatch hold. */
  lemma NothingIsStranded(s: Sys, ms: seq<Move>)
    requires Initial(s) && AlwaysCareful(s, ms)
    ensures AllRecoverable(AfterAll(s, ms))
  {
    CarefulAlways(s, ms);
  }

  lemma {:induction false} CarefulAlways(s: Sys, ms: seq<Move>)
    requires LocksSound(s) && AllRecoverable(s) && AlwaysCareful(s, ms)
    ensures AllRecoverable(AfterAll(s, ms))
    decreases |ms|
  {
    if ms != [] {
      CarefulMove(s, ms[0]);
      CarefulAlways(After(s, ms[0]), ms[1..]);
    }
  }

  /** Why that matters: once the clock passes its lease, a held run that nobody
      renews is always there for the janitor to take. */
  lemma SilentHolderIsReclaimed(s: Sys, i: RunId, d: nat)
    requires AllRecoverable(s) && Free(s, i) && IsHeld(s.rows[i].state)
    requires s.now + d > s.rows[i].lease.value
    ensures Exec(s, [Tick(d), Reclaim(i)]).rows == s.rows[i := Crash(s.rows[i])]
  {
    assert Recoverable(s.rows[i]);
    var s1 := Next(s, Tick(d));
    assert Exec(s, [Tick(d), Reclaim(i)]) == Exec(s1, [Reclaim(i)]) by {
      assert [Tick(d), Reclaim(i)][1..] == [Reclaim(i)];
    }
    assert Exec(s1, [Reclaim(i)]) == Exec(Next(s1, Reclaim(i)), []) by {
      assert [Reclaim(i)][1..] == [];
    }
  }

  // ------------------------------------------------------------ stranded for good ---

  /** Held, with no lease to lapse. */
  predicate Stranded(s: Sys, i: RunId) { i < |s.rows| && IsHeld(s.rows[i].state) && s.rows[i].lease.None? }

  lemma StrandingStrands(s: Sys, st: Step)
    requires Strands(s, st)
    ensures Stranded(Next(s, st), s.snaps[st.p].run)
  {
  }

  /** The steps that get a stranded run out: a renewal by the worker it names, a
      write that takes effect and ends or requeues it, and an operator's reschedule. */
  ghost predicate Rescues(s: Sys, st: Step, i: RunId) {
    && Free(s, i)
    && match st
       case Renew(j, w, _) => j == i && s.rows[i].worker == Some(w)
       case Reschedule(j, _) => j == i
       case Write(p, intent, force) =>
         Applies(s, p, intent, force) && s.snaps[p].run == i && (intent.End? || intent.Requeue?)
       case _ => false
  }

  /** Exactly those, and never the janitor. */
  lemma StrandedStep(s: Sys, st: Step, i: RunId)
    requires LocksSound(s) && Stranded(s, i)
    ensures Stranded(Next(s, st), i) <==> !Rescues(s, st, i)
    ensures st.Reclaim? && st.i == i ==> Next(s, st) == s
  {
    if st.Write? {
      WriteStranded(s, st, i);
    } else if SingleRow(st) {
      TouchedStranded(s, st, i);
    } else {
      QuietlyStranded(s, st, i);
    }
  }

  lemma WriteStranded(s: Sys, st: Step, i: RunId)
    requires Stranded(s, i) && st.Write?
    ensures Stranded(Next(s, st), i) <==> !Rescues(s, st, i)
  {
    if Applies(s, st.p, st.intent, st.force) {
      assert Next(s, st).rows == s.rows[s.snaps[st.p].run := Written(s.rows[s.snaps[st.p].run], st.intent)];
    }
  }

  lemma TouchedStranded(s: Sys, st: Step, i: RunId)
    requires Stranded(s, i) && SingleRow(st)
    ensures Stranded(Next(s, st), i) <==> !Rescues(s, st, i)
    ensures st.Reclaim? && st.i == i ==> Next(s, st) == s
  {
    if Free(s, st.i) {
      assert Next(s, st) == Put(s, st.i, Touch(s.rows[st.i], s.now, st));
      if st.i == i {
        TouchStranded(s.rows[i], s.now, st);
        assert s.rows[i := s.rows[i]] == s.rows;
      }
    }
  }

  lemma TouchStranded(r: Run, now: Time, st: Step)
    requires SingleRow(st) && IsHeld(r.state) && r.lease.None?
    ensures var t := Touch(r, now, st);
      (IsHeld(t.state) && t.lease.None?) <==> !((st.Renew? && r.worker == Some(st.w)) || st.Reschedule?)
    ensures st.Reclaim? ==> Touch(r, now, st) == r
  {
  }

  lemma QuietlyStranded(s: Sys, st: Step, i: RunId)
    requires LocksSound(s) && Stranded(s, i) && !st.Write? && !SingleRow(st)
    ensures Stranded(Next(s, st), i)
  {
  }

  ghost predicate NeverRescued(s: Sys, steps: seq<Step>, i: RunId)
    decreases |steps|
  {
    steps == [] || (!Rescues(s, steps[0], i) && NeverRescued(Next(s, steps[0]), steps[1..], i))
  }

  /** A stranded run stays beyond the janitor for good: however much time passes and
      whatever else happens, cancel requests and janitor passes included. */
  lemma {:induction false} StrandedIsNeverReclaimed(s: Sys, steps: seq<Step>, i: RunId)
    requires LocksSound(s) && Stranded(s, i) && NeverRescued(s, steps, i)
    ensures var t := Exec(s, steps); Stranded(t, i) && Next(t, Reclaim(i)) == t
    decreases |steps|
  {
    if steps != [] {
      StrandedStep(s, steps[0], i);
      LocksSoundStep(s, steps[0]);
      StrandedIsNeverReclaimed(Next(s, steps[0]), steps[1..], i);
    } else {
      StrandedStep(s, Reclaim(i), i);
    }
  }
}
