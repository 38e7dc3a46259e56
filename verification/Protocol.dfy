/** The run store under interleaving. Any number of workers, push receivers,
    janitors and operators issue statements against one table; a lease statement
    locks its rows first and commits later, and a state change reads the row
    first and writes conditionally later. Everything else is one statement. */
module Protocol {
  import opened Base
  import opened States
  import opened Rows
  import opened Dispatch

  /** The state a process read, and of which run. */
  datatype Snap = Snap(run: RunId, state: StateType)

  /** A worker was told that it owns attempt number `attempt` of a run. */
  datatype Claim = Claim(run: RunId, attempt: nat, worker: string)

  datatype Sys = Sys(
    rows: seq<Run>,
    now: Time,
    queues: map<string, Queue>,
    snaps: map<string, Snap>,       // per process: its last unspent read
    locks: map<RunId, string>,      // rows locked by an open lease statement
    claims: set<Claim>)             // history: every claim ever granted

  datatype Step =
    | Tick(d: nat)
    | Create(n: NewRun)
    | LeaseLock(w: string, q: string, remaining: nat, picks: seq<RunId>)
    | LeaseCommit(w: string, exp: Time)
    | LeaseAbort(w: string)
    | Read(p: string, i: RunId)
    | Write(p: string, intent: Intent, force: bool)
    | Renew(i: RunId, w: string, exp: Time)
    | Reclaim(i: RunId)
    | Hold(i: RunId, exp: Time)
    | Release(i: RunId)
    | RequestCancel(i: RunId)
    | Reschedule(i: RunId, at: Time)
    | Resume(i: RunId, at: Time)
    | Operate(i: RunId, e: Edit)

  /** A row exists and no open lease statement has it locked. */
  predicate Free(s: Sys, i: RunId) { i < |s.rows| && i !in s.locks }

  /** FOR UPDATE SKIP LOCKED: the statement picks among rows nobody has locked. */
  function Unlocked(s: Sys, q: string): set<RunId> { DueSet(s.rows, q, s.now) - s.locks.Keys }

  ghost predicate CanLock(s: Sys, w: string, q: string, remaining: nat, picks: seq<RunId>) {
    && w !in s.locks.Values
    && TopOf(s.rows, Unlocked(s, q), Room(s.rows, s.queues, q, remaining), picks)
  }

  /** The rows a lease statement of `w` has locked. */
  function LockedBy(s: Sys, w: string): set<RunId> { set i | i in s.locks && s.locks[i] == w }

  function Unlock(s: Sys, w: string): map<RunId, string> { map i | i in s.locks && s.locks[i] != w :: s.locks[i] }

  function Put(s: Sys, i: RunId, r: Run): Sys
    requires i < |s.rows|
  {
    s.(rows := s.rows[i := r])
  }

  function Commit(s: Sys, w: string, exp: Time): Sys {
    s.(rows := seq(|s.rows|, i requires 0 <= i < |s.rows| =>
                     if i in s.locks && s.locks[i] == w then Leased(s.rows[i], w, exp) else s.rows[i]),
       locks := Unlock(s, w),
       claims := s.claims + set i | i in LockedBy(s, w) && i < |s.rows| :: Claim(i, s.rows[i].runCount + 1, w))
  }

  /** The conditional UPDATE of a state change finds the row as it was read. */
  predicate Applies(s: Sys, p: string, intent: Intent, force: bool) {
    && p in s.snaps && Free(s, s.snaps[p].run)
    && Judge(s.snaps[p].state, Target(intent), force).Proceed?
    && s.rows[s.snaps[p].run].state == s.snaps[p].state
  }

  function Apply(s: Sys, p: string, intent: Intent): Sys
    requires p in s.snaps && s.snaps[p].run < |s.rows|
  {
    var i := s.snaps[p].run;
    var s' := Put(s, i, Written(s.rows[i], intent));
    if intent.ClaimPush? then s'.(claims := s.claims + {Claim(i, s.rows[i].runCount + 1, intent.w)}) else s'
  }

  /** The steps that are one UPDATE of one row. */
  predicate SingleRow(st: Step) {
    || st.Renew? || st.Reclaim? || st.Hold? || st.Release?
    || st.RequestCancel? || st.Reschedule? || st.Resume? || st.Operate?
  }

  /** Their effect on the row, by its WHERE clause and SET list. */
  function Touch(r: Run, now: Time, st: Step): Run
    requires SingleRow(st)
  {
    match st
    case Renew(_, w, exp) => if Renewable(r, w) then Renewed(r, exp) else r
    case Reclaim(_) => if Expired(r, now) then Crash(r) else r
    case Hold(_, exp) => if Holdable(r, now) then Held(r, exp) else r
    case Release(_) => if Releasable(r) then Released(r) else r
    case RequestCancel(_) => CancelRequested(r)
    case Reschedule(_, at) => Rescheduled(r, at)
    case Resume(_, at) => if r.state == Scheduled then Resumed(r, at) else r
    case Operate(_, e) => Edited(r, e)
  }

  /** One step; a step whose condition fails leaves everything as it is. */
  ghost function Next(s: Sys, st: Step): Sys {
    match st
    case Tick(d) => s.(now := s.now + d)
    case Create(n) => s.(rows := Insert(s.rows, n, s.now).0)
    case LeaseLock(w, q, remaining, picks) =>
      if CanLock(s, w, q, remaining, picks) then s.(locks := s.locks + map i | i in Elems(picks) :: w) else s
    case LeaseCommit(w, exp) => Commit(s, w, exp)
    case LeaseAbort(w) => s.(locks := Unlock(s, w))
    case Read(p, i) => if i < |s.rows| then s.(snaps := s.snaps[p := Snap(i, s.rows[i].state)]) else s
    case Write(p, intent, force) => if Applies(s, p, intent, force) then Apply(s, p, intent) else s
    case _ => if Free(s, st.i) then Put(s, st.i, Touch(s.rows[st.i], s.now, st)) else s
  }

  ghost function Exec(s: Sys, steps: seq<Step>): Sys
    decreases |steps|
  {
    if steps == [] then s else Exec(Next(s, steps[0]), steps[1..])
  }

  predicate Initial(s: Sys) { s.rows == [] && s.snaps == map[] && s.locks == map[] && s.claims == {} }

  // ------------------------------------------------------- lock discipline ---

  /** A locked row is exactly as it was when it was picked: waiting, unflagged. */
  ghost predicate LocksSound(s: Sys) {
    forall i | i in s.locks :: i < |s.rows| && s.rows[i].state == Scheduled && !s.rows[i].cancel
  }

  lemma LocksSoundStep(s: Sys, st: Step)
    requires LocksSound(s)
    ensures LocksSound(Next(s, st))
  {
    match st
    case LeaseLock(w, q, remaining, picks) => LockKeepsSound(s, st);
    case LeaseCommit(w, exp) =>
      assert forall i | i in Unlock(s, w) :: Commit(s, w, exp).rows[i] == s.rows[i];
    case _ => LockedRowsStay(s, st);
  }

  lemma PicksAreUnlocked(s: Sys, w: string, q: string, remaining: nat, picks: seq<RunId>)
    requires CanLock(s, w, q, remaining, picks)
    ensures Elems(picks) <= Unlocked(s, q)
  {
  }

  lemma LockKeepsSound(s: Sys, st: Step)
    requires LocksSound(s) && st.LeaseLock?
    ensures LocksSound(Next(s, st))
  {
    if CanLock(s, st.w, st.q, st.remaining, st.picks) {
      PicksAreUnlocked(s, st.w, st.q, st.remaining, st.picks);
      PicksAreSound(s, st.w, st.q, Elems(st.picks));
    }
  }

  lemma PicksAreSound(s: Sys, w: string, q: string, picks: set<RunId>)
    requires LocksSound(s) && picks <= Unlocked(s, q)
    ensures LocksSound(s.(locks := s.locks + map i | i in picks :: w))
  {
  }

  /** Nothing but the lease statement that locked a row can change it. */
  lemma LockedRowsStay(s: Sys, st: Step)
    requires LocksSound(s)
    requires !st.LeaseCommit?
    ensures |s.rows| <= |Next(s, st).rows|
    ensures forall i | i in s.locks :: Next(s, st).rows[i] == s.rows[i]
    ensures !st.LeaseLock? ==> Next(s, st).locks.Keys <= s.locks.Keys
  {
    if SingleRow(st) {
      LockedRowsStayTouched(s, st);
    } else if st.Write? {
      if Applies(s, st.p, st.intent, st.force) {
        assert s.snaps[st.p].run !in s.locks;
      }
    }
  }

  lemma LockedRowsStayTouched(s: Sys, st: Step)
    requires LocksSound(s) && SingleRow(st)
    ensures |s.rows| == |Next(s, st).rows| && Next(s, st).locks == s.locks
    ensures forall i | i in s.locks :: Next(s, st).rows[i] == s.rows[i]
  {
    if Free(s, st.i) {
      assert Next(s, st) == Put(s, st.i, Touch(s.rows[st.i], s.now, st));
    }
  }

  lemma {:induction false} LocksSoundAlways(s: Sys, steps: seq<Step>)
    requires LocksSound(s)
    ensures LocksSound(Exec(s, steps))
    decreases |steps|
  {
    if steps != [] {
      LocksSoundStep(s, steps[0]);
      LocksSoundAlways(Next(s, steps[0]), steps[1..]);
    }
  }

  lemma {:induction false} ExecConcat(s: Sys, a: seq<Step>, b: seq<Step>)
    ensures Exec(s, a + b) == Exec(Exec(s, a), b)
    decreases |a|
  {
    if a == [] {
      assert a + b == b;
    } else {
      assert (a + b)[1..] == a[1..] + b;
      ExecConcat(Next(s, a[0]), a[1..], b);
    }
  }

  // -------------------------------------------------------------- claims granted ---

  /** The claims on a run number its attempts 1, 2, ..., run_count, each granted
      to exactly one worker. */
  ghost predicate ClaimsExact(s: Sys) {
    && (forall c | c in s.claims :: c.run < |s.rows| && 1 <= c.attempt <= s.rows[c.run].runCount)
    && (forall c, d | c in s.claims && d in s.claims && c.run == d.run && c.attempt == d.attempt :: c == d)
    && (forall i, k | 0 <= i < |s.rows| && 1 <= k <= s.rows[i].runCount :: Granted(s.claims, i, k))
  }

  ghost predicate Granted(claims: set<Claim>, i: RunId, k: nat) { exists w :: Claim(i, k, w) in claims }

  lemma CommitKeepsClaims(s: Sys, w: string, exp: Time)
    requires LocksSound(s) && ClaimsExact(s)
    ensures ClaimsExact(Commit(s, w, exp))
  {
    var s' := Commit(s, w, exp);
    forall i, k | 0 <= i < |s'.rows| && 1 <= k <= s'.rows[i].runCount ensures Granted(s'.claims, i, k) {
      if i in LockedBy(s, w) && k == s.rows[i].runCount + 1 {
        assert Claim(i, k, w) in s'.claims;
      } else {
        assert Granted(s.claims, i, k);
        var v :| Claim(i, k, v) in s.claims;
        assert Claim(i, k, v) in s'.claims;
      }
    }
  }

  lemma ApplyKeepsClaims(s: Sys, p: string, intent: Intent)
    requires p in s.snaps && s.snaps[p].run < |s.rows|
    requires ClaimsExact(s)
    ensures ClaimsExact(Apply(s, p, intent))
  {
    var s' := Apply(s, p, intent);
    var i0 := s.snaps[p].run;
    forall i, k | 0 <= i < |s'.rows| && 1 <= k <= s'.rows[i].runCount ensures Granted(s'.claims, i, k) {
      if i == i0 && k == s.rows[i].runCount + 1 {
        assert Claim(i, k, intent.w) in s'.claims;
      } else {
        assert Granted(s.claims, i, k);
        var v :| Claim(i, k, v) in s.claims;
        assert Claim(i, k, v) in s'.claims;
      }
    }
  }

  lemma ClaimsExactStep(s: Sys, st: Step)
    requires LocksSound(s) && ClaimsExact(s)
    ensures ClaimsExact(Next(s, st))
  {
    match st
    case LeaseCommit(w, exp) => CommitKeepsClaims(s, w, exp);
    case Write(p, intent, force) =>
      if Applies(s, p, intent, force) {
        ApplyKeepsClaims(s, p, intent);
      }
    case Create(n) => CreateKeepsClaims(s, n);
    case _ => OthersKeepClaims(s, st);
  }

  lemma CreateKeepsClaims(s: Sys, n: NewRun)
    requires ClaimsExact(s)
    ensures ClaimsExact(Next(s, Create(n)))
  {
  }

  lemma OthersKeepClaims(s: Sys, st: Step)
    requires ClaimsExact(s)
    requires !st.LeaseCommit? && !st.Write? && !st.Create?
    ensures ClaimsExact(Next(s, st))
  {
    var s' := Next(s, st);
    assert s'.claims == s.claims && |s'.rows| == |s.rows|;
    assert forall i | 0 <= i < |s.rows| :: s'.rows[i].runCount == s.rows[i].runCount;
  }

  lemma {:induction false} ClaimsExactAlways(s: Sys, steps: seq<Step>)
    requires LocksSound(s) && ClaimsExact(s)
    ensures ClaimsExact(Exec(s, steps))
    decreases |steps|
  {
    if steps != [] {
      LocksSoundStep(s, steps[0]);
      ClaimsExactStep(s, steps[0]);
      ClaimsExactAlways(Next(s, steps[0]), steps[1..]);
    }
  }

  function ClaimsOn(claims: set<Claim>, i: RunId): set<Claim> { set c | c in claims && c.run == i }

  /** Counted: a run has as many claims as its run_count says. */
  lemma ClaimCount(s: Sys, i: RunId)
    requires ClaimsExact(s) && i < |s.rows|
    ensures |ClaimsOn(s.claims, i)| == s.rows[i].runCount
  {
    forall k | 1 <= k <= s.rows[i].runCount ensures Granted(ClaimsOn(s.claims, i), i, k) {
      assert Granted(s.claims, i, k);
      var w :| Claim(i, k, w) in s.claims;
      assert Claim(i, k, w) in ClaimsOn(s.claims, i);
    }
    CountAttempts(ClaimsOn(s.claims, i), i, s.rows[i].runCount);
  }

  lemma {:induction false} CountAttempts(claims: set<Claim>, i: RunId, n: nat)
    requires forall c | c in claims :: c.run == i && 1 <= c.attempt <= n
    requires forall c, d | c in claims && d in claims && c.attempt == d.attempt :: c == d
    requires forall k | 1 <= k <= n :: Granted(claims, i, k)
    ensures |claims| == n
  {
    if n > 0 {
      assert Granted(claims, i, n);
      var w :| Claim(i, n, w) in claims;
      var rest := claims - {Claim(i, n, w)};
      forall k | 1 <= k <= n - 1 ensures Granted(rest, i, k) {
        assert Granted(claims, i, k);
        var v :| Claim(i, k, v) in claims;
        assert Claim(i, k, v) in rest;
      }
      CountAttempts(rest, i, n - 1);
    }
  }
}
