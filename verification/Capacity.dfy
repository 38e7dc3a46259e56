/** A queue's concurrency limit over whole runs. */
module Capacity {
  import opened Base
  import opened States
  import opened Rows
  import opened Dispatch
  import opened Protocol

  /** The runs that occupy queue `q`: active, or locked by a lease statement that
      has yet to commit. */
  function Occupants(s: Sys, q: string): set<RunId> {
    set i | 0 <= i < |s.rows| && s.rows[i].queue == q && (IsActive(s.rows[i].state) || i in s.locks)
  }

  /** The steps the limit of queue `q` is promised for. Lease statements on `q` are
      serialised, starts of its runs are taken from PENDING, and push claims of its
      runs and moves into it, which never look at the limit, are left out. What
      happens in other queues does not matter. */
  ghost predicate Disciplined(s: Sys, st: Step, q: string) {
    match st
    case LeaseLock(_, q', _, _) => q' == q ==> forall i | i in s.locks && i < |s.rows| :: s.rows[i].queue != q
    case Write(p, intent, force) =>
      Applies(s, p, intent, force) && s.rows[s.snaps[p].run].queue == q ==>
        !intent.ClaimPush? && (intent.Start? ==> s.snaps[p].state == Pending)
    case Operate(_, e) => e.MoveTo? ==> e.q != q
    case _ => true
  }

  ghost predicate AlwaysDisciplined(s: Sys, steps: seq<Step>, q: string)
    decreases |steps|
  {
    steps == [] || (Disciplined(s, steps[0], q) && AlwaysDisciplined(Next(s, steps[0]), steps[1..], q))
  }

  /** Only a lease statement on the queue itself adds an occupant. */
  lemma OnlyLeasesOccupy(s: Sys, st: Step, q: string)
    requires LocksSound(s) && Disciplined(s, st, q)
    requires !(st.LeaseLock? && st.q == q)
    ensures Occupants(Next(s, st), q) <= Occupants(s, q)
  {
    match st
    case LeaseLock(w, q', remaining, picks) =>
      if CanLock(s, w, q', remaining, picks) {
        PicksAreUnlocked(s, w, q', remaining, picks);
        ForeignPicksDoNotOccupy(s, w, q', Elems(picks), q);
      }
    case LeaseCommit(w, exp) => CommitDoesNotOccupy(s, w, exp, q);
    case _ => OthersDoNotOccupy(s, st, q);
  }

  lemma ForeignPicksDoNotOccupy(s: Sys, w: string, q': string, picks: set<RunId>, q: string)
    requires q' != q && picks <= Unlocked(s, q')
    ensures Occupants(s.(locks := s.locks + map i | i in picks :: w), q) <= Occupants(s, q)
  {
  }

  lemma CommitDoesNotOccupy(s: Sys, w: string, exp: Time, q: string)
    requires LocksSound(s)
    ensures Occupants(Commit(s, w, exp), q) <= Occupants(s, q)
  {
  }

  lemma TouchDoesNotOccupy(r: Run, now: Time, st: Step, q: string)
    requires SingleRow(st) && (st.Operate? && st.e.MoveTo? ==> st.e.q != q)
    ensures var t := Touch(r, now, st); t.queue == q && IsActive(t.state) ==> r.queue == q && IsActive(r.state)
  {
  }

  lemma OthersDoNotOccupy(s: Sys, st: Step, q: string)
    requires LocksSound(s) && Disciplined(s, st, q)
    requires !st.LeaseLock? && !st.LeaseCommit?
    ensures Occupants(Next(s, st), q) <= Occupants(s, q)
  {
    if SingleRow(st) {
      TouchesDoNotOccupy(s, st, q);
    } else if st.Write? {
      forall i | i in Occupants(Next(s, st), q) ensures i in Occupants(s, q) {
        WriteDoesNotOccupy(s, st, q, i);
      }
    }
  }

  lemma TouchesDoNotOccupy(s: Sys, st: Step, q: string)
    requires SingleRow(st) && Disciplined(s, st, q)
    ensures Occupants(Next(s, st), q) <= Occupants(s, q)
  {
    if Free(s, st.i) {
      TouchDoesNotOccupy(s.rows[st.i], s.now, st, q);
      assert Next(s, st) == Put(s, st.i, Touch(s.rows[st.i], s.now, st));
    }
  }

  lemma WriteDoesNotOccupy(s: Sys, st: Step, q: string, i: RunId)
    requires Disciplined(s, st, q) && st.Write? && i in Occupants(Next(s, st), q)
    ensures i in Occupants(s, q)
  {
    if Applies(s, st.p, st.intent, st.force) && s.snaps[st.p].run == i {
      assert Next(s, st).rows[i] == Written(s.rows[i], st.intent);
    }
  }

  lemma NobodyWaitsToCommit(s: Sys, q: string)
    requires forall i | i in s.locks && i < |s.rows| :: s.rows[i].queue != q
    ensures Occupants(s, q) == ActiveSet(s.rows, q)
  {
  }

  lemma PicksOccupy(s: Sys, st: Step, q: string)
    requires st.LeaseLock? && st.q == q && CanLock(s, st.w, q, st.remaining, st.picks)
    ensures Occupants(Next(s, st), q) <= Occupants(s, q) + Elems(st.picks)
  {
  }

  lemma PicksFit(s: Sys, st: Step, q: string, limit: int)
    requires st.LeaseLock? && st.q == q && CanLock(s, st.w, q, st.remaining, st.picks)
    requires q in s.queues && s.queues[q].limit == Some(limit)
    ensures |Elems(st.picks)| <= Max(limit - |ActiveSet(s.rows, q)|, 0)
  {
    DistinctCard(st.picks);
  }

  /** A lease statement adds at most the room it read, and from at or above the
      limit it adds nothing. */
  lemma LeaseFits(s: Sys, st: Step, q: string, limit: int)
    requires LocksSound(s) && Disciplined(s, st, q) && st.LeaseLock? && st.q == q
    requires q in s.queues && s.queues[q].limit == Some(limit)
    ensures |Occupants(Next(s, st), q)| <= Max(limit, |Occupants(s, q)|)
  {
    if CanLock(s, st.w, q, st.remaining, st.picks) {
      NobodyWaitsToCommit(s, q);
      PicksOccupy(s, st, q);
      PicksFit(s, st, q, limit);
      UnionCard(Occupants(s, q), Elems(st.picks));
      SubsetCard(Occupants(Next(s, st), q), Occupants(s, q) + Elems(st.picks));
    }
  }

  lemma OccupancyStep(s: Sys, st: Step, q: string, limit: int)
    requires LocksSound(s) && Disciplined(s, st, q)
    requires q in s.queues && s.queues[q].limit == Some(limit)
    ensures |Occupants(Next(s, st), q)| <= Max(limit, |Occupants(s, q)|)
    ensures Next(s, st).queues == s.queues
  {
    if st.LeaseLock? && st.q == q {
      LeaseFits(s, st, q, limit);
    } else {
      OnlyLeasesOccupy(s, st, q);
      SubsetCard(Occupants(Next(s, st), q), Occupants(s, q));
    }
  }

  /** The limit over whole runs: however leases, starts, finishes, renewals,
      crashes, requeues, cancellations and reschedules interleave, the RUNNING
      and PENDING runs of a queue never exceed its limit, and when an operator
      has lowered it below the current load, never exceed that load. */
  lemma {:induction false} LimitHolds(s: Sys, steps: seq<Step>, q: string, limit: int, load: nat)
    requires LocksSound(s) && AlwaysDisciplined(s, steps, q)
    requires q in s.queues && s.queues[q].limit == Some(limit)
    requires |Occupants(s, q)| <= Max(limit, load)
    ensures var rows := Exec(s, steps).rows;
      |set i | 0 <= i < |rows| && rows[i].queue == q && rows[i].state in {Running, Pending}| <= Max(limit, load)
    decreases |steps|
  {
    if steps == [] {
      SubsetCard((set i | 0 <= i < |s.rows| && s.rows[i].queue == q && s.rows[i].state in {Running, Pending}),
                 Occupants(s, q));
    } else {
      OccupancyStep(s, steps[0], q, limit);
      LocksSoundStep(s, steps[0]);
      LimitHolds(Next(s, steps[0]), steps[1..], q, limit, load);
    }
  }

  lemma TopOfOne(rows: seq<Run>, ids: set<RunId>, i: RunId)
    requires i in ids && i < |rows|
    requires forall j | j in ids && j != i && j < |rows| :: Before(rows[i], rows[j])
    ensures TopOf(rows, ids, 1, [i])
  {
    assert Elems([i]) == {i};
    SubsetCard({i}, ids);
  }

  lemma OneSlot(rows: seq<Run>, queues: map<string, Queue>, q: string)
    requires q in queues && queues[q] == Queue(false, Some(1)) && ActiveSet(rows, q) == {}
    ensures Room(rows, queues, q, 1) == 1
  {
  }

  lemma CanLockFirst(s: Sys, w: string, q: string, i: RunId)
    requires q in s.queues && s.queues[q] == Queue(false, Some(1)) && ActiveSet(s.rows, q) == {}
    requires w !in s.locks.Values && TopOf(s.rows, Unlocked(s, q), 1, [i])
    ensures CanLock(s, w, q, 1, [i])
  {
    OneSlot(s.rows, s.queues, q);
  }

  lemma LockMap(locks: map<RunId, string>, w: string, i: RunId)
    ensures locks + (map k | k in Elems([i]) :: w) == locks[i := w]
  {
    assert Elems([i]) == {i};
  }

  lemma LockOne(s: Sys, w: string, q: string, i: RunId)
    requires CanLock(s, w, q, 1, [i])
    ensures Next(s, LeaseLock(w, q, 1, [i])) == s.(locks := s.locks[i := w])
  {
    LockMap(s.locks, w, i);
  }

  /** The discipline is needed: two lease statements that overlap each read the
      same count, and together put two runs into a queue with a limit of one. */
  lemma ConcurrentLeasesOverrun(a: Run, b: Run, q: string, now: Time, exp: Time) returns (s: Sys, steps: seq<Step>)
    requires Due(a, q, now) && Due(b, q, now) && Before(a, b)
    ensures s.rows == [a, b] && s.queues == map[q := Queue(false, Some(1))] && LocksSound(s)
    ensures Occupants(s, q) == {} && !AlwaysDisciplined(s, steps, q)
    ensures |ActiveSet(Exec(s, steps).rows, q)| == 2
  {
    s := Sys([a, b], now, map[q := Queue(false, Some(1))], map[], map[], {});
    steps := [LeaseLock("v", q, 1, [0]), LeaseLock("w", q, 1, [1]), LeaseCommit("v", exp), LeaseCommit("w", exp)];
    FirstLocks(s, a, b, q);
    SecondLocks(s.(locks := map[0 := "v"]), a, b, q);
    BothCommit(s.(locks := map[0 := "v", 1 := "w"]), a, b, q, exp);
    FourSteps(s, steps);
    SecondOverlaps(s, s.(locks := map[0 := "v"]), steps, q);
  }

  lemma FirstLocks(s: Sys, a: Run, b: Run, q: string)
    requires s.rows == [a, b] && Due(a, q, s.now) && Due(b, q, s.now) && Before(a, b)
    requires s.queues == map[q := Queue(false, Some(1))] && s.locks == map[]
    ensures Occupants(s, q) == {} && Next(s, LeaseLock("v", q, 1, [0])) == s.(locks := map[0 := "v"])
  {
    TwoWaiting(s, a, b, q);
    TopOfOne(s.rows, Unlocked(s, q), 0);
    CanLockFirst(s, "v", q, 0);
    LockOne(s, "v", q, 0);
    assert map[][0 := "v"] == map[0 := "v"];
  }

  lemma SecondLocks(s: Sys, a: Run, b: Run, q: string)
    requires s.rows == [a, b] && Due(a, q, s.now) && Due(b, q, s.now)
    requires s.queues == map[q := Queue(false, Some(1))] && s.locks == map[0 := "v"]
    ensures Next(s, LeaseLock("w", q, 1, [1])) == s.(locks := map[0 := "v", 1 := "w"])
  {
    assert ActiveSet(s.rows, q) == {};
    assert Unlocked(s, q) == {1};
    TopOfOne(s.rows, Unlocked(s, q), 1);
    CanLockFirst(s, "w", q, 1);
    LockOne(s, "w", q, 1);
    assert map[0 := "v"][1 := "w"] == map[0 := "v", 1 := "w"];
  }

  lemma SecondOverlaps(s: Sys, s1: Sys, steps: seq<Step>, q: string)
    requires |steps| > 1 && Next(s, steps[0]) == s1 && 0 in s1.locks && 0 < |s1.rows| && s1.rows[0].queue == q
    requires steps[1].LeaseLock? && steps[1].q == q
    ensures !AlwaysDisciplined(s, steps, q)
  {
    assert !Disciplined(s1, steps[1], q);
    assert steps[1..][0] == steps[1];
  }

  lemma TwoWaiting(s: Sys, a: Run, b: Run, q: string)
    requires s.rows == [a, b] && Due(a, q, s.now) && Due(b, q, s.now) && s.locks == map[]
    ensures Occupants(s, q) == {} && ActiveSet(s.rows, q) == {} && Unlocked(s, q) == {0, 1}
  {
  }

  lemma BothCommit(s: Sys, a: Run, b: Run, q: string, exp: Time)
    requires s.rows == [a, b] && s.locks == map[0 := "v", 1 := "w"] && a.queue == b.queue == q
    ensures |ActiveSet(Next(Next(s, LeaseCommit("v", exp)), LeaseCommit("w", exp)).rows, q)| == 2
  {
    var s' := Next(s, LeaseCommit("v", exp));
    assert s'.rows == [Leased(a, "v", exp), b];
    assert s'.locks == map[1 := "w"];
    var t := Next(s', LeaseCommit("w", exp));
    assert t.rows == [Leased(a, "v", exp), Leased(b, "w", exp)];
    BothActive(t.rows, q);
  }

  lemma BothActive(rows: seq<Run>, q: string)
    requires |rows| == 2 && forall i | 0 <= i < 2 :: rows[i].queue == q && IsActive(rows[i].state)
    ensures |ActiveSet(rows, q)| == 2
  {
    assert ActiveSet(rows, q) == {0, 1};
  }

  lemma OneStep(s: Sys, steps: seq<Step>)
    requires steps != []
    ensures Exec(s, steps) == Exec(Next(s, steps[0]), steps[1..])
  {
  }

  lemma FourSteps(s: Sys, steps: seq<Step>)
    requires |steps| == 4
    ensures Exec(s, steps) == Next(Next(Next(Next(s, steps[0]), steps[1]), steps[2]), steps[3])
  {
    var s1 := Next(s, steps[0]);
    var s2 := Next(s1, steps[1]);
    var s3 := Next(s2, steps[2]);
    OneStep(s, steps);
    OneStep(s1, steps[1..]);
    assert steps[1..][1..] == steps[2..];
    OneStep(s2, steps[2..]);
    assert steps[2..][1..] == steps[3..];
    OneStep(s3, steps[3..]);
    assert steps[3..][1..] == [];
  }
}
