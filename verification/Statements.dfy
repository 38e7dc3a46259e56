/** The store's operations as runs of the protocol: what holds of every interleaving of
    protocol steps is about these very methods. */
module Statements {
  import opened Base
  import opened States
  import opened Rows
  import opened Dispatch
  import opened S = Store
  import opened Protocol

  datatype Operation =
    | CreateRun(n: NewRun)
    | LeaseQueue(w: string, q: string, remaining: nat, exp: Time)
    | SetState(i: RunId, intent: Intent, force: bool)
    | ClaimPushRun(i: RunId, w: string, leaseFor: Time)
    | RenewLease(i: RunId, w: string, d: Time)
    | ReclaimExpired
    | HoldRun(i: RunId, leaseFor: Time)
    | ReleaseRun(i: RunId)
    | CancelRun(i: RunId)
    | RescheduleRun(i: RunId, at: Time)
    | ResumeRun(i: RunId, at: Time)
    | MoveToFront(i: RunId)

  /** The statements an operation consists of, issued by process `p`; a lease takes `picks`. */
  function StepsOf(op: Operation, rows: seq<Run>, now: Time, p: string, picks: seq<RunId>): seq<Step> {
    match op
    case CreateRun(n) => [Step.Create(n)]
    case LeaseQueue(w, q, remaining, exp) => [LeaseLock(w, q, remaining, picks)] + [LeaseCommit(w, exp)]
    case SetState(i, intent, force) => ReadAndWrite(p, i, intent, force)
    case ClaimPushRun(i, w, leaseFor) =>
      ReadAndWrite(p, i, ClaimPush(w), false) + ThenRenew(rows, i, w, now + Span(leaseFor))
    case RenewLease(i, w, d) => [Renew(i, w, now + Span(d))]
    case ReclaimExpired => Reclaims(0, |rows|)
    case HoldRun(i, leaseFor) => [Hold(i, now + Span(leaseFor))]
    case ReleaseRun(i) => [Release(i)]
    case CancelRun(i) => [Step.RequestCancel(i)]
    case RescheduleRun(i, at) => [Reschedule(i, at)]
    case ResumeRun(i, at) => [Resume(i, at)]
    case MoveToFront(i) => if i < |rows| then [Operate(i, Pin(FrontPosition(rows, rows[i].queue)))] else []
  }

  function ReadAndWrite(p: string, i: RunId, intent: Intent, force: bool): seq<Step> {
    [Read(p, i)] + [Write(p, intent, force)]
  }

  /** A receiver goes on to the lease unless the state change was refused. */
  function ThenRenew(rows: seq<Run>, i: RunId, w: string, exp: Time): seq<Step> {
    if i < |rows| && rows[i].state in {Scheduled, Pending} then [Renew(i, w, exp)] else []
  }

  /** A pass of the janitor, row by row. */
  function Reclaims(from: nat, n: nat): seq<Step>
    decreases n - from
  {
    if from >= n then [] else [Reclaim(from)] + Reclaims(from + 1, n)
  }

  /** A state of the protocol with this table, in which no lease statement is open. */
  ghost predicate Quiet(s: Sys, rows: seq<Run>, queues: map<string, Queue>) {
    s.rows == rows && s.queues == queues && s.locks == map[]
  }

  lemma One(s: Sys, st: Step)
    ensures Exec(s, [st]) == Next(s, st)
  {
    assert Exec(Next(s, st), [st][1..]) == Next(s, st);
  }

  lemma Step1(s: Sys, st: Step, rest: seq<Step>)
    ensures Exec(s, [st] + rest) == Exec(Next(s, st), rest)
  {
    assert ([st] + rest)[1..] == rest;
  }

  lemma Two(s: Sys, st: Step, st': Step)
    ensures Exec(s, [st] + [st']) == Next(Next(s, st), st')
  {
    Step1(s, st, [st']);
    One(Next(s, st), st');
  }

  lemma Leases(s: Sys, w: string, q: string, remaining: nat, exp: Time, picks: seq<RunId>)
    requires s.locks == map[] && Selects(s.rows, s.queues, q, remaining, s.now, picks)
    ensures Quiet(Exec(s, [LeaseLock(w, q, remaining, picks)] + [LeaseCommit(w, exp)]),
                  LeaseAll(s.rows, picks, w, exp), s.queues)
  {
    Two(s, LeaseLock(w, q, remaining, picks), LeaseCommit(w, exp));
    LocksPicks(s, w, q, remaining, picks);
    CommitsPicks(s.(locks := map i | i in Elems(picks) :: w), picks, w, exp);
  }

  lemma LocksPicks(s: Sys, w: string, q: string, remaining: nat, picks: seq<RunId>)
    requires s.locks == map[] && Selects(s.rows, s.queues, q, remaining, s.now, picks)
    ensures Next(s, LeaseLock(w, q, remaining, picks)) == s.(locks := map i | i in Elems(picks) :: w)
  {
    MayPick(s, w, q, remaining, picks);
    FirstLocks(map i | i in Elems(picks) :: w);
  }

  lemma MayPick(s: Sys, w: string, q: string, remaining: nat, picks: seq<RunId>)
    requires s.locks == map[] && Selects(s.rows, s.queues, q, remaining, s.now, picks)
    ensures CanLock(s, w, q, remaining, picks)
  {
    assert Unlocked(s, q) == DueSet(s.rows, q, s.now);
  }

  lemma FirstLocks(locks: map<RunId, string>)
    ensures map[] + locks == locks
  {
  }

  lemma CommitsPicks(t: Sys, picks: seq<RunId>, w: string, exp: Time)
    requires t.locks == map i | i in Elems(picks) :: w
    ensures Quiet(Commit(t, w, exp), LeaseAll(t.rows, picks, w, exp), t.queues)
  {
    assert Commit(t, w, exp).rows == LeaseAll(t.rows, picks, w, exp);
    assert Unlock(t, w) == map[];
  }

  lemma Sets(s: Sys, p: string, i: RunId, intent: Intent, force: bool)
    requires s.locks == map[] && p !in s.snaps
    ensures Quiet(Exec(s, ReadAndWrite(p, i, intent, force)), SetRows(s.rows, i, intent, force), s.queues)
    ensures Exec(s, ReadAndWrite(p, i, intent, force)).now == s.now
  {
    Two(s, Read(p, i), Write(p, intent, force));
  }

  function ClaimLeaves(rows: seq<Run>, i: RunId, w: string, exp: Time): seq<Run> {
    if i < |rows| && Claimable(rows[i], w) then ClaimedRows(rows, i, w, exp) else rows
  }

  /** The row after both halves of a push claim. */
  lemma BothHalves(r: Run, w: string, now: Time, exp: Time)
    requires r.state in {Scheduled, Pending}
    ensures var t := if r.state == Scheduled then Written(r, ClaimPush(w)) else r;
      Touch(t, now, Renew(0, w, exp)) ==
      if !Claimable(r, w) then r else if r.state == Scheduled then Leased(r, w, exp) else Renewed(r, exp)
  {
  }

  lemma ClaimsPush(s: Sys, p: string, i: RunId, w: string, leaseFor: Time)
    requires s.locks == map[] && p !in s.snaps
    ensures Quiet(Exec(s, StepsOf(ClaimPushRun(i, w, leaseFor), s.rows, s.now, p, [])),
                  ClaimLeaves(s.rows, i, w, s.now + Span(leaseFor)), s.queues)
  {
    Sets(s, p, i, ClaimPush(w), false);
    ThenRenews(s, ReadAndWrite(p, i, ClaimPush(w), false), i, w, s.now + Span(leaseFor));
  }

  lemma ThenRenews(s: Sys, steps: seq<Step>, i: RunId, w: string, exp: Time)
    requires Quiet(Exec(s, steps), SetRows(s.rows, i, ClaimPush(w), false), s.queues) && Exec(s, steps).now == s.now
    ensures Quiet(Exec(s, steps + ThenRenew(s.rows, i, w, exp)), ClaimLeaves(s.rows, i, w, exp), s.queues)
  {
    ExecConcat(s, steps, ThenRenew(s.rows, i, w, exp));
    RenewsIfClaimed(Exec(s, steps), s.rows, i, w, exp);
  }

  lemma RenewsIfClaimed(t: Sys, rows: seq<Run>, i: RunId, w: string, exp: Time)
    requires Quiet(t, SetRows(rows, i, ClaimPush(w), false), t.queues)
    ensures Quiet(Exec(t, ThenRenew(rows, i, w, exp)), ClaimLeaves(rows, i, w, exp), t.queues)
  {
    if i < |rows| && rows[i].state in {Scheduled, Pending} {
      RenewsClaimed(t, rows, t.now, i, w, exp);
    }
  }

  lemma RenewsClaimed(t: Sys, rows: seq<Run>, now: Time, i: RunId, w: string, exp: Time)
    requires i < |rows| && rows[i].state in {Scheduled, Pending}
    requires Quiet(t, SetRows(rows, i, ClaimPush(w), false), t.queues) && t.now == now
    ensures Quiet(Exec(t, [Renew(i, w, exp)]),
                  if Claimable(rows[i], w) then ClaimedRows(rows, i, w, exp) else rows, t.queues)
  {
    One(t, Renew(i, w, exp));
    BothHalves(rows[i], w, now, exp);
    assert t.rows[i] == if rows[i].state == Scheduled then Written(rows[i], ClaimPush(w)) else rows[i];
  }

  /** The janitor's pass over the rows from `from` on. */
  lemma {:induction false} ReclaimsAll(s: Sys, from: nat)
    requires s.locks == map[] && from <= |s.rows|
    ensures Quiet(Exec(s, Reclaims(from, |s.rows|)),
                  seq(|s.rows|, i requires 0 <= i < |s.rows| =>
                    if from <= i && Expired(s.rows[i], s.now) then Crash(s.rows[i]) else s.rows[i]), s.queues)
    decreases |s.rows| - from
  {
    if from < |s.rows| {
      var t := Next(s, Reclaim(from));
      assert t == Put(s, from, Touch(s.rows[from], s.now, Reclaim(from)));
      Step1(s, Reclaim(from), Reclaims(from + 1, |s.rows|));
      ReclaimsAll(t, from + 1);
    }
  }

  /** One call of an operation, while nothing comes between its statements, takes the
      protocol through just its own steps. */
  method Issue(st: S.Store, op: Operation, ghost s: Sys, now: Time, ghost p: string)
    returns (ghost picks: seq<RunId>)
    requires Quiet(s, st.rows, st.queues) && s.now == now && p !in s.snaps
    modifies st`rows
    ensures Quiet(Exec(s, StepsOf(op, old(st.rows), now, p, picks)), st.rows, st.queues)
  {
    picks := [];
    match op
    case CreateRun(n) => var _, _ := st.CreateFlowRun(n, now); One(s, Step.Create(n));
    case LeaseQueue(w, q, remaining, exp) =>
      picks := st.LeaseQueue(w, q, remaining, now, exp);
      Leases(s, w, q, remaining, exp, picks);
    case SetState(i, intent, force) => var _ := st.SetFlowRunState(i, intent, force); Sets(s, p, i, intent, force);
    case ClaimPushRun(i, w, leaseFor) =>
      var _ := st.ClaimPushRun(i, w, leaseFor, now);
      ClaimsPush(s, p, i, w, leaseFor);
    case ReclaimExpired =>
      var _ := st.ReclaimExpiredLeases(now);
      ReclaimsAll(s, 0);
    case _ => if IsOperator(op) { IssueOperator(st, op, s, now, p); } else { IssueHolder(st, op, s, now, p); }
  }

  predicate IsOperator(op: Operation) { op.CancelRun? || op.RescheduleRun? || op.ResumeRun? || op.MoveToFront? }

  predicate IsHolder(op: Operation) { op.RenewLease? || op.HoldRun? || op.ReleaseRun? }

  /** What operators, and parents, do to a run: one UPDATE of one row. */
  method IssueOperator(st: S.Store, op: Operation, ghost s: Sys, now: Time, ghost p: string)
    requires Quiet(s, st.rows, st.queues) && s.now == now && IsOperator(op)
    modifies st`rows
    ensures Quiet(Exec(s, StepsOf(op, old(st.rows), now, p, [])), st.rows, st.queues)
  {
    ghost var steps := StepsOf(op, st.rows, now, p, []);
    if steps != [] {
      One(s, steps[0]);
      assert steps == [steps[0]];
    }
    match op
    case CancelRun(i) => var _ := st.RequestCancel(i);
    case RescheduleRun(i, at) => var _ := st.RescheduleRun(i, at);
    case ResumeRun(i, at) => var _ := st.ResumeSuspendedRun(i, at);
    case MoveToFront(i) => var _ := st.MoveRunToFront(i);
  }

  /** What those who hold a run do to it. */
  method IssueHolder(st: S.Store, op: Operation, ghost s: Sys, now: Time, ghost p: string)
    requires Quiet(s, st.rows, st.queues) && s.now == now && IsHolder(op)
    modifies st`rows
    ensures Quiet(Exec(s, StepsOf(op, old(st.rows), now, p, [])), st.rows, st.queues)
  {
    ghost var steps := StepsOf(op, st.rows, now, p, []);
    One(s, steps[0]);
    assert steps == [steps[0]];
    match op
    case RenewLease(i, w, d) => var _ := st.RenewLease(i, w, d, now);
    case HoldRun(i, leaseFor) => var _ := st.MarkPushDispatched(i, leaseFor, now);
    case ReleaseRun(i) => st.ClearPushDispatch(i);
  }
}
