/** The run store: every method is one statement, or the short sequence of
    statements that the operation consists of, against the flow-run table. */
module Store {
  import opened Base
  import opened States
  import opened Rows
  import opened Dispatch

  /** Lease intervals are rendered in whole milliseconds, truncated toward zero. */
  function Span(d: Time): Time {
    if d >= 0 then d / MILLISECOND * MILLISECOND else -(-d / MILLISECOND * MILLISECOND)
  }

  function LeaseEnd(now: Time, leaseFor: Time): Time {
    now + Span(if leaseFor <= 0 then 60 * SECOND else leaseFor)
  }

  /** A legal outcome of the lease statement for one queue. */
  ghost predicate Selects(rows: seq<Run>, queues: map<string, Queue>, q: string, remaining: nat, now: Time,
                          s: seq<RunId>)
  {
    TopOf(rows, DueSet(rows, q, now), Room(rows, queues, q, remaining), s)
  }

  function LeaseAll(rows: seq<Run>, s: seq<RunId>, w: string, exp: Time): (rows': seq<Run>)
    ensures |rows'| == |rows|
  {
    seq(|rows|, i requires 0 <= i < |rows| => if i in s then Leased(rows[i], w, exp) else rows[i])
  }

  function Flatten(parts: seq<seq<RunId>>): seq<RunId> {
    if parts == [] then [] else Flatten(parts[..|parts| - 1]) + parts[|parts| - 1]
  }

  /** Queue `n` of a poll, in its turn, gave up a legal selection for the
      capacity that the queues before it left over. */
  ghost predicate TookTurn(rows: seq<Run>, queues: map<string, Queue>, w: string, exp: Time, now: Time,
                           qs: seq<string>, max: nat, parts: seq<seq<RunId>>, n: nat)
    requires n < |qs| && n < |parts|
  {
    var before := Flatten(parts[..n]);
    |before| <= max && Selects(LeaseAll(rows, before, w, exp), queues, qs[n], max - |before|, now, parts[n])
  }

  /** A legal outcome of polling the queues in turn: `parts[n]` came from `qs[n]`. */
  ghost predicate Dispatches(rows: seq<Run>, queues: map<string, Queue>, w: string, exp: Time, now: Time,
                             qs: seq<string>, max: nat, parts: seq<seq<RunId>>)
  {
    |parts| == |qs| && forall n | 0 <= n < |qs| :: TookTurn(rows, queues, w, exp, now, qs, max, parts, n)
  }

  lemma SelectedAreDue(rows: seq<Run>, queues: map<string, Queue>, q: string, remaining: nat, now: Time, s: seq<RunId>)
    requires Selects(rows, queues, q, remaining, now, s)
    ensures |s| <= remaining && Distinct(s)
    ensures forall i | i in s :: i < |rows| && Due(rows[i], q, now)
    ensures s != [] ==> q in queues && !queues[q].paused
  {
    assert forall i | i in s :: i in Elems(s);
  }

  /** A run a poll may hand out: due, in a polled queue that is known and open. */
  predicate Dispatchable(rows: seq<Run>, queues: map<string, Queue>, qs: seq<string>, now: Time, i: RunId) {
    && i < |rows| && rows[i].queue in qs && Due(rows[i], rows[i].queue, now)
    && rows[i].queue in queues && !queues[rows[i].queue].paused
  }

  /** However many queues are polled and however they overlap, a worker is never
      handed more than it asked for, nor a run twice, nor a run that was not
      due in an open queue it polls. */
  lemma {:induction false} DispatchIsBounded(rows: seq<Run>, queues: map<string, Queue>, w: string, exp: Time,
                                             now: Time, qs: seq<string>, max: nat, parts: seq<seq<RunId>>)
    requires Dispatches(rows, queues, w, exp, now, qs, max, parts)
    ensures |Flatten(parts)| <= max && Distinct(Flatten(parts))
    ensures forall i | i in Flatten(parts) :: Dispatchable(rows, queues, qs, now, i)
  {
    BoundedUpTo(rows, queues, w, exp, now, qs, max, parts, |parts|);
    assert parts[..|parts|] == parts;
  }

  lemma {:induction false} BoundedUpTo(rows: seq<Run>, queues: map<string, Queue>, w: string, exp: Time, now: Time,
                                       qs: seq<string>, max: nat, parts: seq<seq<RunId>>, n: nat)
    requires Dispatches(rows, queues, w, exp, now, qs, max, parts) && n <= |parts|
    ensures |Flatten(parts[..n])| <= max && Distinct(Flatten(parts[..n]))
    ensures forall i | i in Flatten(parts[..n]) :: Dispatchable(rows, queues, qs, now, i)
  {
    if n > 0 {
      var m := n - 1;
      BoundedUpTo(rows, queues, w, exp, now, qs, max, parts, m);
      assert TookTurn(rows, queues, w, exp, now, qs, max, parts, m);
      var head, tail := Flatten(parts[..m]), parts[m];
      SelectedAreDue(LeaseAll(rows, head, w, exp), queues, qs[m], max - |head|, now, tail);
      assert parts[..n][..m] == parts[..m] && Flatten(parts[..n]) == head + tail;
      forall i | i in tail ensures i !in head && Dispatchable(rows, queues, qs, now, i) {
        assert Due(LeaseAll(rows, head, w, exp)[i], qs[m], now);
      }
      DistinctConcat(head, tail);
    }
  }

  lemma TurnAppends(rows: seq<Run>, queues: map<string, Queue>, w: string, exp: Time, now: Time,
                    qs: seq<string>, max: nat, parts: seq<seq<RunId>>, got: seq<RunId>)
    requires |parts| < |qs| && |Flatten(parts)| <= max
    requires forall n | 0 <= n < |parts| :: TookTurn(rows, queues, w, exp, now, qs, max, parts, n)
    requires Selects(LeaseAll(rows, Flatten(parts), w, exp), queues, qs[|parts|], max - |Flatten(parts)|, now, got)
    ensures Flatten(parts + [got]) == Flatten(parts) + got
    ensures forall n | 0 <= n < |parts| + 1 :: TookTurn(rows, queues, w, exp, now, qs, max, parts + [got], n)
  {
    assert (parts + [got])[..|parts|] == parts;
    forall n | 0 <= n < |parts| ensures TookTurn(rows, queues, w, exp, now, qs, max, parts + [got], n) {
      assert TookTurn(rows, queues, w, exp, now, qs, max, parts, n);
      assert (parts + [got])[..n] == parts[..n];
    }
  }

  lemma LeaseAllCompose(rows: seq<Run>, a: seq<RunId>, b: seq<RunId>, w: string, exp: Time)
    requires forall i | i in b :: i < |rows| && LeaseAll(rows, a, w, exp)[i].state == Scheduled
    ensures LeaseAll(LeaseAll(rows, a, w, exp), b, w, exp) == LeaseAll(rows, a + b, w, exp)
  {
  }

  // ---------------------------------------------------- work conservation ---

  /** A queue that is known and open keeps nobody waiting without need: if a run of it
      is still due, the worker has all it asked for (`full`), or the RUNNING and
      PENDING runs of the queue have reached its limit. */
  ghost predicate Served(rows: seq<Run>, queues: map<string, Queue>, q: string, now: Time, full: bool) {
    q in queues && !queues[q].paused && (exists i :: 0 <= i < |rows| && Due(rows[i], q, now)) ==>
      full || (queues[q].limit.Some? && queues[q].limit.value
                 <= |set i | 0 <= i < |rows| && rows[i].queue == q && rows[i].state in {Running, Pending}|)
  }

  lemma ActiveAfterLease(rows: seq<Run>, q: string, now: Time, s: seq<RunId>, w: string, exp: Time)
    requires Distinct(s) && forall i | i in s :: i < |rows| && Due(rows[i], q, now)
    ensures |ActiveSet(LeaseAll(rows, s, w, exp), q)| == |ActiveSet(rows, q)| + |s|
  {
    DistinctCard(s);
    assert ActiveSet(LeaseAll(rows, s, w, exp), q) == ActiveSet(rows, q) + Elems(s);
    assert ActiveSet(rows, q) !! Elems(s);
  }

  lemma LeaseServes(rows: seq<Run>, queues: map<string, Queue>, q: string, remaining: nat, now: Time, s: seq<RunId>,
                    w: string, exp: Time)
    requires Selects(rows, queues, q, remaining, now, s)
    ensures |s| <= remaining && (q !in queues || queues[q].paused ==> s == [])
    ensures Served(LeaseAll(rows, s, w, exp), queues, q, now, |s| == remaining)
  {
    SelectedAreDue(rows, queues, q, remaining, now, s);
    var rows' := LeaseAll(rows, s, w, exp);
    if q in queues && !queues[q].paused && (exists i :: 0 <= i < |rows'| && Due(rows'[i], q, now)) && |s| < remaining {
      var i :| 0 <= i < |rows'| && Due(rows'[i], q, now);
      assert i in DueSet(rows, q, now) && i !in Elems(s);
      DistinctCard(s);
      SubsetCard(Elems(s) + {i}, DueSet(rows, q, now));
      assert |s| == Room(rows, queues, q, remaining);
      ActiveAfterLease(rows, q, now, s, w, exp);
      assert ActiveSet(rows', q)
          == (set j | 0 <= j < |rows'| && rows'[j].queue == q && rows'[j].state in {Running, Pending});
    }
  }

  /** Leasing more runs, of this queue or another, leaves a served queue served. */
  lemma StaysServed(rows: seq<Run>, queues: map<string, Queue>, q: string, now: Time, full: bool, full': bool,
                    s: seq<RunId>, w: string, exp: Time)
    requires Served(rows, queues, q, now, full) && (full ==> full')
    requires forall i | i in s :: i < |rows| && rows[i].state == Scheduled
    ensures Served(LeaseAll(rows, s, w, exp), queues, q, now, full')
  {
    var rows' := LeaseAll(rows, s, w, exp);
    if exists i :: 0 <= i < |rows'| && Due(rows'[i], q, now) {
      var i :| 0 <= i < |rows'| && Due(rows'[i], q, now);
      assert Due(rows[i], q, now);
      SubsetCard((set j | 0 <= j < |rows| && rows[j].queue == q && rows[j].state in {Running, Pending}),
                 (set j | 0 <= j < |rows'| && rows'[j].queue == q && rows'[j].state in {Running, Pending}));
    }
  }

  /** The leased row, column by column. */
  predicate TakenBy(r: Run, t: Run, w: string, now: Time, leaseFor: Time) {
    && t == r.(state := Pending, stateName := "Pending", worker := Some(w), lease := t.lease,
               runCount := r.runCount + 1)
    && t.lease.Some?
    && if leaseFor <= 0 then t.lease.value == now + 60_000_000_000
       else now + leaseFor - 1_000_000 < t.lease.value <= now + leaseFor && (t.lease.value - now) % 1_000_000 == 0
  }

  lemma LeasesLast(r: Run, w: string, now: Time, leaseFor: Time)
    ensures TakenBy(r, Leased(r, w, LeaseEnd(now, leaseFor)), w, now, leaseFor)
  {
  }

  // -------------------------------------------------- idempotent creation ---

  ghost predicate UniqueKeys(rows: seq<Run>) {
    forall i, j | 0 <= i < j < |rows| && rows[i].idemKey.Some? :: rows[i].idemKey != rows[j].idemKey
  }

  /** Creating with a key never yields a second row for it, returns the row that
      has it, and doing so again changes nothing and returns the same row. */
  lemma CreateIsIdempotent(rows: seq<Run>, a: NewRun, b: NewRun, now: Time, later: Time)
    requires UniqueKeys(rows)
    requires a.idemKey.Some? && a.idemKey == b.idemKey
    ensures var (rows', i) := Insert(rows, a, now);
      && UniqueKeys(rows') && i < |rows'| && rows'[i].idemKey == a.idemKey
      && (forall j | 0 <= j < |rows'| && rows'[j].idemKey == a.idemKey :: j == i)
      && Insert(rows', b, later) == (rows', i)
  {
    var (rows', i) := Insert(rows, a, now);
    assert rows'[i].idemKey == a.idemKey;
  }

  /** A new run as its creator asked for it: on the named queue or the default one, at
      the named priority or the normal one, unclaimed, and never dispatched. */
  predicate AsAsked(r: Run, n: NewRun, now: Time) {
    && r.id == n.id && r.createdAt == now && r.scheduledAt == n.scheduledAt
    && r.queue == (if n.queue != "" then n.queue else "default")
    && r.priority == (if n.priority != 0 then n.priority else 50) && r.position.None?
    && r.state == Scheduled && r.runCount == 0 && r.worker.None? && r.lease.None? && !r.cancel && r.result.None?
    && r.retries == n.retries && r.retryDelay == n.retryDelay
    && r.parent == n.parent && r.deployment == n.deployment && r.idemKey == n.idemKey
  }

  /** A listing shows 100 rows unless asked for between 1 and 500. */
  function PageSize(limit: int): nat { if limit <= 0 || limit > 500 then 100 else limit }

  datatype WriteResult = Changed | Unchanged | InvalidTransition | NotFound | Conflict

  class Store {
    var rows: seq<Run>
    var queues: map<string, Queue>

    constructor ()
      ensures rows == [] && queues == map[]
    {
      rows := [];
      queues := map[];
    }

    method CreateFlowRun(n: NewRun, now: Time) returns (id: RunId, conflict: bool)
      modifies this`rows
      ensures (rows, id) == Insert(old(rows), n, now)
      ensures conflict <==> rows == old(rows)
      ensures !conflict ==> id == |old(rows)| && AsAsked(rows[id], n, now)
    {
      if n.idemKey.Some? {
        var found := FindKey(rows, n.idemKey.value);
        if found.Some? {
          return found.value, true;
        }
      }
      id, conflict := |rows|, false;
      rows := rows + [FreshRow(n, now)];
    }

    /** ORDER BY over a set of rows; rows that tie may come out either way. */
    method OrderBy(ids: set<RunId>) returns (s: seq<RunId>)
      requires forall i | i in ids :: i < |rows|
      ensures Lists(rows, ids, s)
    {
      s := [];
      var rest := ids;
      while rest != {}
        invariant rest <= ids
        invariant Lists(rows, ids - rest, s)
      {
        var x :| x in rest;
        InsertLists(rows, ids - rest, s, x);
        assert ids - rest + {x} == ids - (rest - {x});
        s := InsertAt(s, Rank(rows, s, x), x);
        rest := rest - {x};
      }
      assert ids - rest == ids;
    }

    method PendingInQueue(q: string, limit: int) returns (s: seq<RunId>)
      ensures exists full ::
        Preview(rows, q, full) && s == full[..Min(if 1 <= limit <= 500 then limit else 100, |full|)]
    {
      var full := OrderBy(WaitingSet(rows, q));
      assert Preview(rows, q, full);
      s := full[..Min(PageSize(limit), |full|)];
    }

    /** The lease statement for one queue, with nothing else holding row locks. */
    method LeaseQueue(w: string, q: string, remaining: nat, now: Time, exp: Time) returns (out: seq<RunId>)
      modifies this`rows
      ensures Selects(old(rows), queues, q, remaining, now, out)
      ensures rows == LeaseAll(old(rows), out, w, exp)
      ensures |out| <= remaining && (q !in queues || queues[q].paused ==> out == [])
      ensures Served(rows, queues, q, now, |out| == remaining)
    {
      var full := OrderBy(WaitingSet(rows, q));
      var due := DueOf(rows, now, full);
      PreviewPrefixIsLegal(rows, q, now, Room(rows, queues, q, remaining), full);
      out := due[..Min(Room(rows, queues, q, remaining), |due|)];
      LeaseServes(rows, queues, q, remaining, now, out, w, exp);
      rows := LeaseAll(rows, out, w, exp);
    }

    /** LeaseFlowRuns: at most `max` runs, all of them due in open queues that were
        polled, and in the end no polled queue keeps a run waiting without need. */
    method LeaseFlowRuns(w: string, qs: seq<string>, max: int, now: Time, leaseFor: Time)
      returns (out: seq<RunId>, ghost parts: seq<seq<RunId>>)
      modifies this`rows
      ensures max <= 0 ==> out == []
      ensures max > 0 ==>
        out == Flatten(parts) && Dispatches(old(rows), queues, w, LeaseEnd(now, leaseFor), now, qs, max, parts)
      ensures rows == LeaseAll(old(rows), out, w, LeaseEnd(now, leaseFor))
      ensures |out| <= Max(max, 0) && Distinct(out)
      ensures forall i | i in out ::
        Dispatchable(old(rows), queues, qs, now, i) && TakenBy(old(rows)[i], rows[i], w, now, leaseFor)
      ensures max > 0 ==> forall n | 0 <= n < |qs| :: Served(rows, queues, qs[n], now, |out| == max)
    {
      var exp := LeaseEnd(now, leaseFor);
      ghost var rows0 := rows;
      out, parts := [], [];
      if max <= 0 {
        return;
      }
      var remaining: nat := max;
      for i := 0 to |qs|
        invariant |parts| == i && out == Flatten(parts)
        invariant remaining == max - |out|
        invariant rows == LeaseAll(rows0, out, w, exp)
        invariant forall n | 0 <= n < i :: TookTurn(rows0, queues, w, exp, now, qs, max, parts, n)
        invariant forall n | 0 <= n < i :: Served(rows, queues, qs[n], now, |out| == max)
      {
        ghost var before := rows;
        var got: seq<RunId> := [];
        if remaining > 0 {
          got := LeaseQueue(w, qs[i], remaining, now, exp);
        }
        SelectedAreDue(LeaseAll(rows0, out, w, exp), queues, qs[i], remaining, now, got);
        LeaseAllCompose(rows0, out, got, w, exp);
        TurnAppends(rows0, queues, w, exp, now, qs, max, parts, got);
        forall n | 0 <= n < i ensures Served(LeaseAll(before, got, w, exp), queues, qs[n], now, |out + got| == max) {
          StaysServed(before, queues, qs[n], now, |out| == max, |out + got| == max, got, w, exp);
        }
        out, parts := out + got, parts + [got];
        remaining := remaining - |got|;
      }
      DispatchIsBounded(rows0, queues, w, exp, now, qs, max, parts);
      forall i | i in out ensures TakenBy(rows0[i], rows[i], w, now, leaseFor) {
        LeasesLast(rows0[i], w, now, leaseFor);
      }
    }

    method RenewLease(id: RunId, w: string, d: Time, now: Time) returns (held: bool)
      modifies this`rows
      ensures held <==> id < |old(rows)| && Renewable(old(rows)[id], w)
      ensures rows == if held then old(rows)[id := Renewed(old(rows)[id], now + Span(d))] else old(rows)
      ensures held ==> rows[id].worker == Some(w) && rows[id].state in {Running, Pending, Cancelling}
      ensures held && d >= 0 ==> rows[id].lease.Some? && now + d - 1_000_000 < rows[id].lease.value <= now + d
    {
      held := id < |rows| && Renewable(rows[id], w);
      if held {
        rows := rows[id := Renewed(rows[id], now + Span(d))];
      }
    }

    /** The conditional half of SetFlowRunState: WHERE id = $1 AND state = $2. */
    method WriteIf(id: RunId, read: StateType, i: Intent) returns (ok: bool)
      requires id < |rows|
      modifies this`rows
      ensures ok <==> old(rows)[id].state == read
      ensures rows == if ok then old(rows)[id := Written(old(rows)[id], i)] else old(rows)
    {
      ok := rows[id].state == read;
      if ok {
        rows := rows[id := Written(rows[id], i)];
      }
    }

    /** Both halves with nothing in between, so the write cannot miss. */
    method SetFlowRunState(id: RunId, i: Intent, force: bool) returns (res: WriteResult)
      modifies this`rows
      ensures res == SetResult(old(rows), id, i, force)
      ensures rows == SetRows(old(rows), id, i, force)
      ensures res == NotFound <==> id >= |old(rows)|
      ensures id < |old(rows)| ==>
        && (res == Unchanged <==> old(rows)[id].state == Target(i) && Target(i) != Scheduled)
        && (res == InvalidTransition <==>
              !force && res != Unchanged && Target(i) !in AllowedTransitions(old(rows)[id].state))
        && res != Conflict
      ensures rows == if res == Changed then old(rows)[id := Written(old(rows)[id], i)] else old(rows)
    {
      if id >= |rows| {
        return NotFound;
      }
      var read := rows[id].state;
      match Judge(read, Target(i), force)
      case NoOp => res := Unchanged;
      case Invalid => res := InvalidTransition;
      case Proceed =>
        var ok := WriteIf(id, read, i);
        res := if ok then Changed else Conflict;
    }

    /** The push receiver's claim: a state change to PENDING and, only then, the
        lease. A receiver that finds the run already PENDING under somebody else
        passes the first half as a no-op and is refused by the second. */
    method ClaimPushRun(id: RunId, w: string, leaseFor: Time, now: Time) returns (claimed: bool)
      modifies this`rows
      ensures claimed <==> id < |old(rows)| && Claimable(old(rows)[id], w)
      ensures rows == if claimed then ClaimedRows(old(rows), id, w, now + Span(leaseFor)) else old(rows)
      ensures claimed ==>
        && old(rows)[id].state in {Scheduled, Pending} && rows[id].state == Pending && rows[id].worker == Some(w)
        && rows[id].runCount == old(rows)[id].runCount + (if old(rows)[id].state == Scheduled then 1 else 0)
        && (old(rows)[id].state == Pending ==> old(rows)[id].worker == Some(w))
        && (leaseFor >= 0 ==>
              rows[id].lease.Some? && now + leaseFor - 1_000_000 < rows[id].lease.value <= now + leaseFor)
    {
      var res := SetFlowRunState(id, ClaimPush(w), false);
      if res != Changed && res != Unchanged {
        return false;
      }
      claimed := RenewLease(id, w, leaseFor, now);
    }

    method ReclaimExpiredLeases(now: Time) returns (crashed: seq<RunId>)
      modifies this`rows
      ensures Distinct(crashed)
      ensures forall i :: i in crashed <==> 0 <= i < |old(rows)| && Expired(old(rows)[i], now)
      ensures forall i | 0 <= i < |old(rows)| ::
        var r := old(rows)[i];
        i in crashed <==> r.state in {Running, Pending, Cancelling} && r.lease.Some? && r.lease.value < now
      ensures |rows| == |old(rows)|
      ensures forall i | 0 <= i < |rows| ::
        rows[i] == if Expired(old(rows)[i], now) then Crash(old(rows)[i]) else old(rows)[i]
    {
      crashed := [];
      ghost var rows0 := rows;
      for k := 0 to |rows|
        invariant |rows| == |rows0|
        invariant Distinct(crashed)
        invariant forall i :: i in crashed <==> 0 <= i < k && Expired(rows0[i], now)
        invariant forall i | 0 <= i < |rows| ::
          rows[i] == if i < k && Expired(rows0[i], now) then Crash(rows0[i]) else rows0[i]
      {
        if Expired(rows[k], now) {
          rows := rows[k := Crash(rows[k])];
          crashed := crashed + [k];
        }
      }
    }

    method MarkPushDispatched(id: RunId, leaseFor: Time, now: Time) returns (held: bool)
      modifies this`rows
      ensures held <==> id < |old(rows)| && Holdable(old(rows)[id], now)
      ensures rows == if held then old(rows)[id := Held(old(rows)[id], now + Span(leaseFor))] else old(rows)
      ensures id < |old(rows)| ==>
        var r := old(rows)[id];
        held <==> r.state == Scheduled && !(r.worker.Some? && r.lease.Some? && now <= r.lease.value)
      ensures held ==>
        && rows[id] == old(rows)[id].(worker := Some("push-dispatch"), lease := rows[id].lease)
        && (leaseFor >= 0 ==>
              rows[id].lease.Some? && now + leaseFor - 1_000_000 < rows[id].lease.value <= now + leaseFor)
    {
      held := id < |rows| && Holdable(rows[id], now);
      if held {
        rows := rows[id := Held(rows[id], now + Span(leaseFor))];
      }
    }

    method ClearPushDispatch(id: RunId)
      modifies this`rows
      ensures rows == if id < |old(rows)| && Releasable(old(rows)[id])
                      then old(rows)[id := Released(old(rows)[id])] else old(rows)
      ensures |rows| == |old(rows)|
      ensures id < |rows| ==>
        var r := old(rows)[id];
        rows[id] == if r.state == Scheduled && r.worker == Some("push-dispatch")
                    then r.(worker := None, lease := None) else r
    {
      if id < |rows| && Releasable(rows[id]) {
        rows := rows[id := Released(rows[id])];
      }
    }

    method RequestCancel(id: RunId) returns (found: bool)
      modifies this`rows
      ensures found <==> id < |old(rows)|
      ensures rows == if found then old(rows)[id := CancelRequested(old(rows)[id])] else old(rows)
      ensures found ==> rows[id].cancel && !IsActive(rows[id].state) && !Waiting(rows[id], rows[id].queue)
      ensures found ==>
        rows[id].state == match old(rows)[id].state
                          case Scheduled => Cancelled
                          case Running => Cancelling
                          case Pending => Cancelling
                          case other => other
      ensures found ==> forall w :: Renewable(rows[id], w) <==> Renewable(old(rows)[id], w)
    {
      found := id < |rows|;
      if found {
        rows := rows[id := CancelRequested(rows[id])];
      }
    }

    method RescheduleRun(id: RunId, at: Time) returns (found: bool)
      modifies this`rows
      ensures found <==> id < |old(rows)|
      ensures rows == if found then old(rows)[id := Rescheduled(old(rows)[id], at)] else old(rows)
      ensures found ==> forall t :: Due(rows[id], rows[id].queue, t) <==> at <= t
      ensures found ==> forall w :: !Renewable(rows[id], w)
      ensures found ==> rows[id].worker.None? && rows[id].lease.None? && rows[id].runCount == old(rows)[id].runCount
    {
      found := id < |rows|;
      if found {
        rows := rows[id := Rescheduled(rows[id], at)];
      }
    }

    method ResumeSuspendedRun(id: RunId, at: Time) returns (found: bool)
      modifies this`rows
      ensures found <==> id < |old(rows)| && old(rows)[id].state == Scheduled
      ensures rows == if found then old(rows)[id := Resumed(old(rows)[id], at)] else old(rows)
    {
      found := id < |rows| && rows[id].state == Scheduled;
      if found {
        rows := rows[id := Resumed(rows[id], at)];
      }
    }

    method MoveRunToFront(id: RunId) returns (found: bool)
      modifies this`rows
      ensures found <==> id < |old(rows)|
      ensures rows == if found then MovedToFront(old(rows), id) else old(rows)
      ensures found && Waiting(rows[id], rows[id].queue) ==>
        forall s :: Preview(rows, rows[id].queue, s) ==> s != [] && s[0] == id
    {
      found := id < |rows|;
      if found {
        if Waiting(rows[id], rows[id].queue) {
          forall s | Preview(MovedToFront(rows, id), rows[id].queue, s) ensures s != [] && s[0] == id {
            FrontRunLeads(rows, id, s);
          }
        }
        rows := MovedToFront(rows, id);
      }
    }
  }

  function SetResult(rows: seq<Run>, id: RunId, i: Intent, force: bool): WriteResult {
    if id >= |rows| then NotFound
    else match Judge(rows[id].state, Target(i), force)
      case NoOp => Unchanged
      case Invalid => InvalidTransition
      case Proceed => Changed
  }

  function SetRows(rows: seq<Run>, id: RunId, i: Intent, force: bool): seq<Run> {
    if id < |rows| && Judge(rows[id].state, Target(i), force).Proceed? then rows[id := Written(rows[id], i)] else rows
  }

  predicate Claimable(r: Run, w: string) { r.state == Scheduled || (r.state == Pending && r.worker == Some(w)) }

  function ClaimedRows(rows: seq<Run>, id: RunId, w: string, exp: Time): seq<Run>
    requires id < |rows|
  {
    var r := rows[id];
    rows[id := if r.state == Scheduled then Leased(r, w, exp) else Renewed(r, exp)]
  }
}
