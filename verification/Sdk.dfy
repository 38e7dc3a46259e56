/** The SDK's imperative code: Task, WaitUntil and RunDeploymentAndWait, as one
    attempt executes them. Each call is proved to be a sequence of steps of the
    Replay machine, so what holds of every run of that machine holds of this code. */
module Sdk {
  import opened Base
  import opened States
  import opened Rows
  import opened Keys
  import opened Attempts
  import opened Replay
  import Lineage

  lemma {:induction false} ExecuteMore(c: Config, s: Sys, steps: seq<Step>, st: Step)
    ensures Execute(c, s, steps + [st]) == Next(c, Execute(c, s, steps), st)
    decreases |steps|
  {
    if steps == [] {
      assert [] + [st] == [st];
      assert Execute(c, s, [st]) == Execute(c, Next(c, s, st), [st][1..]);
    } else {
      assert (steps + [st])[1..] == steps[1..] + [st];
      ExecuteMore(c, Next(c, s, steps[0]), steps[1..], st);
    }
  }

  /** What the outside world does to one SDK call: whether its reads succeed, how
      its saves go, what each call of the body returns, and before which retry the
      context is cancelled. */
  datatype World = World(
    loaded: bool, cached: Option<Val>, first: Save, last: Save, body: nat -> Res, stops: nat -> bool)

  /** A body that just returns a value. */
  function Always(v: Val): nat -> Res { i => Ok(v) }

  /** An error that is neither a suspension, nor a cancellation, nor for good. */
  predicate IsPlain(r: Res) { r.Err? && r.e.suspend.None? && !r.e.permanent && !r.e.cancelled }

  /** Every call of the body fails plainly and nothing cancels the backing off. */
  ghost predicate NeverSettles(body: nat -> Res, stops: nat -> bool) {
    (forall i: nat :: IsPlain(body(i))) && forall n: nat :: !stops(n)
  }

  lemma BorrowedIs(c: Config, s: Sys, k: string, v: Val, w: Save)
    requires s.exec.Some? && s.exec.value.phase == Opening(k, None)
    requires c.code(s.exec.value.hist).Task? && c.code(s.exec.value.hist).cached
    ensures Next(c, s, Borrow(v, w)) ==
      s.(table := Saved(s.table, k, Cp(Done, Some(v)), w), log := s.log + [Borrowed(k, v)],
         exec := Some(Replay.Answer(s.exec.value, Ok(v), if w.Lost? then Lent(v) else Recorded)))
  {
  }

  /** The SDK context of one attempt, with the rows it reads and writes. The ghost
      fields say which run of the machine this is. */
  class Context {
    const id: string
    const self: RunId
    const threshold: Time
    var table: Table
    var rows: seq<Run>
    var ord: map<string, nat>
    var cancelled: bool
    var now: Time
    ghost const c: Config
    ghost const start: Sys
    ghost var trace: seq<Step>

    /** A new attempt on the state that earlier ones left behind. */
    constructor (id: string, self: RunId, threshold: Time, table: Table, rows: seq<Run>, now: Time,
                 ghost c: Config, ghost start: Sys)
      requires start.exec.None? && start.table == table && start.rows == rows && start.now == now
      requires c.id == id && c.self == self && c.threshold == threshold
      ensures Idle() && Hist() == [] && this.c == c && this.start == start && trace == [Begin]
    {
      this.id, this.self, this.threshold := id, self, threshold;
      this.table, this.rows, this.now := table, rows, now;
      this.ord, this.cancelled := map[], false;
      this.c, this.start, this.trace := c, start, [Begin];
      new;
      assert Execute(c, start, [Begin]) == Execute(c, Next(c, start, Begin), [Begin][1..]);
    }

    /** The machine's state after the steps taken so far. */
    ghost function Now(): Sys
      reads this`trace
    {
      Execute(c, start, trace)
    }

    ghost predicate Agrees()
      reads this
    {
      var s := Now();
      && s.table == table && s.rows == rows && s.now == now
      && c.id == id && c.self == self && c.threshold == threshold
      && s.exec.Some? && s.exec.value.ord == ord && s.exec.value.cancelled == cancelled
    }

    ghost predicate Idle()
      reads this
    {
      Agrees() && Now().exec.value.phase.Ready?
    }

    ghost function Hist(): seq<Res>
      requires Agrees()
      reads this
    {
      Now().exec.value.hist
    }

    ghost method Do(st: Step)
      modifies this`trace
      ensures trace == old(trace) + [st] && Now() == Next(c, old(Now()), st)
    {
      ExecuteMore(c, start, trace, st);
      trace := trace + [st];
    }

    /** nextKey, or the key the author gave. */
    method DrawKey(a: Act) returns (k: string)
      modifies this`ord
      ensures k == KeyOf(a, old(ord)) && ord == Drawn(a, old(ord))
    {
      match Counter(a)
      case Some(name) =>
        ord := ord[name := Count(ord, name) + 1];
        k := Generated(name, ord[name]);
      case None =>
        k := if a.Task? then a.pinned else if a.Wait? then "wait:" + a.key else "";
    }

    method SaveCheckpoint(k: string, cp: Cp, w: Save) returns (ok: bool)
      modifies this`table
      ensures ok == w.Stored? && table == Saved(old(table), k, cp, w)
    {
      if !w.Lost? {
        table := table[k := cp];
      }
      ok := w.Stored?;
    }

    /** One call of the body, written down. */
    ghost method CallOnce(a: Act, k: string, n: nat, fixed: Option<Val>, r: Res)
      requires Now().exec.Some? && Now().exec.value.phase == Trying(k, n, fixed) && c.code(Now().exec.value.hist) == a
      modifies this`trace
      ensures old(trace) <= trace && old(Now()).log <= Now().log
      ensures Durable(a) ==> Calls(Now().log, k) == Calls(old(Now()).log, k) + 1
      ensures var out := if fixed.Some? then Ok(fixed.value) else r;
        Now() == old(Now()).(log := Now().log, exec := Some(old(Now()).exec.value.(
                   phase := Attempted(a, k, n, fixed, out))))
    {
      OneMoreEntry(Now().log, Ran(k, if fixed.Some? then Ok(fixed.value) else r), k);
      Do(Body(r));
    }

    /** n calls of the body that all fail retryably, within the retry budget. */
    ghost method DoBodies(a: Act, k: string, fixed: Option<Val>, body: nat -> Res, n: nat)
      requires Now().exec.Some? && Now().exec.value.phase == Trying(k, 0, fixed) && c.code(Now().exec.value.hist) == a
      requires n <= Retries(a)
      requires forall i: nat | i < n :: Retryable(body(i))
      requires n > 0 ==> fixed.None?
      modifies this`trace
      ensures old(trace) <= trace && old(Now()).log <= Now().log
      ensures Durable(a) ==> Calls(Now().log, k) == Calls(old(Now()).log, k) + n
      ensures Now() == old(Now()).(log := Now().log, exec := Some(old(Now()).exec.value.(phase := Trying(k, n, fixed))))
    {
      for i := 0 to n
        invariant old(trace) <= trace && old(Now()).log <= Now().log
        invariant Durable(a) ==> Calls(Now().log, k) == Calls(old(Now()).log, k) + i
        invariant Now() == old(Now()).(log := Now().log,
                                       exec := Some(old(Now()).exec.value.(phase := Trying(k, i, fixed))))
      {
        CallOnce(a, k, i, fixed, body(i));
      }
    }

    /** runAttempts: the body is called once, and again while it fails plainly and the
        options' retries last. */
    method RunBody(a: Act, k: string, ghost fixed: Option<Val>, body: nat -> Res, stops: nat -> bool)
      returns (r: Res, calls: nat)
      requires Now().exec.Some? && Now().exec.value.phase == Tried(a, k, fixed) && c.code(Now().exec.value.hist) == a
      requires Now().exec.value.cancelled == cancelled
      requires fixed.Some? ==> a.Wait? && forall i: nat :: body(i) == Ok(fixed.value)
      modifies this`trace, this`cancelled
      ensures old(trace) <= trace && old(Now()).log <= Now().log
      ensures Now() == old(Now()).(log := Now().log, exec := Some(old(Now()).exec.value.(
                         phase := Closing(k, r), cancelled := cancelled)))
      ensures fixed.Some? ==> r == Ok(fixed.value)
      ensures Durable(a) ==> Calls(Now().log, k) == Calls(old(Now()).log, k) + calls
      ensures calls <= if a.Task? then Max(a.retries + 1, 0) else 1
      ensures a.Task? && NeverSettles(body, stops) ==> calls == Max(a.retries + 1, 0) && IsPlain(r)
    {
      var out, attempts;
      out, attempts, calls := RunAttempts(Retries(a), body, stops);
      match out
      case Came(got) =>
        LastBody(a, k, fixed, body, calls - 1);
        r := got;
      case CancelledInBackoff =>
        DoBodies(a, k, fixed, body, calls);
        Do(Cancel);
        Do(StopBackoff);
        cancelled := true;
        r := Err(CANCELLED);
      case Exhausted =>
        if calls == 0 {
          r := Err(Plain(2));
        } else {
          LastBody(a, k, fixed, body, calls - 1);
          r := Err(Plain(body(calls - 1).e.message));
        }
    }

    /** The call of the body after which there is no other. */
    ghost method LastBody(a: Act, k: string, fixed: Option<Val>, body: nat -> Res, n: nat)
      requires Now().exec.Some? && Now().exec.value.phase == Trying(k, 0, fixed) && c.code(Now().exec.value.hist) == a
      requires n <= Retries(a) && (!Retryable(body(n)) || n == Retries(a))
      requires forall i: nat | i < n :: Retryable(body(i))
      requires fixed.Some? ==> n == 0 && body(0) == Ok(fixed.value)
      modifies this`trace
      ensures old(trace) <= trace && old(Now()).log <= Now().log
      ensures Durable(a) ==> Calls(Now().log, k) == Calls(old(Now()).log, k) + n + 1
      ensures Now() == old(Now()).(log := Now().log, exec := Some(old(Now()).exec.value.(phase := Closing(k,
                         if Retryable(body(n)) then Err(Plain(body(n).e.message)) else body(n)))))
    {
      DoBodies(a, k, fixed, body, n);
      CallOnce(a, k, n, fixed, body(n));
    }

    /** The start of Task: cancellation, the key, and the checkpoint read. A wait has
        drawn its key before Task sees the cancellation. */
    method Lookup(a: Act, loaded: bool) returns (k: string, found: Option<Res>)
      requires Idle() && c.code(Hist()) == a && Durable(a)
      modifies this`ord, this`trace
      ensures Agrees() && old(trace) <= trace && Now().log == old(Now().log)
      ensures ord == if cancelled && a.Task? then old(ord) else Drawn(a, old(ord))
      ensures !cancelled ==> k == KeyOf(a, old(ord))
      ensures found == if cancelled then Some(Err(CANCELLED)) else if !loaded then Some(Err(Plain(1)))
                       else if OnRecord(table, k) then Some(Ok(Value(table[k].result))) else None
      ensures found.None? ==>
        Hist() == old(Hist())
        && Now().exec.value.phase == Opening(k, if a.Wait? then Some(WakeAt(a.alarm, now)) else None)
      ensures found.Some? && found.value.Ok? && a.Wait? ==>
        Hist() == old(Hist()) && Now().exec.value.phase == Waking(k, found.value.v)
      ensures found.Some? && !(found.value.Ok? && a.Wait?) ==> Idle() && Hist() == old(Hist()) + [found.value]
    {
      if cancelled && a.Task? {
        Do(Enter(loaded));
        return "", Some(Err(CANCELLED));
      }
      k := DrawKey(a);
      Do(Enter(loaded));
      if cancelled {
        return k, Some(Err(CANCELLED));
      }
      if !loaded {
        return k, Some(Err(Plain(1)));
      }
      found := if OnRecord(table, k) then Some(Ok(Value(table[k].result))) else None;
    }

    /** A task that keeps no checkpoint. */
    method Ephemeral(a: Act, world: World) returns (r: Res, calls: nat)
      requires Idle() && c.code(Hist()) == a && a.Task? && a.ephemeral && !cancelled
      modifies this`cancelled, this`trace
      ensures Idle() && old(trace) <= trace && Hist() == old(Hist()) + [r]
      ensures calls <= Max(a.retries + 1, 0)
      ensures NeverSettles(world.body, world.stops) ==> calls == Max(a.retries + 1, 0) && IsPlain(r)
    {
      Do(Enter(world.loaded));
      r, calls := RunBody(a, "", None, world.body, world.stops);
      Do(Close(Lost));
    }

    /** Task, with the options of `a`; for a wait, the task that pins its wake instant.
        `calls` is how often the body was called. */
    method Task(a: Act, world: World) returns (r: Res, calls: nat)
      requires Idle() && c.code(Hist()) == a && (a.Task? || a.Wait?)
      modifies this`table, this`ord, this`cancelled, this`trace
      ensures Agrees() && old(trace) <= trace
      ensures a.Wait? && r.Ok? ==>
        var k := KeyOf(a, old(ord));
        && Hist() == old(Hist()) && Now().exec.value.phase == Waking(k, r.v)
        && OnRecord(table, k) && Value(table[k].result) == r.v
      ensures !(a.Wait? && r.Ok?) ==> Idle() && Hist() == old(Hist()) + [r]
      ensures a.Wait? && r.Err? ==> r.e.suspend.None?
      ensures old(cancelled) ==>
        && r.Err? && r.e.cancelled && r.e.suspend.None? && calls == 0
        && table == old(table) && ord == if a.Task? then old(ord) else Drawn(a, old(ord))
      ensures var k := KeyOf(a, old(ord));
        !old(cancelled) && Durable(a) && world.loaded && OnRecord(old(table), k) ==>
          r == Ok(Value(old(table)[k].result)) && table == old(table) && Now().log == old(Now().log) && calls == 0
      ensures var k := KeyOf(a, old(ord));
        Durable(a) && r.Ok? && !(a.Task? && a.cached) && !OnRecord(old(table), k) ==>
          k in table && table == old(table)[k := Cp(Done, Some(r.v))]
      ensures calls <= if a.Task? then Max(a.retries + 1, 0) else 1
      ensures var k := KeyOf(a, old(ord)); Durable(a) ==> Calls(Now().log, k) == Calls(old(Now()).log, k) + calls
      ensures var k := KeyOf(a, old(ord));
        a.Task? && !old(cancelled) && NeverSettles(world.body, world.stops)
        && (a.ephemeral || (world.loaded && !OnRecord(old(table), k) && !(a.cached && world.cached.Some?))) ==>
          calls == Max(a.retries + 1, 0) && IsPlain(r)
      ensures var k := KeyOf(a, old(ord));
        a.Wait? && r.Ok? && !OnRecord(old(table), k) ==> r.v == if a.alarm.At? then a.alarm.t else now + a.alarm.d
      ensures var k := KeyOf(a, old(ord));
        a.Wait? && !old(cancelled) && world.loaded && world.last.Stored? ==> r.Ok?
    {
      if a.Task? && a.ephemeral && !cancelled {
        r, calls := Ephemeral(a, world);
      } else if a.Task? && a.ephemeral {
        Do(Enter(world.loaded));
        r, calls := Err(CANCELLED), 0;
      } else {
        r, calls := Checkpointed(a, KeyOf(a, ord), world);
      }
    }

    /** The part of Task for a step that keeps a checkpoint, under key `k`. */
    method Checkpointed(a: Act, ghost k: string, world: World) returns (r: Res, calls: nat)
      requires Idle() && c.code(Hist()) == a && Durable(a) && k == KeyOf(a, ord)
      modifies this`table, this`ord, this`cancelled, this`trace
      ensures Agrees() && old(trace) <= trace
      ensures a.Wait? && r.Ok? ==>
        && Hist() == old(Hist()) && Now().exec.value.phase == Waking(k, r.v)
        && OnRecord(table, k) && Value(table[k].result) == r.v
      ensures !(a.Wait? && r.Ok?) ==> Idle() && Hist() == old(Hist()) + [r]
      ensures a.Wait? && r.Err? ==> r.e.suspend.None?
      ensures old(cancelled) ==>
        && r.Err? && r.e.cancelled && r.e.suspend.None? && calls == 0
        && table == old(table) && ord == if a.Task? then old(ord) else Drawn(a, old(ord))
      ensures !old(cancelled) && world.loaded && OnRecord(old(table), k) ==>
        r == Ok(Value(old(table)[k].result)) && table == old(table) && Now().log == old(Now().log) && calls == 0
      ensures r.Ok? && !(a.Task? && a.cached) && !OnRecord(old(table), k) ==>
        k in table && table == old(table)[k := Cp(Done, Some(r.v))]
      ensures calls <= if a.Task? then Max(a.retries + 1, 0) else 1
      ensures Calls(Now().log, k) == Calls(old(Now()).log, k) + calls
      ensures a.Task? && !old(cancelled) && NeverSettles(world.body, world.stops)
              && world.loaded && !OnRecord(old(table), k) && !(a.cached && world.cached.Some?) ==>
        calls == Max(a.retries + 1, 0) && IsPlain(r)
      ensures a.Wait? && r.Ok? && !OnRecord(old(table), k) ==> r.v == if a.alarm.At? then a.alarm.t else now + a.alarm.d
      ensures a.Wait? && !old(cancelled) && world.loaded && world.last.Stored? ==> r.Ok?
    {
      var k', found := Lookup(a, world.loaded);
      if found.Some? {
        return found.value, 0;
      }
      if a.Task? && a.cached && world.cached.Some? {
        calls := 0;
        r := UseCached(a, k', world.cached.value, world.first);
      } else {
        r, calls := RunAndSave(a, k', world);
      }
    }

    /** A result found in the cross-run cache becomes the step's own. */
    method UseCached(ghost a: Act, k: string, v: Val, w: Save) returns (r: Res)
      requires Agrees() && c.code(Hist()) == a && a.Task? && a.cached && Durable(a)
      requires Now().exec.value.phase == Opening(k, None)
      modifies this`table, this`trace
      ensures Idle() && old(trace) <= trace && Hist() == old(Hist()) + [r]
      ensures r == Ok(v) && table == Saved(old(table), k, Cp(Done, Some(v)), w)
      ensures Calls(Now().log, k) == Calls(old(Now()).log, k)
    {
      OneMoreEntry(Now().log, Borrowed(k, v), k);
      BorrowedIs(c, Now(), k, v, w);
      var _ := SaveCheckpoint(k, Cp(Done, Some(v)), w);
      Do(Borrow(v, w));
      r := Ok(v);
    }

    /** The part of Task that runs the body. */
    method RunAndSave(a: Act, k: string, world: World) returns (r: Res, calls: nat)
      requires Agrees() && c.code(Hist()) == a && Durable(a)
      requires Now().exec.value.phase == Opening(k, if a.Wait? then Some(WakeAt(a.alarm, now)) else None)
      modifies this`table, this`cancelled, this`trace
      ensures Agrees() && old(trace) <= trace
      ensures a.Wait? && r.Ok? ==> Hist() == old(Hist()) && Now().exec.value.phase == Waking(k, r.v)
      ensures !(a.Wait? && r.Ok?) ==> Idle() && Hist() == old(Hist()) + [r]
      ensures r.Ok? ==> k in table && table == old(table)[k := Cp(Done, Some(r.v))]
      ensures a.Wait? && r.Err? ==> r.e.suspend.None?
      ensures calls <= if a.Task? then Max(a.retries + 1, 0) else 1
      ensures Calls(Now().log, k) == Calls(old(Now()).log, k) + calls
      ensures a.Task? && NeverSettles(world.body, world.stops) ==> calls == Max(a.retries + 1, 0) && IsPlain(r)
      ensures a.Wait? && r.Ok? ==> r.v == if a.alarm.At? then a.alarm.t else now + a.alarm.d
      ensures a.Wait? && world.last.Stored? ==> r.Ok?
    {
      ghost var fixed := if a.Wait? then Some(WakeAt(a.alarm, now)) else None;
      var body := if a.Wait? then Always(WakeAt(a.alarm, now)) else world.body;
      r, calls := OpenAndRun(a, k, fixed, body, world.stops, world.first);
      r := SaveOutcome(a, k, r, world.last);
    }

    method OpenAndRun(a: Act, k: string, ghost fixed: Option<Val>, body: nat -> Res, stops: nat -> bool, w: Save)
      returns (r: Res, calls: nat)
      requires Agrees() && c.code(Hist()) == a && Durable(a) && Now().exec.value.phase == Opening(k, fixed)
      requires fixed.Some? <==> a.Wait?
      requires fixed.Some? ==> forall i: nat :: body(i) == Ok(fixed.value)
      modifies this`table, this`cancelled, this`trace
      ensures Agrees() && old(trace) <= trace
      ensures Hist() == old(Hist()) && Now().exec.value.phase == Closing(k, r)
      ensures table == Saved(old(table), k, Cp(Open, None), w)
      ensures fixed.Some? ==> r == Ok(fixed.value)
      ensures Calls(Now().log, k) == Calls(old(Now()).log, k) + calls
      ensures calls <= if a.Task? then Max(a.retries + 1, 0) else 1
      ensures a.Task? && NeverSettles(body, stops) ==> calls == Max(a.retries + 1, 0) && IsPlain(r)
    {
      var _ := SaveCheckpoint(k, Cp(Open, None), w);
      Do(OpenCp(w));
      r, calls := RunBody(a, k, fixed, body, stops);
    }

    /** A suspension leaves the checkpoint open; anything else is recorded. */
    method SaveOutcome(a: Act, k: string, r: Res, w: Save) returns (out: Res)
      requires Agrees() && c.code(Hist()) == a && Durable(a) && Now().exec.value.phase == Closing(k, r)
      modifies this`table, this`trace
      ensures Agrees() && old(trace) <= trace
      ensures a.Wait? && out.Ok? ==> Hist() == old(Hist()) && Now().exec.value.phase == Waking(k, out.v)
      ensures !(a.Wait? && out.Ok?) ==> Idle() && Hist() == old(Hist()) + [out]
      ensures Now().log == old(Now()).log
      ensures table == (if r.Err? && r.e.suspend.Some? then old(table)
                        else Saved(old(table), k, if r.Ok? then Cp(Done, Some(r.v)) else Cp(Broken, None), w))
      ensures out.Ok? <==> r.Ok? && w.Stored?
      ensures out == if r.Err? || w.Stored? then r else Err(Plain(3))
    {
      out := r;
      if r.Err? {
        if r.e.suspend.None? {
          var _ := SaveCheckpoint(k, Cp(Broken, None), w);
        }
      } else {
        var ok := SaveCheckpoint(k, Cp(Done, Some(r.v)), w);
        if !ok {
          out := Err(Plain(3));
        }
      }
      Do(Close(w));
    }

    /** WaitUntil and Sleep. `cut` says that the context is cancelled during a short wait.
        The instant waited for is the one on record, and for a wait that is reached for
        the first time the one asked for. */
    method WaitUntil(a: Act, world: World, cut: bool) returns (r: Res)
      requires Idle() && c.code(Hist()) == a && a.Wait?
      modifies this
      ensures Idle() && Hist() == old(Hist()) + [r] && old(trace) <= trace && old(now) <= now
      ensures var k := KeyOf(a, old(ord));
        && (r.Ok? ==> OnRecord(table, k) && now >= Value(table[k].result))
        && (r.Err? && r.e.suspend.Some? ==>
              OnRecord(table, k) && r.e.suspend == Some(Value(table[k].result))
              && r.e.suspend.value - now > threshold)
      ensures var (k, asked) := (KeyOf(a, old(ord)), if a.alarm.At? then a.alarm.t else old(now) + a.alarm.d);
        !OnRecord(old(table), k) ==>
          && (r.Ok? ==> now >= asked)
          && (r.Err? && r.e.suspend.Some? ==> r.e.suspend == Some(asked))
      ensures var (k, asked) := (KeyOf(a, old(ord)), if a.alarm.At? then a.alarm.t else old(now) + a.alarm.d);
        !OnRecord(old(table), k) && !old(cancelled) && world.loaded && world.last.Stored? ==>
          && (r.Err? && r.e.suspend.Some? <==> asked > old(now) && asked - old(now) > threshold)
          && (r.Ok? <==> asked <= old(now) || (asked - old(now) <= threshold && !cut))
    {
      var calls;
      r, calls := Task(a, world);
      if r.Err? {
        return;
      }
      r := AwaitWake(a, KeyOf(a, old(ord)), r.v, cut);
    }

    /** The rest of WaitUntil: go on, suspend, or block for a short while. */
    method AwaitWake(ghost a: Act, ghost k: string, wake: Time, cut: bool) returns (r: Res)
      requires Agrees() && c.code(Hist()) == a && a.Wait? && Now().exec.value.phase == Waking(k, wake)
      modifies this`cancelled, this`now, this`trace
      ensures Idle() && Hist() == old(Hist()) + [r] && old(trace) <= trace && old(now) <= now
      ensures r.Ok? ==> now >= wake
      ensures r.Err? && r.e.suspend.Some? ==> r.e.suspend == Some(wake) && wake - now > threshold
      ensures r.Err? && r.e.suspend.Some? <==> wake > old(now) && wake - old(now) > threshold
      ensures r.Ok? <==> wake <= old(now) || (wake - old(now) <= threshold && !cut)
    {
      Do(Wake);
      if now >= wake {
        return Ok(0);
      }
      if wake - now > threshold {
        return Err(Nap(wake));
      }
      r := Block(k, wake, cut);
    }

    /** Sleep in place until the wake instant or the cancellation. */
    method Block(ghost k: string, wake: Time, cut: bool) returns (r: Res)
      requires Agrees() && Now().exec.value.phase == Blocked(k, wake) && now < wake
      modifies this`cancelled, this`now, this`trace
      ensures Idle() && Hist() == old(Hist()) + [r] && old(trace) <= trace && old(now) <= now
      ensures if cut then r == Err(CANCELLED) else r == Ok(0) && now == wake
    {
      if cut {
        cancelled := true;
        Do(Cancel);
        Do(Unblock(true));
        r := Err(CANCELLED);
      } else {
        Do(Tick(wake - now));
        assert Now() == old(Now()).(now := wake);
        Do(Unblock(false));
        now := wake;
        r := Ok(0);
      }
    }

    /** RunDeploymentAndWait. `n` is the run that the deployment of that name asks for,
        if there is such a deployment; `limit` is the configured sub-flow depth. */
    method RunDeploymentAndWait(a: Act, loaded: bool, n: Option<NewRun>, limit: int, heard: bool, w: Save, polled: bool)
      returns (r: Res, child: int, ghost asked: bool)
      requires Idle() && c.code(Hist()) == a && a.Sub?
      requires Lineage.Linked(rows) && self < |rows| && (n.Some? ==> n.value.deployment.Some?)
      modifies this
      ensures Idle() && Hist() == old(Hist()) + [r] && old(trace) <= trace
      ensures r.Ok? ==> 0 <= child < |rows| && rows[child].state.Completed? && r.v == Value(rows[child].result)
      ensures r.Err? && r.e.suspend.Some? ==>
        0 <= child < |rows| && !IsTerminal(rows[child].state) && r.e.suspend == Some(now + 30 * SECOND)
      ensures var k := KeyOf(a, old(ord));
        k in old(table) && ReadsAsRun(old(table)[k].result) ==>
          && table == old(table) && rows == old(rows)
          && (loaded && polled ==> child == table[k].result.value && r == Polled(rows, now, child, true))
      ensures asked && polled && 0 <= child < |rows| && rows[child].state in {Failed, Cancelled} ==>
        r.Err? && r.e.permanent
      ensures !asked ==> r.Err? && r.e.suspend.None?
    {
      asked := false;
      var k, known: bool;
      k, known, child := LookupChild(a, loaded);
      if !loaded {
        return Err(Plain(1)), child, asked;
      }
      if !known {
        r, child := StartChild(a, k, n, limit, heard, w);
        if r.Err? {
          return;
        }
      }
      r := PollChild(k, child, polled);
      asked := true;
    }

    method PollChild(ghost k: string, child: int, polled: bool) returns (r: Res)
      requires Agrees() && Now().exec.value.phase == Polling(k, child)
      modifies this`trace
      ensures Idle() && Hist() == old(Hist()) + [r] && old(trace) <= trace
      ensures r == Polled(rows, now, child, polled)
    {
      r := Polled(rows, now, child, polled);
      Do(Poll(polled));
    }

    /** The child a former attempt noted on the step's checkpoint. */
    method LookupChild(a: Act, loaded: bool) returns (k: string, known: bool, child: int)
      requires Idle() && c.code(Hist()) == a && a.Sub?
      modifies this`ord, this`trace
      ensures Agrees() && old(trace) <= trace && k == KeyOf(a, old(ord))
      ensures known <==> loaded && k in table && ReadsAsRun(table[k].result)
      ensures known ==> child == table[k].result.value
      ensures !loaded ==> Idle() && Hist() == old(Hist()) + [Err(Plain(1))]
      ensures loaded ==> Hist() == old(Hist())
      ensures known ==> Now().exec.value.phase == Polling(k, child)
      ensures loaded && !known ==> Now().exec.value.phase == Placing(k)
    {
      k := DrawKey(a);
      Do(Enter(loaded));
      known := loaded && k in table && ReadsAsRun(table[k].result);
      child := if known then table[k].result.value else -1;
    }

    /** Trigger the deployment under the step's idempotency key, then note the child.
        An unknown deployment is an error like any other; what the guard refuses is
        refused for good. */
    method StartChild(a: Act, k: string, n: Option<NewRun>, limit: int, heard: bool, w: Save)
      returns (r: Res, child: int)
      requires Agrees() && c.code(Hist()) == a && Now().exec.value.phase == Placing(k)
      requires Lineage.Linked(rows) && self < |rows| && (n.Some? ==> n.value.deployment.Some?)
      modifies this`rows, this`table, this`trace
      ensures Agrees() && old(trace) <= trace
      ensures r.Ok? ==> Hist() == old(Hist()) && Now().exec.value.phase == Polling(k, child)
      ensures r.Err? ==> Idle() && Hist() == old(Hist()) + [r] && r.e.suspend.None?
      ensures n.None? ==> r == Err(Plain(6)) && rows == old(rows)
      ensures n.Some? && !Lineage.GuardPasses(old(rows), self, n.value.deployment.value, limit) ==>
        r == Err(Fatal(6)) && rows == old(rows)
      ensures r.Err? && !r.e.permanent && n.Some? ==> !heard || !w.Stored?
    {
      child := -1;
      if n.None? {
        Do(Refuse(false));
        return Err(Plain(6)), child;
      }
      var passes := Lineage.GuardSubflow(rows, self, n.value.deployment.value, limit);
      if !passes {
        Do(Refuse(true));
        return Err(Fatal(6)), child;
      }
      r, child := PlaceAndNote(a, k, n.value, heard, w);
    }

    method PlaceAndNote(ghost a: Act, k: string, n: NewRun, heard: bool, w: Save) returns (r: Res, child: int)
      requires Agrees() && c.code(Hist()) == a && Now().exec.value.phase == Placing(k)
      modifies this`rows, this`table, this`trace
      ensures Agrees() && old(trace) <= trace
      ensures r.Ok? ==> Hist() == old(Hist()) && Now().exec.value.phase == Polling(k, child)
      ensures r.Err? ==> Idle() && Hist() == old(Hist()) + [r] && r.e.suspend.None? && (!heard || !w.Stored?)
      ensures child == Insert(old(rows), ChildOf(c, k, n), now).1
    {
      child := TriggerDeployment(k, n, heard);
      if !heard {
        return Err(Plain(7)), child;
      }
      var ok := SaveCheckpoint(k, Cp(Open, Some(child)), w);
      Do(Note(w));
      r := if ok then Ok(child) else Err(Plain(8));
    }

    method TriggerDeployment(k: string, n: NewRun, heard: bool) returns (child: int)
      requires Agrees() && Now().exec.value.phase == Placing(k)
      modifies this`rows, this`trace
      ensures Agrees() && old(trace) <= trace
      ensures (rows, child) == Insert(old(rows), n.(idemKey := Some(ChildKey(id, k)), parent := Some(self)), now)
      ensures heard ==> Hist() == old(Hist()) && Now().exec.value.phase == Noting(k, child)
      ensures !heard ==> Idle() && Hist() == old(Hist()) + [Err(Plain(7))]
    {
      var made := Insert(rows, n.(idemKey := Some(ChildKey(id, k)), parent := Some(self)), now);
      rows, child := made.0, made.1;
      Do(Place(n, heard));
    }
  }
}
