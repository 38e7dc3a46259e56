/** When two workers execute one run at once: user code running, beside the store's
    steps. An execution begins when a start is not refused, and ends before the
    outcome is settled, or with its process. */
module Execution {
  import opened Base
  import opened States
  import opened Rows
  import opened Protocol

  /** `execs` says which run's code each process is executing. */
  datatype World = World(s: Sys, execs: map<string, RunId>)

  datatype Move = Store(st: Step) | StartRun(p: string, w: string) | Stop(p: string)

  /** SetFlowRunState to RUNNING comes back without an error: the write takes effect,
      or the state that was read is RUNNING already. */
  predicate NotRefused(s: Sys, p: string, w: string) {
    p in s.snaps && (s.snaps[p].state == Running || Applies(s, p, Start(w), false))
  }

  ghost function After(x: World, m: Move): World {
    match m
    case Store(st) => x.(s := Next(x.s, st))
    case StartRun(p, w) =>
      World(Next(x.s, Write(p, Start(w), false)),
            if p !in x.execs && NotRefused(x.s, p, w) then x.execs[p := x.s.snaps[p].run] else x.execs)
    case Stop(p) => x.(execs := x.execs - {p})
  }

  ghost function AfterAll(x: World, ms: seq<Move>): World
    decreases |ms|
  {
    if ms == [] then x else AfterAll(After(x, ms[0]), ms[1..])
  }

  /** The step takes run `i` away from whoever executes it: the janitor, an operator's
      reschedule, or a write that takes effect and is no start. */
  ghost predicate Evicts(s: Sys, st: Step, i: RunId) {
    && Free(s, i) && InCode(s.rows[i])
    && match st
       case Reclaim(j) => j == i && Expired(s.rows[i], s.now)
       case Reschedule(j, _) => j == i
       case Write(p, intent, force) => Applies(s, p, intent, force) && s.snaps[p].run == i && !intent.Start?
       case _ => false
  }

  lemma EvictsExactly(s: Sys, st: Step, i: RunId)
    requires LocksSound(s) && i < |s.rows| && InCode(s.rows[i])
    ensures i < |Next(s, st).rows|
    ensures InCode(Next(s, st).rows[i]) <==> !Evicts(s, st, i)
  {
    if st.Write? {
      if Applies(s, st.p, st.intent, st.force) {
        assert Next(s, st).rows == s.rows[s.snaps[st.p].run := Written(s.rows[s.snaps[st.p].run], st.intent)];
      }
    } else if SingleRow(st) {
      TouchedEvicts(s, st, i);
    } else {
      QuietStepsEvictNobody(s, st, i);
    }
  }

  lemma TouchedEvicts(s: Sys, st: Step, i: RunId)
    requires i < |s.rows| && InCode(s.rows[i]) && SingleRow(st)
    ensures i < |Next(s, st).rows|
    ensures InCode(Next(s, st).rows[i]) <==> !Evicts(s, st, i)
  {
    if Free(s, st.i) {
      assert Next(s, st).rows == s.rows[st.i := Touch(s.rows[st.i], s.now, st)];
      if st.i == i {
        TouchEvicts(s.rows[i], s.now, st);
      }
    }
  }

  lemma TouchEvicts(r: Run, now: Time, st: Step)
    requires SingleRow(st) && InCode(r)
    ensures InCode(Touch(r, now, st)) <==> !(st.Reschedule? || (st.Reclaim? && Expired(r, now)))
  {
  }

  lemma QuietStepsEvictNobody(s: Sys, st: Step, i: RunId)
    requires LocksSound(s) && i < |s.rows| && InCode(s.rows[i]) && !st.Write? && !SingleRow(st)
    ensures i < |Next(s, st).rows| && InCode(Next(s, st).rows[i])
  {
  }

  /** No run is taken away while it is executed, and no worker that read RUNNING
      takes that for its own start. */
  ghost predicate Careful(x: World, m: Move) {
    match m
    case Store(st) => forall p | p in x.execs :: !Evicts(x.s, st, x.execs[p])
    case StartRun(p, _) => p in x.s.snaps ==> x.s.snaps[p].state != Running
    case Stop(_) => true
  }

  ghost predicate AlwaysCareful(x: World, ms: seq<Move>)
    decreases |ms|
  {
    ms == [] || (Careful(x, ms[0]) && AlwaysCareful(After(x, ms[0]), ms[1..]))
  }

  /** Every run has at most one executor, and one that has is RUNNING or CANCELLING. */
  ghost predicate Alone(x: World) {
    && (forall p, q | p in x.execs && q in x.execs && x.execs[p] == x.execs[q] :: p == q)
    && (forall p | p in x.execs :: x.execs[p] < |x.s.rows| && InCode(x.s.rows[x.execs[p]]))
  }

  lemma AloneStep(x: World, m: Move)
    requires LocksSound(x.s) && Alone(x) && Careful(x, m)
    ensures LocksSound(After(x, m).s) && Alone(After(x, m))
  {
    match m
    case Store(st) =>
      LocksSoundStep(x.s, st);
      forall p | p in x.execs ensures x.execs[p] < |Next(x.s, st).rows| && InCode(Next(x.s, st).rows[x.execs[p]]) {
        EvictsExactly(x.s, st, x.execs[p]);
      }
    case StartRun(p, w) =>
      LocksSoundStep(x.s, Write(p, Start(w), false));
      if Applies(x.s, p, Start(w), false) {
        StartedAlone(x, p, w);
      }
    case Stop(p) =>
  }

  lemma StartedAlone(x: World, p: string, w: string)
    requires Alone(x) && Applies(x.s, p, Start(w), false)
    ensures Alone(After(x, StartRun(p, w)))
  {
    var i := x.s.snaps[p].run;
    var s' := Next(x.s, Write(p, Start(w), false));
    assert !InCode(x.s.rows[i]) && s'.rows == x.s.rows[i := Written(x.s.rows[i], Start(w))];
  }

  /** One executor: over every interleaving, as long as no run is taken away while it
      is executed and no worker starts on having read RUNNING. */
  lemma {:induction false} OneExecutor(x: World, ms: seq<Move>)
    requires LocksSound(x.s) && Alone(x) && AlwaysCareful(x, ms)
    ensures Alone(AfterAll(x, ms))
    decreases |ms|
  {
    if ms != [] {
      AloneStep(x, ms[0]);
      OneExecutor(After(x, ms[0]), ms[1..]);
    }
  }

  /** Both exclusions are needed, and the first is exact: beside an executor that still
      has its run, a second one starts if and only if it read RUNNING. */
  lemma SecondExecutorExactly(x: World, p: string, w: string, q: string)
    requires Alone(x) && q in x.execs && p !in x.execs
    requires p in x.s.snaps && x.s.snaps[p].run == x.execs[q]
    ensures p in After(x, StartRun(p, w)).execs <==> x.s.snaps[p].state == Running
    ensures x.s.snaps[p].state == Running ==> !Alone(After(x, StartRun(p, w)))
  {
    var y := After(x, StartRun(p, w));
    if x.s.snaps[p].state == Running {
      assert p in y.execs && q in y.execs && y.execs[p] == y.execs[q] && p != q;
    }
  }

  /** A run that is rescheduled under its executor can be started again at once. */
  lemma EvictionLetsASecondIn(x: World, p: string, w: string, q: string, at: Time)
    requires Alone(x) && q in x.execs && p !in x.execs && Free(x.s, x.execs[q])
    ensures var i := x.execs[q];
      var y := AfterAll(x, [Store(Reschedule(i, at))] + ([Store(Read(p, i))] + ([StartRun(p, w)] + [])));
      p in y.execs && q in y.execs && y.execs[p] == y.execs[q] == i
  {
    var i := x.execs[q];
    var a, b, d := Store(Reschedule(i, at)), Store(Read(p, i)), StartRun(p, w);
    var x1 := After(x, a);
    var x2 := After(x1, b);
    assert x1.s.rows[i].state == Scheduled && Free(x1.s, i);
    assert x2.s.snaps[p] == Snap(i, Scheduled) && x2.execs == x.execs;
    assert Applies(x2.s, p, Start(w), false);
    OneMove(x, a, [b] + ([d] + []));
    OneMove(x1, b, [d] + []);
    OneMove(x2, d, []);
  }

  lemma OneMove(x: World, m: Move, rest: seq<Move>)
    ensures AfterAll(x, [m] + rest) == AfterAll(After(x, m), rest)
  {
    assert ([m] + rest)[1..] == rest;
  }
}
