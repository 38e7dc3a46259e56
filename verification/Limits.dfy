/** The edges of durable replay: what it does not promise, by runs of the machine, and
    the conditions under which it does. */
module Limits {
  import opened Base
  import opened States
  import opened Rows
  import opened Keys
  import opened Attempts
  import opened Replay

  lemma Single(c: Config, s: Sys, st: Step)
    ensures Execute(c, s, [st]) == Next(c, s, st)
  {
    assert [st] == [st] + [];
    Unroll(c, s, st, []);
  }

  lemma Then(c: Config, s: Sys, a: seq<Step>, st: Step)
    ensures Execute(c, s, a + [st]) == Next(c, Execute(c, s, a), st)
  {
    ExecuteConcat(c, s, a, [st]);
    Single(c, Execute(c, s, a), st);
  }

  // ------------------------------------------------------- borrowed results ---

  /** No cache hit whose save came to nothing. The SDK ignores that save's error. */
  predicate NoLostBorrow(steps: seq<Step>) { forall k | 0 <= k < |steps| :: !(steps[k].Borrow? && steps[k].w.Lost?) }

  predicate NothingLent(script: seq<Fed>) { forall i | 0 <= i < |script| :: !script[i].Lent? }

  ghost predicate AllUnlent(s: Sys) {
    && (s.exec.Some? ==> NothingLent(s.exec.value.script))
    && forall i | 0 <= i < |s.outcomes| :: NothingLent(s.outcomes[i].script)
  }

  /** A cache hit that takes effect and whose save is lost. */
  predicate LendsAway(c: Config, s: Sys, st: Step) {
    && st.Borrow? && st.w.Lost? && s.exec.Some?
    && s.exec.value.phase.Opening? && s.exec.value.phase.fixed.None?
    && c.code(s.exec.value.hist).Task? && c.code(s.exec.value.hist).cached
  }

  /** Exactly such a hit puts an answer in a script that nothing on record backs. */
  lemma UnlentStep(c: Config, s: Sys, st: Step)
    requires AllUnlent(s)
    ensures AllUnlent(Next(c, s, st)) <==> !LendsAway(c, s, st)
  {
    if s.exec.Some? && IsTaskStep(st) {
      UnlentInTask(c, s, s.exec.value, st);
    } else if s.exec.Some? && !IsOutside(st) {
      UnlentElsewhere(c, s, s.exec.value, st);
    }
  }

  lemma UnlentInTask(c: Config, s: Sys, e: Exec, st: Step)
    requires AllUnlent(s) && s.exec == Some(e) && IsTaskStep(st)
    ensures AllUnlent(InTask(c, s, e, st)) <==> !LendsAway(c, s, st)
  {
    if LendsAway(c, s, st) {
      var t := InTask(c, s, e, st);
      assert t.exec.value.script[|e.script|].Lent?;
    }
  }

  lemma UnlentElsewhere(c: Config, s: Sys, e: Exec, st: Step)
    requires AllUnlent(s) && s.exec == Some(e) && !IsTaskStep(st)
    ensures AllUnlent(Elsewhere(c, s, e, st))
  {
  }

  lemma {:induction false} UnlentAlways(c: Config, s: Sys, steps: seq<Step>)
    requires AllUnlent(s) && NoLostBorrow(steps)
    ensures AllUnlent(Execute(c, s, steps))
    decreases |steps|
  {
    if steps != [] {
      UnlentStep(c, s, steps[0]);
      UnlentAlways(c, Next(c, s, steps[0]), steps[1..]);
    }
  }

  /** The answer that leads from `f` to `g`, if it is a durable task's success, is the
      result that `ev` has for its key. */
  predicate Backed(code: Flow, ev: Evidence, f: Frame, g: Frame) {
    && |g.hist| == |f.hist| + 1 && g.hist[..|f.hist|] == f.hist
    && var (a, r, k) := (code(f.hist), g.hist[|f.hist|], KeyOf(code(f.hist), f.ord));
       a.Task? && Durable(a) && r.Ok? ==> k in ev.rec && r == Ok(ev.rec[k])
  }

  ghost predicate OnTheRecord(code: Flow, ev: Evidence, script: seq<Fed>, n: nat)
    requires n < |script|
  {
    var f, g := Uninterrupted(code, ev, script[..n]), Uninterrupted(code, ev, script[..n + 1]);
    f.Some? && g.Some? && Backed(code, ev, f.value, g.value)
  }

  lemma AnswerIsOnTheRecord(code: Flow, ev: Evidence, script: seq<Fed>, n: nat)
    requires Uninterrupted(code, ev, script).Some? && n < |script| && !script[n].Lent?
    ensures OnTheRecord(code, ev, script, n)
  {
    var f, g := CallAt(code, ev, script, n);
    assert script[..n + 1] == script[..n] + [script[n]];
    OneMore(code, ev, script[..n], script[n]);
    ReplyIsBacked(code, ev, f, script[n], g);
  }

  lemma ReplyIsBacked(code: Flow, ev: Evidence, f: Frame, x: Fed, g: Frame)
    requires Reply(code, ev, f, x) == Some(g) && !x.Lent?
    ensures Backed(code, ev, f, g)
  {
  }

  /** Unless the save of a borrowed result is lost, every success of a durable task that
      any attempt ever built its result on is the one on record for the step's key. */
  lemma SuccessesAreRecorded(c: Config, s: Sys, steps: seq<Step>)
    requires Mannered(c.code) && Initial(s) && NoLostBorrow(steps)
    ensures var t := Execute(c, s, steps);
      forall i, n | 0 <= i < |t.outcomes| && 0 <= n < |t.outcomes[i].script| ::
        OnTheRecord(c.code, Known(t), t.outcomes[i].script, n)
  {
    var t := Execute(c, s, steps);
    InvAlways(c, s, steps);
    UnlentAlways(c, s, steps);
    forall i, n | 0 <= i < |t.outcomes| && 0 <= n < |t.outcomes[i].script|
      ensures OnTheRecord(c.code, Known(t), t.outcomes[i].script, n)
    {
      assert Explained(c, Known(t), t.outcomes[i]) && NothingLent(t.outcomes[i].script);
      AnswerIsOnTheRecord(c.code, Known(t), t.outcomes[i].script, n);
    }
  }

  /** A flow whose one step is `a` and which returns what that answers. */
  ghost predicate OneStepFlow(code: Flow, a: Act) { code([]) == a && forall r :: code([r]) == Return(r) }

  lemma BeginsAt(c: Config, s: Sys)
    requires s.exec.None?
    ensures Execute(c, s, [Begin]) == s.(exec := Some(Fresh()))
  {
    Single(c, s, Begin);
  }

  /** An attempt of such a flow that calls its task and records the result. */
  function Complete(v: Val): seq<Step> { [Begin] + CallBody(Stored, Ok(v)) + [Close(Stored)] + [Finish] }

  lemma CompleteRuns(c: Config, s: Sys, a: Act, v: Val)
    requires OneStepFlow(c.code, a) && a.Task? && Durable(a) && a.retries >= 0
    requires s.exec.None? && !OnRecord(s.table, KeyOf(a, map[]))
    ensures var (k, t) := (KeyOf(a, map[]), Execute(c, s, Complete(v)));
      && t.exec.None? && k in t.table && t.table[k] == Cp(Done, Some(v)) && t.log == s.log + [Ran(k, Ok(v))]
      && t.rows == s.rows && t.outcomes == s.outcomes + [Outcome([Recorded], Ok(v))]
  {
    var k := KeyOf(a, map[]);
    var e := Fresh();
    var s1 := s.(exec := Some(e));
    BeginsAt(c, s);
    CallBodyCalls(c, s1, e, Stored, Ok(v));
    ExecuteConcat(c, s, [Begin], CallBody(Stored, Ok(v)));
    var s2 := Execute(c, s1, CallBody(Stored, Ok(v)));
    var e2 := s2.exec.value;
    assert e2.phase == Closing(k, Ok(v));
    Then(c, s, [Begin] + CallBody(Stored, Ok(v)), Close(Stored));
    var s3 := Next(c, s2, Close(Stored));
    assert s3.exec == Some(Replay.Answer(e2, Ok(v), Recorded));
    assert s3.exec.value.hist == [Ok(v)] && s3.exec.value.script == [Recorded];
    Then(c, s, [Begin] + CallBody(Stored, Ok(v)) + [Close(Stored)], Finish);
  }

  function BorrowAndLose(v: Val): seq<Step> { [Begin] + [Enter(true)] + [Borrow(v, Lost)] + [Finish] }

  lemma BorrowRuns(c: Config, s: Sys, a: Act, v: Val)
    requires OneStepFlow(c.code, a) && a.Task? && Durable(a) && a.cached && a.retries >= 0
    requires s.exec.None? && !OnRecord(s.table, KeyOf(a, map[]))
    ensures var t := Execute(c, s, BorrowAndLose(v));
      && t.exec.None? && t.table == s.table && t.rows == s.rows
      && t.outcomes == s.outcomes + [Outcome([Lent(v)], Ok(v))]
  {
    var k := KeyOf(a, map[]);
    var e := Fresh();
    var s1 := s.(exec := Some(e));
    BeginsAt(c, s);
    TaskOpens(c, s1, e);
    Then(c, s, [Begin], Enter(true));
    var s2 := Next(c, s1, Enter(true));
    Then(c, s, [Begin] + [Enter(true)], Borrow(v, Lost));
    var s3 := Next(c, s2, Borrow(v, Lost));
    assert s3.exec == Some(Replay.Answer(s2.exec.value, Ok(v), Lent(v)));
    assert s3.exec.value.hist == [Ok(v)] && s3.exec.value.script == [Lent(v)];
    Then(c, s, [Begin] + [Enter(true)] + [Borrow(v, Lost)], Finish);
  }

  /** With a lost save it fails, though no task and no attempt does: one attempt returns
      the borrowed result, the next runs the body, records and returns another. */
  lemma LostBorrowDiverges(c: Config, s: Sys, a: Act, v: Val, w: Val)
    requires OneStepFlow(c.code, a) && a.Task? && Durable(a) && a.cached && a.retries >= 0
    requires Initial(s)
    ensures var (k, t) := (KeyOf(a, map[]), Execute(c, s, BorrowAndLose(v) + Complete(w)));
      && |t.outcomes| == 2 && t.outcomes[0].r == Ok(v) && t.outcomes[1].r == Ok(w)
      && OnRecord(t.table, k) && Value(t.table[k].result) == w
  {
    BorrowRuns(c, s, a, v);
    CompleteRuns(c, Execute(c, s, BorrowAndLose(v)), a, w);
    ExecuteConcat(c, s, BorrowAndLose(v), Complete(w));
  }

  // --------------------------------------------------- children run again ---

  /** A replay that finds the child on the checkpoint and sees it COMPLETED. */
  const REPLAY: seq<Step> := [Begin] + [Enter(true)] + [Poll(true)] + [Finish]

  lemma ReplayPolls(c: Config, s: Sys, a: Act, child: RunId, v: Val)
    requires OneStepFlow(c.code, a) && a.Sub? && s.exec.None?
    requires var k := KeyOf(a, map[]); k in s.table && s.table[k] == Cp(Open, Some(child))
    requires child < |s.rows| && s.rows[child].state == Completed && s.rows[child].result == Some(v)
    ensures var t := Execute(c, s, REPLAY);
      && t.exec.None? && t.table == s.table && t.rows == s.rows
      && t.outcomes == s.outcomes + [Outcome([Child(child, v)], Ok(v))]
  {
    var k := KeyOf(a, map[]);
    BeginsAt(c, s);
    Then(c, s, [Begin], Enter(true));
    var s2 := Next(c, s.(exec := Some(Fresh())), Enter(true));
    EnterPolls(c, s.(exec := Some(Fresh())), Fresh(), k, child);
    Then(c, s, [Begin] + [Enter(true)], Poll(true));
    var s3 := Next(c, s2, Poll(true));
    PollSees(c, s2, s2.exec.value, k, child, v);
    assert s3.exec.value.hist == [Ok(v)] && s3.exec.value.script == [Child(child, v)];
    Then(c, s, [Begin] + [Enter(true)] + [Poll(true)], Finish);
  }

  lemma EnterPolls(c: Config, s: Sys, e: Exec, k: string, child: RunId)
    requires s.exec == Some(e) && e.phase.Ready? && c.code(e.hist).Sub? && k == KeyOf(c.code(e.hist), e.ord)
    requires k in s.table && s.table[k] == Cp(Open, Some(child))
    ensures Next(c, s, Enter(true)) ==
      s.(exec := Some(e.(ord := Drawn(c.code(e.hist), e.ord), phase := Polling(k, child), since := s.now)))
  {
  }

  lemma PollSees(c: Config, s: Sys, e: Exec, k: string, child: RunId, v: Val)
    requires s.exec == Some(e) && e.phase == Polling(k, child)
    requires child < |s.rows| && s.rows[child].state == Completed && s.rows[child].result == Some(v)
    ensures Next(c, s, Poll(true)) ==
      s.(log := s.log + [Saw(k, child, v)], exec := Some(Replay.Answer(e, Ok(v), Child(child, v))))
  {
  }

  /** Leaving completed children alone is needed: when an operator runs the child again
      and it ends differently, two replays of the same step return different results. */
  lemma RerunChildDiverges(c: Config, s: Sys, a: Act, child: RunId, v: Val, again: Val)
    requires OneStepFlow(c.code, a) && a.Sub? && s.exec.None? && s.outcomes == [] && v != again
    requires var k := KeyOf(a, map[]); k in s.table && s.table[k] == Cp(Open, Some(child))
    requires child < |s.rows| && s.rows[child].state == Completed && s.rows[child].result == Some(v)
    ensures var rerun := Replay.Touch(child, s.rows[child].(result := Some(again)));
      var t := Execute(c, s, REPLAY + [rerun] + REPLAY);
      && t.outcomes == [Outcome([Child(child, v)], Ok(v)), Outcome([Child(child, again)], Ok(again))]
      && !LeavesCompleted(Execute(c, s, REPLAY), rerun)
  {
    var rerun := Replay.Touch(child, s.rows[child].(result := Some(again)));
    ReplayPolls(c, s, a, child, v);
    var s1 := Execute(c, s, REPLAY);
    Then(c, s, REPLAY, rerun);
    var s2 := Next(c, s1, rerun);
    assert s2 == s1.(rows := s1.rows[child := s.rows[child].(result := Some(again))]);
    ReplayPolls(c, s2, a, child, again);
    ExecuteConcat(c, s, REPLAY + [rerun], REPLAY);
  }

  // ------------------------------------------------------- reserved names ---

  /** A flow that runs a task pinned to a sub-flow's key and then that sub-flow. */
  ghost predicate Collides(code: Flow, t: Act, name: string, v: Val) {
    && code([]) == t && t.Task? && Durable(t) && t.retries >= 0 && t.pinned == KeyOf(Act.Sub(name), map[])
    && t.pinned != "" && code([Ok(v)]) == Act.Sub(name)
  }

  function RunTask(v: Val): seq<Step> { [Begin] + CallBody(Stored, Ok(v)) + [Close(Stored)] }

  function StartSub(n: NewRun): seq<Step> { [Enter(true)] + [Place(n, true)] + [Note(Stored)] }

  lemma RunTaskRecords(c: Config, s: Sys, t: Act, v: Val)
    requires c.code([]) == t && t.Task? && Durable(t) && t.retries >= 0 && t.pinned != ""
    requires s.exec.None? && !OnRecord(s.table, t.pinned)
    ensures Execute(c, s, RunTask(v)) ==
      s.(table := s.table[t.pinned := Cp(Done, Some(v))], log := s.log + [Ran(t.pinned, Ok(v))],
         exec := Some(Exec([Ok(v)], map[], Ready, false, [Recorded], {}, s.now)))
  {
    var k := t.pinned;
    BeginsAt(c, s);
    CallBodyCalls(c, s.(exec := Some(Fresh())), Fresh(), Stored, Ok(v));
    ExecuteConcat(c, s, [Begin], CallBody(Stored, Ok(v)));
    var s2 := Execute(c, s, [Begin] + CallBody(Stored, Ok(v)));
    assert s2.exec.value.phase == Closing(k, Ok(v));
    Then(c, s, [Begin] + CallBody(Stored, Ok(v)), Close(Stored));
    var s3 := Next(c, s2, Close(Stored));
    assert s3.exec.value.hist == [Ok(v)] && s3.exec.value.script == [Recorded];
    assert s.table[k := Cp(Open, None)][k := Cp(Done, Some(v))] == s.table[k := Cp(Done, Some(v))];
  }

  lemma StartSubNotes(c: Config, s: Sys, name: string, v: Val, n: NewRun)
    requires s.exec == Some(Exec([Ok(v)], map[], Ready, false, [Recorded], {}, s.now))
    requires c.code([Ok(v)]) == Act.Sub(name)
    requires var k := KeyOf(Act.Sub(name), map[]); k in s.table && !ReadsAsRun(s.table[k].result)
    ensures var (k, t) := (KeyOf(Act.Sub(name), map[]), Execute(c, s, StartSub(n)));
      k in t.table && t.table[k].status == Open && t.log == s.log && t.exec.Some?
  {
    var k := KeyOf(Act.Sub(name), map[]);
    Single(c, s, Enter(true));
    var s1 := Next(c, s, Enter(true));
    EnterPlaces(c, s, s.exec.value, k);
    Then(c, s, [Enter(true)], Place(n, true));
    var s2 := Next(c, s1, Place(n, true));
    PlaceThenNote(c, s1, s1.exec.value, k, n);
    Then(c, s, [Enter(true)] + [Place(n, true)], Note(Stored));
  }

  lemma EnterPlaces(c: Config, s: Sys, e: Exec, k: string)
    requires s.exec == Some(e) && e.phase.Ready? && c.code(e.hist).Sub? && k == KeyOf(c.code(e.hist), e.ord)
    requires k in s.table && !ReadsAsRun(s.table[k].result)
    ensures Next(c, s, Enter(true)) == 
      s.(exec := Some(e.(ord := Drawn(c.code(e.hist), e.ord), phase := Placing(k), since := s.now)))
  {
  }

  lemma PlaceThenNote(c: Config, s: Sys, e: Exec, k: string, n: NewRun)
    requires s.exec == Some(e) && e.phase == Placing(k)
    ensures var t := Next(c, Next(c, s, Place(n, true)), Note(Stored));
      k in t.table && t.table[k].status == Open && t.log == s.log && t.exec.Some?
  {
  }

  /** Why flow code must keep out of sub-flow checkpoints: this flow's task completes
      and is on record, the sub-flow then writes its own checkpoint over it, and after
      a crash the task's body is called a second time. `v` is a result that does not
      read as a run's id, as an empty object does not. */
  lemma CollisionLosesAResult(c: Config, s: Sys, t: Act, name: string, v: Val, n: NewRun)
    requires Collides(c.code, t, name, v) && v < 0 && Initial(s)
    ensures !Civil(t)
    ensures var k := t.pinned;
      var done := Execute(c, s, RunTask(v));
      var lost := Execute(c, s, RunTask(v) + StartSub(n));
      var repeated := Execute(c, s, RunTask(v) + StartSub(n) + [Crash] + RunTask(v));
      && OnRecord(done.table, k) && !OnRecord(lost.table, k)
      && Calls(done.log, k) == 1 && Calls(repeated.log, k) == 2
  {
    var k := t.pinned;
    KeyKinds(Act.Sub(name), map[]);
    RunTaskRecords(c, s, t, v);
    var done := Execute(c, s, RunTask(v));
    StartSubNotes(c, done, name, v, n);
    ExecuteConcat(c, s, RunTask(v), StartSub(n));
    var lost := Execute(c, s, RunTask(v) + StartSub(n));
    Then(c, s, RunTask(v) + StartSub(n), Crash);
    var crashed := lost.(exec := None);
    RunTaskRecords(c, crashed, t, v);
    ExecuteConcat(c, s, RunTask(v) + StartSub(n) + [Crash], RunTask(v));
    OneMoreEntry([], Ran(k, Ok(v)), k);
    OneMoreEntry([Ran(k, Ok(v))], Ran(k, Ok(v)), k);
    assert [] + [Ran(k, Ok(v))] == [Ran(k, Ok(v))];
  }
}
