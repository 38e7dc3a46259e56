/** One visit to a step: from the SDK call to its answer. Which instant a wait
    records, how often a body is called, and that steps do not share counters. */
module Visits {
  import opened Base
  import opened Rows
  import opened Keys
  import opened Attempts
  import opened Replay
  import opened Limits

  // ------------------------------------------------------ the instant waited for ---

  /** In the middle of a call, an attempt got there by an Enter step, at the instant
      it remembers. */
  lemma EntersCalls(c: Config, s: Sys, st: Step)
    requires Next(c, s, st).exec.Some? && !Next(c, s, st).exec.value.phase.Ready?
    ensures s.exec.Some?
    ensures var (e, e') := (s.exec.value, Next(c, s, st).exec.value);
      && e'.hist == e.hist
      && if e.phase.Ready? then st.Enter? && e'.since == s.now else e'.since == e.since
  {
    if s.exec.Some? && IsTaskStep(st) {
      EntersInTask(c, s, s.exec.value, st);
    } else if s.exec.Some? && !IsOutside(st) {
      EntersElsewhere(c, s, s.exec.value, st);
    }
  }

  lemma EntersInTask(c: Config, s: Sys, e: Exec, st: Step)
    requires s.exec == Some(e) && IsTaskStep(st)
    ensures var t := InTask(c, s, e, st).exec;
      t.Some? && (!t.value.phase.Ready? ==>
        && t.value.hist == e.hist
        && if e.phase.Ready? then st.Enter? && t.value.since == s.now else t.value.since == e.since)
  {
  }

  lemma EntersElsewhere(c: Config, s: Sys, e: Exec, st: Step)
    requires s.exec == Some(e) && !IsTaskStep(st)
    ensures var t := Elsewhere(c, s, e, st).exec;
      t.Some? && !t.value.phase.Ready? ==> t.value.hist == e.hist && !e.phase.Ready? && t.value.since == e.since
  {
  }

  /** The call that an attempt is in the middle of. */
  lemma {:induction false} EntryOf(c: Config, s: Sys, steps: seq<Step>) returns (m: nat)
    requires s.exec.None?
    requires var u := Execute(c, s, steps); u.exec.Some? && !u.exec.value.phase.Ready?
    ensures m < |steps| && steps[m].Enter?
    ensures var (u, v) := (Execute(c, s, steps), Execute(c, s, steps[..m]));
      && v.exec.Some? && v.exec.value.phase.Ready? && v.exec.value.hist == u.exec.value.hist
      && v.now == u.exec.value.since
    decreases |steps|
  {
    var n := |steps| - 1;
    assert steps == steps[..n] + [steps[n]];
    Then(c, s, steps[..n], steps[n]);
    var p := Execute(c, s, steps[..n]);
    EntersCalls(c, p, steps[n]);
    if p.exec.value.phase.Ready? {
      m := n;
    } else {
      m := EntryOf(c, s, steps[..n]);
      assert steps[..n][..m] == steps[..m];
    }
  }

  /** A result gets on record in the middle of the call of the step it belongs to. */
  lemma RecordStep(c: Config, s: Sys, st: Step, k: string)
    requires Inv(c, s) && !OnRecord(s.table, k) && OnRecord(Next(c, s, st).table, k)
    ensures s.exec.Some? && !s.exec.value.phase.Ready?
    ensures var (e, a) := (s.exec.value, c.code(s.exec.value.hist));
      a.Wait? ==> Value(Next(c, s, st).table[k].result) == if a.alarm.At? then a.alarm.t else e.since + a.alarm.d
  {
    var j := OneCheckpoint(c, s, st);
    if s.exec.Some? && IsTaskStep(st) {
      RecordInTask(c, s, s.exec.value, st, k);
    } else if s.exec.Some? && !IsOutside(st) {
      NoRecordElsewhere(c, s, s.exec.value, st, k);
    }
  }

  lemma RecordInTask(c: Config, s: Sys, e: Exec, st: Step, k: string)
    requires ExecSound(c, s, e) && s.exec == Some(e) && IsTaskStep(st)
    requires !OnRecord(s.table, k) && OnRecord(InTask(c, s, e, st).table, k)
    ensures !e.phase.Ready?
    ensures var a := c.code(e.hist);
      a.Wait? ==> Value(InTask(c, s, e, st).table[k].result) == if a.alarm.At? then a.alarm.t else e.since + a.alarm.d
  {
  }

  lemma NoRecordElsewhere(c: Config, s: Sys, e: Exec, st: Step, k: string)
    requires s.exec == Some(e) && !IsTaskStep(st) && !OnRecord(s.table, k)
    ensures !OnRecord(Elsewhere(c, s, e, st).table, k)
  {
  }

  /** When a key got on record. */
  lemma {:induction false} RecordedAt(c: Config, s: Sys, steps: seq<Step>, k: string) returns (n: nat)
    requires !OnRecord(s.table, k) && OnRecord(Execute(c, s, steps).table, k)
    ensures n < |steps| && !OnRecord(Execute(c, s, steps[..n]).table, k)
    ensures OnRecord(Execute(c, s, steps[..n + 1]).table, k)
    decreases |steps|
  {
    var last := |steps| - 1;
    if OnRecord(Execute(c, s, steps[..last]).table, k) {
      n := RecordedAt(c, s, steps[..last], k);
      assert steps[..last][..n] == steps[..n] && steps[..last][..n + 1] == steps[..n + 1];
    } else {
      n := last;
      assert steps[..last + 1] == steps;
    }
  }

  /** The instant of a wait is the one its alarm asked for. Whatever happens to a run,
      whatever is on record for a key in the end was put there by some step number `n`,
      in the middle of an SDK call that some step number `m` made; and when that call
      was a wait, the recorded instant is the instant it named, or the instant of the
      call and the duration it named. */
  lemma FirstInstantIsAsked(c: Config, s: Sys, steps: seq<Step>, k: string) returns (m: nat, n: nat)
    requires Mannered(c.code) && Initial(s) && OnRecord(Execute(c, s, steps).table, k)
    ensures m < n < |steps| && steps[m].Enter?
    ensures !OnRecord(Execute(c, s, steps[..n]).table, k) && OnRecord(Execute(c, s, steps[..n + 1]).table, k)
    ensures var (v, u) := (Execute(c, s, steps[..m]), Execute(c, s, steps[..n]));
      && v.exec.Some? && u.exec.Some? && v.exec.value.hist == u.exec.value.hist
      && var a := c.code(v.exec.value.hist);
         a.Wait? ==>
           Value(Execute(c, s, steps).table[k].result) == if a.alarm.At? then a.alarm.t else v.now + a.alarm.d
  {
    n := RecordedAt(c, s, steps, k);
    RecordedInCall(c, s, steps, n, k);
    StaysFrom(c, s, steps, n + 1, k);
    m := EntryOf(c, s, steps[..n]);
    assert steps[..n][..m] == steps[..m];
  }

  lemma RecordedInCall(c: Config, s: Sys, steps: seq<Step>, n: nat, k: string)
    requires Mannered(c.code) && Initial(s) && n < |steps|
    requires !OnRecord(Execute(c, s, steps[..n]).table, k) && OnRecord(Execute(c, s, steps[..n + 1]).table, k)
    ensures var u := Execute(c, s, steps[..n]);
      && u.exec.Some? && !u.exec.value.phase.Ready?
      && var a := c.code(u.exec.value.hist);
         a.Wait? ==>
           Value(Execute(c, s, steps[..n + 1]).table[k].result)
           == if a.alarm.At? then a.alarm.t else u.exec.value.since + a.alarm.d
  {
    InvAlways(c, s, steps[..n]);
    assert steps[..n + 1] == steps[..n] + [steps[n]];
    Then(c, s, steps[..n], steps[n]);
    RecordStep(c, Execute(c, s, steps[..n]), steps[n], k);
  }

  lemma StaysFrom(c: Config, s: Sys, steps: seq<Step>, n: nat, k: string)
    requires Mannered(c.code) && Initial(s) && n <= |steps| && OnRecord(Execute(c, s, steps[..n]).table, k)
    ensures OnRecord(Execute(c, s, steps).table, k)
    ensures Execute(c, s, steps).table[k] == Execute(c, s, steps[..n]).table[k]
  {
    InvAlways(c, s, steps[..n]);
    assert steps == steps[..n] + steps[n..];
    ExecuteConcat(c, s, steps[..n], steps[n..]);
    CompletedIsFinal(c, Execute(c, s, steps[..n]), steps[n..], k);
  }

  // ------------------------------------------------------------ calls of a body ---

  /** Calls of its body that the visit can still make. */
  function Left(c: Config, s: Sys): nat {
    if s.exec.None? || !c.code(s.exec.value.hist).Task? then 0
    else
      var (e, a) := (s.exec.value, c.code(s.exec.value.hist));
      match e.phase
      case Opening(_, _) => Max(a.retries + 1, 0)
      case Trying(_, n, _) => Max(a.retries + 1 - n, 0)
      case _ => 0
  }

  /** In the middle of a visit to task `a`, or past it. */
  ghost predicate Visiting(c: Config, s: Sys, a: Act)
    requires a.Task?
  {
    s.exec.Some? && !s.exec.value.phase.Ready? ==>
      && c.code(s.exec.value.hist) == a
      && (s.exec.value.phase.Trying? ==> s.exec.value.phase.calls <= a.retries)
  }

  lemma VisitStep(c: Config, s: Sys, st: Step, a: Act, k: string)
    requires a.Task? && Visiting(c, s, a) && !st.Enter?
    ensures Visiting(c, Next(c, s, st), a)
    ensures Calls(Next(c, s, st).log, k) + Left(c, Next(c, s, st)) <= Calls(s.log, k) + Left(c, s)
  {
    if s.exec.Some? && IsTaskStep(st) {
      VisitInTask(c, s, s.exec.value, st, a, k);
    } else if s.exec.Some? && !IsOutside(st) {
      VisitElsewhere(c, s, s.exec.value, st, a, k);
    }
  }

  lemma VisitInTask(c: Config, s: Sys, e: Exec, st: Step, a: Act, k: string)
    requires s.exec == Some(e) && a.Task? && Visiting(c, s, a) && IsTaskStep(st) && !st.Enter?
    ensures Visiting(c, InTask(c, s, e, st), a)
    ensures var t := InTask(c, s, e, st); Calls(t.log, k) + Left(c, t) <= Calls(s.log, k) + Left(c, s)
  {
    if st.Body? && e.phase.Trying? {
      VisitBody(c, s, e, st, a, k);
    } else if st.Borrow? && e.phase.Opening? {
      OneMoreEntry(s.log, Borrowed(e.phase.key, st.v), k);
    }
  }

  lemma VisitBody(c: Config, s: Sys, e: Exec, st: Step, a: Act, k: string)
    requires s.exec == Some(e) && a.Task? && Visiting(c, s, a) && st.Body? && e.phase.Trying?
    ensures Visiting(c, InTask(c, s, e, st), a)
    ensures var t := InTask(c, s, e, st); Calls(t.log, k) + Left(c, t) <= Calls(s.log, k) + Left(c, s)
  {
    var out := if e.phase.fixed.Some? then Ok(e.phase.fixed.value) else st.r;
    OneMoreEntry(s.log, Ran(e.phase.key, out), k);
  }

  lemma VisitElsewhere(c: Config, s: Sys, e: Exec, st: Step, a: Act, k: string)
    requires s.exec == Some(e) && a.Task? && Visiting(c, s, a) && !IsTaskStep(st)
    ensures Visiting(c, Elsewhere(c, s, e, st), a)
    ensures var t := Elsewhere(c, s, e, st); Calls(t.log, k) + Left(c, t) <= Calls(s.log, k) + Left(c, s)
  {
    if st.Poll? && e.phase.Polling? {
      var r := Polled(s.rows, s.now, e.phase.child, st.heard);
      if r.Ok? {
        OneMoreEntry(s.log, Saw(e.phase.key, e.phase.child, r.v), k);
      }
    }
  }

  lemma {:induction false} VisitAlways(c: Config, s: Sys, steps: seq<Step>, a: Act, k: string)
    requires a.Task? && Visiting(c, s, a) && forall i | 0 <= i < |steps| :: !steps[i].Enter?
    ensures Calls(Execute(c, s, steps).log, k) <= Calls(s.log, k) + Left(c, s)
    decreases |steps|
  {
    if steps != [] {
      assert !steps[0].Enter?;
      VisitStep(c, s, steps[0], a, k);
      VisitAlways(c, Next(c, s, steps[0]), steps[1..], a, k);
    }
  }

  /** From one SDK call of an attempt to the next, a task's body is called at most once
      more than the task has retries. */
  lemma CallsPerVisit(c: Config, s: Sys, e: Exec, loaded: bool, steps: seq<Step>, k: string)
    requires s.exec == Some(e) && e.phase.Ready? && c.code(e.hist).Task? && Durable(c.code(e.hist))
    requires forall i | 0 <= i < |steps| :: !steps[i].Enter?
    ensures Calls(Execute(c, Next(c, s, Enter(loaded)), steps).log, k)
         <= Calls(s.log, k) + Max(c.code(e.hist).retries + 1, 0)
  {
    VisitAlways(c, Next(c, s, Enter(loaded)), steps, c.code(e.hist), k);
  }

  // --------------------------------------------------------- counters of steps ---

  lemma Counts(a: Act, ord: map<string, nat>, name: string)
    ensures Count(Drawn(a, ord), name) == Count(ord, name) + if Counter(a) == Some(name) then 1 else 0
  {
  }

  lemma ReplyCounts(code: Flow, ev: Evidence, f: Frame, x: Fed, g: Frame, name: string)
    requires Reply(code, ev, f, x) == Some(g)
    ensures Count(g.ord, name) >= Count(f.ord, name)
    ensures Counter(code(f.hist)) == Some(name) && !(x.Own? && !x.drawn) ==>
      Count(g.ord, name) == Count(f.ord, name) + 1
  {
    Counts(code(f.hist), f.ord, name);
  }

  lemma {:induction false} CountsGrow(code: Flow, ev: Evidence, script: seq<Fed>, i: nat, name: string)
    requires Uninterrupted(code, ev, script).Some? && i <= |script|
    ensures Uninterrupted(code, ev, script[..i]).Some?
    ensures Count(Uninterrupted(code, ev, script[..i]).value.ord, name)
         <= Count(Uninterrupted(code, ev, script).value.ord, name)
    decreases |script|
  {
    if i == |script| {
      assert script[..i] == script;
    } else {
      var n := |script| - 1;
      CountsGrow(code, ev, script[..n], i, name);
      assert script[..n][..i] == script[..i];
      ReplyCounts(code, ev, Uninterrupted(code, ev, script[..n]).value, script[n],
                  Uninterrupted(code, ev, script).value, name);
    }
  }

  /** Two steps of one attempt that draw from the same counter never get the same key,
      however far apart they are: no loop over a task name meets its own checkpoint. */
  lemma StepsGetTheirOwnKeys(code: Flow, ev: Evidence, script: seq<Fed>, i: nat, j: nat, name: string)
    requires Uninterrupted(code, ev, script).Some? && i < j < |script| && !(script[i].Own? && !script[i].drawn)
    requires Uninterrupted(code, ev, script[..i]).Some? && Uninterrupted(code, ev, script[..j]).Some?
    requires var (f, g) := (Uninterrupted(code, ev, script[..i]).value, Uninterrupted(code, ev, script[..j]).value);
      Counter(code(f.hist)) == Some(name) && Counter(code(g.hist)) == Some(name)
    ensures var (f, g) := (Uninterrupted(code, ev, script[..i]).value, Uninterrupted(code, ev, script[..j]).value);
      KeyOf(code(f.hist), f.ord) != KeyOf(code(g.hist), g.ord)
  {
    var f, g := Uninterrupted(code, ev, script[..i]).value, Uninterrupted(code, ev, script[..j]).value;
    assert script[..j][..i + 1] == script[..i + 1] && script[..i + 1] == script[..i] + [script[i]];
    CountsGrow(code, ev, script[..j], i + 1, name);
    OneMore(code, ev, script[..i], script[i]);
    var h := Uninterrupted(code, ev, script[..i + 1]).value;
    ReplyCounts(code, ev, f, script[i], h, name);
    CountedApart(code(f.hist), f.ord, code(g.hist), g.ord, name);
  }

  lemma CountedApart(a: Act, ord: map<string, nat>, b: Act, ord': map<string, nat>, name: string)
    requires Counter(a) == Some(name) && Counter(b) == Some(name) && Count(ord, name) != Count(ord', name)
    ensures KeyOf(a, ord) != KeyOf(b, ord')
  {
    CounterKey(a, ord, name);
    CounterKey(b, ord', name);
    if KeyOf(a, ord) == KeyOf(b, ord') {
      GeneratedInjective(name, Count(ord, name) + 1, name, Count(ord', name) + 1);
    }
  }

  /** A step's key: the author's, or the name of its counter and the count. */
  lemma CounterKey(a: Act, ord: map<string, nat>, name: string)
    ensures Counter(a) == Some(name) ==> KeyOf(a, ord) == name + "-" + Dec(Count(ord, name) + 1)
    ensures a.Task? && a.pinned != "" ==> KeyOf(a, ord) == a.pinned
    ensures a.Wait? && a.key != "" ==> KeyOf(a, ord) == "wait:" + a.key
  {
  }
}
