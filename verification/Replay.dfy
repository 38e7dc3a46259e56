/** Checkpoint and replay: one flow run executed by any number of attempts, one at
    a time, each of which may crash between any two of its effects. */
module Replay {
  import opened Base
  import opened States
  import opened Rows
  import opened Keys
  import opened Attempts
  import opened S = Store

  // --------------------------------------------------------------- flow code ---

  /** WaitUntil an instant, or Sleep for a duration. */
  datatype Alarm = At(t: Time) | After(d: Time)

  /** What flow code does next: return, or call the SDK. */
  datatype Act =
    | Return(r: Res)
    | Task(name: string, pinned: string, retries: int, ephemeral: bool, cached: bool)
    | Wait(key: string, alarm: Alarm)
    | Sub(name: string)

  /** Flow code is a function of the answers it has had so far in this attempt. */
  type Flow = seq<Res> -> Act

  datatype Config = Config(code: Flow, id: string, self: RunId, threshold: Time)

  /** Steps that keep a checkpoint of their result. */
  predicate Durable(a: Act) { a.Wait? || (a.Task? && !a.ephemeral) }

  function Retries(a: Act): int { if a.Task? then a.retries else 0 }

  /** The counter that nextKey bumps for a step; pinned, named and ephemeral steps have none. */
  function Counter(a: Act): Option<string> {
    match a
    case Return(_) => None
    case Task(name, pinned, _, ephemeral, _) => if !ephemeral && pinned == "" then Some(name) else None
    case Wait(key, _) => if key == "" then Some("wait") else None
    case Sub(name) => Some("subflow:" + name)
  }

  function Count(ord: map<string, nat>, name: string): nat { if name in ord then ord[name] else 0 }

  function Drawn(a: Act, ord: map<string, nat>): map<string, nat> {
    match Counter(a)
    case None => ord
    case Some(name) => ord[name := Count(ord, name) + 1]
  }

  /** Which checkpoint a step is about to use. */
  function StepKey(a: Act, ord: map<string, nat>): Key {
    match a
    case Return(_) => Pinned("")
    case Task(name, pinned, _, _, _) => if Counter(a).Some? then Auto(name, Count(ord, name) + 1) else Pinned(pinned)
    case Wait(key, _) => if key == "" then Auto("wait", Count(ord, "wait") + 1) else WaitKey(key)
    case Sub(name) => Key.Sub(name, Count(ord, "subflow:" + name) + 1)
  }

  function KeyOf(a: Act, ord: map<string, nat>): string { Render(StepKey(a, ord)) }

  /** A key that some sub-flow step uses. */
  ghost predicate IsSubKey(k: string) { exists name, n: nat :: n >= 1 && k == Render(Key.Sub(name, n)) }

  /** A step that can never land on a sub-flow's checkpoint. */
  ghost predicate Civil(a: Act) {
    a.Task? && !a.ephemeral ==> if a.pinned == "" then !("subflow:" <= a.name) else !IsSubKey(a.pinned)
  }

  lemma KeyKinds(a: Act, ord: map<string, nat>)
    requires Civil(a)
    ensures Durable(a) ==> !IsSubKey(KeyOf(a, ord))
    ensures a.Sub? ==> IsSubKey(KeyOf(a, ord))
  {
    if Durable(a) {
      forall name, n: nat | n >= 1 ensures KeyOf(a, ord) != Render(Key.Sub(name, n)) {
        if a.Wait? {
          WaitIsNoSub(a, ord, name, n);
        } else if a.pinned == "" && a.name != "subflow:" + name {
          AutoIsNoSub(a, ord, name, n);
        }
      }
    } else if a.Sub? {
      assert KeyOf(a, ord) == Render(Key.Sub(a.name, Count(ord, "subflow:" + a.name) + 1));
    }
  }

  lemma WaitIsNoSub(a: Act, ord: map<string, nat>, name: string, n: nat)
    requires a.Wait?
    ensures KeyOf(a, ord) != Render(Key.Sub(name, n))
  {
    assert Render(Key.Sub(name, n))[0] == 's';
    assert KeyOf(a, ord)[0] == 'w';
  }

  lemma AutoIsNoSub(a: Act, ord: map<string, nat>, name: string, n: nat)
    requires a.Task? && !a.ephemeral && a.pinned == "" && a.name != "subflow:" + name
    ensures KeyOf(a, ord) != Render(Key.Sub(name, n))
  {
    if KeyOf(a, ord) == Render(Key.Sub(name, n)) {
      GeneratedInjective(a.name, Count(ord, a.name) + 1, "subflow:" + name, n);
    }
  }

  /** Civil leaves out no more than it must: a durable task that is not civil lands on
      a sub-flow's checkpoint for some state of the counters, and a civil one never. */
  lemma CivilExactly(t: Act)
    requires t.Task? && !t.ephemeral
    ensures !Civil(t) <==> exists name, ord, ord' :: KeyOf(t, ord) == KeyOf(Act.Sub(name), ord')
  {
    if !Civil(t) {
      if t.pinned == "" {
        var name := t.name[8..];
        assert t.name == "subflow:" + name;
        assert KeyOf(t, map[]) == KeyOf(Act.Sub(name), map[]);
      } else {
        var name, n: nat :| n >= 1 && t.pinned == Render(Key.Sub(name, n));
        var ord := map["subflow:" + name := (n - 1) as nat];
        assert KeyOf(t, map[]) == KeyOf(Act.Sub(name), ord);
      }
    } else {
      forall name, ord, ord' ensures KeyOf(t, ord) != KeyOf(Act.Sub(name), ord') {
        KeyKinds(t, ord);
        KeyKinds(Act.Sub(name), ord');
      }
    }
  }

  // ------------------------------------------------------------- checkpoints ---

  datatype Status = Open | Done | Broken

  datatype Cp = Cp(status: Status, result: Option<Val>)

  /** The JSON string of a run's id is numbered by the run; a negative value is a
      document that does not read as an id. */
  predicate ReadsAsRun(v: Option<Val>) { v.Some? && v.value >= 0 }

  type Table = map<string, Cp>

  predicate OnRecord(t: Table, k: string) { k in t && t[k].status.Done? }

  function Value(result: Option<Val>): Val { if result.Some? then result.value else 0 }

  /** The results on record. */
  function Values(t: Table): map<string, Val> { map k | k in t && OnRecord(t, k) :: Value(t[k].result) }

  /** How a save goes: stored, not stored, or stored with the answer lost. */
  datatype Save = Stored | Lost | Unheard

  function Saved(t: Table, k: string, cp: Cp, w: Save): Table { if w.Lost? then t else t[k := cp] }

  // --------------------------------------------------------------- the machine ---

  /** Where an attempt stands inside the SDK call it is making. `fixed` is the
      result of a body that just returns it: the wake instant of a wait. */
  datatype Phase =
    | Ready
    | Opening(key: string, fixed: Option<Val>)
    | Trying(key: string, calls: nat, fixed: Option<Val>)
    | Closing(key: string, r: Res)
    | Waking(key: string, wake: Time)
    | Blocked(key: string, wake: Time)
    | Placing(key: string)
    | Noting(key: string, child: int)
    | Polling(key: string, child: int)

  /** Where an answer came from: the record, a wait that was over or not, a child
      that was seen COMPLETED, a cached result whose save was lost, or the attempt's
      own fortune (errors and ephemeral steps). */
  datatype Fed = Recorded | Woke | Dozed | Child(child: int, v: Val) | Lent(v: Val) | Own(r: Res, drawn: bool)

  /** One attempt. The last three are kept for the proof only: where each answer came
      from, the keys of the waits got past, and when the last SDK call was made. */
  datatype Exec = Exec(hist: seq<Res>, ord: map<string, nat>, phase: Phase, cancelled: bool,
                       script: seq<Fed>, passed: set<string>, since: Time)

  /** A task body that was called, a cached result that was borrowed instead, a child
      that was seen COMPLETED with a result. */
  datatype Entry = Ran(key: string, r: Res) | Borrowed(key: string, v: Val) | Saw(key: string, child: int, v: Val)

  /** What an attempt returned to the engine, and the script it followed. */
  datatype Outcome = Outcome(script: seq<Fed>, r: Res)

  datatype Sys = Sys(table: Table, exec: Option<Exec>, rows: seq<Run>, now: Time,
                     log: seq<Entry>, outcomes: seq<Outcome>)

  datatype Step =
    | Begin
    | Crash
    | Tick(dt: nat)
    | Cancel                                // the attempt's context is done
    | Enter(loaded: bool)                   // an SDK call, up to its checkpoint read
    | Borrow(v: Val, w: Save)               // the cross-run cache has a result
    | OpenCp(w: Save)
    | Body(r: Res)
    | StopBackoff
    | Close(w: Save)
    | Wake
    | Unblock(cut: bool)
    | Refuse(permanent: bool)               // the deployment lookup or the guard says no
    | Place(n: NewRun, heard: bool)
    | Note(w: Save)
    | Poll(heard: bool)
    | Finish
    | Create(n: NewRun)                     // anyone else creating a run
    | Touch(i: RunId, row: Run)             // anyone else changing one

  function Fresh(): Exec { Exec([], map[], Ready, false, [], {}, 0) }

  function Answer(e: Exec, r: Res, x: Fed): Exec { e.(hist := e.hist + [r], phase := Ready, script := e.script + [x]) }

  function Fails(e: Exec, err: Error): Exec { Answer(e, Err(err), Own(Err(err), true)) }

  function WakeAt(alarm: Alarm, now: Time): Time { if alarm.At? then alarm.t else now + alarm.d }

  function Entered(c: Config, s: Sys, e: Exec, loaded: bool): Exec {
    var a := c.code(e.hist);
    if a.Return? then e
    else if a.Task? && e.cancelled then Answer(e, Err(CANCELLED), Own(Err(CANCELLED), false))
    else
      var k := KeyOf(a, e.ord);
      var e' := e.(ord := Drawn(a, e.ord), since := s.now);
      if a.Task? && a.ephemeral then e'.(phase := Tried(a, "", None))
      else if a.Wait? && e.cancelled then Fails(e', CANCELLED)
      else if !loaded then Fails(e', Plain(1))
      else if a.Sub? then
        if k in s.table && ReadsAsRun(s.table[k].result) then
          e'.(phase := Polling(k, s.table[k].result.value))
        else e'.(phase := Placing(k))
      else if OnRecord(s.table, k) then
        var v := Value(s.table[k].result);
        if a.Wait? then e'.(phase := Waking(k, v)) else Answer(e', Ok(v), Recorded)
      else e'.(phase := Opening(k, if a.Wait? then Some(WakeAt(a.alarm, s.now)) else None))
  }

  /** Into the attempt loop, which a negative retry count skips. */
  function Tried(a: Act, k: string, fixed: Option<Val>): Phase {
    if Retries(a) < 0 then Closing(k, Err(Plain(2))) else Trying(k, 0, fixed)
  }

  /** After one call of the body. */
  function Attempted(a: Act, k: string, calls: nat, fixed: Option<Val>, r: Res): Phase {
    if !Retryable(r) then Closing(k, r)
    else if calls + 1 > Retries(a) then Closing(k, Err(Plain(r.e.message)))
    else Trying(k, calls + 1, fixed)
  }

  function Closed(c: Config, s: Sys, e: Exec, k: string, r: Res, w: Save): Sys {
    var a := c.code(e.hist);
    if !Durable(a) || (r.Err? && r.e.suspend.Some?) then s.(exec := Some(Answer(e, r, Own(r, true))))
    else if r.Err? then
      s.(table := Saved(s.table, k, Cp(Broken, None), w), exec := Some(Answer(e, r, Own(r, true))))
    else
      s.(table := Saved(s.table, k, Cp(Done, Some(r.v)), w),
         exec := Some(if !w.Stored? then Fails(e, Plain(3))
                      else if a.Wait? then e.(phase := Waking(k, r.v))
                      else Answer(e, r, Recorded)))
  }

  function Woken(c: Config, s: Sys, e: Exec, k: string, wake: Time): Exec {
    if s.now >= wake then Answer(e, Ok(0), Woke).(passed := e.passed + {k})
    else if wake - s.now > c.threshold then Answer(e, Err(Nap(wake)), Dozed)
    else e.(phase := Blocked(k, wake))
  }

  function Unblocked(s: Sys, e: Exec, k: string, wake: Time, cut: bool): Exec {
    if cut && e.cancelled then Fails(e, CANCELLED)
    else if s.now >= wake then Answer(e, Ok(0), Woke).(passed := e.passed + {k})
    else e
  }

  function ChildOf(c: Config, k: string, n: NewRun): NewRun {
    n.(idemKey := Some(ChildKey(c.id, k)), parent := Some(c.self))
  }

  function Placed(c: Config, s: Sys, e: Exec, k: string, n: NewRun, heard: bool): Sys {
    var (rows', i) := Insert(s.rows, ChildOf(c, k, n), s.now);
    s.(rows := rows', exec := Some(if heard then e.(phase := Noting(k, i)) else Fails(e, Plain(7))))
  }

  const THIRTY_SECONDS: Time := 30_000_000_000

  function Polled(rows: seq<Run>, now: Time, child: int, heard: bool): Res {
    if !heard || !(0 <= child < |rows|) then Err(Plain(4))
    else if rows[child].state == Completed then Ok(Value(rows[child].result))
    else if IsTerminal(rows[child].state) then Err(Fatal(5))
    else Err(Nap(now + THIRTY_SECONDS))
  }

  /** A step that is not enabled changes nothing. */
  function Next(c: Config, s: Sys, st: Step): Sys {
    match st
    case Tick(dt) => s.(now := s.now + dt)
    case Create(n) => s.(rows := Insert(s.rows, n, s.now).0)
    case Touch(i, r) =>
      if i < |s.rows| && r.idemKey == s.rows[i].idemKey then s.(rows := s.rows[i := r]) else s
    case Begin => if s.exec.None? then s.(exec := Some(Fresh())) else s
    case Crash => s.(exec := None)
    case _ =>
      if s.exec.None? then s
      else if IsTaskStep(st) then InTask(c, s, s.exec.value, st)
      else Elsewhere(c, s, s.exec.value, st)
  }

  predicate IsTaskStep(st: Step) {
    st.Enter? || st.Borrow? || st.OpenCp? || st.Body? || st.StopBackoff? || st.Close?
  }

  predicate IsOutside(st: Step) { st.Tick? || st.Create? || st.Touch? || st.Begin? || st.Crash? }

  /** The steps of Task. */
  function InTask(c: Config, s: Sys, e: Exec, st: Step): Sys {
    match (st, e.phase)
    case (Enter(loaded), Ready) => s.(exec := Some(Entered(c, s, e, loaded)))
    case (Borrow(v, w), Opening(k, None)) =>
      if c.code(e.hist).Task? && c.code(e.hist).cached then
        s.(table := Saved(s.table, k, Cp(Done, Some(v)), w),
           log := s.log + [Borrowed(k, v)],
           exec := Some(Answer(e, Ok(v), if w.Lost? then Lent(v) else Recorded)))
      else s
    case (OpenCp(w), Opening(k, fixed)) =>
      s.(table := Saved(s.table, k, Cp(Open, None), w), exec := Some(e.(phase := Tried(c.code(e.hist), k, fixed))))
    case (Body(r), Trying(k, calls, fixed)) =>
      var a := c.code(e.hist);
      var out := if fixed.Some? then Ok(fixed.value) else r;
      s.(log := if Durable(a) then s.log + [Ran(k, out)] else s.log,
         exec := Some(e.(phase := Attempted(a, k, calls, fixed, out))))
    case (StopBackoff, Trying(k, calls, _)) =>
      if calls > 0 && e.cancelled then s.(exec := Some(e.(phase := Closing(k, Err(CANCELLED))))) else s
    case (Close(w), Closing(k, r)) => Closed(c, s, e, k, r, w)
    case _ => s
  }

  /** The clock check of WaitUntil, RunDeploymentAndWait, and the attempt's end. */
  function Elsewhere(c: Config, s: Sys, e: Exec, st: Step): Sys {
    match (st, e.phase)
    case (Cancel, _) => s.(exec := Some(e.(cancelled := true)))
    case (Wake, Waking(k, wake)) => s.(exec := Some(Woken(c, s, e, k, wake)))
    case (Unblock(cut), Blocked(k, wake)) => s.(exec := Some(Unblocked(s, e, k, wake, cut)))
    case (Refuse(permanent), Placing(_)) =>
      s.(exec := Some(Fails(e, if permanent then Fatal(6) else Plain(6))))
    case (Place(n, heard), Placing(k)) =>
      Placed(c, s, e, k, n, heard)
    case (Note(w), Noting(k, child)) =>
      s.(table := Saved(s.table, k, Cp(Open, Some(child)), w),
         exec := Some(if w.Stored? then e.(phase := Polling(k, child)) else Fails(e, Plain(8))))
    case (Poll(heard), Polling(k, child)) =>
      var r := Polled(s.rows, s.now, child, heard);
      s.(log := if r.Ok? then s.log + [Saw(k, child, r.v)] else s.log,
         exec := Some(Answer(e, r, if r.Ok? then Child(child, r.v) else Own(r, true))))
    case (Finish, Ready) =>
      var a := c.code(e.hist);
      if a.Return? then s.(exec := None, outcomes := s.outcomes + [Outcome(e.script, a.r)]) else s
    case _ => s
  }

  function Execute(c: Config, s: Sys, steps: seq<Step>): Sys
    decreases |steps|
  {
    if steps == [] then s else Execute(c, Next(c, s, steps[0]), steps[1..])
  }

  // ---------------------------------------------------- the uninterrupted run ---

  datatype Frame = Frame(hist: seq<Res>, ord: map<string, nat>, passed: set<string>)

  /** What an uninterrupted run is told: the result on record for each key, and what
      was borrowed and seen. */
  datatype Evidence = Evidence(rec: map<string, Val>, log: seq<Entry>)

  function Known(s: Sys): Evidence { Evidence(Values(s.table), s.log) }

  /** Answers an attempt may supply itself: any for an ephemeral step, and otherwise
      only errors, for a wait only without asking to be suspended. */
  predicate MayOwn(a: Act, r: Res, drawn: bool) {
    && !a.Return?
    && (!(a.Task? && a.ephemeral) ==> r.Err?)
    && (a.Wait? ==> r.e.suspend.None?)
    && (!drawn ==> r == Err(CANCELLED) && a.Task?)
  }

  /** One SDK call of a run that nothing interrupts, when the result of every step
      is already settled by `ev`. */
  function Reply(code: Flow, ev: Evidence, f: Frame, x: Fed): Option<Frame> {
    var a := code(f.hist);
    var k := KeyOf(a, f.ord);
    var ord' := Drawn(a, f.ord);
    match x
    case Recorded =>
      if a.Task? && Durable(a) && k in ev.rec then Some(Frame(f.hist + [Ok(ev.rec[k])], ord', f.passed)) else None
    case Woke =>
      if a.Wait? && k in ev.rec then Some(Frame(f.hist + [Ok(0)], ord', f.passed + {k})) else None
    case Dozed =>
      if a.Wait? && k in ev.rec then Some(Frame(f.hist + [Err(Nap(ev.rec[k]))], ord', f.passed)) else None
    case Child(child, v) =>
      if a.Sub? && Saw(k, child, v) in ev.log then Some(Frame(f.hist + [Ok(v)], ord', f.passed)) else None
    case Lent(v) =>
      if a.Task? && Durable(a) && a.cached && Borrowed(k, v) in ev.log then
        Some(Frame(f.hist + [Ok(v)], ord', f.passed))
      else None
    case Own(r, drawn) =>
      if MayOwn(a, r, drawn) then Some(Frame(f.hist + [r], if drawn then ord' else f.ord, f.passed)) else None
  }

  /** The run from its start, crash-free, without any checkpoint table. */
  function Uninterrupted(code: Flow, ev: Evidence, script: seq<Fed>): Option<Frame>
    decreases |script|
  {
    if script == [] then Some(Frame([], map[], {}))
    else
      var n := |script| - 1;
      match Uninterrupted(code, ev, script[..n])
      case None => None
      case Some(f) => Reply(code, ev, f, script[n])
  }

  /** Flow code that keeps out of sub-flow checkpoints wherever it can get to. */
  ghost predicate Mannered(code: Flow) {
    forall ev, script | Uninterrupted(code, ev, script).Some? ::
      Civil(code(Uninterrupted(code, ev, script).value.hist))
  }

  lemma OneMore(code: Flow, ev: Evidence, script: seq<Fed>, x: Fed)
    ensures Uninterrupted(code, ev, script + [x]) ==
      match Uninterrupted(code, ev, script)
      case None => None
      case Some(f) => Reply(code, ev, f, x)
  {
    assert (script + [x])[..|script|] == script;
  }

  predicate Kept(rec: map<string, Val>, rec': map<string, Val>) {
    forall k | k in rec :: k in rec' && rec'[k] == rec[k]
  }

  predicate Extends(ev: Evidence, ev': Evidence) { Kept(ev.rec, ev'.rec) && ev.log <= ev'.log }

  /** Results recorded later do not change the runs that earlier ones settled. */
  lemma {:induction false} MoreOnRecord(code: Flow, ev: Evidence, ev': Evidence, script: seq<Fed>)
    requires Extends(ev, ev') && Uninterrupted(code, ev, script).Some?
    ensures Uninterrupted(code, ev', script) == Uninterrupted(code, ev, script)
    decreases |script|
  {
    if script != [] {
      MoreOnRecord(code, ev, ev', script[..|script| - 1]);
    }
  }

  // -------------------------------------------------------------- invariants ---

  ghost predicate Told(log: seq<Entry>, k: string, v: Val) {
    Ran(k, Ok(v)) in log || Borrowed(k, v) in log
  }

  /** Every recorded result was returned by the step's body, or borrowed from the cache. */
  ghost predicate Sourced(s: Sys) {
    forall k | k in s.table && OnRecord(s.table, k) :: Told(s.log, k, Value(s.table[k].result))
  }

  predicate Owns(c: Config, rows: seq<Run>, k: string, child: int) {
    0 <= child < |rows| && rows[child].idemKey == Some(ChildKey(c.id, k))
  }

  /** A sub-flow's checkpoint names the run that carries its key, and stays open. */
  ghost predicate ChildrenKnown(c: Config, s: Sys) {
    forall k | k in s.table && IsSubKey(k) ::
      s.table[k].status == Open && s.table[k].result.Some? && Owns(c, s.rows, k, s.table[k].result.value)
  }

  ghost predicate Explained(c: Config, ev: Evidence, o: Outcome) {
    var f := Uninterrupted(c.code, ev, o.script);
    f.Some? && c.code(f.value.hist) == Return(o.r)
  }

  predicate Unrecorded(c: Config, s: Sys, e: Exec, ord: map<string, nat>, k: string) {
    var a := c.code(e.hist);
    !a.Return? && !a.Sub? && e.ord == Drawn(a, ord) && (Durable(a) ==> k == KeyOf(a, ord) && !OnRecord(s.table, k))
  }

  predicate AtWait(c: Config, s: Sys, e: Exec, ord: map<string, nat>, k: string, wake: Time) {
    var a := c.code(e.hist);
    a.Wait? && e.ord == Drawn(a, ord) && k == KeyOf(a, ord) && OnRecord(s.table, k) && Value(s.table[k].result) == wake
  }

  predicate AtSub(c: Config, e: Exec, ord: map<string, nat>, k: string) {
    var a := c.code(e.hist);
    a.Sub? && e.ord == Drawn(a, ord) && k == KeyOf(a, ord)
  }

  /** What the body of a step is bound to return, if it is a wait called at `since`. */
  function Bound(a: Act, since: Time): Option<Val> {
    if a.Wait? then Some(WakeAt(a.alarm, since)) else None
  }

  /** What holds in the middle of an SDK call; `ord` is what the counters were when it began. */
  ghost predicate PhaseSound(c: Config, s: Sys, e: Exec, ord: map<string, nat>) {
    var a := c.code(e.hist);
    match e.phase
    case Ready => e.ord == ord
    case Opening(k, fixed) => Unrecorded(c, s, e, ord, k) && Durable(a) && fixed == Bound(a, e.since)
    case Trying(k, _, fixed) => Unrecorded(c, s, e, ord, k) && fixed == Bound(a, e.since)
    case Closing(k, r) =>
      && Unrecorded(c, s, e, ord, k)
      && (a.Wait? ==> if r.Ok? then Some(r.v) == Bound(a, e.since) else r.e.suspend.None?)
      && (Durable(a) && r.Ok? ==> Told(s.log, k, r.v))
    case Waking(k, wake) => AtWait(c, s, e, ord, k, wake)
    case Blocked(k, wake) => AtWait(c, s, e, ord, k, wake)
    case Placing(k) => AtSub(c, e, ord, k)
    case Noting(k, child) => AtSub(c, e, ord, k) && Owns(c, s.rows, k, child)
    case Polling(k, child) => AtSub(c, e, ord, k) && Owns(c, s.rows, k, child)
  }

  /** Every wait got past had a wake instant on record, and it is over. */
  predicate WaitsOver(ev: Evidence, passed: set<string>, now: Time) {
    forall k | k in passed :: k in ev.rec && ev.rec[k] <= now
  }

  ghost predicate ExecSound(c: Config, s: Sys, e: Exec) {
    var f := Uninterrupted(c.code, Known(s), e.script);
    && f.Some? && f.value.hist == e.hist && f.value.passed == e.passed
    && WaitsOver(Known(s), e.passed, s.now)
    && PhaseSound(c, s, e, f.value.ord)
  }

  ghost predicate OutcomesSound(c: Config, s: Sys) {
    forall i | 0 <= i < |s.outcomes| :: Explained(c, Known(s), s.outcomes[i])
  }

  ghost predicate Inv(c: Config, s: Sys) {
    && Mannered(c.code) && UniqueKeys(s.rows)
    && Sourced(s) && ChildrenKnown(c, s) && OutcomesSound(c, s)
    && (s.exec.Some? ==> ExecSound(c, s, s.exec.value))
  }

  ghost predicate Initial(s: Sys) {
    s.table == map[] && s.exec.None? && s.log == [] && s.outcomes == [] && UniqueKeys(s.rows)
  }

  // ----------------------------------------------------- one answer at a time ---

  predicate KeysKept(rows: seq<Run>, rows': seq<Run>) {
    |rows| <= |rows'| && forall i | 0 <= i < |rows| :: rows'[i].idemKey == rows[i].idemKey
  }

  /** A table that changed, if at all, only under one key that had no result yet. */
  ghost predicate Grown(t: Table, t': Table, k: string) {
    t' == t || (!OnRecord(t, k) && k in t' && t' == t[k := t'[k]])
  }

  lemma GrownValues(t: Table, t': Table, k: string)
    requires Grown(t, t', k)
    ensures Kept(Values(t), Values(t'))
    ensures forall j | OnRecord(t, j) :: OnRecord(t', j) && t'[j] == t[j]
  {
  }

  /** The attempt is given one more answer, which the uninterrupted run gives too. */
  lemma AnswerSound(c: Config, s: Sys, s': Sys, e: Exec, r: Res, x: Fed, passed: set<string>)
    requires Uninterrupted(c.code, Known(s), e.script).Some?
    requires Extends(Known(s), Known(s'))
    requires var f := Uninterrupted(c.code, Known(s), e.script).value;
      Reply(c.code, Known(s'), f, x) == Some(Frame(e.hist + [r], e.ord, passed))
    requires WaitsOver(Known(s'), passed, s'.now)
    ensures ExecSound(c, s', Answer(e, r, x).(passed := passed))
  {
    MoreOnRecord(c.code, Known(s), Known(s'), e.script);
    OneMore(c.code, Known(s'), e.script, x);
  }

  function Start(c: Config, s: Sys, e: Exec): map<string, nat>
    requires Uninterrupted(c.code, Known(s), e.script).Some?
  {
    Uninterrupted(c.code, Known(s), e.script).value.ord
  }

  /** Moving on inside the same SDK call. */
  lemma MoveSound(c: Config, s: Sys, s': Sys, e: Exec, e': Exec)
    requires ExecSound(c, s, e) && Extends(Known(s), Known(s')) && s.now <= s'.now
    requires e'.hist == e.hist && e'.script == e.script && e'.passed == e.passed
    requires PhaseSound(c, s', e', Start(c, s, e))
    ensures ExecSound(c, s', e')
  {
    MoreOnRecord(c.code, Known(s), Known(s'), e.script);
  }

  lemma EnterSound(c: Config, s: Sys, e: Exec, loaded: bool)
    requires Mannered(c.code) && ChildrenKnown(c, s) && ExecSound(c, s, e) && e.phase.Ready?
    ensures ExecSound(c, s, Entered(c, s, e, loaded))
  {
    var a := c.code(e.hist);
    assert Civil(a);
    var k := KeyOf(a, e.ord);
    var e' := e.(ord := Drawn(a, e.ord), since := s.now);
    KeyKinds(a, e.ord);
    if a.Return? {
    } else if a.Task? && e.cancelled {
      AnswerSound(c, s, s, e, Err(CANCELLED), Own(Err(CANCELLED), false), e.passed);
    } else if a.Task? && a.ephemeral {
      MoveSound(c, s, s, e, e'.(phase := Tried(a, "", None)));
    } else if a.Wait? && e.cancelled {
      AnswerSound(c, s, s, e', Err(CANCELLED), Own(Err(CANCELLED), true), e.passed);
    } else if !loaded {
      AnswerSound(c, s, s, e', Err(Plain(1)), Own(Err(Plain(1)), true), e.passed);
    } else if a.Task? && OnRecord(s.table, k) {
      AnswerSound(c, s, s, e', Ok(Value(s.table[k].result)), Recorded, e.passed);
    } else {
      MoveSound(c, s, s, e, Entered(c, s, e, loaded));
    }
  }

  lemma ClosedSound(c: Config, s: Sys, e: Exec, k: string, r: Res, w: Save)
    requires Mannered(c.code) && ExecSound(c, s, e) && e.phase == Closing(k, r)
    ensures ExecSound(c, Closed(c, s, e, k, r, w), Closed(c, s, e, k, r, w).exec.value)
  {
    var s' := Closed(c, s, e, k, r, w);
    var a := c.code(e.hist);
    if Durable(a) {
      GrownValues(s.table, s'.table, k);
      if r.Ok? && w.Stored? && a.Wait? {
        MoveSound(c, s, s', e, e.(phase := Waking(k, r.v)));
      } else if r.Ok? && w.Stored? {
        AnswerSound(c, s, s', e, r, Recorded, e.passed);
      } else if r.Ok? {
        AnswerSound(c, s, s', e, Err(Plain(3)), Own(Err(Plain(3)), true), e.passed);
      } else {
        AnswerSound(c, s, s', e, r, Own(r, true), e.passed);
      }
    } else {
      AnswerSound(c, s, s', e, r, Own(r, true), e.passed);
    }
  }

  lemma BorrowSound(c: Config, s: Sys, e: Exec, k: string, v: Val, w: Save)
    requires Mannered(c.code) && ExecSound(c, s, e) && e.phase == Opening(k, None)
    requires c.code(e.hist).Task? && c.code(e.hist).cached
    ensures var s' := InTask(c, s, e, Borrow(v, w)); ExecSound(c, s', s'.exec.value)
  {
    var s' := InTask(c, s, e, Borrow(v, w));
    GrownValues(s.table, s'.table, k);
    AnswerSound(c, s, s', e, Ok(v), if w.Lost? then Lent(v) else Recorded, e.passed);
  }

  lemma WakeSound(c: Config, s: Sys, e: Exec, k: string, wake: Time)
    requires Mannered(c.code) && ExecSound(c, s, e) && e.phase in {Waking(k, wake), Blocked(k, wake)}
    ensures ExecSound(c, s, Woken(c, s, e, k, wake))
    ensures forall cut | e.phase.Blocked? :: ExecSound(c, s, Unblocked(s, e, k, wake, cut))
  {
    if s.now >= wake {
      AnswerSound(c, s, s, e, Ok(0), Woke, e.passed + {k});
    }
    AnswerSound(c, s, s, e, Err(Nap(wake)), Dozed, e.passed);
    AnswerSound(c, s, s, e, Err(CANCELLED), Own(Err(CANCELLED), true), e.passed);
    MoveSound(c, s, s, e, e.(phase := Blocked(k, wake)));
  }

  /** Inserting keeps every row's key and gives back a row that has the key asked for. */
  lemma InsertKeeps(rows: seq<Run>, n: NewRun, now: Time)
    requires UniqueKeys(rows)
    ensures UniqueKeys(Insert(rows, n, now).0) && KeysKept(rows, Insert(rows, n, now).0)
    ensures n.idemKey.Some? ==>
      Insert(rows, n, now).1 < |Insert(rows, n, now).0|
      && Insert(rows, n, now).0[Insert(rows, n, now).1].idemKey == n.idemKey
  {
    if n.idemKey.Some? {
      CreateIsIdempotent(rows, n, n, now, now);
    }
  }

  lemma PlaceSound(c: Config, s: Sys, e: Exec, k: string, n: NewRun, heard: bool)
    requires Mannered(c.code) && UniqueKeys(s.rows) && ExecSound(c, s, e) && e.phase == Placing(k)
    ensures var s' := Placed(c, s, e, k, n, heard); ExecSound(c, s', s'.exec.value)
  {
    var s' := Placed(c, s, e, k, n, heard);
    InsertKeeps(s.rows, ChildOf(c, k, n), s.now);
    assert s'.table == s.table;
    if heard {
      MoveSound(c, s, s', e, s'.exec.value);
    } else {
      AnswerSound(c, s, s', e, Err(Plain(7)), Own(Err(Plain(7)), true), e.passed);
    }
  }

  lemma NoteSound(c: Config, s: Sys, e: Exec, k: string, child: int, w: Save)
    requires Mannered(c.code) && ChildrenKnown(c, s) && ExecSound(c, s, e) && e.phase == Noting(k, child)
    ensures var s' := Elsewhere(c, s, e, Note(w));
      s'.exec.Some? && ExecSound(c, s', s'.exec.value) && Grown(s.table, s'.table, k)
  {
    var s' := Elsewhere(c, s, e, Note(w));
    NotingIsOpen(c, s, e, k);
    GrownValues(s.table, s'.table, k);
    if w.Stored? {
      MoveSound(c, s, s', e, e.(phase := Polling(k, child)));
    } else {
      AnswerSound(c, s, s', e, Err(Plain(8)), Own(Err(Plain(8)), true), e.passed);
    }
  }

  lemma NotingIsOpen(c: Config, s: Sys, e: Exec, k: string)
    requires Mannered(c.code) && ChildrenKnown(c, s) && ExecSound(c, s, e) && e.phase.Noting? && e.phase.key == k
    ensures !OnRecord(s.table, k)
  {
    assert Civil(c.code(e.hist));
    KeyKinds(c.code(e.hist), Start(c, s, e));
  }

  lemma TryingSound(c: Config, s: Sys, e: Exec, st: Step)
    requires s.exec == Some(e) && ExecSound(c, s, e)
    requires (st.OpenCp? && e.phase.Opening?) || ((st.Body? || st.StopBackoff?) && e.phase.Trying?)
    ensures var s' := InTask(c, s, e, st); s'.exec.Some? ==> ExecSound(c, s', s'.exec.value)
  {
    var s' := InTask(c, s, e, st);
    if st.OpenCp? {
      GrownValues(s.table, s'.table, e.phase.key);
    } else if st.Body? && s'.log != s.log {
      var out := if e.phase.fixed.Some? then Ok(e.phase.fixed.value) else st.r;
      assert s'.log[|s.log|] == Ran(e.phase.key, out);
    }
    if s' != s {
      MoveSound(c, s, s', e, s'.exec.value);
    }
  }


  /** What a sub-flow step refuses is the attempt's own. */
  lemma RefusalSound(c: Config, s: Sys, e: Exec, err: Error)
    requires ExecSound(c, s, e) && e.phase.Placing?
    ensures ExecSound(c, s, Fails(e, err))
  {
    AnswerSound(c, s, s, e, Err(err), Own(Err(err), true), e.passed);
  }

  lemma PollSound(c: Config, s: Sys, e: Exec, heard: bool)
    requires ExecSound(c, s, e) && e.phase.Polling?
    ensures var s' := Elsewhere(c, s, e, Poll(heard)); s'.exec.Some? && ExecSound(c, s', s'.exec.value)
  {
    var s' := Elsewhere(c, s, e, Poll(heard));
    var r := Polled(s.rows, s.now, e.phase.child, heard);
    if r.Ok? {
      SeenSound(c, s, s', e, r.v);
    } else {
      AnswerSound(c, s, s', e, r, Own(r, true), e.passed);
    }
  }

  lemma SeenSound(c: Config, s: Sys, s': Sys, e: Exec, v: Val)
    requires ExecSound(c, s, e) && e.phase.Polling?
    requires s' == s.(log := s.log + [Saw(e.phase.key, e.phase.child, v)],
                      exec := Some(Answer(e, Ok(v), Child(e.phase.child, v))))
    ensures ExecSound(c, s', s'.exec.value)
  {
    assert s'.log[|s.log|] == Saw(e.phase.key, e.phase.child, v);
    AnswerSound(c, s, s', e, Ok(v), Child(e.phase.child, v), e.passed);
  }

  // ---------------------------------------------------------- every step keeps it ---

  /** What one step may do to the shared state: touch one checkpoint that has no
      result yet, with the proper source for a result and the proper child for a sub-flow. */
  ghost predicate Careful(c: Config, s: Sys, s': Sys, k: string) {
    && Grown(s.table, s'.table, k) && s.log <= s'.log && KeysKept(s.rows, s'.rows) && UniqueKeys(s'.rows)
    && (s'.table != s.table && OnRecord(s'.table, k) ==> Told(s'.log, k, Value(s'.table[k].result)))
    && (s'.table != s.table && IsSubKey(k) ==>
          s'.table[k].status == Open && s'.table[k].result.Some? && Owns(c, s'.rows, k, s'.table[k].result.value))
  }

  lemma OneCheckpoint(c: Config, s: Sys, st: Step) returns (k: string)
    requires Inv(c, s)
    ensures Careful(c, s, Next(c, s, st), k)
  {
    k := "";
    if st.Create? {
      InsertKeeps(s.rows, st.n, s.now);
    } else if s.exec.Some? && !IsOutside(st) {
      k := if IsTaskStep(st) then TaskKey(s.exec.value) else NoteKey(s.exec.value);
      if IsTaskStep(st) {
        TaskCareful(c, s, s.exec.value, st);
      } else {
        ElsewhereCareful(c, s, s.exec.value, st);
      }
    }
  }

  function TaskKey(e: Exec): string { if e.phase.Opening? || e.phase.Closing? then e.phase.key else "" }

  function NoteKey(e: Exec): string { if e.phase.Noting? then e.phase.key else "" }

  lemma TaskCareful(c: Config, s: Sys, e: Exec, st: Step)
    requires Mannered(c.code) && UniqueKeys(s.rows) && ExecSound(c, s, e) && IsTaskStep(st)
    ensures Careful(c, s, InTask(c, s, e, st), TaskKey(e))
  {
    var s' := InTask(c, s, e, st);
    if s'.table != s.table {
      assert Civil(c.code(e.hist));
      KeyKinds(c.code(e.hist), Start(c, s, e));
      if st.Borrow? {
        assert s'.log[|s.log|] == Borrowed(e.phase.key, st.v);
      }
    }
  }

  lemma ElsewhereCareful(c: Config, s: Sys, e: Exec, st: Step)
    requires Mannered(c.code) && UniqueKeys(s.rows) && ChildrenKnown(c, s) && ExecSound(c, s, e) && !IsTaskStep(st)
    ensures Careful(c, s, Elsewhere(c, s, e, st), NoteKey(e))
  {
    if st.Note? && e.phase.Noting? {
      NotingIsOpen(c, s, e, e.phase.key);
    } else if st.Place? && e.phase.Placing? {
      InsertKeeps(s.rows, ChildOf(c, e.phase.key, st.n), s.now);
    }
  }

  lemma SharedSound(c: Config, s: Sys, s': Sys, k: string)
    requires Inv(c, s) && Careful(c, s, s', k)
    ensures Sourced(s') && ChildrenKnown(c, s') && Extends(Known(s), Known(s'))
  {
    GrownValues(s.table, s'.table, k);
    forall j | j in s'.table && OnRecord(s'.table, j) ensures Told(s'.log, j, Value(s'.table[j].result)) {
      if OnRecord(s.table, j) {
        assert Told(s.log, j, Value(s.table[j].result));
        assert forall x | x in s.log :: x in s'.log;
      }
    }
  }

  lemma TaskStepSound(c: Config, s: Sys, e: Exec, st: Step)
    requires Mannered(c.code) && ChildrenKnown(c, s) && s.exec == Some(e) && ExecSound(c, s, e) && IsTaskStep(st)
    ensures var s' := InTask(c, s, e, st); s'.exec.Some? ==> ExecSound(c, s', s'.exec.value)
  {
    if st.Enter? && e.phase.Ready? {
      EnterSound(c, s, e, st.loaded);
    } else if st.Borrow? && e.phase.Opening? && e.phase.fixed.None? {
      if c.code(e.hist).Task? && c.code(e.hist).cached {
        BorrowSound(c, s, e, e.phase.key, st.v, st.w);
      }
    } else if (st.OpenCp? && e.phase.Opening?) || ((st.Body? || st.StopBackoff?) && e.phase.Trying?) {
      TryingSound(c, s, e, st);
    } else if st.Close? && e.phase.Closing? {
      ClosedSound(c, s, e, e.phase.key, e.phase.r, st.w);
    }
  }

  lemma ElsewhereSound(c: Config, s: Sys, e: Exec, st: Step)
    requires Mannered(c.code) && UniqueKeys(s.rows) && ChildrenKnown(c, s)
    requires s.exec == Some(e) && ExecSound(c, s, e) && !IsTaskStep(st)
    ensures var s' := Elsewhere(c, s, e, st); s'.exec.Some? ==> ExecSound(c, s', s'.exec.value)
  {
    if st.Cancel? {
      MoveSound(c, s, Elsewhere(c, s, e, st), e, e.(cancelled := true));
    } else if (st.Wake? && e.phase.Waking?) || (st.Unblock? && e.phase.Blocked?) {
      WakeSound(c, s, e, e.phase.key, e.phase.wake);
    } else if st.Refuse? && e.phase.Placing? {
      RefusalSound(c, s, e, if st.permanent then Fatal(6) else Plain(6));
    } else if st.Poll? && e.phase.Polling? {
      PollSound(c, s, e, st.heard);
    } else if st.Place? && e.phase.Placing? {
      PlaceSound(c, s, e, e.phase.key, st.n, st.heard);
    } else if st.Note? && e.phase.Noting? {
      NoteSound(c, s, e, e.phase.key, e.phase.child, st.w);
    }
  }

  lemma OutsideSound(c: Config, s: Sys, st: Step)
    requires Inv(c, s) && IsOutside(st)
    ensures var s' := Next(c, s, st); s'.exec.Some? ==> ExecSound(c, s', s'.exec.value)
  {
    var s' := Next(c, s, st);
    var k := OneCheckpoint(c, s, st);
    if s.exec.Some? && s'.exec.Some? {
      MoveSound(c, s, s', s.exec.value, s.exec.value);
    }
  }

  lemma OutcomesSurvive(c: Config, s: Sys, s': Sys)
    requires OutcomesSound(c, s) && Extends(Known(s), Known(s')) && s'.outcomes == s.outcomes
    ensures OutcomesSound(c, s')
  {
    forall i | 0 <= i < |s'.outcomes| ensures Explained(c, Known(s'), s'.outcomes[i]) {
      assert Explained(c, Known(s), s.outcomes[i]);
      MoreOnRecord(c.code, Known(s), Known(s'), s.outcomes[i].script);
    }
  }

  lemma FinishSound(c: Config, s: Sys, e: Exec)
    requires OutcomesSound(c, s) && ExecSound(c, s, e)
    ensures OutcomesSound(c, Elsewhere(c, s, e, Finish))
  {
    var s' := Elsewhere(c, s, e, Finish);
    if s'.outcomes != s.outcomes {
      assert e.phase.Ready? && c.code(e.hist).Return?;
      assert Explained(c, Known(s), Outcome(e.script, c.code(e.hist).r));
      assert s'.table == s.table && s'.outcomes == s.outcomes + [Outcome(e.script, c.code(e.hist).r)];
    }
  }

  lemma OutcomesStep(c: Config, s: Sys, st: Step)
    requires OutcomesSound(c, s) && (s.exec.Some? ==> ExecSound(c, s, s.exec.value))
    requires Extends(Known(s), Known(Next(c, s, st)))
    ensures OutcomesSound(c, Next(c, s, st))
  {
    if st.Finish? && s.exec.Some? {
      FinishSound(c, s, s.exec.value);
    } else {
      OutcomesSurvive(c, s, Next(c, s, st));
    }
  }

  lemma InvStep(c: Config, s: Sys, st: Step)
    requires Inv(c, s)
    ensures Inv(c, Next(c, s, st))
  {
    var k := OneCheckpoint(c, s, st);
    SharedSound(c, s, Next(c, s, st), k);
    OutcomesStep(c, s, st);
    if IsOutside(st) {
      OutsideSound(c, s, st);
    } else if s.exec.Some? {
      if IsTaskStep(st) {
        TaskStepSound(c, s, s.exec.value, st);
      } else {
        ElsewhereSound(c, s, s.exec.value, st);
      }
    }
  }

  lemma {:induction false} InvAlways(c: Config, s: Sys, steps: seq<Step>)
    requires Inv(c, s)
    ensures Inv(c, Execute(c, s, steps))
    decreases |steps|
  {
    if steps != [] {
      InvStep(c, s, steps[0]);
      InvAlways(c, Next(c, s, steps[0]), steps[1..]);
    }
  }

  // ------------------------------------------------- recorded once, run no more ---

  /** How often the body of the step with this key was called. */
  function Calls(log: seq<Entry>, k: string): nat {
    if log == [] then 0
    else Calls(log[..|log| - 1], k) + if log[|log| - 1].key == k && log[|log| - 1].Ran? then 1 else 0
  }

  lemma OneMoreEntry(log: seq<Entry>, x: Entry, k: string)
    ensures Calls(log + [x], k) == Calls(log, k) + if x.key == k && x.Ran? then 1 else 0
  {
    assert (log + [x])[..|log|] == log;
  }

  /** The only step that calls a body, and for a key with no result on record. */
  lemma TaskLog(c: Config, s: Sys, e: Exec, st: Step, k: string)
    requires ExecSound(c, s, e) && IsTaskStep(st) && OnRecord(s.table, k)
    ensures Calls(InTask(c, s, e, st).log, k) == Calls(s.log, k)
  {
    var s' := InTask(c, s, e, st);
    if st.Body? && e.phase.Trying? && Durable(c.code(e.hist)) {
      assert e.phase.key != k;
      OneMoreEntry(s.log, s'.log[|s.log|], k);
    } else if st.Borrow? && e.phase.Opening? {
      OneMoreEntry(s.log, Borrowed(e.phase.key, st.v), k);
    }
  }

  lemma LogStep(c: Config, s: Sys, st: Step, k: string)
    requires Inv(c, s) && OnRecord(s.table, k)
    ensures Calls(Next(c, s, st).log, k) == Calls(s.log, k)
  {
    if s.exec.Some? && IsTaskStep(st) {
      TaskLog(c, s, s.exec.value, st, k);
    }
  }

  /** Once a step's result is on record it is never lost or changed, and its body
      is never called again, whatever attempts, crashes and failed writes follow. */
  lemma {:induction false} CompletedIsFinal(c: Config, s: Sys, steps: seq<Step>, k: string)
    requires Inv(c, s) && OnRecord(s.table, k)
    ensures var t := Execute(c, s, steps);
      && OnRecord(t.table, k) && t.table[k] == s.table[k]
      && Calls(t.log, k) == Calls(s.log, k)
    decreases |steps|
  {
    if steps != [] {
      var s' := Next(c, s, steps[0]);
      var j := OneCheckpoint(c, s, steps[0]);
      GrownValues(s.table, s'.table, j);
      LogStep(c, s, steps[0], k);
      InvStep(c, s, steps[0]);
      CompletedIsFinal(c, s', steps[1..], k);
    }
  }

  lemma Unroll(c: Config, s: Sys, st: Step, rest: seq<Step>)
    ensures Execute(c, s, [st] + rest) == Execute(c, Next(c, s, st), rest)
  {
    assert ([st] + rest)[1..] == rest;
  }

  lemma {:induction false} ExecuteConcat(c: Config, s: Sys, a: seq<Step>, b: seq<Step>)
    ensures Execute(c, s, a + b) == Execute(c, Execute(c, s, a), b)
    decreases |a|
  {
    if a == [] {
      assert a + b == b;
    } else {
      assert (a + b)[1..] == a[1..] + b;
      ExecuteConcat(c, Next(c, s, a[0]), a[1..], b);
    }
  }

  /** The attempt has come to a durable task whose attempt loop is not empty. */
  predicate AtTask(c: Config, e: Exec) {
    && e.phase.Ready? && !e.cancelled
    && c.code(e.hist).Task? && Durable(c.code(e.hist)) && c.code(e.hist).retries >= 0
  }

  lemma TaskOpens(c: Config, s: Sys, e: Exec)
    requires s.exec == Some(e) && AtTask(c, e) && !OnRecord(s.table, KeyOf(c.code(e.hist), e.ord))
    ensures var a := c.code(e.hist);
      Next(c, s, Enter(true)) == s.(exec := Some(e.(ord := Drawn(a, e.ord), since := s.now,
                                                            phase := Opening(KeyOf(a, e.ord), None))))
  {
  }

  lemma TaskTries(c: Config, s: Sys, e: Exec, k: string, w: Save)
    requires s.exec == Some(e) && e.phase == Opening(k, None) && c.code(e.hist).Task? && c.code(e.hist).retries >= 0
    ensures Next(c, s, OpenCp(w)) ==
      s.(table := Saved(s.table, k, Cp(Open, None), w), exec := Some(e.(phase := Trying(k, 0, None))))
  {
  }

  lemma TaskCalls(c: Config, s: Sys, e: Exec, k: string, r: Res)
    requires s.exec == Some(e) && e.phase == Trying(k, 0, None) && Durable(c.code(e.hist))
    ensures Next(c, s, Body(r)) ==
      s.(log := s.log + [Ran(k, r)], exec := Some(e.(phase := Attempted(c.code(e.hist), k, 0, None, r))))
  {
  }

  /** Reaching a durable task, opening its checkpoint and calling its body. */
  function CallBody(w: Save, r: Res): seq<Step> { [Enter(true)] + ([OpenCp(w)] + ([Body(r)] + [])) }

  lemma CallBodyCalls(c: Config, s: Sys, e: Exec, w: Save, r: Res)
    requires s.exec == Some(e) && AtTask(c, e) && !OnRecord(s.table, KeyOf(c.code(e.hist), e.ord))
    ensures var (a, k) := (c.code(e.hist), KeyOf(c.code(e.hist), e.ord));
      Execute(c, s, CallBody(w, r)) ==
        s.(table := Saved(s.table, k, Cp(Open, None), w), log := s.log + [Ran(k, r)],
           exec := Some(e.(ord := Drawn(a, e.ord), phase := Attempted(a, k, 0, None, r), since := s.now)))
  {
    var a := c.code(e.hist);
    var k := KeyOf(a, e.ord);
    var e1 := e.(ord := Drawn(a, e.ord), phase := Opening(k, None), since := s.now);
    var s1 := s.(exec := Some(e1));
    var s2 := s.(table := Saved(s.table, k, Cp(Open, None), w), exec := Some(e1.(phase := Trying(k, 0, None))));
    TaskOpens(c, s, e);
    TaskTries(c, s1, e1, k, w);
    TaskCalls(c, s2, s2.exec.value, k, r);
    Unroll(c, s, Enter(true), [OpenCp(w)] + ([Body(r)] + []));
    Unroll(c, s1, OpenCp(w), [Body(r)] + []);
    Unroll(c, s2, Body(r), []);
  }

  /** And that is exactly when: from an attempt that has come to a task, some
      continuation calls the task's body (once more) if and only if no result is on
      record for it, however often it was called before. */
  lemma BodyRunsUnlessRecorded(c: Config, s: Sys, e: Exec)
    requires Inv(c, s) && s.exec == Some(e) && AtTask(c, e)
    ensures var k := KeyOf(c.code(e.hist), e.ord);
      (exists steps :: Calls(Execute(c, s, steps).log, k) > Calls(s.log, k)) <==> !OnRecord(s.table, k)
  {
    var k := KeyOf(c.code(e.hist), e.ord);
    if OnRecord(s.table, k) {
      forall steps ensures Calls(Execute(c, s, steps).log, k) == Calls(s.log, k) {
        CompletedIsFinal(c, s, steps, k);
      }
    } else {
      CallBodyCalls(c, s, e, Lost, Ok(0));
      OneMoreEntry(s.log, Ran(k, Ok(0)), k);
    }
  }

  // --------------------------------------------------- one uninterrupted run ---

  /** Durable replay: after any sequence of attempts, crashes, failed writes and
      outside changes, every outcome ever reported is that of an uninterrupted run
      of the code in which each durable step that succeeds answers with the one
      result on record for it, or with a cached result that was borrowed for it, and
      each sub-flow that succeeds with a result its child was seen to have; and each
      result on record really came from the step's body or the cache. */
  lemma ReplayRefinesOneRun(c: Config, s: Sys, steps: seq<Step>)
    requires Mannered(c.code) && Initial(s)
    ensures var t := Execute(c, s, steps);
      && (forall i | 0 <= i < |t.outcomes| :: Explained(c, Known(t), t.outcomes[i]))
      && Sourced(t)
  {
    InvAlways(c, s, steps);
  }

  lemma ReplyGrows(code: Flow, ev: Evidence, f: Frame, x: Fed)
    requires Reply(code, ev, f, x).Some?
    ensures var g := Reply(code, ev, f, x).value;
      |g.hist| == |f.hist| + 1 && g.hist[..|f.hist|] == f.hist && f.passed <= g.passed
  {
  }

  /** An uninterrupted run's beginnings are uninterrupted runs. */
  lemma {:induction false} Beginnings(code: Flow, ev: Evidence, script: seq<Fed>, i: nat)
    requires Uninterrupted(code, ev, script).Some? && i <= |script|
    ensures Uninterrupted(code, ev, script[..i]).Some?
    ensures var (f, g) := (Uninterrupted(code, ev, script).value, Uninterrupted(code, ev, script[..i]).value);
      |f.hist| == |script| && g.hist == f.hist[..i] && g.passed <= f.passed
    decreases |script|
  {
    if script == [] {
    } else {
      var n := |script| - 1;
      var before := script[..n];
      Beginnings(code, ev, before, if i <= n then i else n);
      ReplyGrows(code, ev, Uninterrupted(code, ev, before).value, script[n]);
      if i <= n {
        assert before[..i] == script[..i];
      } else {
        assert script[..i] == script;
      }
    }
  }

  /** The i-th call of an uninterrupted run. */
  lemma CallAt(code: Flow, ev: Evidence, script: seq<Fed>, i: nat) returns (before: Frame, after: Frame)
    requires Uninterrupted(code, ev, script).Some? && i < |script|
    ensures Uninterrupted(code, ev, script[..i]) == Some(before)
    ensures Reply(code, ev, before, script[i]) == Some(after)
    ensures var f := Uninterrupted(code, ev, script).value;
      |f.hist| == |script| && before.hist == f.hist[..i] && after.hist == f.hist[..i + 1] && after.passed <= f.passed
  {
    Beginnings(code, ev, script, i);
    Beginnings(code, ev, script, i + 1);
    before := Uninterrupted(code, ev, script[..i]).value;
    after := Uninterrupted(code, ev, script[..i + 1]).value;
    assert script[..i + 1] == script[..i] + [script[i]];
    OneMore(code, ev, script[..i], script[i]);
  }

  // ------------------------------------------------------ when attempts differ ---

  /** An answer that the record, the clock or a finished child gives. */
  predicate Steady(x: Fed) { x.Recorded? || x.Woke? || x.Child? }

  lemma SameSource(code: Flow, ev: Evidence, f: Frame, x: Fed, y: Fed)
    requires Steady(x) && Steady(y)
    requires Reply(code, ev, f, x).Some? && Reply(code, ev, f, y).Some?
    ensures x == y || (x.Child? && y.Child?)
  {
  }

  lemma NoReplyAfterReturn(code: Flow, ev: Evidence, f: Frame, x: Fed)
    requires code(f.hist).Return?
    ensures Reply(code, ev, f, x).None?
  {
  }

  /** Flow code that has returned makes no further call. */
  lemma ReturnEndsIt(code: Flow, ev: Evidence, x: seq<Fed>, y: seq<Fed>)
    requires Uninterrupted(code, ev, x).Some? && Uninterrupted(code, ev, y).Some?
    requires code(Uninterrupted(code, ev, x).value.hist).Return?
    requires |x| <= |y| && x == y[..|x|]
    ensures x == y
  {
    if |x| < |y| {
      var f, _ := CallAt(code, ev, y, |x|);
      NoReplyAfterReturn(code, ev, f, y[|x|]);
    }
  }

  lemma FirstDifference(c: Config, ev: Evidence, o: Outcome, p: Outcome) returns (m: nat)
    requires Explained(c, ev, o) && Explained(c, ev, p) && o.r != p.r
    ensures m < |o.script| && m < |p.script| && o.script[..m] == p.script[..m] && o.script[m] != p.script[m]
    ensures Steady(o.script[m]) && Steady(p.script[m]) ==> o.script[m].Child? && p.script[m].Child?
  {
    var x, y := o.script, p.script;
    m := 0;
    while m < |x| && m < |y| && x[m] == y[m]
      invariant m <= |x| && m <= |y| && x[..m] == y[..m]
    {
      assert x[..m + 1] == x[..m] + [x[m]] && y[..m + 1] == y[..m] + [y[m]];
      m := m + 1;
    }
    if m == |x| {
      assert x == x[..m];
      ReturnEndsIt(c.code, ev, x, y);
    } else if m == |y| {
      assert y == y[..m];
      ReturnEndsIt(c.code, ev, y, x);
    } else if Steady(x[m]) && Steady(y[m]) {
      var f, _ := CallAt(c.code, ev, x, m);
      var g, _ := CallAt(c.code, ev, y, m);
      SameSource(c.code, ev, f, x[m], y[m]);
    }
  }

  /** Two attempts of one run, far apart or with crashes in between, return different
      results only if at the first step they differ in, one of them got an answer of
      its own (an error, a suspension, an ephemeral result, a cached result that was
      never saved), or they saw different results of a sub-flow. */
  lemma OutcomesDifferByAnAnswer(c: Config, s: Sys, steps: seq<Step>, i: nat, j: nat) returns (m: nat)
    requires Mannered(c.code) && Initial(s)
    requires var t := Execute(c, s, steps);
      i < |t.outcomes| && j < |t.outcomes| && t.outcomes[i].r != t.outcomes[j].r
    ensures var t := Execute(c, s, steps);
      var (x, y) := (t.outcomes[i].script, t.outcomes[j].script);
      && m < |x| && m < |y| && x[..m] == y[..m] && x[m] != y[m]
      && (Steady(x[m]) && Steady(y[m]) ==> x[m].Child? && y[m].Child?)
  {
    InvAlways(c, s, steps);
    var t := Execute(c, s, steps);
    m := FirstDifference(c, Known(t), t.outcomes[i], t.outcomes[j]);
  }

  /** A completed run is left alone: nobody puts it back on the queue or rewrites its
      result. An operator's reschedule of it is what this excludes. */
  predicate LeavesCompleted(s: Sys, st: Step) {
    st.Touch? && st.i < |s.rows| && s.rows[st.i].state == Completed ==>
      st.row.state == Completed && st.row.result == s.rows[st.i].result
  }

  predicate CompletedLeftAlone(c: Config, s: Sys, steps: seq<Step>)
    decreases |steps|
  {
    steps == [] || (LeavesCompleted(s, steps[0]) && CompletedLeftAlone(c, Next(c, s, steps[0]), steps[1..]))
  }

  predicate IsDone(c: Config, rows: seq<Run>, k: string, child: int, v: Val) {
    Owns(c, rows, k, child) && rows[child].state == Completed && Value(rows[child].result) == v
  }

  /** An attempt sees a result of a sub-flow only if the step's own child is COMPLETED
      with that result then and there. */
  lemma SawStep(c: Config, s: Sys, st: Step, x: Entry)
    requires Inv(c, s) && x.Saw? && x in Next(c, s, st).log
    ensures x in s.log || IsDone(c, s.rows, x.key, x.child, x.v)
  {
    if s.exec.Some? && st.Poll? && s.exec.value.phase.Polling? {
      var e := s.exec.value;
      var r := Polled(s.rows, s.now, e.phase.child, st.heard);
      if r.Ok? {
        assert Next(c, s, st).log == s.log + [Saw(e.phase.key, e.phase.child, r.v)];
      }
    } else if s.exec.Some? && IsTaskStep(st) {
      NoSawInTask(c, s, s.exec.value, st, x);
    }
  }

  lemma NoSawInTask(c: Config, s: Sys, e: Exec, st: Step, x: Entry)
    requires x.Saw? && IsTaskStep(st) && x in InTask(c, s, e, st).log
    ensures x in s.log
  {
  }

  /** So every result an attempt was ever told of a sub-flow was, at some moment, the
      result of the COMPLETED run that owns the step's key. */
  lemma {:induction false} SawIsTrue(c: Config, s: Sys, steps: seq<Step>, x: Entry)
    requires Inv(c, s) && x.Saw? && x in Execute(c, s, steps).log
    ensures x in s.log || exists n :: 0 <= n < |steps| && IsDone(c, Execute(c, s, steps[..n]).rows, x.key, x.child, x.v)
    decreases |steps|
  {
    if steps != [] && x !in s.log {
      var s' := Next(c, s, steps[0]);
      InvStep(c, s, steps[0]);
      if x in s'.log {
        SawStep(c, s, steps[0], x);
        assert IsDone(c, Execute(c, s, steps[..0]).rows, x.key, x.child, x.v);
      } else {
        SawIsTrue(c, s', steps[1..], x);
        var n :| 0 <= n < |steps[1..]| && IsDone(c, Execute(c, s', steps[1..][..n]).rows, x.key, x.child, x.v);
        assert steps[..n + 1] == [steps[0]] + steps[1..][..n];
        Unroll(c, s, steps[0], steps[1..][..n]);
        assert IsDone(c, Execute(c, s, steps[..n + 1]).rows, x.key, x.child, x.v);
      }
    }
  }

  /** While completed runs are left alone, what was seen of them stays so. */
  ghost predicate SeenStands(c: Config, s: Sys) {
    forall x | x in s.log && x.Saw? :: IsDone(c, s.rows, x.key, x.child, x.v)
  }

  lemma DoneStays(c: Config, s: Sys, st: Step, k: string, child: int, v: Val)
    requires Inv(c, s) && LeavesCompleted(s, st) && IsDone(c, s.rows, k, child, v)
    ensures IsDone(c, Next(c, s, st).rows, k, child, v)
  {
    if s.exec.Some? && IsTaskStep(st) {
      assert Next(c, s, st).rows == s.rows;
    }
  }

  lemma {:induction false} SeenStandsAlways(c: Config, s: Sys, steps: seq<Step>)
    requires Inv(c, s) && SeenStands(c, s) && CompletedLeftAlone(c, s, steps)
    ensures SeenStands(c, Execute(c, s, steps))
    decreases |steps|
  {
    if steps != [] {
      var s' := Next(c, s, steps[0]);
      forall x | x in s'.log && x.Saw? ensures IsDone(c, s'.rows, x.key, x.child, x.v) {
        SawStep(c, s, steps[0], x);
        DoneStays(c, s, steps[0], x.key, x.child, x.v);
      }
      InvStep(c, s, steps[0]);
      SeenStandsAlways(c, s', steps[1..]);
    }
  }

  /** Then any two attempts are told the same result at one sub-flow step. */
  lemma SubAnswersAgree(c: Config, s: Sys, steps: seq<Step>, x: Entry, y: Entry)
    requires Mannered(c.code) && Initial(s) && CompletedLeftAlone(c, s, steps)
    requires x.Saw? && y.Saw? && x.key == y.key
    requires x in Execute(c, s, steps).log && y in Execute(c, s, steps).log
    ensures x == y
  {
    InvAlways(c, s, steps);
    SeenStandsAlways(c, s, steps);
  }

  /** A script in which nothing failed, slept, or was the attempt's own. */
  predicate Settled(script: seq<Fed>) { forall i | 0 <= i < |script| :: Steady(script[i]) }

  /** So while completed children are left alone, any two attempts that got through on
      records, waits and sub-flows alone return the same result. */
  lemma SettledOutcomesAgree(c: Config, s: Sys, steps: seq<Step>, i: nat, j: nat)
    requires Mannered(c.code) && Initial(s) && CompletedLeftAlone(c, s, steps)
    requires var t := Execute(c, s, steps);
      i < |t.outcomes| && j < |t.outcomes| && Settled(t.outcomes[i].script) && Settled(t.outcomes[j].script)
    ensures var t := Execute(c, s, steps); t.outcomes[i].r == t.outcomes[j].r
  {
    var t := Execute(c, s, steps);
    if t.outcomes[i].r != t.outcomes[j].r {
      InvAlways(c, s, steps);
      var x, y := t.outcomes[i].script, t.outcomes[j].script;
      var m := OutcomesDifferByAnAnswer(c, s, steps, i, j);
      var f, _ := CallAt(c.code, Known(t), x, m);
      var g, _ := CallAt(c.code, Known(t), y, m);
      var k := KeyOf(c.code(f.hist), f.ord);
      SubAnswersAgree(c, s, steps, Saw(k, x[m].child, x[m].v), Saw(k, y[m].child, y[m].v));
    }
  }

  // ------------------------------------------------------------- durable waits ---

  /** The key of the i-th SDK call an attempt made. */
  function KeyAt(c: Config, s: Sys, e: Exec, i: nat): string
    requires i < |e.hist| == |e.script| && Uninterrupted(c.code, Known(s), e.script[..i]).Some?
  {
    KeyOf(c.code(e.hist[..i]), Uninterrupted(c.code, Known(s), e.script[..i]).value.ord)
  }

  /** A wait answers Ok only by being over, and suspends only until its instant on record. */
  lemma WaitAnswers(c: Config, s: Sys, e: Exec, i: nat)
    requires Inv(c, s) && s.exec == Some(e) && i < |e.hist| && c.code(e.hist[..i]).Wait?
    ensures |e.script| == |e.hist| && Uninterrupted(c.code, Known(s), e.script[..i]).Some?
    ensures var k := KeyAt(c, s, e, i);
      && (e.hist[i].Ok? ==> OnRecord(s.table, k) && s.now >= Value(s.table[k].result))
      && (e.hist[i].Err? && e.hist[i].e.suspend.Some? ==>
            OnRecord(s.table, k) && e.hist[i].e.suspend == Some(Value(s.table[k].result)))
  {
    var ev := Known(s);
    Beginnings(c.code, ev, e.script, 0);
    var before, after := CallAt(c.code, ev, e.script, i);
    assert after.hist[i] == e.hist[i];
    WaitReply(c.code, ev, before, e.script[i], after);
  }

  lemma WaitReply(code: Flow, ev: Evidence, f: Frame, x: Fed, g: Frame)
    requires Reply(code, ev, f, x) == Some(g) && code(f.hist).Wait?
    ensures |g.hist| == |f.hist| + 1
    ensures var (k, r) := (KeyOf(code(f.hist), f.ord), g.hist[|f.hist|]);
      && (r.Ok? ==> k in ev.rec && k in g.passed)
      && (r.Err? && r.e.suspend.Some? ==> k in ev.rec && r.e.suspend == Some(ev.rec[k]))
  {
  }

  /** Durable waits hold: once the wake instant of a wait is on record, then after
      anything at all the code behind that wait has run only at or after it, and
      every attempt the wait suspended was suspended until that same instant. */
  lemma WaitsHold(c: Config, s: Sys, steps: seq<Step>, k: string, i: nat)
    requires Inv(c, s) && OnRecord(s.table, k)
    ensures var t := Execute(c, s, steps);
      t.exec.Some? && i < |t.exec.value.hist| && c.code(t.exec.value.hist[..i]).Wait? ==>
        var e := t.exec.value;
        && |e.script| == |e.hist| && Uninterrupted(c.code, Known(t), e.script[..i]).Some?
        && (KeyAt(c, t, e, i) == k ==>
              && (e.hist[i].Ok? ==> t.now >= Value(s.table[k].result))
              && (e.hist[i].Err? && e.hist[i].e.suspend.Some? ==>
                    e.hist[i].e.suspend == Some(Value(s.table[k].result))))
  {
    var t := Execute(c, s, steps);
    InvAlways(c, s, steps);
    CompletedIsFinal(c, s, steps, k);
    if t.exec.Some? && i < |t.exec.value.hist| && c.code(t.exec.value.hist[..i]).Wait? {
      WaitAnswers(c, t, t.exec.value, i);
    }
  }

  // ------------------------------------------------------- one child per wait ---

  lemma {:induction false} KeysStay(c: Config, s: Sys, steps: seq<Step>)
    requires Inv(c, s)
    ensures KeysKept(s.rows, Execute(c, s, steps).rows)
    decreases |steps|
  {
    if steps != [] {
      var k := OneCheckpoint(c, s, steps[0]);
      InvStep(c, s, steps[0]);
      KeysStay(c, Next(c, s, steps[0]), steps[1..]);
    }
  }

  /** The child run an attempt is holding on to for the sub-flow step it is at. */
  predicate Holds(s: Sys, k: string, child: int) {
    s.exec.Some? && s.exec.value.phase in {Noting(k, child), Polling(k, child)}
  }

  /** Exactly one child per wait: two attempts that get to the same sub-flow step,
      whatever crashes, lost writes and repeated triggers lie between them, hold
      the same child, and no other run ever carries that step's key. */
  lemma OneChildPerWait(c: Config, s: Sys, steps: seq<Step>, k: string, child: int, again: int)
    requires Inv(c, s) && Holds(s, k, child) && Holds(Execute(c, s, steps), k, again)
    ensures again == child
    ensures forall j | Owns(c, Execute(c, s, steps).rows, k, j) :: j == child
  {
    InvAlways(c, s, steps);
    KeysStay(c, s, steps);
  }

  /** Different steps, and different parents, never share a child. */
  lemma ChildrenAreNotShared(c: Config, d: Config, s: Sys, t: Sys, name: string, n: nat, name': string, n': nat,
                             child: int)
    requires Inv(c, s) && Inv(d, t) && s.rows == t.rows && IsId(c.id) && IsId(d.id)
    requires Holds(s, Generated("subflow:" + name, n), child) && Holds(t, Generated("subflow:" + name', n'), child)
    ensures c.id == d.id && name == name' && n == n'
  {
    ChildKeyInjective(c.id, Generated("subflow:" + name, n), d.id, Generated("subflow:" + name', n'));
    GeneratedInjective("subflow:" + name, n, "subflow:" + name', n');
    assert ("subflow:" + name)[8..] == name && ("subflow:" + name')[8..] == name';
  }
}