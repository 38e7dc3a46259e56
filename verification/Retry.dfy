/** How often a run can be dispatched. One run's row is followed through any
    sequence of dispatches, outcomes, lease lapses and operator actions, the
    settling worker being the one whose attempt it is. */
module Retry {
  import opened Base
  import opened States
  import opened Rows
  import opened Engine
  import Scheduler
  import Protocol

  /** `seen` is what the settling worker knew of the cancel flag, which may be older
      than the row it writes. */
  datatype Event =
    | Dispatch(w: string, exp: Time)
    | PushClaim(w: string)
    | Started(w: string)
    | Unregistered(at: Time)
    | Settled(o: Outcome, at: Time, seen: bool)
    | Lapsed(at: Time)
    | Rescued(at: Time)
    | Other(st: Protocol.Step, at: Time)

  function After(r: Run, f: FlowDef, e: Event): Run {
    match e
    case Dispatch(w, exp) => if r.state == Scheduled && !r.cancel then Leased(r, w, exp) else r
    case PushClaim(w) => if r.state == Scheduled then Written(r, ClaimPush(w)) else r
    case Started(w) => if r.state == Pending then Written(r, Start(w)) else r
    case Unregistered(at) =>
      if r.state in {Pending, Cancelling} then Written(r, Requeue("AwaitingWorker", at)) else r
    case Settled(o, at, seen) => if InCode(r) then SettledRow(r, Settlement(r, f, at, seen, o)) else r
    case Lapsed(at) => if Expired(r, at) then Crash(r) else r
    case Rescued(at) => if r.state == Crashed then Written(r, Scheduler.AfterCrash(r, at)) else r
    case Other(st, at) => if Protocol.SingleRow(st) && !st.Reclaim? then Protocol.Touch(r, at, st) else r
  }

  /** The two events of one janitor pass. */
  lemma JanitorPass(r: Run, f: FlowDef, at: Time)
    requires r.state != Crashed
    ensures After(After(r, f, Lapsed(at)), f, Rescued(at)) == Scheduler.Swept(r, at)
  {
  }

  function AfterAll(r: Run, f: FlowDef, es: seq<Event>): Run
    decreases |es|
  {
    if es == [] then r else AfterAll(After(r, f, es[0]), f, es[1..])
  }

  /** Requeues that no budget guards: a suspension, a worker without the flow, an
      operator's reschedule. */
  predicate Unbudgeted(e: Event) {
    || e.Unregistered?
    || (e.Settled? && e.o.Raised? && e.o.suspend.Some?)
    || (e.Other? && e.st.Reschedule?)
  }

  function UnbudgetedCount(es: seq<Event>): nat {
    if es == [] then 0 else (if Unbudgeted(es[0]) then 1 else 0) + UnbudgetedCount(es[1..])
  }

  /** Dispatches that a run is entitled to before the last one. */
  function Bound(r: Run, f: FlowDef): nat { Max(0, Max(Budget(r, f), r.retries + 1)) }

  /** A waiting run has at least one dispatch of its entitlement left. */
  predicate Entitled(r: Run, b: nat) {
    r.runCount <= b + 1 && (r.state == Scheduled ==> r.runCount <= b)
  }

  lemma EntitledStep(r: Run, f: FlowDef, e: Event, extra: nat)
    requires Entitled(r, Bound(r, f) + extra)
    ensures Bound(After(r, f, e), f) == Bound(r, f)
    ensures Entitled(After(r, f, e), Bound(r, f) + extra + if Unbudgeted(e) then 1 else 0)
  {
  }

  lemma {:induction false} EntitledAlways(r: Run, f: FlowDef, es: seq<Event>, extra: nat)
    requires Entitled(r, Bound(r, f) + extra)
    ensures AfterAll(r, f, es).runCount <= Bound(r, f) + extra + UnbudgetedCount(es) + 1
    decreases |es|
  {
    if es != [] {
      EntitledStep(r, f, es[0], extra);
      EntitledAlways(After(r, f, es[0]), f, es[1..], extra + if Unbudgeted(es[0]) then 1 else 0);
    }
  }

  /** Retry termination: a new run is dispatched at most max(budget, retries + 1)
      + 1 times, plus once for each suspension, unregistered worker and
      reschedule. run_count is the number of dispatches, see Claims.MovesAreCounted. */
  lemma {:induction false} DispatchesAreBounded(n: NewRun, now: Time, f: FlowDef, es: seq<Event>)
    ensures AfterAll(FreshRow(n, now), f, es).runCount <= Bound(FreshRow(n, now), f) + 1 + UnbudgetedCount(es)
  {
    EntitledAlways(FreshRow(n, now), f, es, 0);
  }

  // ------------------------------------------------------------ exact counts ---

  /** Dispatched and started. */
  function Begun(r: Run, f: FlowDef): Run { After(After(r, f, Dispatch("w", 0)), f, Started("w")) }

  function Iterate(step: Run -> Run, r: Run, n: nat): Run {
    if n == 0 then r else step(Iterate(step, r, n - 1))
  }

  const FAILURE := Settled(Raised(None, false, false), 0, false)

  function FailOnce(r: Run, f: FlowDef): Run { After(Begun(r, f), f, FAILURE) }

  function CrashOnce(r: Run, f: FlowDef): Run { After(After(Begun(r, f), f, Lapsed(1)), f, Rescued(1)) }

  function SuspendOnce(r: Run, f: FlowDef, until: Time): Run {
    After(Begun(r, f), f, Settled(Raised(Some(until), false, false), 0, false))
  }

  function Failing(r: Run, f: FlowDef, n: nat): Run { Iterate(x => FailOnce(x, f), r, n) }

  function Crashing(r: Run, f: FlowDef, n: nat): Run { Iterate(x => CrashOnce(x, f), r, n) }

  function Suspending(r: Run, f: FlowDef, until: Time, n: nat): Run { Iterate(x => SuspendOnce(x, f, until), r, n) }

  /** A run with so many retries that waits until `cap` dispatches are used up, and
      is FAILED then; without a cap it waits for ever. */
  predicate Paced(r: Run, retries: int, cap: Option<nat>) {
    && !r.cancel && r.retries == retries
    && (cap.Some? ==> r.runCount <= cap.value)
    && r.state == if cap.None? || r.runCount < cap.value then Scheduled else Failed
  }

  function Used(count: nat, cap: Option<nat>): nat {
    if cap.Some? && count >= cap.value then cap.value else count + 1
  }

  /** One more dispatch of a waiting run is spent; a failed one is left alone. */
  predicate SpentOne(r: Run, t: Run, retries: int, cap: Option<nat>) {
    Paced(t, retries, cap) && t.runCount == Used(r.runCount, cap)
  }

  ghost predicate Spends(step: Run -> Run, retries: int, cap: Option<nat>) {
    forall x | Paced(x, retries, cap) :: SpentOne(x, step(x), retries, cap)
  }

  lemma {:induction false} Spent(step: Run -> Run, r: Run, retries: int, cap: Option<nat>, n: nat)
    requires Spends(step, retries, cap) && Paced(r, retries, cap) && r.runCount == 0
    ensures Paced(Iterate(step, r, n), retries, cap)
    ensures Iterate(step, r, n).runCount == if cap.Some? then Min(n, cap.value) else n
  {
    if n > 0 {
      Spent(step, r, retries, cap, n - 1);
      assert SpentOne(Iterate(step, r, n - 1), step(Iterate(step, r, n - 1)), retries, cap);
    }
  }

  lemma OneFailure(r: Run, f: FlowDef, cap: Option<nat>)
    requires Paced(r, r.retries, cap) && cap.Some? && cap.value == Budget(r, f) + 1
    ensures SpentOne(r, FailOnce(r, f), r.retries, cap)
  {
  }

  lemma OneCrash(r: Run, f: FlowDef, cap: Option<nat>)
    requires Paced(r, r.retries, cap) && cap.Some? && cap.value == r.retries + 2
    ensures SpentOne(r, CrashOnce(r, f), r.retries, cap)
  {
  }

  lemma OneSuspension(r: Run, f: FlowDef, until: Time)
    requires Paced(r, r.retries, None)
    ensures SpentOne(r, SuspendOnce(r, f, until), r.retries, None)
  {
  }

  /** Always failing, retryably: exactly budget + 1 dispatches, then FAILED. */
  lemma FailingRun(r: Run, f: FlowDef, n: nat)
    requires r.state == Scheduled && r.runCount == 0 && !r.cancel && Budget(r, f) >= 0
    ensures var t := Failing(r, f, n);
      && t.runCount == Min(n, Budget(r, f) + 1)
      && t.state == (if n <= Budget(r, f) then Scheduled else Failed)
  {
    var cap := Some(Budget(r, f) + 1);
    var step := x => FailOnce(x, f);
    forall x | Paced(x, r.retries, cap) ensures SpentOne(x, step(x), r.retries, cap) {
      OneFailure(x, f, cap);
    }
    Spent(step, r, r.retries, cap, n);
  }

  /** Always crashing: exactly retries + 2 dispatches, then FAILED, whatever the
      flow's own default budget says. */
  lemma CrashingRun(r: Run, f: FlowDef, n: nat)
    requires r.state == Scheduled && r.runCount == 0 && !r.cancel && r.retries >= 0
    ensures var t := Crashing(r, f, n);
      && t.runCount == Min(n, r.retries + 2)
      && t.state == (if n <= r.retries + 1 then Scheduled else Failed)
  {
    var cap := Some(r.retries + 2);
    var step := x => CrashOnce(x, f);
    forall x | Paced(x, r.retries, cap) ensures SpentOne(x, step(x), r.retries, cap) {
      OneCrash(x, f, cap);
    }
    Spent(step, r, r.retries, cap, n);
  }

  /** A suspended attempt does count against the budget: after as many
      suspensions as there are retries, the first plain failure is final. */
  lemma SuspensionsSpendTheBudget(r: Run, f: FlowDef, until: Time, n: nat)
    requires r.state == Scheduled && r.runCount == 0 && !r.cancel && n >= Budget(r, f)
    ensures FailOnce(Suspending(r, f, until, n), f).state == Failed
  {
    var step := x => SuspendOnce(x, f, until);
    forall x | Paced(x, r.retries, None) ensures SpentOne(x, step(x), r.retries, None) {
      OneSuspension(x, f, until);
    }
    Spent(step, r, r.retries, None, n);
    FailsAfter(Iterate(step, r, n), f);
  }

  lemma FailsAfter(t: Run, f: FlowDef)
    requires t.state == Scheduled && !t.cancel && t.runCount >= Budget(t, f)
    ensures FailOnce(t, f).state == Failed
  {
  }

  // -------------------------------------------------- how a cancelled run ends ---

  /** An event leaves a flagged run CANCELLED if and only if it is a settlement of
      code that did not suspend, or a cancel request that finds it waiting. */
  lemma CancelledExactly(r: Run, f: FlowDef, e: Event)
    requires r.cancel && r.state != Cancelled && (e.Settled? ==> e.seen)
    ensures After(r, f, e).state == Cancelled <==>
      ((e.Settled? && InCode(r) && !(e.o.Raised? && e.o.suspend.Some?))
       || (e.Other? && e.st.RequestCancel? && r.state == Scheduled))
  {
  }

  /** The janitor never ends a cancelled run CANCELLED: the run is parked, waiting and
      flagged, exactly while its dispatches do not exceed its retries by more than
      one, and FAILED otherwise. */
  lemma LapsedCancelIsParkedOrFailed(r: Run, now: Time)
    requires r.cancel && Expired(r, now)
    ensures var t := Scheduler.Swept(r, now);
      && t.cancel && t.state in {Scheduled, Failed}
      && (t.state == Scheduled <==> r.runCount <= r.retries + 1)
  {
  }

  // ------------------------------------------------- as the run store sees it ---

  /** A write that takes effect on the run is one its owner, the janitor or a push
      receiver makes: for starts, of a PENDING run; for settlements, the transition
      an outcome calls for; for crashed runs, the janitor's decision. */
  ghost predicate ByItsOwner(r: Run, f: FlowDef, intent: Intent) {
    match intent
    case ClaimPush(_) => r.state == Scheduled
    case Start(_) => r.state == Pending
    case _ => IsRescue(r, intent) || IsHandBack(r, intent) || IsSettlement(r, f, intent)
  }

  ghost predicate IsRescue(r: Run, intent: Intent) {
    r.state == Crashed && exists at :: intent == Scheduler.AfterCrash(r, at)
  }

  predicate IsHandBack(r: Run, intent: Intent) {
    r.state in {Pending, Cancelling} && intent.Requeue? && intent.name == "AwaitingWorker"
  }

  ghost predicate IsSettlement(r: Run, f: FlowDef, intent: Intent) {
    InCode(r) && exists o, at, seen :: intent == Settlement(r, f, at, seen, o)
  }

  ghost predicate OwnerSettled(s: Protocol.Sys, st: Protocol.Step, i: RunId, f: FlowDef) {
    st.Write? && Protocol.Applies(s, st.p, st.intent, st.force) && s.snaps[st.p].run == i ==>
      ByItsOwner(s.rows[i], f, st.intent)
  }

  ghost function WriteEvent(r: Run, f: FlowDef, intent: Intent): Event
    requires ByItsOwner(r, f, intent)
  {
    match intent
    case ClaimPush(w) => PushClaim(w)
    case Start(w) => Started(w)
    case _ =>
      if IsRescue(r, intent) then
        var at :| intent == Scheduler.AfterCrash(r, at); Rescued(at)
      else if IsHandBack(r, intent) then Unregistered(intent.at)
      else
        var o, at, seen :| intent == Settlement(r, f, at, seen, o); Settled(o, at, seen)
  }

  /** The event that a protocol step is for run `i`, if it is one. */
  ghost function EventOf(s: Protocol.Sys, st: Protocol.Step, i: RunId, f: FlowDef): Option<Event>
    requires i < |s.rows| && OwnerSettled(s, st, i, f)
  {
    match st
    case LeaseCommit(w, exp) => if i in Protocol.LockedBy(s, w) then Some(Dispatch(w, exp)) else None
    case Write(p, intent, force) =>
      if Protocol.Applies(s, p, intent, force) && s.snaps[p].run == i then Some(WriteEvent(s.rows[i], f, intent))
      else None
    case Reclaim(j) => if j == i && Protocol.Free(s, i) then Some(Lapsed(s.now)) else None
    case _ =>
      if Protocol.SingleRow(st) && st.i == i && Protocol.Free(s, i) then Some(Other(st, s.now)) else None
  }

  lemma WriteProjects(r: Run, f: FlowDef, intent: Intent)
    requires ByItsOwner(r, f, intent)
    ensures After(r, f, WriteEvent(r, f, intent)) == Written(r, intent)
  {
  }

  lemma StepProjects(s: Protocol.Sys, st: Protocol.Step, i: RunId, f: FlowDef)
    requires Protocol.LocksSound(s) && i < |s.rows| && OwnerSettled(s, st, i, f)
    ensures i < |Protocol.Next(s, st).rows|
    ensures Protocol.Next(s, st).rows[i] ==
      match EventOf(s, st, i, f) { case None => s.rows[i] case Some(e) => After(s.rows[i], f, e) }
  {
    if st.Write? {
      if Protocol.Applies(s, st.p, st.intent, st.force) {
        assert Protocol.Next(s, st).rows ==
               s.rows[s.snaps[st.p].run := Written(s.rows[s.snaps[st.p].run], st.intent)];
        if s.snaps[st.p].run == i {
          WriteProjects(s.rows[i], f, st.intent);
        }
      }
    } else if Protocol.SingleRow(st) {
      TouchProjects(s, st, i, f);
    } else {
      QuietStepProjects(s, st, i, f);
    }
  }

  lemma TouchProjects(s: Protocol.Sys, st: Protocol.Step, i: RunId, f: FlowDef)
    requires i < |s.rows| && OwnerSettled(s, st, i, f) && Protocol.SingleRow(st)
    ensures i < |Protocol.Next(s, st).rows|
    ensures Protocol.Next(s, st).rows[i] ==
      match EventOf(s, st, i, f) { case None => s.rows[i] case Some(e) => After(s.rows[i], f, e) }
  {
    if Protocol.Free(s, st.i) {
      assert Protocol.Next(s, st).rows == s.rows[st.i := Protocol.Touch(s.rows[st.i], s.now, st)];
    }
  }

  lemma QuietStepProjects(s: Protocol.Sys, st: Protocol.Step, i: RunId, f: FlowDef)
    requires Protocol.LocksSound(s) && i < |s.rows| && OwnerSettled(s, st, i, f)
    requires !st.Write? && !Protocol.SingleRow(st)
    ensures i < |Protocol.Next(s, st).rows|
    ensures Protocol.Next(s, st).rows[i] ==
      match EventOf(s, st, i, f) { case None => s.rows[i] case Some(e) => After(s.rows[i], f, e) }
  {
  }

  ghost predicate AlwaysOwnerSettled(s: Protocol.Sys, steps: seq<Protocol.Step>, i: RunId, f: FlowDef)
    decreases |steps|
  {
    steps == [] ||
    (OwnerSettled(s, steps[0], i, f) && AlwaysOwnerSettled(Protocol.Next(s, steps[0]), steps[1..], i, f))
  }

  /** Requeues by steps of the history that no budget guards. */
  ghost function UnbudgetedSteps(s: Protocol.Sys, steps: seq<Protocol.Step>, i: RunId, f: FlowDef): nat
    requires i < |s.rows| && Protocol.LocksSound(s) && AlwaysOwnerSettled(s, steps, i, f)
    decreases |steps|
  {
    if steps == [] then 0
    else
      StepProjects(s, steps[0], i, f);
      Protocol.LocksSoundStep(s, steps[0]);
      (match EventOf(s, steps[0], i, f) { case None => 0 case Some(e) => if Unbudgeted(e) then 1 else 0 })
      + UnbudgetedSteps(Protocol.Next(s, steps[0]), steps[1..], i, f)
  }

  lemma {:induction false} EntitledThroughout(s: Protocol.Sys, steps: seq<Protocol.Step>, i: RunId, f: FlowDef,
                                              extra: nat)
    requires i < |s.rows| && Protocol.LocksSound(s) && AlwaysOwnerSettled(s, steps, i, f)
    requires Entitled(s.rows[i], Bound(s.rows[i], f) + extra)
    ensures var t := Protocol.Exec(s, steps);
      i < |t.rows| && t.rows[i].runCount <= Bound(s.rows[i], f) + extra + UnbudgetedSteps(s, steps, i, f) + 1
    decreases |steps|
  {
    if steps != [] {
      StepProjects(s, steps[0], i, f);
      Protocol.LocksSoundStep(s, steps[0]);
      var e := EventOf(s, steps[0], i, f);
      if e.Some? {
        EntitledStep(s.rows[i], f, e.value, extra);
      }
      EntitledThroughout(Protocol.Next(s, steps[0]), steps[1..], i, f,
                         extra + if e.Some? && Unbudgeted(e.value) then 1 else 0);
    }
  }

  /** The same bound over every interleaving of the run store in which the run is
      settled by its owners: its dispatches number at most max(budget, retries + 1)
      + 1, plus one for each requeue that no budget guards. */
  lemma StoreDispatchesAreBounded(s: Protocol.Sys, steps: seq<Protocol.Step>, i: RunId, n: NewRun, f: FlowDef)
    requires i < |s.rows| && s.rows[i] == FreshRow(n, s.now) && Protocol.LocksSound(s)
    requires AlwaysOwnerSettled(s, steps, i, f)
    ensures var t := Protocol.Exec(s, steps);
      i < |t.rows| && t.rows[i].runCount <= Bound(s.rows[i], f) + 1 + UnbudgetedSteps(s, steps, i, f)
  {
    EntitledThroughout(s, steps, i, f, 0);
  }
}
