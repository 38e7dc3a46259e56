/** A worker's execution slots: the dispatch loop and the executions it starts,
    interleaved step by step. */
module Slots {

  datatype Phase =
    | Idle
    | Leasing(free: nat)     // capacity computed, lease statement under way
    | Sending(left: nat)     // about to take a slot for the next of `left` runs
    | Taken(left: nat)       // slot taken, execution not yet counted or started
    | Draining(sent: nat)    // shutting down: taking every slot for good
    | Stopped

  datatype Worker = Worker(
    cap: nat,        // Concurrency
    slots: nat,      // occupied places in the slots channel
    active: int,     // the atomic counter
    running: nat,    // executions in user code
    closing: nat,    // executions counted out that have yet to give back their slot
    phase: Phase)

  datatype Step =
    | ReadFree | Leased(n: nat) | Send | Begin | EndBatch
    | CountOut | GiveBack
    | Shutdown | DrainSend | Return

  predicate Enabled(w: Worker, st: Step) {
    match st
    case ReadFree => w.phase.Idle? && w.cap - w.active > 0
    case Leased(n) => w.phase.Leasing? && n <= w.phase.free
    case Send => w.phase.Sending? && w.phase.left > 0 && w.slots < w.cap
    case Begin => w.phase.Taken? && w.phase.left > 0
    case EndBatch => w.phase.Sending? && w.phase.left == 0
    case CountOut => w.running > 0
    case GiveBack => w.closing > 0 && w.slots > 0
    case Shutdown => w.phase.Idle?
    case DrainSend => w.phase.Draining? && w.phase.sent < w.cap && w.slots < w.cap
    case Return => w.phase.Draining? && w.phase.sent == w.cap
  }

  function Next(w: Worker, st: Step): Worker
    requires Enabled(w, st)
  {
    match st
    case ReadFree => w.(phase := Leasing(w.cap - w.active))
    case Leased(n) => w.(phase := Sending(n))
    case Send => w.(slots := w.slots + 1, phase := Taken(w.phase.left))
    case Begin => w.(active := w.active + 1, running := w.running + 1, phase := Sending(w.phase.left - 1))
    case EndBatch => w.(phase := Idle)
    case CountOut => w.(active := w.active - 1, running := w.running - 1, closing := w.closing + 1)
    case GiveBack => w.(closing := w.closing - 1, slots := w.slots - 1)
    case Shutdown => w.(phase := Draining(0))
    case DrainSend => w.(slots := w.slots + 1, phase := Draining(w.phase.sent + 1))
    case Return => w.(phase := Stopped)
  }

  function Fresh(cap: nat): Worker { Worker(cap, 0, 0, 0, 0, Idle) }

  /** Slots that belong to the dispatch loop itself. */
  function OwnSlots(w: Worker): nat {
    match w.phase
    case Taken(_) => 1
    case Draining(sent) => sent
    case Stopped => w.cap
    case _ => 0
  }

  /** What the batch in hand may still add to the counter. */
  function Pending(w: Worker): nat {
    match w.phase
    case Leasing(free) => free
    case Sending(left) => left
    case Taken(left) => left
    case _ => 0
  }

  ghost predicate Inv(w: Worker) {
    && w.active == w.running
    && w.slots == w.running + w.closing + OwnSlots(w)
    && w.slots <= w.cap
    && w.active + Pending(w) <= w.cap
    && (w.phase.Taken? ==> w.phase.left > 0)
  }

  lemma InvStep(w: Worker, st: Step)
    requires Inv(w) && Enabled(w, st)
    ensures Inv(Next(w, st))
  {
  }

  ghost predicate Runs(w: Worker, steps: seq<Step>)
    decreases |steps|
  {
    steps == [] || (Enabled(w, steps[0]) && Runs(Next(w, steps[0]), steps[1..]))
  }

  ghost function Exec(w: Worker, steps: seq<Step>): Worker
    requires Runs(w, steps)
    decreases |steps|
  {
    if steps == [] then w else Exec(Next(w, steps[0]), steps[1..])
  }

  lemma {:induction false} InvAlways(w: Worker, steps: seq<Step>)
    requires Inv(w) && Runs(w, steps)
    ensures Inv(Exec(w, steps))
    decreases |steps|
  {
    if steps != [] {
      InvStep(w, steps[0]);
      InvAlways(Next(w, steps[0]), steps[1..]);
    }
  }

  /** In every interleaving: no more executions than occupied slots, no more
      occupied slots than Concurrency, and once Run has returned, none at all. */
  lemma {:induction false} SlotsSafe(cap: nat, steps: seq<Step>)
    requires Runs(Fresh(cap), steps)
    ensures var w := Exec(Fresh(cap), steps);
      && 0 <= w.active <= w.slots <= cap
      && w.running + w.closing <= cap
      && (w.phase.Stopped? ==> w.running == 0 && w.closing == 0)
  {
    InvAlways(Fresh(cap), steps);
    CapStays(Fresh(cap), steps);
  }

  lemma {:induction false} CapStays(w: Worker, steps: seq<Step>)
    requires Runs(w, steps)
    ensures Exec(w, steps).cap == w.cap
    decreases |steps|
  {
    if steps != [] {
      CapStays(Next(w, steps[0]), steps[1..]);
    }
  }

  /** An idle worker looks for work exactly while fewer executions run than it may
      run, and it can take on just as many as are missing. */
  lemma IdleAsksForWhatIsFree(w: Worker, n: nat)
    requires Inv(w) && w.phase.Idle?
    ensures Enabled(w, ReadFree) <==> w.running < w.cap
    ensures w.running < w.cap ==> (Enabled(Next(w, ReadFree), Leased(n)) <==> n <= w.cap - w.running)
  {
  }

  /** The loop never waits for user code to take a slot it has leased work for:
      if every slot is occupied, some execution has already counted itself out
      and only has its slot to give back. */
  lemma SendNeverWaitsForWork(w: Worker)
    requires Inv(w) && w.phase.Sending? && w.phase.left > 0
    ensures Enabled(w, Send) || Enabled(w, GiveBack)
    ensures Enabled(w, GiveBack) ==> Enabled(Next(w, GiveBack), Send)
  {
  }

  /** Draining likewise can only be waiting for executions that are in flight,
      and each of them has a step to take. */
  lemma DrainProgresses(w: Worker)
    requires Inv(w) && w.phase.Draining?
    ensures Enabled(w, Return) || Enabled(w, DrainSend) || Enabled(w, CountOut) || Enabled(w, GiveBack)
  {
  }

  /** Work left before a draining worker can return. */
  function DrainWork(w: Worker): nat
    requires w.phase.Draining? && w.phase.sent <= w.cap
  {
    2 * w.running + w.closing + (w.cap - w.phase.sent)
  }

  /** Every step a draining worker can take, other than returning, brings it
      closer: a drain finishes as soon as its executions do. */
  lemma DrainTerminates(w: Worker, st: Step)
    requires Inv(w) && w.phase.Draining? && w.phase.sent <= w.cap && Enabled(w, st) && !st.Return?
    ensures Next(w, st).phase.Draining? && Next(w, st).phase.sent <= w.cap
    ensures DrainWork(Next(w, st)) < DrainWork(w)
  {
  }
}
