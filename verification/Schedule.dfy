/** Interval schedules: which instants a deployment runs at, and the runs the
    scheduler creates for them. */
module Schedule {
  import opened Base
  import opened Rows
  import opened S = Store
  import opened Keys

  datatype Kind = Unscheduled | Interval

  /** `every` is the parsed duration, or None when the text does not parse;
      `createdAt` is None for the zero time. */
  datatype Deployment = Deployment(
    id: string,
    kind: Kind,
    every: Option<Time>,
    createdAt: Option<Time>,
    catchUp: bool,
    paused: bool,
    queue: string,
    priority: int,
    retries: int,
    retryDelay: Time)

  datatype Answer = BadInterval | TooShort | Instants(at: seq<Time>)

  /** Integer division as Go does it, toward zero. */
  function Quot(a: int, b: int): int
    requires b > 0
  {
    if a >= 0 then a / b else -(-a / b)
  }

  function FirstTick(anchor: Time, every: Time, now: Time): Time
    requires every > 0
  {
    anchor + (Quot(now - anchor, every) + 1) * every
  }

  /** t, t + every, t + 2 every, ... up to and including the horizon. */
  function Ticks(t: Time, every: Time, horizon: Time): seq<Time>
    requires every > 0
    decreases horizon - t
  {
    if t > horizon then [] else [t] + Ticks(t + every, every, horizon)
  }

  function Take(s: seq<Time>, max: int): seq<Time> { s[..Min(Max(max, 0), |s|)] }

  function Anchor(d: Deployment, now: Time): Time { if d.createdAt.None? then now else d.createdAt.value }

  /** The instants of one cycle, before `catchUp` cuts them to the soonest. */
  function Upcoming(d: Deployment, now: Time, horizon: Time, max: int): seq<Time>
    requires d.every.Some? && d.every.value > 0
  {
    Take(Ticks(FirstTick(Anchor(d, now), d.every.value, now), d.every.value, horizon), max)
  }

  function Planned(d: Deployment, now: Time, horizon: Time, max: int): Answer {
    if d.kind.Unscheduled? then Instants([])
    else if d.every.None? then BadInterval
    else if d.every.value < SECOND then TooShort
    else
      var out := Upcoming(d, now, horizon, max);
      Instants(if d.catchUp then out else Take(out, 1))
  }

  /** An instant that a cycle at `now` can list: it is on the anchor's phase, it is not
      past the horizon, and it is still to come, which for an anchor that is itself still
      to come means more than the remainder away. */
  predicate InWindow(u: Time, anchor: Time, every: Time, now: Time, horizon: Time)
    requires every > 0
  {
    && (u - anchor) % every == 0
    && u <= horizon
    && (if anchor <= now then now < u else now + (anchor - now) % every < u)
  }

  ghost predicate Increasing(s: seq<Time>) { forall i, j | 0 <= i < j < |s| :: s[i] < s[j] }

  /** `at` lists the soonest `cap` instants of the window, or all of them, in order:
      an instant that it leaves out comes after every one of `cap` listed ones. */
  ghost predicate Soonest(at: seq<Time>, cap: int, anchor: Time, every: Time, now: Time, horizon: Time)
    requires every > 0
  {
    && Increasing(at) && |at| <= Max(cap, 0)
    && (forall u | u in at :: InWindow(u, anchor, every, now, horizon))
    && (forall u | InWindow(u, anchor, every, now, horizon) && u !in at ::
          |at| == Max(cap, 0) && forall v | v in at :: v < u)
  }

  /** What one cycle lists: the soonest `max` instants with catch-up, and at most the
      single soonest one without. */
  ghost predicate Lists(d: Deployment, now: Time, horizon: Time, max: int, at: seq<Time>)
    requires d.every.Some? && d.every.value > 0
  {
    Soonest(at, if d.catchUp then max else Min(max, 1),
            if d.createdAt.Some? then d.createdAt.value else now, d.every.value, now, horizon)
  }

  method NextRuns(d: Deployment, now: Time, horizon: Time, max: int) returns (r: Answer)
    ensures r == Planned(d, now, horizon, max)
    ensures d.kind.Unscheduled? ==> r == Instants([])
    ensures d.kind.Interval? ==> (r.BadInterval? <==> d.every.None?)
    ensures d.kind.Interval? && d.every.Some? ==> (r.TooShort? <==> d.every.value < SECOND)
    ensures d.kind.Interval? && d.every.Some? && d.every.value >= SECOND ==>
      r.Instants? && Lists(d, now, horizon, max, r.at)
  {
    if d.kind.Unscheduled? {
      return Instants([]);
    }
    if d.every.None? {
      return BadInterval;
    }
    var every := d.every.value;
    if every < SECOND {
      return TooShort;
    }
    var anchor := if d.createdAt.None? then now else d.createdAt.value;
    var n := Quot(now - anchor, every);
    var t := anchor + (n + 1) * every;
    FirstTickIsAfter(anchor, every, now);
    var out := TicksAfter(t, every, now, horizon, max);
    if !d.catchUp && |out| > 1 {
      out := out[..1];
    }
    r := Instants(out);
    PlannedLists(d, now, horizon, max);
  }

  lemma PlannedLists(d: Deployment, now: Time, horizon: Time, max: int)
    requires d.kind.Interval? && d.every.Some? && d.every.value >= SECOND
    ensures Planned(d, now, horizon, max).Instants? && Lists(d, now, horizon, max, Planned(d, now, horizon, max).at)
  {
    var all := Ticks(FirstTick(Anchor(d, now), d.every.value, now), d.every.value, horizon);
    assert Planned(d, now, horizon, max).at == Take(all, if d.catchUp then max else Min(max, 1)) by {
      TakeTwice(all, max);
    }
    FirstAreSoonest(Anchor(d, now), d.every.value, now, horizon, if d.catchUp then max else Min(max, 1));
  }

  lemma TakeTwice(s: seq<Time>, max: int)
    ensures Take(Take(s, max), 1) == Take(s, Min(max, 1))
  {
  }

  lemma FirstAreSoonest(anchor: Time, every: Time, now: Time, horizon: Time, cap: int)
    requires every > 0
    ensures Soonest(Take(Ticks(FirstTick(anchor, every, now), every, horizon), cap), cap, anchor, every, now, horizon)
  {
    var t := FirstTick(anchor, every, now);
    var all := Ticks(t, every, horizon);
    var at := Take(all, cap);
    FirstTickIs(anchor, every, now);
    TicksExact(t, every, horizon, anchor);
    forall u ensures u in all <==> InWindow(u, anchor, every, now, horizon) {
      if OnPhase(u, anchor, every) {
        FirstIsLeast(u, anchor, every, now);
      }
    }
    assert forall k | 0 <= k < |at| :: at[k] == all[k];
    forall u, v | u in all && u !in at && v in at ensures v < u {
      var i :| 0 <= i < |all| && all[i] == u;
      var j :| 0 <= j < |at| && at[j] == v;
      assert i >= |at|;
    }
  }

  /** On the phase, "more than the remainder away" and "not before the first tick" agree. */
  lemma FirstIsLeast(u: Time, anchor: Time, every: Time, now: Time)
    requires every > 0 && OnPhase(u, anchor, every)
    ensures FirstTick(anchor, every, now) <= u <==>
      if anchor <= now then now < u else now + (anchor - now) % every < u
  {
    var t := FirstTick(anchor, every, now);
    FirstTickIs(anchor, every, now);
    if u < t {
      PhaseGap(u, t, anchor, every);
    }
  }

  /** The loop of NextRuns. Its guard against past instants never bites. */
  method TicksAfter(first: Time, every: Time, now: Time, horizon: Time, max: int) returns (out: seq<Time>)
    requires every > 0 && now < first
    ensures out == Take(Ticks(first, every, horizon), max)
  {
    var t := first;
    out := [];
    while |out| < max && t <= horizon
      invariant now < t
      invariant |out| <= Max(max, 0)
      invariant Ticks(first, every, horizon) == out + Ticks(t, every, horizon)
      decreases horizon - t
    {
      if t > now {
        out := out + [t];
      }
      t := t + every;
    }
  }

  // ------------------------------------------------------------- exactness ---

  predicate OnPhase(t: Time, anchor: Time, every: Time)
    requires every > 0
  {
    (t - anchor) % every == 0
  }

  lemma MulSign(k: int, e: Time)
    requires e > 0
    ensures k <= 0 ==> k * e <= 0
    ensures k >= 1 ==> k * e >= e
  {
  }

  /** Division with remainder is unique. */
  lemma ModUnique(x: int, q: int, r: int, every: Time)
    requires every > 0 && x == q * every + r && 0 <= r < every
    ensures x % every == r
  {
    var q', r' := x / every, x % every;
    assert x == q' * every + r';
    var k := q - q';
    assert k * every == q * every - q' * every;
    MulSign(k, every);
    MulSign(-k, every);
    assert -k * every == -(k * every);
  }

  lemma MultipleOnPhase(k: int, every: Time)
    requires every > 0
    ensures (k * every) % every == 0
  {
    ModUnique(k * every, k, 0, every);
  }

  /** Where the first tick falls: the first instant on the phase when the anchor
      is past; when the anchor is still ahead, a whole interval beyond the
      remainder, because the division rounds toward zero. */
  lemma FirstTickIs(anchor: Time, every: Time, now: Time)
    requires every > 0
    ensures anchor <= now ==> FirstTick(anchor, every, now) == now + every - (now - anchor) % every
    ensures anchor > now ==> FirstTick(anchor, every, now) == now + every + (anchor - now) % every
    ensures OnPhase(FirstTick(anchor, every, now), anchor, every)
  {
    var e := now - anchor;
    MultipleOnPhase(Quot(e, every) + 1, every);
    assert (Quot(e, every) + 1) * every == Quot(e, every) * every + every;
    if e >= 0 {
      assert e == e / every * every + e % every;
    } else {
      assert -e == -e / every * every + -e % every;
    }
  }

  lemma FirstTickIsAfter(anchor: Time, every: Time, now: Time)
    requires every > 0
    ensures now < FirstTick(anchor, every, now)
  {
    FirstTickIs(anchor, every, now);
  }

  /** Two instants on the same phase are a whole number of intervals apart. */
  lemma PhaseGap(t: Time, u: Time, anchor: Time, every: Time)
    requires every > 0 && OnPhase(t, anchor, every) && OnPhase(u, anchor, every) && t < u
    ensures u - t >= every
    ensures OnPhase(u - every, anchor, every)
  {
    var a, b := (t - anchor) / every, (u - anchor) / every;
    assert t - anchor == a * every && u - anchor == b * every;
    assert (b - a) * every == u - t;
    MulSign(b - a, every);
    assert (b - 1) * every == u - anchor - every;
    MultipleOnPhase(b - 1, every);
  }

  lemma PhaseShift(t: Time, anchor: Time, every: Time)
    requires every > 0 && OnPhase(t, anchor, every)
    ensures OnPhase(t + every, anchor, every)
  {
    var a := (t - anchor) / every;
    assert t - anchor == a * every;
    assert (a + 1) * every == t + every - anchor;
    MultipleOnPhase(a + 1, every);
  }

  /** Ticks lists, in strictly increasing order, the instants on the phase from
      its start to the horizon, and nothing else. */
  lemma {:induction false} TicksExact(t: Time, every: Time, horizon: Time, anchor: Time)
    requires every > 0 && OnPhase(t, anchor, every)
    ensures forall u :: u in Ticks(t, every, horizon) <==> t <= u <= horizon && OnPhase(u, anchor, every)
    ensures Increasing(Ticks(t, every, horizon))
    decreases horizon - t
  {
    if t <= horizon {
      PhaseShift(t, anchor, every);
      TicksExact(t + every, every, horizon, anchor);
      var rest := Ticks(t + every, every, horizon);
      forall u ensures u in [t] + rest <==> t <= u <= horizon && OnPhase(u, anchor, every) {
        if t < u && OnPhase(u, anchor, every) {
          PhaseGap(t, u, anchor, every);
        }
      }
      forall i, j | 0 <= i < j < |[t] + rest| ensures ([t] + rest)[i] < ([t] + rest)[j] {
        assert ([t] + rest)[j] == rest[j - 1] && rest[j - 1] in rest;
        if i > 0 {
          assert ([t] + rest)[i] == rest[i - 1];
        }
      }
    }
  }

  /** Every instant CreatedAt + k * every in (now, horizon] is listed. */
  ghost predicate ListsWindow(s: seq<Time>, anchor: Time, every: Time, now: Time, horizon: Time)
    requires every > 0
  {
    forall u :: u in s <==> now < u <= horizon && OnPhase(u, anchor, every)
  }

  /** The schedule is exact if and only if the deployment was created by now, or
      is a whole number of intervals ahead, or its first instant lies beyond the
      horizon. A deployment created later misses the instant just before the
      first tick. */
  lemma ExactWhen(anchor: Time, every: Time, now: Time, horizon: Time)
    requires every > 0
    ensures ListsWindow(Ticks(FirstTick(anchor, every, now), every, horizon), anchor, every, now, horizon)
       <==> anchor <= now || (anchor - now) % every == 0 || now + (anchor - now) % every > horizon
  {
    var t := FirstTick(anchor, every, now);
    FirstTickIs(anchor, every, now);
    if anchor <= now {
      WindowFrom(t, anchor, every, now, horizon);
    } else {
      var soonest := t - every;
      assert soonest == now + (anchor - now) % every;
      PhasePredecessor(t, anchor, every);
      TicksExact(t, every, horizon, anchor);
      if soonest == now {
        WindowFrom(t, anchor, every, now, horizon);
      } else if soonest > horizon {
        NothingBefore(soonest, anchor, every, now);
      } else {
        assert soonest !in Ticks(t, every, horizon);
      }
    }
  }

  /** No instant on the phase lies strictly between now and the next one. */
  lemma NothingBefore(t: Time, anchor: Time, every: Time, now: Time)
    requires every > 0 && OnPhase(t, anchor, every) && t <= now + every
    ensures forall u | now < u < t :: !OnPhase(u, anchor, every)
  {
    forall u | now < u < t ensures !OnPhase(u, anchor, every) {
      if OnPhase(u, anchor, every) {
        PhaseGap(u, t, anchor, every);
        assert false;
      }
    }
  }

  lemma WindowFrom(t: Time, anchor: Time, every: Time, now: Time, horizon: Time)
    requires every > 0 && OnPhase(t, anchor, every) && now < t <= now + every
    ensures ListsWindow(Ticks(t, every, horizon), anchor, every, now, horizon)
  {
    TicksExact(t, every, horizon, anchor);
    NothingBefore(t, anchor, every, now);
  }

  lemma PhasePredecessor(t: Time, anchor: Time, every: Time)
    requires every > 0 && OnPhase(t, anchor, every)
    ensures OnPhase(t - every, anchor, every)
  {
    var a := (t - anchor) / every;
    assert t - anchor == a * every;
    assert (a - 1) * every == t - every - anchor;
    MultipleOnPhase(a - 1, every);
  }

  // ------------------------------------------------------ no tick is missed ---

  /** The instants a cycle creates runs for: none for a paused deployment or a
      schedule that does not parse. */
  function CycleInstants(d: Deployment, now: Time, lookahead: Time, max: int): seq<Time> {
    var a := Planned(d, now, now + lookahead, max);
    if d.paused || !a.Instants? then [] else a.at
  }

  /** Without catch-up each cycle creates only the soonest instant, and yet no
      instant between the first and the last cycle is missed, provided cycles
      come no further apart than the interval and look at least as far ahead. */
  lemma {:induction false} NoTickMissed(d: Deployment, cycles: seq<Time>, lookahead: Time, max: int, p: Time)
    requires d.kind.Interval? && !d.paused && d.every.Some? && d.every.value >= SECOND && d.createdAt.Some? && max >= 1
    requires lookahead >= d.every.value
    requires |cycles| > 0 && d.createdAt.value <= cycles[0]
    requires forall i | 0 <= i < |cycles| - 1 :: cycles[i] <= cycles[i + 1] <= cycles[i] + d.every.value
    requires cycles[0] < p <= cycles[|cycles| - 1]
    requires OnPhase(p, d.createdAt.value, d.every.value)
    ensures exists i :: 0 <= i < |cycles| && p in CycleInstants(d, cycles[i], lookahead, max)
    decreases |cycles|
  {
    assert |cycles| > 1;
    var n := |cycles| - 1;
    if p <= cycles[n - 1] {
      var init := cycles[..n];
      NoTickMissed(d, init, lookahead, max, p);
      var i :| 0 <= i < |init| && p in CycleInstants(d, init[i], lookahead, max);
      assert cycles[i] == init[i];
    } else {
      AnchorBefore(d, cycles, n - 1);
      SoonestIs(d, cycles[n - 1], lookahead, max, p);
    }
  }

  lemma {:induction false} AnchorBefore(d: Deployment, cycles: seq<Time>, k: nat)
    requires d.every.Some? && d.createdAt.Some? && k < |cycles|
    requires d.createdAt.value <= cycles[0]
    requires forall i | 0 <= i < |cycles| - 1 :: cycles[i] <= cycles[i + 1] <= cycles[i] + d.every.value
    ensures d.createdAt.value <= cycles[k]
  {
    if k > 0 {
      AnchorBefore(d, cycles, k - 1);
      assert cycles[k - 1] <= cycles[k - 1 + 1];
    }
  }

  /** An instant on the phase within one interval of now is the soonest one. */
  lemma SoonestIs(d: Deployment, now: Time, lookahead: Time, max: int, p: Time)
    requires d.kind.Interval? && !d.paused && d.every.Some? && d.every.value >= SECOND && d.createdAt.Some? && max >= 1
    requires lookahead >= d.every.value && d.createdAt.value <= now
    requires now < p <= now + d.every.value && OnPhase(p, d.createdAt.value, d.every.value)
    ensures p in CycleInstants(d, now, lookahead, max)
  {
    var anchor, every := d.createdAt.value, d.every.value;
    var t := FirstTick(anchor, every, now);
    FirstTickIs(anchor, every, now);
    if t < p {
      PhaseGap(t, p, anchor, every);
    } else if p < t {
      PhaseGap(p, t, anchor, every);
    }
    assert Ticks(t, every, now + lookahead)[0] == p;
    assert Upcoming(d, now, now + lookahead, max)[0] == p;
    assert Take(Upcoming(d, now, now + lookahead, max), 1)[0] == p;
  }

  // ------------------------------------------------- idempotent materialisation ---

  /** Unix(): whole seconds, rounded down. */
  function UnixSecond(t: Time): int { t / SECOND }

  function RunKey(d: Deployment, t: Time): string { ScheduleKey(d.id, UnixSecond(t)) }

  /** The whole-second key tells any two instants of one schedule apart. */
  lemma RunKeyInjective(d: Deployment, anchor: Time, every: Time, t: Time, u: Time)
    requires every >= SECOND && OnPhase(t, anchor, every) && OnPhase(u, anchor, every)
    requires RunKey(d, t) == RunKey(d, u)
    ensures t == u
  {
    ScheduleKeyInjective(d.id, UnixSecond(t), d.id, UnixSecond(u));
    if t < u {
      PhaseGap(t, u, anchor, every);
    } else if u < t {
      PhaseGap(u, t, anchor, every);
    }
  }

  /** The run created for instant `t`, under UUID `id`. */
  function ScheduledRun(d: Deployment, t: Time, id: string): NewRun {
    NewRun(id, d.queue, d.priority, t, d.retries, d.retryDelay, None, Some(d.id), Some(RunKey(d, t)))
  }

  /** One creation by some scheduler replica at some moment. */
  datatype Creation = Creation(t: Time, id: string, now: Time)

  function Created(rows: seq<Run>, d: Deployment, c: Creation): seq<Run> {
    Insert(rows, ScheduledRun(d, c.t, c.id), c.now).0
  }

  ghost predicate HasKeyOnce(rows: seq<Run>, key: string, i: RunId) {
    i < |rows| && rows[i].idemKey == Some(key) && forall j | 0 <= j < |rows| && rows[j].idemKey == Some(key) :: j == i
  }

  lemma BecomesOne(rows: seq<Run>, d: Deployment, c: Creation)
    requires forall j | 0 <= j < |rows| :: rows[j].idemKey != Some(RunKey(d, c.t))
    ensures HasKeyOnce(Created(rows, d, c), RunKey(d, c.t), |rows|)
    ensures BornAt(Created(rows, d, c), d, |rows|, c.t)
  {
  }

  /** Row `i` is a run for instant `t`, set up as the deployment says. */
  predicate BornAt(rows: seq<Run>, d: Deployment, i: RunId, t: Time) {
    && i < |rows| && rows[i].state.Scheduled? && rows[i].scheduledAt == t && rows[i].runCount == 0
    && rows[i].deployment == Some(d.id) && rows[i].idemKey == Some(ScheduleKey(d.id, t / SECOND))
    && rows[i].queue == (if d.queue != "" then d.queue else "default")
    && rows[i].priority == (if d.priority != 0 then d.priority else 50)
    && rows[i].retries == d.retries && rows[i].retryDelay == d.retryDelay
  }

  /** A key that no instant of this schedule has. */
  ghost predicate Foreign(d: Deployment, key: Option<string>) {
    key.Some? ==> forall t :: RunKey(d, t) != key.value
  }

  /** Runs created without a key, for sub-flows, and for other deployments are foreign. */
  lemma OthersAreForeign(d: Deployment, other: Deployment, t: Time, id: string, run: string, key: string)
    requires IsId(d.id) && other.id != d.id
    ensures Foreign(d, None) && Foreign(d, Some(ChildKey(run, key))) && Foreign(d, ScheduledRun(other, t, id).idemKey)
  {
    forall u ensures RunKey(d, u) != ChildKey(run, key) && RunKey(d, u) != RunKey(other, t) {
      ChildIsNotScheduled(run, key, d.id, UnixSecond(u));
      if RunKey(d, u) == RunKey(other, t) {
        ScheduleKeyInjective(d.id, UnixSecond(u), other.id, UnixSecond(t));
      }
    }
  }

  /** What happens to the table meanwhile: some replica creates a run of this
      schedule, somebody creates another run, or rows are updated. */
  datatype Change = Ours(c: Creation) | Theirs(n: NewRun, now: Time) | Updates(rows': seq<Run>)

  function Changed(rows: seq<Run>, d: Deployment, ch: Change): seq<Run> {
    match ch
    case Ours(c) => Created(rows, d, c)
    case Theirs(n, now) => Insert(rows, n, now).0
    case Updates(rows') => rows'
  }

  /** Updates write any column but the idempotency key, which no statement does. */
  ghost predicate Allowed(rows: seq<Run>, d: Deployment, anchor: Time, every: Time, ch: Change)
    requires every > 0
  {
    match ch
    case Ours(c) => OnPhase(c.t, anchor, every)
    case Theirs(n, _) => Foreign(d, n.idemKey)
    case Updates(rows') => |rows'| == |rows| && forall i | 0 <= i < |rows| :: rows'[i].idemKey == rows[i].idemKey
  }

  function ChangedAll(rows: seq<Run>, d: Deployment, chs: seq<Change>): seq<Run>
    decreases |chs|
  {
    if chs == [] then rows else ChangedAll(Changed(rows, d, chs[0]), d, chs[1..])
  }

  ghost predicate AllAllowed(rows: seq<Run>, d: Deployment, anchor: Time, every: Time, chs: seq<Change>)
    requires every > 0
    decreases |chs|
  {
    chs == [] ||
    (Allowed(rows, d, anchor, every, chs[0]) && AllAllowed(Changed(rows, d, chs[0]), d, anchor, every, chs[1..]))
  }

  /** No change, ours for the same instant or another or anybody else's, makes a
      second row with the key or takes it from the first. */
  lemma StaysOne(rows: seq<Run>, d: Deployment, anchor: Time, every: Time, ch: Change, t: Time, i: RunId)
    requires every >= SECOND && OnPhase(t, anchor, every) && Allowed(rows, d, anchor, every, ch)
    requires HasKeyOnce(rows, RunKey(d, t), i)
    ensures HasKeyOnce(Changed(rows, d, ch), RunKey(d, t), i)
  {
    if ch.Ours? && ch.c.t != t && RunKey(d, ch.c.t) == RunKey(d, t) {
      RunKeyInjective(d, anchor, every, ch.c.t, t);
    }
  }

  lemma {:induction false} StaysOneForGood(rows: seq<Run>, d: Deployment, anchor: Time, every: Time, chs: seq<Change>,
                                           t: Time, i: RunId)
    requires every >= SECOND && OnPhase(t, anchor, every) && AllAllowed(rows, d, anchor, every, chs)
    requires HasKeyOnce(rows, RunKey(d, t), i)
    ensures HasKeyOnce(ChangedAll(rows, d, chs), RunKey(d, t), i)
    decreases |chs|
  {
    if chs != [] {
      StaysOne(rows, d, anchor, every, chs[0], t, i);
      StaysOneForGood(Changed(rows, d, chs[0]), d, anchor, every, chs[1..], t, i);
    }
  }

  lemma StaysNone(rows: seq<Run>, d: Deployment, anchor: Time, every: Time, ch: Change, t: Time)
    requires every >= SECOND && OnPhase(t, anchor, every) && Allowed(rows, d, anchor, every, ch)
    requires forall j | 0 <= j < |rows| :: rows[j].idemKey != Some(RunKey(d, t))
    requires ch.Ours? ==> ch.c.t != t
    ensures |rows| <= |Changed(rows, d, ch)|
    ensures forall j | 0 <= j < |Changed(rows, d, ch)| :: Changed(rows, d, ch)[j].idemKey != Some(RunKey(d, t))
  {
    if ch.Ours? && RunKey(d, ch.c.t) == RunKey(d, t) {
      RunKeyInjective(d, anchor, every, ch.c.t, t);
    }
  }

  /** However many schedulers overlap and however often they repeat themselves,
      whatever else is created and whatever becomes of the runs meanwhile, each
      instant that any of them materialises has exactly one run in the end: the one
      that the first of them, change number `m`, created for that very instant. */
  lemma {:induction false} OneRunPerInstant(rows: seq<Run>, d: Deployment, anchor: Time, every: Time, chs: seq<Change>,
                                            t: Time, k: nat) returns (i: RunId, m: nat)
    requires every >= SECOND && AllAllowed(rows, d, anchor, every, chs) && OnPhase(t, anchor, every)
    requires k < |chs| && chs[k].Ours? && chs[k].c.t == t
    requires forall j | 0 <= j < |rows| :: rows[j].idemKey != Some(RunKey(d, t))
    ensures HasKeyOnce(ChangedAll(rows, d, chs), RunKey(d, t), i) && i >= |rows|
    ensures m <= k && chs[m].Ours? && chs[m].c.t == t && BornAt(ChangedAll(rows, d, chs[..m + 1]), d, i, t)
    decreases |chs|
  {
    var rows' := Changed(rows, d, chs[0]);
    if chs[0].Ours? && chs[0].c.t == t {
      i, m := |rows|, 0;
      BecomesOne(rows, d, chs[0].c);
      StaysOneForGood(rows', d, anchor, every, chs[1..], t, i);
      assert chs[..1] == [chs[0]] && ChangedAll(rows', d, []) == rows';
      FirstChange(rows, d, chs[..1]);
    } else {
      StaysNone(rows, d, anchor, every, chs[0], t);
      var n;
      i, n := OneRunPerInstant(rows', d, anchor, every, chs[1..], t, k - 1);
      m := n + 1;
      assert chs[..m + 1][1..] == chs[1..][..n + 1];
      FirstChange(rows, d, chs[..m + 1]);
    }
  }

  lemma FirstChange(rows: seq<Run>, d: Deployment, chs: seq<Change>)
    requires chs != []
    ensures ChangedAll(rows, d, chs) == ChangedAll(Changed(rows, d, chs[0]), d, chs[1..])
  {
  }

  /** One deployment's share of a materialise cycle; `ids` are the UUIDs drawn. The
      instants `at` all have their run in the end, and no other run is created. */
  method Materialise(st: S.Store, d: Deployment, now: Time, lookahead: Time, max: int, ids: seq<string>)
    returns (ghost at: seq<Time>)
    requires |CycleInstants(d, now, lookahead, max)| <= |ids|
    modifies st`rows
    ensures st.rows == ChangedAll(old(st.rows), d, Creations(CycleInstants(d, now, lookahead, max), ids, now))
    ensures d.paused || d.kind.Unscheduled? || d.every.None? || d.every.value < SECOND ==>
      at == [] && st.rows == old(st.rows)
    ensures !d.paused && d.kind.Interval? && d.every.Some? && d.every.value >= SECOND ==>
      Lists(d, now, now + lookahead, max, at)
    ensures AllCreated(old(st.rows), st.rows, d, at)
  {
    var r := NextRuns(d, now, now + lookahead, max);
    at := if d.paused || !r.Instants? then [] else r.at;
    CreateRuns(st, d, if d.paused || !r.Instants? then [] else r.at, now, ids);
  }

  /** The inner loop of materialise. */
  method CreateRuns(st: S.Store, d: Deployment, times: seq<Time>, now: Time, ids: seq<string>)
    requires |times| <= |ids|
    modifies st`rows
    ensures st.rows == ChangedAll(old(st.rows), d, Creations(times, ids, now))
    ensures AllCreated(old(st.rows), st.rows, d, times) && (times == [] ==> st.rows == old(st.rows))
  {
    ghost var rows0 := st.rows;
    ghost var cs := Creations(times, ids, now);
    for k := 0 to |times|
      invariant ChangedAll(st.rows, d, cs[k..]) == ChangedAll(rows0, d, cs)
      invariant AllCreated(rows0, st.rows, d, times[..k])
      invariant times == [] ==> st.rows == rows0
    {
      NextCreation(rows0, st.rows, d, times, ids, now, k);
      var _, _ := st.CreateFlowRun(ScheduledRun(d, times[k], ids[k]), now);
    }
    assert times[..|times|] == times;
  }

  lemma NextCreation(rows: seq<Run>, rows': seq<Run>, d: Deployment, times: seq<Time>, ids: seq<string>, now: Time,
                     k: nat)
    requires k < |times| <= |ids| && AllCreated(rows, rows', d, times[..k])
    ensures var cs := Creations(times, ids, now);
      var rows'' := Insert(rows', ScheduledRun(d, times[k], ids[k]), now).0;
      AllCreated(rows, rows'', d, times[..k + 1]) && ChangedAll(rows', d, cs[k..]) == ChangedAll(rows'', d, cs[k + 1..])
  {
    var cs := Creations(times, ids, now);
    assert cs[k..][0] == cs[k] && cs[k..][1..] == cs[k + 1..];
    CreatesOneMore(rows, rows', d, times[..k], Creation(times[k], ids[k], now));
    assert times[..k + 1] == times[..k] + [times[k]];
  }

  predicate HasKey(rows: seq<Run>, key: string) { exists i :: 0 <= i < |rows| && rows[i].idemKey == Some(key) }

  predicate BornIn(rows: seq<Run>, d: Deployment, i: RunId, at: seq<Time>) {
    exists t :: t in at && BornAt(rows, d, i, t)
  }

  /** Every instant has its run, the runs that were there are untouched, those that
      were not are runs for one of the instants, and no key is there twice. */
  ghost predicate AllCreated(rows: seq<Run>, rows': seq<Run>, d: Deployment, at: seq<Time>) {
    && |rows| <= |rows'| && rows'[..|rows|] == rows
    && (forall t | t in at :: HasKey(rows', ScheduleKey(d.id, t / SECOND)))
    && (forall i | |rows| <= i < |rows'| :: BornIn(rows', d, i, at))
    && (UniqueKeys(rows) ==> UniqueKeys(rows'))
  }

  lemma CreatesOneMore(rows: seq<Run>, rows': seq<Run>, d: Deployment, at: seq<Time>, c: Creation)
    requires AllCreated(rows, rows', d, at)
    ensures AllCreated(rows, Created(rows', d, c), d, at + [c.t])
  {
    var n := ScheduledRun(d, c.t, c.id);
    var (rows'', k) := Insert(rows', n, c.now);
    assert rows''[k].idemKey == Some(ScheduleKey(d.id, c.t / SECOND));
    forall t | t in at ensures HasKey(rows'', ScheduleKey(d.id, t / SECOND)) {
      var i :| 0 <= i < |rows'| && rows'[i].idemKey == Some(ScheduleKey(d.id, t / SECOND));
      assert rows''[i] == rows'[i];
    }
    forall i | |rows| <= i < |rows''| ensures BornIn(rows'', d, i, at + [c.t]) {
      if i < |rows'| {
        assert BornIn(rows', d, i, at);
        var t :| t in at && BornAt(rows', d, i, t);
        assert t in at + [c.t] && BornAt(rows'', d, i, t);
      } else {
        assert c.t in at + [c.t] && BornAt(rows'', d, i, c.t);
      }
    }
    if UniqueKeys(rows) {
      CreateIsIdempotent(rows', n, n, c.now, c.now);
    }
  }

  function Creations(times: seq<Time>, ids: seq<string>, now: Time): seq<Change>
    requires |times| <= |ids|
  {
    seq(|times|, k requires 0 <= k < |times| => Ours(Creation(times[k], ids[k], now)))
  }
}
