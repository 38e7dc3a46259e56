/** A task's attempt loop and its backoff. */
module Attempts {
  import opened Base

  /** What the SDK tells errors apart by, and the message. */
  datatype Error = Error(suspend: Option<Time>, cancelled: bool, permanent: bool, message: int)

  const CANCELLED := Error(None, true, false, 0)

  function Plain(message: int): Error { Error(None, false, false, message) }

  function Fatal(message: int): Error { Error(None, false, true, message) }

  function Nap(until: Time): Error { Error(Some(until), false, false, 0) }

  /** How a task body, or an SDK call, came back. */
  datatype Res = Ok(v: Val) | Err(e: Error)

  /** A failure that runAttempts tries again. */
  predicate Retryable(r: Res) { r.Err? && r.e.suspend.None? && !r.e.permanent && !r.e.cancelled }

  datatype Answer = Came(r: Res) | CancelledInBackoff | Exhausted

  /** `script(i)` is what call number i comes back with; `stops(a)` says whether the
      context is cancelled while backing off before attempt a. */
  method RunAttempts(retries: int, script: nat -> Res, stops: nat -> bool)
    returns (out: Answer, attempts: nat, calls: nat)
    ensures calls <= Max(retries + 1, 0)
    ensures forall i | 0 <= i < calls - 1 ::
      var r := script(i); r.Err? && r.e.suspend.None? && !r.e.permanent && !r.e.cancelled
    ensures forall a | 1 <= a < calls :: !stops(a)
    ensures match out
      case Came(r) =>
        && calls > 0 && r == script(calls - 1) && attempts == calls
        && (r.Ok? || r.e.suspend.Some? || r.e.permanent || r.e.cancelled)
      case CancelledInBackoff =>
        0 < calls <= retries && Retryable(script(calls - 1)) && stops(calls) && attempts == calls + 1
      case Exhausted =>
        calls == Max(retries + 1, 0) && attempts == calls && (calls > 0 ==> Retryable(script(calls - 1)))
  {
    attempts, calls := 0, 0;
    var attempt := 0;
    while attempt <= retries
      invariant 0 <= attempt <= Max(retries + 1, 0)
      invariant calls == attempts == attempt
      invariant forall i | 0 <= i < calls :: Retryable(script(i))
      invariant forall a | 1 <= a < calls :: !stops(a)
    {
      attempts := attempt + 1;
      if attempt > 0 {
        if stops(attempt) {
          return CancelledInBackoff, attempts, calls;
        }
      }
      var r := script(calls);
      calls := calls + 1;
      if !Retryable(r) {
        return Came(r), attempts, calls;
      }
      attempt := attempt + 1;
    }
    out := Exhausted;
  }

  // ---------------------------------------------------------------- backoff ---

  const TWO_62: int := 0x4000_0000_0000_0000
  const TWO_63: int := 0x8000_0000_0000_0000
  const TWO_64: int := 0x1_0000_0000_0000_0000

  predicate IsInt64(x: int) { -TWO_63 <= x < TWO_63 }

  /** 64-bit two's complement. */
  function Wrap(x: int): int { (x + TWO_63) % TWO_64 - TWO_63 }

  /** `k` rounds of the doubling loop. */
  function Doubled(d: int, max: int, k: nat): int
    decreases k
  {
    if k == 0 || d >= max then d else Doubled(Wrap(d * 2), max, k - 1)
  }

  function OrDefault(d: Time, def: Time): Time { if d <= 0 then def else d }

  function Delay(base: Time, max: Time, attempt: int): Time {
    var m := OrDefault(max, 60 * SECOND);
    Min(Doubled(OrDefault(base, SECOND), m, Max(attempt - 1, 0)), m)
  }

  method Backoff(base: Time, max: Time, attempt: int) returns (d: Time)
    ensures d == Delay(base, max, attempt)
    ensures attempt <= 1 ==>
      d == Min(if base <= 0 then 1_000_000_000 else base, if max <= 0 then 60_000_000_000 else max)
  {
    var b := if base <= 0 then SECOND else base;
    var m := if max <= 0 then 60 * SECOND else max;
    d := b;
    var i := 1;
    while i < attempt && d < m
      invariant 1 <= i <= Max(attempt, 1)
      invariant Doubled(d, m, Max(attempt, 1) - i) == Doubled(b, m, Max(attempt, 1) - 1)
      decreases attempt - i
    {
      d := Wrap(d * 2);
      i := i + 1;
    }
    if d > m {
      d := m;
    }
  }

  function Pow2(n: nat): nat { if n == 0 then 1 else 2 * Pow2(n - 1) }

  /** The documented delay. */
  function Ideal(b: int, m: int, attempt: nat): int
    requires attempt >= 1
  {
    Min(b * Pow2(attempt - 1), m)
  }

  /** Some doubling up to this attempt starts in [2^62, max) and so leaves 64 bits. */
  ghost predicate Overflows(b: int, m: int, attempt: nat) {
    exists i: nat :: i + 2 <= attempt && TWO_62 <= b * Pow2(i) < m
  }

  lemma WrapFits(x: int)
    requires IsInt64(x)
    ensures Wrap(x) == x
  {
  }

  lemma WrapTurns(x: int)
    requires TWO_63 <= x < TWO_64
    ensures Wrap(x) < 0
  {
  }

  /** b * 2^(n+1) is (2b) * 2^n, and at least b. */
  lemma PowShift(b: int, n: nat)
    requires b > 0
    ensures (2 * b) * Pow2(n) == b * Pow2(n + 1)
    ensures b * Pow2(n) >= b
  {
    PowPositive(n);
    MulAtLeast(b, Pow2(n));
    assert Pow2(n + 1) == 2 * Pow2(n);
    Regroup(b, Pow2(n));
  }

  lemma Regroup(b: int, p: int)
    ensures (2 * b) * p == b * (2 * p)
  {
  }

  lemma MulAtLeast(b: int, p: int)
    requires b > 0 && p >= 1
    ensures b * p >= b
  {
  }

  lemma {:induction false} PowPositive(n: nat)
    ensures Pow2(n) >= 1
  {
    if n > 0 {
      PowPositive(n - 1);
    }
  }

  lemma {:induction false} DoublesExactly(b: int, m: int, k: nat)
    requires 0 < b < TWO_63 && 0 < m < TWO_63
    requires forall i: nat | i < k :: !(TWO_62 <= b * Pow2(i) < m)
    ensures Min(Doubled(b, m, k), m) == Min(b * Pow2(k), m)
    decreases k
  {
    if k == 0 {
      assert b * Pow2(0) == b;
    } else if b >= m {
      PowShift(b, k);
    } else {
      assert b * Pow2(0) == b;
      WrapFits(b * 2);
      forall i: nat | i < k - 1 ensures !(TWO_62 <= (2 * b) * Pow2(i) < m) {
        PowShift(b, i);
        assert i + 1 < k;
      }
      DoublesExactly(2 * b, m, k - 1);
      PowShift(b, k - 1);
    }
  }

  /** The first overflowing doubling yields a negative delay. */
  lemma {:induction false} OverflowGoesNegative(b: int, m: int, i: nat)
    requires 0 < b < TWO_63 && 0 < m < TWO_63
    requires TWO_62 <= b * Pow2(i) < m
    ensures Doubled(b, m, i + 1) < 0
    decreases i
  {
    PowShift(b, i);
    if i == 0 {
      assert b * Pow2(0) == b;
      WrapTurns(b * 2);
      assert Doubled(b, m, 1) == Doubled(Wrap(b * 2), m, 0);
    } else {
      PowShift(b, i - 1);
      PowShift(2 * b, i - 1);
      WrapFits(b * 2);
      OverflowGoesNegative(2 * b, m, i - 1);
    }
  }

  /** Delays up to an attempt are all as documented if and only if no doubling on
      the way overflows. */
  lemma BackoffIsExact(b: int, m: int, attempt: nat)
    requires 0 < b < TWO_63 && 0 < m < TWO_63
    ensures (forall a: nat | 1 <= a <= attempt :: Delay(b, m, a) == Ideal(b, m, a)) <==> !Overflows(b, m, attempt)
  {
    if Overflows(b, m, attempt) {
      var i: nat :| i + 2 <= attempt && TWO_62 <= b * Pow2(i) < m;
      OverflowDelay(b, m, i);
      PowPositive(i + 1);
      assert Delay(b, m, i + 2) < 0 <= Ideal(b, m, i + 2);
    } else {
      forall a: nat | 1 <= a <= attempt ensures Delay(b, m, a) == Ideal(b, m, a) {
        ExactDelay(b, m, attempt, a);
      }
    }
  }

  lemma OverflowDelay(b: int, m: int, i: nat)
    requires 0 < b < TWO_63 && 0 < m < TWO_63 && TWO_62 <= b * Pow2(i) < m
    ensures Delay(b, m, i + 2) < 0
  {
    OverflowGoesNegative(b, m, i);
  }

  lemma ExactDelay(b: int, m: int, attempt: nat, a: nat)
    requires 0 < b < TWO_63 && 0 < m < TWO_63 && 1 <= a <= attempt && !Overflows(b, m, attempt)
    ensures Delay(b, m, a) == Ideal(b, m, a)
  {
    forall i: nat | i < a - 1 ensures !(TWO_62 <= b * Pow2(i) < m) {
      assert i + 2 <= attempt;
    }
    DoublesExactly(b, m, a - 1);
  }

  /** With a cap of at most 2^62 nanoseconds the delay is min(base * 2^(n-1), max)
      at every attempt, and never shrinks from one attempt to the next. */
  lemma BackoffUnderCap(b: int, m: int, attempt: nat)
    requires 0 < b < TWO_63 && 0 < m <= TWO_62 && attempt >= 1
    ensures Delay(b, m, attempt) == Ideal(b, m, attempt)
    ensures Delay(b, m, attempt) <= Delay(b, m, attempt + 1) <= m
  {
    BackoffIsExact(b, m, attempt + 1);
    PowPositive(attempt - 1);
    assert b * Pow2(attempt) == 2 * (b * Pow2(attempt - 1));
  }

  /** Beyond that cap it can fail: the third attempt of a task with these options
      backs off for a negative time, that is, not at all. */
  lemma BackoffCanOverflow()
    ensures Delay(TWO_62, TWO_63 - 1, 2) == -TWO_63
  {
    assert Doubled(TWO_62, TWO_63 - 1, 1) == Doubled(Wrap(TWO_62 * 2), TWO_63 - 1, 0);
  }
}
