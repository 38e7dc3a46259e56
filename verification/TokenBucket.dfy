/** The per-key rate limiter, in process and shared through Redis. Instants are
    seconds on one clock, and arithmetic is exact. */
module TokenBucket {
  import opened Base

  type Instant = real

  function Least(a: real, b: real): real { if a <= b then a else b }

  function Rate(perMinute: int): real { perMinute as real / 60.0 }

  function Burst(perMinute: int): real { perMinute as real }

  /** Rounding up, as math.ceil does. */
  function Ceil(x: real): int { -(-x).Floor }

  // ----------------------------------------------------------- in process ---

  datatype Bucket = Bucket(tokens: real, rate: real, burst: real, last: Instant)

  predicate Valid(b: Bucket) {
    b.burst > 0.0 && b.rate == b.burst / 60.0 && 0.0 <= b.tokens <= b.burst
  }

  function Fresh(perMinute: int, now: Instant): Bucket {
    Bucket(Burst(perMinute), Rate(perMinute), Burst(perMinute), now)
  }

  /** Adopt a changed limit, clipping what was saved up. */
  function Adopt(b: Bucket, perMinute: int): Bucket {
    if b.burst != Burst(perMinute) then
      Bucket(Least(b.tokens, Burst(perMinute)), Rate(perMinute), Burst(perMinute), b.last)
    else b
  }

  /** What flows in between two instants. */
  function Gain(from: Instant, to: Instant, rate: real): real { (to - from) * rate }

  function Refill(b: Bucket, now: Instant): Bucket {
    b.(tokens := Least(b.burst, b.tokens + Gain(b.last, now, b.rate)), last := now)
  }

  predicate Admits(b: Bucket) { b.tokens >= 1.0 }

  function Spend(b: Bucket): Bucket { if Admits(b) then b.(tokens := b.tokens - 1.0) else b }

  /** The bucket as a call at `now` finds it after refilling. */
  function Ready(b: Bucket, perMinute: int, now: Instant): Bucket { Refill(Adopt(b, perMinute), now) }

  /** Nanoseconds, truncated, plus a millisecond. */
  function Wait(b: Bucket): real
    requires b.rate > 0.0
  {
    (((1.0 - b.tokens) / b.rate * 1000000000.0).Floor + 1000000) as real / 1000000000.0
  }

  class RateLimiter {
    var buckets: map<string, Bucket>

    ghost predicate Sound()
      reads this
    {
      forall k | k in buckets :: Valid(buckets[k])
    }

    constructor ()
      ensures Sound() && buckets == map[]
    {
      buckets := map[];
    }

    method Allow(key: string, perMinute: int, now: Instant) returns (ok: bool, wait: real)
      requires Sound()
      requires key in buckets ==> buckets[key].last <= now
      modifies this
      ensures Sound()
      ensures perMinute <= 0 ==> ok && wait == 0.0 && buckets == old(buckets)
      ensures perMinute > 0 ==>
        var b := Ready(if key in old(buckets) then old(buckets)[key] else Fresh(perMinute, now), perMinute, now);
        && ok == Admits(b)
        && buckets == old(buckets)[key := Spend(b)]
        && wait == if ok then 0.0 else Wait(b)
      ensures !ok ==>
        var due := (1.0 - buckets[key].tokens) / (perMinute as real / 60.0);
        due < wait <= due + 0.001
    {
      if perMinute <= 0 {
        return true, 0.0;
      }
      var b := if key in buckets then buckets[key] else Fresh(perMinute, now);
      ReadyIsValid(b, perMinute, now);
      b := Adopt(b, perMinute);
      b := Refill(b, now);
      ok := Admits(b);
      wait := if ok then 0.0 else Wait(b);
      if !ok {
        WaitIsTight(b);
      }
      buckets := buckets[key := Spend(b)];
    }

    method Forget(key: string)
      modifies this
      ensures buckets == old(buckets) - {key}
    {
      buckets := buckets - {key};
    }
  }

  /** The advised wait is longer than what is needed by a millisecond at most. */
  lemma WaitIsTight(b: Bucket)
    requires b.rate > 0.0
    ensures (1.0 - b.tokens) / b.rate < Wait(b) <= (1.0 - b.tokens) / b.rate + 0.001
  {
    var n := (1.0 - b.tokens) / b.rate * 1000000000.0;
    assert n - 1.0 < n.Floor as real <= n;
  }

  lemma MulNonNegative(a: real, b: real)
    requires a >= 0.0 && b >= 0.0
    ensures a * b >= 0.0
  {
  }

  lemma RefillIsValid(b: Bucket, now: Instant)
    requires Valid(b) && b.last <= now
    ensures Valid(Refill(b, now)) && Refill(b, now).burst == b.burst && Refill(b, now).rate == b.rate
  {
    MulNonNegative(now - b.last, b.rate);
    var gain := Gain(b.last, now, b.rate);
    assert Refill(b, now).tokens == Least(b.burst, b.tokens + gain);
  }

  lemma AdoptIsValid(b: Bucket, perMinute: int)
    requires Valid(b) && perMinute > 0
    ensures Valid(Adopt(b, perMinute)) && Adopt(b, perMinute).burst == Burst(perMinute)
    ensures Adopt(b, perMinute).last == b.last
  {
  }

  lemma ReadyIsValid(b: Bucket, perMinute: int, now: Instant)
    requires Valid(b) && perMinute > 0 && b.last <= now
    ensures Valid(Ready(b, perMinute, now)) && Ready(b, perMinute, now).burst == Burst(perMinute)
    ensures Valid(Spend(Ready(b, perMinute, now)))
  {
    AdoptIsValid(b, perMinute);
    RefillIsValid(Adopt(b, perMinute), now);
  }

  // -------------------------------------------------------- the window bound ---

  ghost predicate InOrder(from: Instant, calls: seq<Instant>) {
    (forall i | 0 <= i < |calls| :: from <= calls[i]) && forall i, j | 0 <= i < j < |calls| :: calls[i] <= calls[j]
  }

  /** At a constant limit nothing is adopted: a call only refills and spends. */
  lemma ConstantLimit(b: Bucket, perMinute: int, now: Instant)
    requires b.burst == Burst(perMinute)
    ensures Ready(b, perMinute, now) == Refill(b, now)
    ensures Spend(Ready(b, perMinute, now)).burst == Burst(perMinute)
  {
  }

  /** How many of the calls are let through, at a constant limit. */
  function Admitted(b: Bucket, calls: seq<Instant>): nat
    decreases |calls|
  {
    if calls == [] then 0
    else
      var r := Refill(b, calls[0]);
      (if Admits(r) then 1 else 0) + Admitted(Spend(r), calls[1..])
  }

  lemma RestInOrder(from: Instant, calls: seq<Instant>)
    requires calls != [] && InOrder(from, calls)
    ensures InOrder(calls[0], calls[1..])
  {
    forall i | 0 <= i < |calls[1..]| ensures calls[0] <= calls[1..][i] {
      assert calls[1..][i] == calls[i + 1];
    }
    forall i, j | 0 <= i < j < |calls[1..]| ensures calls[1..][i] <= calls[1..][j] {
      assert calls[1..][i] == calls[i + 1] && calls[1..][j] == calls[j + 1];
    }
  }

  /** What flows in before each call. */
  function Gains(from: Instant, calls: seq<Instant>, rate: real): seq<real>
    decreases |calls|
  {
    if calls == [] then [] else [Gain(from, calls[0], rate)] + Gains(calls[0], calls[1..], rate)
  }

  function Sum(gains: seq<real>): real { if gains == [] then 0.0 else gains[0] + Sum(gains[1..]) }

  /** The calls let through, seen as paying one token each out of a capped balance. */
  function Served(tokens: real, burst: real, gains: seq<real>): nat
    decreases |gains|
  {
    if gains == [] then 0
    else
      var t := Least(burst, tokens + gains[0]);
      if t >= 1.0 then 1 + Served(t - 1.0, burst, gains[1..]) else Served(t, burst, gains[1..])
  }

  lemma {:induction false} ServedIsPaid(tokens: real, burst: real, gains: seq<real>)
    requires 0.0 <= tokens && 0.0 <= burst && forall i | 0 <= i < |gains| :: gains[i] >= 0.0
    ensures Served(tokens, burst, gains) as real <= tokens + Sum(gains)
    ensures gains != [] ==> Served(tokens, burst, gains) as real <= burst + Sum(gains[1..])
    decreases |gains|
  {
    if gains != [] {
      var t := Least(burst, tokens + gains[0]);
      ServedIsPaid(if t >= 1.0 then t - 1.0 else t, burst, gains[1..]);
    }
  }

  lemma {:induction false} GainsAddUp(from: Instant, calls: seq<Instant>, rate: real)
    requires calls != [] && InOrder(from, calls) && rate >= 0.0
    ensures Gains(from, calls, rate) != []
    ensures Sum(Gains(from, calls, rate)) == Gain(from, calls[|calls| - 1], rate)
    ensures forall i | 0 <= i < |Gains(from, calls, rate)| :: Gains(from, calls, rate)[i] >= 0.0
    decreases |calls|
  {
    var first := Gain(from, calls[0], rate);
    MulNonNegative(calls[0] - from, rate);
    assert Gains(from, calls, rate) == [first] + Gains(calls[0], calls[1..], rate);
    SumOfMore(first, Gains(calls[0], calls[1..], rate));
    if |calls| > 1 {
      RestInOrder(from, calls);
      GainsAddUp(calls[0], calls[1..], rate);
      Flows(from, calls[0], calls[|calls| - 1], rate);
    }
  }

  lemma SumOfMore(g: real, gains: seq<real>)
    ensures Sum([g] + gains) == g + Sum(gains)
  {
    assert ([g] + gains)[1..] == gains;
  }

  lemma Flows(a: real, b: real, c: real, rate: real)
    ensures Gain(a, b, rate) + Gain(b, c, rate) == Gain(a, c, rate)
  {
  }

  /** One call of the limiter is one such payment. */
  lemma OnePayment(b: Bucket, now: Instant, gain: real)
    requires Valid(b) && b.last <= now && gain == Gain(b.last, now, b.rate)
    ensures var r := Refill(b, now);
      && r.tokens == Least(b.burst, b.tokens + gain)
      && Valid(Spend(r)) && Spend(r).burst == b.burst && Spend(r).rate == b.rate && Spend(r).last == now
  {
    RefillIsValid(b, now);
  }

  lemma {:induction false} AdmittedIsServed(b: Bucket, calls: seq<Instant>)
    requires Valid(b) && InOrder(b.last, calls)
    ensures Admitted(b, calls) == Served(b.tokens, b.burst, Gains(b.last, calls, b.rate))
    decreases |calls|
  {
    if calls != [] {
      var gain := Gain(b.last, calls[0], b.rate);
      var r := Refill(b, calls[0]);
      OnePayment(b, calls[0], gain);
      RestInOrder(b.last, calls);
      AdmittedIsServed(Spend(r), calls[1..]);
      ServedOfMore(b.tokens, b.burst, gain, Gains(calls[0], calls[1..], b.rate));
    }
  }

  lemma ServedOfMore(tokens: real, burst: real, gain: real, gains: seq<real>)
    ensures var t := Least(burst, tokens + gain);
      Served(tokens, burst, [gain] + gains)
      == (if t >= 1.0 then 1 else 0) + Served(if t >= 1.0 then t - 1.0 else t, burst, gains)
  {
    assert ([gain] + gains)[1..] == gains;
  }

  /** In any window the calls let through number at most burst + rate * length,
      whatever the bucket held when the window opened. */
  lemma WindowBound(b: Bucket, calls: seq<Instant>)
    requires Valid(b) && calls != [] && InOrder(b.last, calls)
    ensures Admitted(b, calls) as real <= b.burst + Gain(calls[0], calls[|calls| - 1], b.rate)
  {
    AdmittedIsServed(b, calls);
    var gains := Gains(b.last, calls, b.rate);
    GainsAddUp(b.last, calls, b.rate);
    RestOfGains(b.last, calls, b.rate);
    ServedIsPaid(b.tokens, b.burst, gains);
  }

  lemma RestOfGains(from: Instant, calls: seq<Instant>, rate: real)
    requires calls != [] && InOrder(from, calls) && rate >= 0.0
    ensures Gains(from, calls, rate) != []
    ensures Sum(Gains(from, calls, rate)[1..]) == Gain(calls[0], calls[|calls| - 1], rate)
  {
    assert Gains(from, calls, rate)[1..] == Gains(calls[0], calls[1..], rate);
    if |calls| == 1 {
      NoFlow(calls[0], rate);
    } else {
      RestInOrder(from, calls);
      GainsAddUp(calls[0], calls[1..], rate);
    }
  }

  lemma NoFlow(now: Instant, rate: real)
    ensures Gain(now, now, rate) == 0.0
  {
  }

  /** And the bound is met: a bucket lets the whole tokens it holds through at once. */
  lemma {:induction false} BurstIsServed(b: Bucket, n: nat)
    requires Valid(b) && b.tokens == b.tokens.Floor as real
    ensures Admitted(b, seq(n, _ => b.last)) == if n <= b.tokens.Floor then n else b.tokens.Floor
    decreases n
  {
    if n > 0 {
      assert seq(n, _ => b.last)[1..] == seq(n - 1, _ => b.last);
      NoFlow(b.last, b.rate);
      assert Refill(b, b.last) == b;
      SpendWhole(b);
      BurstIsServed(Spend(b), n - 1);
    }
  }

  lemma SpendWhole(b: Bucket)
    requires Valid(b) && b.tokens == b.tokens.Floor as real
    ensures Admits(b) <==> b.tokens.Floor >= 1
    ensures Valid(Spend(b)) && Spend(b).tokens.Floor == if Admits(b) then b.tokens.Floor - 1 else b.tokens.Floor
    ensures Spend(b).tokens == Spend(b).tokens.Floor as real
  {
  }

  /** A refused caller that comes back alone after the advised wait is let in. */
  lemma RetryIsAdmitted(b: Bucket, perMinute: int, now: Instant, later: Instant)
    requires Valid(b) && perMinute > 0 && b.last <= now
    requires !Admits(Ready(b, perMinute, now))
    requires later >= now + Wait(Ready(b, perMinute, now))
    ensures Admits(Ready(Spend(Ready(b, perMinute, now)), perMinute, later))
  {
    ReadyIsValid(b, perMinute, now);
    var r := Ready(b, perMinute, now);
    ConstantLimit(r, perMinute, later);
    WaitIsEnough(r, later - now);
    OnePayment(r, later, Gain(now, later, r.rate));
  }

  /** And what is needed is exact: alone, it is let in from then on and not before. */
  lemma AdmittedExactlyFrom(b: Bucket, perMinute: int, now: Instant, later: Instant)
    requires Valid(b) && perMinute > 0 && b.last <= now <= later
    requires !Admits(Ready(b, perMinute, now))
    ensures var r := Ready(b, perMinute, now);
      Admits(Ready(Spend(r), perMinute, later)) <==>
        later - now >= (1.0 - r.tokens) / (perMinute as real / 60.0)
  {
    ReadyIsValid(b, perMinute, now);
    var r := Ready(b, perMinute, now);
    ConstantLimit(r, perMinute, later);
    OnePayment(r, later, Gain(now, later, r.rate));
    GainReaches(1.0 - r.tokens, now, later, r.rate);
  }

  lemma GainReaches(need: real, now: Instant, later: Instant, rate: real)
    requires rate > 0.0
    ensures Gain(now, later, rate) >= need <==> later - now >= need / rate
  {
    var x, t := need / rate, later - now;
    if t >= x {
      MulMono(x, t, rate);
    } else {
      MulStrict(t, x, rate);
    }
    assert x * rate == need && Gain(now, later, rate) == t * rate;
  }

  lemma MulStrict(a: real, b: real, c: real)
    requires a < b && c > 0.0
    ensures a * c < b * c
  {
    assert (b - a) * c == b * c - a * c;
    assert (b - a) * c > 0.0;
  }

  lemma WaitIsEnough(r: Bucket, t: real)
    requires Valid(r) && r.tokens < 1.0 && t >= Wait(r)
    ensures t > 0.0 && r.tokens + t * r.rate >= 1.0
  {
    var x := (1.0 - r.tokens) / r.rate;
    assert x * r.rate == 1.0 - r.tokens;
    assert x > 0.0;
    assert Wait(r) >= x by {
      var n := x * 1000000000.0;
      assert n.Floor as real > n - 1.0;
    }
    MulMono(x, t, r.rate);
  }

  lemma MulMono(a: real, b: real, c: real)
    requires a <= b && c >= 0.0
    ensures a * c <= b * c
  {
    MulNonNegative(b - a, c);
    assert (b - a) * c == b * c - a * c;
  }

  // ------------------------------------------------------------- through Redis ---

  datatype Entry = Entry(tokens: real, ts: Instant, expires: Instant)

  /** What the key holds at `now`: nothing once its expiry has passed. */
  function Live(e: Option<Entry>, now: Instant): Option<Entry> {
    if e.Some? && now >= e.value.expires then None else e
  }

  function ScriptTokens(e: Option<Entry>, perMinute: int, now: Instant): real {
    if e.None? then Burst(perMinute)
    else Least(Burst(perMinute), e.value.tokens + Gain(e.value.ts, now, Rate(perMinute)))
  }

  /** PEXPIRE: the time to fill an empty bucket, in whole milliseconds, and a second. */
  function ExpiresAt(perMinute: int, now: Instant): Instant
    requires perMinute > 0
  {
    now + (Ceil(Burst(perMinute) / Rate(perMinute) * 1000.0) + 1000) as real / 1000.0
  }

  /** The time until a whole token is there, in whole milliseconds. */
  function RetryMs(tokens: real, perMinute: int): int
    requires perMinute > 0
  {
    Ceil((1.0 - tokens) / Rate(perMinute) * 1000.0)
  }

  /** The script: the entry it stores, whether the call is allowed, and the retry in ms. */
  function Script(e: Option<Entry>, perMinute: int, now: Instant): (Entry, bool, int)
    requires perMinute > 0
  {
    var t := ScriptTokens(e, perMinute, now);
    if t >= 1.0 then (Entry(t - 1.0, now, ExpiresAt(perMinute, now)), true, 0)
    else (Entry(t, now, ExpiresAt(perMinute, now)), false, RetryMs(t, perMinute))
  }

  class RedisLimiter {
    var entries: map<string, Entry>

    constructor ()
      ensures entries == map[]
    {
      entries := map[];
    }

    /** Allow, running the script: read, refill, take a token if there is one, write back. */
    method Allow(key: string, perMinute: int, now: Instant) returns (ok: bool, retryMs: int)
      modifies this
      ensures perMinute <= 0 ==> ok && retryMs == 0 && entries == old(entries)
      ensures perMinute > 0 ==>
        var found := Live(if key in old(entries) then Some(old(entries)[key]) else None, now);
        var (e, allowed, retry) := Script(found, perMinute, now);
        ok == allowed && retryMs == retry && entries == old(entries)[key := e]
      ensures !ok ==>
        var due := (1.0 - entries[key].tokens) / (perMinute as real / 60.0);
        due * 1000.0 <= retryMs as real < due * 1000.0 + 1.0
      ensures perMinute > 0 ==> entries[key].ts == now && entries[key].expires == now + 61.0
    {
      if perMinute <= 0 {
        return true, 0;
      }
      var burst := Burst(perMinute);
      var tokens, ts := burst, now;
      if key in entries && now < entries[key].expires {
        tokens, ts := entries[key].tokens, entries[key].ts;
        tokens := Least(burst, tokens + Gain(ts, now, Rate(perMinute)));
      }
      ok, retryMs := false, 0;
      if tokens >= 1.0 {
        tokens := tokens - 1.0;
        ok := true;
      } else {
        retryMs := RetryMs(tokens, perMinute);
      }
      entries := entries[key := Entry(tokens, now, ExpiresAt(perMinute, now))];
      ExpiresAfter(perMinute, now);
    }

    method Forget(key: string)
      modifies this
      ensures entries == old(entries) - {key}
    {
      entries := entries - {key};
    }
  }

  /** A call under some limit at some time. */
  datatype Call = Call(perMinute: int, at: Instant)

  ghost predicate CallsInOrder(from: Instant, cs: seq<Call>) {
    && (forall i | 0 <= i < |cs| :: cs[i].perMinute > 0 && from <= cs[i].at)
    && (forall i, j | 0 <= i < j < |cs| :: cs[i].at <= cs[j].at)
  }

  /** The decisions of the shared limiter, with key expiry or with keys that live for ever. */
  function Decisions(e: Option<Entry>, cs: seq<Call>, expiry: bool): seq<(bool, int)>
    requires forall i | 0 <= i < |cs| :: cs[i].perMinute > 0
    decreases |cs|
  {
    if cs == [] then []
    else
      var (e', ok, retry) := Script(if expiry then Live(e, cs[0].at) else e, cs[0].perMinute, cs[0].at);
      [(ok, retry)] + Decisions(Some(e'), cs[1..], expiry)
  }

  /** An entry that the script could have written. */
  ghost predicate Sane(e: Option<Entry>, from: Instant) {
    e.Some? ==> e.value.tokens >= 0.0 && e.value.ts <= from && e.value.expires >= e.value.ts + 60.0
  }

  /** Filling an empty bucket takes a minute at any limit. */
  lemma ExpiresAfter(perMinute: int, now: Instant)
    requires perMinute > 0
    ensures ExpiresAt(perMinute, now) == now + 61.0
  {
    var p := perMinute as real;
    assert p / (p / 60.0) == 60.0;
    assert Burst(perMinute) / Rate(perMinute) * 1000.0 == 60000.0;
  }

  lemma ScriptWrites(e: Option<Entry>, perMinute: int, now: Instant)
    requires perMinute > 0 && Sane(e, now)
    ensures Sane(Some(Script(e, perMinute, now).0), now)
  {
    ExpiresAfter(perMinute, now);
    if e.Some? {
      MulNonNegative(now - e.value.ts, Rate(perMinute));
    }
  }

  lemma MinuteFills(perMinute: int, from: Instant, to: Instant)
    requires perMinute > 0 && to >= from + 60.0
    ensures Gain(from, to, Rate(perMinute)) >= Burst(perMinute)
  {
    MulMono(60.0, to - from, Rate(perMinute));
    assert 60.0 * (perMinute as real / 60.0) == perMinute as real;
  }

  /** A key idle long enough to expire would have been full anyway, under any limit. */
  lemma ExpiredIsFull(e: Option<Entry>, perMinute: int, now: Instant)
    requires perMinute > 0 && Sane(e, now)
    ensures Script(Live(e, now), perMinute, now) == Script(e, perMinute, now)
  {
    if e.Some? && now >= e.value.expires {
      MinuteFills(perMinute, e.value.ts, now);
      assert ScriptTokens(e, perMinute, now) == Burst(perMinute);
    }
  }

  /** A caller refused by the script that comes back alone after the retry time
      is let in, whether or not the key has expired meanwhile. */
  lemma ScriptRetryIsAdmitted(e: Option<Entry>, perMinute: int, now: Instant, later: Instant)
    requires perMinute > 0 && Sane(e, now) && !Script(e, perMinute, now).1
    requires later >= now + Script(e, perMinute, now).2 as real / 1000.0
    ensures Script(Live(Some(Script(e, perMinute, now).0), later), perMinute, later).1
  {
    var t := ScriptTokens(e, perMinute, now);
    var e' := Some(Script(e, perMinute, now).0);
    RetryCovers(t, perMinute, now, later);
    ScriptWrites(e, perMinute, now);
    ExpiredIsFull(e', perMinute, later);
  }

  /** The script's wait too: alone, a refused caller is let in from the moment that its
      token is whole and not before, and it is told to come back within a millisecond
      of that. */
  lemma ScriptAdmitsExactlyFrom(e: Option<Entry>, perMinute: int, now: Instant, later: Instant)
    requires perMinute > 0 && Sane(e, now) && now <= later && !Script(e, perMinute, now).1
    ensures var (e', _, retry) := Script(e, perMinute, now);
      var due := (1.0 - e'.tokens) / (perMinute as real / 60.0);
      && (Script(Live(Some(e'), later), perMinute, later).1 <==> later - now >= due)
      && due * 1000.0 <= retry as real < due * 1000.0 + 1.0
  {
    var e' := Script(e, perMinute, now).0;
    ScriptWrites(e, perMinute, now);
    ExpiredIsFull(Some(e'), perMinute, later);
    GainReaches(1.0 - e'.tokens, now, later, Rate(perMinute));
  }

  lemma RetryCovers(t: real, perMinute: int, now: Instant, later: Instant)
    requires perMinute > 0 && t < 1.0 && later >= now + RetryMs(t, perMinute) as real / 1000.0
    ensures later >= now && t + Gain(now, later, Rate(perMinute)) >= 1.0
  {
    var x := (1.0 - t) / Rate(perMinute);
    assert x > 0.0;
    assert x * Rate(perMinute) == 1.0 - t;
    CeilCovers(x * 1000.0);
    assert later - now >= x;
    MulMono(x, later - now, Rate(perMinute));
  }

  lemma CeilCovers(x: real)
    ensures Ceil(x) as real >= x
  {
  }

  /** Expiring idle keys never changes a decision or an advised retry, for any
      sequence of calls under any changing limits. */
  lemma {:induction false} ExpiryIsInvisible(e: Option<Entry>, cs: seq<Call>, from: Instant)
    requires Sane(e, from) && CallsInOrder(from, cs)
    ensures Decisions(e, cs, true) == Decisions(e, cs, false)
    decreases |cs|
  {
    if cs != [] {
      var now := cs[0].at;
      ExpiredIsFull(e, cs[0].perMinute, now);
      ScriptWrites(e, cs[0].perMinute, now);
      TailInOrder(from, cs);
      ExpiryIsInvisible(Some(Script(e, cs[0].perMinute, now).0), cs[1..], now);
    }
  }

  lemma TailInOrder(from: Instant, cs: seq<Call>)
    requires cs != [] && CallsInOrder(from, cs)
    ensures CallsInOrder(cs[0].at, cs[1..])
  {
    forall i | 0 <= i < |cs[1..]| ensures cs[1..][i].perMinute > 0 && cs[0].at <= cs[1..][i].at {
      assert cs[1..][i] == cs[i + 1];
    }
    forall i, j | 0 <= i < j < |cs[1..]| ensures cs[1..][i].at <= cs[1..][j].at {
      assert cs[1..][i] == cs[i + 1] && cs[1..][j] == cs[j + 1];
    }
  }

  /** The decisions of the in-process limiter for one key. */
  function LocalDecisions(b: Option<Bucket>, cs: seq<Call>): seq<bool>
    decreases |cs|
  {
    if cs == [] then []
    else
      var r := Ready(if b.Some? then b.value else Fresh(cs[0].perMinute, cs[0].at), cs[0].perMinute, cs[0].at);
      [Admits(r)] + LocalDecisions(Some(Spend(r)), cs[1..])
  }

  function Verdicts(ds: seq<(bool, int)>): seq<bool> { seq(|ds|, i requires 0 <= i < |ds| => ds[i].0) }

  /** The two limiters hold the same balance for a key. */
  predicate SameBalance(b: Option<Bucket>, e: Option<Entry>) {
    (b.None? <==> e.None?) &&
    (b.Some? ==> Valid(b.value) && b.value.tokens == e.value.tokens && b.value.last == e.value.ts)
  }

  lemma SameBalanceStep(b: Option<Bucket>, e: Option<Entry>, c: Call)
    requires SameBalance(b, e) && c.perMinute > 0 && (b.Some? ==> b.value.last <= c.at)
    ensures var r := Ready(if b.Some? then b.value else Fresh(c.perMinute, c.at), c.perMinute, c.at);
      && Admits(r) == Script(e, c.perMinute, c.at).1
      && SameBalance(Some(Spend(r)), Some(Script(e, c.perMinute, c.at).0))
  {
    var b0 := if b.Some? then b.value else Fresh(c.perMinute, c.at);
    ReadyIsValid(b0, c.perMinute, c.at);
    if b.Some? {
      MulNonNegative(c.at - b0.last, Rate(c.perMinute));
    }
  }

  /** Clipping the balance when the limit changes and refilling afterwards, as one
      limiter does, agrees with refilling at the new rate and clipping once, as
      the other does: on the same calls they make the same decisions. */
  lemma {:induction false} LimitersAgree(b: Option<Bucket>, e: Option<Entry>, cs: seq<Call>, from: Instant)
    requires SameBalance(b, e) && (b.Some? ==> b.value.last <= from) && CallsInOrder(from, cs)
    ensures LocalDecisions(b, cs) == Verdicts(Decisions(e, cs, false))
    decreases |cs|
  {
    if cs != [] {
      SameBalanceStep(b, e, cs[0]);
      TailInOrder(from, cs);
      var r := Ready(if b.Some? then b.value else Fresh(cs[0].perMinute, cs[0].at), cs[0].perMinute, cs[0].at);
      var e' := Script(e, cs[0].perMinute, cs[0].at).0;
      LimitersAgree(Some(Spend(r)), Some(e'), cs[1..], cs[0].at);
      var ds := Decisions(Some(e'), cs[1..], false);
      assert Verdicts(Decisions(e, cs, false)) == [Admits(r)] + Verdicts(ds);
    }
  }
}
