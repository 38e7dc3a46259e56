/** The strings that identify things across replays and replicas: checkpoint
    keys and idempotency keys, and why no two of them collide. */
module Keys {
  import opened Base

  // ------------------------------------------------------------------ decimal ---

  predicate IsDigit(c: char) { '0' <= c <= '9' }

  predicate AllDigits(s: string) { forall i | 0 <= i < |s| :: IsDigit(s[i]) }

  function Digit(d: nat): (c: char)
    requires d < 10
    ensures IsDigit(c)
  {
    '0' + d as char
  }

  /** %d of a natural number. */
  function Dec(n: nat): (s: string)
    ensures s != [] && AllDigits(s)
  {
    (if n < 10 then "" else Dec(n / 10)) + [Digit(n % 10)]
  }

  /** %d of an integer. */
  function DecInt(n: int): string { if n < 0 then "-" + Dec(-n) else Dec(n) }

  function Undigit(c: char): nat
    requires IsDigit(c)
  {
    (c - '0') as nat
  }

  /** Reading a decimal back. */
  function Undec(s: string): nat
    requires AllDigits(s)
  {
    if s == [] then 0 else 10 * Undec(s[..|s| - 1]) + Undigit(s[|s| - 1])
  }

  lemma {:induction false} DecRoundTrip(n: nat)
    ensures Undec(Dec(n)) == n
  {
    var s := Dec(n);
    if n < 10 {
      assert s == [Digit(n)];
      assert s[..|s| - 1] == [];
    } else {
      DecRoundTrip(n / 10);
      assert s[..|s| - 1] == Dec(n / 10);
    }
  }

  function UndecInt(s: string): int
    requires s != [] && AllDigits(s[1..]) && (s[0] == '-' || AllDigits(s))
  {
    if s[0] == '-' then 0 - Undec(s[1..]) else Undec(s)
  }

  lemma DecIntRoundTrip(n: int)
    ensures AllDigits(DecInt(n)[1..]) && (DecInt(n)[0] == '-' || AllDigits(DecInt(n)))
    ensures UndecInt(DecInt(n)) == n
  {
    if n < 0 {
      MinusReads(Dec(-n));
      DecRoundTrip(-n);
    } else {
      DigitsRead(Dec(n));
      DecRoundTrip(n);
    }
  }

  lemma MinusReads(s: string)
    requires s != [] && AllDigits(s)
    ensures AllDigits(("-" + s)[1..]) && UndecInt("-" + s) == 0 - Undec(s)
  {
    assert ("-" + s)[1..] == s;
  }

  lemma DigitsRead(s: string)
    requires s != [] && AllDigits(s)
    ensures s[0] != '-' && AllDigits(s[1..])
    ensures UndecInt(s) == Undec(s)
  {
    assert IsDigit(s[0]);
  }

  // --------------------------------------------------------------- separators ---

  /** What stands before the last `c`, and how much after it. */
  function LastAt(s: string, c: char): nat
    requires c in s
  {
    if s[|s| - 1] == c then |s| - 1 else assert s == s[..|s| - 1] + [s[|s| - 1]]; LastAt(s[..|s| - 1], c)
  }

  lemma {:induction false} LastSeparator(a: string, x: string, c: char)
    requires c !in x
    ensures c in a + [c] + x && LastAt(a + [c] + x, c) == |a|
  {
    var s := a + [c] + x;
    assert s[|a|] == c;
    if x != [] {
      var y := x[..|x| - 1];
      assert s[..|s| - 1] == a + [c] + y;
      assert s[|s| - 1] == x[|x| - 1];
      LastSeparator(a, y, c);
    }
  }

  /** A string splits in one way at the last separator. */
  lemma SplitLast(a: string, x: string, b: string, y: string, c: char)
    requires a + [c] + x == b + [c] + y
    requires c !in x && c !in y
    ensures a == b && x == y
  {
    LastSeparator(a, x, c);
    LastSeparator(b, y, c);
    var s, t := a + [c] + x, b + [c] + y;
    assert a == s[..|a|] && b == t[..|b|];
    assert x == s[|a| + 1..] && y == t[|b| + 1..];
  }

  function FirstAt(s: string, c: char): nat
    requires c in s
  {
    if s[0] == c then 0 else 1 + FirstAt(s[1..], c)
  }

  lemma {:induction false} FirstSeparator(a: string, x: string, c: char)
    requires c !in a
    ensures c in a + [c] + x && FirstAt(a + [c] + x, c) == |a|
  {
    var s := a + [c] + x;
    assert s[|a|] == c;
    if a != [] {
      assert s[0] == a[0];
      assert s[1..] == a[1..] + [c] + x;
      FirstSeparator(a[1..], x, c);
    }
  }

  /** And in one way at the first. */
  lemma SplitFirst(a: string, x: string, b: string, y: string, c: char)
    requires a + [c] + x == b + [c] + y
    requires c !in a && c !in b
    ensures a == b && x == y
  {
    FirstSeparator(a, x, c);
    FirstSeparator(b, y, c);
    var s, t := a + [c] + x, b + [c] + y;
    assert a == s[..|a|] && b == t[..|b|];
    assert x == s[|a| + 1..] && y == t[|b| + 1..];
  }

  // --------------------------------------------------------- idempotency keys ---

  /** "child:<run id>:<checkpoint key>" */
  function ChildKey(runId: string, key: string): string { "child:" + runId + ":" + key }

  /** "<deployment id>@<unix second>" */
  function ScheduleKey(deployment: string, second: int): string { deployment + "@" + DecInt(second) }

  /** Ids are UUIDs; all that matters here is what they do not contain. */
  predicate IsId(s: string) { ':' !in s && '@' !in s }

  lemma ChildKeyInjective(r: string, k: string, r': string, k': string)
    requires IsId(r) && IsId(r')
    requires ChildKey(r, k) == ChildKey(r', k')
    ensures r == r' && k == k'
  {
    assert ChildKey(r, k)[6..] == r + [':'] + k;
    assert ChildKey(r', k')[6..] == r' + [':'] + k';
    SplitFirst(r, k, r', k', ':');
  }

  lemma ScheduleKeyInjective(d: string, t: int, d': string, t': int)
    requires ScheduleKey(d, t) == ScheduleKey(d', t')
    ensures d == d' && t == t'
  {
    NoAt(t);
    NoAt(t');
    assert ScheduleKey(d, t) == d + ['@'] + DecInt(t);
    assert ScheduleKey(d', t') == d' + ['@'] + DecInt(t');
    SplitLast(d, DecInt(t), d', DecInt(t'), '@');
    DecIntRoundTrip(t);
    DecIntRoundTrip(t');
  }

  lemma NoAt(t: int)
    ensures '@' !in DecInt(t) && ':' !in DecInt(t)
  {
    if t < 0 {
      assert forall c | c in DecInt(t) :: c == '-' || c in Dec(-t);
    }
  }

  /** A sub-flow's key is never a schedule's key. */
  lemma ChildIsNotScheduled(r: string, k: string, d: string, t: int)
    requires IsId(d)
    ensures ChildKey(r, k) != ScheduleKey(d, t)
  {
    NoAt(t);
    assert ChildKey(r, k)[5] == ':';
    assert ':' !in ScheduleKey(d, t);
  }

  // ---------------------------------------------------------- checkpoint keys ---

  /** How a checkpoint came by its key: generated from a task's name and the
      order it was reached in, pinned by the author, a named wait, or a sub-flow. */
  datatype Key =
    | Auto(name: string, n: nat)
    | Pinned(s: string)
    | WaitKey(s: string)
    | Sub(name: string, n: nat)

  function Generated(name: string, n: nat): string { name + "-" + Dec(n) }

  /** The string stored in the checkpoint table. */
  function Render(k: Key): string {
    match k
    case Auto(name, n) => Generated(name, n)
    case Pinned(s) => s
    case WaitKey(s) => "wait:" + s
    case Sub(name, n) => Generated("subflow:" + name, n)
  }

  /** What authors must leave to the SDK: its own prefixes, and pinned keys that
      look generated. Nothing in the SDK enforces it. */
  ghost predicate Tame(k: Key) {
    match k
    case Auto(name, _) => !("wait:" <= name) && !("subflow:" <= name)
    case Pinned(s) => !("wait:" <= s) && !("subflow:" <= s) && forall name, n :: s != Generated(name, n)
    case WaitKey(s) => true
    case Sub(_, _) => true
  }

  /** name-n is injective in (name, n). */
  lemma GeneratedInjective(a: string, m: nat, b: string, n: nat)
    requires Generated(a, m) == Generated(b, n)
    ensures a == b && m == n
  {
    SplitLast(a, Dec(m), b, Dec(n), '-');
    DecRoundTrip(m);
    DecRoundTrip(n);
  }

  /** No two checkpoints of a run share a row unless they are the same step. */
  lemma RenderInjective(a: Key, b: Key)
    requires Tame(a) && Tame(b) && Render(a) == Render(b)
    ensures a == b
  {
    PrefixOf(a);
    PrefixOf(b);
    match (a, b)
    case (Auto(x, m), Auto(y, n)) => GeneratedInjective(x, m, y, n);
    case (Sub(x, m), Sub(y, n)) =>
      GeneratedInjective("subflow:" + x, m, "subflow:" + y, n);
      assert ("subflow:" + x)[8..] == x && ("subflow:" + y)[8..] == y;
    case (WaitKey(x), WaitKey(y)) => assert ("wait:" + x)[5..] == x && ("wait:" + y)[5..] == y;
    case _ =>
  }

  /** The stored string shows which kind of step it belongs to. */
  lemma PrefixOf(k: Key)
    requires Tame(k)
    ensures k.WaitKey? <==> "wait:" <= Render(k)
    ensures k.Sub? <==> "subflow:" <= Render(k)
    ensures k.Pinned? ==> forall name, n :: Render(k) != Generated(name, n)
  {
    match k
    case Auto(name, n) =>
      GeneratedPrefix("wait:", name, n);
      GeneratedPrefix("subflow:", name, n);
    case Pinned(s) =>
    case WaitKey(s) =>
      assert ("wait:" + s)[0] == 'w';
      assert "subflow:"[0] == 's';
    case Sub(name, n) =>
      assert Render(k)[0] == 's';
      assert "wait:"[0] == 'w';
      assert "subflow:" <= "subflow:" + name;
  }

  /** Neither prefix can end inside the generated suffix. */
  lemma GeneratedPrefix(p: string, name: string, n: nat)
    requires '-' !in p
    ensures p <= Generated(name, n) <==> p <= name
  {
    var g := Generated(name, n);
    assert g[|name|] == '-' && g[..|name|] == name;
    if |p| <= |name| {
      assert g[..|p|] == name[..|p|];
    } else {
      assert p[|name|] in p;
    }
  }
}
