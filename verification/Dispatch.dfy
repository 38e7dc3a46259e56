/** Dispatch order: the ORDER BY shared by the queue preview and the lease
    statement, and the proof that leasing takes what the preview shows. */
module Dispatch {
  import opened Base
  import opened States
  import opened Rows

  /** ORDER BY queue_position ASC NULLS LAST, priority DESC, scheduled_at ASC, created_at ASC. */
  predicate Before(a: Run, b: Run) {
    if a.position != b.position then
      a.position.Some? && (b.position.None? || a.position.value < b.position.value)
    else if a.priority != b.priority then a.priority > b.priority
    else if a.scheduledAt != b.scheduledAt then a.scheduledAt < b.scheduledAt
    else a.createdAt <= b.createdAt
  }

  predicate InTable(rows: seq<Run>, s: seq<RunId>) { forall k | 0 <= k < |s| :: s[k] < |rows| }

  ghost predicate Ordered(rows: seq<Run>, s: seq<RunId>)
    requires InTable(rows, s)
  {
    forall i, j | 0 <= i < j < |s| :: Before(rows[s[i]], rows[s[j]])
  }

  function WaitingSet(rows: seq<Run>, q: string): set<RunId> {
    set i | 0 <= i < |rows| && Waiting(rows[i], q)
  }

  function DueSet(rows: seq<Run>, q: string, now: Time): set<RunId> {
    set i | 0 <= i < |rows| && Due(rows[i], q, now)
  }

  /** `s` is a legal answer to: list exactly the rows of `ids`, in dispatch
      order. Rows equal on all four columns may come in either order. */
  ghost predicate Lists(rows: seq<Run>, ids: set<RunId>, s: seq<RunId>) {
    InTable(rows, s) && Distinct(s) && Elems(s) == ids && Ordered(rows, s)
  }

  /** What PendingInQueue previews, before its LIMIT. */
  ghost predicate Preview(rows: seq<Run>, q: string, s: seq<RunId>) { Lists(rows, WaitingSet(rows, q), s) }

  /** The members of a preview whose scheduled time has come. */
  function DueOf(rows: seq<Run>, now: Time, s: seq<RunId>): (r: seq<RunId>)
    requires InTable(rows, s)
    ensures InTable(rows, r)
  {
    if s == [] then []
    else (if rows[s[0]].scheduledAt <= now then [s[0]] else []) + DueOf(rows, now, s[1..])
  }

  /** A legal ORDER BY ... LIMIT n over `ids`: n rows (or all), in order, and no
      row left behind sorts strictly ahead of one that was taken. */
  ghost predicate TopOf(rows: seq<Run>, ids: set<RunId>, n: nat, s: seq<RunId>) {
    && InTable(rows, s) && Distinct(s) && Elems(s) <= ids && Ordered(rows, s)
    && |s| == Min(n, |ids|)
    && forall i, j | i in s && j in ids && j !in s && j < |rows| :: Before(rows[i], rows[j])
  }

  /** The documented order, for a row taken and a row left behind: pins jump the
      line, then urgency, then age. */
  lemma NothingJumpsTheLine(rows: seq<Run>, ids: set<RunId>, n: nat, s: seq<RunId>, i: RunId, j: RunId)
    requires TopOf(rows, ids, n, s) && i in s && j in ids && j !in s && j < |rows|
    ensures var (x, y) := (rows[i], rows[j]);
      && (y.position.Some? ==> x.position.Some? && x.position.value <= y.position.value)
      && (x.position == y.position ==> x.priority >= y.priority)
      && (x.position == y.position && x.priority == y.priority ==> x.scheduledAt <= y.scheduledAt)
      && (x.position == y.position && x.priority == y.priority && x.scheduledAt == y.scheduledAt ==>
            x.createdAt <= y.createdAt)
  {
    assert Before(rows[i], rows[j]);
  }

  function ActiveSet(rows: seq<Run>, q: string): set<RunId> {
    set i | 0 <= i < |rows| && rows[i].queue == q && IsActive(rows[i].state)
  }

  /** The LIMIT of the lease statement: LEAST(remaining, limit - active) floored
      at zero. A paused or unregistered queue yields no rows at all. */
  function Room(rows: seq<Run>, queues: map<string, Queue>, q: string, remaining: nat): nat {
    if q !in queues || queues[q].paused then 0
    else match queues[q].limit
      case None => remaining
      case Some(limit) => Max(Min(remaining, limit - |ActiveSet(rows, q)|), 0)
  }

  // ---------------------------------------------- previews exist and merge ---

  lemma BeforeTransitive(a: Run, b: Run, c: Run)
    requires Before(a, b) && Before(b, c)
    ensures Before(a, c)
  {
  }

  /** How many leading members of `s` sort strictly ahead of row `x`. */
  function Rank(rows: seq<Run>, s: seq<RunId>, x: RunId): (k: nat)
    requires InTable(rows, s) && x < |rows|
    ensures k <= |s|
    ensures k < |s| ==> Before(rows[x], rows[s[k]])
    ensures forall i | 0 <= i < k :: !Before(rows[x], rows[s[i]])
  {
    if s == [] || Before(rows[x], rows[s[0]]) then 0
    else 1 + Rank(rows, s[1..], x)
  }

  function InsertAt(s: seq<RunId>, k: nat, x: RunId): seq<RunId>
    requires k <= |s|
  {
    s[..k] + [x] + s[k..]
  }

  lemma InsertMembers(s: seq<RunId>, k: nat, x: RunId)
    requires k <= |s| && Distinct(s) && x !in s
    ensures Distinct(InsertAt(s, k, x)) && Elems(InsertAt(s, k, x)) == Elems(s) + {x}
  {
    assert s == s[..k] + s[k..];
    forall y ensures y in InsertAt(s, k, x) <==> y in s || y == x {}
  }

  /** Inserting a row at its earliest legal place keeps the order. */
  lemma InsertOrdered(rows: seq<Run>, s: seq<RunId>, x: RunId)
    requires InTable(rows, s) && Ordered(rows, s) && x < |rows|
    ensures InTable(rows, InsertAt(s, Rank(rows, s, x), x))
    ensures Ordered(rows, InsertAt(s, Rank(rows, s, x), x))
  {
    var k := Rank(rows, s, x);
    var t := InsertAt(s, k, x);
    forall i, j | 0 <= i < j < |t| ensures Before(rows[t[i]], rows[t[j]]) {
      InsertOrderedAt(rows, s, x, k, i, j);
    }
  }

  lemma InsertOrderedAt(rows: seq<Run>, s: seq<RunId>, x: RunId, k: nat, i: nat, j: nat)
    requires InTable(rows, s) && Ordered(rows, s) && x < |rows| && k <= |s| && i < j <= |s|
    requires (k < |s| ==> Before(rows[x], rows[s[k]])) && forall m | 0 <= m < k :: !Before(rows[x], rows[s[m]])
    ensures InTable(rows, InsertAt(s, k, x))
    ensures Before(rows[InsertAt(s, k, x)[i]], rows[InsertAt(s, k, x)[j]])
  {
    if j == k {
      assert !Before(rows[x], rows[s[i]]);
    } else if i == k && j > k + 1 {
      assert Before(rows[s[k]], rows[s[j - 1]]);
      BeforeTransitive(rows[x], rows[s[k]], rows[s[j - 1]]);
    }
  }

  lemma InsertLists(rows: seq<Run>, ids: set<RunId>, s: seq<RunId>, x: RunId)
    requires Lists(rows, ids, s) && x < |rows| && x !in ids
    ensures Lists(rows, ids + {x}, InsertAt(s, Rank(rows, s, x), x))
  {
    assert x !in s by { assert x !in Elems(s); }
    InsertMembers(s, Rank(rows, s, x), x);
    InsertOrdered(rows, s, x);
  }

  lemma {:induction false} ListingExists(rows: seq<Run>, ids: set<RunId>) returns (s: seq<RunId>)
    requires forall i | i in ids :: i < |rows|
    ensures Lists(rows, ids, s)
  {
    if ids == {} {
      s := [];
    } else {
      var x :| x in ids;
      var t := ListingExists(rows, ids - {x});
      InsertLists(rows, ids - {x}, t, x);
      s := InsertAt(t, Rank(rows, t, x), x);
      assert ids - {x} + {x} == ids;
    }
  }

  lemma DueOfMore(rows: seq<Run>, now: Time, x: RunId, s: seq<RunId>)
    requires x < |rows| && InTable(rows, s)
    ensures DueOf(rows, now, [x] + s) == (if rows[x].scheduledAt <= now then [x] else []) + DueOf(rows, now, s)
  {
    assert ([x] + s)[1..] == s;
  }

  lemma Regroup(a: seq<RunId>, b: seq<RunId>, c: seq<RunId>)
    ensures a + (b + c) == (a + b) + c
  {
  }

  lemma {:induction false} DueOfConcat(rows: seq<Run>, now: Time, a: seq<RunId>, b: seq<RunId>)
    requires InTable(rows, a) && InTable(rows, b)
    ensures InTable(rows, a + b)
    ensures DueOf(rows, now, a + b) == DueOf(rows, now, a) + DueOf(rows, now, b)
  {
    if a == [] {
      assert a + b == b;
    } else {
      var x, rest := a[0], a[1..];
      assert a == [x] + rest;
      Regroup([x], rest, b);
      DueOfConcat(rows, now, rest, b);
      DueOfMore(rows, now, x, rest + b);
      DueOfMore(rows, now, x, rest);
      Regroup(if rows[x].scheduledAt <= now then [x] else [], DueOf(rows, now, rest), DueOf(rows, now, b));
    }
  }

  lemma {:induction false} DueOfMembers(rows: seq<Run>, now: Time, s: seq<RunId>)
    requires InTable(rows, s) && Distinct(s) && Ordered(rows, s)
    ensures forall x :: x in DueOf(rows, now, s) <==> x in s && rows[x].scheduledAt <= now
    ensures Distinct(DueOf(rows, now, s)) && Ordered(rows, DueOf(rows, now, s))
  {
    if s != [] {
      DueOfMembers(rows, now, s[1..]);
    }
  }

  // ------------------------------------------------ the refinement, both ways ---

  /** Whatever the preview shows, taking its first due rows is a legal lease. */
  lemma PreviewPrefixIsLegal(rows: seq<Run>, q: string, now: Time, n: nat, s: seq<RunId>)
    requires Preview(rows, q, s)
    ensures TopOf(rows, DueSet(rows, q, now), n, DueOf(rows, now, s)[..Min(n, |DueOf(rows, now, s)|)])
  {
    DueOfMembers(rows, now, s);
    var d := DueOf(rows, now, s);
    var ids := DueSet(rows, q, now);
    assert Elems(d) == ids by {
      forall x ensures x in d <==> x in ids {
        assert x in s <==> x in Elems(s);
      }
    }
    DistinctCard(d);
    assert |d| == |ids|;
    var t := d[..Min(n, |d|)];
    assert Elems(t) <= Elems(d);
    forall i, j | i in t && j in ids && j !in t && j < |rows| ensures Before(rows[i], rows[j]) {
      assert j in Elems(d);
      var a :| 0 <= a < |t| && t[a] == i;
      var b :| 0 <= b < |d| && d[b] == j;
      assert b >= |t|;
    }
  }

  /** Every legal lease is the due prefix of some legal preview. The witness is
      built by inserting the taken rows, last first, ahead of their equals. */
  lemma LegalIsPreviewPrefix(rows: seq<Run>, q: string, now: Time, n: nat, t: seq<RunId>) returns (s: seq<RunId>)
    requires TopOf(rows, DueSet(rows, q, now), n, t)
    ensures Preview(rows, q, s)
    ensures t == DueOf(rows, now, s)[..Min(n, |DueOf(rows, now, s)|)]
  {
    var ids := WaitingSet(rows, q);
    assert forall x | x in t :: x in Elems(t);
    var s0 := ListingExists(rows, ids - Elems(t));
    DueOfMembers(rows, now, s0);
    var d0 := DueOf(rows, now, s0);
    forall k, j | 0 <= k < |t| && j in d0 && j < |rows| ensures Before(rows[t[k]], rows[j]) {
      assert j in s0 && j in Elems(s0);
      assert j in DueSet(rows, q, now) && j !in t;
      assert t[k] in t;
    }
    assert forall k | 0 <= k < |t| :: t[k] in Elems(t);
    s := InsertAll(rows, now, ids - Elems(t), s0, t);
    assert ids - Elems(t) + Elems(t) == ids;
    DueOfMembers(rows, now, s);
    var d := DueOf(rows, now, s);
    assert Elems(d) == DueSet(rows, q, now) by {
      forall x ensures x in d <==> x in DueSet(rows, q, now) {
        assert x in s <==> x in Elems(s);
      }
    }
    DistinctCard(d);
    assert d == t + d0;
  }

  ghost predicate FirstDueOf(rows: seq<Run>, now: Time, n: nat, s: seq<RunId>, t: seq<RunId>) {
    InTable(rows, s) && t == DueOf(rows, now, s)[..Min(n, |DueOf(rows, now, s)|)]
  }

  /** What the lease statement may take is exactly what some preview shows as
      its first `n` due rows: neither side knows an answer the other does not. */
  lemma LeaseRefinesPreview(rows: seq<Run>, q: string, now: Time, n: nat, t: seq<RunId>)
    ensures TopOf(rows, DueSet(rows, q, now), n, t)
       <==> exists s :: Preview(rows, q, s) && FirstDueOf(rows, now, n, s, t)
  {
    if TopOf(rows, DueSet(rows, q, now), n, t) {
      var s := LegalIsPreviewPrefix(rows, q, now, n, t);
      assert Preview(rows, q, s) && FirstDueOf(rows, now, n, s, t);
    }
    forall s | Preview(rows, q, s) && FirstDueOf(rows, now, n, s, t)
      ensures TopOf(rows, DueSet(rows, q, now), n, t)
    {
      PreviewPrefixIsLegal(rows, q, now, n, s);
    }
  }

  lemma {:induction false} InsertAll(rows: seq<Run>, now: Time, ids: set<RunId>, s0: seq<RunId>, t: seq<RunId>)
    returns (s: seq<RunId>)
    requires Lists(rows, ids, s0)
    requires InTable(rows, t) && Distinct(t) && Ordered(rows, t) && Elems(t) !! ids
    requires forall k | 0 <= k < |t| :: rows[t[k]].scheduledAt <= now
    requires forall k, j | 0 <= k < |t| && j in DueOf(rows, now, s0) && j < |rows| :: Before(rows[t[k]], rows[j])
    ensures Lists(rows, ids + Elems(t), s)
    ensures DueOf(rows, now, s) == t + DueOf(rows, now, s0)
  {
    if t == [] {
      s := s0;
      assert ids + Elems(t) == ids;
    } else {
      var x, rest := t[0], t[1..];
      assert Elems(t) == {x} + Elems(rest);
      var s1 := InsertAll(rows, now, ids, s0, rest);
      assert x !in ids + Elems(rest) by { assert x in Elems(t); }
      forall j | j in DueOf(rows, now, s1) && j < |rows| ensures Before(rows[x], rows[j]) {
        if j in rest {
          var m :| 0 <= m < |rest| && rest[m] == j;
          assert Before(rows[t[0]], rows[t[m + 1]]);
        }
      }
      s := InsertDue(rows, now, ids + Elems(rest), s1, x);
      assert ids + Elems(rest) + {x} == ids + Elems(t);
    }
  }

  /** Inserting a due row that sorts no later than any other due row puts it at
      the head of the due rows. */
  lemma InsertDue(rows: seq<Run>, now: Time, ids: set<RunId>, s: seq<RunId>, x: RunId) returns (s': seq<RunId>)
    requires Lists(rows, ids, s) && x < |rows| && x !in ids && rows[x].scheduledAt <= now
    requires forall j | j in DueOf(rows, now, s) && j < |rows| :: Before(rows[x], rows[j])
    ensures Lists(rows, ids + {x}, s')
    ensures DueOf(rows, now, s') == [x] + DueOf(rows, now, s)
  {
    var k := Rank(rows, s, x);
    InsertLists(rows, ids, s, x);
    s' := InsertAt(s, k, x);
    DueOfMembers(rows, now, s);
    forall m | 0 <= m < k ensures rows[s[m]].scheduledAt > now {
      assert s[m] in s && !Before(rows[x], rows[s[m]]);
    }
    NoneDue(rows, now, s[..k]);
    DueAfterInsert(rows, now, s, k, x);
  }

  lemma DueAfterInsert(rows: seq<Run>, now: Time, s: seq<RunId>, k: nat, x: RunId)
    requires InTable(rows, s) && k <= |s| && x < |rows| && rows[x].scheduledAt <= now
    requires DueOf(rows, now, s[..k]) == []
    ensures DueOf(rows, now, InsertAt(s, k, x)) == [x] + DueOf(rows, now, s)
  {
    var head, tail := s[..k], s[k..];
    assert s == head + tail;
    DueOfConcat(rows, now, head, tail);
    DueOfConcat(rows, now, head, [x] + tail);
    DueOfMore(rows, now, x, tail);
    Regroup(head, [x], tail);
  }

  lemma {:induction false} NoneDue(rows: seq<Run>, now: Time, s: seq<RunId>)
    requires InTable(rows, s)
    requires forall m | 0 <= m < |s| :: rows[s[m]].scheduledAt > now
    ensures DueOf(rows, now, s) == []
  {
    if s != [] {
      assert rows[s[0]].scheduledAt > now;
      NoneDue(rows, now, s[1..]);
    }
  }

  // ------------------------------------------------------- pinning to front ---

  /** The position MoveRunToFront computes: one ahead of the least pin in the
      queue, or zero when nothing is pinned. */
  function FrontPosition(rows: seq<Run>, q: string): (p: int)
    ensures forall j | 0 <= j < |rows| && rows[j].queue == q && rows[j].position.Some? :: p < rows[j].position.value
    ensures || (p == 0 && forall j | 0 <= j < |rows| && rows[j].queue == q :: rows[j].position.None?)
            || exists j :: 0 <= j < |rows| && rows[j].queue == q && rows[j].position == Some(p + 1)
  {
    if rows == [] then 0
    else
      var r := rows[|rows| - 1];
      var rest := rows[..|rows| - 1];
      if r.queue != q || r.position.None? then FrontPosition(rest, q)
      else if forall j | 0 <= j < |rest| :: rest[j].queue == q ==> rest[j].position.None? then r.position.value - 1
      else Min(FrontPosition(rest, q), r.position.value - 1)
  }

  function MovedToFront(rows: seq<Run>, i: RunId): seq<Run>
    requires i < |rows|
  {
    rows[i := Edited(rows[i], Pin(FrontPosition(rows, rows[i].queue)))]
  }

  function IndexOf(s: seq<RunId>, x: RunId): (k: nat)
    requires x in s
    ensures k < |s| && s[k] == x
  {
    if s[0] == x then 0 else 1 + IndexOf(s[1..], x)
  }

  function Without(s: seq<RunId>, x: RunId): seq<RunId>
    requires x in s
  {
    s[..IndexOf(s, x)] + s[IndexOf(s, x) + 1..]
  }

  lemma WithoutMembers(s: seq<RunId>, x: RunId)
    requires Distinct(s) && x in s
    ensures Distinct(Without(s, x)) && Elems(Without(s, x)) == Elems(s) - {x}
  {
    var k := IndexOf(s, x);
    var t := Without(s, x);
    assert forall i | 0 <= i < |t| :: t[i] == s[if i < k then i else i + 1];
    forall y ensures y in t <==> y in s && y != x {
      if y in s && y != x {
        var i :| 0 <= i < |s| && s[i] == y;
        assert y == t[if i < k then i else i - 1];
      }
    }
  }

  /** Removing one row from a listing lists the others, in the same order. */
  lemma WithoutLists(rows: seq<Run>, ids: set<RunId>, s: seq<RunId>, x: RunId)
    requires Lists(rows, ids, s) && x in s
    ensures Lists(rows, ids - {x}, Without(s, x))
  {
    var k := IndexOf(s, x);
    var t := Without(s, x);
    WithoutMembers(s, x);
    assert forall i | 0 <= i < |t| :: t[i] == s[if i < k then i else i + 1];
    forall i, j | 0 <= i < j < |t| ensures Before(rows[t[i]], rows[t[j]]) {
      var a, b := if i < k then i else i + 1, if j < k then j else j + 1;
      assert a < b && t[i] == s[a] && t[j] == s[b];
    }
  }

  /** Only the moved row's own pin changes, and it sorts strictly first. */
  lemma FrontSortsFirst(rows: seq<Run>, i: RunId, j: RunId)
    requires i < |rows| && j < |rows| && i != j && rows[j].queue == rows[i].queue
    ensures MovedToFront(rows, i)[j] == rows[j]
    ensures Before(MovedToFront(rows, i)[i], rows[j]) && !Before(rows[j], MovedToFront(rows, i)[i])
  {
  }

  lemma FrontKeepsWaiting(rows: seq<Run>, i: RunId)
    requires i < |rows|
    ensures WaitingSet(MovedToFront(rows, i), rows[i].queue) == WaitingSet(rows, rows[i].queue)
  {
  }

  /** A listing of rows other than `i` is the same listing before and after. */
  lemma FrontKeepsListing(rows: seq<Run>, i: RunId, ids: set<RunId>, s: seq<RunId>)
    requires i < |rows| && i !in ids
    ensures Lists(rows, ids, s) <==> Lists(MovedToFront(rows, i), ids, s)
  {
    var rows' := MovedToFront(rows, i);
    if InTable(rows, s) && Elems(s) == ids {
      forall a | 0 <= a < |s| ensures rows'[s[a]] == rows[s[a]] {
        assert s[a] in Elems(s);
      }
    }
  }

  /** "Run this one next": a waiting run moved to the front heads every preview
      of its queue, and what follows it is exactly a listing of the others in
      the order they had. */
  lemma FrontRunLeads(rows: seq<Run>, i: RunId, s: seq<RunId>)
    requires i < |rows| && Waiting(rows[i], rows[i].queue)
    requires Preview(MovedToFront(rows, i), rows[i].queue, s)
    ensures s != [] && s[0] == i
    ensures Lists(rows, WaitingSet(rows, rows[i].queue) - {i}, s[1..])
  {
    var rows' := MovedToFront(rows, i);
    var ids := WaitingSet(rows, rows[i].queue);
    FrontKeepsWaiting(rows, i);
    assert i in Elems(s);
    var k := IndexOf(s, i);
    if k > 0 {
      assert s[0] in Elems(s);
      assert Before(rows'[s[0]], rows'[s[k]]);
      FrontSortsFirst(rows, i, s[0]);
      assert false;
    }
    WithoutLists(rows', ids, s, i);
    assert Without(s, i) == s[1..];
    FrontKeepsListing(rows, i, ids - {i}, s[1..]);
  }

  /** The other direction: the old order with `i` pulled out and put first is a
      legal preview after the move. */
  lemma OldOrderStaysLegal(rows: seq<Run>, i: RunId, s: seq<RunId>)
    requires i < |rows| && Waiting(rows[i], rows[i].queue)
    requires Preview(rows, rows[i].queue, s)
    ensures i in s
    ensures Preview(MovedToFront(rows, i), rows[i].queue, [i] + Without(s, i))
  {
    var rows' := MovedToFront(rows, i);
    var ids := WaitingSet(rows, rows[i].queue);
    FrontKeepsWaiting(rows, i);
    assert i in Elems(s);
    WithoutLists(rows, ids, s, i);
    var w := Without(s, i);
    FrontKeepsListing(rows, i, ids - {i}, w);
    assert Elems([i] + w) == {i} + Elems(w) == ids;
    forall a, b | 0 <= a < b < |[i] + w| ensures Before(rows'[([i] + w)[a]], rows'[([i] + w)[b]]) {
      assert ([i] + w)[b] == w[b - 1] && w[b - 1] in Elems(w);
      if a == 0 {
        FrontSortsFirst(rows, i, w[b - 1]);
      } else {
        assert ([i] + w)[a] == w[a - 1];
      }
    }
    assert Distinct([i] + w) by {
      assert i !in Elems(w);
    }
  }

  // --------------------------------------------------------- operator controls ---

  /** The queue controls move a run in the order, or to another queue, and do nothing
      else to it; priorities stay between 0 and 100. */
  lemma ControlsOnlyMove(r: Run, e: Edit)
    ensures var t := Edited(r, e);
      && t == r.(priority := t.priority, position := t.position, scheduledAt := t.scheduledAt, queue := t.queue)
      && (0 <= r.priority <= 100 ==> 0 <= t.priority <= 100)
      && (e.SetPriority? && 0 <= e.p <= 100 ==> t.priority == e.p)
      && (e.SetPriority? && !(0 <= e.p <= 100) ==> t.priority == if e.p < 0 then 0 else 100)
      && (t.priority != r.priority ==> e.SetPriority? || e.ToBack?)
      && (t.scheduledAt != r.scheduledAt ==> e.ToBack?)
      && t.queue == (if e.MoveTo? then e.q else r.queue)
      && t.position == match e
                       case SetPriority(_) => r.position
                       case Pin(at) => Some(at)
                       case _ => None
  {
  }

  /** A run sent to the back waits behind every pinned run, and behind every unpinned
      one that came earlier unless that one's priority is more than 25 below. */
  lemma BackOfTheLine(r: Run, other: Run, now: Time)
    requires other.scheduledAt < now
    ensures var t := Edited(r, ToBack(now));
      Before(other, t) && !Before(t, other) <==> other.position.Some? || other.priority >= Max(r.priority - 25, 0)
  {
  }
}
