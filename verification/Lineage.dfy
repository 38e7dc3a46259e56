/** Sub-flow lineage: the ancestor walk, the recursion guard, and what the guard
    keeps true of every family tree the table can ever hold. */
module Lineage {
  import opened Base
  import opened Rows
  import Protocol

  /** A parent row exists before its children do. */
  ghost predicate Linked(rows: seq<Run>) {
    forall i | 0 <= i < |rows| && rows[i].parent.Some? :: rows[i].parent.value < i
  }

  /** A run followed by all its ancestors, nearest first. */
  function Chain(rows: seq<Run>, i: RunId): (c: seq<RunId>)
    requires Linked(rows) && i < |rows|
    ensures |c| > 0 && c[0] == i
    ensures forall k | 0 <= k < |c| :: c[k] < |rows|
  {
    [i] + if rows[i].parent.None? then [] else Chain(rows, rows[i].parent.value)
  }

  /** The recursive query: the run at depth 1, then parents while the depth
      reached is below the cut-off. */
  function Walk(rows: seq<Run>, i: RunId, depth: nat, maxDepth: nat): (c: seq<RunId>)
    requires Linked(rows) && i < |rows|
    ensures |c| > 0 && c[0] == i
    ensures forall k | 0 <= k < |c| :: c[k] < |rows|
  {
    [i] +
    if rows[i].parent.None? || depth >= maxDepth then []
    else Walk(rows, rows[i].parent.value, depth + 1, maxDepth)
  }

  function Deployments(rows: seq<Run>, c: seq<RunId>): (d: seq<Option<string>>)
    requires forall k | 0 <= k < |c| :: c[k] < |rows|
    ensures |d| == |c|
    ensures forall k | 0 <= k < |c| :: d[k] == rows[c[k]].deployment
  {
    seq(|c|, k requires 0 <= k < |c| => rows[c[k]].deployment)
  }

  /** AncestorDeploymentIDs: the walk without the run itself. */
  function AncestorDeployments(rows: seq<Run>, i: RunId, maxDepth: int): seq<Option<string>>
    requires Linked(rows) && i < |rows|
  {
    Deployments(rows, Walk(rows, i, 1, if maxDepth <= 0 then 16 else maxDepth)[1..])
  }

  function DepthLimit(configured: int): nat { if configured <= 0 then 8 else configured }

  /** guardSubflow lets run `i` start deployment `target`. */
  predicate GuardPasses(rows: seq<Run>, i: RunId, target: string, configured: int)
    requires Linked(rows) && i < |rows|
  {
    var ancestors := AncestorDeployments(rows, i, DepthLimit(configured) + 2);
    |ancestors| < DepthLimit(configured) && Some(target) !in ancestors
  }

  /** guardSubflow itself, which loops over the ancestors. */
  method GuardSubflow(rows: seq<Run>, i: RunId, target: string, configured: int) returns (ok: bool)
    requires Linked(rows) && i < |rows|
    ensures ok <==> GuardPasses(rows, i, target, configured)
    ensures ok <==> MayStart(rows, i, target, configured)
  {
    GuardLooksToTheRoot(rows, i, target, configured);
    var max := DepthLimit(configured);
    var ancestors := AncestorDeployments(rows, i, max + 2);
    if |ancestors| >= max {
      return false;
    }
    for k := 0 to |ancestors|
      invariant Some(target) !in ancestors[..k]
    {
      if ancestors[k] == Some(target) {
        return false;
      }
    }
    ok := true;
  }

  lemma {:induction false} WalkIsPrefix(rows: seq<Run>, i: RunId, depth: nat, maxDepth: nat)
    requires Linked(rows) && i < |rows| && depth <= maxDepth
    ensures Walk(rows, i, depth, maxDepth) == Chain(rows, i)[..Min(|Chain(rows, i)|, maxDepth - depth + 1)]
    decreases maxDepth - depth
  {
    if rows[i].parent.Some? && depth < maxDepth {
      var p := rows[i].parent.value;
      WalkIsPrefix(rows, p, depth + 1, maxDepth);
      var k := Min(|Chain(rows, p)|, maxDepth - depth);
      assert ([i] + Chain(rows, p))[..k + 1] == [i] + Chain(rows, p)[..k];
    }
  }

  /** What AncestorDeploymentIDs returns: the deployments up the chain as far as the run
      at the given depth, sixteen by default, nearest first. */
  lemma AncestorsAre(rows: seq<Run>, i: RunId, maxDepth: int)
    requires Linked(rows) && i < |rows|
    ensures var up := Chain(rows, i);
      AncestorDeployments(rows, i, maxDepth)
      == Deployments(rows, up[1..Min(|up|, if maxDepth > 0 then maxDepth else 16)])
  {
    var max := if maxDepth > 0 then maxDepth else 16;
    WalkIsPrefix(rows, i, 1, max);
    var up := Chain(rows, i);
    assert up[..Min(|up|, max)][1..] == up[1..Min(|up|, max)];
  }

  /** Cutting the walk off at two past the limit never changes the answer: the
      guard decides as if it had walked to the root. */
  lemma CutOffIsHarmless(rows: seq<Run>, i: RunId, target: string, configured: int)
    requires Linked(rows) && i < |rows|
    ensures GuardPasses(rows, i, target, configured)
       <==> |Chain(rows, i)| <= DepthLimit(configured) && Some(target) !in Deployments(rows, Chain(rows, i)[1..])
  {
    var max := DepthLimit(configured);
    var chain := Chain(rows, i);
    WalkIsPrefix(rows, i, 1, max + 2);
    var walk := chain[..Min(|chain|, max + 2)];
    assert AncestorDeployments(rows, i, max + 2) == Deployments(rows, walk[1..]);
    if |chain| <= max + 2 {
      assert walk == chain;
    }
  }

  /** In terms of the family alone: the run has fewer ancestors than the limit, eight
      unless configured, and none of them runs the target. */
  ghost predicate MayStart(rows: seq<Run>, i: RunId, target: string, configured: int)
    requires Linked(rows) && i < |rows|
  {
    var family := Chain(rows, i);
    && |family| <= (if configured > 0 then configured else 8)
    && forall k | 1 <= k < |family| :: rows[family[k]].deployment != Some(target)
  }

  lemma GuardLooksToTheRoot(rows: seq<Run>, i: RunId, target: string, configured: int)
    requires Linked(rows) && i < |rows|
    ensures GuardPasses(rows, i, target, configured) <==> MayStart(rows, i, target, configured)
  {
    CutOffIsHarmless(rows, i, target, configured);
    NotAbove(rows, Chain(rows, i), target);
  }

  lemma NotAbove(rows: seq<Run>, family: seq<RunId>, target: string)
    requires |family| > 0 && forall k | 0 <= k < |family| :: family[k] < |rows|
    ensures Some(target) !in Deployments(rows, family[1..])
       <==> forall k | 1 <= k < |family| :: rows[family[k]].deployment != Some(target)
  {
    var d := Deployments(rows, family[1..]);
    assert forall k | 1 <= k < |family| :: d[k - 1] == rows[family[k]].deployment;
    if Some(target) in d {
      var j :| 0 <= j < |d| && d[j] == Some(target);
      assert rows[family[j + 1]].deployment == Some(target);
    }
  }

  /** Each run on a family's list is followed by its parent, and the last has none. */
  ghost predicate Climbs(rows: seq<Run>, c: seq<RunId>)
    requires |c| > 0 && forall k | 0 <= k < |c| :: c[k] < |rows|
  {
    && rows[c[|c| - 1]].parent.None?
    && forall j, k | 0 <= j < k < |c| && k == j + 1 :: rows[c[j]].parent == Some(c[k])
  }

  lemma {:induction false} ChainClimbs(rows: seq<Run>, i: RunId)
    requires Linked(rows) && i < |rows|
    ensures Climbs(rows, Chain(rows, i))
  {
    if rows[i].parent.Some? {
      ChainClimbs(rows, rows[i].parent.value);
      var c, rest := Chain(rows, i), Chain(rows, rows[i].parent.value);
      assert c == [i] + rest;
      assert forall k | 1 <= k < |c| :: c[k] == rest[k - 1];
    }
  }

  // -------------------------------------------------------------- family trees ---

  /** A deployment appears on a chain of runs at most twice, and then in
      neighbouring places: the guard does not look at the run's own deployment. */
  ghost predicate NoDistantRepeat(d: seq<Option<string>>) {
    forall j, k | 0 <= j < k < |d| && d[j].Some? && d[j] == d[k] :: k == j + 1
  }

  lemma AtMostTwice(d: seq<Option<string>>, a: nat, b: nat, c: nat)
    requires NoDistantRepeat(d) && a < b < c < |d| && d[a].Some?
    ensures !(d[a] == d[b] == d[c])
  {
  }

  ghost predicate Bounded(rows: seq<Run>, i: RunId, configured: int)
    requires Linked(rows) && i < |rows|
  {
    |Chain(rows, i)| <= DepthLimit(configured) + 1 && NoDistantRepeat(Deployments(rows, Chain(rows, i)))
  }

  ghost predicate WellBred(rows: seq<Run>, configured: int) {
    Linked(rows) && forall i | 0 <= i < |rows| :: Bounded(rows, i, configured)
  }

  /** What can happen to the links of the table. */
  datatype Change =
    | Root(n: NewRun, now: Time)                                  // API, schedule, automation
    | Trigger(parent: RunId, target: string, n: NewRun, now: Time) // a flow starting a deployment
    | DropDeployment(d: string)                                   // ON DELETE SET NULL
    | Statement(rows': seq<Run>)                                  // any other statement

  predicate SameLinks(a: seq<Run>, b: seq<Run>) {
    |a| == |b| && forall i | 0 <= i < |a| :: a[i].parent == b[i].parent && a[i].deployment == b[i].deployment
  }

  ghost predicate Allowed(rows: seq<Run>, c: Change, configured: int)
    requires Linked(rows)
  {
    match c
    case Root(n, _) => n.parent.None?
    case Trigger(p, target, n, _) =>
      p < |rows| && n.parent == Some(p) && n.deployment == Some(target) && GuardPasses(rows, p, target, configured)
    case DropDeployment(_) => true
    case Statement(rows') => SameLinks(rows, rows')
  }

  function Changed(rows: seq<Run>, c: Change): seq<Run> {
    match c
    case Root(n, now) => Insert(rows, n, now).0
    case Trigger(_, _, n, now) => Insert(rows, n, now).0
    case DropDeployment(d) =>
      seq(|rows|, i requires 0 <= i < |rows| =>
        if rows[i].deployment == Some(d) then rows[i].(deployment := None) else rows[i])
    case Statement(rows') => rows'
  }

  /** Every protocol step but creation is such a statement. */
  lemma StepsKeepLinks(s: Protocol.Sys, st: Protocol.Step)
    requires !st.Create?
    ensures SameLinks(s.rows, Protocol.Next(s, st).rows)
  {
    if Protocol.SingleRow(st) {
      if Protocol.Free(s, st.i) {
        TouchKeepsLinks(s.rows[st.i], s.now, st);
        assert Protocol.Next(s, st).rows == s.rows[st.i := Protocol.Touch(s.rows[st.i], s.now, st)];
      }
    } else if st.Write? {
      if Protocol.Applies(s, st.p, st.intent, st.force) {
        assert Protocol.Next(s, st).rows ==
               s.rows[s.snaps[st.p].run := Written(s.rows[s.snaps[st.p].run], st.intent)];
      }
    } else if !st.LeaseCommit? {
      assert Protocol.Next(s, st).rows == s.rows;
    }
  }

  lemma TouchKeepsLinks(r: Run, now: Time, st: Protocol.Step)
    requires Protocol.SingleRow(st)
    ensures Protocol.Touch(r, now, st).parent == r.parent && Protocol.Touch(r, now, st).deployment == r.deployment
  {
  }

  lemma {:induction false} ChainSurvives(rows: seq<Run>, rows': seq<Run>, i: RunId)
    requires Linked(rows) && Linked(rows') && i < |rows| <= |rows'|
    requires forall k | 0 <= k < |rows| :: rows[k].parent == rows'[k].parent
    ensures Chain(rows, i) == Chain(rows', i)
  {
    if rows[i].parent.Some? {
      ChainSurvives(rows, rows', rows[i].parent.value);
    }
  }

  /** Forgetting deployments can only remove repeats. */
  lemma BoundedSurvives(rows: seq<Run>, rows': seq<Run>, i: RunId, configured: int)
    requires Linked(rows) && Linked(rows') && i < |rows| <= |rows'|
    requires forall k | 0 <= k < |rows| ::
      rows[k].parent == rows'[k].parent && (rows'[k].deployment.None? || rows'[k].deployment == rows[k].deployment)
    requires Bounded(rows, i, configured)
    ensures Bounded(rows', i, configured)
  {
    ChainSurvives(rows, rows', i);
    var c := Chain(rows, i);
    var d, d' := Deployments(rows, c), Deployments(rows', c);
    assert forall k | 0 <= k < |c| :: d'[k].None? || d'[k] == d[k];
  }

  lemma PrependChild(t: Option<string>, d: seq<Option<string>>)
    requires NoDistantRepeat(d)
    requires forall k | 1 <= k < |d| :: d[k] != t
    ensures NoDistantRepeat([t] + d)
  {
    forall j, k | 0 <= j < k < |[t] + d| && ([t] + d)[j].Some? && ([t] + d)[j] == ([t] + d)[k] ensures k == j + 1 {
      assert ([t] + d)[k] == d[k - 1];
      if j > 0 {
        assert ([t] + d)[j] == d[j - 1];
      }
    }
  }

  /** The new row's chain is itself and then its parent's chain. */
  lemma NewChildChain(rows: seq<Run>, child: Run, p: RunId)
    requires Linked(rows) && p < |rows| && child.parent == Some(p)
    ensures Linked(rows + [child])
    ensures Chain(rows + [child], |rows|) == [|rows|] + Chain(rows, p)
  {
    var rows' := rows + [child];
    assert Linked(rows');
    ChainSurvives(rows, rows', p);
  }

  lemma NewChildDeployments(rows: seq<Run>, child: Run, up: seq<RunId>)
    requires forall k | 0 <= k < |up| :: up[k] < |rows|
    ensures Deployments(rows + [child], [|rows|] + up) == [child.deployment] + Deployments(rows, up)
  {
  }

  lemma NewChildIsBounded(rows: seq<Run>, n: NewRun, now: Time, p: RunId, target: string, configured: int)
    requires WellBred(rows, configured) && p < |rows|
    requires n.parent == Some(p) && n.deployment == Some(target) && GuardPasses(rows, p, target, configured)
    ensures Linked(rows + [FreshRow(n, now)])
    ensures Bounded(rows + [FreshRow(n, now)], |rows|, configured)
  {
    CutOffIsHarmless(rows, p, target, configured);
    NewChildChain(rows, FreshRow(n, now), p);
    NewChildDeployments(rows, FreshRow(n, now), Chain(rows, p));
    assert Bounded(rows, p, configured);
    var up := Chain(rows, p);
    var d := Deployments(rows, up);
    TargetIsNew(rows, up, target);
    PrependChild(Some(target), d);
  }

  lemma TargetIsNew(rows: seq<Run>, up: seq<RunId>, target: string)
    requires |up| > 0 && forall k | 0 <= k < |up| :: up[k] < |rows|
    requires Some(target) !in Deployments(rows, up[1..])
    ensures forall k | 1 <= k < |up| :: Deployments(rows, up)[k] != Some(target)
  {
    forall k | 1 <= k < |up| ensures Deployments(rows, up)[k] != Some(target) {
      assert Deployments(rows, up[1..])[k - 1] == Deployments(rows, up)[k];
    }
  }

  lemma NewRowIsBounded(rows: seq<Run>, c: Change, configured: int)
    requires WellBred(rows, configured) && Allowed(rows, c, configured) && (c.Root? || c.Trigger?)
    ensures Linked(rows + [FreshRow(c.n, c.now)]) && Bounded(rows + [FreshRow(c.n, c.now)], |rows|, configured)
  {
    if c.Trigger? {
      NewChildIsBounded(rows, c.n, c.now, c.parent, c.target, configured);
    }
  }

  lemma WellBredStep(rows: seq<Run>, c: Change, configured: int)
    requires WellBred(rows, configured) && Allowed(rows, c, configured)
    ensures WellBred(Changed(rows, c), configured)
  {
    var rows' := Changed(rows, c);
    if |rows'| > |rows| {
      assert rows' == rows + [FreshRow(c.n, c.now)];
      NewRowIsBounded(rows, c, configured);
    }
    assert Linked(rows');
    forall i | 0 <= i < |rows'| ensures Bounded(rows', i, configured) {
      if i < |rows| {
        assert Bounded(rows, i, configured);
        BoundedSurvives(rows, rows', i, configured);
      }
    }
  }

  /** The guard is asked before the child is inserted, and may be asked of an
      older table: nothing that happens in between can turn its yes into a no. */
  lemma GuardStaysOpen(rows: seq<Run>, rows': seq<Run>, p: RunId, target: string, configured: int)
    requires Linked(rows) && Linked(rows') && p < |rows| <= |rows'|
    requires forall k | 0 <= k < |rows| ::
      rows[k].parent == rows'[k].parent && (rows'[k].deployment.None? || rows'[k].deployment == rows[k].deployment)
    requires GuardPasses(rows, p, target, configured)
    ensures GuardPasses(rows', p, target, configured)
  {
    CutOffIsHarmless(rows, p, target, configured);
    CutOffIsHarmless(rows', p, target, configured);
    ChainSurvives(rows, rows', p);
    var up := Chain(rows, p)[1..];
    forall k | 0 <= k < |up| ensures Deployments(rows', up)[k] != Some(target) {
      assert Deployments(rows, up)[k] in Deployments(rows, up);
    }
  }

  ghost function ChangedAll(rows: seq<Run>, cs: seq<Change>): seq<Run>
    decreases |cs|
  {
    if cs == [] then rows else ChangedAll(Changed(rows, cs[0]), cs[1..])
  }

  ghost predicate AllAllowed(rows: seq<Run>, cs: seq<Change>, configured: int)
    decreases |cs|
  {
    cs == [] ||
    (Linked(rows) && Allowed(rows, cs[0], configured) && AllAllowed(Changed(rows, cs[0]), cs[1..], configured))
  }

  /** Bounded lineage: in every table reachable from an empty one, parent links
      are acyclic (each points to an earlier row), no run has more ancestors than
      the limit, and no deployment recurs on a chain except right after itself. */
  lemma {:induction false} LineageIsBounded(rows: seq<Run>, cs: seq<Change>, configured: int)
    requires WellBred(rows, configured) && AllAllowed(rows, cs, configured)
    ensures WellBred(ChangedAll(rows, cs), configured)
    decreases |cs|
  {
    if cs != [] {
      WellBredStep(rows, cs[0], configured);
      LineageIsBounded(Changed(rows, cs[0]), cs[1..], configured);
    }
  }
}
