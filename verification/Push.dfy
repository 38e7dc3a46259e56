/** Push dispatch: hold a ready run, notify its endpoint, release it on refusal. */
module Push {
  import opened Base
  import opened States
  import opened Rows
  import opened Dispatch
  import opened S = Store

  const HOLD: Time := 120 * SECOND

  const BATCH := 20

  datatype Pool = Pool(name: string, push: bool, endpoint: string, paused: bool)

  predicate Served(p: Pool) { p.push && p.endpoint != "" && !p.paused }

  /** Listed by PushReadyRuns. */
  predicate Ready(r: Run, q: string, now: Time) { Due(r, q, now) && Holdable(r, now) }

  function ReadySet(rows: seq<Run>, q: string, now: Time): set<RunId> {
    set i | 0 <= i < |rows| && Ready(rows[i], q, now)
  }

  /** Held while the endpoint is told of it, and let go again if it was not. */
  function Notified(r: Run, delivered: bool, now: Time): Run {
    if !Holdable(r, now) then r else if delivered then Held(r, now + HOLD) else Released(Held(r, now + HOLD))
  }

  /** The same in the row's own columns. */
  predicate ToldAs(r: Run, delivered: bool, now: Time, t: Run) {
    if r.state != Scheduled || (r.worker.Some? && r.lease.Some? && now <= r.lease.value) then t == r
    else if delivered then t == r.(worker := Some("push-dispatch"), lease := Some(now + 120_000_000_000))
    else t == r.(worker := None, lease := None)
  }

  ghost predicate ReadyPage(rows: seq<Run>, q: string, limit: int, now: Time, s: seq<RunId>, full: seq<RunId>) {
    && Lists(rows, ReadySet(rows, q, now), full)
    && s == full[..Min(if limit <= 0 || limit > 200 then 50 else limit, |full|)]
  }

  method PushReadyRuns(st: S.Store, q: string, limit: int, now: Time) returns (s: seq<RunId>)
    ensures exists full :: ReadyPage(st.rows, q, limit, now, s, full)
    ensures |s| <= (if 1 <= limit <= 200 then limit else 50)
    ensures forall i | i in s :: i < |st.rows| && IsReady(st.rows[i], q, now)
    ensures forall i | 0 <= i < |st.rows| && IsReady(st.rows[i], q, now) && i !in s ::
      && |s| == (if 1 <= limit <= 200 then limit else 50)
      && forall j | j in s && j < |st.rows| :: Before(st.rows[j], st.rows[i])
  {
    var full := st.OrderBy(ReadySet(st.rows, q, now));
    s := full[..Min(if limit <= 0 || limit > 200 then 50 else limit, |full|)];
    assert ReadyPage(st.rows, q, limit, now, s, full);
    PageLeads(st.rows, q, limit, now, s, full);
  }

  /** What the endpoint of a queue may be told of: a due run that nobody holds, or only
      under a hold that has lapsed. */
  predicate IsReady(r: Run, q: string, now: Time) {
    && r.queue == q && r.state == Scheduled && !r.cancel && r.scheduledAt <= now
    && !(r.worker.Some? && r.lease.Some? && now <= r.lease.value)
  }

  /** A page is short only when it is complete, and what it leaves out comes after it. */
  lemma PageLeads(rows: seq<Run>, q: string, limit: int, now: Time, s: seq<RunId>, full: seq<RunId>)
    requires ReadyPage(rows, q, limit, now, s, full)
    ensures |s| <= (if 1 <= limit <= 200 then limit else 50)
    ensures forall i | i in s :: i < |rows| && IsReady(rows[i], q, now)
    ensures forall i | 0 <= i < |rows| && IsReady(rows[i], q, now) && i !in s ::
      |s| == (if 1 <= limit <= 200 then limit else 50) && forall j | j in s && j < |rows| :: Before(rows[j], rows[i])
  {
    forall i | i in s ensures i < |rows| && IsReady(rows[i], q, now) {
      assert i in Elems(full);
    }
    forall i | 0 <= i < |rows| && IsReady(rows[i], q, now) && i !in s
      ensures |s| == (if 1 <= limit <= 200 then limit else 50)
      ensures forall j | j in s && j < |rows| :: Before(rows[j], rows[i])
    {
      assert i in ReadySet(rows, q, now) && i in Elems(full);
      var b :| 0 <= b < |full| && full[b] == i;
      assert b >= |s|;
    }
  }

  method DispatchOne(st: S.Store, id: RunId, delivered: bool, now: Time)
    requires id < |st.rows|
    modifies st`rows
    ensures st.rows == old(st.rows)[id := Notified(old(st.rows)[id], delivered, now)]
    ensures ToldAs(old(st.rows)[id], delivered, now, st.rows[id])
  {
    var held := st.MarkPushDispatched(id, HOLD, now);
    if held && !delivered {
      st.ClearPushDispatch(id);
    }
  }

  /** What a dispatch cycle leaves of row `i` of the pool's queue: notified if it is
      among the first BATCH ready runs, in dispatch order, of a served pool. */
  function Turned(r: Run, i: RunId, p: Pool, full: seq<RunId>, delivered: RunId -> bool, now: Time): Run {
    if Served(p) && i in full[..Min(BATCH, |full|)] then Notified(r, delivered(i), now) else r
  }

  method DispatchPool(st: S.Store, p: Pool, delivered: RunId -> bool, now: Time) returns (ghost full: seq<RunId>)
    modifies st`rows
    ensures Lists(old(st.rows), ReadySet(old(st.rows), p.name, now), full)
    ensures |st.rows| == |old(st.rows)|
    ensures forall i | 0 <= i < |st.rows| :: st.rows[i] == Turned(old(st.rows)[i], i, p, full, delivered, now)
  {
    ghost var rows0 := st.rows;
    if !Served(p) {
      full := ListingExists(rows0, ReadySet(rows0, p.name, now));
      return;
    }
    var batch := PushReadyRuns(st, p.name, BATCH, now);
    full :| ReadyPage(rows0, p.name, BATCH, now, batch, full);
    for k := 0 to |batch|
      invariant |st.rows| == |rows0|
      invariant forall i | 0 <= i < |rows0| ::
        st.rows[i] == if i in batch[..k] then Notified(rows0[i], delivered(i), now) else rows0[i]
    {
      assert batch[k] in Elems(full) && batch[k] !in batch[..k];
      assert batch[..k + 1] == batch[..k] + [batch[k]];
      DispatchOne(st, batch[k], delivered(batch[k]), now);
    }
    assert batch[..|batch|] == batch;
  }

  /** Two tables that agree on the rows of a queue. */
  predicate SameQueue(rows: seq<Run>, rows': seq<Run>, q: string) {
    |rows| == |rows'| && forall i | 0 <= i < |rows| ::
      rows[i].queue == rows'[i].queue && (rows[i].queue == q ==> rows[i] == rows'[i])
  }

  lemma SameListing(rows: seq<Run>, rows': seq<Run>, q: string, now: Time, full: seq<RunId>)
    requires SameQueue(rows, rows', q) && Lists(rows', ReadySet(rows', q, now), full)
    ensures Lists(rows, ReadySet(rows, q, now), full)
  {
    forall i | 0 <= i < |rows| ensures Ready(rows[i], q, now) == Ready(rows'[i], q, now) {}
    assert ReadySet(rows, q, now) == ReadySet(rows', q, now);
    forall k | 0 <= k < |full| ensures rows[full[k]] == rows'[full[k]] {
      assert full[k] in Elems(full);
    }
  }

  /** pushDispatch: every pool has its turn on the table as it was. */
  method PushDispatch(st: S.Store, pools: seq<Pool>, delivered: RunId -> bool, now: Time)
    returns (ghost fulls: seq<seq<RunId>>)
    requires forall j, k | 0 <= j < k < |pools| :: pools[j].name != pools[k].name
    modifies st`rows
    ensures |fulls| == |pools| && |st.rows| == |old(st.rows)|
    ensures forall k | 0 <= k < |pools| :: Lists(old(st.rows), ReadySet(old(st.rows), pools[k].name, now), fulls[k])
    ensures forall i, k | 0 <= i < |st.rows| && 0 <= k < |pools| && old(st.rows)[i].queue == pools[k].name ::
      st.rows[i] == Turned(old(st.rows)[i], i, pools[k], fulls[k], delivered, now)
    ensures forall i, k | 0 <= i < |st.rows| && 0 <= k < |pools| && old(st.rows)[i].queue == pools[k].name ::
      if pools[k].push && pools[k].endpoint != "" && !pools[k].paused && i in fulls[k][..Min(20, |fulls[k]|)]
      then ToldAs(old(st.rows)[i], delivered(i), now, st.rows[i])
      else st.rows[i] == old(st.rows)[i]
    ensures forall i, k | 0 <= i < |st.rows| && 0 <= k < |pools| ::
      i in fulls[k] <==> IsReady(old(st.rows)[i], pools[k].name, now)
    ensures forall i | 0 <= i < |st.rows| && (forall k | 0 <= k < |pools| :: old(st.rows)[i].queue != pools[k].name) ::
      st.rows[i] == old(st.rows)[i]
  {
    ghost var rows0 := st.rows;
    fulls := [];
    for n := 0 to |pools|
      invariant |fulls| == n && |st.rows| == |rows0|
      invariant forall k | 0 <= k < n :: Lists(rows0, ReadySet(rows0, pools[k].name, now), fulls[k])
      invariant forall i, k | 0 <= i < |rows0| && 0 <= k < n && rows0[i].queue == pools[k].name ::
        st.rows[i] == Turned(rows0[i], i, pools[k], fulls[k], delivered, now)
      invariant forall i | 0 <= i < |rows0| && (forall k | 0 <= k < n :: rows0[i].queue != pools[k].name) ::
        st.rows[i] == rows0[i]
      invariant forall i | 0 <= i < |rows0| :: st.rows[i].queue == rows0[i].queue
    {
      ghost var before := st.rows;
      ghost var full := DispatchPool(st, pools[n], delivered, now);
      assert SameQueue(rows0, before, pools[n].name);
      OnlyItsQueue(before, pools[n], full, delivered, now);
      SameListing(rows0, before, pools[n].name, now, full);
      fulls := fulls + [full];
    }
    forall i, k | 0 <= i < |rows0| && 0 <= k < |pools|
      ensures i in fulls[k] <==> IsReady(rows0[i], pools[k].name, now)
    {
      assert Lists(rows0, ReadySet(rows0, pools[k].name, now), fulls[k]);
      assert i in fulls[k] <==> i in Elems(fulls[k]);
    }
  }

  lemma OnlyItsQueue(rows: seq<Run>, p: Pool, full: seq<RunId>, delivered: RunId -> bool, now: Time)
    requires Lists(rows, ReadySet(rows, p.name, now), full)
    ensures forall i | 0 <= i < |rows| ::
      var t := Turned(rows[i], i, p, full, delivered, now);
      t.queue == rows[i].queue && (rows[i].queue != p.name ==> t == rows[i])
  {
    forall i | 0 <= i < |rows| && i in full ensures rows[i].queue == p.name {
      assert i in Elems(full);
    }
  }

  /** A notified run stays exactly where it was in the queue and uses up no
      attempt: only its hold differs. It is ready again at once if and only if it
      could not be delivered; a delivered one becomes ready when its hold lapses. */
  lemma NotifyOnlyHolds(r: Run, q: string, delivered: bool, now: Time, later: Time)
    requires Ready(r, q, now) && later >= now
    ensures var t := Notified(r, delivered, now);
      && t == r.(worker := t.worker, lease := t.lease) && (t.worker.Some? <==> t.lease.Some?)
      && (Ready(t, q, later) <==> !delivered || later > now + HOLD)
  {
  }

  /** The janitor never touches a held run: it is waiting, not running, so when
      nobody claims it, it is offered again rather than crashed. */
  lemma HeldIsNeverReclaimed(r: Run, q: string, now: Time, later: Time)
    requires Ready(r, q, now)
    ensures !Expired(Notified(r, true, now), later)
    ensures later > now + HOLD ==> Ready(Notified(r, true, now), q, later)
  {
  }

  /** A receiver that was told of a run can claim it, whoever holds it, and nobody
      else can after that. */
  lemma OneReceiverClaims(rows: seq<Run>, id: RunId, delivered: bool, now: Time, w: string, w': string, exp: Time)
    requires id < |rows| && Holdable(rows[id], now) && w != w'
    ensures var told := rows[id := Notified(rows[id], delivered, now)];
      Claimable(told[id], w) && !Claimable(ClaimedRows(told, id, w, exp)[id], w')
  {
  }
}
