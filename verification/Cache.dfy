/** The checkpoint table across runs, and the result cache read out of it. */
module Cache {
  import opened Base
  import opened Attempts
  import opened Replay

  /** A checkpoint is found by its run and its key. */
  type Place = (string, string)

  datatype TaskRun = TaskRun(cp: Cp, cacheKey: Option<string>, until: Option<Time>, updated: Time)

  type TaskTable = map<Place, TaskRun>

  /** A completed result under a cache key that has not expired. */
  predicate Hit(t: TaskRun, cacheKey: string, now: Time) {
    t.cacheKey == Some(cacheKey) && t.cp.status.Done? && (t.until.None? || t.until.value > now)
  }

  predicate Newest(rows: TaskTable, cacheKey: string, now: Time, p: Place) {
    p in rows && Hit(rows[p], cacheKey, now)
    && forall q | q in rows && Hit(rows[q], cacheKey, now) :: rows[q].updated <= rows[p].updated
  }

  /** What SaveCheckpoint puts in the cache columns. */
  function Stamped(cp: Cp, cacheKey: string, ttl: Time, now: Time): TaskRun {
    TaskRun(cp, if cacheKey == "" then None else Some(cacheKey),
            if cacheKey != "" && ttl > 0 then Some(now + ttl) else None, now)
  }

  class TaskRuns {
    var rows: TaskTable

    constructor ()
      ensures rows == map[]
    {
      rows := map[];
    }

    method GetTaskRun(p: Place) returns (t: Option<TaskRun>)
      ensures t == if p in rows then Some(rows[p]) else None
    {
      t := if p in rows then Some(rows[p]) else None;
    }

    method UpsertTaskRun(p: Place, t: TaskRun)
      modifies this
      ensures rows == old(rows)[p := t]
      ensures forall cacheKey, now | Hit(t, cacheKey, now) && (forall q | q in rows :: rows[q].updated <= t.updated) ::
        Newest(rows, cacheKey, now, p)
    {
      rows := rows[p := t];
    }

    /** The newest live result, if there is any. */
    method FindCachedResult(cacheKey: string, now: Time) returns (p: Option<Place>)
      ensures p.Some? ==> Newest(rows, cacheKey, now, p.value)
      ensures p.None? ==> forall q | q in rows :: !Hit(rows[q], cacheKey, now)
    {
      p := None;
      var rest := rows.Keys;
      while rest != {}
        invariant rest <= rows.Keys
        invariant p.Some? ==> p.value in rows && Hit(rows[p.value], cacheKey, now)
        invariant forall q | q in rows && q !in rest && Hit(rows[q], cacheKey, now) ::
          p.Some? && rows[q].updated <= rows[p.value].updated
      {
        var q :| q in rest;
        if Hit(rows[q], cacheKey, now) && (p.None? || rows[p.value].updated < rows[q].updated) {
          p := Some(q);
        }
        rest := rest - {q};
      }
    }
  }

  /** How long a saved result is shared: under its key alone, only once it is complete,
      for its time to live, and for ever without one. */
  lemma SharedFor(cp: Cp, cacheKey: string, ttl: Time, at: Time, asked: string, now: Time)
    ensures Hit(Stamped(cp, cacheKey, ttl, at), asked, now)
       <==> cp.status.Done? && asked != "" && asked == cacheKey && (ttl > 0 ==> now < at + ttl)
  {
  }

  // ------------------------------------------------------------- hits renew ---

  /** Every completed result under the key is the same. */
  predicate Agree(rows: TaskTable, cacheKey: string, v: Val) {
    forall p | p in rows && rows[p].cacheKey == Some(cacheKey) && rows[p].cp.status.Done? ::
      rows[p].cp.result == Some(v)
  }

  ghost predicate Live(rows: TaskTable, cacheKey: string, now: Time) {
    exists p :: p in rows && Hit(rows[p], cacheKey, now)
  }

  datatype Use = Use(place: Place, at: Time)

  /** Task on a cache hit: the value found is saved as the step's own, with a fresh expiry. */
  function AfterHit(rows: TaskTable, cacheKey: string, ttl: Time, v: Val, u: Use): TaskTable {
    rows[u.place := Stamped(Cp(Done, Some(v)), cacheKey, ttl, u.at)]
  }

  function AfterHits(rows: TaskTable, cacheKey: string, ttl: Time, v: Val, us: seq<Use>): TaskTable
    decreases |us|
  {
    if us == [] then rows else AfterHits(AfterHit(rows, cacheKey, ttl, v, us[0]), cacheKey, ttl, v, us[1..])
  }

  /** Each use comes before the previous one's expiry. */
  predicate Frequent(until: Time, ttl: Time, us: seq<Use>)
    decreases |us|
  {
    us == [] || (us[0].at < until && Frequent(us[0].at + ttl, ttl, us[1..]))
  }

  function LastExpiry(until: Time, ttl: Time, us: seq<Use>): Time {
    if us == [] then until else us[|us| - 1].at + ttl
  }

  /** A hit renews the time to live: however long a chain of frequent uses grows,
      every use is a hit for the value computed once at its start, and it is still
      served right up to one time-to-live after the last of them. */
  lemma {:induction false} HitsRenew(rows: TaskTable, cacheKey: string, ttl: Time, v: Val, p: Place,
                                     us: seq<Use>, now: Time)
    requires cacheKey != "" && ttl > 0 && Agree(rows, cacheKey, v)
    requires p in rows && rows[p].cacheKey == Some(cacheKey) && rows[p].cp.status.Done? && rows[p].until.Some?
    requires Frequent(rows[p].until.value, ttl, us) && now < LastExpiry(rows[p].until.value, ttl, us)
    ensures Agree(AfterHits(rows, cacheKey, ttl, v, us), cacheKey, v)
    ensures us != [] ==> Live(rows, cacheKey, us[0].at)
    ensures Live(AfterHits(rows, cacheKey, ttl, v, us), cacheKey, now)
    decreases |us|
  {
    if us == [] {
      assert Hit(rows[p], cacheKey, now);
    } else {
      assert Hit(rows[p], cacheKey, us[0].at);
      var rows' := AfterHit(rows, cacheKey, ttl, v, us[0]);
      HitsRenew(rows', cacheKey, ttl, v, us[0].place, us[1..], now);
    }
  }
}
