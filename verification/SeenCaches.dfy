/** The time-bounded duplicate cache, and exactly which calls it answers `true`
    over a whole run with a clock that never goes back. */
module SeenCaches {
  /** Nanoseconds, as in Go's `time.Duration`. */
  type Time = int

  const SECOND: Time := 1_000_000_000

  type Entries = map<string, Time>

  function Evicted(entries: Entries, now: Time, ttl: Time): Entries {
    map id | id in entries && now - entries[id] <= ttl :: entries[id]
  }

  /** `Seen`: the cache afterwards, and whether the id had been recorded. */
  function Look(entries: Entries, id: string, now: Time, ttl: Time): (Entries, bool) {
    if id == "" then (entries, false)
    else
      var kept := Evicted(entries, now, ttl);
      if id in kept then (kept, true) else (kept[id := now], false)
  }

  /** A look adds at most its own id, and misses what is not there. */
  lemma LookKeys(entries: Entries, id: string, now: Time, ttl: Time)
    ensures var (after, known) := Look(entries, id, now, ttl);
      after.Keys <= entries.Keys + {id} && (known ==> id in entries)
  {
  }

  /** While every entry is young, `Seen` just records the new id. */
  lemma LookRecords(entries: Entries, id: string, now: Time, start: Time, ttl: Time)
    requires id != "" && now <= start + ttl
    requires forall m :: m in entries ==> start <= entries[m]
    ensures Look(entries, id, now, ttl) == if id in entries then (entries, true) else (entries[id := now], false)
  {
    assert Evicted(entries, now, ttl) == entries;
  }

  class SeenCache {
    var entries: Entries
    const ttl: Time

    constructor (ttl: Time)
      ensures entries == map[] && this.ttl == ttl
    {
      entries := map[];
      this.ttl := ttl;
    }

    method Evict(now: Time)
      modifies this
      ensures entries == Evicted(old(entries), now, ttl)
    {
      var left := entries.Keys;
      while left != {}
        invariant left <= old(entries).Keys
        invariant entries ==
          map id | id in old(entries) && (id in left || now - old(entries)[id] <= ttl) :: old(entries)[id]
      {
        var id :| id in left;
        left := left - {id};
        if now - entries[id] > ttl { entries := entries - {id}; }
      }
    }

    method Seen(id: string, now: Time) returns (known: bool)
      modifies this
      ensures (entries, known) == Look(old(entries), id, now, ttl)
    {
      if id == "" { return false; }
      Evict(now);
      if id in entries { return true; }
      entries := entries[id := now];
      return false;
    }
  }

  // ------------------------------------------------------------ whole runs

  datatype Call = Call(id: string, now: Time)

  ghost predicate ClockForward(calls: seq<Call>) {
    forall i, j :: 0 <= i < j < |calls| ==> calls[i].now <= calls[j].now
  }

  /** The cache after a run that starts empty. */
  ghost function After(calls: seq<Call>, ttl: Time): Entries {
    if calls == [] then map[]
    else
      var last := calls[|calls| - 1];
      Look(After(calls[..|calls| - 1], ttl), last.id, last.now, ttl).0
  }

  /** What call `i` of the run answered. */
  ghost function Answer(calls: seq<Call>, ttl: Time, i: nat): bool
    requires i < |calls|
  {
    Look(After(calls[..i], ttl), calls[i].id, calls[i].now, ttl).1
  }

  ghost predicate Missed(calls: seq<Call>, ttl: Time, i: nat, id: string) {
    i < |calls| && calls[i].id == id && !Answer(calls, ttl, i)
  }

  /** The entry of `id`, if any, dates from the latest call on it that missed;
      and it is there as long as that call is at most `ttl` old. */
  ghost predicate Tracks(calls: seq<Call>, ttl: Time, id: string) {
    var entries := After(calls, ttl);
    && (id in entries ==> exists j: nat :: Missed(calls, ttl, j, id) && calls[j].now == entries[id])
    && (forall j: nat :: Missed(calls, ttl, j, id) ==>
          (calls[|calls| - 1].now - calls[j].now <= ttl ==> id in entries)
          && (id in entries ==> calls[j].now <= entries[id]))
  }

  lemma PrefixMisses(calls: seq<Call>, ttl: Time, id: string)
    requires calls != []
    ensures forall j: nat :: j < |calls| - 1 ==>
      (Missed(calls, ttl, j, id) <==> Missed(calls[..|calls| - 1], ttl, j, id))
  {
    forall j: nat | j < |calls| - 1
      ensures Missed(calls, ttl, j, id) <==> Missed(calls[..|calls| - 1], ttl, j, id)
    {
      assert calls[..|calls| - 1][..j] == calls[..j];
    }
  }

  lemma {:induction false} RunTracks(calls: seq<Call>, ttl: Time, id: string)
    requires ClockForward(calls) && id != ""
    ensures Tracks(calls, ttl, id)
  {
    if calls != [] {
      var n := |calls| - 1;
      var init, last := calls[..n], calls[n];
      RunTracks(init, ttl, id);
      PrefixMisses(calls, ttl, id);
      var before, after := After(init, ttl), After(calls, ttl);
      forall j: nat | Missed(calls, ttl, j, id)
        ensures (last.now - calls[j].now <= ttl ==> id in after)
        ensures id in after ==> calls[j].now <= after[id]
      {
        if j < n { assert Missed(init, ttl, j, id) && init[j] == calls[j] && init[n - 1].now <= last.now; }
      }
      if id in after {
        if id in before && after[id] == before[id] && !(last.id == id && !Answer(calls, ttl, n)) {
          var j: nat :| Missed(init, ttl, j, id) && init[j].now == before[id];
          assert Missed(calls, ttl, j, id) && calls[j].now == after[id];
        } else {
          assert Missed(calls, ttl, n, id) && calls[n].now == after[id];
        }
      }
    }
  }

  /** Over every run, a call on a non-empty id answers `true` exactly when some
      call on that id answered `false` no more than `ttl` earlier. */
  lemma SeenIsExact(calls: seq<Call>, ttl: Time, i: nat)
    requires ClockForward(calls) && i < |calls| && calls[i].id != ""
    ensures Answer(calls, ttl, i) <==>
      exists j: nat :: j < i && Missed(calls, ttl, j, calls[i].id) && calls[i].now - calls[j].now <= ttl
  {
    var id, now, prefix := calls[i].id, calls[i].now, calls[..i];
    RunTracks(prefix, ttl, id);
    forall j: nat | j < i ensures Missed(calls, ttl, j, id) <==> Missed(prefix, ttl, j, id) {
      assert prefix[..j] == calls[..j];
    }
    if Answer(calls, ttl, i) {
      var j: nat :| Missed(prefix, ttl, j, id) && prefix[j].now == After(prefix, ttl)[id];
      assert Missed(calls, ttl, j, id) && calls[j].now == prefix[j].now;
    }
    if j: nat :| j < i && Missed(calls, ttl, j, id) && now - calls[j].now <= ttl {
      assert Missed(prefix, ttl, j, id) && prefix[j] == calls[j] && prefix[i - 1] == calls[i - 1];
    }
  }

  /** When the cache was last used: calls without an id do not reach it. */
  function LastUse(calls: seq<Call>): Time {
    if calls == [] then 0
    else if calls[|calls| - 1].id != "" then calls[|calls| - 1].now
    else LastUse(calls[..|calls| - 1])
  }

  /** The cache does not grow without bound: it holds exactly the ids that were recorded
      no more than `ttl` before it was last used, and no empty one. */
  lemma {:induction false} CacheIsExact(calls: seq<Call>, ttl: Time, id: string)
    requires ClockForward(calls) && ttl >= 0
    ensures id in After(calls, ttl) <==>
      id != "" && exists j: nat :: Missed(calls, ttl, j, id) && LastUse(calls) - calls[j].now <= ttl
  {
    if calls != [] {
      var n := |calls| - 1;
      CacheIsExact(calls[..n], ttl, id);
      PrefixMisses(calls, ttl, id);
      if id != "" { RunTracks(calls, ttl, id); }
      if calls[n].id == "" {
        forall j: nat | Missed(calls, ttl, j, id) && id != "" ensures Missed(calls[..n], ttl, j, id) && calls[..n][j] == calls[j] {}
        forall j: nat | Missed(calls[..n], ttl, j, id) ensures Missed(calls, ttl, j, id) && calls[..n][j] == calls[j] {}
      }
    }
  }
}
