/** When a node announces its links, and how long it trusts those of others, over
    whole runs of its handlers. */
module Announcements {
  import opened Options
  import opened Ordering
  import opened Graphs
  import opened SeenCaches
  import opened LinkState
  import opened Packets

  /** One announcement: its number and links, when it was made, and whether only
      a drifted cost caused it. */
  datatype Emission = Emission(number: int, links: Links, at: Time, drift: bool)

  ghost predicate OnlyDrift(st: State, ev: Event) {
    ev.input.LinkUp? && ev.input.neighbor in st.links
  }

  /** The announcements a run emits, in order. */
  ghost function Log(self: Id, events: seq<Event>): seq<Emission> {
    if events == [] then []
    else
      var init, ev := events[..|events| - 1], events[|events| - 1];
      Log(self, init) + Emitted(self, Run(self, init), ev)
  }

  /** Where a node stands after announcing `log`. */
  ghost predicate UpToDate(st: State, log: seq<Emission>) {
    && st.number == |log|
    && (forall i :: 0 <= i < |log| ==> log[i].number == i + 1)
    && (log == [] ==> st.links == map[] && st.lastAnnounce == None)
    && (log != [] ==>
          && log[|log| - 1].links.Keys == st.links.Keys
          && st.lastAnnounce == Some(log[|log| - 1].at))
  }

  /** Announcements caused by drift alone keep their distance. */
  ghost predicate DriftSpaced(log: seq<Emission>) {
    && (forall i, j :: 0 <= i < j < |log| ==> log[i].at <= log[j].at)
    && (forall i {:trigger log[i].drift} :: 0 <= i < |log| && log[i].drift ==>
          i > 0 && log[i].at - log[i - 1].at > MIN_ANNOUNCE_INTERVAL)
  }

  /** What an event adds to the log. */
  ghost function Emitted(self: Id, st: State, ev: Event): seq<Emission> {
    match Handle(self, st, ev).1
    case None => []
    case Some(p) =>
      if p.lsp.None? then [] else [Emission(p.lsp.value.number, p.lsp.value.links, ev.now, OnlyDrift(st, ev))]
  }

  /** An event either announces the new links or leaves the neighbours as they
      were. */
  lemma EventEffect(self: Id, st: State, ev: Event)
    ensures var st', more := Handle(self, st, ev).0, Emitted(self, st, ev);
      if more == []
      then st'.links.Keys == st.links.Keys && st'.number == st.number && st'.lastAnnounce == st.lastAnnounce
      else
        && st'.number == st.number + 1 && st'.lastAnnounce == Some(ev.now)
        && more == [Emission(st.number + 1, st'.links, ev.now, OnlyDrift(st, ev))]
        && (OnlyDrift(st, ev) && st.lastAnnounce.Some? ==>
              ev.now - st.lastAnnounce.value > MIN_ANNOUNCE_INTERVAL)
  {
    hide TableFor;
  }

  lemma OneMoreEmission(st: State, st': State, log: seq<Emission>, e: Emission)
    requires UpToDate(st, log) && DriftSpaced(log)
    requires log != [] ==> log[|log| - 1].at <= e.at
    requires st'.number == st.number + 1 == e.number && st'.lastAnnounce == Some(e.at) && e.links == st'.links
    requires e.drift ==> st.links != map[]
    requires e.drift && st.lastAnnounce.Some? ==> e.at - st.lastAnnounce.value > MIN_ANNOUNCE_INTERVAL
    ensures UpToDate(st', log + [e]) && DriftSpaced(log + [e])
  {
    var more := log + [e];
    forall i {:trigger more[i].drift} | 0 <= i < |more| && more[i].drift
      ensures i > 0 && more[i].at - more[i - 1].at > MIN_ANNOUNCE_INTERVAL
    {
      if i < |log| { assert log[i].drift; }
    }
  }

  lemma HandleKeepsUpToDate(self: Id, st: State, log: seq<Emission>, ev: Event)
    requires UpToDate(st, log) && DriftSpaced(log)
    requires log != [] ==> log[|log| - 1].at <= ev.now
    ensures UpToDate(Handle(self, st, ev).0, log + Emitted(self, st, ev))
    ensures DriftSpaced(log + Emitted(self, st, ev))
  {
    hide Handle, Emitted;
    EventEffect(self, st, ev);
    if Emitted(self, st, ev) == [] {
      assert log + [] == log;
      assert log == [] ==> Handle(self, st, ev).0.links == map[];
    } else {
      hide UpToDate, DriftSpaced;
      OneMoreEmission(st, Handle(self, st, ev).0, log, Emitted(self, st, ev)[0]);
    }
  }

  /** Announcement policy: at every point of every run the last announcement names
      exactly the current neighbours, numbers rise by one from one, and drift
      never causes an announcement within five seconds of the previous one. */
  lemma {:induction false} AnnouncedNeighboursAreCurrent(self: Id, events: seq<Event>)
    requires ClockRuns(events)
    ensures UpToDate(Run(self, events), Log(self, events)) && DriftSpaced(Log(self, events))
    ensures Log(self, events) != [] ==> Log(self, events)[|Log(self, events)| - 1].at <= events[|events| - 1].now
  {
    if events != [] {
      var init := events[..|events| - 1];
      AnnouncedNeighboursAreCurrent(self, init);
      HandleKeepsUpToDate(self, Run(self, init), Log(self, init), events[|events| - 1]);
      EventEffect(self, Run(self, init), events[|events| - 1]);
    }
  }

  function DriftCount(log: seq<Emission>): nat {
    if log == [] then 0 else DriftCount(log[..|log| - 1]) + if log[|log| - 1].drift then 1 else 0
  }

  /** However the costs swing, `k` drift announcements take more than
      `5(k - 1)` seconds: the control traffic they cause is bounded by time. */
  lemma {:induction false} DriftRateBounded(log: seq<Emission>, i: nat, j: nat)
    requires DriftSpaced(log) && i < j <= |log|
    ensures MIN_ANNOUNCE_INTERVAL * (DriftCount(log[i..j]) - 1) <= log[j - 1].at - log[i].at
    decreases j
  {
    var slice := log[i..j];
    assert slice[..|slice| - 1] == log[i..j - 1];
    if j - 1 > i {
      DriftRateBounded(log, i, j - 1);
      assert log[j - 1].drift ==> log[j - 1].at - log[j - 2].at > MIN_ANNOUNCE_INTERVAL;
    } else {
      assert log[i..i] == [];
    }
  }

  // --------------------------------------------------- drift adds up unheard

  /** A cost that climbs to `target` by at most half of itself at a time. */
  function Climb(cost: real, target: real): (steps: seq<real>)
    requires 0.0 < cost <= target
    ensures steps != [] && steps[|steps| - 1] == target
    decreases 2.0 * (target / cost)
  {
    if target <= 1.5 * cost then [target]
    else
      ClimbEnds(cost, target);
      [1.5 * cost] + Climb(1.5 * cost, target)
  }

  lemma Scaled(a: real, b: real, c: real)
    requires c > 0.0
    ensures a <= b <==> a * c <= b * c
  {
    if a <= b { assert (b - a) * c >= 0.0; } else { assert (a - b) * c > 0.0; }
  }

  lemma ClimbEnds(cost: real, target: real)
    requires 0.0 < cost && target > 1.5 * cost
    ensures 2.0 * (target / (1.5 * cost)) <= 2.0 * (target / cost) - 1.0
  {
    var q := target / cost;
    assert target == q * cost;
    assert target / (1.5 * cost) == q / 1.5 by { assert (q / 1.5) * (1.5 * cost) == q * cost; }
    Scaled(q, 1.5, cost);
  }

  function Measurements(n: Id, costs: seq<real>, now: Time): seq<Event> {
    seq(|costs|, i requires 0 <= i < |costs| => Event(LinkUp(n, costs[i]), "", now))
  }

  /** No event of the run announces anything. */
  ghost predicate Silent(self: Id, st: State, events: seq<Event>)
    decreases |events|
  {
    events != [] ==>
      && Handle(self, st, events[0]).1 == None
      && Silent(self, Handle(self, st, events[0]).0, events[1..])
  }

  lemma {:induction false} RunFromFirst(self: Id, st: State, events: seq<Event>)
    requires events != []
    ensures RunFrom(self, st, events) == RunFrom(self, Handle(self, st, events[0]).0, events[1..])
    decreases |events|
  {
    hide Handle;
    var n := |events| - 1;
    if n == 0 {
      assert events[..0] == [] && events[1..] == [];
    } else {
      RunFromFirst(self, st, events[..n]);
      assert events[..n][1..] == events[1..][..n - 1];
    }
  }

  /** A rise by at most half is never announced, whenever it comes. */
  lemma SmallRiseIsSilent(self: Id, st: State, n: Id, cost: real, now: Time)
    requires n in st.links && 0.0 < st.links[n] <= cost <= 1.5 * st.links[n]
    ensures var (st', p) := Handle(self, st, Event(LinkUp(n, cost), "", now));
      p == None && st' == Recompute(self, st.(links := st.links[n := cost]))
  {
    hide TableFor;
    var before := st.links[n];
    Scaled((cost - before) / before, 0.5, before);
  }

  /** Nothing bounds how far a cost can rise above the one announced: the threshold
      compares each measurement with the one before, so small rises lead to any
      cost whatever without a word, even all at one moment. */
  lemma {:induction false} DriftIsUnbounded(self: Id, st: State, n: Id, target: real, now: Time)
    requires n in st.links && 0.0 < st.links[n] <= target
    ensures var events := Measurements(n, Climb(st.links[n], target), now);
      && Silent(self, st, events)
      && RunFrom(self, st, events) == Recompute(self, st.(links := st.links[n := target]))
    decreases 2.0 * (target / st.links[n])
  {
    hide TableFor, Handle;
    var cost := st.links[n];
    var steps := Climb(cost, target);
    var events := Measurements(n, steps, now);
    SmallRiseIsSilent(self, st, n, steps[0], now);
    RunFromFirst(self, st, events);
    if target > 1.5 * cost {
      ClimbEnds(cost, target);
      var next := Handle(self, st, events[0]).0;
      DriftIsUnbounded(self, next, n, target, now);
      assert events[1..] == Measurements(n, Climb(1.5 * cost, target), now);
      assert st.links[n := 1.5 * cost][n := target] == st.links[n := target];
    } else {
      assert events[1..] == [];
    }
  }

  // ------------------------------------------------ what must be announced

  /** A cost reported by discovery is announced exactly if the neighbour is new, or
      more than five seconds have passed since the last announcement and the cost is
      more than half as much again as before, or less than half of it. What goes out
      lists all links as they now are; the links change either way. */
  lemma LinkUpAnnouncedIff(self: Id, st: State, n: Id, cost: real, msgId: string, now: Time)
    ensures var (st', p) := Handle(self, st, Event(LinkUp(n, cost), msgId, now));
      && (p.Some? <==>
            || n !in st.links
            || (&& (st.lastAnnounce == None || now - st.lastAnnounce.value > MIN_ANNOUNCE_INTERVAL)
                && Moved(st.links[n], cost)))
      && st'.links == st.links[n := cost]
      && (p.Some? ==> p.value == Info(msgId, DEFAULT_TTL, self, Some(Lsp(self, st.number + 1, st.links[n := cost]))))
  {
    if n in st.links { ChangeIsMove(st.links[n], cost); }
    hide TableFor, Look, RelativeChange, Moved;
  }

  /** A lost neighbour is always announced, an unknown one never. */
  lemma LinkDownAnnouncedIff(self: Id, st: State, n: Id, msgId: string, now: Time)
    ensures var (st', p) := Handle(self, st, Event(LinkDown(n), msgId, now));
      && st'.links == st.links - {n}
      && p == if n in st.links then Some(Info(msgId, DEFAULT_TTL, self, Some(Lsp(self, st.number + 1, st.links - {n})))) else None
  {
    hide TableFor, Look;
    assert n !in st.links ==> st.links - {n} == st.links;
  }

  /** A node remembers the id of its own announcement for a minute, so a copy that
      comes back is recognised before it is read. */
  lemma OwnIdIsRemembered(self: Id, st: State, ev: Event, later: Time)
    requires Handle(self, st, ev).1.Some? && ev.msgId != "" && ev.msgId !in st.seen
    requires ev.now <= later <= ev.now + SEEN_TTL
    ensures Look(Handle(self, st, ev).0.seen, ev.msgId, later, SEEN_TTL).1
  {
    hide TableFor;
  }

  // ---------------------------------------------------------------- ageing

  /** The time of the last sweep in a run that began at `start`. */
  ghost function LastSweep(start: Time, events: seq<Event>): Time {
    if events == [] then start
    else if events[|events| - 1].input.Ageing? then events[|events| - 1].now
    else LastSweep(start, events[..|events| - 1])
  }

  ghost predicate RunsFrom(start: Time, events: seq<Event>) {
    ClockRuns(events) && forall i :: 0 <= i < |events| ==> start <= events[i].now
  }

  /** `ev` proves to a node in state `st` that `origin` is alive: a new packet
      carrying its current number, a higher one, or that of a restart. */
  predicate Proves(self: Id, st: State, ev: Event, origin: Id) {
    && ev.input.Received? && ev.input.info.lsp.Some?
    && ev.input.info.lsp.value.origin == origin
    && origin != "" && origin != self
    && !Look(st.seen, ev.input.info.msgId, ev.now, SEEN_TTL).1
    && (origin in st.lsdb ==>
          var n := ev.input.info.lsp.value.number;
          n >= st.lsdb[origin].number || st.lsdb[origin].number - n >= SEQ_RESET_GAP)
  }

  /** How an event changes the entry of one origin. */
  lemma EntryEffect(self: Id, st: State, ev: Event, origin: Id)
    ensures var before, after := st.lsdb, Handle(self, st, ev).0.lsdb;
      if Proves(self, st, ev, origin) then origin in after && after[origin].refreshed == ev.now
      else if ev.input.Ageing? then
        && (origin in after <==> origin in before && ev.now - before[origin].refreshed <= LSP_MAX_AGE)
        && (origin in after ==> after[origin] == before[origin])
      else
        && (origin in after <==> origin in before)
        && (origin in after ==> after[origin] == before[origin])
  {
    hide TableFor;
  }

  lemma SweepDrops(self: Id, st: State, origin: Id)
    ensures forall now :: origin in Sweep(self, st, now).lsdb <==>
              origin in st.lsdb && now - st.lsdb[origin].refreshed <= LSP_MAX_AGE
  {
    hide TableFor;
  }

  lemma {:induction false} EntriesYoungAtSweep(self: Id, start: Time, events: seq<Event>, origin: Id)
    requires RunsFrom(start, events)
    ensures origin in Run(self, events).lsdb ==>
              LastSweep(start, events) - Run(self, events).lsdb[origin].refreshed <= LSP_MAX_AGE
    ensures LastSweep(start, events) <= if events == [] then start else events[|events| - 1].now
  {
    if events != [] {
      EntryEffect(self, Run(self, events[..|events| - 1]), events[|events| - 1], origin);
      EntriesYoungAtSweep(self, start, events[..|events| - 1], origin);
    }
  }

  /** No stale topology: as long as a sweep happened at most three seconds ago, no
      announcement in the database is older than thirty-three seconds. */
  lemma NoEntryOutlivesItsAge(self: Id, start: Time, events: seq<Event>, now: Time, origin: Id)
    requires RunsFrom(start, events) && now - LastSweep(start, events) <= AGE_INTERVAL
    requires origin in Run(self, events).lsdb
    ensures now - Run(self, events).lsdb[origin].refreshed <= LSP_MAX_AGE + AGE_INTERVAL
  {
    EntriesYoungAtSweep(self, start, events, origin);
  }

  /** When `origin`, known at time `since`, last proved itself alive. */
  ghost function LastProof(self: Id, st: State, since: Time, events: seq<Event>, origin: Id): Time {
    if events == [] then since
    else
      var init, ev := events[..|events| - 1], events[|events| - 1];
      if Proves(self, RunFrom(self, st, init), ev, origin) then ev.now
      else LastProof(self, st, since, init, origin)
  }

  /** Every sweep of the run comes at most `LSP_MAX_AGE` after a proof of life. */
  ghost predicate ProvenInTime(self: Id, st: State, since: Time, events: seq<Event>, origin: Id) {
    forall i :: 0 <= i < |events| && events[i].input.Ageing? ==>
      events[i].now - LastProof(self, st, since, events[..i], origin) <= LSP_MAX_AGE
  }

  /** An origin is kept exactly as long as it proves itself alive: while no sweep
      finds its last proof more than thirty seconds old it stays, dated by that
      proof, and the first sweep that does drops it. */
  lemma {:induction false} KeptWhileAlive(self: Id, st: State, events: seq<Event>, origin: Id)
    requires origin in st.lsdb && origin != "" && origin != self
    requires ProvenInTime(self, st, st.lsdb[origin].refreshed, events, origin)
    ensures var r := RunFrom(self, st, events);
      var proof := LastProof(self, st, st.lsdb[origin].refreshed, events, origin);
      && origin in r.lsdb && r.lsdb[origin].refreshed == proof
      && forall now :: origin in Sweep(self, r, now).lsdb <==> now - proof <= LSP_MAX_AGE
  {
    SweepDrops(self, RunFrom(self, st, events), origin);
    if events != [] {
      var init := events[..|events| - 1];
      EntryEffect(self, RunFrom(self, st, init), events[|events| - 1], origin);
      forall i | 0 <= i < |init| && init[i].input.Ageing?
        ensures init[i].now - LastProof(self, st, st.lsdb[origin].refreshed, init[..i], origin) <= LSP_MAX_AGE
      {
        assert init[..i] == events[..i] && init[i] == events[i];
      }
      KeptWhileAlive(self, st, init, origin);
    }
  }
}
