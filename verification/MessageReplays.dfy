/** Flooding mode over runs of any length: what is left of exactly-once when a
    copy outlives the memory of a cache. */
module MessageReplays {
  import opened Ordering
  import opened MessagePlane
  import opened Packets
  import opened SeenCaches
  import opened FloodCore
  import opened MessageFlood

  type Net = MessageFlood.Net
  type Event = MessageFlood.Event
  type Envelope = MessageFlood.Envelope
  type Flood = MessageFlood.Flood

  ghost predicate ClockRuns(events: seq<Event>) {
    forall i, j :: 0 <= i < j < |events| ==> events[i].now <= events[j].now
  }

  // ------------------------------------------- what is true of every copy

  /** The trace is a live path from the sender to the last hop, and what it and the
      link to `to` have cost is missing from the budget. */
  ghost predicate Sane(live: LiveGraph, f: Flood, id: string, e: Envelope) {
    && e.msg.id == id && e.msg.to == f.dest
    && e.msg.trace != [] && e.msg.trace[0] == f.sender && e.msg.trace[|e.msg.trace| - 1] == e.msg.via
    && e.msg.ttl >= 1 && e.msg.ttl + |e.msg.trace| == DEFAULT_TTL + 1
    && (forall i :: 0 < i < |e.msg.trace| ==> LiveStep(live, e.msg.trace, i))
    && e.msg.via in live && e.to in live[e.msg.via]
  }

  ghost predicate AllSane(live: LiveGraph, f: Flood, id: string) {
    && (forall e :: e in f.flying ==> Sane(live, f, id, e))
    && (forall i :: 0 <= i < |f.delivered| ==> Sane(live, f, id, f.delivered[i].e) && f.delivered[i].e.to == f.dest)
  }

  /** Deliveries lie more than the memory of a cache apart. */
  ghost predicate Spaced(f: Flood) {
    forall i, j :: 0 <= i < j < |f.delivered| ==> f.delivered[j].at - f.delivered[i].at > MESSAGE_SEEN_TTL
  }

  /** The destination remembers its last delivery, unless that is longer ago than a
      cache remembers. */
  ghost predicate Remembered(net: Net, f: Flood, id: string, clock: Time) {
    f.delivered != [] ==>
      var at := f.delivered[|f.delivered| - 1].at;
      && at <= clock
      && (clock - at > MESSAGE_SEEN_TTL ||
          (Remembers(net.seen, f.dest, id) && net.seen[f.dest][id] >= at))
  }

  /** What holds of the flood of one message. */
  ghost predicate FloodReplay(live: LiveGraph, net: Net, f: Flood, id: string, clock: Time) {
    id != "" && AllSane(live, f, id) && Spaced(f) && Remembered(net, f, id, clock)
  }

  ghost predicate ReplayInv(live: LiveGraph, net: Net, id: string, clock: Time) {
    && net.seen.Keys == live.Keys
    && (id in net.floods ==> FloodReplay(live, net, net.floods[id], id, clock))
  }

  lemma BeginIsSane(live: LiveGraph, sender: Id, dest: Id, id: string)
    requires WellFormed(live) && sender in live
    ensures AllSane(live, Begin(live, sender, dest, id), id)
  {
  }

  lemma HandleIsSane(live: LiveGraph, known: bool, f: Flood, id: string, e: Envelope, now: Time)
    requires AllSane(live, f, id) && e in f.flying
    ensures AllSane(live, Handle(live, known, f, e, now), id)
  {
    var g, out := Handle(live, known, f, e, now), NewCopies(live, known, e);
    assert Sane(live, f, id, e);
    forall x | x in g.flying ensures Sane(live, g, id, x) {
      assert x in multiset(out) <==> x in out;
      if x in f.flying { assert Sane(live, f, id, x); } else { RelayIsSane(live, f, id, e, x); }
    }
    forall i | 0 <= i < |g.delivered| ensures Sane(live, g, id, g.delivered[i].e) && g.delivered[i].e.to == g.dest {
      if i < |f.delivered| { assert Sane(live, f, id, f.delivered[i].e); }
    }
  }

  lemma RelayIsSane(live: LiveGraph, f: Flood, id: string, e: Envelope, x: Envelope)
    requires Sane(live, f, id, e) && x in NewCopies(live, false, e)
    ensures Sane(live, f, id, x)
  {
    var n := |e.msg.trace|;
    forall i | 0 < i < |x.msg.trace| ensures LiveStep(live, x.msg.trace, i) {
      if i < n { assert LiveStep(live, e.msg.trace, i); }
    }
  }

  /** A cache keeps an entry as long as it is young, and dates it no earlier. */
  lemma EntryStays(seen: map<Id, Entries>, v: Id, m: string, now: Time, u: Id, id: string, at: Time)
    requires Remembers(seen, u, id) && seen[u][id] >= at && now - at <= MESSAGE_SEEN_TTL && at <= now
    ensures var r := Remember(seen, v, m, now); Remembers(r, u, id) && r[u][id] >= at
    ensures id != "" ==> Answers(seen, u, id, now)
  {
  }

  /** Whatever the cache of any node is asked, the last delivery stays remembered. */
  lemma StillRemembered(net: Net, f: Flood, id: string, clock: Time, v: Id, m: string, now: Time, r: Net)
    requires Remembered(net, f, id, clock) && clock <= now && r.seen == Remember(net.seen, v, m, now)
    ensures Remembered(r, f, id, now)
  {
    if f.delivered != [] {
      var at := f.delivered[|f.delivered| - 1].at;
      if now - at <= MESSAGE_SEEN_TTL { EntryStays(net.seen, v, m, now, f.dest, id, at); }
    }
  }

  /** A delivery comes only when the last one is forgotten, and is remembered. */
  lemma DeliveryIsSpaced(live: LiveGraph, net: Net, f: Flood, e: Envelope, now: Time, id: string, clock: Time, r: Net)
    requires net.seen.Keys == live.Keys && id != "" && Spaced(f) && Remembered(net, f, id, clock) && clock <= now
    requires e.msg.id == id && e.to == e.msg.to == f.dest && e.to in live
    requires !Answers(net.seen, e.to, id, now) && r.seen == Remember(net.seen, e.to, id, now)
    ensures var g := f.(delivered := f.delivered + [Receipt(e, now)]); Spaced(g) && Remembered(r, g, id, now)
  {
    if f.delivered != [] {
      var at := f.delivered[|f.delivered| - 1].at;
      if now - at <= MESSAGE_SEEN_TTL { EntryStays(net.seen, e.to, id, now, f.dest, id, at); }
      assert now - at > MESSAGE_SEEN_TTL;
    }
  }

  lemma SpacedByHistory(f: Flood, g: Flood)
    requires g.delivered == f.delivered && g.dest == f.dest
    ensures Spaced(f) ==> Spaced(g)
    ensures forall net, id, clock :: Remembered(net, f, id, clock) ==> Remembered(net, g, id, clock)
  {
  }

  lemma ArrivalKeepsReplay(live: LiveGraph, net: Net, f: Flood, e: Envelope, now: Time, id: string, clock: Time, r: Net)
    requires WellFormed(live) && net.seen.Keys == live.Keys && FloodReplay(live, net, f, id, clock) && clock <= now
    requires e in f.flying && e.msg.id == id && r.seen == Remember(net.seen, e.to, id, now)
    ensures FloodReplay(live, r, Handle(live, Answers(net.seen, e.to, id, now), f, e, now), id, now)
  {
    var known := Answers(net.seen, e.to, id, now);
    var g := Handle(live, known, f, e, now);
    HandleIsSane(live, known, f, id, e, now);
    StillRemembered(net, f, id, clock, e.to, id, now, r);
    assert Sane(live, f, id, e) && live[e.msg.via] <= live.Keys;
    SpacedByHistory(f, g.(delivered := f.delivered));
    hide AllSane, NewCopies;
    if !known && e.msg.to == e.to {
      DeliveryIsSpaced(live, net, f, e, now, id, clock, r);
      SpacedByHistory(f.(delivered := f.delivered + [Receipt(e, now)]), g);
    } else {
      assert g == g.(delivered := f.delivered);
    }
  }

  lemma DeliverKeepsReplay(live: LiveGraph, net: Net, e: Envelope, now: Time, id: string, clock: Time)
    requires WellFormed(live) && ReplayInv(live, net, id, clock) && clock <= now
    requires MessageFlood.Enabled(live, net, Deliver(e, now))
    ensures ReplayInv(live, MessageFlood.Apply(live, net, Deliver(e, now)), id, now)
  {
    var r := MessageFlood.Apply(live, net, Deliver(e, now));
    hide AllSane, Spaced, Remembered, Answers, Handle;
    if id in net.floods {
      if e.msg.id == id {
        ArrivalKeepsReplay(live, net, net.floods[id], e, now, id, clock, r);
      } else {
        StillRemembered(net, net.floods[id], id, clock, e.to, e.msg.id, now, r);
      }
    }
  }

  lemma SendKeepsReplay(live: LiveGraph, net: Net, sender: Id, dest: Id, m: string, now: Time, id: string, clock: Time)
    requires WellFormed(live) && ReplayInv(live, net, id, clock) && clock <= now
    requires MessageFlood.Enabled(live, net, Send(sender, dest, m, now))
    ensures ReplayInv(live, MessageFlood.Apply(live, net, Send(sender, dest, m, now)), id, now)
  {
    var r := MessageFlood.Apply(live, net, Send(sender, dest, m, now));
    hide AllSane;
    if id in net.floods {
      StillRemembered(net, net.floods[id], id, clock, sender, m, now, r);
      hide Spaced, Remembered;
    } else if id == m {
      BeginIsSane(live, sender, dest, id);
    }
  }

  lemma LoseKeepsReplay(live: LiveGraph, net: Net, e: Envelope, now: Time, id: string, clock: Time)
    requires ReplayInv(live, net, id, clock) && clock <= now && MessageFlood.Enabled(live, net, Lose(e, now))
    ensures ReplayInv(live, MessageFlood.Apply(live, net, Lose(e, now)), id, now)
  {
    hide AllSane, Sane;
    if id in net.floods {
      var f := net.floods[id];
      LossIsSane(live, f, id, e);
      SpacedByHistory(f, Lost(f, e));
      assert Remembered(net, f, id, now);
      hide Spaced;
    }
  }

  lemma ApplyKeepsReplay(live: LiveGraph, net: Net, ev: Event, id: string, clock: Time)
    requires WellFormed(live) && ReplayInv(live, net, id, clock) && clock <= ev.now
    ensures ReplayInv(live, MessageFlood.Apply(live, net, ev), id, ev.now)
  {
    hide AllSane, Spaced;
    if MessageFlood.Enabled(live, net, ev) {
      hide ReplayInv;
      match ev
      case Send(sender, dest, m, now) => SendKeepsReplay(live, net, sender, dest, m, now, id, clock);
      case Deliver(e, now) => DeliverKeepsReplay(live, net, e, now, id, clock);
      case Lose(e, now) => LoseKeepsReplay(live, net, e, now, id, clock);
    }
  }

  lemma LossIsSane(live: LiveGraph, f: Flood, id: string, e: Envelope)
    requires AllSane(live, f, id)
    ensures AllSane(live, Lost(f, e), id)
  {
    var g := Lost(f, e);
    forall x | x in g.flying ensures Sane(live, g, id, x) { assert Sane(live, f, id, x); }
    forall i | 0 <= i < |g.delivered| ensures Sane(live, g, id, g.delivered[i].e) && g.delivered[i].e.to == g.dest {
      assert Sane(live, f, id, f.delivered[i].e);
    }
  }

  lemma {:induction false} RunKeepsReplay(live: LiveGraph, events: seq<Event>, id: string, clock: Time)
    requires WellFormed(live) && ClockRuns(events)
    requires if events == [] then true else clock == events[|events| - 1].now
    ensures ReplayInv(live, MessageFlood.After(live, events), id, clock)
  {
    hide MessageFlood.Apply;
    if events != [] {
      var n := |events| - 1;
      var before := if n == 0 then clock else events[n - 1].now;
      RunKeepsReplay(live, events[..n], id, before);
      ApplyKeepsReplay(live, MessageFlood.After(live, events[..n]), events[n], id, before);
    }
  }

  // ---------------------------------------------------------- main results

  /** Over every run, however long: two deliveries of one message lie more than the
      memory of a cache apart, and each is to the destination, with a live path from
      the sender of at most sixteen links as trace. */
  lemma DeliveriesFarApart(live: LiveGraph, events: seq<Event>, id: string)
    requires WellFormed(live) && ClockRuns(events) && id in MessageFlood.After(live, events).floods
    ensures var f := MessageFlood.After(live, events).floods[id];
      && (forall i, j :: 0 <= i < j < |f.delivered| ==> f.delivered[j].at - f.delivered[i].at > MESSAGE_SEEN_TTL)
      && (forall i :: 0 <= i < |f.delivered| ==> Sane(live, f, id, f.delivered[i].e) && f.delivered[i].e.to == f.dest)
  {
    hide MessageFlood.After;
    RunKeepsReplay(live, events, id, if events == [] then 0 else events[|events| - 1].now);
  }

  lemma {:induction false} TraceStaysWithin(live: LiveGraph, trace: seq<Id>, i: nat)
    requires i < |trace| && forall k :: 0 < k < |trace| ==> LiveStep(live, trace, k)
    ensures trace[i] in Within(live, trace[0], i)
    decreases i
  {
    if i > 0 {
      TraceStaysWithin(live, trace, i - 1);
      assert LiveStep(live, trace, i);
    }
  }

  /** The hop budget is a hard limit: no run, however long, delivers a message to a
      node more than sixteen hops away. */
  lemma NeverBeyondBudget(live: LiveGraph, events: seq<Event>, id: string)
    requires WellFormed(live) && ClockRuns(events) && id in MessageFlood.After(live, events).floods
    ensures var f := MessageFlood.After(live, events).floods[id];
      f.delivered != [] ==> f.dest in Within(live, f.sender, DEFAULT_TTL)
  {
    hide MessageFlood.After;
    DeliveriesFarApart(live, events, id);
    var f := MessageFlood.After(live, events).floods[id];
    if f.delivered != [] {
      var e := f.delivered[0].e;
      var n := |e.msg.trace|;
      assert Sane(live, f, id, e);
      TraceStaysWithin(live, e.msg.trace, n - 1);
      assert e.to in Within(live, f.sender, n);
      WithinGrows(live, f.sender, n, DEFAULT_TTL);
    }
  }

  /** Every copy on a link has budget left, so decoding it leaves it as it is. */
  lemma NoBudgetIsRestored(live: LiveGraph, events: seq<Event>, id: string, e: Envelope)
    requires WellFormed(live) && ClockRuns(events)
    requires var net := MessageFlood.After(live, events); id in net.floods && e in net.floods[id].flying
    ensures DecodedTtl(e.msg.ttl) == e.msg.ttl
  {
    hide MessageFlood.After;
    RunKeepsReplay(live, events, id, if events == [] then 0 else events[|events| - 1].now);
    assert Sane(live, MessageFlood.After(live, events).floods[id], id, e);
  }

  // ------------------------------------------------- exactly how long it holds

  function Corner(s: Id, d: Id, r: Id): LiveGraph {
    map[s := {d, r}, d := {s, r}, r := {s, d}]
  }

  /** `s` sends to its neighbour `d`, which gets the message at once; the copy that
      took the way over `r` is delivered at `late`. */
  function LateCopy(s: Id, d: Id, r: Id, late: Time): seq<Event> {
    var msg := Fresh("m", s, d);
    [Send(s, d, "m", 0), Deliver(MessageFlood.Envelope(d, msg), 0), Deliver(MessageFlood.Envelope(r, msg), 0),
     Deliver(MessageFlood.Envelope(d, MessagePlane.PassedOn(r, msg)), late)]
  }

  lemma LateCopyUnfolds(s: Id, d: Id, r: Id, late: Time)
    ensures var live, es := Corner(s, d, r), LateCopy(s, d, r, late);
      MessageFlood.After(live, es) ==
        MessageFlood.Apply(live, MessageFlood.Apply(live, MessageFlood.Apply(live, MessageFlood.Apply(live,
          Silent(live), es[0]), es[1]), es[2]), es[3])
  {
    hide MessageFlood.Apply, Silent, Corner;
    var live, es := Corner(s, d, r), LateCopy(s, d, r, late);
    assert es[..3][..2] == es[..2] && es[..2][..1] == es[..1] && es[..1][..0] == [];
    assert MessageFlood.After(live, es[..1]) == MessageFlood.Apply(live, Silent(live), es[0]);
    assert MessageFlood.After(live, es[..2]) == MessageFlood.Apply(live, MessageFlood.After(live, es[..1]), es[1]);
    assert MessageFlood.After(live, es[..3]) == MessageFlood.Apply(live, MessageFlood.After(live, es[..2]), es[2]);
  }

  /** The flood and the caches of `d` and `r` between the steps. */
  ghost predicate Stands(net: Net, d: Id, r: Id, flying: multiset<Envelope>, got: nat, seenD: Entries, seenR: Entries) {
    && "m" in net.floods && net.floods["m"].flying == flying && |net.floods["m"].delivered| == got
    && d in net.seen && net.seen[d] == seenD && r in net.seen && net.seen[r] == seenR
  }

  lemma FirstSent(s: Id, d: Id, r: Id)
    requires s != d && s != r && d != r
    ensures var live, msg := Corner(s, d, r), Fresh("m", s, d);
      Stands(MessageFlood.Apply(live, Silent(live), Send(s, d, "m", 0)), d, r,
             multiset{MessageFlood.Envelope(d, msg), MessageFlood.Envelope(r, msg)}, 0, map[], map[])
  {
    var live, msg := Corner(s, d, r), Fresh("m", s, d);
    assert Targets(live, s, s) == {d, r};
    var out := {MessageFlood.Envelope(d, msg), MessageFlood.Envelope(r, msg)};
    assert CopiesTo({d, r}, msg) == out;
    assert multiset(out) == multiset{MessageFlood.Envelope(d, msg), MessageFlood.Envelope(r, msg)};
  }

  /** A copy reaches its destination, which does not remember it. */
  lemma Received(live: LiveGraph, net: Net, d: Id, r: Id, e: Envelope, flying: multiset<Envelope>, got: nat, seenD: Entries, now: Time, seenR: Entries)
    requires Stands(net, d, r, flying, got, seenD, seenR) && e in flying && d != r
    requires e.to == d && e.msg.to == d && e.msg.id == "m" && !Look(seenD, "m", now, MESSAGE_SEEN_TTL).1
    ensures Stands(MessageFlood.Apply(live, net, Deliver(e, now)), d, r, flying - multiset{e}, got + 1,
                   Look(seenD, "m", now, MESSAGE_SEEN_TTL).0, seenR)
  {
    hide Look;
    assert flying - multiset{e} + multiset{} == flying - multiset{e};
    var none: set<Envelope> := {};
    assert multiset(none) == multiset{};
  }

  lemma RelayedByR(s: Id, d: Id, r: Id, net: Net, seenD: Entries)
    requires s != d && s != r && d != r
    requires Stands(net, d, r, multiset{MessageFlood.Envelope(r, Fresh("m", s, d))}, 1, seenD, map[])
    ensures var live, msg := Corner(s, d, r), Fresh("m", s, d);
      Stands(MessageFlood.Apply(live, net, Deliver(MessageFlood.Envelope(r, msg), 0)), d, r,
             multiset{MessageFlood.Envelope(d, MessagePlane.PassedOn(r, msg))}, 1, seenD, map["m" := 0])
  {
    var live, msg := Corner(s, d, r), Fresh("m", s, d);
    var e, x := MessageFlood.Envelope(r, msg), MessageFlood.Envelope(d, MessagePlane.PassedOn(r, msg));
    var none: Entries := map[];
    LookRecords(none, "m", 0, 0, MESSAGE_SEEN_TTL);
    hide Look;
    assert Targets(live, r, s) == {d};
    assert CopiesTo({d}, MessagePlane.PassedOn(r, msg)) == {x};
    assert multiset{e} - multiset{e} + multiset({x}) == multiset{x};
  }

  lemma LateCopyDeliversTwice(s: Id, d: Id, r: Id, late: Time)
    requires s != d && s != r && d != r && late > MESSAGE_SEEN_TTL
    ensures var net := MessageFlood.After(Corner(s, d, r), LateCopy(s, d, r, late));
      "m" in net.floods && |net.floods["m"].delivered| == 2 && net.floods["m"].flying == multiset{}
  {
    var live, msg := Corner(s, d, r), Fresh("m", s, d);
    var first, second := MessageFlood.Envelope(d, msg), MessageFlood.Envelope(r, msg);
    var third := MessageFlood.Envelope(d, MessagePlane.PassedOn(r, msg));
    LateCopyUnfolds(s, d, r, late);
    FirstSent(s, d, r);
    var none: Entries, one: Entries := map[], map["m" := 0];
    LookRecords(none, "m", 0, 0, MESSAGE_SEEN_TTL);
    assert !Look(one, "m", late, MESSAGE_SEEN_TTL).1;
    hide MessageFlood.Apply, MessageFlood.After, Look;
    var n1 := MessageFlood.Apply(live, Silent(live), Send(s, d, "m", 0));
    Received(live, n1, d, r, first, multiset{first, second}, 0, none, 0, none);
    var n2 := MessageFlood.Apply(live, n1, Deliver(first, 0));
    assert multiset{first, second} - multiset{first} == multiset{second};
    RelayedByR(s, d, r, n2, one);
    var n3 := MessageFlood.Apply(live, n2, Deliver(second, 0));
    Received(live, n3, d, r, third, multiset{third}, 1, one, late, one);
  }

  /** In runs that last no longer than `span` no message is delivered twice. */
  ghost predicate OnceWithin(span: Time) {
    forall live, events, id, start ::
      WellFormed(live) && InSpan(events, start, span) && id in MessageFlood.After(live, events).floods ==>
        |MessageFlood.After(live, events).floods[id].delivered| <= 1
  }

  /** Exactly how long at-most-once holds: as long as a cache remembers. */
  lemma OnceIffWithinMemory(span: Time)
    ensures OnceWithin(span) <==> span <= MESSAGE_SEEN_TTL
  {
    hide MessageFlood.After;
    if span <= MESSAGE_SEEN_TTL {
      forall live, events, id, start |
        WellFormed(live) && InSpan(events, start, span) && id in MessageFlood.After(live, events).floods
        ensures |MessageFlood.After(live, events).floods[id].delivered| <= 1
      {
        DeliveredAtMostOnce(live, events, id, start);
      }
    } else {
      var s, d, r := "s", "d", "r";
      assert s[0] != d[0] && s[0] != r[0] && d[0] != r[0];
      LateCopyDeliversTwice(s, d, r, span);
      assert InSpan(LateCopy(s, d, r, span), 0, span);
      assert WellFormed(Corner(s, d, r));
    }
  }
}
