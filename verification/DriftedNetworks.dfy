/** Whole networks whose costs drift in silence: they come about, and exactly how
    much of it messages survive. */
module DriftedNetworks {
  import opened Options
  import opened Ordering
  import opened Graphs
  import opened LinkState
  import opened FloodCore
  import LinkStateFlood
  import opened LinkStateRuns
  import opened Healing
  import opened HopByHop
  import opened Drift
  import opened Triangles
  import opened EndToEnd
  import Announcements
  import opened Resting
  import MessagePlane

  type Event = LinkStateFlood.Event

  /** Local events of `o` while it knows `heard`. */
  function AtNode(o: Id, events: seq<LinkState.Event>, heard: set<Id>): seq<Event> {
    seq(|events|, i requires 0 <= i < |events| => LinkStateFlood.Local(o, events[i], heard))
  }

  /** A measurement that announces nothing is natural, and leaves everyone
      refreshed. */
  lemma SilentStep(live: LiveGraph, start: Net, events: seq<Event>, o: Id, ev: LinkState.Event)
    requires var net := Through(live, start, events);
      && o in net.nodes && ev.input.LinkUp? && Handle(o, net.nodes[o], ev).1 == None
      && net.nodes[o].links.Keys <= LinkStateFlood.Neighbours(live, o)
    ensures var net := Through(live, start, events);
      var more := events + [LinkStateFlood.Local(o, ev, net.nodes[o].links.Keys)];
      && Through(live, start, more) == net.(nodes := net.nodes[o := Handle(o, net.nodes[o], ev).0])
      && Handle(o, net.nodes[o], ev).0.links.Keys == net.nodes[o].links.Keys
      && (AllNatural(live, start, events) ==> AllNatural(live, start, more))
      && (forall x :: Refreshed(live, start, events, x) ==> Refreshed(live, start, more, x))
  {
    var net := Through(live, start, events);
    var next := LinkStateFlood.Local(o, ev, net.nodes[o].links.Keys);
    LocalEffect(o, net.nodes[o], ev);
    hide Handle;
    assert (events + [next])[..|events|] == events;
    if AllNatural(live, start, events) { NaturalMore(live, start, events, next); }
    forall x | Refreshed(live, start, events, x) ensures Refreshed(live, start, events + [next], x) {
      StillRefreshed(live, start, events, next, x);
    }
  }

  lemma StillRefreshed(live: LiveGraph, start: Net, events: seq<Event>, ev: Event, x: Id)
    requires Refreshed(live, start, events, x) && ev.Local? && !ev.ev.input.Ageing?
    requires var net, r := Through(live, start, events), Through(live, start, events + [ev]);
      r.latest == net.latest && r.floods == net.floods
    ensures Refreshed(live, start, events + [ev], x)
  {
    hide Through, Refreshed;
    RefreshedHas(live, start, events, x);
    var n := Through(live, start, events).latest[x];
    forall i | |events| <= i < |events + [ev]| ensures Sparing(live, Through(live, start, (events + [ev])[..i]), (events + [ev])[i], x, n) {
      assert (events + [ev])[..i] == events;
    }
    StaysRefreshed(live, start, events, [ev], x, n);
  }

  /** Measurements that announce nothing change one node and nothing else. */
  lemma {:induction false} SilentRun(live: LiveGraph, start: Net, events: seq<Event>, o: Id, heard: set<Id>, measured: seq<LinkState.Event>)
    requires var net := Through(live, start, events);
      && o in net.nodes && Announcements.Silent(o, net.nodes[o], measured)
      && heard == net.nodes[o].links.Keys && heard <= LinkStateFlood.Neighbours(live, o)
    requires forall i :: 0 <= i < |measured| ==> measured[i].input.LinkUp?
    ensures var net, more := Through(live, start, events), events + AtNode(o, measured, heard);
      && Through(live, start, more) == net.(nodes := net.nodes[o := RunFrom(o, net.nodes[o], measured)])
      && (AllNatural(live, start, events) ==> AllNatural(live, start, more))
      && (forall x :: Refreshed(live, start, events, x) ==> Refreshed(live, start, more, x))
    decreases |measured|
  {
    hide Handle, Through, AllNatural, Refreshed;
    var net := Through(live, start, events);
    if measured == [] {
      assert events + AtNode(o, measured, heard) == events;
    } else {
      var first := LinkStateFlood.Local(o, measured[0], heard);
      SilentStep(live, start, events, o, measured[0]);
      SilentRun(live, start, events + [first], o, heard, measured[1..]);
      Announcements.RunFromFirst(o, net.nodes[o], measured);
      assert events + [first] + AtNode(o, measured[1..], heard) == events + AtNode(o, measured, heard);
    }
  }

  /** After any run, one more link can have risen to any cost unannounced. */
  lemma CanDrift(live: LiveGraph, start: Net, events: seq<Event>, o: Id, n: Id, target: real) returns (more: seq<Event>)
    requires var net := Through(live, start, events);
      && o in net.nodes && n in net.nodes[o].links && 0.0 < net.nodes[o].links[n] <= target
      && net.nodes[o].links.Keys <= LinkStateFlood.Neighbours(live, o)
    ensures var net, r := Through(live, start, events), Through(live, start, events + more);
      && r.floods == net.floods && r.latest == net.latest && SaidMap(r) == SaidMap(net)
      && OwnMap(r) == OwnMap(net)[o := net.nodes[o].links[n := target]]
      && (AllNatural(live, start, events) ==> AllNatural(live, start, events + more))
      && (forall x :: Refreshed(live, start, events, x) ==> Refreshed(live, start, events + more, x))
  {
    hide Through, Handle, TableFor, AllNatural, Refreshed;
    var st := Through(live, start, events).nodes[o];
    var costs := Announcements.Climb(st.links[n], target);
    var measured := Announcements.Measurements(n, costs, 0);
    Announcements.DriftIsUnbounded(o, st, n, target, 0);
    SilentRun(live, start, events, o, st.links.Keys, measured);
    more := AtNode(o, measured, st.links.Keys);
  }

  // ------------------------------------------------------------ the triangle

  function TriangleGraph(a: Id, b: Id, d: Id): LiveGraph {
    map[a := {b, d}, b := {a, d}, d := {a, b}]
  }

  function BootOf(live: LiveGraph): Net {
    LinkStateFlood.Net(map u | u in live :: INITIAL, map[], map[])
  }

  lemma DirectlyReachable(live: LiveGraph, a: Id, b: Id)
    requires a in live && (b == a || b in live[a])
    ensures Reachable(live, {}, a, b)
  {
    assert OpenPath(live, {}, [a]);
    assert [a, b][..1] == [a];
    assert b != a ==> OpenPath(live, {}, [a, b]);
  }

  lemma TriangleIsConnected(a: Id, b: Id, d: Id)
    requires a != b && a != d && b != d
    ensures Connected(TriangleGraph(a, b, d))
  {
    hide Reachable;
    var live := TriangleGraph(a, b, d);
    forall o | o in live ensures ReachesAll(live, o) {
      assert (if o == a then b else a) in live[o];
      forall v | v in live ensures Reachable(live, {}, o, v) { DirectlyReachable(live, o, v); }
    }
  }

  lemma TriangleBoots(a: Id, b: Id, d: Id)
    requires a != b && a != d && b != d && "" !in {a, b, d}
    ensures var live := TriangleGraph(a, b, d);
      LinkStateFlood.Sound(live) && Booted(live, BootOf(live)) && |live.Keys| <= LinkStateFlood.BUDGET + 1
  {
    var live := TriangleGraph(a, b, d);
    assert live.Keys == {a, b, d};
    assert INITIAL.(number := 0) == INITIAL;
  }

  /** Costs measured at the ends of a triangle, and how far two of them then rise
      in silence. */
  datatype Story = Story(saidA: Costs, saidB: Costs, ofD: Costs, riseA: real, riseB: real)

  ghost predicate Plausible(st: Story) {
    Real(st.saidA) && Real(st.saidB) && Real(st.ofD) && st.riseA >= 0.0 && st.riseB >= 0.0
  }

  function SaidOf(a: Id, b: Id, d: Id, st: Story): LinkMap {
    Triangle(a, b, d, st.saidA, st.saidB, st.ofD)
  }

  function Risen(c: Costs, rise: real): Costs {
    c.(far := c.far + rise)
  }

  function OwnOf(a: Id, b: Id, d: Id, st: Story): LinkMap {
    Triangle(a, b, d, Risen(st.saidA, st.riseA), Risen(st.saidB, st.riseB), st.ofD)
  }

  lemma SettledFromMaps(live: LiveGraph, r: Net, said: LinkMap, own: LinkMap)
    requires Connected(live) && SaidMap(r) == said && OwnMap(r) == own
    requires Costed(said) && Costed(own) && forall o :: o in live && o in own ==> own[o].Keys == live[o]
    ensures Settled(live, r)
  {
    hide Connected, Linked, Said;
    forall o ensures Measured(live, r, o) && Priced(SaidMap(r), o) {
      assert Priced(own, o) && Priced(said, o);
      assert o in r.nodes ==> o in own && own[o] == r.nodes[o].links;
    }
  }

  lemma TriangleLinks(a: Id, b: Id, d: Id, ofA: Costs, ofB: Costs, ofD: Costs)
    requires a != b && a != d && b != d
    ensures var out, live := Triangle(a, b, d, ofA, ofB, ofD), TriangleGraph(a, b, d);
      out.Keys == live.Keys && forall o :: o in live ==> out[o].Keys == live[o]
  {
  }

  /** A natural run in which everyone is refreshed, to these costs. */
  ghost predicate Tells(live: LiveGraph, start: Net, events: seq<Event>, said: LinkMap, own: LinkMap) {
    && AllNatural(live, start, events)
    && SaidMap(Through(live, start, events)) == said && OwnMap(Through(live, start, events)) == own
    && forall o :: o in live ==> Refreshed(live, start, events, o)
  }

  /** One link of the triangle rises in silence. */
  lemma TriangleRises(live: LiveGraph, start: Net, events: seq<Event>, a: Id, b: Id, d: Id, said: LinkMap, out: LinkMap, c: Costs, rise: real)
    returns (more: seq<Event>)
    requires a != b && a != d && b != d && Real(c) && rise >= 0.0 && LinkStateFlood.Neighbours(live, a) == {b, d}
    requires Tells(live, start, events, said, out) && a in out && out[a] == TwoLinks(b, d, c)
    ensures Tells(live, start, events + more, said, out[a := TwoLinks(b, d, Risen(c, rise))])
  {
    hide Through, SaidMap, AllNatural, Refreshed;
    var net := Through(live, start, events);
    assert a in OwnMap(net) && net.nodes[a].links == TwoLinks(b, d, c);
    more := CanDrift(live, start, events, a, d, c.far + rise);
    assert TwoLinks(b, d, c)[d := c.far + rise] == TwoLinks(b, d, Risen(c, rise));
  }

  /** Both rises, from a triangle that has said `said`. */
  lemma BothRise(live: LiveGraph, start: Net, events: seq<Event>, a: Id, b: Id, d: Id, st: Story) returns (more: seq<Event>)
    requires a != b && a != d && b != d && Plausible(st) && live == TriangleGraph(a, b, d)
    requires Tells(live, start, events, SaidOf(a, b, d, st), SaidOf(a, b, d, st))
    ensures Tells(live, start, events + more, SaidOf(a, b, d, st), OwnOf(a, b, d, st))
  {
    hide Tells, TwoLinks, SaidOf, OwnOf, Risen, TriangleGraph, LinkStateFlood.Neighbours;
    var said, linksA, linksB := SaidOf(a, b, d, st), TwoLinks(b, d, Risen(st.saidA, st.riseA)), TwoLinks(a, d, Risen(st.saidB, st.riseB));
    RisenLinks(a, b, d, st);
    TriangleNeighbours(a, b, d);
    var e1 := TriangleRises(live, start, events, a, b, d, said, said, st.saidA, st.riseA);
    var e2 := TriangleRises(live, start, events + e1, b, a, d, said, said[a := linksA], st.saidB, st.riseB);
    assert events + e1 + e2 == events + (e1 + e2);
    more := e1 + e2;
  }

  lemma TriangleNeighbours(a: Id, b: Id, d: Id)
    requires a != b && a != d && b != d
    ensures LinkStateFlood.Neighbours(TriangleGraph(a, b, d), a) == {b, d}
    ensures LinkStateFlood.Neighbours(TriangleGraph(a, b, d), b) == {a, d}
  {
  }

  lemma RisenLinks(a: Id, b: Id, d: Id, st: Story)
    requires a != b && a != d && b != d
    ensures var said := SaidOf(a, b, d, st);
      var linksA, linksB := TwoLinks(b, d, Risen(st.saidA, st.riseA)), TwoLinks(a, d, Risen(st.saidB, st.riseB));
      && a in said && said[a] == TwoLinks(b, d, st.saidA)
      && b in said[a := linksA] && said[a := linksA][b] == TwoLinks(a, d, st.saidB)
      && said[a := linksA][b := linksB] == OwnOf(a, b, d, st)
  {
    hide TwoLinks;
  }

  lemma StorySettles(live: LiveGraph, start: Net, events: seq<Event>, a: Id, b: Id, d: Id, st: Story)
    requires a != b && a != d && b != d && "" !in {a, b, d} && Plausible(st) && live == TriangleGraph(a, b, d) && start == BootOf(live)
    requires Tells(live, start, events, SaidOf(a, b, d, st), OwnOf(a, b, d, st))
    ensures Settles(live, start, events) && AllNatural(live, start, events)
  {
    var ownA, ownB := Risen(st.saidA, st.riseA), Risen(st.saidB, st.riseB);
    TriangleBoots(a, b, d);
    TriangleIsConnected(a, b, d);
    TriangleIsCosted(a, b, d, st.saidA, st.saidB, st.ofD);
    TriangleIsCosted(a, b, d, ownA, ownB, st.ofD);
    TriangleLinks(a, b, d, ownA, ownB, st.ofD);
    hide Triangle, TriangleGraph, Connected, Costed, SaidMap, OwnMap, Through, Refreshed, AllNatural, BootOf;
    SettledFromMaps(live, Through(live, start, events), SaidOf(a, b, d, st), OwnOf(a, b, d, st));
    hide Settled;
  }

  /** Every such story happens, in a natural run from boot that settles. */
  lemma StoryHappens(a: Id, b: Id, d: Id, st: Story) returns (events: seq<Event>)
    requires a != b && a != d && b != d && "" !in {a, b, d} && Plausible(st)
    ensures var live := TriangleGraph(a, b, d);
      && Settles(live, BootOf(live), events) && AllNatural(live, BootOf(live), events)
      && SaidMap(Through(live, BootOf(live), events)) == SaidOf(a, b, d, st)
      && OwnMap(Through(live, BootOf(live), events)) == OwnOf(a, b, d, st)
  {
    var live := TriangleGraph(a, b, d);
    TriangleIsConnected(a, b, d);
    TriangleBoots(a, b, d);
    TriangleIsCosted(a, b, d, st.saidA, st.saidB, st.ofD);
    TriangleLinks(a, b, d, st.saidA, st.saidB, st.ofD);
    hide TriangleGraph, Triangle, Connected, Costed, Through, LinkStateFlood.Sound, Booted, Settled, OwnMap, BootOf, LinkStateFlood.Quiet, AllNatural, Refreshed, Tells;
    var start := BootOf(live);
    var e0 := RestIsReachable(live, start, SaidOf(a, b, d, st));
    RestTells(live, start, e0, SaidOf(a, b, d, st));
    var e1 := BothRise(live, start, e0, a, b, d, st);
    events := e0 + e1;
    StorySettles(live, start, events, a, b, d, st);
    TellsMaps(live, start, events, SaidOf(a, b, d, st), OwnOf(a, b, d, st));
  }

  lemma TellsMaps(live: LiveGraph, start: Net, events: seq<Event>, said: LinkMap, own: LinkMap)
    requires Tells(live, start, events, said, own)
    ensures SaidMap(Through(live, start, events)) == said && OwnMap(Through(live, start, events)) == own
  {
    hide Through, SaidMap, OwnMap, AllNatural, Refreshed;
  }

  lemma RestTells(live: LiveGraph, start: Net, events: seq<Event>, costs: LinkMap)
    requires Settles(live, start, events) && AllNatural(live, start, events)
    requires var r := Through(live, start, events); AllTold(r) && OwnMap(r) == costs
    ensures Tells(live, start, events, costs, costs)
  {
    ToldIsSaid(Through(live, start, events));
    hide Through, SaidMap, OwnMap, AllNatural, Refreshed, AllTold, Settled, Booted;
  }

  // ---------------------------------------------------------- main results

  /** The message `a` sends to `d` at the end of such a story arrives unless each of
      `a` and `b` now finds the way over the other's announced link cheaper; then it
      comes back and is dropped. One silent rise is enough for that. */
  lemma StoryArrivesIff(a: Id, b: Id, d: Id, st: Story, id: string) returns (events: seq<Event>)
    requires a != b && a != d && b != d && "" !in {a, b, d} && Plausible(st)
    ensures var live := TriangleGraph(a, b, d);
      && Settles(live, BootOf(live), events) && AllNatural(live, BootOf(live), events)
      && SaidMap(Through(live, BootOf(live), events)) == SaidOf(a, b, d, st)
      && OwnMap(Through(live, BootOf(live), events)) == OwnOf(a, b, d, st)
      && var o := Forwarded(Published(Through(live, BootOf(live), events)), a, d, id);
         if && st.saidA.near + st.saidB.far < st.saidA.far + st.riseA
            && st.saidB.near + st.saidA.far < st.saidB.far + st.riseB
         then o == Stopped(a, MessagePlane.Duplicate)
         else o.Arrived?
  {
    hide Through, Forwarded, ViewTables, Published, SaidMap, OwnMap, Triangle, Settles, TriangleGraph;
    var live := TriangleGraph(a, b, d);
    events := StoryHappens(a, b, d, st);
    SettledTables(live, BootOf(live), events);
    TriangleArrivesIff(a, b, d, st.saidA, st.saidB, st.ofD, Risen(st.saidA, st.riseA), Risen(st.saidB, st.riseB), id);
  }

  /** A settled network in which every link has risen by less than `rise` since it
      was last announced, and no link costs less than `least`. */
  ghost predicate DriftsWithin(live: LiveGraph, start: Net, events: seq<Event>, rise: real, least: real) {
    && Settles(live, start, events)
    && var net := Through(live, start, events);
       forall o, n :: o in OwnMap(net) && n in OwnMap(net)[o] && o in SaidMap(net) && n in SaidMap(net)[o] ==>
         OwnMap(net)[o][n] - SaidMap(net)[o][n] < rise && OwnMap(net)[o][n] >= least
  }

  ghost predicate AllArrive(live: LiveGraph, net: Net) {
    forall u, d, id :: u in live && d in live && u != d ==> Forwarded(Published(net), u, d, id).Arrived?
  }

  /** Drift within these bounds never costs a message, in any network; or, in any
      that has settled in a natural run. */
  ghost predicate SafeBounds(rise: real, least: real, natural: bool) {
    forall live, start, events ::
      DriftsWithin(live, start, events, rise, least) && (natural ==> AllNatural(live, start, events)) ==>
        AllArrive(live, Through(live, start, events))
  }

  lemma WithinIsMild(live: LiveGraph, start: Net, events: seq<Event>, rise: real, least: real, o: Id)
    requires DriftsWithin(live, start, events, rise, least) && rise <= least
    ensures var net := Through(live, start, events); Mild(SaidMap(net), OwnMap(net), o)
  {
    hide Through, Settles, Said;
    SettledMaps(live, start, events);
    var net := Through(live, start, events);
    assert SameLinks(SaidMap(net), OwnMap(net), o);
    hide Costed;
  }

  lemma WithinIsSafe(live: LiveGraph, start: Net, events: seq<Event>, rise: real, least: real)
    requires DriftsWithin(live, start, events, rise, least) && rise <= least
    ensures AllArrive(live, Through(live, start, events))
  {
    hide Through, Forwarded, Published, Mild, SaidMap, OwnMap;
    var net := Through(live, start, events);
    forall o ensures Mild(SaidMap(net), OwnMap(net), o) { WithinIsMild(live, start, events, rise, least, o); }
    hide DriftsWithin, Settles;
    assert Settles(live, start, events) by { WithinSettles(live, start, events, rise, least); }
    forall u, d, id | u in live && d in live && u != d ensures Forwarded(Published(net), u, d, id).Arrived? {
      MessagesSurviveMildDrift(live, start, events, u, d, id);
    }
  }

  lemma WithinSettles(live: LiveGraph, start: Net, events: seq<Event>, rise: real, least: real)
    requires DriftsWithin(live, start, events, rise, least)
    ensures Settles(live, start, events)
  {
    hide Settles;
  }

  /** The triangle in which all links cost `least` when announced, and those to `d`
      have risen by `more` at both its neighbours. */
  function Even(least: real, more: real): Story {
    Story(Costs(least, least), Costs(least, least), Costs(least, least), more, more)
  }

  lemma EvenDrifts(a: Id, b: Id, d: Id, least: real, more: real, rise: real, o: Id, n: Id)
    requires a != b && a != d && b != d && 0.0 < least < more < rise
    ensures var said, own := SaidOf(a, b, d, Even(least, more)), OwnOf(a, b, d, Even(least, more));
      o in own && n in own[o] ==>
        o in said && n in said[o] && own[o][n] - said[o][n] < rise && own[o][n] >= least
  {
  }

  /** The two ends of a link, both of whose other links have risen by more than it
      costs, send a message round in a circle. */
  lemma BeyondIsUnsafe(rise: real, least: real, natural: bool)
    requires rise > least > 0.0
    ensures !SafeBounds(rise, least, natural)
  {
    hide Through, AllNatural, Forwarded, Published, Settles, SaidMap, OwnMap, TriangleGraph, SaidOf, OwnOf, BootOf, Plausible;
    var a, b, d := "a", "b", "d";
    assert a[0] != b[0] && a[0] != d[0] && b[0] != d[0];
    var more := (rise + least) / 2.0;
    var live := TriangleGraph(a, b, d);
    assert a in live && d in live by { TriangleNodes(a, b, d); }
    EvenIsPlausible(least, more);
    var events := StoryArrivesIff(a, b, d, Even(least, more), "");
    var said, own := SaidOf(a, b, d, Even(least, more)), OwnOf(a, b, d, Even(least, more));
    forall o, n | o in own && n in own[o] && o in said && n in said[o]
      ensures own[o][n] - said[o][n] < rise && own[o][n] >= least
    {
      EvenDrifts(a, b, d, least, more, rise, o, n);
    }
    assert DriftsWithin(live, BootOf(live), events, rise, least);
    assert !AllArrive(live, Through(live, BootOf(live), events));
  }

  lemma TriangleNodes(a: Id, b: Id, d: Id)
    ensures a in TriangleGraph(a, b, d) && d in TriangleGraph(a, b, d)
  {
  }

  lemma EvenIsPlausible(least: real, more: real)
    requires least > 0.0 && more > 0.0
    ensures Plausible(Even(least, more))
  {
  }

  /** Exactly how much silent drift is harmless: if links may rise by less than
      `rise` and cost at least `least`, every message in every network arrives if
      and only if `rise` is at most `least`; and likewise if only natural runs
      count. */
  lemma DriftIsSafeIff(rise: real, least: real, natural: bool)
    requires least > 0.0
    ensures SafeBounds(rise, least, natural) <==> rise <= least
  {
    hide Through, DriftsWithin, AllArrive, AllNatural;
    if rise <= least {
      forall live, start, events |
        DriftsWithin(live, start, events, rise, least) && (natural ==> AllNatural(live, start, events))
        ensures AllArrive(live, Through(live, start, events))
      {
        WithinIsSafe(live, start, events, rise, least);
      }
    } else {
      BeyondIsUnsafe(rise, least, natural);
    }
  }
}
