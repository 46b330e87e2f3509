/** Networks of discovery planes do find their neighbours, refresh and come to rest:
    the runs that `PlaneNetworks` speaks of exist. */
module PlaneRests {
  import opened Options
  import opened Ordering
  import opened Graphs
  import opened LinkState
  import opened FloodCore
  import LinkStateFlood
  import opened LinkStateRuns
  import SeenCaches
  import Discovery
  import opened Drift
  import opened EndToEnd
  import opened PlaneNetworks
  import opened Resting

  type Net = LinkStateFlood.Net
  type Event = PlaneNetworks.Event
  type Act = LinkStateFlood.Event

  /** Who is heard by a neighbour hears it. */
  ghost predicate Mutual(live: LiveGraph) {
    forall u, v :: u in live && v in live[u] && v in live ==> u in live[v]
  }

  // --------------------------------------------------- one event of a run

  /** One more event with one effect. */
  lemma OneMore(live: LiveGraph, start: Planes, events: seq<Event>, ev: Event, act: Act)
    requires var p := After(live, start, events); Happens(live, p, ev) && ActsAt(p, ev) == [act]
    ensures After(live, start, events + [ev]) == Next(live, After(live, start, events), ev)
    ensures ActsOf(live, start, events + [ev]) == ActsOf(live, start, events) + [act]
    ensures After(live, start, events + [ev]).net == LinkStateRuns.Step(live, After(live, start, events).net, act)
  {
    hide Happens, ActsAt;
    assert (events + [ev])[..|events + [ev]| - 1] == events;
    AfterOne(live, After(live, start, events).net, act);
    hide Through;
  }

  // --------------------------------------------------------- the greetings

  /** What a node thinks a neighbour costs before it has measured. */
  function CostOf(ns: Discovery.Neighbors, n: Id): real {
    if n in ns then ns[n].cost else Discovery.UNKNOWN_COST
  }

  function CostsOf(live: LiveGraph, p: Planes): LinkMap {
    map v | v in live && v in p.neighbors :: map n | n in live[v] :: CostOf(p.neighbors[v], n)
  }

  /** Each node has heard all its live neighbours but those in `todo`. */
  ghost predicate Greeted(live: LiveGraph, start: Planes, p: Planes, todo: set<(Id, Id)>, v: Id) {
    v in live ==>
      && v in p.net.nodes && v in p.neighbors && v in start.neighbors
      && Discovery.Alive(p.neighbors[v]) == (set n | n in live[v] && (v, n) !in todo)
      && forall n :: n !in Discovery.Alive(p.neighbors[v]) ==> CostOf(p.neighbors[v], n) == CostOf(start.neighbors[v], n)
  }

  ghost predicate Greeting(live: LiveGraph, start: Planes, events: seq<Event>, todo: set<(Id, Id)>) {
    && AllCounted(start.net, After(live, start, events).net)
    && Building(live, start.net, ActsOf(live, start, events), CostsOf(live, start), todo)
    && forall v :: Greeted(live, start, After(live, start, events), todo, v)
  }

  /** What a hello from a neighbour not heard before comes to. */
  lemma HelloActs(live: LiveGraph, p: Planes, v: Id, n: Id, m: string, links: set<Id>)
    requires v in p.net.nodes && v in p.neighbors && n != "" && n != v
    requires n !in Discovery.Alive(p.neighbors[v]) && links == Discovery.Alive(p.neighbors[v])
    ensures var ns, hello := p.neighbors[v], Discovery.Step.Step(Discovery.Hello(n), m, 0);
      var heard := Discovery.Heard(v, ns, n, 0).0;
      && Discovery.Alive(heard) == links + {n}
      && (forall x :: x != n ==> CostOf(heard, x) == CostOf(ns, x))
      && ActsAt(p, At(v, hello)) ==
           [LinkStateFlood.Local(v, LinkState.Event(LinkUp(n, CostOf(ns, n)), m, 0), links + {n})]
  {
    var ns := p.neighbors[v];
    assert Discovery.Alive(Discovery.Heard(v, ns, n, 0).0) == links + {n};
  }

  lemma HelloHappens(live: LiveGraph, p: Planes, v: Id, n: Id, m: string, act: Act)
    requires v in p.net.nodes && v in p.neighbors && LinkStateFlood.Possible(live, p.net, act)
    requires ActsAt(p, At(v, Discovery.Step.Step(Discovery.Hello(n), m, 0))) == [act]
    ensures var hello := At(v, Discovery.Step.Step(Discovery.Hello(n), m, 0));
      && Happens(live, p, hello)
      && Next(live, p, hello).neighbors == p.neighbors[v := Discovery.Heard(v, p.neighbors[v], n, 0).0]
  {
    AfterOne(live, p.net, act);
    hide ActsAt, LinkStateFlood.Possible, Through, AllPossible, Discovery.Heard, Discovery.Report;
  }

  lemma GreetedMore(live: LiveGraph, start: Planes, p: Planes, r: Planes, todo: set<(Id, Id)>, v: Id, n: Id, u: Id)
    requires Greeted(live, start, p, todo, u) && v in live && n in live[v] && (v, n) in todo
    requires v in p.neighbors && v in r.neighbors && r.neighbors == p.neighbors[v := r.neighbors[v]]
    requires p.net.nodes.Keys == r.net.nodes.Keys
    requires Discovery.Alive(r.neighbors[v]) == Discovery.Alive(p.neighbors[v]) + {n}
    requires forall x :: x != n ==> CostOf(r.neighbors[v], x) == CostOf(p.neighbors[v], x)
    ensures Greeted(live, start, r, todo - {(v, n)}, u)
  {
    hide CostOf, Discovery.Alive;
  }

  lemma GreetedSays(live: LiveGraph, start: Planes, events: seq<Event>, todo: set<(Id, Id)>, v: Id, n: Id)
    requires LinkStateFlood.Sound(live) && BootedPlanes(live, start) && Greeting(live, start, events, todo)
    requires v in live && n in live[v] && (v, n) in todo
    ensures var p := After(live, start, events);
      && v in p.net.nodes && v in p.neighbors && n != "" && n != v
      && n !in Discovery.Alive(p.neighbors[v]) && p.net.nodes[v].links.Keys == Discovery.Alive(p.neighbors[v])
      && v in CostsOf(live, start) && n in CostsOf(live, start)[v]
      && CostOf(p.neighbors[v], n) == CostsOf(live, start)[v][n]
  {
    LinksAreAlive(live, start, events, v);
    hide After, Building, Discovery.Alive, BootedPlanes;
    assert Greeted(live, start, After(live, start, events), todo, v) && live[v] <= live.Keys;
  }

  /** What it takes for `v` to hear `n` for the first time. */
  ghost predicate Unheard(live: LiveGraph, p: Planes, costs: LinkMap, v: Id, n: Id) {
    && v in p.net.nodes && v in p.neighbors && v in live && n in live[v] && n != "" && n != v
    && n !in Discovery.Alive(p.neighbors[v]) && p.net.nodes[v].links.Keys == Discovery.Alive(p.neighbors[v])
    && v in costs && n in costs[v] && CostOf(p.neighbors[v], n) == costs[v][n]
  }

  /** `n` says hello to `v`. */
  lemma OneHello(live: LiveGraph, start: Planes, events: seq<Event>, costs: LinkMap, todo: set<(Id, Id)>, v: Id, n: Id) returns (ev: Event)
    requires LinkStateFlood.Sound(live) && BootedPlanes(live, start) && Covers(live, costs)
    requires Building(live, start.net, ActsOf(live, start, events), costs, todo) && (v, n) in todo
    requires Unheard(live, After(live, start, events), costs, v, n) && LinkStateFlood.CaughtUp(After(live, start, events).net, v)
    ensures Building(live, start.net, ActsOf(live, start, events + [ev]), costs, todo - {(v, n)})
    ensures var p, r := After(live, start, events), After(live, start, events + [ev]);
      && v in p.neighbors && v in r.neighbors && r.neighbors == p.neighbors[v := r.neighbors[v]]
      && Discovery.Alive(r.neighbors[v]) == Discovery.Alive(p.neighbors[v]) + {n}
      && (forall x :: x != n ==> CostOf(r.neighbors[v], x) == CostOf(p.neighbors[v], x))
      && exists m :: LinkAdded(p.net, r.net, v, n, costs[v][n], m)
  {
    hide LinkStateFlood.CaughtUp, LinkAdded, After, ActsOf, Through, Building, CostOf, Discovery.Alive, Covers, Next, Happens, ActsAt, Natural, LinkStateRuns.Step, LinkStateFlood.Possible, BootedPlanes, LinkStateFlood.Initial;
    var p, acts := After(live, start, events), ActsOf(live, start, events);
    PlanesRunTheNetwork(live, start, events);
    assert LinkStateFlood.Initial(live, start.net) by { PlanesBoot(live, start); }
    var act := BuildOne(live, start.net, acts, costs, todo, v, n);
    var m := act.ev.msgId;
    HelloActs(live, p, v, n, m, p.net.nodes[v].links.Keys);
    ev := At(v, Discovery.Step.Step(Discovery.Hello(n), m, 0));
    BuildingIsPossible(live, start.net, acts, act, costs, todo - {(v, n)});
    HelloHappens(live, p, v, n, m, act);
    OneMore(live, start, events, ev, act);
    PlanesRunTheNetwork(live, start, events + [ev]);
    assert LinkAdded(p.net, After(live, start, events + [ev]).net, v, n, costs[v][n], m);
  }

  lemma PlanesBoot(live: LiveGraph, start: Planes)
    requires BootedPlanes(live, start)
    ensures Booted(live, start.net) && LinkStateFlood.Initial(live, start.net)
  {
    BootedIsOk(live, start.net, "");
  }

  lemma HelloGreets(live: LiveGraph, start: Planes, events: seq<Event>, todo: set<(Id, Id)>, v: Id, n: Id) returns (ev: Event)
    requires LinkStateFlood.Sound(live) && BootedPlanes(live, start) && Covers(live, CostsOf(live, start)) && |live.Keys| <= LinkStateFlood.BUDGET + 1
    requires Greeting(live, start, events, todo) && v in live && n in live[v] && (v, n) in todo
    ensures Greeting(live, start, events + [ev], todo - {(v, n)})
  {
    hide After, ActsOf, Building, Greeted, CostsOf, CostOf, Discovery.Alive, Covers, BootedPlanes, AllCounted, LinkAdded, LinkStateFlood.CaughtUp, Through;
    var p, costs := After(live, start, events), CostsOf(live, start);
    GreetedSays(live, start, events, todo, v, n);
    PlanesRunTheNetwork(live, start, events);
    assert LinkStateFlood.Initial(live, start.net) by { PlanesBoot(live, start); }
    CanFindOneMore(live, start.net, ActsOf(live, start, events), costs, todo, v, n);
    ev := OneHello(live, start, events, costs, todo, v, n);
    var r := After(live, start, events + [ev]);
    var m :| LinkAdded(p.net, r.net, v, n, costs[v][n], m);
    AllCountedMore(start.net, p.net, r.net, v, n, costs[v][n], m);
    SameNodesNext(live, start, events, ev);
    forall u ensures Greeted(live, start, r, todo - {(v, n)}, u) { GreetedMore(live, start, p, r, todo, v, n, u); }
  }

  lemma BuildingIsPossible(live: LiveGraph, start: Net, acts: seq<Act>, act: Act, costs: LinkMap, todo: set<(Id, Id)>)
    requires Building(live, start, acts + [act], costs, todo)
    ensures LinkStateFlood.Possible(live, Through(live, start, acts), act)
  {
    hide Through, LinkStateFlood.Possible, LinkStateRuns.Step, Counted, OwnMap, AllTold;
    var all := acts + [act];
    assert Natural(live, Through(live, start, all[..|acts|]), all[|acts|]);
    assert all[..|acts|] == acts;
  }

  lemma SameNodesNext(live: LiveGraph, start: Planes, events: seq<Event>, ev: Event)
    requires BootedPlanes(live, start)
    ensures After(live, start, events + [ev]).net.nodes.Keys == After(live, start, events).net.nodes.Keys == live.Keys
  {
    SameNodes(live, start, events);
    SameNodes(live, start, events + [ev]);
  }

  /** All neighbours say hello. */
  lemma {:induction false} AllGreet(live: LiveGraph, start: Planes, events: seq<Event>, todo: set<(Id, Id)>) returns (more: seq<Event>)
    requires LinkStateFlood.Sound(live) && BootedPlanes(live, start) && Covers(live, CostsOf(live, start)) && |live.Keys| <= LinkStateFlood.BUDGET + 1
    requires Greeting(live, start, events, todo) && todo <= LinksOf(live, live.Keys)
    ensures Greeting(live, start, events + more, {})
    decreases |todo|
  {
    hide Greeting, BootedPlanes, Covers;
    more := [];
    assert events + more == events;
    if link :| link in todo {
      var hello := HelloGreets(live, start, events, todo, link.0, link.1);
      more := AllGreet(live, start, events + [hello], todo - {link});
      assert events + [hello] + more == events + ([hello] + more);
      more := [hello] + more;
    } else {
      assert todo == {};
    }
  }

  // ------------------------------------------- deliveries and refreshes

  /** The event of a plane behind a delivery or refresh of its routing plane. */
  function Behind(act: Act): Event
    requires act.Delivering? || act.Local?
  {
    if act.Delivering?
    then At(act.e.to, Discovery.Step.Step(Discovery.Announcement(act.e.info.via, act.e.info), "", act.now))
    else At(act.v, Discovery.Step.Step(Discovery.Duty(act.ev.input), act.ev.msgId, act.ev.now))
  }

  /** Once all are found, a natural delivery or refresh is just that of its plane. */
  lemma PlainHappens(live: LiveGraph, start: Planes, events: seq<Event>, act: Act)
    requires LinkStateFlood.Sound(live) && Mutual(live) && BootedPlanes(live, start) && AllFound(live, After(live, start, events))
    requires Natural(live, After(live, start, events).net, act) && Plain([act])
    ensures var p := After(live, start, events);
      && Happens(live, p, Behind(act)) && ActsAt(p, Behind(act)) == [act] && AllFound(live, Next(live, p, Behind(act)))
  {
    var p := After(live, start, events);
    assert [act][0] == act;
    var v := if act.Delivering? then act.e.to else act.v;
    SameNodes(live, start, events);
    assert v in live;
    LinksAreAlive(live, start, events, v);
    NaturalHeard(live, p.net, act, v);
    hide Natural, After;
    if act.Delivering? {
      ViaIsLinked(live, start, events, act.e);
      DeliveryBehind(live, p, act);
    } else {
      RefreshBehind(live, p, act);
    }
  }

  /** Whom a node knows is not changed by a delivery or refresh. */
  lemma NaturalHeard(live: LiveGraph, net: Net, act: Act, v: Id)
    requires Natural(live, net, act) && (act.Delivering? || (act.Local? && act.ev.input.Refresh?))
    requires v == if act.Delivering? then act.e.to else act.v
    ensures v in net.nodes && act.heard == net.nodes[v].links.Keys && LinkStateFlood.Possible(live, net, act)
  {
    assert v in net.nodes;
    hide LinkStateFlood.Possible;
    if act.Delivering? {
      DeliveryAt(live, net, act.e, act.now, act.heard);
      SameLinksAfter(v, net.nodes[v], act.e.info, act.now);
    } else {
      LocalAt(live, net, v, act.ev, act.heard);
      RefreshKeepsLinks(v, net.nodes[v], act.ev);
    }
  }

  lemma ViaIsLinked(live: LiveGraph, start: Planes, events: seq<Event>, e: Envelope)
    requires LinkStateFlood.Sound(live) && Mutual(live) && BootedPlanes(live, start)
    requires LinkStateFlood.InFlight(After(live, start, events).net, e)
    ensures e.to in live && e.info.via in live[e.to]
  {
    var net := After(live, start, events).net;
    PlanesRunTheNetwork(live, start, events);
    BootedIsOk(live, start.net, "");
    RunIsSafe(live, start.net, ActsOf(live, start, events));
    hide After, Through;
    assert FloodSafe(live, net, e.info.msgId) && CopyOk(live, net.floods[e.info.msgId], e.info.msgId, e);
  }

  lemma DeliveryBehind(live: LiveGraph, p: Planes, act: Act)
    requires act.Delivering? && LinkStateFlood.Possible(live, p.net, act) && act.e.to in live && act.e.info.via in live[act.e.to]
    requires AllFound(live, p) && act.heard == live[act.e.to] && p.net.nodes.Keys == live.Keys
    ensures Happens(live, p, Behind(act)) && ActsAt(p, Behind(act)) == [act] && AllFound(live, Next(live, p, Behind(act)))
  {
    hide Through, AllPossible, LinkStateFlood.Possible, Discovery.Internal, Discovery.Report, Discovery.Alive, Discovery.Heard;
    var v, via := act.e.to, act.e.info.via;
    FoundIs(live, p, v);
    KnownIsHeard(v, p.neighbors[v], via, act.now);
    hide AllFound;
    assert ActsAt(p, Behind(act)) == [] + [act] == [act];
    AfterOne(live, p.net, act);
    assert Next(live, p, Behind(act)).neighbors == p.neighbors[v := Discovery.Heard(v, p.neighbors[v], via, act.now).0];
    StillFound(live, p, Next(live, p, Behind(act)), v);
  }

  lemma FoundIs(live: LiveGraph, p: Planes, v: Id)
    requires AllFound(live, p) && v in live
    ensures v in p.neighbors && Discovery.Alive(p.neighbors[v]) == live[v]
  {
  }

  /** Hearing someone known to be alive changes nobody's standing. */
  lemma KnownIsHeard(v: Id, ns: Discovery.Neighbors, via: Id, now: SeenCaches.Time)
    requires via in Discovery.Alive(ns)
    ensures var r := Discovery.Heard(v, ns, via, now); r.1 == None && Discovery.Alive(r.0) == Discovery.Alive(ns)
  {
  }

  lemma StillFound(live: LiveGraph, p: Planes, r: Planes, v: Id)
    requires AllFound(live, p) && v in p.neighbors && v in r.neighbors && r.neighbors == p.neighbors[v := r.neighbors[v]]
    requires Discovery.Alive(r.neighbors[v]) == Discovery.Alive(p.neighbors[v])
    ensures AllFound(live, r)
  {
    hide Discovery.Alive;
  }

  lemma RefreshBehind(live: LiveGraph, p: Planes, act: Act)
    requires act.Local? && act.ev.input.Refresh? && LinkStateFlood.Possible(live, p.net, act) && act.v in live
    requires AllFound(live, p) && act.heard == live[act.v] && p.net.nodes.Keys == live.Keys
    ensures Happens(live, p, Behind(act)) && ActsAt(p, Behind(act)) == [act] && AllFound(live, Next(live, p, Behind(act)))
  {
    assert ActsAt(p, Behind(act)) == [act];
    AfterOne(live, p.net, act);
    hide Through, AllPossible, LinkStateFlood.Possible, Discovery.Internal;
    assert Next(live, p, Behind(act)).neighbors == p.neighbors[act.v := p.neighbors[act.v]];
  }

  /** Once all are found, every natural run of deliveries and refreshes is one of
      planes. */
  lemma {:induction false} PlainRun(live: LiveGraph, start: Planes, events: seq<Event>, acts: seq<Act>) returns (more: seq<Event>)
    requires LinkStateFlood.Sound(live) && Mutual(live) && BootedPlanes(live, start) && AllFound(live, After(live, start, events))
    requires AllNatural(live, start.net, ActsOf(live, start, events) + acts) && Plain(acts)
    ensures ActsOf(live, start, events + more) == ActsOf(live, start, events) + acts
    ensures AllFound(live, After(live, start, events + more))
    decreases |acts|
  {
    hide After, ActsOf, Through, AllFound, Natural, Mutual, BootedPlanes, Happens, ActsAt, Next;
    more := [];
    assert events + more == events;
    var done := ActsOf(live, start, events);
    if acts == [] {
      assert done + acts == done;
    } else {
      var act := acts[0];
      assert (done + acts)[|done|] == act && (done + acts)[..|done|] == done;
      assert Natural(live, Through(live, start.net, done), act);
      PlanesRunTheNetwork(live, start, events);
      assert Plain([act]);
      PlainHappens(live, start, events, act);
      OneMore(live, start, events, Behind(act), act);
      assert done + [act] + acts[1..] == done + acts;
      more := PlainRun(live, start, events + [Behind(act)], acts[1..]);
      assert events + [Behind(act)] + more == events + ([Behind(act)] + more);
      more := [Behind(act)] + more;
    }
  }

  // ---------------------------------------------------------- main result

  /** From boot, every network of at most sixteen nodes that hear each other finds all
      its neighbours, refreshes and comes to rest in some run of hellos, deliveries
      and refreshes. */
  lemma FoundIsReachable(live: LiveGraph, start: Planes) returns (events: seq<Event>)
    requires LinkStateFlood.Sound(live) && Mutual(live) && |live.Keys| <= LinkStateFlood.BUDGET + 1 && BootedPlanes(live, start)
    ensures AllNatural(live, start.net, ActsOf(live, start, events))
    ensures var p := After(live, start, events);
      && AllFound(live, p) && AllTold(p.net) && LinkStateFlood.Quiet(p.net)
      && forall o :: o in live ==> Refreshed(live, start.net, ActsOf(live, start, events), o)
  {
    hide Greeting, Complete, Mutual, After, ActsOf, Through, AllFound, Covers, CostsOf, LinkStateFlood.Quiet, Refreshed, AllTold, AllNatural, Plain, LinkStateFlood.Initial, BootedPlanes, LinkStateFlood.Sound;
    BootedIsGreeting(live, start);
    CostsAreReal(live, start);
    var hellos := AllGreet(live, start, [], LinksOf(live, live.Keys));
    assert [] + hellos == hellos;
    GreetedIsFound(live, start, hellos);
    var acts := RestOf(live, start.net, ActsOf(live, start, hellos), CostsOf(live, start));
    var more := PlainRun(live, start, hellos, acts);
    events := hellos + more;
    PlanesRunTheNetwork(live, start, events);
  }

  /** A complete network falls quiet, and then all refresh. */
  lemma RestOf(live: LiveGraph, start: Net, acts: seq<Act>, costs: LinkMap) returns (more: seq<Act>)
    requires LinkStateFlood.Sound(live) && LinkStateFlood.Initial(live, start) && Covers(live, costs) && Complete(live, start, acts, costs)
    ensures Plain(more) && AllNatural(live, start, acts + more)
    ensures AllTold(Through(live, start, acts + more)) && LinkStateFlood.Quiet(Through(live, start, acts + more))
    ensures forall o :: o in live ==> Refreshed(live, start, acts + more, o)
  {
    hide Complete, Through, Covers, LinkStateFlood.Quiet, Refreshed, AllTold, AllNatural, LinkStateFlood.Initial, LinkStateFlood.Sound, OnlyFlying;
    EverythingMayFly(Through(live, start, acts));
    var drained := DrainAll(live, start, acts, costs, Through(live, start, acts).floods.Keys);
    var refreshed := RefreshAll(live, start, acts + drained, costs, live.Keys);
    more := drained + refreshed;
    assert acts + drained + refreshed == acts + more;
    CompleteIsNatural(live, start, acts + more, costs);
  }

  lemma CompleteIsNatural(live: LiveGraph, start: Net, acts: seq<Act>, costs: LinkMap)
    requires Complete(live, start, acts, costs)
    ensures AllNatural(live, start, acts) && AllTold(Through(live, start, acts))
  {
    hide AllNatural, AllTold, Through;
  }

  lemma GreetedIsFound(live: LiveGraph, start: Planes, events: seq<Event>)
    requires Greeting(live, start, events, {})
    ensures AllFound(live, After(live, start, events)) && Complete(live, start.net, ActsOf(live, start, events), CostsOf(live, start))
  {
    BuiltIsComplete(live, start.net, ActsOf(live, start, events), CostsOf(live, start));
    hide Building, Complete, After, ActsOf, CostsOf, CostOf;
    var p := After(live, start, events);
    forall v | v in live ensures v in p.neighbors && Discovery.Alive(p.neighbors[v]) == live[v] {
      assert Greeted(live, start, p, {}, v);
    }
  }

  lemma CostsAreReal(live: LiveGraph, start: Planes)
    requires LinkStateFlood.Sound(live) && BootedPlanes(live, start)
    ensures Covers(live, CostsOf(live, start))
  {
  }

  lemma BootedIsGreeting(live: LiveGraph, start: Planes)
    requires LinkStateFlood.Sound(live) && BootedPlanes(live, start)
    ensures LinkStateFlood.Initial(live, start.net) && Greeting(live, start, [], LinksOf(live, live.Keys))
  {
    CostsAreReal(live, start);
    BootIsBuilt(live, start.net, CostsOf(live, start));
    hide Building;
    var todo := LinksOf(live, live.Keys);
    forall v ensures Greeted(live, start, start, todo, v) {
      if v in live {
        assert forall n :: n in live[v] ==> (v, n) in todo;
        assert Discovery.Alive(start.neighbors[v]) == {};
      }
    }
  }
}
