/** A network of discovery planes: links come up and go down only because hellos,
    echoes and announcements are heard or are not, and a node floods to those whom
    it has found alive so far. */
module PlaneNetworks {
  import opened Options
  import opened Ordering
  import opened SeenCaches
  import opened LinkState
  import opened FloodCore
  import LinkStateFlood
  import opened LinkStateRuns
  import Healing
  import opened Graphs
  import opened HopByHop
  import opened Drift
  import Discovery
  import opened EndToEnd

  type Net = LinkStateFlood.Net
  type Act = LinkStateFlood.Event

  /** The routing planes and what is in flight between them, and what each node
      knows of its neighbours. */
  datatype Planes = Planes(net: Net, neighbors: map<Id, Discovery.Neighbors>)

  /** One handler call at one node, where an announcement is a copy in flight to it;
      or a copy is dropped. */
  datatype Event = At(v: Id, step: Discovery.Step) | Dropped(e: Envelope, now: Time)

  ghost function PlaneOf(p: Planes, v: Id): Discovery.Plane
    requires v in p.net.nodes && v in p.neighbors
  {
    Discovery.Plane(p.neighbors[v], Discovery.LinkStateMode(p.net.nodes[v]))
  }

  /** A report of the discovery plane, as an event of the routing plane. */
  function Reported(v: Id, n: Id, cost: Option<real>, msgId: string, now: Time, heard: set<Id>): seq<Act> {
    if cost.None? then [] else [LinkStateFlood.Local(v, LinkState.Event(LinkUp(n, cost.value), msgId, now), heard)]
  }

  function LinksLost(v: Id, downs: seq<(Id, string)>, now: Time, heard: set<Id>): seq<Act> {
    if downs == [] then []
    else
      var last := downs[|downs| - 1];
      LinksLost(v, downs[..|downs| - 1], now, heard) + [LinkStateFlood.Local(v, LinkState.Event(LinkDown(last.0), last.1, now), heard)]
  }

  /** What the handler calls of discovery come to. */
  function Heeded(v: Id, ns: Discovery.Neighbors, step: Discovery.Step): (Discovery.Neighbors, Option<real>) {
    match step.input
    case Hello(from) => Discovery.Heard(v, ns, from, step.now)
    case Echo(from, sent, clock) => Discovery.Measured(v, ns, from, Discovery.EchoCost(sent, clock), step.now)
    case Announcement(via, _) => Discovery.Heard(v, ns, via, step.now)
    case Reap(_) => (Discovery.Reaped(ns, step.now), None)
    case Duty(_) => (ns, None)
  }

  /** What a handler call does to the routing plane and the network: it floods to
      whom it finds alive, `Neighbors()` as the call leaves it. */
  function Acts(v: Id, ns: Discovery.Neighbors, step: Discovery.Step): seq<Act> {
    var (after, cost) := Heeded(v, ns, step);
    var heard := Discovery.Alive(after);
    match step.input
    case Hello(from) => Reported(v, from, cost, step.msgId, step.now, heard)
    case Echo(from, _, _) => Reported(v, from, cost, step.msgId, step.now, heard)
    case Announcement(via, info) =>
      Reported(v, via, cost, step.msgId, step.now, heard) + [LinkStateFlood.Delivering(Envelope(v, info), step.now, heard)]
    case Reap(downs) => LinksLost(v, downs, step.now, heard)
    case Duty(input) => [LinkStateFlood.Local(v, LinkState.Event(input, step.msgId, step.now), heard)]
  }

  function ActsAt(p: Planes, ev: Event): seq<Act> {
    match ev
    case At(v, step) => if v in p.neighbors then Acts(v, p.neighbors[v], step) else []
    case Dropped(e, now) => [LinkStateFlood.Losing(e, now)]
  }

  ghost predicate AllPossible(live: LiveGraph, net: Net, acts: seq<Act>) {
    acts != [] ==>
      var init := acts[..|acts| - 1];
      AllPossible(live, net, init) && LinkStateFlood.Possible(live, Through(live, net, init), acts[|acts| - 1])
  }

  /** What can happen next: a handler call that discovery allows, at one end of live
      links only and with fresh message ids, where an announcement comes from the
      neighbour it names as previous hop; or any copy is dropped. */
  ghost predicate Happens(live: LiveGraph, p: Planes, ev: Event) {
    && (ev.At? ==>
          && ev.v in p.net.nodes && ev.v in p.neighbors
          && Discovery.Possible(PlaneOf(p, ev.v), ev.step)
          && (ev.step.input.Announcement? ==> ev.step.input.via == ev.step.input.info.via))
    && AllPossible(live, p.net, ActsAt(p, ev))
  }

  ghost function Next(live: LiveGraph, p: Planes, ev: Event): Planes {
    if !Happens(live, p, ev) then p
    else
      var net := Through(live, p.net, ActsAt(p, ev));
      match ev
      case At(v, step) => Planes(net, p.neighbors[v := Discovery.Next(v, PlaneOf(p, v), step).neighbors])
      case Dropped(_, _) => p.(net := net)
  }

  ghost function After(live: LiveGraph, start: Planes, events: seq<Event>): Planes {
    if events == [] then start
    else Next(live, After(live, start, events[..|events| - 1]), events[|events| - 1])
  }

  /** What a run does to the routing planes and the network. */
  ghost function ActsOf(live: LiveGraph, start: Planes, events: seq<Event>): seq<Act> {
    if events == [] then []
    else
      var before, ev := events[..|events| - 1], events[|events| - 1];
      var p := After(live, start, before);
      ActsOf(live, start, before) + if Happens(live, p, ev) then ActsAt(p, ev) else []
  }

  // ------------------------------------------ what it is to the routing plane

  lemma {:induction false} ThroughConcat(live: LiveGraph, net: Net, a: seq<Act>, b: seq<Act>)
    ensures Through(live, net, a + b) == Through(live, Through(live, net, a), b)
    decreases |b|
  {
    hide LinkStateRuns.Step;
    if b == [] {
      assert a + b == a;
    } else {
      ThroughConcat(live, net, a, b[..|b| - 1]);
      assert (a + b)[..|a + b| - 1] == a + b[..|b| - 1];
    }
  }

  /** Every run of planes is a run of the routing planes. */
  lemma {:induction false} PlanesRunTheNetwork(live: LiveGraph, start: Planes, events: seq<Event>)
    ensures Through(live, start.net, ActsOf(live, start, events)) == After(live, start, events).net
  {
    hide Through, AllPossible, ActsAt, Happens;
    if events == [] {
      NoActs(live, start.net);
    } else {
      var before, ev := events[..|events| - 1], events[|events| - 1];
      var p := After(live, start, before);
      PlanesRunTheNetwork(live, start, before);
      if Happens(live, p, ev) {
        ThroughConcat(live, start.net, ActsOf(live, start, before), ActsAt(p, ev));
      } else {
        assert ActsOf(live, start, before) + [] == ActsOf(live, start, before);
      }
    }
  }

  lemma NoActs(live: LiveGraph, net: Net)
    ensures Through(live, net, []) == net
  {
  }

  // --------------------------------------------- what it is to each node

  /** A local event of the routing plane at `v`, seen from `u`. */
  lemma LocalAt(live: LiveGraph, net: Net, v: Id, ev: LinkState.Event, heard: set<Id>)
    requires LinkStateFlood.Possible(live, net, LinkStateFlood.Local(v, ev, heard))
    ensures LinkStateRuns.Step(live, net, LinkStateFlood.Local(v, ev, heard)).nodes ==
            net.nodes[v := Handle(v, net.nodes[v], ev).0]
  {
    hide Handle, Relay;
  }

  lemma DeliveryAt(live: LiveGraph, net: Net, e: Envelope, now: Time, heard: set<Id>)
    requires LinkStateFlood.Possible(live, net, LinkStateFlood.Delivering(e, now, heard))
    ensures LinkStateRuns.Step(live, net, LinkStateFlood.Delivering(e, now, heard)).nodes ==
            net.nodes[e.to := HandleInfo(e.to, net.nodes[e.to], e.info, now).0]
  {
    hide HandleInfo, Relay;
  }

  lemma AfterOne(live: LiveGraph, net: Net, ev: Act)
    ensures Through(live, net, [ev]) == LinkStateRuns.Step(live, net, ev)
    ensures AllPossible(live, net, [ev]) <==> LinkStateFlood.Possible(live, net, ev)
  {
    hide LinkStateRuns.Step, LinkStateFlood.Possible;
    assert [ev][..|[ev]| - 1] == [];
    NoActs(live, net);
    assert AllPossible(live, net, []);
  }

  lemma AfterLast(live: LiveGraph, net: Net, acts: seq<Act>, ev: Act)
    ensures Through(live, net, acts + [ev]) == LinkStateRuns.Step(live, Through(live, net, acts), ev)
    ensures AllPossible(live, net, acts + [ev]) ==>
              AllPossible(live, net, acts) && LinkStateFlood.Possible(live, Through(live, net, acts), ev)
  {
    hide LinkStateRuns.Step, LinkStateFlood.Possible;
    assert (acts + [ev])[..|acts + [ev]| - 1] == acts;
  }

  lemma ReportActs(live: LiveGraph, net: Net, v: Id, n: Id, cost: Option<real>, msgId: string, now: Time, heard: set<Id>)
    requires v in net.nodes && AllPossible(live, net, Reported(v, n, cost, msgId, now, heard))
    ensures var r := Through(live, net, Reported(v, n, cost, msgId, now, heard));
      && v in r.nodes && r.nodes == net.nodes[v := r.nodes[v]]
      && Discovery.Report(v, Discovery.LinkStateMode(net.nodes[v]), n, cost, msgId, now) == Discovery.LinkStateMode(r.nodes[v])
  {
    if cost.Some? {
      var ev := LinkState.Event(LinkUp(n, cost.value), msgId, now);
      AfterOne(live, net, LinkStateFlood.Local(v, ev, heard));
      hide Through, LinkStateRuns.Step, LinkStateFlood.Possible, AllPossible, OnLinkUp;
      LocalAt(live, net, v, ev, heard);
    }
  }

  lemma {:induction false} DownsAct(live: LiveGraph, net: Net, v: Id, downs: seq<(Id, string)>, now: Time, heard: set<Id>)
    requires v in net.nodes && AllPossible(live, net, LinksLost(v, downs, now, heard))
    ensures var r := Through(live, net, LinksLost(v, downs, now, heard));
      && v in r.nodes && r.nodes == net.nodes[v := r.nodes[v]]
      && Discovery.LinksDown(v, Discovery.LinkStateMode(net.nodes[v]), downs, now) == Discovery.LinkStateMode(r.nodes[v])
    decreases |downs|
  {
    if downs != [] {
      var init, last := downs[..|downs| - 1], downs[|downs| - 1];
      var ev := LinkState.Event(LinkDown(last.0), last.1, now);
      AfterLast(live, net, LinksLost(v, init, now, heard), LinkStateFlood.Local(v, ev, heard));
      hide Through, LinkStateRuns.Step, LinkStateFlood.Possible, AllPossible, OnLinkDown;
      DownsAct(live, net, v, init, now, heard);
      LocalAt(live, Through(live, net, LinksLost(v, init, now, heard)), v, ev, heard);
    }
  }

  lemma InfoActs(live: LiveGraph, net: Net, v: Id, first: seq<Act>, info: Info, now: Time, heard: set<Id>)
    requires AllPossible(live, net, first + [LinkStateFlood.Delivering(Envelope(v, info), now, heard)])
    ensures var mid := Through(live, net, first);
      var r := Through(live, net, first + [LinkStateFlood.Delivering(Envelope(v, info), now, heard)]);
      && AllPossible(live, net, first) && v in mid.nodes && v in r.nodes && r.nodes == mid.nodes[v := r.nodes[v]]
      && Discovery.Internal(v, Discovery.LinkStateMode(mid.nodes[v]), Received(info), "", now) == Discovery.LinkStateMode(r.nodes[v])
  {
    AfterLast(live, net, first, LinkStateFlood.Delivering(Envelope(v, info), now, heard));
    hide Through, LinkStateRuns.Step, AllPossible, HandleInfo;
    DeliveryAt(live, Through(live, net, first), Envelope(v, info), now, heard);
  }

  lemma AnnouncementActs(live: LiveGraph, net: Net, v: Id, via: Id, cost: Option<real>, msgId: string, info: Info, now: Time, heard: set<Id>)
    requires v in net.nodes
    requires AllPossible(live, net, Reported(v, via, cost, msgId, now, heard) + [LinkStateFlood.Delivering(Envelope(v, info), now, heard)])
    ensures var r := Through(live, net, Reported(v, via, cost, msgId, now, heard) + [LinkStateFlood.Delivering(Envelope(v, info), now, heard)]);
      && v in r.nodes && r.nodes == net.nodes[v := r.nodes[v]]
      && Discovery.Internal(v, Discovery.Report(v, Discovery.LinkStateMode(net.nodes[v]), via, cost, msgId, now), Received(info), "", now) ==
           Discovery.LinkStateMode(r.nodes[v])
  {
    hide Through, AllPossible, Discovery.Internal, Reported, Discovery.Report;
    InfoActs(live, net, v, Reported(v, via, cost, msgId, now, heard), info, now, heard);
    ReportActs(live, net, v, via, cost, msgId, now, heard);
  }

  lemma DutyActs(live: LiveGraph, net: Net, v: Id, input: LinkState.Input, msgId: string, now: Time, heard: set<Id>)
    requires v in net.nodes && AllPossible(live, net, [LinkStateFlood.Local(v, LinkState.Event(input, msgId, now), heard)])
    ensures var r := Through(live, net, [LinkStateFlood.Local(v, LinkState.Event(input, msgId, now), heard)]);
      && v in r.nodes && r.nodes == net.nodes[v := r.nodes[v]]
      && Discovery.Internal(v, Discovery.LinkStateMode(net.nodes[v]), input, msgId, now) == Discovery.LinkStateMode(r.nodes[v])
  {
    var ev := LinkState.Event(input, msgId, now);
    AfterOne(live, net, LinkStateFlood.Local(v, ev, heard));
    hide Through, LinkStateRuns.Step, LinkStateFlood.Possible, AllPossible, Handle;
    LocalAt(live, net, v, ev, heard);
  }

  /** A handler call at `v` leads from `p` to `r`, as a step of the plane of `v`;
      no other plane moves. */
  ghost predicate OneStep(p: Planes, r: Planes, v: Id, step: Discovery.Step) {
    && v in p.net.nodes && v in p.neighbors && v in r.net.nodes && v in r.neighbors
    && PlaneOf(r, v) == Discovery.Next(v, PlaneOf(p, v), step)
    && r.net.nodes == p.net.nodes[v := r.net.nodes[v]] && r.neighbors == p.neighbors[v := r.neighbors[v]]
  }

  lemma AnnouncementIsAStep(live: LiveGraph, p: Planes, v: Id, step: Discovery.Step)
    requires Happens(live, p, At(v, step)) && step.input.Announcement?
    ensures OneStep(p, Next(live, p, At(v, step)), v, step)
  {
    var (after, cost) := Discovery.Heard(v, p.neighbors[v], step.input.via, step.now);
    hide Through, AllPossible, Discovery.Internal, Reported, Discovery.Report, Discovery.Heard;
    AnnouncementActs(live, p.net, v, step.input.via, cost, step.msgId, step.input.info, step.now, Discovery.Alive(after));
  }

  lemma ReapIsAStep(live: LiveGraph, p: Planes, v: Id, step: Discovery.Step)
    requires Happens(live, p, At(v, step)) && step.input.Reap?
    ensures OneStep(p, Next(live, p, At(v, step)), v, step)
  {
    hide Through, AllPossible, Discovery.LinksDown, LinksLost;
    DownsAct(live, p.net, v, step.input.downs, step.now, Discovery.Alive(Discovery.Reaped(p.neighbors[v], step.now)));
  }

  lemma ReportIsAStep(live: LiveGraph, p: Planes, v: Id, step: Discovery.Step)
    requires Happens(live, p, At(v, step)) && (step.input.Hello? || step.input.Echo?)
    ensures OneStep(p, Next(live, p, At(v, step)), v, step)
  {
    var (after, cost) := Heeded(v, p.neighbors[v], step);
    hide Through, AllPossible, Reported, Discovery.Report, Discovery.Heard, Discovery.Measured;
    ReportActs(live, p.net, v, step.input.from, cost, step.msgId, step.now, Discovery.Alive(after));
  }

  lemma HandlerIsAStep(live: LiveGraph, p: Planes, v: Id, step: Discovery.Step)
    requires Happens(live, p, At(v, step))
    ensures OneStep(p, Next(live, p, At(v, step)), v, step)
  {
    match step.input
    case Announcement(_, _) => AnnouncementIsAStep(live, p, v, step);
    case Reap(_) => ReapIsAStep(live, p, v, step);
    case Duty(input) =>
      DutyActs(live, p.net, v, input, step.msgId, step.now, Discovery.Alive(p.neighbors[v]));
      hide Through, AllPossible, Discovery.Internal;
    case _ => ReportIsAStep(live, p, v, step);
  }

  lemma DropMovesNobody(live: LiveGraph, p: Planes, e: Envelope, now: Time)
    requires Happens(live, p, Dropped(e, now))
    ensures var r := Next(live, p, Dropped(e, now)); r.net.nodes == p.net.nodes && r.neighbors == p.neighbors
  {
    AfterOne(live, p.net, LinkStateFlood.Losing(e, now));
  }

  /** Every node has a plane. */
  ghost predicate Covering(p: Planes) {
    p.neighbors.Keys == p.net.nodes.Keys
  }

  /** Every run of planes is, at each node, a run of its own plane: so whatever
      holds of one plane alone holds of it in the network. */
  lemma {:induction false} PlanesRunEachNode(live: LiveGraph, start: Planes, events: seq<Event>, v: Id) returns (steps: seq<Discovery.Step>)
    requires Covering(start) && v in start.net.nodes
    ensures var r := After(live, start, events);
      Covering(r) && r.net.nodes.Keys == start.net.nodes.Keys
      && PlaneOf(r, v) == Discovery.Run(v, PlaneOf(start, v), steps)
  {
    hide Through, Happens, Discovery.Next;
    steps := [];
    if events != [] {
      var before, ev := events[..|events| - 1], events[|events| - 1];
      var p := After(live, start, before);
      steps := PlanesRunEachNode(live, start, before, v);
      if Happens(live, p, ev) {
        match ev
        case At(u, step) =>
          HandlerIsAStep(live, p, u, step);
          if u == v {
            assert (steps + [step])[..|steps|] == steps;
            steps := steps + [step];
          }
        case Dropped(e, now) => DropMovesNobody(live, p, e, now);
      }
    }
  }

  // ------------------------------------------------------- the whole chain

  /** Nodes as they boot, with their configured neighbours at costs no lower than
      the floor. */
  ghost predicate BootedPlanes(live: LiveGraph, p: Planes) {
    && Booted(live, p.net) && Covering(p)
    && forall v, id :: v in p.neighbors && id in p.neighbors[v] ==>
         var n := p.neighbors[v][id];
         !n.alive && n.lastSeen.None? && n.cost >= Discovery.MIN_COST
  }

  /** Every node has found just its live neighbours. */
  ghost predicate AllFound(live: LiveGraph, p: Planes) {
    forall v :: v in live ==> v in p.neighbors && Discovery.Alive(p.neighbors[v]) == live[v]
  }

  /** Discovery keeps routing in step, at every node of every run. */
  lemma LinksAreAlive(live: LiveGraph, start: Planes, events: seq<Event>, v: Id)
    requires BootedPlanes(live, start) && v in live
    ensures var r := After(live, start, events);
      && Covering(r) && v in r.net.nodes && v in r.neighbors
      && r.net.nodes[v].links == Discovery.LiveCosts(r.neighbors[v])
      && r.net.nodes[v].links.Keys == Discovery.Alive(r.neighbors[v])
  {
    var steps := PlanesRunEachNode(live, start, events, v);
    assert Discovery.Fresh(PlaneOf(start, v));
    Discovery.DiscoveryAgrees(v, PlaneOf(start, v), steps);
    hide After, Discovery.Run;
  }

  lemma NodeIsMeasured(live: LiveGraph, start: Planes, events: seq<Event>, o: Id)
    requires BootedPlanes(live, start) && o in live && AllFound(live, After(live, start, events))
    ensures EndToEnd.Measured(live, After(live, start, events).net, o)
  {
    hide After, Discovery.Run;
    var steps := PlanesRunEachNode(live, start, events, o);
    assert Discovery.Fresh(PlaneOf(start, o));
    MeasuredByDiscovery(live, After(live, start, events).net, o, PlaneOf(start, o), steps);
  }

  lemma FoundSettles(live: LiveGraph, start: Planes, events: seq<Event>)
    requires LinkStateFlood.Sound(live) && BootedPlanes(live, start) && |live.Keys| <= LinkStateFlood.BUDGET + 1
    requires AllFound(live, After(live, start, events)) && AllTold(After(live, start, events).net) && Connected(live)
    requires forall o :: o in live ==> Refreshed(live, start.net, ActsOf(live, start, events), o)
    ensures Settles(live, start.net, ActsOf(live, start, events))
  {
    hide After, ActsOf, Connected, Refreshed, AllFound, Through;
    var net := After(live, start, events).net;
    PlanesRunTheNetwork(live, start, events);
    ToldIsSaid(net);
    hide AllTold;
    forall o ensures EndToEnd.Measured(live, net, o) && Priced(SaidMap(net), o) {
      if o in live {
        NodeIsMeasured(live, start, events, o);
      } else {
        assert net.nodes.Keys == live.Keys by { NodesStayOk(live, start.net, ActsOf(live, start, events), ""); }
      }
    }
  }

  /** From hellos to delivered messages, for at most sixteen nodes: hellos, echoes,
      announcements, sweeps, refreshes and losses in any order; once every node has
      found its live neighbours, has flooded its latest announcement undisturbed
      through nodes that had found all theirs, and has nothing left to say, a
      message from any node to any other arrives at the least cost of any walk. */
  lemma EveryMessageArrives(live: LiveGraph, start: Planes, events: seq<Event>, u: Id, d: Id, id: string)
    requires LinkStateFlood.Sound(live) && BootedPlanes(live, start) && |live.Keys| <= LinkStateFlood.BUDGET + 1
    requires AllFound(live, After(live, start, events)) && AllTold(After(live, start, events).net) && Connected(live)
    requires forall o :: o in live ==> Refreshed(live, start.net, ActsOf(live, start, events), o)
    requires u in live && d in live && u != d
    ensures var net := After(live, start, events).net;
      var g, tables := TheGraph(net), Published(net);
      && Routable(tables, u, d) && HasLink(g, u, NextHop(tables, u, d))
      && Sent(g, tables, u, d, id).Arrived?
      && LeastCost(g, u, d, Sent(g, tables, u, d, id).cost)
  {
    hide After, ActsOf, Through, AllFound, AllTold, Refreshed, Settles, Connected;
    FoundSettles(live, start, events);
    PlanesRunTheNetwork(live, start, events);
    EndToEnd.EveryMessageArrives(live, start.net, ActsOf(live, start, events), u, d, id);
  }

  // ------------------------------------- refreshed since the last link came up

  /** Nothing of this event disturbs announcement `m` of `o`. */
  ghost predicate Spares(p: Planes, ev: Event, o: Id, m: string) {
    m in p.net.floods ==>
      match ev
      case At(v, step) =>
        && (step.input.Announcement? && step.input.info.msgId in p.net.floods
            && p.net.floods[step.input.info.msgId].lsp.origin == o ==>
              p.net.floods[m].lsp.number - p.net.floods[step.input.info.msgId].lsp.number < SEQ_RESET_GAP)
        && (step.input.Duty? && step.input.input.Ageing? && v in p.net.nodes && o in p.net.nodes[v].lsdb
            && p.net.nodes[v].lsdb[o].number == p.net.floods[m].lsp.number ==>
              step.now - p.net.nodes[v].lsdb[o].refreshed <= LSP_MAX_AGE)
      case Dropped(e, _) => e.info.msgId != m
  }

  /** From the `since`th event on every node has found its live neighbours. */
  ghost predicate FoundSince(live: LiveGraph, start: Planes, events: seq<Event>, since: nat) {
    forall i :: since <= i <= |events| ==> AllFound(live, After(live, start, events[..i]))
  }

  ghost predicate Undisturbed(live: LiveGraph, start: Planes, events: seq<Event>, since: nat, o: Id, m: string) {
    forall i :: since <= i < |events| ==> Spares(After(live, start, events[..i]), events[i], o, m)
  }

  /** While all are found a handler call is at most one event of the routing plane,
      at which its node knows all its neighbours. */
  lemma SingleAct(live: LiveGraph, p: Planes, ev: Event, o: Id, m: string)
    requires Happens(live, p, ev) && p.net.nodes.Keys == live.Keys
    requires AllFound(live, p) && AllFound(live, Next(live, p, ev)) && Spares(p, ev, o, m)
    ensures ActsAt(p, ev) == [] || exists act :: ActsAt(p, ev) == [act] && Healing.Sparing(live, p.net, act, o, m)
  {
    match ev
    case Dropped(e, now) => assert ActsAt(p, ev) == [LinkStateFlood.Losing(e, now)];
    case At(v, step) =>
      var ns, after := p.neighbors[v], Discovery.Next(v, PlaneOf(p, v), step).neighbors;
      assert v in live && Discovery.Alive(ns) == live[v] && Discovery.Alive(after) == live[v];
      hide Through, AllPossible;
      HeededIsNext(p, v, step);
      match step.input
      case Hello(from) => KnownIsSilent(v, ns, from, step.now, live[v]);
      case Echo(from, sent, clock) =>
        var acts := ActsAt(p, ev);
        if acts != [] { assert acts == [acts[0]] && Healing.Sparing(live, p.net, acts[0], o, m); }
      case Announcement(via, info) =>
        KnownIsSilent(v, ns, via, step.now, live[v]);
        var act := LinkStateFlood.Delivering(Envelope(v, info), step.now, live[v]);
        assert ActsAt(p, ev) == [act] && Healing.Sparing(live, p.net, act, o, m);
      case Reap(downs) => NobodyReaped(ns, downs, step.now);
      case Duty(input) =>
        var act := LinkStateFlood.Local(v, LinkState.Event(input, step.msgId, step.now), live[v]);
        assert ActsAt(p, ev) == [act] && Healing.Sparing(live, p.net, act, o, m);
  }

  lemma HeededIsNext(p: Planes, v: Id, step: Discovery.Step)
    requires v in p.net.nodes && v in p.neighbors && Discovery.Possible(PlaneOf(p, v), step)
    ensures Heeded(v, p.neighbors[v], step).0 == Discovery.Next(v, PlaneOf(p, v), step).neighbors
  {
    hide Discovery.Report, Discovery.Internal, Discovery.LinksDown;
  }

  lemma KnownIsSilent(v: Id, ns: Discovery.Neighbors, from: Id, now: Time, alive: set<Id>)
    requires Discovery.Alive(ns) == alive == Discovery.Alive(Discovery.Heard(v, ns, from, now).0)
    ensures Discovery.Heard(v, ns, from, now).1 == None
  {
    var r := Discovery.Heard(v, ns, from, now);
    if r.1.Some? { assert from in Discovery.Alive(r.0); }
  }

  lemma NobodyReaped(ns: Discovery.Neighbors, downs: seq<(Id, string)>, now: Time)
    requires Elements(Discovery.Firsts(downs)) == Discovery.Dead(ns, now)
    requires Discovery.Alive(Discovery.Reaped(ns, now)) == Discovery.Alive(ns)
    ensures downs == []
  {
    forall id ensures id !in Discovery.Dead(ns, now) {
      assert id in Discovery.Alive(Discovery.Reaped(ns, now)) <==> id in Discovery.Alive(ns);
    }
    SomeElement(Discovery.Firsts(downs));
  }

  lemma SomeElement(s: seq<Id>)
    ensures s != [] ==> Elements(s) != {}
  {
    if s != [] { assert s[0] in Elements(s); }
  }

  lemma {:induction false} ActsAreSpared(live: LiveGraph, start: Planes, events: seq<Event>, since: nat, o: Id, m: string)
    requires BootedPlanes(live, start) && since <= |events|
    requires FoundSince(live, start, events, since) && Undisturbed(live, start, events, since, o, m)
    ensures var first := ActsOf(live, start, events[..since]);
      && first <= ActsOf(live, start, events)
      && Healing.SparedFrom(live, start.net, ActsOf(live, start, events), |first|, o, m)
    decreases |events|
  {
    hide After, ActsOf, Happens, AllFound, Spares, Next, ActsAt, Healing.SparedFrom, Through, BootedPlanes, FoundSince, Undisturbed;
    if since == |events| {
      assert events[..since] == events;
      NothingSpared(live, start.net, ActsOf(live, start, events), o, m);
    } else {
      var n := |events| - 1;
      var before, ev := events[..n], events[n];
      assert before[..since] == events[..since];
      EarlierToo(live, start, events, since, o, m);
      ActsAreSpared(live, start, before, since, o, m);
      ActsUnfold(live, start, events);
      PlanesRunTheNetwork(live, start, before);
      var p := After(live, start, before);
      var first, acts := ActsOf(live, start, events[..since]), ActsOf(live, start, before);
      if Happens(live, p, ev) {
        SameNodes(live, start, before);
        LastStep(live, start, events, since, o, m);
        SingleAct(live, p, ev, o, m);
        if ActsAt(p, ev) != [] {
          OneMoreSpared(live, start.net, acts, ActsAt(p, ev)[0], |first|, o, m);
          assert ActsAt(p, ev) == [ActsAt(p, ev)[0]];
        } else {
          assert acts + ActsAt(p, ev) == acts;
        }
      } else {
        assert acts + [] == acts;
      }
    }
  }

  lemma NothingSpared(live: LiveGraph, start: Net, acts: seq<Act>, o: Id, m: string)
    ensures Healing.SparedFrom(live, start, acts, |acts|, o, m)
  {
  }

  lemma LastStep(live: LiveGraph, start: Planes, events: seq<Event>, since: nat, o: Id, m: string)
    requires since < |events| && FoundSince(live, start, events, since) && Undisturbed(live, start, events, since, o, m)
    ensures var before, ev := events[..|events| - 1], events[|events| - 1];
      var p := After(live, start, before);
      AllFound(live, p) && Spares(p, ev, o, m) && (Happens(live, p, ev) ==> AllFound(live, Next(live, p, ev)))
  {
    hide AllFound, Spares, Happens;
    assert events[..|events|] == events;
  }

  lemma ActsUnfold(live: LiveGraph, start: Planes, events: seq<Event>)
    requires events != []
    ensures var before, ev := events[..|events| - 1], events[|events| - 1];
      var p := After(live, start, before);
      ActsOf(live, start, events) == ActsOf(live, start, before) + if Happens(live, p, ev) then ActsAt(p, ev) else []
  {
    hide Happens, ActsAt;
  }

  lemma SameNodes(live: LiveGraph, start: Planes, events: seq<Event>)
    requires BootedPlanes(live, start)
    ensures After(live, start, events).net.nodes.Keys == live.Keys
  {
    if v :| v in live {
      var steps := PlanesRunEachNode(live, start, events, v);
    } else {
      NodesStayOk(map[], start.net, [], "");
      PlanesRunTheNetwork(live, start, events);
      RunIsSafe(live, start.net, ActsOf(live, start, events));
    }
  }

  lemma EarlierToo(live: LiveGraph, start: Planes, events: seq<Event>, since: nat, o: Id, m: string)
    requires since < |events| && FoundSince(live, start, events, since) && Undisturbed(live, start, events, since, o, m)
    ensures var before := events[..|events| - 1];
      FoundSince(live, start, before, since) && Undisturbed(live, start, before, since, o, m)
  {
    hide AllFound, Spares, After;
    var before := events[..|events| - 1];
    forall i | since <= i <= |before| ensures AllFound(live, After(live, start, before[..i])) { assert before[..i] == events[..i]; }
    forall i | since <= i < |before| ensures Spares(After(live, start, before[..i]), before[i], o, m) {
      assert before[..i] == events[..i];
    }
  }

  lemma OneMoreSpared(live: LiveGraph, start: Net, acts: seq<Act>, act: Act, k: nat, o: Id, m: string)
    requires k <= |acts| && Healing.SparedFrom(live, start, acts, k, o, m) && Healing.Sparing(live, Through(live, start, acts), act, o, m)
    ensures Healing.SparedFrom(live, start, acts + [act], k, o, m)
  {
    hide Through, Healing.Sparing;
    var all := acts + [act];
    forall i | k <= i < |all| ensures Healing.Sparing(live, Through(live, start, all[..i]), all[i], o, m) {
      assert i < |acts| ==> all[..i] == acts[..i];
      assert i == |acts| ==> all[..i] == acts;
    }
  }

  /** Everyone who announces, undisturbed, after the last link has come up is
      refreshed. */
  lemma RefreshedSinceLastLink(live: LiveGraph, start: Planes, events: seq<Event>, since: nat, o: Id)
    requires BootedPlanes(live, start) && since <= |events| && FoundSince(live, start, events, since)
    requires var net := After(live, start, events).net;
      && o in net.latest && net.latest[o] in net.floods && net.floods[net.latest[o]].flying == multiset{}
      && net.latest[o] !in After(live, start, events[..since]).net.floods
      && Undisturbed(live, start, events, since, o, net.latest[o])
    ensures Refreshed(live, start.net, ActsOf(live, start, events), o)
  {
    hide After, ActsOf, Through, FoundSince, Undisturbed, Healing.SparedFrom;
    var net := After(live, start, events).net;
    var first, acts := ActsOf(live, start, events[..since]), ActsOf(live, start, events);
    PlanesRunTheNetwork(live, start, events);
    PlanesRunTheNetwork(live, start, events[..since]);
    ActsAreSpared(live, start, events, since, o, net.latest[o]);
    assert acts[..|first|] == first;
    assert RefreshedSince(live, start.net, acts, |first|, o);
  }
}
