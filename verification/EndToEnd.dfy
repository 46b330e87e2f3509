/** From announcements to delivered messages: once everyone has been refreshed, every
    node routes by its own measurements and what all others last announced; when
    those agree, over one graph; and messages arrive. Before that anything may be
    lost, expire or come late, and nodes may not know each other yet. */
module EndToEnd {
  import opened Ordering
  import opened Graphs
  import opened ShortestPaths
  import opened Exactness
  import opened SeenCaches
  import opened Packets
  import opened LinkState
  import opened FloodCore
  import LinkStateFlood
  import opened LinkStateRuns
  import opened Healing
  import opened HopByHop
  import opened Drift
  import Discovery

  type Net = LinkStateFlood.Net

  /** Every node as it boots; its counter may have a history. */
  ghost predicate Booted(live: LiveGraph, net: Net) {
    && net.nodes.Keys == live.Keys && net.floods == map[] && net.latest == map[]
    && forall v :: v in net.nodes ==> net.nodes[v] == INITIAL.(number := net.nodes[v].number)
  }

  // ----------------------------------------------- what stays true of nodes

  /** The published table is the one the node's links and database give, and a
      node that never announced has no links. */
  ghost predicate NodeOk(net: Net, v: Id) {
    v in net.nodes ==>
      && net.nodes[v].table == TableFor(v, net.nodes[v].links, net.nodes[v].lsdb)
      && (v !in net.latest ==> net.nodes[v].links == map[])
  }

  lemma BootedIsOk(live: LiveGraph, net: Net, v: Id)
    requires Booted(live, net)
    ensures LinkStateFlood.Initial(live, net) && NodeOk(net, v)
  {
    InitialIsConsistent(v);
  }

  /** In every run each node's published table is the one its own links and
      database of the moment give. */
  lemma {:induction false} NodesStayOk(live: LiveGraph, start: Net, events: seq<LinkStateFlood.Event>, v: Id)
    requires LinkStateFlood.Sound(live) && Booted(live, start)
    ensures NodeOk(Through(live, start, events), v)
    ensures Safety(live, Through(live, start, events))
  {
    hide Safety, NodeOk, LinkStateRuns.Step;
    BootedIsOk(live, start, v);
    RunIsSafe(live, start, events);
    if events != [] {
      var before, ev := events[..|events| - 1], events[|events| - 1];
      NodesStayOk(live, start, before, v);
      StepKeepsOk(live, Through(live, start, before), ev, v);
    }
  }

  lemma StepKeepsOk(live: LiveGraph, net: Net, ev: LinkStateFlood.Event, v: Id)
    requires Safety(live, net) && NodeOk(net, v)
    ensures NodeOk(LinkStateRuns.Step(live, net, ev), v)
  {
    hide Safety, Handle, HandleInfo, Relay, TableFor;
    if LinkStateFlood.Possible(live, net, ev) && v in net.nodes {
      NotOnOwnFile(live, net, v);
      match ev
      case Local(u, local, heard) => if u == v { LocalKeepsOk(live, net, v, local, heard); }
      case Delivering(e, now, heard) => if e.to == v { ReceivedKeepsOk(live, net, e, now, heard); }
      case Losing(_, _) =>
    }
  }

  lemma NotOnOwnFile(live: LiveGraph, net: Net, v: Id)
    requires Safety(live, net) && v in net.nodes
    ensures v !in net.nodes[v].lsdb
  {
    assert EntrySafe(live, net, v, v);
  }

  lemma LocalKeepsOk(live: LiveGraph, net: Net, v: Id, ev: LinkState.Event, heard: set<Id>)
    requires LinkStateFlood.Possible(live, net, LinkStateFlood.Local(v, ev, heard))
    requires NodeOk(net, v) && v !in net.nodes[v].lsdb
    ensures NodeOk(LinkStateFlood.Occur(live, net, LinkStateFlood.Local(v, ev, heard)), v)
  {
    LocalEffect(v, net.nodes[v], ev);
    HandleKeepsConsistent(v, net.nodes[v], ev);
    hide Handle, TableFor, Relay;
  }

  lemma ReceivedKeepsOk(live: LiveGraph, net: Net, e: Envelope, now: Time, heard: set<Id>)
    requires LinkStateFlood.Possible(live, net, LinkStateFlood.Delivering(e, now, heard))
    requires NodeOk(net, e.to) && e.to !in net.nodes[e.to].lsdb
    ensures NodeOk(LinkStateFlood.Occur(live, net, LinkStateFlood.Delivering(e, now, heard)), e.to)
  {
    DeliveryShape(live, net, e, now, heard);
    SameLinksAfter(e.to, net.nodes[e.to], e.info, now);
    ReceivedKeepsConsistent(e.to, net.nodes[e.to], e.info, now);
    hide HandleInfo, TableFor, Relay;
  }

  lemma SameLinksAfter(v: Id, st: State, p: Info, now: Time)
    ensures HandleInfo(v, st, p, now).0.links == st.links
  {
    hide TableFor, Look, Store;
  }

  // ------------------------------------------------------- settled networks

  /** What `o` last announced. */
  function Said(net: Net, o: Id): Links {
    if o in net.latest && net.latest[o] in net.floods then net.floods[net.latest[o]].lsp.links else map[]
  }

  function SaidMap(net: Net): LinkMap {
    map o | o in net.nodes :: Said(net, o)
  }

  /** The links every node has, whether or not others know of them. */
  function OwnMap(net: Net): LinkMap {
    map o | o in net.nodes :: net.nodes[o].links
  }

  ghost function TheGraph(net: Net): Graph {
    LinkGraph(OwnMap(net))
  }

  /** The table each node has published. */
  function Published(net: Net): Tables {
    map u | u in net.nodes :: net.nodes[u].table
  }

  /** Discovery and the live graph agree, and links cost something. */
  ghost predicate Measured(live: LiveGraph, net: Net, o: Id) {
    o in net.nodes && o in live ==> net.nodes[o].links.Keys == live[o] && Priced(OwnMap(net), o)
  }

  ghost predicate ReachesAll(live: LiveGraph, o: Id) {
    o in live && live[o] != {} && forall v :: v in live ==> Reachable(live, {}, o, v)
  }

  /** Every node has a neighbour, and live links lead from it to every other. */
  ghost predicate Connected(live: LiveGraph) {
    forall o {:trigger ReachesAll(live, o)} :: o in live ==> ReachesAll(live, o)
  }

  /** Everyone is connected and has its live neighbours as links; costs may have
      changed since they were announced. */
  ghost predicate Settled(live: LiveGraph, net: Net) {
    Connected(live) && forall o :: Measured(live, net, o) && Priced(SaidMap(net), o)
  }

  /** The last announcement of `o` lists the links it has now, at their costs. */
  ghost predicate Told(net: Net, o: Id) {
    o in net.nodes ==> Said(net, o) == net.nodes[o].links
  }

  /** Nobody has anything left to say. */
  ghost predicate AllTold(net: Net) {
    forall o :: Told(net, o)
  }

  lemma ToldIsSaid(net: Net)
    requires AllTold(net)
    ensures SaidMap(net) == OwnMap(net)
  {
    forall o | o in net.nodes ensures Said(net, o) == net.nodes[o].links { assert Told(net, o); }
  }

  /** `o` made its latest announcement after the `since`th event, it was spared, and
      none of its copies is in flight any more. */
  ghost predicate RefreshedSince(live: LiveGraph, start: Net, events: seq<LinkStateFlood.Event>, since: nat, o: Id)
    requires since <= |events|
  {
    var net := Through(live, start, events);
    && o in net.latest && IsLatest(net, o, net.latest[o]) && net.floods[net.latest[o]].flying == multiset{}
    && net.latest[o] !in Through(live, start, events[..since]).floods
    && SparedFrom(live, start, events, since, o, net.latest[o])
  }

  /** The latest announcement of `o` has been flooded undisturbed, by nodes that know
      all their neighbours. */
  ghost predicate Refreshed(live: LiveGraph, start: Net, events: seq<LinkStateFlood.Event>, o: Id) {
    exists since: nat :: since <= |events| && RefreshedSince(live, start, events, since, o)
  }

  /** A run from boot, on few enough nodes, that has settled and in which everyone is
      refreshed. */
  ghost predicate Settles(live: LiveGraph, start: Net, events: seq<LinkStateFlood.Event>) {
    && LinkStateFlood.Sound(live) && Booted(live, start) && |live.Keys| <= LinkStateFlood.BUDGET + 1
    && Settled(live, Through(live, start, events))
    && forall o :: o in live ==> Refreshed(live, start, events, o)
  }

  lemma NodeIsHeard(live: LiveGraph, start: Net, events: seq<LinkStateFlood.Event>, o: Id)
    requires Settles(live, start, events) && o in live
    ensures var net := Through(live, start, events);
      && net.nodes.Keys == live.Keys && o in net.latest && net.latest[o] in net.floods
      && Said(net, o).Keys == net.nodes[o].links.Keys == live[o] != {}
  {
    hide Through, Reachable, Priced, SparedFrom, Spreads, Caught;
    var net := Through(live, start, events);
    BootedIsOk(live, start, o);
    RunIsSafe(live, start, events);
    assert Refreshed(live, start, events, o);
    var since: nat :| since <= |events| && RefreshedSince(live, start, events, since, o);
    RunHeals(live, start, events, since, o, net.latest[o]);
    assert Newest(net, o, net.latest[o]);
    assert Measured(live, net, o) && ReachesAll(live, o);
    hide Refreshed, RefreshedSince, FloodSafe, EntrySafe;
  }

  /** What a settled node has on file about `o`: its last word, if it is another
      node. */
  lemma SettledEntry(live: LiveGraph, start: Net, events: seq<LinkStateFlood.Event>, v: Id, o: Id)
    requires Settles(live, start, events) && v in live
    ensures var net := Through(live, start, events);
      && v in net.nodes
      && (o in net.nodes[v].lsdb <==> o in net.nodes && o != v)
      && (o in net.nodes[v].lsdb ==> net.nodes[v].lsdb[o].links == Said(net, o))
  {
    hide Through, Reachable, Measured, Priced, SparedFrom;
    var net := Through(live, start, events);
    BootedIsOk(live, start, v);
    RunIsSafe(live, start, events);
    assert net.nodes.Keys == live.Keys;
    if o in net.nodes && o != v {
      assert Refreshed(live, start, events, o) && ReachesAll(live, o);
      var since: nat :| since <= |events| && RefreshedSince(live, start, events, since, o);
      LatestHeals(live, start, events, since, o, net.latest[o], v);
    }
    assert EntrySafe(live, net, v, o);
    hide Safety, EntrySafe, Settled;
  }

  lemma EdgesOfView(v: Id, links: Links, lsdb: Database, said: LinkMap)
    requires v in said && lsdb.Keys == said.Keys - {v}
    requires forall o :: o in lsdb ==> lsdb[o].links == said[o]
    ensures EdgesOf(v, links, lsdb) == EdgesFrom(said[v := links])
  {
    var out := said[v := links];
    forall e ensures e in EdgesOf(v, links, lsdb) <==> e in EdgesFrom(out) {
      assert e in LinkEdges(v, links) <==> e.from == v && e.to in links && e.cost == links[e.to];
      assert e in DatabaseEdges(lsdb, lsdb.Keys) <==>
        e.from in lsdb && e.to in lsdb[e.from].links && e.cost == lsdb[e.from].links[e.to];
      assert e in EdgesFrom(out) <==> e.from in out && e.to in out[e.from] && e.cost == out[e.from][e.to];
    }
  }

  /** A settled node routes by its own costs and everyone else's last word. */
  lemma SettledTable(live: LiveGraph, start: Net, events: seq<LinkStateFlood.Event>, v: Id)
    requires Settles(live, start, events) && v in live
    ensures var net := Through(live, start, events);
      && v in net.nodes && v in OwnMap(net)
      && net.nodes[v].table == DijkstraTable(View(SaidMap(net), OwnMap(net), v), v)
  {
    hide Through, DijkstraTable, GraphOf, Settles, EdgesOf, Said, EdgesFrom, Safety;
    var net := Through(live, start, events);
    SettledEntry(live, start, events, v, v);
    forall o
      ensures o in net.nodes[v].lsdb <==> o in net.nodes && o != v
      ensures o in net.nodes[v].lsdb ==> net.nodes[v].lsdb[o].links == SaidMap(net)[o]
    {
      SettledEntry(live, start, events, v, o);
    }
    EdgesOfView(v, net.nodes[v].links, net.nodes[v].lsdb, SaidMap(net));
    assert NodeOk(net, v) by {
      assert Settles(live, start, events);
      SettledIsOk(live, start, events, v);
    }
  }

  lemma SettledIsOk(live: LiveGraph, start: Net, events: seq<LinkStateFlood.Event>, v: Id)
    requires Settles(live, start, events)
    ensures NodeOk(Through(live, start, events), v)
  {
    hide NodeOk, Through;
    NodesStayOk(live, start, events, v);
  }

  lemma SettledNodes(live: LiveGraph, start: Net, events: seq<LinkStateFlood.Event>)
    requires Settles(live, start, events)
    ensures Through(live, start, events).nodes.Keys == live.Keys
  {
    NodesStayOk(live, start, events, "");
  }

  lemma SettledLinks(live: LiveGraph, net: Net, u: Id)
    requires net.nodes.Keys == live.Keys && WellFormed(live) && Measured(live, net, u) && Priced(SaidMap(net), u)
    requires u in live ==> Said(net, u).Keys == net.nodes[u].links.Keys == live[u] != {}
    ensures var said, own := SaidMap(net), OwnMap(net);
      && Linked(said, u) && Linked(own, u) && SameLinks(said, own, u) && Priced(said, u) && Priced(own, u)
      && (u in live ==> own[u].Keys == live[u])
  {
    if u in live { assert live[u] <= live.Keys; }
  }

  lemma SettledNode(live: LiveGraph, start: Net, events: seq<LinkStateFlood.Event>, u: Id)
    requires Settles(live, start, events)
    ensures var net := Through(live, start, events);
      var said, own := SaidMap(net), OwnMap(net);
      && Linked(said, u) && Linked(own, u) && SameLinks(said, own, u) && Priced(said, u) && Priced(own, u)
      && (u in live ==> u in own && own[u].Keys == live[u])
  {
    var net := Through(live, start, events);
    SettledNodes(live, start, events);
    assert Measured(live, net, u) && Priced(SaidMap(net), u);
    if u in live { NodeIsHeard(live, start, events, u); }
    hide Through, Settled, Booted, Said, Linked, SameLinks, Priced;
    assert WellFormed(live);
    SettledLinks(live, net, u);
  }

  lemma SettledMaps(live: LiveGraph, start: Net, events: seq<LinkStateFlood.Event>)
    requires Settles(live, start, events)
    ensures var net := Through(live, start, events);
      && Remeasured(SaidMap(net), OwnMap(net)) && SaidMap(net).Keys == OwnMap(net).Keys == live.Keys
      && forall u :: u in live ==> OwnMap(net)[u].Keys == live[u]
  {
    hide Through, Settles, Priced, Linked, SameLinks, Said;
    var net := Through(live, start, events);
    SettledNodes(live, start, events);
    var said, own := SaidMap(net), OwnMap(net);
    assert said.Keys == own.Keys == live.Keys;
    forall u
      ensures Linked(said, u) && Linked(own, u) && SameLinks(said, own, u) && Priced(said, u) && Priced(own, u)
      ensures u in live ==> own[u].Keys == live[u]
    {
      SettledNode(live, start, events, u);
    }
  }

  /** The tables a settled network has published are those of its nodes' views. */
  lemma SettledTables(live: LiveGraph, start: Net, events: seq<LinkStateFlood.Event>)
    requires Settles(live, start, events)
    ensures var net := Through(live, start, events);
      SaidMap(net).Keys == OwnMap(net).Keys && Published(net) == ViewTables(SaidMap(net), OwnMap(net))
  {
    hide Through, DijkstraTable, Settles, View, Said;
    var net := Through(live, start, events);
    SettledNodes(live, start, events);
    forall u | u in net.nodes
      ensures Published(net)[u] == DijkstraTable(View(SaidMap(net), OwnMap(net), u), u)
    {
      SettledTable(live, start, events, u);
    }
  }

  lemma {:induction false} LivePathIsWalk(live: LiveGraph, out: LinkMap, p: seq<Id>)
    requires Costed(out) && out.Keys == live.Keys && (forall u :: u in live ==> out[u].Keys == live[u])
    requires OpenPath(live, {}, p)
    ensures IsWalk(LinkGraph(out), p)
    decreases |p|
  {
    hide LinkGraph, Linked;
    if |p| > 1 {
      LivePathIsWalk(live, out, p[..|p| - 1]);
      var u, v := p[|p| - 2], p[|p| - 1];
      assert Priced(out, u);
      LinkGraphLinks(out, u, v);
    }
  }

  lemma LiveMeansReaches(live: LiveGraph, out: LinkMap, u: Id, d: Id)
    requires Costed(out) && out.Keys == live.Keys && (forall x :: x in live ==> out[x].Keys == live[x])
    requires Connected(live) && u in live && d in live
    ensures Reaches(LinkGraph(out), u, d)
  {
    hide LinkGraph, Costed;
    assert ReachesAll(live, u);
    var p :| OpenPath(live, {}, p) && p[0] == u && p[|p| - 1] == d;
    LivePathIsWalk(live, out, p);
    assert WalkBetween(LinkGraph(out), u, p, d);
  }

  // ---------------------------------------------------------- main results

  /** A settled network is one of nodes that route by views of one announced graph,
      in which all nodes are connected. */
  lemma SettledIsRemeasured(live: LiveGraph, start: Net, events: seq<LinkStateFlood.Event>, u: Id, d: Id)
    requires Settles(live, start, events) && u in live && d in live
    ensures var net := Through(live, start, events);
      var said, own := SaidMap(net), OwnMap(net);
      && Remeasured(said, own) && said.Keys == own.Keys == live.Keys && |said.Keys| <= DEFAULT_TTL + 1
      && Published(net) == ViewTables(said, own) && Reaches(LinkGraph(said), u, d)
  {
    hide Through, Settles, Connected, LinkGraph, Said, Published, ViewTables, SaidMap, OwnMap, Costed, SameLinks;
    var net := Through(live, start, events);
    SettledTables(live, start, events);
    SettledMaps(live, start, events);
    SettledParts(live, start, events);
    forall x | x in live ensures SaidMap(net)[x].Keys == live[x] { SameKeys(SaidMap(net), OwnMap(net), x); }
    LiveMeansReaches(live, SaidMap(net), u, d);
  }

  lemma SettledParts(live: LiveGraph, start: Net, events: seq<LinkStateFlood.Event>)
    requires Settles(live, start, events)
    ensures Connected(live) && |live.Keys| <= LinkStateFlood.BUDGET + 1
  {
    hide Through, Connected, Refreshed, Booted;
  }

  lemma SameKeys(said: LinkMap, own: LinkMap, x: Id)
    requires Remeasured(said, own) && x in said && x in own
    ensures said[x].Keys == own[x].Keys
  {
    hide Costed;
    assert SameLinks(said, own, x);
  }

  /** Forwarding survives mild drift, for at most sixteen nodes: in a settled network
      a message from any node to any other arrives, as long as no link has risen
      since it was last announced by as much as its node's cheapest link costs. */
  lemma MessagesSurviveMildDrift(live: LiveGraph, start: Net, events: seq<LinkStateFlood.Event>, u: Id, d: Id, id: string)
    requires Settles(live, start, events) && u in live && d in live && u != d
    requires var net := Through(live, start, events);
      forall o :: Mild(SaidMap(net), OwnMap(net), o)
    ensures Forwarded(Published(Through(live, start, events)), u, d, id).Arrived?
  {
    hide Through, Settles, LinkGraph, Remeasured, Mild, SaidMap, OwnMap, Forwarded, Published, ViewTables;
    var net := Through(live, start, events);
    SettledIsRemeasured(live, start, events, u, d);
    MildDriftIsHarmless(SaidMap(net), OwnMap(net), u, d, id);
  }

  /** And what drift costs: no more, at the costs of now, than the least announced
      cost and the greatest rise once for each hop. */
  lemma MildDriftCosts(live: LiveGraph, start: Net, events: seq<LinkStateFlood.Event>, u: Id, d: Id, id: string, rise: real)
    requires Settles(live, start, events) && u in live && d in live && u != d
    requires var net := Through(live, start, events);
      forall o :: Mild(SaidMap(net), OwnMap(net), o) && RisenBy(SaidMap(net), OwnMap(net), rise, o)
    ensures var net := Through(live, start, events);
      var o := Paid(TheGraph(net), Published(net), u, d, id);
      && o.Arrived?
      && exists least :: LeastCost(LinkGraph(SaidMap(net)), u, d, least) && o.cost <= least + Times(rise, |o.message.trace|)
  {
    hide Through, Settles, LinkGraph, Remeasured, Mild, RisenBy, SaidMap, OwnMap, Paid, Published, ViewTables, LeastCost, Times;
    var net := Through(live, start, events);
    SettledIsRemeasured(live, start, events, u, d);
    Drift.MildDriftCosts(SaidMap(net), OwnMap(net), u, d, id, rise);
  }

  /** With nothing left to say all nodes route over the same graph. */
  lemma RestingTables(live: LiveGraph, start: Net, events: seq<LinkStateFlood.Event>)
    requires Settles(live, start, events) && AllTold(Through(live, start, events))
    ensures var net := Through(live, start, events);
      && SameGraph(TheGraph(net), Published(net)) && TheGraph(net).Keys == live.Keys
      && Costed(OwnMap(net)) && OwnMap(net).Keys == live.Keys
  {
    hide Through, DijkstraTable, LinkGraph, Costed, Priced, SameLinks, Said;
    var net := Through(live, start, events);
    SettledNodes(live, start, events);
    ToldIsSaid(net);
    hide AllTold, Settled;
    SettledTables(live, start, events);
    SettledMaps(live, start, events);
    hide Settles, Published, SaidMap, OwnMap;
    AgreeingViews(OwnMap(net));
    SaidTablesAgree(OwnMap(net));
    CostedIsLinked(OwnMap(net));
    hide Linked;
    LinkGraphNodes(OwnMap(net));
  }

  lemma AgreeingViews(own: LinkMap)
    ensures ViewTables(own, own) == SaidTables(own)
  {
    hide LinkGraph, DijkstraTable;
    forall u | u in own ensures own[u := own[u]] == own {}
  }

  lemma CostedIsLinked(out: LinkMap)
    requires Costed(out)
    ensures forall u :: Linked(out, u)
  {
    hide Linked, Priced;
  }

  /** The end-to-end claim, for at most sixteen nodes: whatever went wrong before, once
      every node has announced undisturbed to neighbours that know all of theirs, and
      nobody has anything left to say, a message from any node to any other, handed
      from next hop to next hop by the tables the nodes have published, arrives at the
      least cost any walk over the live links has. */
  lemma EveryMessageArrives(live: LiveGraph, start: Net, events: seq<LinkStateFlood.Event>, u: Id, d: Id, id: string)
    requires Settles(live, start, events) && AllTold(Through(live, start, events))
    requires u in live && d in live && u != d
    ensures var net := Through(live, start, events);
      var g, tables := TheGraph(net), Published(net);
      && Routable(tables, u, d) && HasLink(g, u, NextHop(tables, u, d))
      && Sent(g, tables, u, d, id).Arrived?
      && LeastCost(g, u, d, Sent(g, tables, u, d, id).cost)
  {
    hide Through, LinkGraph, IsWalk, OpenPath, AllTold, Settles, Settled, Costed, Connected, SaidMap, OwnMap, Published, SameGraph;
    var net := Through(live, start, events);
    var g, tables := TheGraph(net), Published(net);
    SettledParts(live, start, events);
    RestingTables(live, start, events);
    SettledMaps(live, start, events);
    LiveMeansReaches(live, OwnMap(net), u, d);
    ReachedIsRoutable(g, tables, u, d);
    SmallNetworkDelivers(g, tables, u, d, id);
    RemainingIsLeast(g, tables, u, d);
  }

  lemma ReachedIsRoutable(g: Graph, tables: Tables, u: Id, d: Id)
    requires SameGraph(g, tables) && u in g && u != d && Reaches(g, u, d)
    ensures Routable(tables, u, d)
  {
    assert Optimal(g, u, tables[u]);
  }

  /** What `Settled` asks of a node's links is what discovery supplies:
      if the link-state machine of `o` has come out of a run of its discovery plane
      that ends with the live neighbours alive, and no configured cost is below the
      floor, its links are those neighbours, each at the floor or above. */
  lemma MeasuredByDiscovery(live: LiveGraph, net: Net, o: Id, booted: Discovery.Plane, steps: seq<Discovery.Step>)
    requires o in net.nodes && o in live && Discovery.Fresh(booted)
    requires forall id :: id in booted.neighbors && Discovery.Foreign(o, id) ==> booted.neighbors[id].cost >= Discovery.MIN_COST
    requires var p := Discovery.Run(o, booted, steps);
      p.routing == Discovery.LinkStateMode(net.nodes[o]) && Discovery.Alive(p.neighbors) == live[o]
    ensures Measured(live, net, o)
    ensures forall n :: n in net.nodes[o].links ==> net.nodes[o].links[n] >= Discovery.MIN_COST
  {
    var p := Discovery.Run(o, booted, steps);
    Discovery.DiscoveryAgrees(o, booted, steps);
    Discovery.RunKeepsFloor(o, booted, steps);
    hide Discovery.Run;
    assert net.nodes[o].links == Discovery.LiveCosts(p.neighbors);
    assert Discovery.LiveCosts(p.neighbors).Keys == Discovery.Alive(p.neighbors);
  }
}
