/** Exactly how large a network can be for messages to be sure to arrive although
    nobody has refreshed since the last link came up. */
module WithoutRefresh {
  import opened Ordering
  import opened Graphs
  import opened ShortestPaths
  import opened Exactness
  import opened LinkState
  import opened FloodCore
  import opened LinkStateFlood
  import opened LinkStateRuns
  import opened HopByHop
  import opened Drift
  import opened EndToEnd
  import opened PlaneNetworks
  import opened PlaneRests
  import opened LateJoiners

  type Net = LinkStateFlood.Net
  type Event = PlaneNetworks.Event
  type Act = LinkStateFlood.Event

  // ------------------------------------------------------- what a node sees

  /** The links a node routes by: its own, and what it has on file. */
  function ViewMap(st: State, u: Id): LinkMap {
    (map o | o in st.lsdb :: st.lsdb[o].links)[u := st.links]
  }

  lemma GatheredIsSafe(live: LiveGraph, start: Planes, events: seq<Event>, u: Id)
    requires Gathered(live, start, events)
    ensures var net := PlaneNetworks.After(live, start, events).net; Safety(live, net) && NodeOk(net, u)
  {
    hide PlaneNetworks.After, ActsOf, Through, Safety, NodeOk, Orderly, AllFound, AllTold, Quiet, Connected;
    PlanesRunTheNetwork(live, start, events);
    PlanesBoot(live, start);
    NodesStayOk(live, start.net, ActsOf(live, start, events), u);
  }

  /** A node's table is the one its view gives. */
  lemma ViewIsRouted(live: LiveGraph, net: Net, u: Id)
    requires Safety(live, net) && NodeOk(net, u) && u in net.nodes
    ensures u !in net.nodes[u].lsdb && net.nodes[u].lsdb.Keys <= live.Keys
    ensures net.nodes[u].table == DijkstraTable(LinkGraph(ViewMap(net.nodes[u], u)), u)
  {
    NotOnOwnFile(live, net, u);
    var st := net.nodes[u];
    forall o | o in st.lsdb ensures o in live { assert EntrySafe(live, net, u, o); }
    hide Safety, DijkstraTable, GraphOf;
    ViewMapIs(st, u);
    EdgesOfView(u, st.links, st.lsdb, ViewMap(st, u));
  }

  lemma ViewMapIs(st: State, u: Id)
    requires u !in st.lsdb
    ensures u in ViewMap(st, u) && st.lsdb.Keys == ViewMap(st, u).Keys - {u}
    ensures ViewMap(st, u)[u := st.links] == ViewMap(st, u)
    ensures forall o :: o in st.lsdb ==> st.lsdb[o].links == ViewMap(st, u)[o]
  {
  }

  lemma ViewTable(live: LiveGraph, start: Planes, events: seq<Event>, u: Id)
    requires Gathered(live, start, events) && u in live
    ensures var net := PlaneNetworks.After(live, start, events).net;
      && net.nodes.Keys == live.Keys && u in net.nodes && u !in net.nodes[u].lsdb && net.nodes[u].lsdb.Keys <= live.Keys
      && net.nodes[u].table == DijkstraTable(LinkGraph(ViewMap(net.nodes[u], u)), u)
  {
    hide PlaneNetworks.After, Gathered, Safety, NodeOk, DijkstraTable, LinkGraph, ViewMap;
    var net := PlaneNetworks.After(live, start, events).net;
    GatheredIsSafe(live, start, events, u);
    assert net.nodes.Keys == live.Keys by { SaysLinks(live, start, events, u); }
    ViewIsRouted(live, net, u);
  }

  /** What the nodes have as links makes a graph of positive costs. */
  lemma OwnIsCosted(live: LiveGraph, start: Planes, events: seq<Event>)
    requires Gathered(live, start, events)
    ensures var own := OwnMap(PlaneNetworks.After(live, start, events).net);
      Costed(own) && own.Keys == live.Keys && forall u :: u in live ==> own[u].Keys == live[u]
  {
    hide PlaneNetworks.After, Gathered, Linked, Priced, OwnMap;
    var net := PlaneNetworks.After(live, start, events).net;
    var own := OwnMap(net);
    GatheredNodes(live, start, events);
    assert own.Keys == live.Keys by { OwnKeys(net); }
    forall u ensures Linked(own, u) && Priced(own, u)
             ensures u in live ==> own[u].Keys == live[u]
    {
      if u in live { OwnNode(live, start, events, u); } else { NoNode(own, u); }
    }
  }

  lemma GatheredNodes(live: LiveGraph, start: Planes, events: seq<Event>)
    requires Gathered(live, start, events)
    ensures PlaneNetworks.After(live, start, events).net.nodes.Keys == live.Keys
  {
    SameNodes(live, start, events);
  }

  lemma OwnKeys(net: Net)
    ensures OwnMap(net).Keys == net.nodes.Keys && forall u :: u in net.nodes ==> OwnMap(net)[u] == net.nodes[u].links
  {
  }

  lemma NoNode(own: LinkMap, u: Id)
    requires u !in own
    ensures Linked(own, u) && Priced(own, u)
  {
  }

  lemma OwnNode(live: LiveGraph, start: Planes, events: seq<Event>, u: Id)
    requires Gathered(live, start, events) && u in live
    ensures var own := OwnMap(PlaneNetworks.After(live, start, events).net);
      u in own && own[u].Keys == live[u] && Linked(own, u) && Priced(own, u)
  {
    hide PlaneNetworks.After, Gathered, Reachable, Linked, Priced, OwnMap, EndToEnd.Measured, WellFormed;
    var net := PlaneNetworks.After(live, start, events).net;
    GatheredParts(live, start, events);
    NodeIsMeasured(live, start, events, u);
    SaysLinks(live, start, events, u);
    ConnectedAndFew(live, start, events);
    MeasuredLinks(live, net, u);
  }

  lemma GatheredParts(live: LiveGraph, start: Planes, events: seq<Event>)
    requires Gathered(live, start, events)
    ensures BootedPlanes(live, start) && AllFound(live, PlaneNetworks.After(live, start, events))
  {
    hide PlaneNetworks.After, ActsOf, BootedPlanes, AllFound, Orderly;
  }

  lemma MeasuredLinks(live: LiveGraph, net: Net, u: Id)
    requires WellFormed(live) && Connected(live) && u in live && net.nodes.Keys == live.Keys && EndToEnd.Measured(live, net, u)
    ensures var own := OwnMap(net); u in own && own[u].Keys == live[u] && Linked(own, u) && Priced(own, u)
  {
    hide Reachable;
    assert ReachesAll(live, u) && live[u] <= live.Keys;
  }

  /** Who has all others as neighbours sees the whole graph. */
  lemma SeesAll(live: LiveGraph, start: Planes, events: seq<Event>, u: Id)
    requires Gathered(live, start, events) && u in live && live[u] == live.Keys - {u}
    ensures var net := PlaneNetworks.After(live, start, events).net; u in net.nodes && ViewMap(net.nodes[u], u) == OwnMap(net)
  {
    hide PlaneNetworks.After, Gathered, DijkstraTable, LinkGraph, ViewMap, OwnMap;
    var net := PlaneNetworks.After(live, start, events).net;
    ViewTable(live, start, events, u);
    forall o | o in live && o != u ensures o in net.nodes && o in net.nodes[u].lsdb && net.nodes[u].lsdb[o].links == net.nodes[o].links {
      assert o in live[u];
      BothLinked(live, start, events, u, o);
      NeighboursKnow(live, start, events, o, u);
    }
    ViewIsOwn(live, net, u);
  }

  lemma BothLinked(live: LiveGraph, start: Planes, events: seq<Event>, u: Id, o: Id)
    requires Gathered(live, start, events) && u in live && o in live && o in live[u]
    ensures u in live[o] && u != o
  {
    hide PlaneNetworks.After, Orderly, AllFound, AllTold, Quiet, Connected, BootedPlanes;
  }

  lemma ViewIsOwn(live: LiveGraph, net: Net, u: Id)
    requires net.nodes.Keys == live.Keys && u in live && u !in net.nodes[u].lsdb && net.nodes[u].lsdb.Keys <= live.Keys
    requires forall o :: o in live && o != u ==> o in net.nodes[u].lsdb && net.nodes[u].lsdb[o].links == net.nodes[o].links
    ensures ViewMap(net.nodes[u], u) == OwnMap(net)
  {
  }

  // -------------------------------------------------- at most three nodes

  /** Who has one link sends everything over it. */
  lemma OnlyLinkIsTaken(out: LinkMap, u: Id, w: Id, d: Id)
    requires u in out && out[u].Keys == {w} && d in DijkstraTable(LinkGraph(out), u)
    ensures DijkstraTable(LinkGraph(out), u)[d].nextHop == w
  {
    hide DijkstraTable, LinkGraph;
    var g := LinkGraph(out);
    DijkstraIsExact(g, u);
    var r := DijkstraTable(g, u)[d];
    var x :| WalkBetween(g, u, x, d) && |x| > 1 && x[1] == r.nextHop && WalkCost(g, x) == r.cost;
    TailIsWalk(g, x);
    LinkGraphLinks(out, u, x[1]);
  }

  lemma OneHopIsListed(out: LinkMap, u: Id, w: Id)
    requires u in out && w in out[u] && out[u][w] > 0.0 && u != w
    ensures w in DijkstraTable(LinkGraph(out), u)
  {
    hide DijkstraTable, LinkGraph;
    var g := LinkGraph(out);
    LinkGraphLinks(out, u, w);
    DijkstraIsExact(g, u);
    assert WalkBetween(g, u, [u], u);
    ExtendWalk(g, u, [u], u, w);
  }

  lemma TwoHopsAreListed(out: LinkMap, u: Id, w: Id, d: Id)
    requires u in out && w in out[u] && out[u][w] > 0.0 && w in out && d in out[w] && out[w][d] > 0.0 && u != d
    ensures d in DijkstraTable(LinkGraph(out), u)
  {
    hide DijkstraTable, LinkGraph;
    var g := LinkGraph(out);
    LinkGraphLinks(out, u, w);
    LinkGraphLinks(out, w, d);
    DijkstraIsExact(g, u);
    assert WalkBetween(g, u, [u], u);
    ExtendWalk(g, u, [u], u, w);
    ExtendWalk(g, u, [u] + [w], w, d);
  }

  /** With three nodes the one neighbour of a node is linked with the third. */
  lemma MiddleNode(live: LiveGraph, u: Id, w: Id, d: Id)
    requires WellFormed(live) && Connected(live) && |live.Keys| <= 3
    requires u in live && live[u] == {w} && d in live && d != u && d != w
    ensures w in live && d in live[w]
  {
    assert ReachesAll(live, u) && live[u] <= live.Keys && u !in live[u] && live[w] <= live.Keys && w !in live[w];
    assert Reachable(live, {}, u, d);
    hide Connected, ReachesAll, WellFormed;
    if d !in live[w] {
      forall x | x in live[w] ensures x == u {
        if x != u { FourAreFour(live.Keys, u, w, d, x); }
      }
      var p :| OpenPath(live, {}, p) && p[0] == u && p[|p| - 1] == d;
      PathStaysInside(live, {}, {u, w}, p);
    }
  }

  lemma FourAreFour(s: set<Id>, a: Id, b: Id, c: Id, d: Id)
    requires {a, b, c, d} <= s && a != b && a != c && a != d && b != c && b != d && c != d
    ensures |s| >= 4
  {
    SubsetIsNoLarger({a, b, c, d}, s);
  }

  /** On three nodes a node either has both others as neighbours or just one. */
  lemma FewNeighbours(live: LiveGraph, u: Id)
    requires WellFormed(live) && Connected(live) && |live.Keys| <= 3 && u in live
    ensures live[u] == live.Keys - {u} || exists w :: live[u] == {w}
  {
    assert ReachesAll(live, u) && live[u] <= live.Keys && u !in live[u];
    hide Connected, ReachesAll, WellFormed;
    var w :| w in live[u];
    if v :| v in live[u] && v != w {
      forall x | x in live.Keys && x != u ensures x in live[u] {
        if x !in live[u] { FourAreFour(live.Keys, u, w, v, x); }
      }
    } else {
      assert live[u] == {w};
    }
  }

  /** What a node sees over its one neighbour. */
  lemma SeesOverOne(live: LiveGraph, start: Planes, events: seq<Event>, u: Id, w: Id, d: Id)
    requires Gathered(live, start, events) && |live.Keys| <= 3 && u in live && live[u] == {w} && d in live && d != u
    ensures var net := PlaneNetworks.After(live, start, events).net;
      u in net.nodes &&
      var view, own := ViewMap(net.nodes[u], u), OwnMap(net);
      && u in view && u in own && view[u].Keys == {w} == own[u].Keys
      && d in DijkstraTable(LinkGraph(view), u) && d in DijkstraTable(LinkGraph(own), u)
  {
    hide DijkstraTable, LinkGraph, PlaneNetworks.After, Gathered, Costed, ViewMap, OwnMap;
    var net := PlaneNetworks.After(live, start, events).net;
    OwnIsCosted(live, start, events);
    ViewTable(live, start, events, u);
    ConnectedAndFew(live, start, events);
    assert w in live[u] && live[u] <= live.Keys;
    BothLinked(live, start, events, u, w);
    NeighboursKnow(live, start, events, w, u);
    assert d != w ==> d in live[w] by { if d != w { MiddleNode(live, u, w, d); } }
    OverOneView(live, net, u, w, d);
  }

  lemma ConnectedAndFew(live: LiveGraph, start: Planes, events: seq<Event>)
    requires Gathered(live, start, events)
    ensures WellFormed(live) && Connected(live)
  {
    hide PlaneNetworks.After, Orderly, AllFound, AllTold, Quiet, Connected, BootedPlanes;
  }

  lemma OverOneView(live: LiveGraph, net: Net, u: Id, w: Id, d: Id)
    requires Costed(OwnMap(net)) && OwnMap(net).Keys == live.Keys && u in live && w in live && u != w && d != u
    requires OwnMap(net)[u].Keys == {w} && w in net.nodes[u].lsdb && net.nodes[u].lsdb[w].links == net.nodes[w].links
    requires d != w ==> d in OwnMap(net)[w]
    ensures var view, own := ViewMap(net.nodes[u], u), OwnMap(net);
      && u in view && view[u].Keys == {w}
      && d in DijkstraTable(LinkGraph(view), u) && d in DijkstraTable(LinkGraph(own), u)
  {
    hide DijkstraTable, LinkGraph;
    var view, own := ViewMap(net.nodes[u], u), OwnMap(net);
    assert Priced(own, u) && Priced(own, w);
    assert view[u] == own[u] && w in view && view[w] == own[w];
    if d == w {
      OneHopIsListed(view, u, w);
      OneHopIsListed(own, u, w);
    } else {
      TwoHopsAreListed(view, u, w, d);
      TwoHopsAreListed(own, u, w, d);
    }
  }

  /** So on at most three nodes every node picks the next hop that it would with the
      whole graph before it. */
  lemma SameNextHop(live: LiveGraph, start: Planes, events: seq<Event>, u: Id, d: Id)
    requires Gathered(live, start, events) && |live.Keys| <= 3 && u in live && d in live && d != u
    ensures var net := PlaneNetworks.After(live, start, events).net;
      var own, tables := DijkstraTable(LinkGraph(OwnMap(net)), u), Published(net);
      u in tables && d in tables[u] && d in own && tables[u][d].nextHop == own[d].nextHop
  {
    hide DijkstraTable, LinkGraph, PlaneNetworks.After, Gathered, ViewMap, OwnMap, Costed;
    var net := PlaneNetworks.After(live, start, events).net;
    ViewTable(live, start, events, u);
    ConnectedAndFew(live, start, events);
    FewNeighbours(live, u);
    if live[u] == live.Keys - {u} {
      SeesAll(live, start, events, u);
      OwnIsCosted(live, start, events);
      LiveMeansReaches(live, OwnMap(net), u, d);
      DijkstraIsExact(LinkGraph(OwnMap(net)), u);
    } else {
      var w :| live[u] == {w};
      SeesOverOne(live, start, events, u, w, d);
      OnlyLinkIsTaken(ViewMap(net.nodes[u], u), u, w, d);
      OnlyLinkIsTaken(OwnMap(net), u, w, d);
    }
  }

  lemma HopLeadsCloser(live: LiveGraph, start: Planes, events: seq<Event>, d: Id, u: Id)
    requires Gathered(live, start, events) && |live.Keys| <= 3 && d in live
    ensures var net := PlaneNetworks.After(live, start, events).net;
      LeadsCloser(SaidTables(OwnMap(net)), Published(net), d, u)
  {
    hide DijkstraTable, LinkGraph, SameGraph, PlaneNetworks.After, Gathered, OwnMap, Published, Costed;
    var net := PlaneNetworks.After(live, start, events).net;
    var base: Tables := SaidTables(OwnMap(net));
    OwnIsCosted(live, start, events);
    SaidTablesAgree(OwnMap(net));
    if Routable(base, u, d) && u != d {
      SameNextHop(live, start, events, u, d);
      NextHopIsCloser(LinkGraph(OwnMap(net)), base, u, d);
    }
  }

  /** On at most three nodes every message arrives as soon as all have found their
      neighbours and told them. */
  lemma ThreeNeedNoRefresh(live: LiveGraph, start: Planes, events: seq<Event>, u: Id, d: Id, id: string)
    requires Gathered(live, start, events) && |live.Keys| <= 3 && u in live && d in live && u != d
    ensures Forwarded(Published(PlaneNetworks.After(live, start, events).net), u, d, id).Arrived?
  {
    hide DijkstraTable, LinkGraph, PlaneNetworks.After, Gathered, OwnMap, Published, Costed, LeadsCloser, Forwarded;
    var net := PlaneNetworks.After(live, start, events).net;
    var base: Tables := SaidTables(OwnMap(net));
    OwnIsCosted(live, start, events);
    SameNextHop(live, start, events, u, d);
    forall x ensures LeadsCloser(base, Published(net), d, x) { HopLeadsCloser(live, start, events, d, x); }
    assert base.Keys == live.Keys;
    DescentArrives(base, Published(net), u, d, id);
  }
}
