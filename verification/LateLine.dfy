/** Four nodes in a row, the last of which joins when the others have settled: it is
    told of its neighbour only, and cannot send to the far end. */
module LateLine {
  import opened Ordering
  import opened Graphs
  import opened ShortestPaths
  import opened Exactness
  import opened LinkState
  import opened FloodCore
  import opened LinkStateFlood
  import opened LinkStateRuns
  import Healing
  import opened HopByHop
  import opened Drift
  import MessagePlane
  import Discovery
  import Lines
  import opened EndToEnd
  import opened Resting
  import opened PlaneNetworks
  import opened PlaneRests
  import opened LateJoiners
  import opened WithoutRefresh

  type Net = LinkStateFlood.Net
  type Event = PlaneNetworks.Event
  type Act = LinkStateFlood.Event

  // ------------------------------------------------ a run on fewer links

  /** The same nodes, with some of the links. */
  ghost predicate Fewer(cut: LiveGraph, live: LiveGraph) {
    forall v :: LinkStateFlood.Neighbours(cut, v) <= LinkStateFlood.Neighbours(live, v)
  }

  lemma StepsAgree(cut: LiveGraph, live: LiveGraph, net: Net, act: Act)
    requires Fewer(cut, live) && Possible(cut, net, act)
    ensures Possible(live, net, act) && LinkStateRuns.Step(live, net, act) == LinkStateRuns.Step(cut, net, act)
    ensures Natural(cut, net, act) ==> Natural(live, net, act)
  {
    hide Handle, HandleInfo, Relay, CaughtUp;
  }

  lemma {:induction false} ActsAgree(cut: LiveGraph, live: LiveGraph, net: Net, acts: seq<Act>)
    requires Fewer(cut, live) && AllPossible(cut, net, acts)
    ensures AllPossible(live, net, acts) && Through(live, net, acts) == Through(cut, net, acts)
    decreases |acts|
  {
    hide Fewer, Possible, LinkStateRuns.Step, Natural;
    if acts != [] {
      ActsAgree(cut, live, net, acts[..|acts| - 1]);
      StepsAgree(cut, live, Through(cut, net, acts[..|acts| - 1]), acts[|acts| - 1]);
    }
  }

  /** Every event of the run happens. */
  ghost predicate AllEvents(live: LiveGraph, start: Planes, events: seq<Event>) {
    events != [] ==>
      var before := events[..|events| - 1];
      AllEvents(live, start, before) && Happens(live, PlaneNetworks.After(live, start, before), events[|events| - 1])
  }

  /** The events of a run that happen make the same run. */
  lemma {:induction false} Happening(live: LiveGraph, start: Planes, events: seq<Event>) returns (kept: seq<Event>)
    ensures AllEvents(live, start, kept) && PlaneNetworks.After(live, start, kept) == PlaneNetworks.After(live, start, events)
    ensures ActsOf(live, start, kept) == ActsOf(live, start, events)
  {
    hide Happens, ActsAt;
    kept := [];
    if events != [] {
      var before, ev := events[..|events| - 1], events[|events| - 1];
      kept := Happening(live, start, before);
      if Happens(live, PlaneNetworks.After(live, start, before), ev) {
        assert (kept + [ev])[..|kept + [ev]| - 1] == kept;
        kept := kept + [ev];
      } else {
        assert ActsOf(live, start, before) + [] == ActsOf(live, start, before);
      }
    }
  }

  lemma {:induction false} RunsAgree(cut: LiveGraph, live: LiveGraph, start: Planes, events: seq<Event>)
    requires Fewer(cut, live) && AllEvents(cut, start, events)
    ensures PlaneNetworks.After(live, start, events) == PlaneNetworks.After(cut, start, events)
    ensures ActsOf(live, start, events) == ActsOf(cut, start, events)
    decreases |events|
  {
    hide Fewer, ActsAt, AllPossible, Through;
    if events != [] {
      var before, ev := events[..|events| - 1], events[|events| - 1];
      RunsAgree(cut, live, start, before);
      var p := PlaneNetworks.After(cut, start, before);
      ActsAgree(cut, live, p.net, ActsAt(p, ev));
    }
  }

  lemma {:induction false} NaturalAgrees(cut: LiveGraph, live: LiveGraph, start: Net, acts: seq<Act>)
    requires Fewer(cut, live) && AllNatural(cut, start, acts)
    ensures AllNatural(live, start, acts) && Through(live, start, acts) == Through(cut, start, acts)
    decreases |acts|
  {
    hide Fewer, LinkStateRuns.Step, Natural;
    if acts != [] {
      var n := |acts| - 1;
      assert AllNatural(cut, start, acts[..n]) by { NaturalBefore(cut, start, acts, n); }
      NaturalAgrees(cut, live, start, acts[..n]);
      assert Natural(cut, Through(cut, start, acts[..n]), acts[n]);
      NaturalIsPossible(cut, Through(cut, start, acts[..n]), acts[n]);
      StepsAgree(cut, live, Through(cut, start, acts[..n]), acts[n]);
      NaturalMore(live, start, acts[..n], acts[n]);
      assert acts[..n] + [acts[n]] == acts;
    }
  }

  lemma NaturalBefore(live: LiveGraph, start: Net, acts: seq<Act>, n: nat)
    requires AllNatural(live, start, acts) && n <= |acts|
    ensures AllNatural(live, start, acts[..n])
  {
    hide Natural, Through;
    forall i | 0 <= i < n ensures Natural(live, Through(live, start, acts[..n][..i]), acts[..n][i]) {
      assert acts[..n][..i] == acts[..i];
    }
  }

  lemma NaturalIsPossible(live: LiveGraph, net: Net, act: Act)
    requires Natural(live, net, act)
    ensures Possible(live, net, act) && Enabled(live, net, act) && !act.Losing?
  {
  }

  lemma NaturalIsOrderly(live: LiveGraph, start: Net, acts: seq<Act>)
    requires AllNatural(live, start, acts)
    ensures Orderly(live, start, acts)
  {
    hide Through, Natural, Enabled;
    forall i | 0 <= i < |acts| ensures Enabled(live, Through(live, start, acts[..i]), acts[i]) && !acts[i].Losing? {
      NaturalIsPossible(live, Through(live, start, acts[..i]), acts[i]);
    }
  }

  // ------------------------------------------------------------ the four nodes

  ghost predicate Four(a: Id, b: Id, c: Id, d: Id) {
    a != b && a != c && a != d && b != c && b != d && c != d && "" !in {a, b, c, d}
  }

  function Row(a: Id, b: Id, c: Id, d: Id): LiveGraph {
    map[a := {b}, b := {a, c}, c := {b, d}, d := {c}]
  }

  /** The row before `d` has joined. */
  function Cut(a: Id, b: Id, c: Id, d: Id): LiveGraph {
    map[a := {b}, b := {a, c}, c := {b}, d := {}]
  }

  /** The row once `c` has heard `d`. */
  function Half(a: Id, b: Id, c: Id, d: Id): LiveGraph {
    Cut(a, b, c, d)[c := {b, d}]
  }

  lemma RowIsSound(a: Id, b: Id, c: Id, d: Id)
    requires Four(a, b, c, d)
    ensures Sound(Row(a, b, c, d)) && Mutual(Row(a, b, c, d)) && Row(a, b, c, d).Keys == {a, b, c, d}
  {
  }

  lemma CutIsSound(a: Id, b: Id, c: Id, d: Id)
    requires Four(a, b, c, d)
    ensures Sound(Cut(a, b, c, d)) && Mutual(Cut(a, b, c, d)) && Cut(a, b, c, d).Keys == {a, b, c, d}
  {
  }

  lemma CutIsFewer(a: Id, b: Id, c: Id, d: Id)
    requires Four(a, b, c, d)
    ensures Fewer(Cut(a, b, c, d), Row(a, b, c, d))
  {
  }

  lemma RowsAreSound(a: Id, b: Id, c: Id, d: Id)
    requires Four(a, b, c, d)
    ensures Sound(Row(a, b, c, d)) && Mutual(Row(a, b, c, d)) && |Row(a, b, c, d).Keys| == 4
    ensures Sound(Cut(a, b, c, d)) && Mutual(Cut(a, b, c, d)) && Cut(a, b, c, d).Keys == Row(a, b, c, d).Keys
    ensures Fewer(Cut(a, b, c, d), Row(a, b, c, d))
  {
    hide Sound, Mutual, Fewer, Row, Cut;
    RowIsSound(a, b, c, d);
    CutIsSound(a, b, c, d);
    CutIsFewer(a, b, c, d);
  }

  lemma {:induction false} ReachesOn(live: LiveGraph, path: seq<Id>, k: nat)
    requires k < |path| && forall i :: 0 <= i < |path| - 1 ==> path[i] in live && path[i + 1] in live[path[i]]
    ensures Reachable(live, {}, path[0], path[k])
  {
    assert OpenPath(live, {}, [path[0]]);
    if k > 0 {
      ReachesOn(live, path, k - 1);
      var p :| OpenPath(live, {}, p) && p[0] == path[0] && p[|p| - 1] == path[k - 1];
      Lines.OneLinkMore(live, p, path[k]);
    }
  }

  lemma RowIsConnected(a: Id, b: Id, c: Id, d: Id)
    requires Four(a, b, c, d)
    ensures Connected(Row(a, b, c, d))
  {
    hide Reachable;
    var live := Row(a, b, c, d);
    var there, back := [a, b, c, d], [d, c, b, a];
    forall o | o in live ensures ReachesAll(live, o) {
      var i := if o == a then 0 else if o == b then 1 else if o == c then 2 else 3;
      assert there[i..][0] == o && back[3 - i..][0] == o;
      forall v | v in live ensures Reachable(live, {}, o, v) {
        var j := if v == a then 0 else if v == b then 1 else if v == c then 2 else 3;
        if i <= j { ReachesOn(live, there[i..], j - i); } else { ReachesOn(live, back[3 - i..], i - j); }
      }
    }
  }

  // ------------------------------------------------------- before d joins

  lemma {:induction false} AloneStaysAlone(live: LiveGraph, d: Id, o: Id, k: nat)
    requires WellFormed(live) && d in live && live[d] == {} && o != d && (forall u :: u in live ==> d !in live[u])
    ensures d !in FloodCore.Within(live, o, k)
  {
    if k > 0 { AloneStaysAlone(live, d, o, k - 1); }
  }

  /** Nothing is on file at a node without links. */
  lemma NothingOnFile(live: LiveGraph, start: Net, acts: seq<Act>, d: Id)
    requires Sound(live) && Initial(live, start) && d in live && live[d] == {} && forall u :: u in live ==> d !in live[u]
    ensures var net := Through(live, start, acts); d in net.nodes && net.nodes[d].lsdb == map[]
  {
    RunIsSafe(live, start, acts);
    hide Through, FloodSafe;
    var net := Through(live, start, acts);
    forall o ensures o !in net.nodes[d].lsdb {
      assert EntrySafe(live, net, d, o);
      if o != d { AloneStaysAlone(live, d, o, BUDGET); }
    }
  }

  /** What `d` may know: `c` and whom `c` lists; and only what `c` and `d` have said
      may still be in flight. */
  ghost predicate Ignorant(net: Net, c: Id, d: Id, links: Links) {
    && d in net.nodes && net.nodes[d].lsdb.Keys <= {c}
    && (c in net.nodes[d].lsdb ==> net.nodes[d].lsdb[c].links == links)
    && (forall m :: m in net.floods && net.floods[m].flying != multiset{} ==>
          net.floods[m].lsp.origin == d || (net.floods[m].lsp.origin == c && net.floods[m].lsp.links == links))
  }

  lemma DeliveryStaysIgnorant(live: LiveGraph, net: Net, act: Act, c: Id, d: Id, links: Links)
    requires Safety(live, net) && Ignorant(net, c, d, links) && act.Delivering? && Possible(live, net, act)
    ensures Ignorant(LinkStateRuns.Step(live, net, act), c, d, links)
  {
    hide Safety, HandleInfo, Occur, Relay;
    Healing.DeliveryShape(live, net, act.e, act.now, act.heard);
    Healing.DeliveryEffect(live, net, act.e, act.now);
    assert net.floods[act.e.info.msgId].flying != multiset{};
    var r := LinkStateRuns.Step(live, net, act);
    forall m | m in r.floods && r.floods[m].flying != multiset{} ensures m in net.floods && net.floods[m].flying != multiset{} {}
  }

  lemma {:induction false} DeliveriesStayIgnorant(live: LiveGraph, start: Net, acts: seq<Act>, more: seq<Act>, c: Id, d: Id, links: Links)
    requires Sound(live) && Initial(live, start) && AllNatural(live, start, acts + more)
    requires Ignorant(Through(live, start, acts), c, d, links) && forall i :: 0 <= i < |more| ==> more[i].Delivering?
    ensures Ignorant(Through(live, start, acts + more), c, d, links)
    decreases |more|
  {
    hide LinkStateRuns.Step, Ignorant, Natural, AllNatural, Through, Safety, Initial, Possible, Sound;
    if more == [] {
      assert acts + more == acts;
    } else {
      var n := |more| - 1;
      var all := acts + more;
      assert all[..|all| - 1] == acts + more[..n] && all == acts + more[..n] + [more[n]];
      NaturalBefore(live, start, all, |all| - 1);
      DeliveriesStayIgnorant(live, start, acts, more[..n], c, d, links);
      RunIsSafe(live, start, acts + more[..n]);
      LastIsPossible(live, start, acts + more[..n], more[n]);
      Healing.ThroughNext(live, start, acts + more[..n], more[n]);
      DeliveryStaysIgnorant(live, Through(live, start, acts + more[..n]), more[n], c, d, links);
    }
  }

  lemma LastIsPossible(live: LiveGraph, start: Net, acts: seq<Act>, act: Act)
    requires AllNatural(live, start, acts + [act])
    ensures Possible(live, Through(live, start, acts), act)
  {
    hide Through, Natural;
    var all := acts + [act];
    assert all[..|acts|] == acts && Natural(live, Through(live, start, all[..|acts|]), all[|acts|]);
    NaturalIsPossible(live, Through(live, start, acts), act);
  }

  // ------------------------------------------------------------ d joins

  /** The links once `c` and `d` have heard each other. */
  function Joined(net: Net, c: Id, d: Id, toD: real, toC: real): LinkMap
    requires c in net.nodes
  {
    OwnMap(net)[c := net.nodes[c].links[d := toD]][d := map[c := toC]]
  }

  /** The row before `d` joins: all else found, told and quiet. */
  ghost predicate Before(a: Id, b: Id, c: Id, d: Id, start: Planes, events: seq<Event>) {
    var live := Row(a, b, c, d);
    var p := PlaneNetworks.After(live, start, events);
    && AllNatural(live, start.net, ActsOf(live, start, events))
    && AllFound(Cut(a, b, c, d), p) && AllTold(p.net) && Quiet(p.net)
    && d in p.net.nodes && p.net.nodes[d].lsdb == map[]
  }

  lemma SettleWithoutLast(a: Id, b: Id, c: Id, d: Id, start: Planes) returns (events: seq<Event>)
    requires Four(a, b, c, d) && BootedPlanes(Row(a, b, c, d), start)
    ensures Before(a, b, c, d, start, events)
  {
    hide PlaneNetworks.After, ActsOf, Through, AllFound, AllTold, Quiet, AllNatural, Refreshed, Mutual, Fewer, AllEvents, BootedPlanes, Sound;
    var cut, live := Cut(a, b, c, d), Row(a, b, c, d);
    RowsAreSound(a, b, c, d);
    assert BootedPlanes(cut, start) by { SameBoot(cut, live, start); }
    hide Row, Cut;
    var found := FoundIsReachable(cut, start);
    events := Happening(cut, start, found);
    RunsAgree(cut, live, start, events);
    NaturalAgrees(cut, live, start.net, ActsOf(cut, start, events));
    PlanesRunTheNetwork(cut, start, events);
    assert Initial(cut, start.net) by { PlanesBoot(cut, start); }
    assert d in cut && cut[d] == {} && forall u :: u in cut ==> d !in cut[u] by { CutOff(a, b, c, d); }
    NothingOnFile(cut, start.net, ActsOf(cut, start, events), d);
  }

  lemma CutOff(a: Id, b: Id, c: Id, d: Id)
    requires Four(a, b, c, d)
    ensures var cut := Cut(a, b, c, d); d in cut && cut[d] == {} && forall u :: u in cut ==> d !in cut[u]
  {
  }

  lemma SameBoot(cut: LiveGraph, live: LiveGraph, start: Planes)
    requires cut.Keys == live.Keys && BootedPlanes(live, start)
    ensures BootedPlanes(cut, start)
  {
  }

  /** What holds of the links before `d` joins. */
  lemma BeforeLinks(a: Id, b: Id, c: Id, d: Id, start: Planes, events: seq<Event>)
    requires Four(a, b, c, d) && BootedPlanes(Row(a, b, c, d), start) && Before(a, b, c, d, start, events)
    ensures var p := PlaneNetworks.After(Row(a, b, c, d), start, events);
      && p.net.nodes.Keys == Cut(a, b, c, d).Keys == {a, b, c, d} && c in p.neighbors && d in p.neighbors
      && p.net.nodes[c].links.Keys == Discovery.Alive(p.neighbors[c]) == Cut(a, b, c, d)[c]
      && p.net.nodes[d].links.Keys == Discovery.Alive(p.neighbors[d])
      && p.net.nodes[a].links.Keys == {b} && p.net.nodes[b].links.Keys == {a, c}
      && p.net.nodes[c].links.Keys == {b} && p.net.nodes[d].links.Keys == {}
  {
    hide PlaneNetworks.After, Discovery.Alive, Row, Cut, Before, BootedPlanes, AllFound;
    var live, p := Row(a, b, c, d), PlaneNetworks.After(Row(a, b, c, d), start, events);
    SameNodes(live, start, events);
    CutIs(a, b, c, d);
    BeforeSays(a, b, c, d, start, events);
    forall v | v in {a, b, c, d}
      ensures v in p.neighbors && v in p.net.nodes && p.net.nodes[v].links.Keys == Discovery.Alive(p.neighbors[v]) == Cut(a, b, c, d)[v]
    {
      LinksAreAlive(live, start, events, v);
      FoundAt(Cut(a, b, c, d), p, v);
    }
  }

  lemma FoundAt(live: LiveGraph, p: Planes, v: Id)
    requires AllFound(live, p) && v in live
    ensures v in p.neighbors && Discovery.Alive(p.neighbors[v]) == live[v]
  {
  }

  lemma CutIs(a: Id, b: Id, c: Id, d: Id)
    requires Four(a, b, c, d)
    ensures Row(a, b, c, d).Keys == Cut(a, b, c, d).Keys == {a, b, c, d}
    ensures var cut := Cut(a, b, c, d); cut[a] == {b} && cut[b] == {a, c} && cut[c] == {b} && cut[d] == {}
  {
  }

  lemma JoinedCovers(a: Id, b: Id, c: Id, d: Id, net: Net, toD: real, toC: real)
    requires Four(a, b, c, d) && net.nodes.Keys == {a, b, c, d}
    requires net.nodes[a].links.Keys == {b} && net.nodes[b].links.Keys == {a, c}
    requires net.nodes[c].links.Keys == {b} && net.nodes[d].links.Keys == {}
    ensures var costs := Joined(net, c, d, toD, toC);
      && Covers(Row(a, b, c, d), costs) && OwnMap(net) == Built(costs, {(c, d), (d, c)})
      && c in costs && d in costs && costs[c] == net.nodes[c].links[d := toD] && costs[d] == map[c := toC]
  {
    hide Joined, Built, Covers, Row, OwnMap;
    var costs := Joined(net, c, d, toD, toC);
    JoinedKeys(net, c, d, toD, toC);
    CoversRow(a, b, c, d, costs);
    forall v | v in net.nodes ensures v in costs && v in Built(costs, {(c, d), (d, c)}) && Built(costs, {(c, d), (d, c)})[v] == net.nodes[v].links {
      JoinedWithout(net, c, d, toD, toC, v);
    }
    BuiltIsOwn(net, costs, {(c, d), (d, c)});
  }

  lemma CoversRow(a: Id, b: Id, c: Id, d: Id, costs: LinkMap)
    requires Four(a, b, c, d) && costs.Keys == {a, b, c, d}
    requires costs[a].Keys == {b} && costs[b].Keys == {a, c} && costs[c].Keys == {b, d} && costs[d].Keys == {c}
    ensures Covers(Row(a, b, c, d), costs)
  {
  }

  lemma JoinedKeys(net: Net, c: Id, d: Id, toD: real, toC: real)
    requires c in net.nodes && d in net.nodes && c != d
    ensures var costs := Joined(net, c, d, toD, toC);
      && costs.Keys == net.nodes.Keys && costs[c] == net.nodes[c].links[d := toD] && costs[d] == map[c := toC]
      && forall v :: v in net.nodes && v != c && v != d ==> costs[v] == net.nodes[v].links
  {
  }

  lemma BuiltIsOwn(net: Net, costs: LinkMap, todo: set<(Id, Id)>)
    requires costs.Keys == net.nodes.Keys && forall v :: v in net.nodes ==> v in Built(costs, todo) && Built(costs, todo)[v] == net.nodes[v].links
    ensures OwnMap(net) == Built(costs, todo)
  {
  }

  lemma JoinedWithout(net: Net, c: Id, d: Id, toD: real, toC: real, v: Id)
    requires c in net.nodes && d in net.nodes && c != d && v in net.nodes && net.nodes[d].links == map[] && d !in net.nodes[c].links
    ensures var costs := Joined(net, c, d, toD, toC);
      v in costs && v in Built(costs, {(c, d), (d, c)}) && Built(costs, {(c, d), (d, c)})[v] == net.nodes[v].links
  {
  }

  /** Between the two hellos: `c` has heard `d`, and `d` nobody. */
  ghost predicate Between(a: Id, b: Id, c: Id, d: Id, start: Planes, events: seq<Event>, costs: LinkMap) {
    var live := Row(a, b, c, d);
    var p := PlaneNetworks.After(live, start, events);
    && Covers(live, costs) && Building(live, start.net, ActsOf(live, start, events), costs, {(d, c)})
    && c in costs && Unheard(live, p, costs, d, c) && CaughtUp(p.net, d) && Ignorant(p.net, c, d, costs[c])
    && d in p.net.nodes && AllFound(Half(a, b, c, d), p)
  }

  /** `c` hears `d`. */
  lemma FirstHello(a: Id, b: Id, c: Id, d: Id, start: Planes, events: seq<Event>) returns (ev: Event, costs: LinkMap)
    requires Four(a, b, c, d) && BootedPlanes(Row(a, b, c, d), start) && Before(a, b, c, d, start, events)
    ensures Between(a, b, c, d, start, events + [ev], costs)
  {
    hide PlaneNetworks.After, ActsOf, Through, BootedPlanes, Covers, Discovery.Alive, CostOf, OwnMap, Sound, Mutual, Row, Cut, Before, Joined, Building, Between, CaughtUp, LinkAdded, Unheard, AllFound, Ignorant, Half;
    var live := Row(a, b, c, d);
    var p := PlaneNetworks.After(live, start, events);
    RowsAreSound(a, b, c, d);
    BeforeLinks(a, b, c, d, start, events);
    PlanesRunTheNetwork(live, start, events);
    var toD, toC := CostOf(p.neighbors[c], d), CostOf(p.neighbors[d], c);
    costs := Joined(p.net, c, d, toD, toC);
    JoinedCovers(a, b, c, d, p.net, toD, toC);
    BeforeBuilds(a, b, c, d, start, events, costs);
    FirstUnheard(a, b, c, d, p, costs, toD);
    assert {(c, d), (d, c)} - {(c, d)} == {(d, c)};
    ev := OneHello(live, start, events, costs, {(c, d), (d, c)}, c, d);
    var r := PlaneNetworks.After(live, start, events + [ev]);
    var m :| LinkAdded(p.net, r.net, c, d, costs[c][d], m);
    BeforeSays(a, b, c, d, start, events);
    NowBetween(a, b, c, d, p, r, costs, m);
    IsBetween(a, b, c, d, start, events + [ev], costs);
  }

  lemma BeforeSays(a: Id, b: Id, c: Id, d: Id, start: Planes, events: seq<Event>)
    requires Before(a, b, c, d, start, events)
    ensures var p := PlaneNetworks.After(Row(a, b, c, d), start, events);
      Quiet(p.net) && d in p.net.nodes && p.net.nodes[d].lsdb == map[] && AllFound(Cut(a, b, c, d), p)
  {
    hide PlaneNetworks.After, ActsOf, AllNatural, AllFound, AllTold, Quiet;
  }

  lemma BeforeBuilds(a: Id, b: Id, c: Id, d: Id, start: Planes, events: seq<Event>, costs: LinkMap)
    requires Before(a, b, c, d, start, events)
    requires OwnMap(PlaneNetworks.After(Row(a, b, c, d), start, events).net) == Built(costs, {(c, d), (d, c)})
    ensures Building(Row(a, b, c, d), start.net, ActsOf(Row(a, b, c, d), start, events), costs, {(c, d), (d, c)})
    ensures CaughtUp(PlaneNetworks.After(Row(a, b, c, d), start, events).net, c)
  {
    PlanesRunTheNetwork(Row(a, b, c, d), start, events);
    hide PlaneNetworks.After, ActsOf, AllNatural, AllFound, AllTold, Built, OwnMap, Through, Row;
  }

  lemma FirstUnheard(a: Id, b: Id, c: Id, d: Id, p: Planes, costs: LinkMap, toD: real)
    requires Four(a, b, c, d) && c in p.neighbors && c in p.net.nodes && p.net.nodes[c].links.Keys == Discovery.Alive(p.neighbors[c]) == Cut(a, b, c, d)[c]
    requires c in costs && costs[c] == p.net.nodes[c].links[d := toD] && toD == CostOf(p.neighbors[c], d)
    ensures Unheard(Row(a, b, c, d), p, costs, c, d)
  {
    hide Discovery.Alive, CostOf;
  }

  /** What `c` having heard `d` makes of the network. */
  lemma NowBetween(a: Id, b: Id, c: Id, d: Id, p: Planes, r: Planes, costs: LinkMap, m: string)
    requires Four(a, b, c, d) && Quiet(p.net) && d in p.net.nodes && p.net.nodes[d].lsdb == map[]
    requires AllFound(Cut(a, b, c, d), p) && c in p.net.nodes && p.net.nodes[c].links.Keys == Discovery.Alive(p.neighbors[c])
    requires p.net.nodes[d].links.Keys == Discovery.Alive(p.neighbors[d])
    requires c in r.neighbors && r.neighbors == p.neighbors[c := r.neighbors[c]]
    requires Discovery.Alive(r.neighbors[c]) == Discovery.Alive(p.neighbors[c]) + {d}
    requires c in costs && d in costs[c] && LinkAdded(p.net, r.net, c, d, costs[c][d], m)
    requires costs[c] == p.net.nodes[c].links[d := costs[c][d]] && d in costs && costs[d] == map[c := CostOf(p.neighbors[d], c)]
    ensures Unheard(Row(a, b, c, d), r, costs, d, c) && CaughtUp(r.net, d) && Ignorant(r.net, c, d, costs[c])
    ensures d in r.net.nodes && AllFound(Half(a, b, c, d), r)
  {
    hide Discovery.Alive, CostOf;
  }

  lemma IsBetween(a: Id, b: Id, c: Id, d: Id, start: Planes, events: seq<Event>, costs: LinkMap)
    requires var live := Row(a, b, c, d);
      var p := PlaneNetworks.After(live, start, events);
      && Covers(live, costs) && Building(live, start.net, ActsOf(live, start, events), costs, {(d, c)})
      && c in costs && Unheard(live, p, costs, d, c) && CaughtUp(p.net, d) && Ignorant(p.net, c, d, costs[c])
      && d in p.net.nodes && AllFound(Half(a, b, c, d), p)
    ensures Between(a, b, c, d, start, events, costs)
  {
    hide PlaneNetworks.After, ActsOf, Building, Covers, Unheard, CaughtUp, Ignorant, AllFound, Row, Half;
  }

  /** `d` hears `c`. */
  lemma SecondHello(a: Id, b: Id, c: Id, d: Id, start: Planes, events: seq<Event>, costs: LinkMap) returns (ev: Event)
    requires Four(a, b, c, d) && BootedPlanes(Row(a, b, c, d), start) && Between(a, b, c, d, start, events, costs)
    ensures var live, all := Row(a, b, c, d), events + [ev];
      var p := PlaneNetworks.After(live, start, all);
      && Building(live, start.net, ActsOf(live, start, all), costs, {})
      && AllFound(live, p) && c in costs && Ignorant(p.net, c, d, costs[c])
  {
    hide PlaneNetworks.After, ActsOf, Through, BootedPlanes, Covers, Discovery.Alive, CostOf, Sound, Mutual, Row, Cut, Half, Building, CaughtUp, LinkAdded, Ignorant, AllFound;
    var live := Row(a, b, c, d);
    var p := PlaneNetworks.After(live, start, events);
    RowsAreSound(a, b, c, d);
    assert {(d, c)} - {(d, c)} == {};
    ev := OneHello(live, start, events, costs, {(d, c)}, d, c);
    var r := PlaneNetworks.After(live, start, events + [ev]);
    var m :| LinkAdded(p.net, r.net, d, c, costs[d][c], m);
    StillIgnorant(p.net, r.net, c, d, costs[c], costs[d][c], m);
    FoundAfterJoining(a, b, c, d, p, r);
  }

  lemma StillIgnorant(net: Net, r: Net, c: Id, d: Id, links: Links, toC: real, m: string)
    requires Ignorant(net, c, d, links) && LinkAdded(net, r, d, c, toC, m)
    ensures Ignorant(r, c, d, links)
  {
  }

  /** `c` and `d` hear each other. */
  lemma JoinHellos(a: Id, b: Id, c: Id, d: Id, start: Planes, events: seq<Event>) returns (more: seq<Event>, costs: LinkMap)
    requires Four(a, b, c, d) && BootedPlanes(Row(a, b, c, d), start) && Before(a, b, c, d, start, events)
    ensures Covers(Row(a, b, c, d), costs)
    ensures var live, all := Row(a, b, c, d), events + more;
      var p := PlaneNetworks.After(live, start, all);
      && Building(live, start.net, ActsOf(live, start, all), costs, {})
      && AllFound(live, p) && c in costs && Ignorant(p.net, c, d, costs[c])
  {
    hide PlaneNetworks.After, ActsOf, BootedPlanes, Covers, Building, Before, Between, Ignorant, AllFound, Row;
    var first;
    first, costs := FirstHello(a, b, c, d, start, events);
    var second := SecondHello(a, b, c, d, start, events + [first], costs);
    assert events + [first] + [second] == events + [first, second];
    more := [first, second];
    assert Covers(Row(a, b, c, d), costs) by { BetweenCovers(a, b, c, d, start, events + [first], costs); }
  }

  lemma BetweenCovers(a: Id, b: Id, c: Id, d: Id, start: Planes, events: seq<Event>, costs: LinkMap)
    requires Between(a, b, c, d, start, events, costs)
    ensures Covers(Row(a, b, c, d), costs)
  {
    hide Covers, Row, Cut, PlaneNetworks.After, Building, Unheard, CaughtUp, Ignorant;
  }

  lemma FoundAfterJoining(a: Id, b: Id, c: Id, d: Id, p: Planes, r: Planes)
    requires Four(a, b, c, d) && AllFound(Half(a, b, c, d), p)
    requires d in r.neighbors && r.neighbors == p.neighbors[d := r.neighbors[d]]
    requires Discovery.Alive(r.neighbors[d]) == Discovery.Alive(p.neighbors[d]) + {c}
    ensures AllFound(Row(a, b, c, d), r)
  {
    hide Discovery.Alive;
  }

  // ---------------------------------------------------------- the outcome

  /** A walk from `d` over what it knows ends at `d`, `c` or a neighbour of `c`. */
  lemma {:induction false} WalksAreShort(out: LinkMap, b: Id, c: Id, d: Id, w: seq<Id>)
    requires IsWalk(LinkGraph(out), w) && w[0] == d && out.Keys <= {c, d}
    requires (c in out ==> out[c].Keys <= {b, d}) && (d in out ==> out[d].Keys <= {c}) && b != c && b != d
    ensures w[|w| - 1] in {b, c, d}
    decreases |w|
  {
    hide LinkGraph;
    if |w| > 1 {
      WalksAreShort(out, b, c, d, w[..|w| - 1]);
      LinkGraphLinks(out, w[|w| - 2], w[|w| - 1]);
    }
  }

  lemma FarEndIsUnlisted(out: LinkMap, a: Id, b: Id, c: Id, d: Id)
    requires Four(a, b, c, d) && out.Keys <= {c, d}
    requires (c in out ==> out[c].Keys <= {b, d}) && (d in out ==> out[d].Keys <= {c})
    ensures a !in DijkstraTable(LinkGraph(out), d)
  {
    hide LinkGraph, DijkstraTable;
    DijkstraIsExact(LinkGraph(out), d);
    if w :| WalkBetween(LinkGraph(out), d, w, a) { WalksAreShort(out, b, c, d, w); }
  }

  /** The last to join cannot send to the far end, although all have found their
      neighbours, told them, and nothing is in flight or was lost. */
  lemma LastIsStranded(a: Id, b: Id, c: Id, d: Id, start: Planes, id: string) returns (events: seq<Event>)
    requires Four(a, b, c, d) && BootedPlanes(Row(a, b, c, d), start)
    ensures var live := Row(a, b, c, d);
      && Gathered(live, start, events) && AllNatural(live, start.net, ActsOf(live, start, events))
      && Forwarded(Published(PlaneNetworks.After(live, start, events).net), d, a, id) == Stopped(d, MessagePlane.NoTarget)
  {
    hide PlaneNetworks.After, ActsOf, Through, AllFound, AllTold, Quiet, AllNatural, BootedPlanes, Before, Building, Ignorant, Complete, Covers, Initial, OnlyFlying, Plain, Gathered, Published, Forwarded;
    var live := Row(a, b, c, d);
    var first := SettleWithoutLast(a, b, c, d, start);
    var hellos, costs := JoinHellos(a, b, c, d, start, first);
    var joined := first + hellos;
    var acts := ActsOf(live, start, joined);
    RowsAreSound(a, b, c, d);
    hide Row, Sound, Mutual;
    BuiltIsComplete(live, start.net, acts, costs);
    PlanesRunTheNetwork(live, start, joined);
    PlanesBoot(live, start);
    EverythingMayFly(Through(live, start.net, acts));
    var drained := DrainAll(live, start.net, acts, costs, Through(live, start.net, acts).floods.Keys);
    CompleteIsNatural(live, start.net, acts + drained, costs);
    DeliveriesStayIgnorant(live, start.net, acts, drained, c, d, costs[c]);
    PlainDeliveries(drained);
    var more := PlainRun(live, start, joined, drained);
    events := joined + more;
    PlanesRunTheNetwork(live, start, events);
    assert Gathered(live, start, events) by {
      RowIsConnected(a, b, c, d);
      NaturalIsOrderly(live, start.net, ActsOf(live, start, events));
      GatheredWhen(live, start, events);
    }
    RowCosts(a, b, c, d, costs);
    Stranded(a, b, c, d, start, events, costs[c], id);
  }

  lemma PlainDeliveries(acts: seq<Act>)
    requires forall i :: 0 <= i < |acts| ==> acts[i].Delivering?
    ensures Plain(acts)
  {
  }

  lemma RowCosts(a: Id, b: Id, c: Id, d: Id, costs: LinkMap)
    requires Four(a, b, c, d) && Covers(Row(a, b, c, d), costs)
    ensures c in costs && costs[c].Keys == {b, d}
  {
    assert c in Row(a, b, c, d) && Row(a, b, c, d)[c] == {b, d};
  }

  lemma GatheredWhen(live: LiveGraph, start: Planes, events: seq<Event>)
    requires Sound(live) && Mutual(live) && Connected(live) && BootedPlanes(live, start)
    requires Orderly(live, start.net, ActsOf(live, start, events))
    requires var p := PlaneNetworks.After(live, start, events); AllFound(live, p) && AllTold(p.net) && Quiet(p.net)
    ensures Gathered(live, start, events)
  {
    hide Sound, Mutual, Connected, BootedPlanes, Orderly, AllFound, AllTold, Quiet, PlaneNetworks.After, ActsOf;
  }

  lemma Stranded(a: Id, b: Id, c: Id, d: Id, start: Planes, events: seq<Event>, links: Links, id: string)
    requires Four(a, b, c, d) && Gathered(Row(a, b, c, d), start, events) && links.Keys == {b, d}
    requires Ignorant(PlaneNetworks.After(Row(a, b, c, d), start, events).net, c, d, links)
    ensures Forwarded(Published(PlaneNetworks.After(Row(a, b, c, d), start, events).net), d, a, id) == Stopped(d, MessagePlane.NoTarget)
  {
    hide PlaneNetworks.After, Gathered, DijkstraTable, LinkGraph;
    var live := Row(a, b, c, d);
    var net := PlaneNetworks.After(live, start, events).net;
    ViewTable(live, start, events, d);
    SaysLinks(live, start, events, d);
    FarEndIsUnlisted(ViewMap(net.nodes[d], d), a, b, c, d);
  }

  // --------------------------------------------------------------- exactly

  /** On at most `nodes` nodes every message arrives as soon as all have found their
      neighbours and told them, whether or not anyone has refreshed since. */
  ghost predicate ArrivesWithoutRefresh(nodes: nat) {
    forall live: LiveGraph, start, events, u, d, id ::
      |live.Keys| <= nodes && Gathered(live, start, events) && u in live && d in live && u != d ==>
        Forwarded(Published(PlaneNetworks.After(live, start, events).net), u, d, id).Arrived?
  }

  function BootAt(live: LiveGraph): Planes {
    Planes.Planes(LinkStateFlood.Net(map v | v in live :: INITIAL, map[], map[]), map v | v in live :: map[])
  }

  lemma BootAtBoots(live: LiveGraph)
    ensures BootedPlanes(live, BootAt(live))
  {
    assert INITIAL.(number := 0) == INITIAL;
  }

  /** Exactly how many nodes do without: three. */
  lemma WithoutRefreshIff(nodes: nat)
    ensures ArrivesWithoutRefresh(nodes) <==> nodes <= 3
  {
    hide PlaneNetworks.After, Gathered, Published, Forwarded, Row, BootedPlanes, BootAt, Sound, Mutual, AllNatural, ActsOf;
    if nodes <= 3 {
      forall live: LiveGraph, start, events, u, d, id |
        |live.Keys| <= nodes && Gathered(live, start, events) && u in live && d in live && u != d
        ensures Forwarded(Published(PlaneNetworks.After(live, start, events).net), u, d, id).Arrived?
      {
        ThreeNeedNoRefresh(live, start, events, u, d, id);
      }
    } else {
      var a, b, c, d := "a", "b", "c", "d";
      assert a[0] != b[0] && a[0] != c[0] && a[0] != d[0] && b[0] != c[0] && b[0] != d[0] && c[0] != d[0];
      var live := Row(a, b, c, d);
      RowsAreSound(a, b, c, d);
      BootAtBoots(live);
      RowIsSound(a, b, c, d);
      var events := LastIsStranded(a, b, c, d, BootAt(live), "");
      assert !Forwarded(Published(PlaneNetworks.After(live, BootAt(live), events).net), d, a, "").Arrived?;
    }
  }
}
