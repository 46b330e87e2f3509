/** Every connected network can come to rest, at any costs: the runs that
    `EndToEnd` speaks of exist. */
module Resting {
  import opened Ordering
  import opened Graphs
  import Exactness
  import SeenCaches
  import opened LinkState
  import opened FloodCore
  import opened LinkStateFlood
  import opened LinkStateRuns
  import opened Healing
  import opened Drift
  import opened EndToEnd

  type Net = LinkStateFlood.Net
  type Event = LinkStateFlood.Event

  // ------------------------------------------------------- natural runs

  /** The event is an orderly one, nothing is lost by it, and the node floods to just
      those whom it then has as links, as discovery sees to. */
  ghost predicate Natural(live: LiveGraph, net: Net, ev: Event) {
    var r := LinkStateRuns.Step(live, net, ev);
    Enabled(live, net, ev) && match ev
    case Local(v, _, heard) => v in r.nodes && heard == r.nodes[v].links.Keys
    case Delivering(e, _, heard) => e.to in r.nodes && heard == r.nodes[e.to].links.Keys
    case Losing(_, _) => false
  }

  ghost predicate AllNatural(live: LiveGraph, start: Net, events: seq<Event>) {
    forall i :: 0 <= i < |events| ==> Natural(live, Through(live, start, events[..i]), events[i])
  }

  lemma NaturalMore(live: LiveGraph, start: Net, events: seq<Event>, ev: Event)
    requires AllNatural(live, start, events) && Natural(live, Through(live, start, events), ev)
    ensures AllNatural(live, start, events + [ev])
    ensures Through(live, start, events + [ev]) == LinkStateRuns.Step(live, Through(live, start, events), ev)
  {
    hide Natural, LinkStateRuns.Step;
    var more := events + [ev];
    assert more[..|more| - 1] == events;
    forall i | 0 <= i < |more| ensures Natural(live, Through(live, start, more[..i]), more[i]) {
      assert i < |events| ==> more[..i] == events[..i];
    }
  }

  // ------------------------------------------------------- one link comes up

  lemma NewLinkState(self: Id, st: State, n: Id, cost: real, m: string)
    requires n !in st.links
    ensures var (st', p) := Handle(self, st, LinkState.Event(LinkUp(n, cost), m, 0));
      st'.links == st.links[n := cost] && st'.lsdb == st.lsdb && p.Some?
  {
    hide TableFor, SeenCaches.Look;
  }

  /** The event in which `o` finds `n` and tells those it has found so far. */
  function Finding(net: Net, o: Id, n: Id, cost: real, m: string): Event
    requires o in net.nodes
  {
    Local(o, LinkState.Event(LinkUp(n, cost), m, 0), net.nodes[o].links.Keys + {n})
  }

  /** `o` has found `n` at `cost` and announced so under `m`. */
  ghost predicate LinkAdded(net: Net, r: Net, o: Id, n: Id, cost: real, m: string) {
    && o in net.nodes && n !in net.nodes[o].links && o in r.nodes
    && r.nodes == net.nodes[o := r.nodes[o]] && r.nodes[o].number == net.nodes[o].number + 1
    && r.nodes[o].links == net.nodes[o].links[n := cost] && r.nodes[o].lsdb == net.nodes[o].lsdb
    && m !in net.floods && m in r.floods && r.floods == net.floods[m := r.floods[m]]
    && r.floods[m].lsp == Lsp(o, r.nodes[o].number, r.nodes[o].links)
  }

  lemma LinkComesUp(live: LiveGraph, net: Net, o: Id, n: Id, cost: real, m: string)
    requires o in net.nodes && n !in net.nodes[o].links && m != "" && m !in net.floods && Known(net) && AllTold(net)
    requires net.nodes[o].links.Keys + {n} <= Neighbours(live, o) && CaughtUp(net, o)
    ensures var ev := Finding(net, o, n, cost, m);
      var r := LinkStateRuns.Step(live, net, ev);
      && Natural(live, net, ev) && AllTold(r)
      && OwnMap(r) == OwnMap(net)[o := net.nodes[o].links[n := cost]]
      && LinkAdded(net, r, o, n, cost, m)
  {
    hide Handle, Relay, CaughtUp, Natural, Told;
    var ev := Finding(net, o, n, cost, m);
    NewLinkState(o, net.nodes[o], n, cost, m);
    LocalEffect(o, net.nodes[o], ev.ev);
    var r := LinkStateRuns.Step(live, net, ev);
    assert Possible(live, net, ev) && Enabled(live, net, ev) && r == Occur(live, net, ev);
    assert LinkAdded(net, r, o, n, cost, m) && OwnMap(r) == OwnMap(net)[o := net.nodes[o].links[n := cost]];
    LinkUpIsNatural(live, net, o, n, cost, m);
    forall x ensures Told(r, x) { ToldOneMore(net, r, o, n, cost, m, x); }
  }

  lemma LinkUpIsNatural(live: LiveGraph, net: Net, o: Id, n: Id, cost: real, m: string)
    requires o in net.nodes && Enabled(live, net, Finding(net, o, n, cost, m))
    requires LinkAdded(net, LinkStateRuns.Step(live, net, Finding(net, o, n, cost, m)), o, n, cost, m)
    ensures Natural(live, net, Finding(net, o, n, cost, m))
  {
    hide Enabled, LinkStateRuns.Step;
  }

  lemma ToldOneMore(net: Net, r: Net, o: Id, n: Id, cost: real, m: string, x: Id)
    requires AllTold(net) && Known(net) && LinkAdded(net, r, o, n, cost, m) && r.latest == net.latest[o := m]
    ensures Told(r, x)
  {
    assert Told(net, x);
  }

  // ---------------------------------------------------------- the whole graph

  /** The links of `costs` except those in `todo`. */
  function Built(costs: LinkMap, todo: set<(Id, Id)>): LinkMap {
    map o | o in costs :: map n | n in costs[o] && (o, n) !in todo :: costs[o][n]
  }

  lemma BuiltOneMore(costs: LinkMap, todo: set<(Id, Id)>, o: Id, n: Id)
    requires o in costs && n in costs[o] && (o, n) in todo
    ensures n !in Built(costs, todo)[o]
    ensures Built(costs, todo - {(o, n)}) == Built(costs, todo)[o := Built(costs, todo)[o][n := costs[o][n]]]
  {
    var a, b := Built(costs, todo - {(o, n)}), Built(costs, todo);
    forall x | x in costs ensures a[x] == if x == o then b[x][n := costs[o][n]] else b[x] {}
  }

  /** The costs are those of the links of the live graph. */
  ghost predicate Covers(live: LiveGraph, costs: LinkMap) {
    costs.Keys == live.Keys && forall o :: o in live ==> costs[o].Keys == live[o]
  }

  /** Each node has counted up once for each link it has, and said nothing before. */
  ghost predicate Counted(start: Net, net: Net, o: Id) {
    o in net.nodes && o in start.nodes ==>
      && net.nodes[o].number == start.nodes[o].number + |net.nodes[o].links|
      && forall m :: m in net.floods && net.floods[m].lsp.origin == o ==> net.floods[m].lsp.number > start.nodes[o].number
  }

  /** With fewer neighbours than numbers before the restart gap nobody falls behind. */
  lemma CountedIsCaughtUp(start: Net, net: Net, o: Id)
    requires Counted(start, net, o) && o in net.nodes && o in start.nodes && |net.nodes[o].links| < SEQ_RESET_GAP
    ensures CaughtUp(net, o)
  {
  }

  lemma CountedOneMore(start: Net, net: Net, r: Net, o: Id, n: Id, cost: real, m: string, x: Id)
    requires Counted(start, net, x) && Counted(start, net, o) && LinkAdded(net, r, o, n, cost, m)
    ensures Counted(start, r, x)
  {
  }

  ghost predicate AllCounted(start: Net, net: Net) {
    forall o :: Counted(start, net, o)
  }

  /** A network of natural runs that has found all links but those in `todo`. */
  ghost predicate Building(live: LiveGraph, start: Net, events: seq<Event>, costs: LinkMap, todo: set<(Id, Id)>) {
    && AllNatural(live, start, events)
    && OwnMap(Through(live, start, events)) == Built(costs, todo) && AllTold(Through(live, start, events))
  }

  lemma BuildOne(live: LiveGraph, start: Net, events: seq<Event>, costs: LinkMap, todo: set<(Id, Id)>, o: Id, n: Id)
    returns (ev: Event)
    requires Sound(live) && Initial(live, start) && Covers(live, costs) && Building(live, start, events, costs, todo)
    requires o in costs && n in costs[o] && (o, n) in todo && CaughtUp(Through(live, start, events), o)
    ensures o in Through(live, start, events).nodes && ev.Local?
    ensures ev == Finding(Through(live, start, events), o, n, costs[o][n], ev.ev.msgId)
    ensures Building(live, start, events + [ev], costs, todo - {(o, n)})
    ensures LinkAdded(Through(live, start, events), Through(live, start, events + [ev]), o, n, costs[o][n], ev.ev.msgId)
  {
    hide AllTold, Natural, LinkStateRuns.Step, AllNatural, Through, FloodSafe, EntrySafe, Possible, Initial, CaughtUp, LinkAdded;
    var net := Through(live, start, events);
    RunIsSafe(live, start, events);
    var m := FreshId(net.floods.Keys);
    BuiltOneMore(costs, todo, o, n);
    BuiltAt(net, costs, todo, o, n);
    hide Built, Sound, OwnMap;
    ev := Finding(net, o, n, costs[o][n], m);
    LinkComesUp(live, net, o, n, costs[o][n], m);
    assert ev.Local? && ev.ev.msgId == m;
    hide Finding, Covers;
    NaturalMore(live, start, events, ev);
  }

  /** A node that has counted its links can announce one more. */
  lemma CanFindOneMore(live: LiveGraph, start: Net, events: seq<Event>, costs: LinkMap, todo: set<(Id, Id)>, o: Id, n: Id)
    requires Sound(live) && Initial(live, start) && Covers(live, costs) && Building(live, start, events, costs, todo)
    requires o in costs && n in costs[o] && (o, n) in todo && |live.Keys| <= BUDGET + 1
    requires AllCounted(start, Through(live, start, events))
    ensures CaughtUp(Through(live, start, events), o)
  {
    hide AllTold, AllNatural, Through, Counted, CaughtUp;
    var net := Through(live, start, events);
    BuiltOneMore(costs, todo, o, n);
    BuiltAt(net, costs, todo, o, n);
    FewLinks(live, net.nodes[o].links, costs[o], o, n);
    InitialNodes(live, start);
    assert Counted(start, net, o);
    CountedIsCaughtUp(start, net, o);
  }

  lemma AllCountedMore(start: Net, net: Net, r: Net, o: Id, n: Id, cost: real, m: string)
    requires AllCounted(start, net) && LinkAdded(net, r, o, n, cost, m)
    ensures AllCounted(start, r)
  {
    hide Counted, LinkAdded;
    forall x ensures Counted(start, r, x) { CountedOneMore(start, net, r, o, n, cost, m, x); }
  }

  lemma InitialNodes(live: LiveGraph, start: Net)
    requires Initial(live, start)
    ensures start.nodes.Keys == live.Keys
  {
  }

  /** A node that has yet to find `n` has links to fewer than all but two. */
  lemma FewLinks(live: LiveGraph, links: Links, costs: Links, o: Id, n: Id)
    requires Sound(live) && o in live && n in live[o] && costs.Keys == live[o] && |live.Keys| <= BUDGET + 1
    requires links.Keys + {n} <= costs.Keys && n !in links
    ensures |links| < SEQ_RESET_GAP
  {
    assert live[o] <= live.Keys;
    assert links.Keys <= live.Keys - {o, n};
    Exactness.SubsetIsNoLarger(links.Keys, live.Keys - {o, n});
    assert |links| == |links.Keys|;
  }

  lemma BuiltAt(net: Net, costs: LinkMap, todo: set<(Id, Id)>, o: Id, n: Id)
    requires OwnMap(net) == Built(costs, todo) && o in costs && n in costs[o]
    ensures o in net.nodes && net.nodes[o].links == Built(costs, todo)[o] && net.nodes[o].links.Keys + {n} <= costs[o].Keys
  {
    assert o in OwnMap(net);
  }

  lemma {:induction false} BuildUp(live: LiveGraph, start: Net, events: seq<Event>, costs: LinkMap, todo: set<(Id, Id)>)
    returns (more: seq<Event>)
    requires Sound(live) && Initial(live, start) && Covers(live, costs) && Building(live, start, events, costs, todo)
    requires |live.Keys| <= BUDGET + 1 && AllCounted(start, Through(live, start, events))
    requires forall p :: p in todo ==> p.0 in costs && p.1 in costs[p.0]
    ensures Building(live, start, events + more, costs, {})
    decreases |todo|
  {
    hide Building, Covers, Initial, AllCounted, Through, CaughtUp, LinkAdded, Sound, Finding;
    more := [];
    assert events + more == events;
    if p :| p in todo {
      CanFindOneMore(live, start, events, costs, todo, p.0, p.1);
      var ev := BuildOne(live, start, events, costs, todo, p.0, p.1);
      AllCountedMore(start, Through(live, start, events), Through(live, start, events + [ev]), p.0, p.1, costs[p.0][p.1], ev.ev.msgId);
      more := BuildUp(live, start, events + [ev], costs, todo - {p});
      assert events + [ev] + more == events + ([ev] + more);
      more := [ev] + more;
    } else {
      assert todo == {};
    }
  }

  // -------------------------------------------------- letting it fall quiet

  /** Only copies of `m` have moved. */
  ghost predicate OnlyMoved(net: Net, r: Net, m: string) {
    SaysTheSame(net, r) && forall n :: n in net.floods && n != m ==> r.floods[n] == net.floods[n]
  }

  lemma DeliveryMoves(live: LiveGraph, net: Net, e: Envelope)
    requires Safety(live, net)
    ensures var r := LinkStateRuns.Step(live, net, Delivering(e, 0, Neighbours(live, e.to)));
      OnlyMoved(net, r, e.info.msgId)
  {
    hide Safety, Occur, HandleInfo, Relay;
    var ev := Delivering(e, 0, Neighbours(live, e.to));
    if Possible(live, net, ev) {
      DeliveryShape(live, net, e, 0, Neighbours(live, e.to));
      DeliveryEffect(live, net, e, 0);
      assert e in net.floods[e.info.msgId].flying;
    }
  }

  lemma {:induction false} DeliveriesMove(live: LiveGraph, start: Net, events: seq<Event>, more: seq<Event>, m: string)
    requires Sound(live) && Initial(live, start) && OnlyDelivers(live, more, m)
    ensures OnlyMoved(Through(live, start, events), Through(live, start, events + more), m)
    decreases |more|
  {
    hide LinkStateRuns.Step, Safety;
    var net := Through(live, start, events);
    if more == [] {
      assert events + more == events;
    } else {
      var init, last := more[..|more| - 1], more[|more| - 1];
      DeliveriesMove(live, start, events, init, m);
      assert (events + more)[..|events + more| - 1] == events + init;
      RunIsSafe(live, start, events + init);
      assert last == Delivering(last.e, 0, Neighbours(live, last.e.to)) by { DeliversAtStart(live, more, m, |more| - 1); }
      DeliveryMoves(live, Through(live, start, events + init), last.e);
      MovedOn(net, Through(live, start, events + init), Through(live, start, events + more), m);
    }
  }

  lemma DeliversAtStart(live: LiveGraph, more: seq<Event>, m: string, i: nat)
    requires OnlyDelivers(live, more, m) && i < |more|
    ensures more[i] == Delivering(more[i].e, 0, Neighbours(live, more[i].e.to)) && more[i].e.info.msgId == m && more[i].e.to in live
  {
  }

  lemma MovedOn(a: Net, b: Net, c: Net, m: string)
    requires OnlyMoved(a, b, m) && OnlyMoved(b, c, m)
    ensures OnlyMoved(a, c, m)
  {
  }

  /** A network of natural runs with all links of `costs`, and all of them told. */
  ghost predicate Complete(live: LiveGraph, start: Net, events: seq<Event>, costs: LinkMap) {
    && AllNatural(live, start, events)
    && OwnMap(Through(live, start, events)) == costs && AllTold(Through(live, start, events))
  }

  lemma SameWords(net: Net, net': Net)
    requires SaysTheSame(net, net') && AllTold(net)
    ensures AllTold(net') && OwnMap(net') == OwnMap(net)
  {
    forall o ensures Told(net', o) { assert Told(net, o); }
  }

  lemma DeliveryIsNatural(live: LiveGraph, net: Net, costs: LinkMap, e: Envelope)
    requires Safety(live, net) && Covers(live, costs) && OwnMap(net) == costs && e.to in live
    requires Possible(live, net, Delivering(e, 0, Neighbours(live, e.to)))
    ensures Natural(live, net, Delivering(e, 0, Neighbours(live, e.to)))
  {
    DeliveryMoves(live, net, e);
    hide Safety, LinkStateRuns.Step;
    assert e.to in OwnMap(net) && net.nodes[e.to].links == costs[e.to];
  }

  /** Deliveries of one announcement leave a complete network complete. */
  lemma {:induction false} DeliveriesComplete(live: LiveGraph, start: Net, events: seq<Event>, costs: LinkMap, more: seq<Event>, m: string)
    requires Sound(live) && Initial(live, start) && Covers(live, costs) && Complete(live, start, events, costs)
    requires OnlyDelivers(live, more, m) && AllHappen(live, start, events, more)
    ensures Complete(live, start, events + more, costs)
    decreases |more|
  {
    hide LinkStateRuns.Step, Safety, AllNatural, AllTold, Through, OwnMap, Covers, Natural, Possible, AllHappen;
    if more == [] {
      assert events + more == events;
    } else {
      var init, last := more[..|more| - 1], more[|more| - 1];
      HappenBefore(live, start, events, more);
      DeliveriesComplete(live, start, events, costs, init, m);
      RunIsSafe(live, start, events + init);
      DeliversAtStart(live, more, m, |more| - 1);
      var net := Through(live, start, events + init);
      DeliveryIsNatural(live, net, costs, last.e);
      NaturalMore(live, start, events + init, last);
      DeliveryMoves(live, net, last.e);
      assert events + init + [last] == events + more;
      SameWords(net, Through(live, start, events + more));
    }
  }

  lemma HappenBefore(live: LiveGraph, start: Net, events: seq<Event>, more: seq<Event>)
    requires AllHappen(live, start, events, more) && more != []
    ensures var init := more[..|more| - 1];
      AllHappen(live, start, events, init) && Possible(live, Through(live, start, events + init), more[|more| - 1])
  {
    hide Possible, Through;
    var init := more[..|more| - 1];
    forall i | 0 <= i < |init| ensures Possible(live, Through(live, start, events + init[..i]), init[i]) {
      assert init[..i] == more[..i];
    }
  }

  /** Deliveries and refreshes. */
  ghost predicate Plain(events: seq<Event>) {
    forall i :: 0 <= i < |events| ==> events[i].Delivering? || (events[i].Local? && events[i].ev.input.Refresh?)
  }

  /** Only announcements in `ids` may still be in flight. */
  ghost predicate OnlyFlying(net: Net, ids: set<string>) {
    forall m :: m in net.floods && m !in ids ==> net.floods[m].flying == multiset{}
  }

  lemma OneLess(net: Net, r: Net, ids: set<string>, m: string)
    requires OnlyFlying(net, ids) && OnlyMoved(net, r, m) && m in r.floods && r.floods[m].flying == multiset{}
    ensures OnlyFlying(r, ids - {m})
  {
  }

  lemma {:induction false} DrainAll(live: LiveGraph, start: Net, events: seq<Event>, costs: LinkMap, ids: set<string>)
    returns (more: seq<Event>)
    requires Sound(live) && Initial(live, start) && Covers(live, costs) && Complete(live, start, events, costs)
    requires ids <= Through(live, start, events).floods.Keys && OnlyFlying(Through(live, start, events), ids)
    ensures Complete(live, start, events + more, costs) && Quiet(Through(live, start, events + more))
    ensures forall i :: 0 <= i < |more| ==> more[i].Delivering?
    decreases |ids|
  {
    hide Complete, Through, OnlyDelivers, Covers, OnlyFlying, AllHappen;
    more := [];
    assert events + more == events;
    if m :| m in ids {
      var first := DrainOne(live, start, events, m);
      DeliveriesMove(live, start, events, first, m);
      DeliveriesComplete(live, start, events, costs, first, m);
      DeliveriesArePlain(live, first, m);
      OneLess(Through(live, start, events), Through(live, start, events + first), ids, m);
      more := DrainAll(live, start, events + first, costs, ids - {m});
      assert events + first + more == events + (first + more);
      more := first + more;
    } else {
      NoneFlying(Through(live, start, events), ids);
    }
  }

  lemma DeliveriesArePlain(live: LiveGraph, more: seq<Event>, m: string)
    requires OnlyDelivers(live, more, m)
    ensures Plain(more) && forall i :: 0 <= i < |more| ==> more[i].Delivering?
  {
  }

  lemma NoneFlying(net: Net, ids: set<string>)
    requires OnlyFlying(net, ids) && ids == {}
    ensures Quiet(net)
  {
  }

  // ------------------------------------------------------ everyone refreshes

  function Refreshing(live: LiveGraph, o: Id, m: string): Event {
    Local(o, LinkState.Event(Refresh, m, 0), Neighbours(live, o))
  }

  lemma RefreshStep(live: LiveGraph, net: Net, costs: LinkMap, o: Id, m: string)
    requires Safety(live, net) && Covers(live, costs) && OwnMap(net) == costs && AllTold(net) && Quiet(net)
    requires o in live && m != "" && m !in net.floods
    ensures var r := LinkStateRuns.Step(live, net, Refreshing(live, o, m));
      && Natural(live, net, Refreshing(live, o, m)) && OwnMap(r) == costs && AllTold(r)
      && m in r.floods && r.floods[m].lsp.origin == o && OnlyFlying(r, {m})
      && r.latest == net.latest[o := m] && r.floods == net.floods[m := r.floods[m]]
  {
    hide Handle, Relay, Safety, Natural, Told, CaughtUp;
    var ev := LinkState.Event(Refresh, m, 0);
    SafetySays(live, net);
    assert o in OwnMap(net);
    LocalEffect(o, net.nodes[o], ev);
    RefreshKeepsLinks(o, net.nodes[o], ev);
    QuietIsCaughtUp(net, o);
    var r := LinkStateRuns.Step(live, net, Refreshing(live, o, m));
    assert Possible(live, net, Refreshing(live, o, m)) && Enabled(live, net, Refreshing(live, o, m));
    assert r == Occur(live, net, Refreshing(live, o, m));
    assert OwnMap(r) == costs;
    forall x ensures Told(r, x) { ToldAgain(net, r, o, m, x); }
    RefreshIsNatural(live, net, o, m);
  }

  lemma SafetySays(live: LiveGraph, net: Net)
    requires Safety(live, net)
    ensures Known(net) && net.nodes.Keys == live.Keys && "" !in net.floods
  {
  }

  lemma QuietIsCaughtUp(net: Net, o: Id)
    requires Quiet(net)
    ensures CaughtUp(net, o)
  {
  }

  lemma ToldAgain(net: Net, r: Net, o: Id, m: string, x: Id)
    requires AllTold(net) && Known(net) && m !in net.floods && m in r.floods && o in net.nodes && o in r.nodes
    requires r.nodes == net.nodes[o := r.nodes[o]] && r.nodes[o].links == net.nodes[o].links
    requires r.floods == net.floods[m := r.floods[m]] && r.latest == net.latest[o := m] && r.floods[m].lsp.links == r.nodes[o].links
    ensures Told(r, x)
  {
    assert Told(net, x);
  }

  lemma RefreshIsNatural(live: LiveGraph, net: Net, o: Id, m: string)
    requires Enabled(live, net, Refreshing(live, o, m)) && o in net.nodes && net.nodes[o].links.Keys == Neighbours(live, o)
    requires var r := LinkStateRuns.Step(live, net, Refreshing(live, o, m)); o in r.nodes && r.nodes[o].links == net.nodes[o].links
    ensures Natural(live, net, Refreshing(live, o, m))
  {
    hide LinkStateRuns.Step, Enabled;
  }

  lemma RefreshKeepsLinks(o: Id, st: State, ev: LinkState.Event)
    requires ev.input.Refresh?
    ensures Handle(o, st, ev).0.links == st.links && Handle(o, st, ev).1.Some?
  {
  }

  /** Who was refreshed stays so through events that spare it. */
  lemma StaysRefreshed(live: LiveGraph, start: Net, events: seq<Event>, more: seq<Event>, x: Id, n: string)
    requires Refreshed(live, start, events, x)
    requires var net, r := Through(live, start, events), Through(live, start, events + more);
      && x in net.latest && net.latest[x] == n && x in r.latest && r.latest[x] == n
      && n in net.floods && n in r.floods && r.floods[n] == net.floods[n]
    requires forall i :: |events| <= i < |events + more| ==>
      Sparing(live, Through(live, start, (events + more)[..i]), (events + more)[i], x, n)
    ensures Refreshed(live, start, events + more, x)
  {
    hide Sparing, Through;
    var since: nat :| since <= |events| && RefreshedSince(live, start, events, since, x);
    var all := events + more;
    assert all[..since] == events[..since];
    forall i | since <= i < |events| ensures Sparing(live, Through(live, start, all[..i]), all[i], x, n) {
      assert all[..i] == events[..i] && all[i] == events[i];
    }
    assert RefreshedSince(live, start, all, since, x);
  }

  lemma RefreshedHas(live: LiveGraph, start: Net, events: seq<Event>, x: Id)
    requires Refreshed(live, start, events, x)
    ensures var net := Through(live, start, events); x in net.latest && net.latest[x] in net.floods
  {
    hide Through, SparedFrom;
  }

  /** What `o` says next spares everyone else. */
  lemma OthersSpared(live: LiveGraph, start: Net, events: seq<Event>, rest: seq<Event>, o: Id, m: string, x: Id)
    requires Sound(live) && Initial(live, start) && x != o && Refreshed(live, start, events, x)
    requires OnlyDelivers(live, rest, m) && m !in Through(live, start, events).floods
    requires var r := Through(live, start, events + [Refreshing(live, o, m)]);
      && m in r.floods && r.floods[m].lsp.origin == o
      && r.latest == Through(live, start, events).latest[o := m]
      && r.floods == Through(live, start, events).floods[m := r.floods[m]]
    ensures Refreshed(live, start, events + [Refreshing(live, o, m)] + rest, x)
  {
    hide LinkStateRuns.Step, Sparing, Through, OnlyDelivers, Refreshed, Refreshing, Sound, Initial;
    RefreshedHas(live, start, events, x);
    var n := Through(live, start, events).latest[x];
    var first := events + [Refreshing(live, o, m)];
    DeliveriesMove(live, start, first, rest, m);
    var more := [Refreshing(live, o, m)] + rest;
    assert first + rest == events + more;
    forall i | |events| <= i < |events + more| ensures Sparing(live, Through(live, start, (events + more)[..i]), (events + more)[i], x, n) {
      RestSpares(live, start, events, rest, o, m, x, n, i);
    }
    StaysRefreshed(live, start, events, more, x, n);
  }

  lemma RestSpares(live: LiveGraph, start: Net, events: seq<Event>, rest: seq<Event>, o: Id, m: string, x: Id, n: string, i: nat)
    requires Sound(live) && Initial(live, start) && x != o && n in Through(live, start, events).floods
    requires OnlyDelivers(live, rest, m) && m !in Through(live, start, events).floods
    requires var r := Through(live, start, events + [Refreshing(live, o, m)]); m in r.floods && r.floods[m].lsp.origin == o
    requires |events| <= i < |events + [Refreshing(live, o, m)] + rest|
    ensures var all := events + [Refreshing(live, o, m)] + rest; Sparing(live, Through(live, start, all[..i]), all[i], x, n)
  {
    hide LinkStateRuns.Step, Sparing, Through, OnlyDelivers, Refreshing;
    var first := events + [Refreshing(live, o, m)];
    var all := first + rest;
    if i == |events| {
      assert all[..i] == events && all[i] == Refreshing(live, o, m);
      RefreshSpares(live, Through(live, start, events), o, m, x, n);
    } else {
      var k := i - |first|;
      assert all[..i] == first + rest[..k] && all[i] == rest[k];
      StillDelivers(live, rest, m, k);
      DeliveriesMove(live, start, first, rest[..k], m);
      DeliverySpares(live, Through(live, start, first + rest[..k]), rest[k], o, m, x, n);
    }
  }

  lemma StillDelivers(live: LiveGraph, more: seq<Event>, m: string, k: nat)
    requires OnlyDelivers(live, more, m) && k < |more|
    ensures OnlyDelivers(live, more[..k], m) && more[k].Delivering? && more[k].e.info.msgId == m
  {
  }

  lemma RefreshSpares(live: LiveGraph, net: Net, o: Id, m: string, x: Id, n: string)
    requires n in net.floods
    ensures Sparing(live, net, Refreshing(live, o, m), x, n)
  {
  }

  lemma DeliverySpares(live: LiveGraph, net: Net, ev: Event, o: Id, m: string, x: Id, n: string)
    requires ev.Delivering? && ev.e.info.msgId == m && m != n && m in net.floods && net.floods[m].lsp.origin == o && x != o
    ensures Sparing(live, net, ev, x, n)
  {
  }

  /** `o` is refreshed, and everyone else stays so. */
  lemma RefreshOne(live: LiveGraph, start: Net, events: seq<Event>, costs: LinkMap, o: Id) returns (more: seq<Event>)
    requires Sound(live) && Initial(live, start) && Covers(live, costs) && o in live
    requires Complete(live, start, events, costs) && Quiet(Through(live, start, events))
    ensures Complete(live, start, events + more, costs) && Quiet(Through(live, start, events + more)) && Plain(more)
    ensures Refreshed(live, start, events + more, o)
    ensures forall x :: x != o && Refreshed(live, start, events, x) ==> Refreshed(live, start, events + more, x)
  {
    hide LinkStateRuns.Step, Through, OnlyDelivers, AllHappen, AllNatural, Covers, AllTold, Natural, OnlyFlying, Refreshed, Refreshing, Complete, Safety, OwnMap, Sound, Initial, Quiet, OnlyMoved, Plain;
    var m := FreshId(Through(live, start, events).floods.Keys);
    var first := events + [Refreshing(live, o, m)];
    RefreshFirst(live, start, events, costs, o, m);
    var rest := DrainOne(live, start, first, m);
    DeliveriesComplete(live, start, first, costs, rest, m);
    DeliveriesArePlain(live, rest, m);
    DeliveriesMove(live, start, first, rest, m);
    OneLess(Through(live, start, first), Through(live, start, first + rest), {m}, m);
    NoneFlying(Through(live, start, first + rest), {m} - {m});
    more := [Refreshing(live, o, m)] + rest;
    assert first + rest == events + more;
    RefreshIsPlain(live, o, m, rest);
    forall x | x != o && Refreshed(live, start, events, x) ensures Refreshed(live, start, events + more, x) {
      OthersSpared(live, start, events, rest, o, m, x);
    }
    NowRefreshed(live, start, events, rest, o, m);
  }

  lemma RefreshFirst(live: LiveGraph, start: Net, events: seq<Event>, costs: LinkMap, o: Id, m: string)
    requires Sound(live) && Initial(live, start) && Covers(live, costs) && o in live
    requires Complete(live, start, events, costs) && Quiet(Through(live, start, events))
    requires m != "" && m !in Through(live, start, events).floods
    ensures Complete(live, start, events + [Refreshing(live, o, m)], costs)
    ensures var net, r := Through(live, start, events), Through(live, start, events + [Refreshing(live, o, m)]);
      && m in r.floods && r.floods[m].lsp.origin == o && OnlyFlying(r, {m})
      && r.latest == net.latest[o := m] && r.floods == net.floods[m := r.floods[m]]
  {
    hide LinkStateRuns.Step, Through, AllNatural, Covers, AllTold, Natural, OnlyFlying, Refreshing, Safety, OwnMap, Quiet;
    RunIsSafe(live, start, events);
    RefreshStep(live, Through(live, start, events), costs, o, m);
    NaturalMore(live, start, events, Refreshing(live, o, m));
  }

  lemma RefreshIsPlain(live: LiveGraph, o: Id, m: string, rest: seq<Event>)
    requires Plain(rest)
    ensures Plain([Refreshing(live, o, m)] + rest)
  {
  }

  lemma NowRefreshed(live: LiveGraph, start: Net, events: seq<Event>, rest: seq<Event>, o: Id, m: string)
    requires OnlyDelivers(live, rest, m) && m !in Through(live, start, events).floods
    requires var r := Through(live, start, events + [Refreshing(live, o, m)] + rest);
      o in r.latest && r.latest[o] == m && m in r.floods && r.floods[m].flying == multiset{}
    ensures Refreshed(live, start, events + [Refreshing(live, o, m)] + rest, o)
  {
    hide Through, OnlyDelivers;
    var all := events + [Refreshing(live, o, m)] + rest;
    assert all[..|events|] == events && all[|events| + 1..] == rest && all[|events|] == Refreshing(live, o, m);
    DeliveriesSpare(live, start, all, |events|, o, m);
    hide SparedFrom;
    assert RefreshedSince(live, start, all, |events|, o);
  }

  lemma {:induction false} RefreshAll(live: LiveGraph, start: Net, events: seq<Event>, costs: LinkMap, todo: set<Id>)
    returns (more: seq<Event>)
    requires Sound(live) && Initial(live, start) && Covers(live, costs) && todo <= live.Keys
    requires Complete(live, start, events, costs) && Quiet(Through(live, start, events))
    requires forall x :: x in live && x !in todo ==> Refreshed(live, start, events, x)
    ensures Complete(live, start, events + more, costs) && Quiet(Through(live, start, events + more)) && Plain(more)
    ensures forall x :: x in live ==> Refreshed(live, start, events + more, x)
    decreases |todo|
  {
    hide Complete, Quiet, Refreshed, Covers, Through;
    more := [];
    assert events + more == events;
    if o :| o in todo {
      var first := RefreshOne(live, start, events, costs, o);
      more := RefreshAll(live, start, events + first, costs, todo - {o});
      assert events + first + more == events + (first + more);
      more := first + more;
    }
  }

  /** From boot every connected network comes to rest in some natural run, at
      whatever costs its links are measured. */
  lemma RestIsReachable(live: LiveGraph, start: Net, costs: LinkMap) returns (events: seq<Event>)
    requires Sound(live) && Booted(live, start) && Connected(live) && |live.Keys| <= BUDGET + 1
    requires Covers(live, costs) && Costed(costs)
    ensures Settles(live, start, events) && AllNatural(live, start, events)
    ensures var r := Through(live, start, events); Quiet(r) && AllTold(r) && OwnMap(r) == costs
  {
    var todo := LinksOf(live, live.Keys);
    BootIsBuilt(live, start, costs);
    assert forall p :: p in todo ==> p.0 in costs && p.1 in costs[p.0];
    hide Building, Complete, Connected, Booted, Initial, Costed, Through, Covers, OnlyFlying, Quiet, Refreshed, Settles, AllCounted;
    var built := BuildUp(live, start, [], costs, todo);
    assert [] + built == built;
    BuiltIsComplete(live, start, built, costs);
    EverythingMayFly(Through(live, start, built));
    var drained := DrainAll(live, start, built, costs, Through(live, start, built).floods.Keys);
    var refreshed := RefreshAll(live, start, built + drained, costs, live.Keys);
    events := built + drained + refreshed;
    CompleteSettles(live, start, events, costs);
  }

  lemma EverythingMayFly(net: Net)
    ensures OnlyFlying(net, net.floods.Keys)
  {
  }

  lemma BuiltIsComplete(live: LiveGraph, start: Net, events: seq<Event>, costs: LinkMap)
    requires Building(live, start, events, costs, {})
    ensures Complete(live, start, events, costs)
  {
    hide AllNatural, AllTold, Through, OwnMap;
    assert Built(costs, {}) == costs by {
      forall o | o in costs ensures Built(costs, {})[o] == costs[o] {}
    }
  }

  /** A booted network has built nothing and has nothing to tell. */
  lemma BootIsBuilt(live: LiveGraph, start: Net, costs: LinkMap)
    requires Sound(live) && Booted(live, start) && Covers(live, costs)
    ensures Initial(live, start) && Building(live, start, [], costs, LinksOf(live, live.Keys))
    ensures AllCounted(start, Through(live, start, []))
  {
    BootedIsOk(live, start, "");
    var todo := LinksOf(live, live.Keys);
    forall o | o in live ensures Built(costs, todo)[o] == map[] {
      forall n | n in costs[o] ensures (o, n) in todo {}
    }
  }

  lemma CompleteSettles(live: LiveGraph, start: Net, events: seq<Event>, costs: LinkMap)
    requires Sound(live) && Booted(live, start) && Connected(live) && |live.Keys| <= BUDGET + 1
    requires Covers(live, costs) && Costed(costs) && Complete(live, start, events, costs)
    requires forall o :: o in live ==> Refreshed(live, start, events, o)
    ensures Settles(live, start, events) && AllNatural(live, start, events)
    ensures AllTold(Through(live, start, events)) && OwnMap(Through(live, start, events)) == costs
  {
    hide Through, Connected, Refreshed, AllNatural, Linked, Booted;
    var r := Through(live, start, events);
    ToldIsSaid(r);
    hide AllTold;
    forall o ensures Measured(live, r, o) && Priced(SaidMap(r), o) {
      assert Priced(costs, o);
      assert o in r.nodes ==> o in OwnMap(r);
    }
  }
}
