/** What is still sure when nobody refreshes after the last link has come up. */
module LateJoiners {
  import opened SeenCaches
  import opened Ordering
  import opened LinkState
  import opened FloodCore
  import opened LinkStateFlood
  import opened LinkStateRuns
  import Healing
  import Discovery
  import opened EndToEnd
  import opened PlaneNetworks
  import opened PlaneRests

  type Net = LinkStateFlood.Net
  type Act = LinkStateFlood.Event

  /** Nothing is lost, no entry expires, and nothing comes a restart gap late. */
  ghost predicate Orderly(live: LiveGraph, start: Net, acts: seq<Act>) {
    forall i :: 0 <= i < |acts| ==> Enabled(live, Through(live, start, acts[..i]), acts[i]) && !acts[i].Losing?
  }

  lemma OrderlyBefore(live: LiveGraph, start: Net, acts: seq<Act>, n: nat)
    requires Orderly(live, start, acts) && n <= |acts|
    ensures Orderly(live, start, acts[..n])
    ensures n < |acts| ==> Enabled(live, Through(live, start, acts[..n]), acts[n]) && !acts[n].Losing?
  {
    hide Through, Enabled;
    forall i | 0 <= i < n ensures Enabled(live, Through(live, start, acts[..n][..i]), acts[..n][i]) && !acts[..n][i].Losing? {
      assert acts[..n][..i] == acts[..i];
    }
  }

  /** An orderly run is one of `LinkStateFlood`. */
  lemma {:induction false} OrderlyKeepsInv(live: LiveGraph, start: Net, acts: seq<Act>)
    requires Sound(live) && Initial(live, start) && Orderly(live, start, acts)
    ensures LinkStateFlood.Inv(live, Through(live, start, acts))
  {
    hide LinkStateFlood.Inv, Occur, Initial, Enabled;
    if acts == [] {
      InitialInv(live, start);
    } else {
      var n := |acts| - 1;
      OrderlyBefore(live, start, acts, n);
      OrderlyKeepsInv(live, start, acts[..n]);
      ApplyKeepsInv(live, Through(live, start, acts[..n]), acts[n]);
      EnabledIsPossible(live, Through(live, start, acts[..n]), acts[n]);
    }
  }

  lemma EnabledIsPossible(live: LiveGraph, net: Net, act: Act)
    requires Enabled(live, net, act)
    ensures Possible(live, net, act) && Apply(live, net, act) == LinkStateRuns.Step(live, net, act)
  {
  }

  // -------------------------------------------- told directly by the origin

  /** Who was told when `o` last announced anything. */
  ghost function LastHeard(live: LiveGraph, start: Net, acts: seq<Act>, o: Id): set<Id> {
    if acts == [] then {}
    else
      var before, act := acts[..|acts| - 1], acts[|acts| - 1];
      if act.Local? && act.v == o && Emits(Through(live, start, before), o, act.ev) then act.heard
      else LastHeard(live, start, before, o)
  }

  /** The latest announcement of `o` has reached each of `to`, or is on its way to it
      from someone. */
  ghost predicate DirectTo(net: Net, o: Id, to: set<Id>) {
    o in net.latest && net.latest[o] in net.floods ==>
      var f := net.floods[net.latest[o]];
      forall w :: w in to ==> Done(f.level, CopiesIn(f.flying), w)
  }

  lemma EmitsDirect(live: LiveGraph, net: Net, o: Id, ev: LinkState.Event, heard: set<Id>)
    requires Sound(live) && Possible(live, net, Local(o, ev, heard)) && Emits(net, o, ev)
    ensures DirectTo(LinkStateRuns.Step(live, net, Local(o, ev, heard)), o, heard)
  {
    LocalEffect(o, net.nodes[o], ev);
    hide Handle;
    var r := LinkStateRuns.Step(live, net, Local(o, ev, heard));
    var p := Handle(o, net.nodes[o], ev).1.value;
    var f := r.floods[r.latest[o]];
    forall w | w in heard ensures Done(f.level, CopiesIn(f.flying), w) {
      var e := Envelope(w, Relayed(o, p));
      assert w != o && e in f.flying;
      assert AsCopy(e) in CopiesIn(f.flying);
    }
  }

  lemma LocalKeepsDirect(live: LiveGraph, net: Net, v: Id, ev: LinkState.Event, heard: set<Id>, o: Id, to: set<Id>)
    requires Possible(live, net, Local(v, ev, heard)) && DirectTo(net, o, to) && LinkStateFlood.Inv(live, net)
    requires !(v == o && Emits(net, o, ev))
    ensures DirectTo(LinkStateRuns.Step(live, net, Local(v, ev, heard)), o, to)
  {
    assert OriginOk(net, o);
    LocalEffect(v, net.nodes[v], ev);
    hide Handle, Relay, LinkStateFlood.Inv, CopiesIn;
  }

  lemma DeliveryKeepsDirect(live: LiveGraph, net: Net, e: Envelope, now: Time, heard: set<Id>, o: Id, to: set<Id>)
    requires Possible(live, net, Delivering(e, now, heard)) && DirectTo(net, o, to) && LinkStateFlood.Inv(live, net)
    ensures DirectTo(LinkStateRuns.Step(live, net, Delivering(e, now, heard)), o, to)
  {
    Healing.DeliveryShape(live, net, e, now, heard);
    var r := LinkStateRuns.Step(live, net, Delivering(e, now, heard));
    if o in net.latest && net.latest[o] == e.info.msgId {
      var f, g := net.floods[e.info.msgId], r.floods[e.info.msgId];
      ViaHandled(live, net, e);
      var out := Sent(net, e, now, heard);
      assert g.flying == f.flying - multiset{e} + multiset(out);
      FlightAfter(f.flying, e, out);
      hide HandleInfo, Relay, LinkStateFlood.Inv, CopiesIn, Occur;
      forall w | w in to ensures Done(g.level, CopiesIn(g.flying), w) {
        assert Done(f.level, CopiesIn(f.flying), w);
        if w !in f.level && w != e.to { StillIncoming(CopiesIn(f.flying), CopiesIn(g.flying), AsCopy(e), w); }
      }
    } else {
      hide HandleInfo, Relay, LinkStateFlood.Inv, CopiesIn, Occur;
    }
  }

  /** Whoever was told when `o` last announced has the announcement or gets it. */
  lemma {:induction false} ToldDirectly(live: LiveGraph, start: Net, acts: seq<Act>, o: Id)
    requires Sound(live) && Initial(live, start) && Orderly(live, start, acts)
    ensures DirectTo(Through(live, start, acts), o, LastHeard(live, start, acts, o))
  {
    hide LinkStateFlood.Inv, DirectTo, LinkStateRuns.Step, Initial, Enabled, Emits, Possible;
    if acts == [] {
      assert DirectTo(start, o, {}) by { NobodyTold(start, o); }
    } else {
      var n := |acts| - 1;
      var net, act := Through(live, start, acts[..n]), acts[n];
      OrderlyBefore(live, start, acts, n);
      OrderlyKeepsInv(live, start, acts[..n]);
      ToldDirectly(live, start, acts[..n], o);
      EnabledIsPossible(live, net, act);
      match act
      case Local(v, ev, heard) =>
        if v == o && Emits(net, o, ev) {
          EmitsDirect(live, net, o, ev, heard);
        } else {
          LocalKeepsDirect(live, net, v, ev, heard, o, LastHeard(live, start, acts[..n], o));
        }
      case Delivering(e, now, heard) => DeliveryKeepsDirect(live, net, e, now, heard, o, LastHeard(live, start, acts[..n], o));
      case Losing(_, _) =>
    }
  }

  lemma NobodyTold(net: Net, o: Id)
    ensures DirectTo(net, o, {})
  {
  }

  // ------------------------------------------ discovery tells all it finds

  /** If a handler call announces, it tells whom it leaves alive. */
  lemma {:induction false} LastHeardIn(live: LiveGraph, start: Net, acts: seq<Act>, more: seq<Act>, o: Id, to: set<Id>)
    requires forall i :: 0 <= i < |more| && more[i].Local? && more[i].v == o ==> more[i].heard == to
    ensures LastHeard(live, start, acts + more, o) in {to, LastHeard(live, start, acts, o)}
    ensures more != [] && more[0].Local? && more[0].v == o && Emits(Through(live, start, acts), o, more[0].ev) ==>
              LastHeard(live, start, acts + more, o) == to
    decreases |more|
  {
    hide Through, Emits;
    if more == [] {
      assert acts + more == acts;
    } else {
      var n := |more| - 1;
      LastHeardIn(live, start, acts, more[..n], o, to);
      assert (acts + more)[..|acts + more| - 1] == acts + more[..n];
      if n == 0 { assert acts + more[..n] == acts; }
    }
  }

  lemma {:induction false} LostAreLocal(v: Id, downs: seq<(Id, string)>, now: Time, heard: set<Id>)
    ensures forall i :: 0 <= i < |LinksLost(v, downs, now, heard)| ==>
      LinksLost(v, downs, now, heard)[i].Local? && LinksLost(v, downs, now, heard)[i].v == v && LinksLost(v, downs, now, heard)[i].heard == heard
    decreases |downs|
  {
    if downs != [] { LostAreLocal(v, downs[..|downs| - 1], now, heard); }
  }

  /** All that a handler call does, it does knowing whom it leaves alive. */
  lemma ActsHeard(v: Id, ns: Discovery.Neighbors, step: Discovery.Step)
    ensures forall i :: 0 <= i < |Acts(v, ns, step)| && Acts(v, ns, step)[i].Local? ==>
      Acts(v, ns, step)[i].v == v && Acts(v, ns, step)[i].heard == Discovery.Alive(Heeded(v, ns, step).0)
  {
    if step.input.Reap? { LostAreLocal(v, step.input.downs, step.now, Discovery.Alive(Heeded(v, ns, step).0)); }
    hide Heeded, Discovery.Alive, LinksLost;
  }

  /** A neighbour found anew is reported to the routing plane first. */
  lemma NewIsReported(v: Id, ns: Discovery.Neighbors, step: Discovery.Step, n: Id)
    requires n in Discovery.Alive(Heeded(v, ns, step).0) && n !in Discovery.Alive(ns)
    ensures var acts := Acts(v, ns, step);
      acts != [] && acts[0].Local? && acts[0].v == v && acts[0].ev.input.LinkUp? && acts[0].ev.input.neighbor == n
  {
  }

  lemma NewIsAnnounced(self: Id, st: State, ev: LinkState.Event)
    requires ev.input.LinkUp? && ev.input.neighbor !in st.links
    ensures Handle(self, st, ev).1.Some?
  {
    hide TableFor, Look;
  }

  /** Whom a node has found is whom it told when it last announced, or fewer. */
  lemma {:induction false} AliveIsTold(live: LiveGraph, start: Planes, events: seq<PlaneNetworks.Event>, o: Id)
    requires BootedPlanes(live, start) && o in live
    ensures o in PlaneNetworks.After(live, start, events).neighbors
    ensures Discovery.Alive(PlaneNetworks.After(live, start, events).neighbors[o]) <=
            LastHeard(live, start.net, ActsOf(live, start, events), o)
  {
    LinksAreAlive(live, start, events, o);
    if events != [] {
      var before, ev := events[..|events| - 1], events[|events| - 1];
      var p := PlaneNetworks.After(live, start, before);
      AliveIsTold(live, start, before, o);
      LinksAreAlive(live, start, before, o);
      PlanesRunTheNetwork(live, start, before);
      ActsUnfold(live, start, events);
      if Happens(live, p, ev) {
        hide ActsOf, LastHeard, Through, Happens;
        AliveStaysTold(live, start, ActsOf(live, start, before), p, ev, o);
      } else {
        assert ActsOf(live, start, before) + [] == ActsOf(live, start, before);
      }
    }
  }

  lemma AliveStaysTold(live: LiveGraph, start: Planes, acts: seq<Act>, p: Planes, ev: PlaneNetworks.Event, o: Id)
    requires Happens(live, p, ev) && p.net == Through(live, start.net, acts) && o in p.net.nodes && o in p.neighbors
    requires p.net.nodes[o].links.Keys == Discovery.Alive(p.neighbors[o])
    requires Discovery.Alive(p.neighbors[o]) <= LastHeard(live, start.net, acts, o)
    requires o in Next(live, p, ev).neighbors
    ensures Discovery.Alive(Next(live, p, ev).neighbors[o]) <= LastHeard(live, start.net, acts + ActsAt(p, ev), o)
  {
    var more, r := ActsAt(p, ev), Next(live, p, ev);
    hide LastHeard, Through, AllPossible;
    match ev
    case Dropped(e, now) =>
      LastHeardIn(live, start.net, acts, more, o, LastHeard(live, start.net, acts, o));
    case At(v, step) =>
      ActsHeard(v, p.neighbors[v], step);
      if v != o {
        LastHeardIn(live, start.net, acts, more, o, LastHeard(live, start.net, acts, o));
      } else {
        var to := Discovery.Alive(r.neighbors[o]);
        HeededIsNext(p, v, step);
        hide Acts, Heeded, Discovery.Next, Discovery.Possible;
        LastHeardIn(live, start.net, acts, more, o, to);
        if n :| n in to && n !in Discovery.Alive(p.neighbors[o]) {
          NewIsReported(o, p.neighbors[o], step, n);
          NewIsAnnounced(o, p.net.nodes[o], more[0].ev);
        }
      }
  }

  // ------------------------------------------------- neighbours know each other

  /** A network in which, without loss, everyone has found its neighbours and nothing
      is in flight or left to say; who has refreshed since is not asked. */
  ghost predicate Gathered(live: LiveGraph, start: Planes, events: seq<PlaneNetworks.Event>) {
    && Sound(live) && Mutual(live) && Connected(live) && BootedPlanes(live, start)
    && Orderly(live, start.net, ActsOf(live, start, events))
    && var p := PlaneNetworks.After(live, start, events);
       AllFound(live, p) && AllTold(p.net) && Quiet(p.net)
  }

  lemma SaysLinks(live: LiveGraph, start: Planes, events: seq<PlaneNetworks.Event>, o: Id)
    requires Gathered(live, start, events) && o in live
    ensures var net := PlaneNetworks.After(live, start, events).net;
      && LinkStateFlood.Inv(live, net) && net.nodes.Keys == live.Keys && o in net.latest && OriginOk(net, o)
      && net.nodes[o].links.Keys == live[o] && Said(net, o) == net.nodes[o].links
  {
    var net, acts := PlaneNetworks.After(live, start, events).net, ActsOf(live, start, events);
    PlanesRunTheNetwork(live, start, events);
    PlanesBoot(live, start);
    OrderlyKeepsInv(live, start.net, acts);
    NodesStayOk(live, start.net, acts, o);
    LinksAreAlive(live, start, events, o);
    SameNodes(live, start, events);
    assert ReachesAll(live, o) && Told(net, o) && AllFound(live, PlaneNetworks.After(live, start, events));
    hide PlaneNetworks.After, ActsOf, Through, Reachable, FloodOk, SeenHandled, Filed;
  }

  /** Every node has on file exactly what its neighbours have as links. */
  lemma NeighboursKnow(live: LiveGraph, start: Planes, events: seq<PlaneNetworks.Event>, o: Id, w: Id)
    requires Gathered(live, start, events) && o in live && w in live[o]
    ensures var net := PlaneNetworks.After(live, start, events).net;
      w in net.nodes && o in net.nodes && o in net.nodes[w].lsdb && net.nodes[w].lsdb[o].links == net.nodes[o].links
  {
    var net, acts := PlaneNetworks.After(live, start, events).net, ActsOf(live, start, events);
    SaysLinks(live, start, events, o);
    PlanesRunTheNetwork(live, start, events);
    PlanesBoot(live, start);
    ToldDirectly(live, start.net, acts, o);
    AliveIsTold(live, start, events, o);
    LinksAreAlive(live, start, events, o);
    var m := net.latest[o];
    assert live[o] <= live.Keys && w != o;
    hide PlaneNetworks.After, ActsOf, Through, LastHeard, Connected, BootedPlanes;
    assert w in net.floods[m].level by { DirectIsHandled(net, o, w, LastHeard(live, start.net, acts, o)); }
    assert Held(net, w, m);
    NoNewerThanLatest(live, net, w, o);
  }

  lemma DirectIsHandled(net: Net, o: Id, w: Id, to: set<Id>)
    requires DirectTo(net, o, to) && Quiet(net) && w in to && o in net.latest && net.latest[o] in net.floods
    ensures w in net.floods[net.latest[o]].level
  {
    var f := net.floods[net.latest[o]];
    assert Done(f.level, CopiesIn(f.flying), w) && f.flying == multiset{};
  }
}
