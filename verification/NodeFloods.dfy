/** What the handlers of a node put on its links for the routing plane are the copies
    that the network model puts in flight. */
module NodeFloods {
  import opened Options
  import opened Ordering
  import opened SeenCaches
  import opened Names
  import opened Packets
  import opened WireFormat
  import opened Flooding
  import opened LinkState
  import opened Nodes
  import Discovery
  import LinkStateNode
  import LinkStateFlood
  import opened LinkStateRuns
  import opened FloodCore
  import opened PlaneNetworks

  type Net = LinkStateFlood.Net

  ghost predicate Carries(names: Addresses, copy: (Id, Wire), e: Envelope) {
    copy.0 == e.to && Writes(names, copy.1, e.info)
  }

  ghost predicate Written(names: Addresses, copy: (Id, Wire), es: set<Envelope>) {
    exists e :: e in es && Carries(names, copy, e)
  }

  /** The packets in `sent` write just the copies in `es`, one to each node that has
      one. */
  ghost predicate AsEnvelopes(names: Addresses, sent: Sends, es: set<Envelope>) {
    && (forall i :: 0 <= i < |sent| ==> Written(names, sent[i], es))
    && (set i | 0 <= i < |sent| :: sent[i].0) == (set e | e in es :: e.to)
    && (forall i, j :: 0 <= i < j < |sent| ==> sent[i].0 != sent[j].0)
  }

  /** The copies of announcement `m` in flight. */
  function Flying(net: Net, m: string): multiset<Envelope> {
    if m in net.floods then net.floods[m].flying else multiset{}
  }

  /** Between `before` and `after` the copies of `m` that `sent` writes have come to be
      in flight, those in `gone` no longer are, and nothing else has moved. */
  ghost predicate OnLinks(names: Addresses, before: Net, after: Net, m: string, gone: multiset<Envelope>, sent: Sends) {
    && (exists es :: AsEnvelopes(names, sent, es) && Flying(after, m) == Flying(before, m) - gone + multiset(es))
    && forall n :: n != m ==> Flying(after, n) == Flying(before, n)
  }

  /** A node's links can be written with addresses. */
  ghost predicate LinksNamed(f: Fabric, net: Net) {
    && SelfNamed(f) && SoundTable(f.names)
    && f.id in net.nodes && forall n :: n in net.nodes[f.id].links ==> Nameable(f.names, n)
  }

  lemma NothingOnLinks(names: Addresses, net: Net, m: string)
    ensures OnLinks(names, net, net, m, multiset{}, [])
  {
    var es: set<Envelope> := {};
    assert AsEnvelopes(names, [], es);
    assert Flying(net, m) == Flying(net, m) - multiset{} + multiset(es);
  }

  /** The copies of one packet to chosen neighbours are the envelopes of `Relay`. */
  lemma CopiesAreRelay(f: Fabric, alive: set<Id>, live: seq<Id>, w: Wire, p: Info)
    requires SelfNamed(f) && SoundTable(f.names) && Writes(f.names, w, p) && Distinct(live) && Elements(live) == alive
    ensures AsEnvelopes(f.names, LinkStateNode.Copies(f, live, w, p.via), Relay(f.id, alive, p))
  {
    LinkStateNode.CopiesAreEnvelopes(f, live, w, p);
    hide Writes, SelfNamed, SoundTable, LinkStateNode.Copies, Relay, Relayed;
    var cs, q := LinkStateNode.Copies(f, live, w, p.via), Relayed(f.id, p);
    var es := set i | 0 <= i < |cs| :: Envelope(cs[i].0, q);
    assert es == Relay(f.id, alive, p);
    forall i | 0 <= i < |cs| ensures Written(f.names, cs[i], es) {
      assert Carries(f.names, cs[i], Envelope(cs[i].0, q)) && Envelope(cs[i].0, q) in es;
    }
    assert (set i | 0 <= i < |cs| :: cs[i].0) == (set e | e in es :: e.to) by {
      forall i | 0 <= i < |cs| ensures cs[i].0 in (set e | e in es :: e.to) { assert Envelope(cs[i].0, q) in es; }
    }
  }

  /** A node's own announcement, as its links carry it. */
  lemma AnnouncedIsRelay(f: Fabric, alive: set<Id>, p: Info, sent: Sends)
    requires SelfNamed(f) && SoundTable(f.names) && AllNameable(f.names, p)
    requires p.ttl == DEFAULT_TTL && p.via == f.id && p.lsp.value.origin == f.id
    requires Announces(f, alive, Some(p), sent)
    ensures AsEnvelopes(f.names, sent, Relay(f.id, alive, p))
  {
    var live :| Distinct(live) && Elements(live) == alive && LinkStateNode.Floods(f, live, Some(p), sent);
    var links := p.lsp.value.links;
    var list :| Elements(list) == LinkStateNode.AddressedLinks(f, links)
      && sent == LinkStateNode.Copies(f, live, AnnouncedWire(f, p.msgId, p.lsp.value.number, list), f.id);
    forall n | n in links ensures Address(f, n) == AddressIn(f.names, n) { AddressInIsAddress(f, n); }
    assert LinkStateNode.AddressedLinks(f, links) == LinkEntries(f.names, links);
    AnnouncementWrites(f, p, list);
    hide Writes, SelfNamed, SoundTable, LinkStateNode.Copies, Relay, AnnouncedWire;
    CopiesAreRelay(f, alive, live, AnnouncedWire(f, p.msgId, p.lsp.value.number, list), p);
  }

  // ------------------------------------------------ one event of the network

  lemma LocalFlies(live: LiveGraph, net: Net, v: Id, ev: LinkState.Event, heard: set<Id>)
    requires LinkStateFlood.Possible(live, net, LinkStateFlood.Local(v, ev, heard))
    ensures var r, p := LinkStateRuns.Step(live, net, LinkStateFlood.Local(v, ev, heard)), Handle(v, net.nodes[v], ev).1;
      if p.Some?
      then
        && p.value.msgId == ev.msgId && Flying(net, ev.msgId) == multiset{}
        && Flying(r, ev.msgId) == multiset(Relay(v, heard, p.value))
        && forall n :: n != ev.msgId ==> Flying(r, n) == Flying(net, n)
      else forall n :: Flying(r, n) == Flying(net, n)
  {
    LocalEffect(v, net.nodes[v], ev);
    hide Handle, Relay;
  }

  /** A local event: what the node announces is what comes to be in flight. */
  lemma LocalOnLinks(live: LiveGraph, net: Net, f: Fabric, ev: LinkState.Event, heard: set<Id>, sent: Sends)
    requires LinkStateFlood.Possible(live, net, LinkStateFlood.Local(f.id, ev, heard)) && LinksNamed(f, net)
    requires ev.input.LinkUp? ==> Nameable(f.names, ev.input.neighbor)
    requires Announces(f, heard, Handle(f.id, net.nodes[f.id], ev).1, sent)
    ensures OnLinks(f.names, net, LinkStateRuns.Step(live, net, LinkStateFlood.Local(f.id, ev, heard)), ev.msgId, multiset{}, sent)
  {
    var v, st := f.id, net.nodes[f.id];
    LocalEffect(v, st, ev);
    NamedStay(f, st, ev);
    LocalFlies(live, net, v, ev, heard);
    hide Handle, Relay, SoundTable, SelfNamed, Announces, LinkStateRuns.Step, AllNameable, Flying;
    var p := Handle(v, st, ev).1;
    if p.Some? {
      assert Announces(f, heard, Some(p.value), sent);
      AnnouncedIsRelay(f, heard, p.value, sent);
      hide AsEnvelopes;
    } else {
      SaysNothing(f, heard, sent);
      NothingOnLinks(f.names, net, ev.msgId);
    }
  }

  lemma SaysNothing(f: Fabric, heard: set<Id>, sent: Sends)
    requires Announces(f, heard, None, sent)
    ensures sent == []
  {
  }

  lemma NamedStay(f: Fabric, st: State, ev: LinkState.Event)
    requires SelfNamed(f) && SoundTable(f.names) && forall n :: n in st.links ==> Nameable(f.names, n)
    requires !ev.input.Received? && (ev.input.LinkUp? ==> Nameable(f.names, ev.input.neighbor))
    ensures var p := Handle(f.id, st, ev).1; p.Some? ==> AllNameable(f.names, p.value)
  {
    LocalEffect(f.id, st, ev);
    hide TableFor, Look, Unexpired, Nameable;
  }

  lemma DeliveryFlies(live: LiveGraph, net: Net, e: Envelope, now: Time, heard: set<Id>)
    requires LinkStateFlood.Possible(live, net, LinkStateFlood.Delivering(e, now, heard))
    ensures var r, m := LinkStateRuns.Step(live, net, LinkStateFlood.Delivering(e, now, heard)), e.info.msgId;
      var out := if HandleInfo(e.to, net.nodes[e.to], e.info, now).1 then Relay(e.to, heard, e.info) else {};
      && Flying(r, m) == Flying(net, m) - multiset{e} + multiset(out)
      && forall n :: n != m ==> Flying(r, n) == Flying(net, n)
  {
    hide HandleInfo, Relay;
  }

  lemma PassedOnEnvelopes(f: Fabric, st: State, heard: set<Id>, p: Info, now: Time, w: Wire, sent: Sends)
    requires SelfNamed(f) && SoundTable(f.names) && Writes(f.names, w, p)
    requires PassesAnnouncement(f, Discovery.LinkStateMode(st), heard, w, p, now, sent)
    ensures AsEnvelopes(f.names, sent, if HandleInfo(f.id, st, p, now).1 then Relay(f.id, heard, p) else {})
  {
    hide HandleInfo, Relay, SoundTable, SelfNamed, Writes, LinkStateNode.Copies;
    if HandleInfo(f.id, st, p, now).1 {
      var order :| Distinct(order) && Elements(order) == heard && sent == LinkStateNode.Copies(f, order, w, p.via);
      CopiesAreRelay(f, heard, order, w, p);
    }
  }

  /** A copy that arrives: what the node passes on comes to be in flight in its place. */
  lemma DeliveryOnLinks(live: LiveGraph, net: Net, f: Fabric, e: Envelope, now: Time, heard: set<Id>, w: Wire, sent: Sends)
    requires LinkStateFlood.Possible(live, net, LinkStateFlood.Delivering(e, now, heard)) && e.to == f.id
    requires SelfNamed(f) && SoundTable(f.names) && Writes(f.names, w, e.info)
    requires PassesAnnouncement(f, Discovery.LinkStateMode(net.nodes[f.id]), heard, w, e.info, now, sent)
    ensures OnLinks(f.names, net, LinkStateRuns.Step(live, net, LinkStateFlood.Delivering(e, now, heard)), e.info.msgId, multiset{e}, sent)
  {
    hide HandleInfo, Relay, SoundTable, SelfNamed, Writes, AsEnvelopes, Flying, PassesAnnouncement, LinkStateRuns.Step;
    PassedOnEnvelopes(f, net.nodes[f.id], heard, e.info, now, w, sent);
    DeliveryFlies(live, net, e, now, heard);
  }

  // ------------------------------------------------- the handlers of a node

  /** What a hello, an echo or an announcement makes a node announce of its sender is
      what the network model puts in flight for it. */
  lemma ReportOnLinks(live: LiveGraph, net: Net, f: Fabric, n: Id, cost: Option<real>, msgId: string, now: Time, heard: set<Id>, sent: Sends)
    requires AllPossible(live, net, Reported(f.id, n, cost, msgId, now, heard)) && LinksNamed(f, net) && Nameable(f.names, n)
    requires Announces(f, heard, ReportNews(f.id, Discovery.LinkStateMode(net.nodes[f.id]), n, cost, msgId, now), sent)
    ensures OnLinks(f.names, net, Through(live, net, Reported(f.id, n, cost, msgId, now, heard)), msgId, multiset{}, sent)
  {
    hide OnLinks, LinksNamed, Announces, OnLinkUp, LinkStateFlood.Possible, LinkStateRuns.Step;
    if cost.Some? {
      var ev := LinkState.Event(LinkUp(n, cost.value), msgId, now);
      AfterOne(live, net, LinkStateFlood.Local(f.id, ev, heard));
      hide Through, AllPossible;
      LocalOnLinks(live, net, f, ev, heard, sent);
    } else {
      SaysNothing(f, heard, sent);
      NothingOnLinks(f.names, net, msgId);
    }
  }

  /** The packets of a sweep, in turn: those for each loss are what the network model
      puts in flight for it. */
  ghost predicate LossesOnLinks(live: LiveGraph, net: Net, f: Fabric, downs: seq<(Id, string)>, now: Time, heard: set<Id>, sent: Sends)
    decreases |downs|
  {
    if downs == [] then sent == []
    else
      var init, last := downs[..|downs| - 1], downs[|downs| - 1];
      exists k :: 0 <= k <= |sent| && LossesOnLinks(live, net, f, init, now, heard, sent[..k])
        && OnLinks(f.names, Through(live, net, LinksLost(f.id, init, now, heard)), Through(live, net, LinksLost(f.id, downs, now, heard)),
                   last.1, multiset{}, sent[k..])
  }

  lemma {:induction false} SweepOnLinks(live: LiveGraph, net: Net, f: Fabric, downs: seq<(Id, string)>, now: Time, heard: set<Id>, sent: Sends)
    requires AllPossible(live, net, LinksLost(f.id, downs, now, heard)) && LinksNamed(f, net)
    requires Withdrawals(f, Discovery.LinkStateMode(net.nodes[f.id]), heard, downs, now, sent)
    ensures LossesOnLinks(live, net, f, downs, now, heard, sent)
    decreases |downs|
  {
    hide OnLinks, Announces, LinkStateFlood.Possible, LinkStateRuns.Step, Through, SelfNamed, SoundTable, DownNews, Discovery.LinksDown;
    if downs != [] {
      var init, last := downs[..|downs| - 1], downs[|downs| - 1];
      var r := Discovery.LinkStateMode(net.nodes[f.id]);
      var k :| 0 <= k <= |sent| && Withdrawals(f, r, heard, init, now, sent[..k])
        && Announces(f, heard, DownNews(f.id, Discovery.LinksDown(f.id, r, init, now), last.0, last.1, now), sent[k..]);
      assert AllPossible(live, net, LinksLost(f.id, init, now, heard)) by { InitPossible(live, net, f.id, downs, now, heard); }
      SweepOnLinks(live, net, f, init, now, heard, sent[..k]);
      LastLossOnLinks(live, net, f, downs, now, heard, sent[k..]);
    }
  }

  lemma InitPossible(live: LiveGraph, net: Net, v: Id, downs: seq<(Id, string)>, now: Time, heard: set<Id>)
    requires downs != [] && AllPossible(live, net, LinksLost(v, downs, now, heard))
    ensures AllPossible(live, net, LinksLost(v, downs[..|downs| - 1], now, heard))
    ensures var init, last := downs[..|downs| - 1], downs[|downs| - 1];
      var act := LinkStateFlood.Local(v, LinkState.Event(LinkDown(last.0), last.1, now), heard);
      var before := Through(live, net, LinksLost(v, init, now, heard));
      LinkStateFlood.Possible(live, before, act) && Through(live, net, LinksLost(v, downs, now, heard)) == LinkStateRuns.Step(live, before, act)
  {
    var init, last := downs[..|downs| - 1], downs[|downs| - 1];
    AfterLast(live, net, LinksLost(v, init, now, heard), LinkStateFlood.Local(v, LinkState.Event(LinkDown(last.0), last.1, now), heard));
  }

  lemma LastLossOnLinks(live: LiveGraph, net: Net, f: Fabric, downs: seq<(Id, string)>, now: Time, heard: set<Id>, sent: Sends)
    requires downs != [] && AllPossible(live, net, LinksLost(f.id, downs, now, heard)) && LinksNamed(f, net)
    requires var init, last := downs[..|downs| - 1], downs[|downs| - 1];
      Announces(f, heard, DownNews(f.id, Discovery.LinksDown(f.id, Discovery.LinkStateMode(net.nodes[f.id]), init, now), last.0, last.1, now), sent)
    ensures var init, last := downs[..|downs| - 1], downs[|downs| - 1];
      OnLinks(f.names, Through(live, net, LinksLost(f.id, init, now, heard)), Through(live, net, LinksLost(f.id, downs, now, heard)),
              last.1, multiset{}, sent)
  {
    hide OnLinks, Announces, LinkStateFlood.Possible, LinkStateRuns.Step, Through, OnLinkDown, SoundTable, SelfNamed;
    var init, last := downs[..|downs| - 1], downs[|downs| - 1];
    InitPossible(live, net, f.id, downs, now, heard);
    DownsAct(live, net, f.id, init, now, heard);
    Discovery.DownsRemove(f.id, Discovery.LinkStateMode(net.nodes[f.id]), init, now);
    var before := Through(live, net, LinksLost(f.id, init, now, heard));
    assert before.nodes[f.id].links == net.nodes[f.id].links - Elements(Discovery.Firsts(init));
    LocalOnLinks(live, before, f, LinkState.Event(LinkDown(last.0), last.1, now), heard, sent);
  }

  // ---------------------------------------------- handler calls, as a whole

  /** The plane of `f` names all it can announce. */
  ghost predicate PlaneNamed(f: Fabric, p: Planes) {
    LinksNamed(f, p.net) && f.id in p.neighbors
  }

  lemma NamedParts(f: Fabric, net: Net)
    requires LinksNamed(f, net)
    ensures SelfNamed(f) && SoundTable(f.names)
  {
  }

  /** In the other modes a node announces nothing and passes nothing on. */
  lemma OtherModesAreSilent(f: Fabric, r: Discovery.Routing, alive: set<Id>, n: Id, cost: Option<real>, msgId: string, now: Time,
                            w: Wire, p: Info, announced: Sends, relayed: Sends)
    requires !r.LinkStateMode? && Announces(f, alive, ReportNews(f.id, r, n, cost, msgId, now), announced)
    requires PassesAnnouncement(f, r, alive, w, p, now, relayed)
    ensures announced == [] && relayed == []
  {
    SaysNothing(f, alive, announced);
  }

  /** What `HandleHello` and `HandleEcho` announce is what the call puts in flight in the
      network of planes. */
  lemma ProbeOnLinks(live: LiveGraph, p: Planes, f: Fabric, step: Discovery.Step, sent: Sends)
    requires step.input.Hello? || step.input.Echo?
    requires PlaneNamed(f, p) && Nameable(f.names, step.input.from) && Happens(live, p, At(f.id, step))
    requires var (after, cost) := Heeded(f.id, p.neighbors[f.id], step);
      Announces(f, Discovery.Alive(after),
                ReportNews(f.id, PlaneOf(p, f.id).routing, step.input.from, cost, step.msgId, step.now), sent)
    ensures OnLinks(f.names, p.net, PlaneNetworks.Next(live, p, At(f.id, step)).net, step.msgId, multiset{}, sent)
  {
    hide OnLinks, Announces, LinksNamed, Through, AllPossible, ReportNews, Nameable, Discovery.Heard, Discovery.Measured;
    var (after, cost) := Heeded(f.id, p.neighbors[f.id], step);
    ReportOnLinks(live, p.net, f, step.input.from, cost, step.msgId, step.now, Discovery.Alive(after), sent);
  }

  /** What `ReapDead` announces is what the sweep puts in flight. */
  lemma ReapOnLinks(live: LiveGraph, p: Planes, f: Fabric, step: Discovery.Step, sent: Sends)
    requires step.input.Reap? && PlaneNamed(f, p) && Happens(live, p, At(f.id, step))
    requires var alive := Discovery.Alive(Discovery.Reaped(p.neighbors[f.id], step.now));
      Withdrawals(f, PlaneOf(p, f.id).routing, alive, step.input.downs, step.now, sent)
    ensures var downs, alive := step.input.downs, Discovery.Alive(Discovery.Reaped(p.neighbors[f.id], step.now));
      && LossesOnLinks(live, p.net, f, downs, step.now, alive, sent)
      && PlaneNetworks.Next(live, p, At(f.id, step)).net == Through(live, p.net, LinksLost(f.id, downs, step.now, alive))
  {
    hide LossesOnLinks, Withdrawals, LinksNamed, Through, AllPossible, LinksLost, Discovery.Reaped, Discovery.Alive;
    SweepOnLinks(live, p.net, f, step.input.downs, step.now, Discovery.Alive(Discovery.Reaped(p.neighbors[f.id], step.now)), sent);
  }

  /** What `HandleInfo` announces and then passes on is what the call puts in flight: first
      of the previous hop, if that is news, then of the announcement read. */
  lemma InfoOnLinks(live: LiveGraph, p: Planes, f: Fabric, step: Discovery.Step, w: Wire, announced: Sends, relayed: Sends)
    requires step.input.Announcement? && PlaneNamed(f, p) && Nameable(f.names, step.input.via) && Happens(live, p, At(f.id, step))
    requires Writes(f.names, w, step.input.info)
    requires var (after, cost) := Heeded(f.id, p.neighbors[f.id], step);
      var r := PlaneOf(p, f.id).routing;
      && Announces(f, Discovery.Alive(after), ReportNews(f.id, r, step.input.via, cost, step.msgId, step.now), announced)
      && PassesAnnouncement(f, Discovery.Report(f.id, r, step.input.via, cost, step.msgId, step.now), Discovery.Alive(after), w,
                            step.input.info, step.now, relayed)
    ensures exists mid ::
      && OnLinks(f.names, p.net, mid, step.msgId, multiset{}, announced)
      && OnLinks(f.names, mid, PlaneNetworks.Next(live, p, At(f.id, step)).net, step.input.info.msgId,
                 multiset{Envelope(f.id, step.input.info)}, relayed)
  {
    var (after, cost) := Heeded(f.id, p.neighbors[f.id], step);
    var heard := Discovery.Alive(after);
    var first := Reported(f.id, step.input.via, cost, step.msgId, step.now, heard);
    var act := LinkStateFlood.Delivering(Envelope(f.id, step.input.info), step.now, heard);
    var mid := Through(live, p.net, first);
    hide OnLinks, Announces, LinksNamed, Through, AllPossible, ReportNews, Nameable, Discovery.Heard, LinkStateRuns.Step,
         PassesAnnouncement, Reported, Writes, Discovery.Report, LinkStateFlood.Possible;
    AfterLast(live, p.net, first, act);
    ReportOnLinks(live, p.net, f, step.input.via, cost, step.msgId, step.now, heard, announced);
    ReportActs(live, p.net, f.id, step.input.via, cost, step.msgId, step.now, heard);
    NamedParts(f, p.net);
    DeliveryOnLinks(live, mid, f, Envelope(f.id, step.input.info), step.now, heard, w, relayed);
  }
}
