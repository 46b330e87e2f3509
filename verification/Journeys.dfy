/** From the user's text at one node to the user's text at another: the packets that
    the nodes' handlers put on links follow the messages of the network models. */
module Journeys {
  import opened Options
  import opened Ordering
  import opened Graphs
  import opened ShortestPaths
  import opened Names
  import opened Packets
  import opened WireFormat
  import opened MessagePlane
  import opened MessageFormat
  import opened HopByHop
  import opened Nodes
  import Discovery
  import LinkStateNode
  import LinkStateFlood
  import opened LinkStateRuns
  import FloodCore
  import MessageFlood
  import opened Drift
  import opened EndToEnd

  /** Nodes with a table each, link-state or static, and one sound name table. */
  ghost predicate Deployment(fs: map<Id, Fabric>, rs: map<Id, Discovery.Routing>, tables: Tables) {
    && fs.Keys == rs.Keys == tables.Keys
    && (forall v :: v in fs ==> fs[v].id == v && SelfNamed(fs[v]) && SoundTable(fs[v].names))
    && (forall u, v :: u in fs && v in fs ==> fs[u].names == fs[v].names)
    && (forall v :: v in rs ==> !rs[v].FloodingMode? && TableOf(rs[v]) == tables[v])
  }

  /** What `HandleMessage` does at a node with fabric `f` and routing plane `r`. */
  ghost predicate Handled(f: Fabric, r: Discovery.Routing, known: bool, w: Wire, delivered: bool, sent: Sends) {
    exists m, targets, alive :: ReadsMessage(f, w, m) && Handles(f, r, alive, known, w, m, targets, delivered, sent)
  }

  /** What `Send` does there. */
  ghost predicate Originates(f: Fabric, r: Discovery.Routing, to: Id, msgId: string, text: string, w: Wire, sent: Sends) {
    Starts(f, to, msgId, text, w)
    && exists targets, alive :: Chosen(f, r, alive, w, targets) && sent == LinkStateNode.ToEach(targets, w)
  }

  /** `w` writes a message that can be read back. */
  ghost predicate Written(names: Addresses, w: Wire, m: Message) {
    WritesMessage(names, w, m) && AllNamed(names, m)
  }

  /** The message after one more hop. */
  function Onward(at: Id, m: Message): Message {
    Message(m.id, m.from, m.to, m.ttl - 1, at, m.trace + [at])
  }

  /** The node reads what was written, and picks its table's next hop. */
  lemma HandledAsWritten(f: Fabric, r: Discovery.Routing, w: Wire, m: Message, known: bool, delivered: bool, sent: Sends)
    returns (targets: seq<Id>, alive: set<Id>)
    requires SelfNamed(f) && SoundTable(f.names) && Written(f.names, w, m)
    requires !r.FloodingMode? && Handled(f, r, known, w, delivered, sent)
    ensures Handles(f, r, alive, known, w, m, targets, delivered, sent)
    ensures !known && m.to != f.id ==> targets == if m.to in TableOf(r) then [TableOf(r)[m.to].nextHop] else []
  {
    hide WritesMessage, ReadsMessage, AllNamed, SelfNamed, SoundTable, PassesOn;
    var read;
    read, targets, alive :| ReadsMessage(f, w, read) && Handles(f, r, alive, known, w, read, targets, delivered, sent);
    MessageReadsBack(f, w, m, read);
    if !known && m.to != f.id {
      assert Chosen(f, r, alive, w, targets);
      TargetsAreTheModels(f, r, alive, w, m, targets);
    }
  }

  lemma OnwardIsWritten(f: Fabric, w: Wire, m: Message, after: Wire)
    requires SelfNamed(f) && SoundTable(f.names) && Written(f.names, w, m) && PassesOn(f, w, after)
    ensures Written(f.names, after, Onward(f.id, m)) && after.payload == w.payload
  {
    hide WritesMessage;
    PassesOnWrites(f, w, after, m);
  }

  lemma HandlingIs(f: Fabric, r: Discovery.Routing, w: Wire, m: Message, known: bool, delivered: bool, sent: Sends)
    requires SelfNamed(f) && SoundTable(f.names) && Written(f.names, w, m)
    requires !r.FloodingMode? && Handled(f, r, known, w, delivered, sent)
    ensures delivered <==> !known && m.to == f.id && w.payload.UserText?
    ensures sent != [] <==> !known && m.to != f.id && m.to in TableOf(r) && m.ttl > 1
    ensures sent != [] ==>
      && |sent| == 1 && sent[0].0 == TableOf(r)[m.to].nextHop && sent[0].1.payload == w.payload
      && Written(f.names, sent[0].1, Onward(f.id, m))
  {
    var targets, alive := HandledAsWritten(f, r, w, m, known, delivered, sent);
    hide Written, SelfNamed, SoundTable, PassesOn, Handled, Chosen, TableOf;
    if !known && m.to != f.id && m.to in TableOf(r) && m.ttl > 1 {
      var after :| PassesOn(f, w, after) && sent == LinkStateNode.ToEach(targets, after);
      OnwardIsWritten(f, w, m, after);
    }
  }

  /** A node with a table does with a packet what `Travel` does with the message:
      one copy to the next hop that its table lists, if it has not seen the id, is not
      the destination, and a link and budget are left; the text is left alone. */
  lemma HandlingIsTravelling(f: Fabric, r: Discovery.Routing, g: Graph, tables: Tables, w: Wire, m: Message,
                             seen: set<Id>, spent: real, delivered: bool, sent: Sends)
    requires SelfNamed(f) && SoundTable(f.names) && Written(f.names, w, m)
    requires f.id in tables && !r.FloodingMode? && TableOf(r) == tables[f.id]
    requires Handled(f, r, f.id in seen, w, delivered, sent)
    ensures delivered <==> f.id !in seen && m.to == f.id && w.payload.UserText?
    ensures delivered ==> Travel(g, tables, f.id, m, seen, spent) == Arrived(m, spent)
    ensures sent != [] <==> f.id !in seen && m.to != f.id && m.to in tables[f.id] && m.ttl > 1
    ensures sent != [] ==>
      var next := tables[f.id][m.to].nextHop;
      && |sent| == 1 && sent[0].0 == next && sent[0].1.payload == w.payload
      && Written(f.names, sent[0].1, Onward(f.id, m))
      && Travel(g, tables, f.id, m, seen, spent) ==
         Travel(g, tables, next, Onward(f.id, m), seen + {f.id}, spent + if HasLink(g, f.id, next) then g[f.id][next] else 0.0)
    ensures sent == [] && !delivered && w.payload.UserText? ==> Travel(g, tables, f.id, m, seen, spent).Stopped?
  {
    hide Written, SelfNamed, SoundTable, Handled, TableOf, Travel;
    HandlingIs(f, r, w, m, f.id in seen, delivered, sent);
    TravelSteps(g, tables, f.id, m, seen, spent);
  }

  /** One step of `Travel`. */
  lemma TravelSteps(g: Graph, tables: Tables, at: Id, m: Message, seen: set<Id>, spent: real)
    requires at in tables
    ensures var o := Travel(g, tables, at, m, seen, spent);
      if at in seen then o.Stopped?
      else if m.to == at then o == Arrived(m, spent)
      else if m.to !in tables[at] || m.ttl <= 1 then o.Stopped?
      else
        var next := tables[at][m.to].nextHop;
        o == Travel(g, tables, next, Onward(at, m), seen + {at}, spent + if HasLink(g, at, next) then g[at][next] else 0.0)
  {
  }

  /** What `Send` puts on a link: one copy of the fresh message, to the next hop. */
  lemma OriginatingIsSending(f: Fabric, r: Discovery.Routing, table: Table, to: Id, msgId: string, text: string, w: Wire, sent: Sends)
    requires SelfNamed(f) && SoundTable(f.names) && Nameable(f.names, to)
    requires !r.FloodingMode? && TableOf(r) == table && Originates(f, r, to, msgId, text, w, sent)
    ensures Written(f.names, w, Fresh(msgId, f.id, to)) && w.payload == UserText(text)
    ensures sent == if to in table then [(table[to].nextHop, w)] else []
  {
    var targets, alive :| Chosen(f, r, alive, w, targets) && sent == LinkStateNode.ToEach(targets, w);
    StartWrites(f, to, msgId, text, w);
    TargetsAreTheModels(f, r, alive, w, Fresh(msgId, f.id, to), targets);
  }

  // ------------------------------------------------------------- journeys

  ghost function Visited(u: Id, path: seq<Id>): set<Id> {
    {u} + Elements(path)
  }

  /** `Send` at `u` put `wires[0]` on the link to `path[0]`, and each node of `path`
      that handled its packet put the next one on the link to the next. */
  ghost predicate Journey(fs: map<Id, Fabric>, rs: map<Id, Discovery.Routing>, u: Id, d: Id, msgId: string, text: string,
                          path: seq<Id>, wires: seq<Wire>) {
    && |path| == |wires| > 0 && u in fs && u in rs
    && Originates(fs[u], rs[u], d, msgId, text, wires[0], [(path[0], wires[0])])
    && forall i :: 0 < i < |path| ==> Passed(fs, rs, u, path, wires, i)
  }

  ghost predicate Passed(fs: map<Id, Fabric>, rs: map<Id, Discovery.Routing>, u: Id, path: seq<Id>, wires: seq<Wire>, i: nat)
    requires 0 < i < |path| == |wires|
  {
    var v := path[i - 1];
    v in fs && v in rs && Handled(fs[v], rs[v], v in Visited(u, path[..i - 1]), wires[i - 1], false, [(path[i], wires[i])])
  }

  /** The message as it is after the nodes of `path` but the last have passed it on. */
  function AlongBy(msgId: string, u: Id, d: Id, path: seq<Id>): Message
    requires path != []
  {
    Message(msgId, u, d, DEFAULT_TTL - (|path| - 1), if |path| == 1 then u else path[|path| - 2], [u] + path[..|path| - 1])
  }

  lemma JourneyBefore(fs: map<Id, Fabric>, rs: map<Id, Discovery.Routing>, u: Id, d: Id, msgId: string, text: string,
                      path: seq<Id>, wires: seq<Wire>)
    requires Journey(fs, rs, u, d, msgId, text, path, wires) && |path| > 1
    ensures Journey(fs, rs, u, d, msgId, text, path[..|path| - 1], wires[..|path| - 1])
    ensures Passed(fs, rs, u, path, wires, |path| - 1)
  {
    hide Handled, Originates;
    var p, w := path[..|path| - 1], wires[..|path| - 1];
    forall i | 0 < i < |p| ensures Passed(fs, rs, u, p, w, i) {
      assert Passed(fs, rs, u, path, wires, i);
      assert p[..i - 1] == path[..i - 1];
    }
  }

  /** What `JourneyIsForwarding` says of the last packet. */
  ghost predicate Underway(names: Addresses, tables: Tables, u: Id, d: Id, msgId: string, text: string, path: seq<Id>, w: Wire)
    requires path != []
  {
    var k, m := |path| - 1, AlongBy(msgId, u, d, path);
    && m.ttl >= 1 && Written(names, w, m) && w.payload == UserText(text)
    && Forwarded(tables, u, d, msgId) == Travel(map[], tables, path[k], m, Visited(u, path[..k]), 0.0)
  }

  lemma OneHopOn(f: Fabric, r: Discovery.Routing, tables: Tables, u: Id, d: Id, msgId: string, text: string, path: seq<Id>, w: Wire,
                 next: Id, w': Wire)
    requires path != [] && path[|path| - 1] == f.id && SelfNamed(f) && SoundTable(f.names)
    requires f.id in tables && !r.FloodingMode? && TableOf(r) == tables[f.id]
    requires Underway(f.names, tables, u, d, msgId, text, path, w)
    requires Handled(f, r, f.id in Visited(u, path[..|path| - 1]), w, false, [(next, w')])
    ensures Underway(f.names, tables, u, d, msgId, text, path + [next], w')
  {
    hide Handled, Travel, Written, Forwarded, SelfNamed, SoundTable, TableOf;
    var k, all := |path| - 1, path + [next];
    var m := AlongBy(msgId, u, d, path);
    HandlingIsTravelling(f, r, map[], tables, w, m, Visited(u, path[..k]), 0.0, false, [(next, w')]);
    assert all[..k + 1] == path == path[..k] + [f.id];
    assert Visited(u, path) == Visited(u, path[..k]) + {f.id};
    assert [u] + path == [u] + path[..k] + [f.id];
    assert Onward(f.id, m) == AlongBy(msgId, u, d, all);
  }

  /** Wherever the packet is, it still carries the text, and what is to come of it is
      what `Forwarded` says of the message. */
  lemma {:induction false} JourneyIsForwarding(fs: map<Id, Fabric>, rs: map<Id, Discovery.Routing>, tables: Tables, u: Id, d: Id,
                                               msgId: string, text: string, path: seq<Id>, wires: seq<Wire>)
    requires Deployment(fs, rs, tables) && Journey(fs, rs, u, d, msgId, text, path, wires)
    requires u != d && Nameable(fs[u].names, d)
    ensures Underway(fs[u].names, tables, u, d, msgId, text, path, wires[|path| - 1])
    decreases |path|
  {
    hide Handled, Originates, Travel, Written, SelfNamed, SoundTable, TableOf;
    var k := |path| - 1;
    if k == 0 {
      OriginatingIsSending(fs[u], rs[u], tables[u], d, msgId, text, wires[0], [(path[0], wires[0])]);
      assert Visited(u, path[..0]) == {u};
      assert AlongBy(msgId, u, d, path) == Fresh(msgId, u, d);
    } else {
      JourneyBefore(fs, rs, u, d, msgId, text, path, wires);
      JourneyIsForwarding(fs, rs, tables, u, d, msgId, text, path[..k], wires[..k]);
      hide Underway, Journey;
      var v := path[k - 1];
      assert path[..k][..k - 1] == path[..k - 1] && path == path[..k] + [path[k]];
      OneHopOn(fs[v], rs[v], tables, u, d, msgId, text, path[..k], wires[k - 1], path[k], wires[k]);
    }
  }

  /** The last node sends the packet no further; whether it hands it to the user. */
  ghost predicate Ended(fs: map<Id, Fabric>, rs: map<Id, Discovery.Routing>, u: Id, path: seq<Id>, wires: seq<Wire>, delivered: bool) {
    && |path| == |wires| > 0
    && var k, v := |path| - 1, path[|path| - 1];
       v in fs && v in rs && Handled(fs[v], rs[v], v in Visited(u, path[..k]), wires[k], delivered, [])
  }

  /** The packet is at `d`, with its text, from `u`, and lists the nodes it has passed. */
  ghost predicate ReadAt(names: Addresses, u: Id, d: Id, msgId: string, text: string, path: seq<Id>, wires: seq<Wire>) {
    && |path| == |wires| > 0 && path[|path| - 1] == d
    && var k := |path| - 1;
       wires[k].payload == UserText(text)
       && WritesMessage(names, wires[k], Message(msgId, u, d, DEFAULT_TTL - k, if k == 0 then u else path[k - 1], [u] + path[..k]))
  }

  /** A journey takes at most sixteen hops; and where it ends the text is handed to the
      user if and only if the network models say that the message arrives: then it
      ends at its destination, with the nodes passed as its trace. */
  lemma JourneyEnds(fs: map<Id, Fabric>, rs: map<Id, Discovery.Routing>, tables: Tables, u: Id, d: Id,
                    msgId: string, text: string, path: seq<Id>, wires: seq<Wire>, delivered: bool)
    requires Deployment(fs, rs, tables) && Journey(fs, rs, u, d, msgId, text, path, wires)
    requires u != d && Nameable(fs[u].names, d)
    ensures |path| <= DEFAULT_TTL
    ensures Ended(fs, rs, u, path, wires, delivered) ==>
      && (delivered <==> Forwarded(tables, u, d, msgId).Arrived?)
      && (delivered ==> ReadAt(fs[u].names, u, d, msgId, text, path, wires))
  {
    hide Handled, Originates, Travel, Passed, Forwarded, SelfNamed, SoundTable, TableOf;
    JourneyIsForwarding(fs, rs, tables, u, d, msgId, text, path, wires);
    var k, v := |path| - 1, path[|path| - 1];
    var m := AlongBy(msgId, u, d, path);
    if Ended(fs, rs, u, path, wires, delivered) {
      HandlingIsTravelling(fs[v], rs[v], map[], tables, wires[k], m, Visited(u, path[..k]), 0.0, delivered, []);
    }
  }

  /** The nodes of a link-state network, as routing planes. */
  ghost function Planes(net: LinkStateFlood.Net): map<Id, Discovery.Routing> {
    map v | v in net.nodes :: Discovery.LinkStateMode(net.nodes[v])
  }

  /** In a settled network without much drift every text that a user sends to another
      node is handed to the user there, wherever its journey goes. */
  lemma TextsArrive(live: FloodCore.LiveGraph, start: EndToEnd.Net, events: seq<LinkStateFlood.Event>, fs: map<Id, Fabric>, u: Id, d: Id,
                    msgId: string, text: string, path: seq<Id>, wires: seq<Wire>, delivered: bool)
    requires Settles(live, start, events) && u in live && d in live && u != d
    requires forall o :: Mild(SaidMap(Through(live, start, events)), OwnMap(Through(live, start, events)), o)
    requires var net := Through(live, start, events);
      && Deployment(fs, Planes(net), Published(net)) && u in fs && Nameable(fs[u].names, d)
      && Journey(fs, Planes(net), u, d, msgId, text, path, wires)
      && Ended(fs, Planes(net), u, path, wires, delivered)
    ensures delivered && u in fs && ReadAt(fs[u].names, u, d, msgId, text, path, wires)
  {
    hide Through, Settles, Mild, Ended, Journey, ReadAt, Forwarded, Deployment, SaidMap, OwnMap, Published, Planes, Nameable;
    var net := Through(live, start, events);
    MessagesSurviveMildDrift(live, start, events, u, d, msgId);
    JourneyEnds(fs, Planes(net), Published(net), u, d, msgId, text, path, wires, delivered);
  }

  // -------------------------------------------- every journey can be made

  /** Every packet is handled in some way. */
  lemma HandlerAnswers(f: Fabric, r: Discovery.Routing, known: bool, w: Wire) returns (delivered: bool, sent: Sends)
    requires !r.FloodingMode?
    ensures Handled(f, r, known, w, delivered, sent)
  {
    hide ReadsMessage, PassesOn, Resolves;
    var to := SomeName(f, w.to);
    var via := SomeName(f, PreviousHop(w));
    var m := SomeMessage(f, w, to, via);
    var targets := NextHops(TableOf(r), to);
    assert Chosen(f, r, {}, w, targets);
    delivered, sent := false, [];
    var action := React(f.id, known, m, targets != []);
    if action.Delivered? {
      delivered := w.payload.UserText?;
    } else if action.Relayed? {
      var after := SomePassedOn(f, w);
      sent := LinkStateNode.ToEach(targets, after);
    }
    assert Handles(f, r, {}, known, w, m, targets, delivered, sent);
  }

  lemma SomePassedOn(f: Fabric, w: Wire) returns (after: Wire)
    ensures PassesOn(f, w, after)
  {
    var trace, via := List(TraceOf(w.headers) + [f.selfAddr], ""), Text(f.selfAddr);
    var h := WithHeader(w.headers, TRACE, trace);
    after := w.(ttl := w.ttl - 1, headers := WithHeader(h, VIA, via));
    forall key ensures HeaderOf(after.headers, key) ==
                       if key == VIA then Some(via) else if key == TRACE then Some(trace) else HeaderOf(w.headers, key) {
      HeaderAfterSet(w.headers, TRACE, trace, key);
      HeaderAfterSet(h, VIA, via, key);
    }
  }

  lemma SomeStart(f: Fabric, to: Id, msgId: string, text: string) returns (w: Wire)
    ensures Starts(f, to, msgId, text, w)
  {
    var trace, via := List([f.selfAddr], ""), Text(f.selfAddr);
    var h: Headers := [map[MSG_ID := Text(msgId)]];
    assert HeaderOf(h[1..], TRACE) == None;
    var h' := WithHeader(h, TRACE, trace);
    w := Wire(f.selfAddr, Address(f, to), DEFAULT_TTL, WithHeader(h', VIA, via), UserText(text));
    forall key ensures HeaderOf(w.headers, key) ==
                       if key == VIA then Some(via) else if key == TRACE then Some(trace) else HeaderOf(h, key) {
      HeaderAfterSet(h, TRACE, trace, key);
      HeaderAfterSet(h', VIA, via, key);
    }
  }

  lemma SetsOut(f: Fabric, r: Discovery.Routing, d: Id, msgId: string, text: string) returns (w: Wire)
    requires SelfNamed(f) && SoundTable(f.names) && Nameable(f.names, d)
    requires !r.FloodingMode? && d in TableOf(r)
    ensures Originates(f, r, d, msgId, text, w, [(TableOf(r)[d].nextHop, w)])
  {
    w := SomeStart(f, d, msgId, text);
    var read := SomeName(f, w.to);
    AddressRoundTrip(f, f, d, read);
    var targets := NextHops(TableOf(r), d);
    assert Chosen(f, r, {}, w, targets);
    assert [(TableOf(r)[d].nextHop, w)] == LinkStateNode.ToEach(targets, w);
  }

  lemma OnePassesOn(fs: map<Id, Fabric>, rs: map<Id, Discovery.Routing>, u: Id, d: Id, msgId: string, text: string,
                    path: seq<Id>, wires: seq<Wire>, next: Id, w: Wire)
    requires Journey(fs, rs, u, d, msgId, text, path, wires)
    requires var k, v := |path| - 1, path[|path| - 1];
      v in fs && v in rs && Handled(fs[v], rs[v], v in Visited(u, path[..k]), wires[k], false, [(next, w)])
    ensures Journey(fs, rs, u, d, msgId, text, path + [next], wires + [w])
  {
    hide Handled, Originates;
    var p, ws := path + [next], wires + [w];
    forall i | 0 < i < |p| ensures Passed(fs, rs, u, p, ws, i) {
      assert p[..i - 1] == path[..i - 1];
      if i < |path| { assert Passed(fs, rs, u, path, wires, i); }
    }
  }

  /** A journey on which the message is to arrive can be carried through. */
  lemma {:induction false} CarriedThrough(fs: map<Id, Fabric>, rs: map<Id, Discovery.Routing>, tables: Tables, u: Id, d: Id,
                                          msgId: string, text: string, path: seq<Id>, wires: seq<Wire>)
    returns (path': seq<Id>, wires': seq<Wire>)
    requires Deployment(fs, rs, tables) && Journey(fs, rs, u, d, msgId, text, path, wires)
    requires u != d && d in fs && Nameable(fs[u].names, d) && Forwarded(tables, u, d, msgId).Arrived?
    ensures Journey(fs, rs, u, d, msgId, text, path', wires') && Ended(fs, rs, u, path', wires', true)
    decreases 17 - |path|
  {
    hide Handled, Journey, Originates, Passed, Forwarded, SelfNamed, SoundTable, Nameable, Written, TableOf;
    JourneyEnds(fs, rs, tables, u, d, msgId, text, path, wires, false);
    JourneyIsForwarding(fs, rs, tables, u, d, msgId, text, path, wires);
    JourneyShape(fs, rs, u, d, msgId, text, path, wires);
    var k, v := |path| - 1, path[|path| - 1];
    var m := AlongBy(msgId, u, d, path);
    assert v in fs && fs[v].names == fs[u].names && Written(fs[u].names, wires[k], m);
    var delivered, sent := HandlerAnswers(fs[v], rs[v], v in Visited(u, path[..k]), wires[k]);
    HandlingIsTravelling(fs[v], rs[v], map[], tables, wires[k], m, Visited(u, path[..k]), 0.0, delivered, sent);
    hide Travel;
    if sent == [] {
      JourneyEnds(fs, rs, tables, u, d, msgId, text, path, wires, delivered);
      path', wires' := path, wires;
    } else {
      assert sent == [(sent[0].0, sent[0].1)];
      OnePassesOn(fs, rs, u, d, msgId, text, path, wires, sent[0].0, sent[0].1);
      path', wires' := CarriedThrough(fs, rs, tables, u, d, msgId, text, path + [sent[0].0], wires + [sent[0].1]);
    }
  }

  lemma JourneyShape(fs: map<Id, Fabric>, rs: map<Id, Discovery.Routing>, u: Id, d: Id, msgId: string, text: string,
                     path: seq<Id>, wires: seq<Wire>)
    requires Journey(fs, rs, u, d, msgId, text, path, wires)
    ensures |path| == |wires| > 0 && u in fs && u in rs
  {
  }

  /** From text to text: `Send` at `u` can lead to the text being handed to the user at
      `d` if and only if the network models say that the message arrives. */
  lemma TextArrivesIff(fs: map<Id, Fabric>, rs: map<Id, Discovery.Routing>, tables: Tables, u: Id, d: Id, msgId: string, text: string)
    requires Deployment(fs, rs, tables) && u in fs && d in fs && u != d
    ensures Forwarded(tables, u, d, msgId).Arrived? <==>
      exists path, wires :: Journey(fs, rs, u, d, msgId, text, path, wires) && Ended(fs, rs, u, path, wires, true)
  {
    hide Journey, Ended, Originates, TableOf;
    assert Nameable(fs[u].names, d) by { assert SelfNamed(fs[d]); }
    hide SelfNamed, SoundTable, Nameable;
    if Forwarded(tables, u, d, msgId).Arrived? {
      var w := SetsOut(fs[u], rs[u], d, msgId, text);
      FirstLeg(fs, rs, u, d, msgId, text, w, tables[u][d].nextHop);
      var path, wires := CarriedThrough(fs, rs, tables, u, d, msgId, text, [tables[u][d].nextHop], [w]);
    }
    forall path, wires | Journey(fs, rs, u, d, msgId, text, path, wires) && Ended(fs, rs, u, path, wires, true)
      ensures Forwarded(tables, u, d, msgId).Arrived?
    {
      JourneyEnds(fs, rs, tables, u, d, msgId, text, path, wires, true);
    }
  }

  lemma FirstLeg(fs: map<Id, Fabric>, rs: map<Id, Discovery.Routing>, u: Id, d: Id, msgId: string, text: string, w: Wire, next: Id)
    requires u in fs && u in rs && Originates(fs[u], rs[u], d, msgId, text, w, [(next, w)])
    ensures Journey(fs, rs, u, d, msgId, text, [next], [w])
  {
  }

  // -------------------------------------------------------- flooding mode

  lemma ToEachOf(targets: seq<Id>, w: Wire, ids: set<Id>, m: Message)
    requires Elements(targets) == ids
    ensures var sent := LinkStateNode.ToEach(targets, w);
      (set i | 0 <= i < |sent| :: sent[i].0) == (set c | c in MessageFlood.CopiesTo(ids, m) :: c.to)
  {
    var sent := LinkStateNode.ToEach(targets, w);
    var to, copies := set i | 0 <= i < |sent| :: sent[i].0, MessageFlood.CopiesTo(ids, m);
    forall t | t in ids ensures t in to && t in (set c | c in copies :: c.to) {
      assert t in Elements(targets);
      var i :| 0 <= i < |targets| && targets[i] == t;
      assert sent[i].0 == t && MessageFlood.Envelope(t, m) in copies;
    }
    forall i | 0 <= i < |sent| ensures sent[i].0 in ids { assert targets[i] in Elements(targets); }
  }

  /** In flooding mode a node puts on its links just the copies of the network model, with
      the text as it came, and hands the text to the user just when the model does. */
  lemma FloodedAsModelled(f: Fabric, costs: Links, live: FloodCore.LiveGraph, known: bool, w: Wire, m: Message, read: Message,
                          targets: seq<Id>, delivered: bool, sent: Sends)
    requires SelfNamed(f) && SoundTable(f.names) && Written(f.names, w, m) && f.id in live && ReadsMessage(f, w, read)
    requires Handles(f, Discovery.FloodingMode(costs), live[f.id], known, w, read, targets, delivered, sent)
    ensures var e := MessageFlood.Envelope(f.id, m);
      && (delivered <==> MessageFlood.Reaction1(live, known, e).Delivered? && w.payload.UserText?)
      && (set i | 0 <= i < |sent| :: sent[i].0) == (set c | c in MessageFlood.NewCopies(live, known, e) :: c.to)
      && (forall i, j :: 0 <= i < j < |sent| ==> sent[i].0 != sent[j].0)
      && (forall i, c :: 0 <= i < |sent| && c in MessageFlood.NewCopies(live, known, e) ==>
            Written(f.names, sent[i].1, c.msg) && sent[i].1.payload == w.payload)
  {
    hide WritesMessage, ReadsMessage, AllNamed, SelfNamed, SoundTable, PassesOn, Chosen;
    MessageReadsBack(f, w, m, read);
    var e := MessageFlood.Envelope(f.id, m);
    if !known && m.to != f.id {
      assert Chosen(f, Discovery.FloodingMode(costs), live[f.id], w, targets);
      TargetsAreTheModels(f, Discovery.FloodingMode(costs), live[f.id], w, m, targets);
      assert forall t :: t in targets <==> t in Elements(targets);
      if targets != [] && m.ttl > 1 {
        assert targets[0] in MessageFlood.Targets(live, f.id, m.via);
        var after :| PassesOn(f, w, after) && sent == LinkStateNode.ToEach(targets, after);
        OnwardIsWritten(f, w, m, after);
        var out := MessageFlood.NewCopies(live, known, e);
        assert out == MessageFlood.CopiesTo(live[f.id] - {m.via}, Onward(f.id, m));
        ToEachOf(targets, after, live[f.id] - {m.via}, Onward(f.id, m));
      }
    }
  }
}
