/** The node: its discovery plane and its forwarding plane over one of the three
    routing algorithms, as an object whose handlers update it in place. */
module Nodes {
  import opened Options
  import opened Ordering
  import opened Graphs
  import opened ShortestPaths
  import opened SeenCaches
  import opened Names
  import opened Packets
  import opened Flooding
  import opened WireFormat
  import opened MessagePlane
  import opened MessageFormat
  import opened Discovery
  import LinkState
  import StaticMode
  import LinkStateNode

  datatype Strategy =
    | ByLinkState(lsr: LinkStateNode.Lsr)
    | ByDijkstra(router: StaticMode.StaticRouter)
    | ByFlooding(flooder: FloodingRouter)

  type Sends = seq<(Id, Wire)>

  /** The copies that flood announcement `p`, if there is one, to the neighbours
      alive then, listed in whatever order. */
  ghost predicate Announces(f: Fabric, alive: set<Id>, p: Option<LinkState.Info>, sent: Sends) {
    if p.None? then sent == []
    else exists live :: Distinct(live) && Elements(live) == alive && LinkStateNode.Floods(f, live, p, sent)
  }

  /** What a link event makes the routing plane announce. */
  ghost function UpNews(self: Id, r: Routing, n: Id, cost: real, msgId: string, now: Time): Option<LinkState.Info> {
    match r
    case LinkStateMode(st) => LinkState.OnLinkUp(self, st, n, cost, msgId, now).1
    case _ => None
  }

  ghost function ReportNews(self: Id, r: Routing, n: Id, cost: Option<real>, msgId: string, now: Time): Option<LinkState.Info> {
    if cost.None? then None else UpNews(self, r, n, cost.value, msgId, now)
  }

  ghost function DownNews(self: Id, r: Routing, n: Id, msgId: string, now: Time): Option<LinkState.Info> {
    match r
    case LinkStateMode(st) => LinkState.OnLinkDown(self, st, n, msgId, now).1
    case _ => None
  }

  /** The targets the algorithm picks: the next hop of the table in force, or every
      live neighbour but the previous hop. */
  ghost predicate Chosen(f: Fabric, r: Routing, alive: set<Id>, w: Wire, targets: seq<Id>) {
    match r
    case FloodingMode(_) =>
      exists via :: Resolves(f, PreviousHop(w), via) && Distinct(targets) && Elements(targets) == alive - {via}
    case _ => exists to :: Resolves(f, w.to, to) && targets == NextHops(TableOf(r), to)
  }

  /** The table in force; in flooding mode there is none. */
  function TableOf(r: Routing): Table {
    match r
    case LinkStateMode(st) => st.table
    case DijkstraMode(_, st) => st.table
    case FloodingMode(_) => map[]
  }

  /** The answer to a hello: it carries the sender's timestamp back. */
  ghost predicate Echoes(f: Fabric, hello: Wire, echo: Wire) {
    && echo.from == f.selfAddr && echo.to == hello.from && echo.payload == Probe
    && HeaderNumber(echo.headers, T0) == HeaderNumber(hello.headers, T0)
    && HeaderOf(echo.headers, VIA) == Some(Text(f.selfAddr))
  }

  /** A hello of `a`, answered by `b`, makes `a` put the link to `b` at half the time from
      the stamp it sent to the arrival of the answer, when it had no cost to go by. */
  lemma RoundTripIsMeasured(a: Fabric, b: Fabric, hello: Wire, echo: Wire, t0: real, clock: real,
                            p: Plane, from: Id, msgId: string, now: Time)
    requires a.names == b.names && SoundTable(a.names) && SelfNamed(a) && SelfNamed(b) && a.id != b.id && b.id != ""
    requires HeaderNumber(hello.headers, T0) == Some(t0) && Echoes(b, hello, echo) && Resolves(a, echo.from, from)
    requires b.id !in Alive(p.neighbors) && 1000.0 * (clock - t0) >= 2.0 * MIN_COST
    ensures from == b.id && echo.to == hello.from
    ensures var r := Next(a.id, p, Step(Echo(from, HeaderNumber(echo.headers, T0), clock), msgId, now));
      b.id in Alive(r.neighbors) && 1000.0 * t0 + 2.0 * r.neighbors[b.id].cost == 1000.0 * clock
  {
    hide SoundTable;
    AddressRoundTrip(b, a, b.id, from);
    hide SelfNamed, Resolves;
    EchoedCost(a.id, p, Step(Echo(from, HeaderNumber(echo.headers, T0), clock), msgId, now));
  }

  /** The copies by which a node passes on an announcement it read as `p`: some
      exactly when its algorithm takes it for news. */
  ghost predicate PassesAnnouncement(f: Fabric, r: Routing, alive: set<Id>, w: Wire, p: LinkState.Info, now: Time, sent: Sends) {
    if r.LinkStateMode? && LinkState.HandleInfo(f.id, r.st, p, now).1
    then exists live :: Distinct(live) && Elements(live) == alive && sent == LinkStateNode.Copies(f, live, w, p.via)
    else sent == []
  }

  /** The copies that announce the loss of each of `downs` in turn. */
  ghost predicate Withdrawals(f: Fabric, r: Routing, alive: set<Id>, downs: seq<(Id, string)>, now: Time, sent: Sends) {
    if downs == [] then sent == []
    else
      var init, last := downs[..|downs| - 1], downs[|downs| - 1];
      exists k :: 0 <= k <= |sent| && Withdrawals(f, r, alive, init, now, sent[..k])
        && Announces(f, alive, DownNews(f.id, LinksDown(f.id, r, init, now), last.0, last.1, now), sent[k..])
  }

  lemma NoneLost(f: Fabric, r: Routing, alive: set<Id>, now: Time)
    ensures Withdrawals(f, r, alive, [], now, [])
  {
  }

  /** One more loss is withdrawn. */
  lemma OneMoreLost(f: Fabric, r: Routing, alive: set<Id>, downs: seq<(Id, string)>, now: Time, sent: Sends, down: (Id, string), more: Sends)
    requires Withdrawals(f, r, alive, downs, now, sent)
    requires Announces(f, alive, DownNews(f.id, LinksDown(f.id, r, downs, now), down.0, down.1, now), more)
    ensures Withdrawals(f, r, alive, downs + [down], now, sent + more)
    ensures LinksDown(f.id, r, downs + [down], now) == LinkDown(f.id, LinksDown(f.id, r, downs, now), down.0, down.1, now)
    ensures Firsts(downs + [down]) == Firsts(downs) + [down.0]
  {
    hide Announces, LinkDown, DownNews;
    var all := downs + [down];
    assert all[..|all| - 1] == downs && (sent + more)[..|sent|] == sent && (sent + more)[|sent|..] == more;
  }

  /** What a node does with packet `w`, read as `m`: what `React` says. */
  ghost predicate Handles(f: Fabric, r: Routing, alive: set<Id>, known: bool, w: Wire, m: Message, targets: seq<Id>,
                          delivered: bool, sent: Sends) {
    match React(f.id, known, m, targets != [])
    case Duplicate => !delivered && sent == []
    case Delivered => delivered == w.payload.UserText? && sent == []
    case Relayed(copy) =>
      && !delivered && Chosen(f, r, alive, w, targets)
      && exists after :: PassesOn(f, w, after) && sent == LinkStateNode.ToEach(targets, after)
    case _ => !delivered && sent == [] && Chosen(f, r, alive, w, targets)
  }

  function NextHops(table: Table, to: Id): seq<Id> {
    if to in table then [table[to].nextHop] else []
  }

  /** With one shared sound name table the packets a node puts on its links are the
      copies of the network models: in flooding mode one of `PassedOn` to every
      live neighbour but the previous hop, and otherwise one to the next hop of
      the table, if it lists the destination. */
  lemma TargetsAreTheModels(f: Fabric, r: Routing, alive: set<Id>, w: Wire, m: Message, targets: seq<Id>)
    requires SelfNamed(f) && SoundTable(f.names) && AllNamed(f.names, m) && WritesMessage(f.names, w, m)
    requires Chosen(f, r, alive, w, targets)
    ensures r.FloodingMode? ==> Distinct(targets) && Elements(targets) == alive - {m.via}
    ensures !r.FloodingMode? && m.to in TableOf(r) ==> targets == [TableOf(r)[m.to].nextHop]
    ensures !r.FloodingMode? && m.to !in TableOf(r) ==> targets == []
  {
    match r
    case FloodingMode(_) =>
      var via :| Resolves(f, PreviousHop(w), via) && Distinct(targets) && Elements(targets) == alive - {via};
      NameReadsBack(f, m.via, via);
    case _ =>
      var to :| Resolves(f, w.to, to) && targets == NextHops(TableOf(r), to);
      NameReadsBack(f, m.to, to);
  }

  class Node {
    const fabric: Fabric
    const strategy: Strategy
    const seen: SeenCache
    var neighbors: Neighbors

    /** The objects of the routing plane. */
    ghost function Parts(): set<object> {
      match strategy
      case ByLinkState(l) => {l, l.seen, l.tables}
      case ByDijkstra(r) => {r, r.tables}
      case ByFlooding(b) => {b}
    }

    ghost predicate Valid()
      reads this, seen, Parts()
    {
      && seen !in Parts() && this !in Parts() && seen.ttl == MESSAGE_SEEN_TTL
      && match strategy
         case ByLinkState(l) => l.fabric == fabric && l.Valid()
         case ByDijkstra(r) => r.self == fabric.id
         case ByFlooding(_) => true
    }

    ghost function Routing(): Routing
      reads Parts()
    {
      match strategy
      case ByLinkState(l) => LinkStateMode(l.State())
      case ByDijkstra(r) => DijkstraMode(r.base, r.Current())
      case ByFlooding(b) => FloodingMode(b.costs)
    }

    ghost function State(): Plane
      reads this, Parts()
    {
      Plane(neighbors, Routing())
    }

    /** The part of `New` that sets up the planes; `strategy` is freshly built. */
    constructor (f: Fabric, configured: Links, strategy: Strategy)
      requires match strategy
        case ByLinkState(l) => l.fabric == f && l.Valid() && l.links == map[]
        case ByDijkstra(r) => r.self == f.id && r.down == {}
        case ByFlooding(b) => b.costs == map[]
      ensures Valid() && Discovery.Fresh(State()) && fabric == f && this.strategy == strategy
      ensures neighbors == map n | n in configured :: Neighbor(false, configured[n], None)
    {
      fabric, this.strategy := f, strategy;
      seen := new SeenCache(MESSAGE_SEEN_TTL);
      neighbors := map n | n in configured :: Neighbor(false, configured[n], None);
    }

    // -------------------------------------------------------- discovery

    /** `Neighbors`: those currently answering, in no particular order. */
    method LiveNeighbors() returns (live: seq<Id>)
      ensures Distinct(live) && Elements(live) == Alive(neighbors)
    {
      live := [];
      var left := neighbors.Keys;
      while left != {}
        invariant left <= neighbors.Keys && Distinct(live)
        invariant forall x :: x in live <==> x in Alive(neighbors) && x !in left
      {
        var id :| id in left;
        left := left - {id};
        if neighbors[id].alive { live := live + [id]; }
      }
    }

    method ReportUp(neighbor: Id, cost: real, msgId: string, now: Time) returns (sent: Sends)
      requires Valid()
      modifies Parts()
      ensures Valid()
      ensures Routing() == LinkUp(fabric.id, old(Routing()), neighbor, cost, msgId, now)
      ensures Announces(fabric, Alive(neighbors), UpNews(fabric.id, old(Routing()), neighbor, cost, msgId, now), sent)
    {
      var live := LiveNeighbors();
      sent := [];
      match strategy
      case ByLinkState(l) => sent := l.OnLinkUp(neighbor, cost, msgId, live, now);
      case ByDijkstra(r) => r.OnLinkUp(neighbor);
      case ByFlooding(b) => b.OnLinkUp(neighbor, cost);
    }

    method ReportDown(neighbor: Id, msgId: string, now: Time) returns (sent: Sends)
      requires Valid()
      modifies Parts()
      ensures Valid()
      ensures Routing() == LinkDown(fabric.id, old(Routing()), neighbor, msgId, now)
      ensures Announces(fabric, Alive(neighbors), DownNews(fabric.id, old(Routing()), neighbor, msgId, now), sent)
    {
      var live := LiveNeighbors();
      sent := [];
      match strategy
      case ByLinkState(l) => sent := l.OnLinkDown(neighbor, msgId, live, now);
      case ByDijkstra(r) => r.OnLinkDown(neighbor);
      case ByFlooding(b) => b.OnLinkDown(neighbor);
    }

    method MarkAlive(neighbor: Id, msgId: string, now: Time) returns (sent: Sends)
      requires Valid()
      modifies this`neighbors, Parts()
      ensures Valid()
      ensures var (ns, cost) := Heard(fabric.id, old(neighbors), neighbor, now);
        && neighbors == ns
        && Routing() == Report(fabric.id, old(Routing()), neighbor, cost, msgId, now)
        && Announces(fabric, Alive(neighbors), ReportNews(fabric.id, old(Routing()), neighbor, cost, msgId, now), sent)
    {
      sent := [];
      if neighbor == "" || neighbor == fabric.id { return; }
      if neighbor !in neighbors {
        neighbors := neighbors[neighbor := Neighbor(false, UNKNOWN_COST, None)];
      }
      var wasAlive, cost := neighbors[neighbor].alive, neighbors[neighbor].cost;
      neighbors := neighbors[neighbor := Neighbor(true, cost, Some(now))];
      if !wasAlive { sent := ReportUp(neighbor, cost, msgId, now); }
    }

    method MarkAliveWithCost(neighbor: Id, sample: real, msgId: string, now: Time) returns (sent: Sends)
      requires Valid()
      modifies this`neighbors, Parts()
      ensures Valid()
      ensures var (ns, cost) := Measured(fabric.id, old(neighbors), neighbor, sample, now);
        && neighbors == ns
        && Routing() == Report(fabric.id, old(Routing()), neighbor, cost, msgId, now)
        && Announces(fabric, Alive(neighbors), ReportNews(fabric.id, old(Routing()), neighbor, cost, msgId, now), sent)
    {
      sent := [];
      if neighbor == "" || neighbor == fabric.id { return; }
      if neighbor !in neighbors {
        neighbors := neighbors[neighbor := Neighbor(false, 0.0, None)];
      }
      var cost := sample;
      if neighbors[neighbor].alive && neighbors[neighbor].cost > 0.0 {
        cost := neighbors[neighbor].cost * (1.0 - COST_SMOOTHING) + sample * COST_SMOOTHING;
      }
      neighbors := neighbors[neighbor := Neighbor(true, cost, Some(now))];
      sent := ReportUp(neighbor, cost, msgId, now);
    }

    method HandleHello(pkt: Packet, msgId: string, echoId: string, now: Time)
      returns (announced: Sends, echo: (Id, Wire))
      requires Valid()
      modifies this`neighbors, Parts()
      ensures Valid()
      ensures var from, p := echo.0, old(State());
        && Resolves(fabric, pkt.from, from)
        && State() == Next(fabric.id, p, Step(Hello(from), msgId, now))
        && Announces(fabric, Alive(neighbors),
             ReportNews(fabric.id, p.routing, from, Heard(fabric.id, p.neighbors, from, now).1, msgId, now), announced)
      ensures Echoes(fabric, old(pkt.Value()), echo.1)
    {
      ghost var hello := pkt.Value();
      var from := LocalID(fabric, pkt.from);
      var t0 := pkt.HeaderFloat(T0);
      var reply := EchoPacket(pkt.from, t0, echoId);
      announced := MarkAlive(from, msgId, now);
      echo := (from, reply);
    }

    method EchoPacket(to: string, t0: Option<real>, msgId: string) returns (echo: Wire)
      ensures echo.from == fabric.selfAddr && echo.to == to && echo.payload == Probe
      ensures HeaderNumber(echo.headers, T0) == t0 && HeaderOf(echo.headers, VIA) == Some(Text(fabric.selfAddr))
    {
      var reply := new Packet(Wire(fabric.selfAddr, to, DEFAULT_TTL, [map[MSG_ID := Text(msgId)]], Probe));
      assert HeaderOf(reply.headers[1..], T0) == None;
      if t0.Some? {
        HeaderAfterSet(reply.headers, T0, Number(t0.value, ""), T0);
        reply.SetHeader(T0, Number(t0.value, ""));
      }
      HeaderAfterSet(reply.headers, VIA, Text(fabric.selfAddr), T0);
      HeaderAfterSet(reply.headers, VIA, Text(fabric.selfAddr), VIA);
      reply.SetHeader(VIA, Text(fabric.selfAddr));
      echo := reply.Value();
    }

    /** Closes a round trip; `clock` is the time in seconds. */
    method HandleEcho(pkt: Packet, clock: real, msgId: string, now: Time) returns (announced: Sends, ghost from: Id)
      requires Valid()
      modifies this`neighbors, Parts()
      ensures Valid() && Resolves(fabric, pkt.from, from)
      ensures from != "" && from != fabric.id ==>
        from in neighbors && neighbors[from].alive
        && EchoMeasures(old(neighbors), from, HeaderNumber(old(pkt.headers), T0), clock, neighbors[from].cost)
      ensures var p, sent := old(State()), HeaderNumber(old(pkt.headers), T0);
        && State() == Next(fabric.id, p, Step(Echo(from, sent, clock), msgId, now))
        && Announces(fabric, Alive(neighbors),
             ReportNews(fabric.id, p.routing, from,
                        Measured(fabric.id, p.neighbors, from, EchoCost(sent, clock), now).1, msgId, now), announced)
    {
      hide LinkUp, UpNews, Announces, Resolves;
      var cost := MIN_COST;
      var t0 := pkt.HeaderFloat(T0);
      if t0.Some? {
        var rttSeconds := clock - t0.value;
        cost := rttSeconds * 1000.0 / 2.0;
      }
      if cost < MIN_COST { cost := MIN_COST; }
      var id := LocalID(fabric, pkt.from);
      assert HalfTheTrip(t0, clock, cost);
      announced := MarkAliveWithCost(id, cost, msgId, now);
      from := id;
    }

    /** `HandleInfo` of the algorithm in charge. */
    method GiveInfo(pkt: Packet, now: Time) returns (relayed: Sends, ghost p: LinkState.Info)
      requires Valid()
      modifies Parts()
      ensures Valid() && Reads(fabric, old(pkt.Value()), p)
      ensures Routing() == Internal(fabric.id, old(Routing()), LinkState.Received(p), "", now)
      ensures PassesAnnouncement(fabric, old(Routing()), Alive(neighbors), old(pkt.Value()), p, now, relayed)
    {
      hide Reads, LinkState.HandleInfo, LinkStateNode.Copies;
      relayed := [];
      match strategy
      case ByLinkState(l) =>
        var live := LiveNeighbors();
        relayed, p := l.HandleInfo(pkt, live, now);
      case _ =>
        ghost var via := SomeName(fabric, PreviousHop(pkt.Value()));
        p := SomeReading(fabric, pkt.Value(), via);
    }

    /** `handle` for an announcement: its previous hop is alive, then the algorithm
        gets it. */
    method HandleInfo(pkt: Packet, msgId: string, now: Time)
      returns (announced: Sends, relayed: Sends, ghost via: Id, ghost p: LinkState.Info)
      requires Valid()
      modifies this`neighbors, Parts()
      ensures Valid()
      ensures Resolves(fabric, PreviousHop(old(pkt.Value())), via) && Reads(fabric, old(pkt.Value()), p)
      ensures State() == Next(fabric.id, old(State()), Step(Announcement(via, p), msgId, now))
      ensures var cost := Heard(fabric.id, old(neighbors), via, now).1;
        && Announces(fabric, Alive(neighbors), ReportNews(fabric.id, old(Routing()), via, cost, msgId, now), announced)
        && PassesAnnouncement(fabric, Report(fabric.id, old(Routing()), via, cost, msgId, now),
                              Alive(neighbors), old(pkt.Value()), p, now, relayed)
    {
      assert pkt !in Parts();
      hide Reads, Internal, Report, Announces, ReportNews, PassesAnnouncement, Valid, Routing, Resolves;
      var hop := pkt.HeaderString(VIA);
      if hop == "" { hop := pkt.from; }
      var previous := LocalID(fabric, hop);
      announced := MarkAlive(previous, msgId, now);
      relayed, p := GiveInfo(pkt, now);
      via := previous;
    }

    /** The first half of `reapDead`: marks the overdue as gone and lists them. */
    method MarkDead(now: Time) returns (dead: seq<Id>)
      modifies this`neighbors
      ensures neighbors == Reaped(old(neighbors), now)
      ensures Elements(dead) == Dead(old(neighbors), now)
    {
      dead := [];
      var left := neighbors.Keys;
      while left != {}
        invariant left <= old(neighbors).Keys
        invariant neighbors == map id | id in old(neighbors) ::
          if id !in left && Overdue(old(neighbors)[id], now) then old(neighbors)[id].(alive := false) else old(neighbors)[id]
        invariant forall x :: x in dead <==> x in Dead(old(neighbors), now) && x !in left
      {
        var id :| id in left;
        left := left - {id};
        var n := neighbors[id];
        if n.alive && n.lastSeen.Some? && now - n.lastSeen.value > DEAD_AFTER {
          neighbors := neighbors[id := n.(alive := false)];
          dead := dead + [id];
        }
      }
    }

    /** `reapDead`; `idFor` gives the message id of each withdrawal. */
    method ReapDead(idFor: Id -> string, now: Time) returns (sent: Sends, ghost downs: seq<(Id, string)>)
      requires Valid()
      modifies this`neighbors, Parts()
      ensures Valid()
      ensures Possible(old(State()), Step(Reap(downs), "", now))
      ensures State() == Next(fabric.id, old(State()), Step(Reap(downs), "", now))
      ensures Withdrawals(fabric, old(Routing()), Alive(neighbors), downs, now, sent)
    {
      hide Withdrawals, Announces, LinkDown, DownNews;
      ghost var before := State();
      var dead := MarkDead(now);
      sent, downs := [], [];
      assert Withdrawals(fabric, before.routing, Alive(neighbors), [], now, []) by { NoneLost(fabric, before.routing, Alive(neighbors), now); }
      var i := 0;
      while i < |dead|
        invariant 0 <= i <= |dead| && Firsts(downs) == dead[..i]
        invariant Valid() && neighbors == Reaped(before.neighbors, now)
        invariant Routing() == LinksDown(fabric.id, before.routing, downs, now)
        invariant Withdrawals(fabric, before.routing, Alive(neighbors), downs, now, sent)
      {
        var more := ReportDown(dead[i], idFor(dead[i]), now);
        OneMoreLost(fabric, before.routing, Alive(neighbors), downs, now, sent, (dead[i], idFor(dead[i])), more);
        sent, downs := sent + more, downs + [(dead[i], idFor(dead[i]))];
        i := i + 1;
      }
      assert dead[..i] == dead;
    }

    // ------------------------------------------------------- forwarding

    /** `Forward` of the algorithm in charge: with a table, its next hop for the id
        the packet's destination is read as, if it lists one, and nothing else. */
    method Forward(pkt: Packet) returns (targets: seq<Id>)
      requires Valid()
      ensures Chosen(fabric, Routing(), Alive(neighbors), pkt.Value(), targets)
      ensures !strategy.ByFlooding? ==>
        exists to :: Resolves(fabric, pkt.to, to) &&
          if to in TableOf(Routing()) then targets == [TableOf(Routing())[to].nextHop] else targets == []
    {
      match strategy
      case ByLinkState(l) =>
        var dest := LocalID(fabric, pkt.to);
        var route := l.tables.Lookup(dest);
        targets := if route.Some? then [route.value.nextHop] else [];
      case ByDijkstra(r) =>
        var dest := LocalID(fabric, pkt.to);
        var route := r.tables.Lookup(dest);
        targets := if route.Some? then [route.value.nextHop] else [];
      case ByFlooding(_) =>
        var hop := pkt.HeaderString(VIA);
        if hop == "" { hop := pkt.from; }
        var previousHop := LocalID(fabric, hop);
        var live := LiveNeighbors();
        FloodTargetsDistinct(live, previousHop);
        targets := Flood(live, previousHop);
    }

    /** One clone of `pkt` to each target. */
    method Distribute(pkt: Packet, targets: seq<Id>) returns (sent: Sends)
      ensures sent == LinkStateNode.ToEach(targets, pkt.Value())
    {
      sent := [];
      var i := 0;
      while i < |targets|
        invariant 0 <= i <= |targets|
        invariant sent == LinkStateNode.ToEach(targets, pkt.Value())[..i]
      {
        var copy := pkt.Clone();
        sent := sent + [(targets[i], copy.Value())];
        i := i + 1;
      }
    }

    /** `relay`: an expired packet is only noticed once there is somewhere to send
        it. */
    method Relay(pkt: Packet) returns (sent: Sends, ghost targets: seq<Id>)
      requires Valid()
      modifies pkt
      ensures Chosen(fabric, Routing(), Alive(neighbors), old(pkt.Value()), targets)
      ensures if targets == [] || old(pkt.ttl) - 1 <= 0 then sent == []
              else PassesOn(fabric, old(pkt.Value()), pkt.Value())
                   && sent == LinkStateNode.ToEach(targets, pkt.Value())
    {
      var chosen := Forward(pkt);
      targets, sent := chosen, [];
      if |chosen| == 0 { return; }
      var ok := pkt.DecrementTTL();
      if !ok { return; }
      pkt.AppendTrace(fabric.selfAddr);
      MarkVia(pkt);
      sent := Distribute(pkt, chosen);
    }

    method MarkVia(pkt: Packet)
      modifies pkt`headers
      ensures HeaderOf(pkt.headers, VIA) == Some(Text(fabric.selfAddr))
      ensures forall key :: key != VIA ==> HeaderOf(pkt.headers, key) == HeaderOf(old(pkt.headers), key)
    {
      pkt.SetHeader(VIA, Text(fabric.selfAddr));
      forall key ensures HeaderOf(pkt.headers, key) ==
                         if key == VIA then Some(Text(fabric.selfAddr)) else HeaderOf(old(pkt.headers), key) {
        HeaderAfterSet(old(pkt.headers), VIA, Text(fabric.selfAddr), key);
      }
    }

    /** `handleMessage`: what it does with a packet is what `React` says of the
        message the node reads in it. */
    method HandleMessage(pkt: Packet, now: Time)
      returns (delivered: bool, sent: Sends, ghost m: Message, ghost targets: seq<Id>)
      requires Valid()
      modifies pkt, seen
      ensures Valid() && ReadsMessage(fabric, old(pkt.Value()), m)
      ensures seen.entries == Look(old(seen.entries), m.id, now, MESSAGE_SEEN_TTL).0
      ensures var known := Look(old(seen.entries), m.id, now, MESSAGE_SEEN_TTL).1;
        Handles(fabric, Routing(), Alive(neighbors), known, old(pkt.Value()), m, targets, delivered, sent)
    {
      ghost var w := pkt.Value();
      ghost var via := SomeName(fabric, PreviousHop(w));
      delivered, sent, targets := false, [], [];
      var id := pkt.HeaderString(MSG_ID);
      var to := LocalID(fabric, pkt.to);
      m := SomeMessage(fabric, w, to, via);
      var known := seen.Seen(id, now);
      if known { return; }
      if to == fabric.id {
        delivered := pkt.payload.UserText?;
        return;
      }
      sent, targets := Relay(pkt);
    }

    /** `Send`: the new packet, to every target the algorithm picks for it. */
    method Send(to: Id, text: string, msgId: string, now: Time)
      returns (ok: bool, sent: Sends, ghost w: Wire, ghost targets: seq<Id>)
      requires Valid()
      modifies seen
      ensures Valid()
      ensures to == fabric.id ==> !ok && sent == [] && seen.entries == old(seen.entries)
      ensures to != fabric.id ==>
        && Starts(fabric, to, msgId, text, w)
        && Chosen(fabric, Routing(), Alive(neighbors), w, targets)
        && ok == (targets != []) && sent == LinkStateNode.ToEach(targets, w)
        && seen.entries == Look(old(seen.entries), msgId, now, MESSAGE_SEEN_TTL).0
    {
      ok, sent := false, [];
      w, targets := Wire("", "", 0, [], Unreadable), [];
      if to == fabric.id { return; }
      var pkt := new Packet(Wire(fabric.selfAddr, Address(fabric, to), DEFAULT_TTL,
                                 [map[MSG_ID := Text(msgId)]], UserText(text)));
      assert HeaderOf(pkt.headers[1..], TRACE) == None;
      pkt.AppendTrace(fabric.selfAddr);
      MarkVia(pkt);
      w := pkt.Value();
      var known := seen.Seen(msgId, now);
      var chosen := Forward(pkt);
      targets := chosen;
      if |chosen| == 0 { return; }
      sent := Distribute(pkt, chosen);
      ok := true;
    }
  }
}
