/** The link-state algorithm as the object a node holds: fields updated in place
    by its handlers, each proved against the functions of `LinkState`. */
module LinkStateNode {
  import opened Options
  import opened Ordering
  import opened Graphs
  import opened ShortestPaths
  import opened SafeTables
  import opened SeenCaches
  import opened Names
  import opened Packets
  import opened Flooding
  import opened LinkState
  import opened WireFormat

  /** What `relay` sends: one copy to each target, unless the budget is spent. */
  function Copies(f: Fabric, live: seq<Id>, w: Wire, previousHop: Id): seq<(Id, Wire)> {
    if w.ttl - 1 <= 0 then []
    else ToEach(FloodTargets(live, previousHop), RelayedWire(f, w))
  }

  function ToEach(targets: seq<Id>, w: Wire): (r: seq<(Id, Wire)>)
    ensures |r| == |targets| && forall i :: 0 <= i < |r| ==> r[i] == (targets[i], w)
  {
    seq(|targets|, i requires 0 <= i < |targets| => (targets[i], w))
  }

  /** The copies a node sends are, read as identifiers, the envelopes of the
      protocol: the same packet to each neighbour but the previous hop. */
  lemma CopiesAreEnvelopes(f: Fabric, live: seq<Id>, w: Wire, p: Info)
    requires SelfNamed(f) && SoundTable(f.names) && Writes(f.names, w, p) && Distinct(live)
    ensures var cs := Copies(f, live, w, p.via);
      && (forall i :: 0 <= i < |cs| ==> Writes(f.names, cs[i].1, Relayed(f.id, p)))
      && (set i | 0 <= i < |cs| :: Envelope(cs[i].0, Relayed(f.id, p))) == Relay(f.id, Elements(live), p)
      && (forall i, j :: 0 <= i < j < |cs| ==> cs[i].0 != cs[j].0)
  {
    RelayWrites(f, w, p);
    FloodTargetsDistinct(live, p.via);
    var targets := FloodTargets(live, p.via);
    forall t ensures t in targets <==> t in live && t != p.via {
      assert t in Elements(targets) <==> t in Elements(live) - {p.via};
    }
    if w.ttl - 1 > 0 {
      var cs := Copies(f, live, w, p.via);
      forall e ensures e in (set i | 0 <= i < |cs| :: Envelope(cs[i].0, Relayed(f.id, p)))
                       <==> e in Relay(f.id, Elements(live), p)
      {
        if e in Relay(f.id, Elements(live), p) {
          var i :| 0 <= i < |targets| && targets[i] == e.to;
          assert cs[i].0 == e.to;
        }
      }
    }
  }

  /** `sent` floods the announcement `p`, if there is one: every copy carries the
      links of `p` with their addresses, in some order. */
  ghost predicate Floods(f: Fabric, live: seq<Id>, p: Option<Info>, sent: seq<(Id, Wire)>) {
    match p
    case None => sent == []
    case Some(i) =>
      i.lsp.Some? && exists list ::
        && Elements(list) == AddressedLinks(f, i.lsp.value.links)
        && sent == Copies(f, live, AnnouncedWire(f, i.msgId, i.lsp.value.number, list), f.id)
  }

  ghost function AddressedLinks(f: Fabric, links: Links): set<(string, real)> {
    set n | n in links :: (Address(f, n), links[n])
  }

  class Lsr {
    const fabric: Fabric
    const tables: SafeTable
    const seen: SeenCache
    var links: Links
    var lsdb: Database
    var number: int
    var lastAnnounce: Option<Time>

    ghost predicate Valid()
      reads this, seen, tables
    {
      seen.ttl == SEEN_TTL && Consistent(fabric.id, State())
    }

    ghost function State(): LinkState.State
      reads this, seen, tables
    {
      LinkState.State(links, lsdb, number, lastAnnounce, seen.entries, tables.table)
    }

    constructor (f: Fabric)
      ensures Valid() && State() == INITIAL && fabric == f && fresh(seen) && fresh(tables)
    {
      fabric := f;
      tables := new SafeTable();
      seen := new SeenCache(SEEN_TTL);
      links, lsdb, number, lastAnnounce := map[], map[], 0, None;
      new;
      InitialIsConsistent(f.id);
    }

    /** Adds the links of one announcement to the graph being rebuilt. */
    method AddLinks(g: Adjacency, from: Id, out: Links, ghost listed: seq<Edge>) returns (ghost more: seq<Edge>)
      requires g.links == GraphFrom(listed)
      modifies g
      ensures g.links == GraphFrom(more) && Elements(more) == Elements(listed) + LinkEdges(from, out)
    {
      hide WithEdge, LinkEdges, Elements;
      NoLinks(from);
      more := listed;
      assert out - out.Keys == map[];
      var left := out.Keys;
      while left != {}
        invariant left <= out.Keys
        invariant g.links == GraphFrom(more)
        invariant Elements(more) == Elements(listed) + LinkEdges(from, out - left)
      {
        var n :| n in left;
        var e := Edge(from, n, out[n]);
        g.AddEdge(from, n, out[n]);
        ghost var was := more;
        more := more + [e];
        assert more[..|more| - 1] == was;
        ElementsAppend(was, e);
        OneMoreLink(from, out, left, n);
        left := left - {n};
      }
      assert out - {} == out;
    }

    lemma NoLinks(from: Id)
      ensures LinkEdges(from, map[]) == {}
    {
    }

    lemma OneMoreLink(from: Id, out: Links, left: set<Id>, n: Id)
      requires left <= out.Keys && n in left
      ensures LinkEdges(from, out - (left - {n})) == LinkEdges(from, out - left) + {Edge(from, n, out[n])}
    {
      var a, b := out - (left - {n}), out - left;
      assert a == b[n := out[n]];
      assert forall x :: x in LinkEdges(from, a) ==> x in LinkEdges(from, b) || x == Edge(from, n, out[n]);
      assert n in a && a[n] == out[n];
      assert forall m :: m in b ==> m in a && a[m] == b[m];
    }

    /** `recompute`: rebuild the graph and publish its shortest-path table. */
    method Recompute()
      modifies tables
      ensures tables.table == TableFor(fabric.id, links, lsdb)
    {
      var g := new Adjacency();
      ghost var listed := AddLinks(g, fabric.id, links, []);
      var left := lsdb.Keys;
      while left != {}
        invariant left <= lsdb.Keys && fresh(g)
        invariant g.links == GraphFrom(listed)
        invariant Elements(listed) == LinkEdges(fabric.id, links) + DatabaseEdges(lsdb, lsdb.Keys - left)
      {
        var origin :| origin in left;
        OneMoreOrigin(lsdb, lsdb.Keys - left, origin);
        listed := AddLinks(g, origin, lsdb[origin].links, listed);
        left := left - {origin};
        assert lsdb.Keys - left == lsdb.Keys - (left + {origin}) + {origin};
      }
      assert lsdb.Keys - {} == lsdb.Keys;
      AnyListingBuilds(listed);
      var table := Dijkstra(g.links, fabric.id);
      tables.Replace(table);
    }

    lemma OneMoreOrigin(lsdb: Database, done: set<Id>, origin: Id)
      requires origin in lsdb
      ensures DatabaseEdges(lsdb, done + {origin}) == DatabaseEdges(lsdb, done) + LinkEdges(origin, lsdb[origin].links)
    {
    }

    /** `relay`: clone, mark and send a copy per target, stopping once the hop
        budget is spent; the packet itself is not changed. */
    method RelayPacket(pkt: Packet, live: seq<Id>) returns (sent: seq<(Id, Wire)>, previousHop: Id)
      ensures Resolves(fabric, PreviousHop(pkt.Value()), previousHop)
      ensures sent == Copies(fabric, live, pkt.Value(), previousHop)
    {
      var addr := pkt.HeaderString(VIA);
      if addr == "" { addr := pkt.from; }
      previousHop := LocalID(fabric, addr);
      var targets := Flood(live, previousHop);
      ghost var w := pkt.Value();
      sent := [];
      var i := 0;
      while i < |targets|
        invariant 0 <= i <= |targets|
        invariant w == pkt.Value() && (i > 0 ==> w.ttl - 1 > 0)
        invariant sent == ToEach(targets, RelayedWire(fabric, w))[..i]
      {
        var copy := pkt.Clone();
        copy.SetHeader(VIA, Text(fabric.selfAddr));
        var ok := copy.DecrementTTL();
        if !ok { return; }
        sent := sent + [(targets[i], copy.Value())];
        i := i + 1;
      }
    }

    /** The node's links by address, in whatever order the map is iterated. */
    method AddressList() returns (list: seq<(string, real)>)
      ensures Elements(list) == AddressedLinks(fabric, links)
    {
      list := [];
      var left := links.Keys;
      while left != {}
        invariant left <= links.Keys
        invariant Elements(list) == AddressedLinks(fabric, links - left)
      {
        var n :| n in left;
        ghost var was := list;
        list := list + [(Address(fabric, n), links[n])];
        ElementsAppend(was, (Address(fabric, n), links[n]));
        assert links - (left - {n}) == (links - left)[n := links[n]];
        left := left - {n};
      }
      assert links - {} == links;
    }

    /** `announce`: the new state, and the copies put on the wire. */
    method AnnounceLinks(msgId: string, live: seq<Id>, now: Time) returns (sent: seq<(Id, Wire)>)
      requires seen.ttl == SEEN_TTL
      modifies this`number, this`lastAnnounce, seen
      ensures State() == Announce(fabric.id, old(State()), msgId, now).0
      ensures Floods(fabric, live, Some(Announce(fabric.id, old(State()), msgId, now).1), sent)
    {
      number := number + 1;
      lastAnnounce := Some(now);
      var list := AddressList();
      var pkt := new Packet(AnnouncedWire(fabric, msgId, number, list));
      assert HeaderOf(pkt.headers[1..], VIA) == None;
      var known := seen.Seen(msgId, now);
      var previousHop;
      sent, previousHop := RelayPacket(pkt, live);
    }

    /** Resolves the neighbour list of an announcement; a later entry that
        resolves to the same id overwrites an earlier one. */
    method ReadNeighbors(list: seq<(string, real)>) returns (neighbors: Links, ghost ids: seq<Id>)
      ensures ReadsLinks(fabric, list, ids, neighbors)
    {
      neighbors, ids := map[], [];
      var i := 0;
      while i < |list|
        invariant 0 <= i <= |list| && |ids| == i
        invariant forall k :: 0 <= k < i ==> Resolves(fabric, list[k].0, ids[k])
        invariant neighbors == Collected(ids, list[..i])
      {
        var n := LocalID(fabric, list[i].0);
        assert (ids + [n])[..i] == ids && list[..i + 1][..i] == list[..i];
        neighbors, ids := neighbors[n := list[i].1], ids + [n];
        i := i + 1;
      }
      assert list[..i] == list;
    }

    method StoreLsp(lsp: Lsp, now: Time) returns (accepted: bool, structural: bool)
      modifies this`lsdb
      ensures LinkState.Stored(lsdb, accepted, structural) == Store(old(lsdb), lsp, now)
    {
      if lsp.origin in lsdb {
        var existing := lsdb[lsp.origin];
        if lsp.number <= existing.number && existing.number - lsp.number < SEQ_RESET_GAP {
          if lsp.number == existing.number {
            lsdb := lsdb[lsp.origin := existing.(refreshed := now)];
          }
          return false, false;
        }
        structural := existing.links.Keys != lsp.links.Keys;
      } else {
        structural := true;
      }
      lsdb := lsdb[lsp.origin := Entry(lsp.number, lsp.links, now)];
      accepted := true;
    }

    /** Stores a readable announcement; if it was news, recomputes and relays. */
    method Learn(pkt: Packet, lsp: Lsp, live: seq<Id>, now: Time) returns (sent: seq<(Id, Wire)>, ghost via: Id)
      modifies this`lsdb, tables
      ensures Resolves(fabric, PreviousHop(pkt.Value()), via)
      ensures var r := Store(old(lsdb), lsp, now);
        && lsdb == r.lsdb
        && tables.table == (if r.accepted then TableFor(fabric.id, links, lsdb) else old(tables.table))
        && sent == if r.accepted then Copies(fabric, live, pkt.Value(), via) else []
    {
      hide TableFor, Copies;
      var accepted, structural := StoreLsp(lsp, now);
      if accepted {
        Recompute();
        var previousHop;
        sent, previousHop := RelayPacket(pkt, live);
        via := previousHop;
      } else {
        sent := [];
        via := SomeName(fabric, PreviousHop(pkt.Value()));
      }
    }

    /** Reads a link-state payload as an announcement. */
    method ReadLsp(pkt: Packet) returns (lsp: Option<Lsp>)
      ensures forall via :: Resolves(fabric, PreviousHop(pkt.Value()), via) ==>
        Reads(fabric, pkt.Value(), Info(HeaderText(pkt.headers, MSG_ID), pkt.ttl, via, lsp))
    {
      match pkt.payload
      case LinkStatePayload(l) =>
        var origin := LocalID(fabric, l.origin);
        var neighbors; ghost var ids;
        neighbors, ids := ReadNeighbors(l.neighbors);
        assert ReadsLinks(fabric, l.neighbors, ids, neighbors);
        lsp := Some(Lsp(origin, l.number, neighbors));
      case _ =>
        lsp := None;
    }

    /** `HandleInfo`: `p` is how this node reads the packet. */
    method HandleInfo(pkt: Packet, live: seq<Id>, now: Time) returns (sent: seq<(Id, Wire)>, ghost p: Info)
      requires Valid()
      modifies this`lsdb, seen, tables
      ensures Valid() && Reads(fabric, pkt.Value(), p)
      ensures State() == LinkState.HandleInfo(fabric.id, old(State()), p, now).0
      ensures sent == if LinkState.HandleInfo(fabric.id, old(State()), p, now).1
                      then Copies(fabric, live, pkt.Value(), p.via) else []
    {
      hide TableFor, Copies, Store, Consistent, Reads, Resolves, PreviousHop;
      ghost var before := State();
      sent := [];
      var msgId := pkt.HeaderString(MSG_ID);
      var known := seen.Seen(msgId, now);
      ghost var via := SomeName(fabric, PreviousHop(pkt.Value()));
      if known {
        p := SomeReading(fabric, pkt.Value(), via);
      } else {
        var lsp := ReadLsp(pkt);
        p := Info(msgId, pkt.ttl, via, lsp);
        if lsp.Some? && lsp.value.origin != "" && lsp.value.origin != fabric.id {
          sent, via := Learn(pkt, lsp.value, live, now);
          p := Info(msgId, pkt.ttl, via, lsp);
        }
      }
      ReceivedKeepsConsistent(fabric.id, before, p, now);
    }

    method OnLinkUp(neighbor: Id, cost: real, msgId: string, live: seq<Id>, now: Time)
      returns (sent: seq<(Id, Wire)>)
      requires Valid()
      modifies this`links, this`number, this`lastAnnounce, seen, tables
      ensures Valid()
      ensures State() == LinkState.OnLinkUp(fabric.id, old(State()), neighbor, cost, msgId, now).0
      ensures Floods(fabric, live, LinkState.OnLinkUp(fabric.id, old(State()), neighbor, cost, msgId, now).1, sent)
      ensures number == old(number) +
        if neighbor !in old(links)
           || ((old(lastAnnounce) == None || now - old(lastAnnounce).value > MIN_ANNOUNCE_INTERVAL) && Moved(old(links)[neighbor], cost))
        then 1 else 0
    {
      hide TableFor, Moved;
      if neighbor in links { ChangeIsMove(links[neighbor], cost); }
      hide RelativeChange;
      ghost var before := State();
      var newNeighbor := neighbor !in links;
      var costMoved := !newNeighbor
        && RelativeChange(links[neighbor], cost) > COST_CHANGE_THRESHOLD
        && (lastAnnounce.None? || now - lastAnnounce.value > MIN_ANNOUNCE_INTERVAL);
      links := links[neighbor := cost];
      sent := [];
      if newNeighbor || costMoved {
        sent := AnnounceLinks(msgId, live, now);
      }
      Recompute();
      HandleKeepsConsistent(fabric.id, before, Event(LinkUp(neighbor, cost), msgId, now));
    }

    method OnLinkDown(neighbor: Id, msgId: string, live: seq<Id>, now: Time)
      returns (sent: seq<(Id, Wire)>)
      requires Valid()
      modifies this`links, this`number, this`lastAnnounce, seen, tables
      ensures Valid()
      ensures State() == LinkState.OnLinkDown(fabric.id, old(State()), neighbor, msgId, now).0
      ensures Floods(fabric, live, LinkState.OnLinkDown(fabric.id, old(State()), neighbor, msgId, now).1, sent)
    {
      ghost var before := State();
      var existed := neighbor in links;
      links := links - {neighbor};
      sent := [];
      if existed {
        sent := AnnounceLinks(msgId, live, now);
        Recompute();
      } else {
        assert links == old(links);
      }
      HandleKeepsConsistent(fabric.id, before, Event(LinkDown(neighbor), msgId, now));
    }

    method Expire(now: Time) returns (removed: bool)
      modifies this`lsdb
      ensures lsdb == Unexpired(old(lsdb), now) && (removed <==> lsdb != old(lsdb))
    {
      removed := false;
      var left := lsdb.Keys;
      while left != {}
        invariant left <= old(lsdb).Keys
        invariant lsdb == map o | o in old(lsdb)
                    && (o in left || now - old(lsdb)[o].refreshed <= LSP_MAX_AGE) :: old(lsdb)[o]
        invariant removed <==> lsdb != old(lsdb)
      {
        var origin :| origin in left;
        left := left - {origin};
        if now - lsdb[origin].refreshed > LSP_MAX_AGE {
          lsdb := lsdb - {origin};
          removed := true;
          assert origin !in lsdb && origin in old(lsdb);
        }
      }
    }

    /** One pass of the ageing loop. */
    method Age(now: Time)
      requires Valid()
      modifies this`lsdb, tables
      ensures Valid() && State() == Sweep(fabric.id, old(State()), now)
    {
      ghost var before := State();
      var removed := Expire(now);
      if removed { Recompute(); }
      HandleKeepsConsistent(fabric.id, before, Event(Ageing, "", now));
    }

    /** The links behind the table, in whatever order the maps are iterated. */
    method Topology() returns (edges: seq<Edge>)
      ensures Elements(edges) == EdgesOf(fabric.id, links, lsdb)
    {
      edges := ListLinks(fabric.id, links, []);
      var left := lsdb.Keys;
      while left != {}
        invariant left <= lsdb.Keys
        invariant Elements(edges) == LinkEdges(fabric.id, links) + DatabaseEdges(lsdb, lsdb.Keys - left)
      {
        var origin :| origin in left;
        OneMoreOrigin(lsdb, lsdb.Keys - left, origin);
        edges := ListLinks(origin, lsdb[origin].links, edges);
        left := left - {origin};
        assert lsdb.Keys - left == lsdb.Keys - (left + {origin}) + {origin};
      }
      assert lsdb.Keys - {} == lsdb.Keys;
    }

    method ListLinks(from: Id, out: Links, listed: seq<Edge>) returns (edges: seq<Edge>)
      ensures Elements(edges) == Elements(listed) + LinkEdges(from, out)
    {
      edges := listed;
      var left := out.Keys;
      while left != {}
        invariant left <= out.Keys
        invariant Elements(edges) == Elements(listed) + LinkEdges(from, out - left)
      {
        var n :| n in left;
        ghost var was := edges;
        edges := edges + [Edge(from, n, out[n])];
        ElementsAppend(was, Edge(from, n, out[n]));
        OneMoreLink(from, out, left, n);
        left := left - {n};
      }
      assert out - {} == out;
    }

    /** The console's `dijkstra` command: rebuild the graph from `Topology()` and
        run the search again. It shows exactly the published table. */
    method PrintedRoutes() returns (table: Table)
      requires Valid()
      ensures table == tables.table
    {
      var edges := Topology();
      var g := new Adjacency();
      var i := 0;
      while i < |edges|
        invariant 0 <= i <= |edges|
        invariant g.links == GraphFrom(edges[..i])
      {
        g.AddEdge(edges[i].from, edges[i].to, edges[i].cost);
        assert edges[..i + 1][..i] == edges[..i];
        i := i + 1;
      }
      assert edges[..i] == edges;
      AnyListingBuilds(edges);
      table := Dijkstra(g.links, fabric.id);
    }
  }
}
