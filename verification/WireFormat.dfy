/** How link-state packets are written with addresses and read back with local
    identifiers, and why every node reads what the origin wrote. */
module WireFormat {
  import opened Options
  import opened Ordering
  import opened Graphs
  import opened Names
  import opened Packets
  import opened SeenCaches
  import opened LinkState

  // --------------------------------------------------------------- reading

  /** The address `previousHopID` resolves. */
  function PreviousHop(w: Wire): string {
    var via := HeaderText(w.headers, VIA);
    if via == "" then w.from else via
  }

  /** The neighbour map built from a list whose addresses resolved to `ids`. */
  function Collected(ids: seq<Id>, list: seq<(string, real)>): Links
    requires |ids| == |list|
  {
    if ids == [] then map[]
    else
      var n := |ids| - 1;
      Collected(ids[..n], list[..n])[ids[n] := list[n].1]
  }

  ghost predicate ReadsLinks(f: Fabric, list: seq<(string, real)>, ids: seq<Id>, links: Links) {
    && |ids| == |list|
    && (forall i :: 0 <= i < |ids| ==> Resolves(f, list[i].0, ids[i]))
    && links == Collected(ids, list)
  }

  /** `p` is how a node with fabric `f` may read packet `w`. */
  ghost predicate Reads(f: Fabric, w: Wire, p: Info) {
    && p.msgId == HeaderText(w.headers, MSG_ID)
    && p.ttl == w.ttl
    && Resolves(f, PreviousHop(w), p.via)
    && (match w.payload
        case LinkStatePayload(l) =>
          && p.lsp.Some? && p.lsp.value.number == l.number
          && Resolves(f, l.origin, p.lsp.value.origin)
          && exists ids :: ReadsLinks(f, l.neighbors, ids, p.lsp.value.links)
        case _ => p.lsp.None?)
  }

  // --------------------------------------------------------------- writing

  function AddressIn(names: Addresses, id: Id): string {
    match Endpoint(names, id)
    case Some(addr) => addr
    case None => id
  }

  ghost function LinkEntries(names: Addresses, links: Links): set<(string, real)> {
    set n | n in links :: (AddressIn(names, n), links[n])
  }

  /** `w` writes `p` with the addresses of `names`. */
  ghost predicate Writes(names: Addresses, w: Wire, p: Info) {
    && HeaderText(w.headers, MSG_ID) == p.msgId
    && w.ttl == p.ttl
    && PreviousHop(w) == AddressIn(names, p.via)
    && p.lsp.Some? && w.payload.LinkStatePayload?
    && w.payload.lsp.number == p.lsp.value.number
    && w.payload.lsp.origin == AddressIn(names, p.lsp.value.origin)
    && Elements(w.payload.lsp.neighbors) == LinkEntries(names, p.lsp.value.links)
  }

  /** The packet `announce` builds; its neighbour list may come in any order. */
  function AnnouncedWire(f: Fabric, msgId: string, number: int, neighbors: seq<(string, real)>): Wire {
    Wire(f.selfAddr, "*", DEFAULT_TTL, [map[MSG_ID := Text(msgId)]],
         LinkStatePayload(WireLsp(f.selfAddr, number, neighbors)))
  }

  /** The copy `relay` sends. */
  function RelayedWire(f: Fabric, w: Wire): Wire {
    w.(ttl := w.ttl - 1, headers := WithHeader(w.headers, VIA, Text(f.selfAddr)))
  }

  /** Every id in the packet can be written as an address and read back. */
  ghost predicate AllNameable(names: Addresses, p: Info) {
    && Nameable(names, p.via)
    && p.lsp.Some? && Nameable(names, p.lsp.value.origin)
    && forall n :: n in p.lsp.value.links ==> Nameable(names, n)
  }

  lemma AddressInIsAddress(f: Fabric, id: Id)
    requires SelfNamed(f) && id != "*"
    ensures AddressIn(f.names, id) == Address(f, id)
  {
  }

  /** What `announce` puts on the wire writes the announcement. */
  lemma AnnouncementWrites(f: Fabric, p: Info, neighbors: seq<(string, real)>)
    requires SelfNamed(f) && SoundTable(f.names)
    requires p.lsp.Some? && p.ttl == DEFAULT_TTL && p.via == f.id && p.lsp.value.origin == f.id
    requires Elements(neighbors) == LinkEntries(f.names, p.lsp.value.links)
    ensures Writes(f.names, AnnouncedWire(f, p.msgId, p.lsp.value.number, neighbors), p)
  {
    var w := AnnouncedWire(f, p.msgId, p.lsp.value.number, neighbors);
    assert HeaderOf(w.headers[1..], VIA) == None;
    assert HeaderOf(w.headers, MSG_ID) == Some(Text(p.msgId));
  }

  /** A relayed copy writes the relayed announcement. */
  lemma RelayWrites(f: Fabric, w: Wire, p: Info)
    requires SelfNamed(f) && SoundTable(f.names) && Writes(f.names, w, p)
    ensures Writes(f.names, RelayedWire(f, w), Relayed(f.id, p))
  {
    HeaderAfterSet(w.headers, VIA, Text(f.selfAddr), VIA);
    HeaderAfterSet(w.headers, VIA, Text(f.selfAddr), MSG_ID);
    assert ':' in f.selfAddr;
  }

  lemma {:induction false} CollectedIs(ids: seq<Id>, list: seq<(string, real)>, links: Links)
    requires |ids| == |list|
    requires forall i :: 0 <= i < |ids| ==> ids[i] in links && list[i].1 == links[ids[i]]
    ensures Collected(ids, list).Keys == Elements(ids)
    ensures forall n :: n in Collected(ids, list) ==> n in links && Collected(ids, list)[n] == links[n]
  {
    if ids != [] {
      var n := |ids| - 1;
      CollectedIs(ids[..n], list[..n], links);
      assert ids == ids[..n] + [ids[n]];
    }
  }

  /** Of several entries read as one id the last counts. */
  lemma {:induction false} LastEntryCounts(ids: seq<Id>, list: seq<(string, real)>, i: nat)
    requires i < |ids| == |list| && forall j :: i < j < |ids| ==> ids[j] != ids[i]
    ensures ids[i] in Collected(ids, list) && Collected(ids, list)[ids[i]] == list[i].1
  {
    var n := |ids| - 1;
    if i < n { LastEntryCounts(ids[..n], list[..n], i); }
  }

  lemma LinksReadBack(sender: Addresses, f: Fabric, list: seq<(string, real)>, links: Links, ids: seq<Id>)
    requires sender == f.names && SoundTable(f.names) && SelfNamed(f)
    requires forall n :: n in links ==> Nameable(f.names, n)
    requires Elements(list) == LinkEntries(f.names, links)
    requires |ids| == |list| && forall i :: 0 <= i < |ids| ==> Resolves(f, list[i].0, ids[i])
    ensures Collected(ids, list) == links
  {
    forall i | 0 <= i < |ids| ensures ids[i] in links && list[i].1 == links[ids[i]] {
      assert list[i] in Elements(list);
      var n :| n in links && list[i] == (AddressIn(f.names, n), links[n]);
      AddressInIsAddress(f, n);
      AddressRoundTrip(f, f, n, ids[i]);
    }
    CollectedIs(ids, list, links);
    forall n | n in links ensures n in Elements(ids) {
      assert (AddressIn(f.names, n), links[n]) in Elements(list);
      var i :| 0 <= i < |list| && list[i] == (AddressIn(f.names, n), links[n]);
      AddressInIsAddress(f, n);
      AddressRoundTrip(f, f, n, ids[i]);
    }
  }

  /** Announcement round trip: with one shared sound name table, every node reads
      from the wire exactly the announcement that was written, however the
      neighbour list was ordered. */
  lemma ReadsBack(f: Fabric, w: Wire, p: Info, q: Info)
    requires SoundTable(f.names) && SelfNamed(f) && AllNameable(f.names, p)
    requires Writes(f.names, w, p) && Reads(f, w, q)
    ensures q == p
  {
    AddressInIsAddress(f, p.via);
    AddressRoundTrip(f, f, p.via, q.via);
    AddressInIsAddress(f, p.lsp.value.origin);
    AddressRoundTrip(f, f, p.lsp.value.origin, q.lsp.value.origin);
    var list := w.payload.lsp.neighbors;
    var ids :| ReadsLinks(f, list, ids, q.lsp.value.links);
    LinksReadBack(f.names, f, list, p.lsp.value.links, ids);
  }

  /** A packet after each of `relays` in turn has passed it on. */
  function RelayedBy(relays: seq<Fabric>, w: Wire): Wire {
    if relays == [] then w else RelayedWire(relays[|relays| - 1], RelayedBy(relays[..|relays| - 1], w))
  }

  function RelayedInfo(relays: seq<Fabric>, p: Info): Info {
    if relays == [] then p else Relayed(relays[|relays| - 1].id, RelayedInfo(relays[..|relays| - 1], p))
  }

  /** Nodes with the one name table, each advertising its address there. */
  ghost predicate Deployed(names: Addresses, fs: seq<Fabric>) {
    forall i :: 0 <= i < |fs| ==> fs[i].names == names && SelfNamed(fs[i])
  }

  /** Along any chain of relays the packet keeps writing the announcement. */
  lemma {:induction false} ChainWrites(names: Addresses, relays: seq<Fabric>, w: Wire, p: Info)
    requires SoundTable(names) && Deployed(names, relays) && Writes(names, w, p) && AllNameable(names, p)
    ensures Writes(names, RelayedBy(relays, w), RelayedInfo(relays, p))
    ensures AllNameable(names, RelayedInfo(relays, p)) && RelayedInfo(relays, p).lsp == p.lsp
  {
    if relays != [] {
      var init, last := relays[..|relays| - 1], relays[|relays| - 1];
      ChainWrites(names, init, w, p);
      assert last.names == names && SelfNamed(last);
      RelayWrites(last, RelayedBy(init, w), RelayedInfo(init, p));
    }
  }

  /** However many relays an announcement has come through, where it is accepted it
      is stored under the sender's id, with exactly the sender's links at announce
      time. */
  lemma AnnouncementIsStored(sender: Fabric, st: State, msgId: string, sentAt: Time, neighbors: seq<(string, real)>,
                             relays: seq<Fabric>, receiver: Fabric, before: State, q: Info, now: Time)
    requires SoundTable(sender.names) && SelfNamed(sender) && Deployed(sender.names, relays)
    requires sender.names == receiver.names && SelfNamed(receiver)
    requires forall n :: n in st.links ==> Nameable(sender.names, n)
    requires Elements(neighbors) == LinkEntries(sender.names, st.links)
    requires var w := AnnouncedWire(sender, msgId, st.number + 1, neighbors);
             Reads(receiver, RelayedBy([sender] + relays, w), q)
    ensures var (after, accepted) := HandleInfo(receiver.id, before, q, now);
      accepted ==>
        && sender.id in after.lsdb
        && after.lsdb[sender.id] == Entry(st.number + 1, st.links, now)
        && Announce(sender.id, st, msgId, sentAt).1.lsp == Some(Lsp(sender.id, st.number + 1, st.links))
  {
    var p := Announce(sender.id, st, msgId, sentAt).1;
    var w, all := AnnouncedWire(sender, msgId, st.number + 1, neighbors), [sender] + relays;
    AnnouncementWrites(sender, p, neighbors);
    assert Deployed(sender.names, all) && AllNameable(sender.names, p);
    hide HandleInfo, Writes, AnnouncedWire, RelayedBy, RelayedInfo, Reads, Deployed, AllNameable, SelfNamed, SoundTable, Look;
    ChainReadsBack(sender.names, all, w, p, receiver, q);
    AcceptedIsStored(receiver.id, before, q, p.lsp.value, now);
  }

  lemma ChainReadsBack(names: Addresses, relays: seq<Fabric>, w: Wire, p: Info, receiver: Fabric, q: Info)
    requires SoundTable(names) && Deployed(names, relays) && Writes(names, w, p) && AllNameable(names, p)
    requires receiver.names == names && SelfNamed(receiver) && Reads(receiver, RelayedBy(relays, w), q)
    ensures q.lsp == p.lsp
  {
    hide Writes, Reads, RelayedBy, RelayedInfo;
    ChainWrites(names, relays, w, p);
    ReadsBack(receiver, RelayedBy(relays, w), RelayedInfo(relays, p), q);
  }

  lemma AcceptedIsStored(self: Id, before: State, q: Info, lsp: Lsp, now: Time)
    requires q.lsp == Some(lsp)
    ensures var (after, accepted) := HandleInfo(self, before, q, now);
      accepted ==> lsp.origin in after.lsdb && after.lsdb[lsp.origin] == Entry(lsp.number, lsp.links, now)
  {
    hide TableFor, Look;
  }

  /** Every address can be read as something. */
  lemma SomeName(f: Fabric, addr: string) returns (id: Id)
    ensures Resolves(f, addr, id)
  {
    if addr == "*" || addr == f.selfAddr {
      id := f.id;
    } else {
      var full := CompletePort(addr, f.selfPort);
      if full in f.names.Values { id :| id in f.names && f.names[id] == full; } else { id := full; }
    }
  }

  lemma {:induction false} SomeNames(f: Fabric, list: seq<(string, real)>) returns (ids: seq<Id>)
    ensures |ids| == |list| && forall i :: 0 <= i < |ids| ==> Resolves(f, list[i].0, ids[i])
  {
    ids := [];
    if list != [] {
      var init := SomeNames(f, list[..|list| - 1]);
      var last := SomeName(f, list[|list| - 1].0);
      ids := init + [last];
    }
  }

  /** Every packet can be read as something. */
  lemma SomeReading(f: Fabric, w: Wire, via: Id) returns (p: Info)
    requires Resolves(f, PreviousHop(w), via)
    ensures Reads(f, w, p) && p.msgId == HeaderText(w.headers, MSG_ID)
  {
    p := Info(HeaderText(w.headers, MSG_ID), w.ttl, via, None);
    if w.payload.LinkStatePayload? {
      var l := w.payload.lsp;
      var origin := SomeName(f, l.origin);
      var ids := SomeNames(f, l.neighbors);
      p := p.(lsp := Some(Lsp(origin, l.number, Collected(ids, l.neighbors))));
      assert ReadsLinks(f, l.neighbors, ids, p.lsp.value.links);
    }
  }
}
