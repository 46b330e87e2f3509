/** How user messages are written with addresses and read back with local
    identifiers, so that what nodes put on links is what `MessagePlane` says. */
module MessageFormat {
  import opened Options
  import opened Ordering
  import opened Names
  import opened Packets
  import opened WireFormat
  import opened MessagePlane

  ghost predicate ResolvesAll(f: Fabric, addrs: seq<string>, ids: seq<Id>) {
    |addrs| == |ids| && forall i :: 0 <= i < |ids| ==> Resolves(f, addrs[i], ids[i])
  }

  /** `m` is how a node with fabric `f` may read packet `w`. */
  ghost predicate ReadsMessage(f: Fabric, w: Wire, m: Message) {
    && m.id == HeaderText(w.headers, MSG_ID)
    && Resolves(f, w.from, m.from) && Resolves(f, w.to, m.to)
    && m.ttl == w.ttl
    && Resolves(f, PreviousHop(w), m.via)
    && ResolvesAll(f, TraceOf(w.headers), m.trace)
  }

  function AddressesIn(names: Addresses, ids: seq<Id>): seq<string> {
    seq(|ids|, i requires 0 <= i < |ids| => AddressIn(names, ids[i]))
  }

  /** `w` writes `m` with the addresses of `names`. */
  ghost predicate WritesMessage(names: Addresses, w: Wire, m: Message) {
    && HeaderText(w.headers, MSG_ID) == m.id
    && w.from == AddressIn(names, m.from) && w.to == AddressIn(names, m.to)
    && w.ttl == m.ttl
    && PreviousHop(w) == AddressIn(names, m.via)
    && TraceOf(w.headers) == AddressesIn(names, m.trace)
  }

  /** What `relay` makes of a packet: one unit of budget less, the node's address
      at the end of the trace and in `via`, everything else untouched. */
  ghost predicate PassesOn(f: Fabric, before: Wire, after: Wire) {
    && after.from == before.from && after.to == before.to && after.payload == before.payload
    && after.ttl == before.ttl - 1
    && TraceOf(after.headers) == TraceOf(before.headers) + [f.selfAddr]
    && HeaderOf(after.headers, VIA) == Some(Text(f.selfAddr))
    && forall key :: key != TRACE && key != VIA ==> HeaderOf(after.headers, key) == HeaderOf(before.headers, key)
  }

  /** What `Send` puts on the wire. */
  ghost predicate Starts(f: Fabric, to: Id, msgId: string, text: string, w: Wire) {
    && w.from == f.selfAddr && w.to == Address(f, to) && w.payload == UserText(text)
    && w.ttl == DEFAULT_TTL
    && HeaderOf(w.headers, MSG_ID) == Some(Text(msgId))
    && TraceOf(w.headers) == [f.selfAddr]
    && HeaderOf(w.headers, VIA) == Some(Text(f.selfAddr))
  }

  lemma SelfAddress(f: Fabric)
    requires SelfNamed(f) && SoundTable(f.names)
    ensures AddressIn(f.names, f.id) == f.selfAddr && f.selfAddr != ""
  {
    assert ':' in f.selfAddr;
  }

  /** A relayed packet writes the relayed message. */
  lemma PassesOnWrites(f: Fabric, before: Wire, after: Wire, m: Message)
    requires SelfNamed(f) && SoundTable(f.names)
    requires WritesMessage(f.names, before, m) && PassesOn(f, before, after)
    ensures WritesMessage(f.names, after, PassedOn(f.id, m))
  {
    SelfAddress(f);
    assert HeaderOf(after.headers, MSG_ID) == HeaderOf(before.headers, MSG_ID);
    assert AddressesIn(f.names, m.trace + [f.id]) == AddressesIn(f.names, m.trace) + [f.selfAddr];
  }

  /** A sent packet writes the fresh message. */
  lemma StartWrites(f: Fabric, to: Id, msgId: string, text: string, w: Wire)
    requires SelfNamed(f) && SoundTable(f.names) && Nameable(f.names, to)
    requires Starts(f, to, msgId, text, w)
    ensures WritesMessage(f.names, w, Fresh(msgId, f.id, to))
  {
    SelfAddress(f);
    AddressInIsAddress(f, to);
    assert AddressesIn(f.names, [f.id]) == [f.selfAddr];
  }

  ghost predicate AllNamed(names: Addresses, m: Message) {
    && Nameable(names, m.from) && Nameable(names, m.to) && Nameable(names, m.via)
    && forall i :: 0 <= i < |m.trace| ==> Nameable(names, m.trace[i])
  }

  /** Message round trip: with one shared sound name table, every node reads from
      the wire exactly the message that was written. */
  lemma MessageReadsBack(f: Fabric, w: Wire, m: Message, read: Message)
    requires SoundTable(f.names) && SelfNamed(f) && AllNamed(f.names, m)
    requires WritesMessage(f.names, w, m) && ReadsMessage(f, w, read)
    ensures read == m
  {
    NameReadsBack(f, m.from, read.from);
    NameReadsBack(f, m.to, read.to);
    NameReadsBack(f, m.via, read.via);
    forall i | 0 <= i < |m.trace| ensures read.trace[i] == m.trace[i] {
      assert TraceOf(w.headers)[i] == AddressIn(f.names, m.trace[i]);
      NameReadsBack(f, m.trace[i], read.trace[i]);
    }
  }

  lemma NameReadsBack(f: Fabric, id: Id, read: Id)
    requires SoundTable(f.names) && SelfNamed(f) && Nameable(f.names, id)
    requires Resolves(f, AddressIn(f.names, id), read)
    ensures read == id
  {
    AddressInIsAddress(f, id);
    AddressRoundTrip(f, f, id, read);
  }

  lemma {:induction false} SomeTrace(f: Fabric, addrs: seq<string>) returns (ids: seq<Id>)
    ensures ResolvesAll(f, addrs, ids)
  {
    ids := [];
    if addrs != [] {
      var init := SomeTrace(f, addrs[..|addrs| - 1]);
      var last := SomeName(f, addrs[|addrs| - 1]);
      ids := init + [last];
    }
  }

  /** Every packet can be read as some message. */
  lemma SomeMessage(f: Fabric, w: Wire, to: Id, via: Id) returns (m: Message)
    requires Resolves(f, w.to, to) && Resolves(f, PreviousHop(w), via)
    ensures ReadsMessage(f, w, m) && m.to == to && m.via == via && m.id == HeaderText(w.headers, MSG_ID) && m.ttl == w.ttl
  {
    var from := SomeName(f, w.from);
    var trace := SomeTrace(f, TraceOf(w.headers));
    m := Message(HeaderText(w.headers, MSG_ID), from, to, w.ttl, via, trace);
  }
}
