/** The name table that maps identifiers to the addresses written on the wire,
    and when that mapping can be undone by another node. */
module Names {
  import opened Options
  import opened Ordering

  type Addresses = map<Id, string>

  /** What `Address` and `LocalID` read of a node. */
  datatype Fabric = Fabric(id: Id, selfAddr: string, selfPort: string, names: Addresses)

  /** `Endpoint`: an id that already looks like an endpoint is its own address. */
  function Endpoint(names: Addresses, id: Id): Option<string> {
    if id in names then Some(names[id])
    else if ':' in id then Some(id)
    else None
  }

  function CompletePort(addr: string, fallbackPort: string): string {
    if fallbackPort == "" || ':' in addr then addr else addr + ":" + fallbackPort
  }

  function Address(f: Fabric, id: Id): string {
    if id == "*" || id == f.id then f.selfAddr
    else match Endpoint(f.names, id)
      case Some(addr) => addr
      case None => id
  }

  /** `id` is a name `IDFor` may give `addr`: any entry holding it, if there is
      one (Go iterates the table in no particular order), else the address. */
  ghost predicate NamedBy(names: Addresses, addr: string, id: Id) {
    if addr in names.Values then id in names && names[id] == addr else id == addr
  }

  ghost predicate Resolves(f: Fabric, addr: string, id: Id) {
    if addr == "*" || addr == f.selfAddr then id == f.id
    else NamedBy(f.names, CompletePort(addr, f.selfPort), id)
  }

  /** What an address other than the node's own is read as: an id that has it, if
      there is one, else itself. */
  ghost predicate HolderOrItself(names: Addresses, addr: string, id: Id) {
    if exists x :: x in names && names[x] == addr then id in names && names[id] == addr else id == addr
  }

  method IDFor(names: Addresses, addr: string, fallbackPort: string) returns (id: Id)
    ensures NamedBy(names, CompletePort(addr, fallbackPort), id)
    ensures HolderOrItself(names, if ':' in addr || fallbackPort == "" then addr else addr + ":" + fallbackPort, id)
  {
    var full := CompletePort(addr, fallbackPort);
    var left := names.Keys;
    while left != {}
      invariant left <= names.Keys
      invariant forall x :: x in names && x !in left ==> names[x] != full
    {
      var x :| x in left;
      if names[x] == full { return x; }
      left := left - {x};
    }
    return full;
  }

  method LocalID(f: Fabric, addr: string) returns (id: Id)
    ensures Resolves(f, addr, id)
    ensures if addr == "*" || addr == f.selfAddr then id == f.id
            else HolderOrItself(f.names, if ':' in addr || f.selfPort == "" then addr else addr + ":" + f.selfPort, id)
  {
    if addr == "*" || addr == f.selfAddr { return f.id; }
    id := IDFor(f.names, addr, f.selfPort);
  }

  // ------------------------------------------------------------ round trip

  /** Whatever `receiver` makes of the address that `sender` writes for `id`, it is
      `id` again. */
  ghost predicate ReadsBack(sender: Fabric, receiver: Fabric, id: Id) {
    forall read :: Resolves(receiver, Address(sender, id), read) ==> read == id
  }

  /** A node whose id is in the table advertises the address it has there, as `New`
      sees to. */
  ghost predicate SelfAddressed(f: Fabric) {
    f.id in f.names ==> f.names[f.id] == f.selfAddr
  }

  /** No other id has the address of `id`. */
  ghost predicate SoleHolder(names: Addresses, id: Id)
    requires id in names
  {
    forall x :: x in names && names[x] == names[id] ==> x == id
  }

  lemma Completed(f: Fabric, addr: string)
    requires addr != "*" && addr != f.selfAddr
    ensures forall read :: Resolves(f, addr, read) <==> NamedBy(f.names, CompletePort(addr, f.selfPort), read)
  {
  }

  /** Exactly when an id of the table survives the wire: it is the receiver's own;
      or its address, which is not the receiver's, is left alone when the port is
      completed and nobody else has it; or nobody has the completed address and it
      happens to be the id itself. */
  lemma TableIdReadsBackIff(sender: Fabric, receiver: Fabric, id: Id)
    requires sender.names == receiver.names && id in sender.names && id != "*"
    requires SelfAddressed(sender) && SelfAddressed(receiver)
    ensures var addr := sender.names[id];
      ReadsBack(sender, receiver, id) <==>
        || id == receiver.id
        || (&& addr != "*" && addr != receiver.selfAddr
            && (var full := CompletePort(addr, receiver.selfPort);
                if full in sender.names.Values then full == addr && SoleHolder(sender.names, id) else full == id))
  {
    var names, addr := sender.names, sender.names[id];
    assert Address(sender, id) == addr && addr in names.Values;
    if addr == "*" || addr == receiver.selfAddr {
      assert Resolves(receiver, addr, receiver.id);
    } else {
      Completed(receiver, addr);
      var full := CompletePort(addr, receiver.selfPort);
      if full in names.Values {
        var holder :| holder in names && names[holder] == full;
        assert NamedBy(names, full, holder);
        if full == addr {
          assert forall x :: x in names && names[x] == addr ==> NamedBy(names, full, x);
        }
      } else {
        assert NamedBy(names, full, full);
      }
    }
  }

  /** Exactly when an id outside the table, written as it is, survives the wire. */
  lemma RawIdReadsBackIff(sender: Fabric, receiver: Fabric, id: Id)
    requires sender.names == receiver.names && id !in sender.names && id != "*" && id != sender.id
    ensures ReadsBack(sender, receiver, id) <==>
      if id == receiver.selfAddr then id == receiver.id
      else CompletePort(id, receiver.selfPort) == id && id !in sender.names.Values
  {
    var names := sender.names;
    assert Address(sender, id) == id;
    if id == receiver.selfAddr {
      assert Resolves(receiver, id, receiver.id);
    } else {
      Completed(receiver, id);
      var full := CompletePort(id, receiver.selfPort);
      if full in names.Values {
        var holder :| holder in names && names[holder] == full;
        assert NamedBy(names, full, holder);
      } else {
        assert NamedBy(names, full, full);
      }
    }
  }

  /** Exactly when a node that is not in the table, so that it is known by the
      address it listens on, has its own id read back: it is the origin of every
      announcement it makes. */
  lemma OwnIdReadsBackIff(sender: Fabric, receiver: Fabric)
    requires sender.names == receiver.names
    ensures var addr := sender.selfAddr;
      ReadsBack(sender, receiver, sender.id) <==>
        if addr == "*" || addr == receiver.selfAddr then receiver.id == sender.id
        else
          var full := CompletePort(addr, receiver.selfPort);
          if full in sender.names.Values
          then forall x :: x in sender.names && sender.names[x] == full ==> x == sender.id
          else full == sender.id
  {
    var names, addr := sender.names, sender.selfAddr;
    assert Address(sender, sender.id) == addr;
    if addr == "*" || addr == receiver.selfAddr {
      assert Resolves(receiver, addr, receiver.id);
    } else {
      Completed(receiver, addr);
      var full := CompletePort(addr, receiver.selfPort);
      if full in names.Values {
        assert forall x :: x in names && names[x] == full ==> NamedBy(names, full, x);
      } else {
        assert NamedBy(names, full, full);
      }
    }
  }

  /** Every address carries a port, and no two ids share one. */
  ghost predicate SoundTable(names: Addresses) {
    && (forall x :: x in names ==> ':' in names[x])
    && (forall x, y :: x in names && y in names && names[x] == names[y] ==> x == y)
  }

  /** An id of the table, or a raw endpoint that no entry maps to. */
  ghost predicate Nameable(names: Addresses, id: Id) {
    id != "*" && (id in names || (':' in id && id !in names.Values))
  }

  /** A node that advertises the address its own id resolves to, as `New` makes
      every node whose id has one. */
  ghost predicate SelfNamed(f: Fabric) {
    Nameable(f.names, f.id) && Endpoint(f.names, f.id) == Some(f.selfAddr)
  }

  /** With a shared sound table, an id written as an address by one node is read
      back as the same id by every node. */
  lemma AddressRoundTrip(sender: Fabric, receiver: Fabric, id: Id, read: Id)
    requires sender.names == receiver.names && SoundTable(sender.names)
    requires SelfNamed(sender) && SelfNamed(receiver) && Nameable(sender.names, id)
    requires Resolves(receiver, Address(sender, id), read)
    ensures read == id
  {
    var names, addr := sender.names, Address(sender, id);
    assert addr == if id in names then names[id] else id;
    assert ':' in addr && addr != "*";
    assert id in names ==> names[id] in names.Values;
    assert receiver.id in names ==> names[receiver.id] in names.Values;
  }

  /** Without distinct addresses the round trip fails, in every table: a third node
      may read the other id that shares a complete address. */
  lemma SharedAddressMisreads(sender: Fabric, receiver: Fabric, id: Id, other: Id)
    requires sender.names == receiver.names && id in sender.names && other in sender.names && id != "*"
    requires SelfAddressed(sender) && SelfAddressed(receiver)
    requires other != id && sender.names[other] == sender.names[id] && receiver.id != id
    requires CompletePort(sender.names[id], receiver.selfPort) == sender.names[id]
    ensures !ReadsBack(sender, receiver, id)
  {
    TableIdReadsBackIff(sender, receiver, id);
    assert sender.names[id] in sender.names.Values;
  }

  // ------------------------------------------------ addresses without a port

  /** How an address is read: `*` and the node's own as the node itself, any other
      that has a port as the id that has it, and one without as if the node's own
      port stood behind it. */
  lemma AddressIsReadAs(f: Fabric, addr: string, id: Id)
    ensures addr == "*" || addr == f.selfAddr ==> (Resolves(f, addr, id) <==> id == f.id)
    ensures addr != "*" && addr != f.selfAddr ==>
      (Resolves(f, addr, id) <==>
        HolderOrItself(f.names, if ':' in addr || f.selfPort == "" then addr else addr + ":" + f.selfPort, id))
  {
  }

  /** The node whose id reads its own address: it has it in the table, or nobody has
      and it is known by it, as `New` makes every node that is not told otherwise. */
  ghost predicate KnownBySelfAddr(f: Fabric) {
    HolderOrItself(f.names, f.selfAddr, f.id)
  }

  ghost predicate DistinctAddresses(names: Addresses) {
    forall x, y :: x in names && y in names && names[x] == names[y] ==> x == y
  }

  /** A host without a port means the same as with the port of the network: a node
      with distinct addresses reads both as one id, and as `id` whenever `id` has
      that address. */
  lemma PortMayBeLeftOut(f: Fabric, host: string, read: Id)
    requires DistinctAddresses(f.names) && KnownBySelfAddr(f)
    requires ':' !in host && host != "*" && host != f.selfAddr && f.selfPort != ""
    ensures Resolves(f, host, read) <==> Resolves(f, host + ":" + f.selfPort, read)
    ensures forall id :: id in f.names && f.names[id] == host + ":" + f.selfPort ==> (Resolves(f, host, read) <==> read == id)
  {
    var full := host + ":" + f.selfPort;
    assert full[|host|] == ':' && ':' in full && full != "*" by { assert |full| > 1 || full == ":"; }
    AddressIsReadAs(f, host, read);
    AddressIsReadAs(f, full, read);
    if full == f.selfAddr && f.id in f.names && f.names[f.id] == full {
      assert forall x :: x in f.names && f.names[x] == full ==> x == f.id;
    }
  }

  /** Exactly when leaving out the port changes nothing, for any table. */
  lemma PortMayBeLeftOutIff(f: Fabric, host: string)
    requires ':' !in host && host != "*" && host != f.selfAddr && f.selfPort != ""
    ensures (forall read :: Resolves(f, host, read) <==> Resolves(f, host + ":" + f.selfPort, read)) <==>
      host + ":" + f.selfPort != f.selfAddr
      || forall read :: HolderOrItself(f.names, f.selfAddr, read) <==> read == f.id
  {
    var full := host + ":" + f.selfPort;
    assert full[|host|] == ':' && ':' in full;
    forall read
      ensures Resolves(f, host, read) <==> HolderOrItself(f.names, full, read)
      ensures Resolves(f, full, read) <==> if full == f.selfAddr then read == f.id else HolderOrItself(f.names, full, read)
    {
      AddressIsReadAs(f, host, read);
      AddressIsReadAs(f, full, read);
    }
  }

  /** A node can be dialled if and only if the table has it or its id is itself an
      endpoint; of the two the table decides. */
  lemma DialledIff(names: Addresses, id: Id)
    ensures Endpoint(names, id).Some? <==> id in names || ':' in id
    ensures id !in names && ':' in id ==> Endpoint(names, id) == Some(id)
    ensures forall addr :: id in names ==> Endpoint(names[id := addr], id) == Some(addr)
  {
  }

  /** `*` is written as the sender's own address, so every other node reads it as the
      sender, and not as everyone or as itself. */
  lemma StarIsTheSender(sender: Fabric, receiver: Fabric, read: Id)
    requires sender.names == receiver.names && SoundTable(sender.names) && SelfNamed(sender) && SelfNamed(receiver)
    requires Resolves(receiver, Address(sender, "*"), read)
    ensures read == sender.id
  {
    AddressRoundTrip(sender, receiver, sender.id, read);
  }
}
