/** What one node does with one user message, whichever algorithm picks the
    targets: `handleMessage`, `relay` and `Send` over resolved identifiers. */
module MessagePlane {
  import opened Ordering
  import opened SeenCaches
  import opened Packets

  /** How long a node remembers the id of a message. */
  const MESSAGE_SEEN_TTL: Time := 60 * SECOND

  /** The parts of a `message` packet that the forwarding plane reads or writes. */
  datatype Message = Message(id: string, from: Id, to: Id, ttl: int, via: Id, trace: seq<Id>)

  datatype Reaction =
    | Duplicate
    | Delivered
    | NoTarget
    | Expired
    | Relayed(copy: Message)

  /** A fresh message as `Send` puts it on the wire: the full hop budget is left. */
  function Fresh(id: string, self: Id, to: Id): Message {
    Message(id, self, to, DEFAULT_TTL, self, [self])
  }

  /** The message a relaying node passes on. */
  function PassedOn(self: Id, p: Message): Message {
    p.(ttl := p.ttl - 1, trace := p.trace + [self], via := self)
  }

  /** `handleMessage`, given whether the id was already remembered and whether
      the routing algorithm chooses any target. */
  function React(self: Id, known: bool, p: Message, routed: bool): Reaction {
    if known then Duplicate
    else if p.to == self then Delivered
    else if !routed then NoTarget
    else if p.ttl - 1 <= 0 then Expired
    else Relayed(PassedOn(self, p))
  }
}
