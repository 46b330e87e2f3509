/** Flooding mode as a network: nodes whose caches forget, copies of user messages
    in flight, and any copy delivered, or lost, next, at any time. */
module MessageFlood {
  import opened Ordering
  import opened Exactness
  import opened MessagePlane
  import opened Packets
  import opened SeenCaches
  import opened FloodCore

  datatype Envelope = Envelope(to: Id, msg: Message)

  /** A message handed to a user, and when. */
  datatype Receipt = Receipt(e: Envelope, at: Time)

  /** One message: who sent it to whom, its copies in flight, and its history so
      far: what was handed to a user where, how many copies were put on a link,
      how many were taken off again, and how far from the sender each node that
      handled it is. */
  datatype Flood = Flood(
    sender: Id,
    dest: Id,
    flying: multiset<Envelope>,
    delivered: seq<Receipt>,
    sends: nat,
    taken: nat,
    level: Levels)

  /** Each node's duplicate cache, and the messages sent so far by id. */
  datatype Net = Net(seen: map<Id, Entries>, floods: map<string, Flood>)

  datatype Event = Send(sender: Id, dest: Id, id: string, now: Time) | Deliver(e: Envelope, now: Time) | Lose(e: Envelope, now: Time)

  function Silent(live: LiveGraph): Net {
    Net(map u | u in live :: map[], map[])
  }

  function CopiesTo(targets: set<Id>, msg: Message): set<Envelope> {
    set w | w in targets :: Envelope(w, msg)
  }

  /** The neighbours flooding picks at `v`. */
  function Targets(live: LiveGraph, v: Id, previousHop: Id): set<Id> {
    if v in live then live[v] - {previousHop} else {}
  }

  function Reaction1(live: LiveGraph, known: bool, e: Envelope): Reaction {
    React(e.to, known, e.msg, Targets(live, e.to, e.msg.via) != {})
  }

  function NewCopies(live: LiveGraph, known: bool, e: Envelope): set<Envelope> {
    var r := Reaction1(live, known, e);
    if r.Relayed? then CopiesTo(Targets(live, e.to, e.msg.via), r.copy) else {}
  }

  function LevelsAfter(level: Levels, e: Envelope): Levels {
    if e.to in level || e.msg.via !in level then level else level[e.to := level[e.msg.via] + 1]
  }

  /** `Send`: `via` is the sender itself, which is no neighbour of its own. */
  function Begin(live: LiveGraph, sender: Id, dest: Id, id: string): Flood {
    var out := CopiesTo(Targets(live, sender, sender), Fresh(id, sender, dest));
    Flood(sender, dest, multiset(out), [], |out|, 0, map[sender := 0])
  }

  /** A copy reaches a node that does (`known`) or does not remember its id. */
  function Handle(live: LiveGraph, known: bool, f: Flood, e: Envelope, now: Time): Flood {
    var out := NewCopies(live, known, e);
    f.(flying := f.flying - multiset{e} + multiset(out),
       delivered := if Reaction1(live, known, e).Delivered? then f.delivered + [Receipt(e, now)] else f.delivered,
       sends := f.sends + |out|,
       taken := f.taken + 1,
       level := LevelsAfter(f.level, e))
  }

  function Lost(f: Flood, e: Envelope): Flood {
    f.(flying := f.flying - multiset{e}, taken := f.taken + 1)
  }

  predicate Remembers(seen: map<Id, Entries>, v: Id, id: string) {
    v in seen && id in seen[v]
  }

  /** What the cache of `v` answers about `id`. */
  predicate Answers(seen: map<Id, Entries>, v: Id, id: string, now: Time) {
    v in seen && Look(seen[v], id, now, MESSAGE_SEEN_TTL).1
  }

  function Remember(seen: map<Id, Entries>, v: Id, id: string, now: Time): map<Id, Entries> {
    if v in seen then seen[v := Look(seen[v], id, now, MESSAGE_SEEN_TTL).0] else seen
  }

  predicate Enabled(live: LiveGraph, net: Net, ev: Event) {
    match ev
    case Send(sender, dest, id, _) => sender in live && sender != dest && id != "" && id !in net.floods
    case Deliver(e, _) => e.msg.id in net.floods && e in net.floods[e.msg.id].flying
    case Lose(e, _) => e.msg.id in net.floods && e in net.floods[e.msg.id].flying
  }

  /** Any enabled event may come next; a disabled one changes nothing. */
  function Apply(live: LiveGraph, net: Net, ev: Event): Net {
    if !Enabled(live, net, ev) then net
    else match ev
      case Send(sender, dest, id, now) =>
        Net(Remember(net.seen, sender, id, now), net.floods[id := Begin(live, sender, dest, id)])
      case Deliver(e, now) =>
        var id := e.msg.id;
        Net(Remember(net.seen, e.to, id, now),
            net.floods[id := Handle(live, Answers(net.seen, e.to, id, now), net.floods[id], e, now)])
      case Lose(e, _) =>
        net.(floods := net.floods[e.msg.id := Lost(net.floods[e.msg.id], e)])
  }

  function After(live: LiveGraph, events: seq<Event>): Net {
    if events == [] then Silent(live)
    else Apply(live, After(live, events[..|events| - 1]), events[|events| - 1])
  }

  // ------------------------------------------------------ what stays true

  function CopiesIn(flying: multiset<Envelope>): set<Copy> {
    set e | e in flying :: Copy(e.msg.via, e.to, e.msg.ttl)
  }

  ghost predicate LiveStep(live: LiveGraph, p: seq<Id>, i: nat)
    requires 0 < i < |p|
  {
    p[i - 1] in live && p[i] in live[p[i - 1]]
  }

  /** The trace is a live path whose entries are on levels zero, one, and so on up
      to the last hop; the budget spent is one per entry after the first. */
  ghost predicate Traced(live: LiveGraph, level: Levels, msg: Message) {
    && msg.trace != [] && msg.trace[|msg.trace| - 1] == msg.via
    && msg.ttl + |msg.trace| == DEFAULT_TTL + 1
    && (forall i :: 0 <= i < |msg.trace| ==> msg.trace[i] in level && level[msg.trace[i]] == i)
    && (forall i :: 0 < i < |msg.trace| ==> LiveStep(live, msg.trace, i))
  }

  ghost predicate InFlight(live: LiveGraph, f: Flood, id: string, e: Envelope) {
    && e.msg.id == id && e.msg.to == f.dest
    && Traced(live, f.level, e.msg)
    && e.msg.via in live && e.to in live[e.msg.via]
  }

  ghost predicate Delivery(live: LiveGraph, f: Flood, id: string, e: Envelope) {
    && InFlight(live, f, id, e) && e.to == f.dest && f.dest !in e.msg.trace
  }

  ghost predicate AllInFlight(live: LiveGraph, f: Flood, id: string) {
    forall e :: e in f.flying ==> InFlight(live, f, id, e)
  }

  /** Delivered once if the destination has handled the message, else not at all. */
  ghost predicate OnceDelivered(live: LiveGraph, f: Flood, id: string) {
    && |f.delivered| == (if f.dest in f.level then 1 else 0)
    && (forall i :: 0 <= i < |f.delivered| ==> Delivery(live, f, id, f.delivered[i].e))
  }

  /** No copy is lost from sight, and nobody sends more copies than it has links. */
  ghost predicate Counted(live: LiveGraph, f: Flood) {
    && f.sends == |f.flying| + f.taken
    && f.sends <= |LinksOf(live, f.level.Keys)|
  }

  ghost predicate Inv(live: LiveGraph, f: Flood, id: string) {
    && f.sender != f.dest
    && Safe(live, f.sender, DEFAULT_TTL, f.level, CopiesIn(f.flying))
    && AllInFlight(live, f, id) && OnceDelivered(live, f, id) && Counted(live, f)
  }

  lemma {:induction false} CopiesToCount(targets: set<Id>, msg: Message)
    ensures |CopiesTo(targets, msg)| == |targets|
    decreases |targets|
  {
    if targets == {} {
      assert CopiesTo(targets, msg) == {};
    } else {
      var w :| w in targets;
      CopiesToCount(targets - {w}, msg);
      assert CopiesTo(targets, msg) == CopiesTo(targets - {w}, msg) + {Envelope(w, msg)};
    }
  }

  lemma BeginCopies(live: LiveGraph, sender: Id, dest: Id, id: string)
    requires WellFormed(live) && sender in live
    ensures CopiesIn(Begin(live, sender, dest, id).flying) == Started(live, sender, DEFAULT_TTL)
  {
    var flying := Begin(live, sender, dest, id).flying;
    assert Targets(live, sender, sender) == live[sender];
    forall c | c in Started(live, sender, DEFAULT_TTL) ensures c in CopiesIn(flying) {
      assert Envelope(c.to, Fresh(id, sender, dest)) in flying;
    }
  }

  lemma BeginInFlight(live: LiveGraph, sender: Id, dest: Id, id: string)
    requires WellFormed(live) && sender in live
    ensures AllInFlight(live, Begin(live, sender, dest, id), id)
  {
  }

  lemma BeginCounted(live: LiveGraph, sender: Id, dest: Id, id: string)
    requires WellFormed(live) && sender in live
    ensures Counted(live, Begin(live, sender, dest, id))
  {
    var f := Begin(live, sender, dest, id);
    CopiesToCount(Targets(live, sender, sender), Fresh(id, sender, dest));
    assert Targets(live, sender, sender) == live[sender];
    LinksOfOneMore(live, {}, sender);
    assert {} + {sender} == f.level.Keys;
  }

  lemma BeginInv(live: LiveGraph, sender: Id, dest: Id, id: string)
    requires WellFormed(live) && sender in live && sender != dest
    ensures Inv(live, Begin(live, sender, dest, id), id)
    ensures var f := Begin(live, sender, dest, id);
            f.dest == dest && f.level == map[sender := 0]
            && Covered(live, DEFAULT_TTL, {dest}, f.level, CopiesIn(f.flying))
  {
    hide Safe, Covered, AllInFlight, Counted;
    StartIsSafe(live, sender, DEFAULT_TTL, {dest});
    BeginCopies(live, sender, dest, id);
    BeginInFlight(live, sender, dest, id);
    BeginCounted(live, sender, dest, id);
  }

  // ------------------------------------------------------- one copy arrives

  /** `known` says what the duplicate cache says: whether the node is on a level. */
  ghost predicate Arrives(live: LiveGraph, known: bool, f: Flood, id: string, e: Envelope) {
    && WellFormed(live) && Inv(live, f, id) && e in f.flying && (known <==> e.to in f.level)
  }

  function AsCopy(e: Envelope): Copy {
    Copy(e.msg.via, e.to, e.msg.ttl)
  }

  /** The copies a node relays are the ones of the abstract flood. */
  lemma RelayedCopies(live: LiveGraph, known: bool, f: Flood, id: string, e: Envelope)
    requires Arrives(live, known, f, id, e)
    ensures (set x | x in NewCopies(live, known, e) :: AsCopy(x)) ==
            if known || e.to == f.dest then {} else FloodCore.PassedOn(live, AsCopy(e))
  {
    assert InFlight(live, f, id, e);
    hide Inv, InFlight, WellFormed;
    if known || e.to == f.dest || e.msg.ttl - 1 <= 0 {
      assert NewCopies(live, known, e) == {};
    } else {
      CopiesAreCopies(live, e);
    }
  }

  lemma CopiesAreCopies(live: LiveGraph, e: Envelope)
    requires e.msg.to != e.to && e.msg.ttl - 1 > 0
    ensures (set x | x in NewCopies(live, false, e) :: AsCopy(x)) == FloodCore.PassedOn(live, AsCopy(e))
  {
    var out, targets := NewCopies(live, false, e), Targets(live, e.to, e.msg.via);
    assert out == CopiesTo(targets, MessagePlane.PassedOn(e.to, e.msg));
    forall c | c in FloodCore.PassedOn(live, AsCopy(e)) ensures c in (set x | x in out :: AsCopy(x)) {
      assert c.to in targets;
      assert Envelope(c.to, MessagePlane.PassedOn(e.to, e.msg)) in out;
    }
  }

  lemma CopiesAfter(live: LiveGraph, known: bool, f: Flood, id: string, e: Envelope, now: Time)
    requires Arrives(live, known, f, id, e)
    ensures var before, after := CopiesIn(f.flying), CopiesIn(Handle(live, known, f, e, now).flying);
      var out := set x | x in NewCopies(live, known, e) :: AsCopy(x);
      && AsCopy(e) in before && before - {AsCopy(e)} <= after && out <= after && after <= before + out
  {
    var out := NewCopies(live, known, e);
    var flying := Handle(live, known, f, e, now).flying;
    forall x ensures x in flying ==> x in f.flying || x in out
             ensures x in out ==> x in flying
             ensures x in f.flying && x != e ==> x in flying
    {
      assert x in multiset(out) <==> x in out;
    }
  }

  lemma HandleKeepsSafe(live: LiveGraph, known: bool, f: Flood, id: string, e: Envelope, now: Time)
    requires Arrives(live, known, f, id, e)
    ensures var g := Handle(live, known, f, e, now);
      && Safe(live, g.sender, DEFAULT_TTL, g.level, CopiesIn(g.flying))
      && (Covered(live, DEFAULT_TTL, {f.dest}, f.level, CopiesIn(f.flying)) ==>
            Covered(live, DEFAULT_TTL, {f.dest}, g.level, CopiesIn(g.flying)))
  {
    hide Covered, AllInFlight, OnceDelivered, Counted, NewCopies, CopiesIn, FloodCore.PassedOn;
    CopiesAfter(live, known, f, id, e, now);
    RelayedCopies(live, known, f, id, e);
    var before, after := CopiesIn(f.flying), CopiesIn(Handle(live, known, f, e, now).flying);
    var c := AsCopy(e);
    assert c.via in f.level;
    if known {
      RepeatKeepsSafe(live, f.sender, DEFAULT_TTL, f.level, before, after);
      if Covered(live, DEFAULT_TTL, {f.dest}, f.level, before) {
        RepeatKeepsCovered(live, DEFAULT_TTL, {f.dest}, f.level, before, after, c);
      }
    } else {
      FirstKeepsSafe(live, f.sender, DEFAULT_TTL, f.level, before, after, c);
      if Covered(live, DEFAULT_TTL, {f.dest}, f.level, before) {
        FirstKeepsCovered(live, f.sender, DEFAULT_TTL, {f.dest}, f.level, before, after, c);
      }
    }
  }

  /** Levels already given never change. */
  lemma LevelsOnlyGrow(level: Levels, e: Envelope)
    ensures forall u :: u in level ==> u in LevelsAfter(level, e) && LevelsAfter(level, e)[u] == level[u]
  {
  }

  lemma TracedStays(live: LiveGraph, level: Levels, more: Levels, msg: Message)
    requires Traced(live, level, msg) && forall u :: u in level ==> u in more && more[u] == level[u]
    ensures Traced(live, more, msg)
  {
  }

  lemma RelayIsTraced(live: LiveGraph, f: Flood, id: string, e: Envelope)
    requires InFlight(live, f, id, e) && e.to !in f.level && e.msg.via in f.level
    ensures Traced(live, LevelsAfter(f.level, e), MessagePlane.PassedOn(e.to, e.msg))
  {
    var level, msg := LevelsAfter(f.level, e), MessagePlane.PassedOn(e.to, e.msg);
    var n := |e.msg.trace|;
    assert e.msg.trace[n - 1] == e.msg.via && f.level[e.msg.via] == n - 1;
    forall i | 0 < i < |msg.trace| ensures LiveStep(live, msg.trace, i) {
      if i < n { assert LiveStep(live, e.msg.trace, i); }
    }
  }

  lemma HandleKeepsInFlight(live: LiveGraph, known: bool, f: Flood, id: string, e: Envelope, now: Time)
    requires Arrives(live, known, f, id, e)
    ensures AllInFlight(live, Handle(live, known, f, e, now), id)
  {
    hide Safe, OnceDelivered, Counted, Traced;
    var g, out := Handle(live, known, f, e, now), NewCopies(live, known, e);
    LevelsOnlyGrow(f.level, e);
    assert InFlight(live, f, id, e);
    forall x | x in g.flying ensures InFlight(live, g, id, x) {
      assert x in multiset(out) <==> x in out;
      if x in f.flying {
        assert InFlight(live, f, id, x);
        TracedStays(live, f.level, g.level, x.msg);
      } else {
        ViaHandled(live, f, id, e);
        RelayIsTraced(live, f, id, e);
      }
    }
  }

  lemma ViaHandled(live: LiveGraph, f: Flood, id: string, e: Envelope)
    requires Inv(live, f, id) && e in f.flying
    ensures e.msg.via in f.level && e.msg.via in live && e.to in live[e.msg.via]
  {
    assert AsCopy(e) in CopiesIn(f.flying);
    assert InFlight(live, f, id, e);
  }

  lemma HandleKeepsOnce(live: LiveGraph, known: bool, f: Flood, id: string, e: Envelope, now: Time)
    requires Arrives(live, known, f, id, e)
    ensures OnceDelivered(live, Handle(live, known, f, e, now), id)
  {
    hide Safe, Counted, Traced;
    var g := Handle(live, known, f, e, now);
    LevelsOnlyGrow(f.level, e);
    ViaHandled(live, f, id, e);
    assert InFlight(live, f, id, e);
    forall i | 0 <= i < |g.delivered| ensures Delivery(live, g, id, g.delivered[i].e) {
      TracedStays(live, f.level, g.level, e.msg);
      if i < |f.delivered| {
        assert Delivery(live, f, id, f.delivered[i].e);
        TracedStays(live, f.level, g.level, f.delivered[i].e.msg);
      } else {
        TraceIsHandled(live, f.level, e.msg);
      }
    }
  }

  lemma TraceIsHandled(live: LiveGraph, level: Levels, msg: Message)
    requires Traced(live, level, msg)
    ensures forall x :: x in msg.trace ==> x in level
  {
  }

  lemma HandleKeepsCount(live: LiveGraph, known: bool, f: Flood, id: string, e: Envelope, now: Time)
    requires Arrives(live, known, f, id, e)
    ensures Counted(live, Handle(live, known, f, e, now))
  {
    hide Safe, Traced, OnceDelivered;
    ViaHandled(live, f, id, e);
    var g, targets := Handle(live, known, f, e, now), Targets(live, e.to, e.msg.via);
    assert live[e.msg.via] <= live.Keys;
    SubsetIsNoLarger(targets, live[e.to]);
    CopiesToCount(targets, MessagePlane.PassedOn(e.to, e.msg));
    if !known {
      LinksOfOneMore(live, f.level.Keys, e.to);
      assert g.level.Keys == f.level.Keys + {e.to};
    }
    assert |f.flying - multiset{e}| == |f.flying| - 1;
  }

  lemma HandleKeepsInv(live: LiveGraph, known: bool, f: Flood, id: string, e: Envelope, now: Time)
    requires Arrives(live, known, f, id, e)
    ensures Inv(live, Handle(live, known, f, e, now), id)
    ensures var g := Handle(live, known, f, e, now);
      && g.level.Keys == f.level.Keys + {e.to}
      && (Covered(live, DEFAULT_TTL, {f.dest}, f.level, CopiesIn(f.flying)) ==>
            Covered(live, DEFAULT_TTL, {g.dest}, g.level, CopiesIn(g.flying)))
  {
    HandleKeepsSafe(live, known, f, id, e, now);
    HandleKeepsInFlight(live, known, f, id, e, now);
    HandleKeepsOnce(live, known, f, id, e, now);
    HandleKeepsCount(live, known, f, id, e, now);
    ViaHandled(live, f, id, e);
    hide Safe, Covered, AllInFlight, OnceDelivered, Counted, CopiesIn;
  }

  lemma LoseKeepsOnce(live: LiveGraph, f: Flood, id: string, e: Envelope)
    requires OnceDelivered(live, f, id)
    ensures OnceDelivered(live, Lost(f, e), id)
  {
    var g := Lost(f, e);
    hide Traced;
    forall i | 0 <= i < |g.delivered| ensures Delivery(live, g, id, g.delivered[i].e) {
      assert Delivery(live, f, id, f.delivered[i].e);
    }
  }

  lemma LoseKeepsInFlight(live: LiveGraph, f: Flood, id: string, e: Envelope)
    requires AllInFlight(live, f, id) && e in f.flying
    ensures AllInFlight(live, Lost(f, e), id)
  {
    hide Traced;
    forall x | x in Lost(f, e).flying ensures InFlight(live, Lost(f, e), id, x) { assert InFlight(live, f, id, x); }
  }

  lemma LoseKeepsInv(live: LiveGraph, f: Flood, id: string, e: Envelope)
    requires Inv(live, f, id) && e in f.flying
    ensures Inv(live, Lost(f, e), id)
  {
    var g := Lost(f, e);
    LoseKeepsOnce(live, f, id, e);
    LoseKeepsInFlight(live, f, id, e);
    assert CopiesIn(g.flying) <= CopiesIn(f.flying);
    hide CopiesIn, AllInFlight, OnceDelivered;
    RepeatKeepsSafe(live, f.sender, DEFAULT_TTL, f.level, CopiesIn(f.flying), CopiesIn(g.flying));
    hide Safe;
    assert |f.flying - multiset{e}| == |f.flying| - 1;
  }

  // ------------------------------------- runs within the memory of a cache

  /** Every event falls into the `span` that begins at `start`. */
  ghost predicate InSpan(events: seq<Event>, start: Time, span: Time) {
    forall i :: 0 <= i < |events| ==> start <= events[i].now <= start + span
  }

  ghost predicate Young(seen: map<Id, Entries>, start: Time) {
    forall v, m :: Remembers(seen, v, m) ==> start <= seen[v][m]
  }

  /** As long as every entry is young, caches forget nothing. */
  lemma YoungCaches(seen: map<Id, Entries>, v: Id, id: string, now: Time, start: Time)
    requires Young(seen, start) && v in seen && id != "" && start <= now <= start + MESSAGE_SEEN_TTL
    ensures Answers(seen, v, id, now) <==> Remembers(seen, v, id)
    ensures Young(Remember(seen, v, id, now), start)
    ensures forall u, m :: Remembers(Remember(seen, v, id, now), u, m) <==> Remembers(seen, u, m) || (u == v && m == id)
  {
    forall m | m in seen[v] ensures start <= seen[v][m] { assert Remembers(seen, v, m); }
    LookRecords(seen[v], id, now, start, MESSAGE_SEEN_TTL);
    hide Look;
    var r := Remember(seen, v, id, now);
    forall u, m | Remembers(r, u, m) ensures start <= r[u][m] {
      if u != v || m in seen[v] { assert Remembers(seen, u, m); }
    }
  }

  /** The caches remember an id at exactly the nodes that have handled it. */
  ghost predicate NetInv(live: LiveGraph, net: Net, id: string, start: Time) {
    && net.seen.Keys == live.Keys && Young(net.seen, start) && "" !in net.floods
    && (if id in net.floods
        then Inv(live, net.floods[id], id)
             && forall v :: v in live ==> (Remembers(net.seen, v, id) <==> v in net.floods[id].level)
        else forall v :: v in live ==> !Remembers(net.seen, v, id))
  }

  ghost predicate NetCovered(live: LiveGraph, net: Net, id: string) {
    id in net.floods ==>
      var f := net.floods[id];
      Covered(live, DEFAULT_TTL, {f.dest}, f.level, CopiesIn(f.flying))
  }

  lemma SendKeepsInv(live: LiveGraph, net: Net, sender: Id, dest: Id, m: string, now: Time, id: string, start: Time)
    requires WellFormed(live) && NetInv(live, net, id, start) && Enabled(live, net, Send(sender, dest, m, now))
    requires start <= now <= start + MESSAGE_SEEN_TTL
    ensures NetInv(live, Apply(live, net, Send(sender, dest, m, now)), id, start)
    ensures NetCovered(live, net, id) ==> NetCovered(live, Apply(live, net, Send(sender, dest, m, now)), id)
  {
    hide Inv, Covered, Begin, CopiesIn, Remembers, Young, Answers;
    YoungCaches(net.seen, sender, m, now, start);
    if m == id { BeginInv(live, sender, dest, id); }
  }

  /** Where a copy goes is a node. */
  lemma GoesToNode(live: LiveGraph, f: Flood, id: string, e: Envelope)
    requires WellFormed(live) && Inv(live, f, id) && e in f.flying
    ensures e.to in live
  {
    ViaHandled(live, f, id, e);
    assert live[e.msg.via] <= live.Keys;
  }

  lemma DeliverKeepsInv(live: LiveGraph, net: Net, e: Envelope, now: Time, id: string, start: Time)
    requires WellFormed(live) && NetInv(live, net, id, start) && Enabled(live, net, Deliver(e, now))
    requires start <= now <= start + MESSAGE_SEEN_TTL
    ensures NetInv(live, Apply(live, net, Deliver(e, now)), id, start)
    ensures NetCovered(live, net, id) ==> NetCovered(live, Apply(live, net, Deliver(e, now)), id)
  {
    hide Inv, Covered, Handle, CopiesIn, Remembers, Young, Answers;
    if e.to in live { YoungCaches(net.seen, e.to, e.msg.id, now, start); }
    if e.msg.id == id {
      GoesToNode(live, net.floods[id], id, e);
      HandleKeepsInv(live, Answers(net.seen, e.to, id, now), net.floods[id], id, e, now);
    }
  }

  lemma LossKeepsInv(live: LiveGraph, net: Net, e: Envelope, now: Time, id: string, start: Time)
    requires WellFormed(live) && NetInv(live, net, id, start) && Enabled(live, net, Lose(e, now))
    ensures NetInv(live, Apply(live, net, Lose(e, now)), id, start)
  {
    hide Inv, Young, Remembers;
    if e.msg.id == id { LoseKeepsInv(live, net.floods[id], id, e); }
  }

  lemma ApplyKeepsInv(live: LiveGraph, net: Net, ev: Event, id: string, start: Time)
    requires WellFormed(live) && NetInv(live, net, id, start) && start <= ev.now <= start + MESSAGE_SEEN_TTL
    ensures NetInv(live, Apply(live, net, ev), id, start)
    ensures !ev.Lose? && NetCovered(live, net, id) ==> NetCovered(live, Apply(live, net, ev), id)
  {
    hide NetInv, NetCovered;
    if Enabled(live, net, ev) {
      match ev
      case Send(sender, dest, m, now) => SendKeepsInv(live, net, sender, dest, m, now, id, start);
      case Deliver(e, now) => DeliverKeepsInv(live, net, e, now, id, start);
      case Lose(e, now) => LossKeepsInv(live, net, e, now, id, start);
    }
  }

  ghost predicate Lossless(events: seq<Event>) {
    forall i :: 0 <= i < |events| ==> !events[i].Lose?
  }

  lemma {:induction false} RunKeepsInv(live: LiveGraph, events: seq<Event>, id: string, start: Time)
    requires WellFormed(live) && InSpan(events, start, MESSAGE_SEEN_TTL)
    ensures NetInv(live, After(live, events), id, start)
    ensures Lossless(events) ==> NetCovered(live, After(live, events), id)
  {
    hide Inv, Covered, Apply;
    if events != [] {
      RunKeepsInv(live, events[..|events| - 1], id, start);
      ApplyKeepsInv(live, After(live, events[..|events| - 1]), events[|events| - 1], id, start);
    }
  }

  /** `p` visits distinct nodes along live links from `s` to `d`. */
  ghost predicate SimplePath(live: LiveGraph, p: seq<Id>, s: Id, d: Id) {
    && p != [] && p[0] == s && p[|p| - 1] == d
    && (forall i :: 0 < i < |p| ==> LiveStep(live, p, i))
    && (forall i, j :: 0 <= i < j < |p| ==> p[i] != p[j])
  }

  /** Safety, with or without losses, within the memory of a cache: a message is
      delivered at most once, only at its destination, and the trace it carries
      then is a loop-free live path from the sender whose length accounts for the
      budget spent. */
  lemma DeliveredAtMostOnce(live: LiveGraph, events: seq<Event>, id: string, start: Time)
    requires WellFormed(live) && InSpan(events, start, MESSAGE_SEEN_TTL) && id in After(live, events).floods
    ensures var f := After(live, events).floods[id];
      && |f.delivered| <= 1
      && (forall i :: 0 <= i < |f.delivered| ==>
            var e := f.delivered[i].e;
            && e.to == f.dest == e.msg.to
            && e.msg.ttl + |e.msg.trace| == DEFAULT_TTL + 1
            && SimplePath(live, e.msg.trace + [f.dest], f.sender, f.dest))
  {
    RunKeepsInv(live, events, id, start);
    var f := After(live, events).floods[id];
    forall i | 0 <= i < |f.delivered|
      ensures SimplePath(live, f.delivered[i].e.msg.trace + [f.dest], f.sender, f.dest)
      ensures Delivery(live, f, id, f.delivered[i].e)
    {
      assert Delivery(live, f, id, f.delivered[i].e);
      DeliveryPath(live, f, id, f.delivered[i].e);
    }
  }

  lemma DeliveryPath(live: LiveGraph, f: Flood, id: string, e: Envelope)
    requires Inv(live, f, id) && Delivery(live, f, id, e)
    ensures SimplePath(live, e.msg.trace + [f.dest], f.sender, f.dest)
  {
    var p, n := e.msg.trace + [f.dest], |e.msg.trace|;
    assert e.msg.trace[0] in Within(live, f.sender, 0);
    assert forall i :: 0 <= i < n ==> p[i] == e.msg.trace[i];
    forall i | 0 < i < |p| ensures LiveStep(live, p, i) {
      if i < n { assert LiveStep(live, e.msg.trace, i); }
    }
    forall i, j | 0 <= i < j < |p| ensures p[i] != p[j] {
      if j < n { assert f.level[p[i]] == i && f.level[p[j]] == j; } else { assert p[i] in e.msg.trace; }
    }
  }

  /** Within the memory of a cache the flood ends: every copy sent is in flight or
      has been taken off a link, and no more copies are ever sent than there are
      live links. */
  lemma FloodEnds(live: LiveGraph, events: seq<Event>, id: string, start: Time)
    requires WellFormed(live) && InSpan(events, start, MESSAGE_SEEN_TTL) && id in After(live, events).floods
    ensures var f := After(live, events).floods[id];
      f.taken + |f.flying| == f.sends <= |LinksOf(live, live.Keys)|
  {
    hide After;
    RunKeepsInv(live, events, id, start);
    var f := After(live, events).floods[id];
    hide Safe, AllInFlight, OnceDelivered;
    assert f.level.Keys <= live.Keys by { HandledAreNodes(live, f, id); }
    SubsetIsNoLarger(LinksOf(live, f.level.Keys), LinksOf(live, live.Keys));
  }

  lemma HandledAreNodes(live: LiveGraph, f: Flood, id: string)
    requires Inv(live, f, id)
    ensures f.level.Keys <= live.Keys
  {
  }

  /** Liveness: on at most seventeen nodes, in every order of delivery without
      loss and within the memory of a cache, once no copy is in flight a
      destination that the live graph connects to the sender has received the
      message exactly once. */
  lemma ReachableDeliversOnce(live: LiveGraph, events: seq<Event>, id: string, start: Time)
    requires WellFormed(live) && |live.Keys| <= DEFAULT_TTL + 1 && Lossless(events)
    requires InSpan(events, start, MESSAGE_SEEN_TTL)
    requires id in After(live, events).floods && After(live, events).floods[id].flying == multiset{}
    requires var f := After(live, events).floods[id]; Reachable(live, {}, f.sender, f.dest)
    ensures |After(live, events).floods[id].delivered| == 1
  {
    hide After;
    RunKeepsInv(live, events, id, start);
    var f := After(live, events).floods[id];
    var p :| OpenPath(live, {}, p) && p[0] == f.sender && p[|p| - 1] == f.dest;
    CutAtSink(live, f.sender, f.dest, p);
    assert CopiesIn(f.flying) == {};
    QuietMeansReached(live, f.sender, DEFAULT_TTL, {f.dest}, f.level, f.dest);
  }
}
