/** What bounds the flood of a message: over every run the hop budget, and exactly
    how long and how far the stronger promises hold. */
module MessageLimits {
  import opened Ordering
  import opened MessagePlane
  import opened Packets
  import opened SeenCaches
  import opened FloodCore
  import opened FloodWeights
  import opened Sums
  import opened MessageFlood
  import opened MessageReplays
  import Lines

  type Net = MessageFlood.Net
  type Event = MessageFlood.Event
  type Envelope = MessageFlood.Envelope
  type Flood = MessageFlood.Flood

  // ------------------------------------------------ the weight of a flood

  ghost function Worth(live: LiveGraph, dest: Id): Envelope -> nat {
    e => Brood(live, {dest}, MessageFlood.AsCopy(e))
  }

  ghost function Weight(live: LiveGraph, f: Flood): nat {
    Sum(f.flying, Worth(live, f.dest))
  }

  /** As many copies as a message can ever cause: one for each way on from the
      sender that never turns straight back, stops at the destination, and is no
      longer than the hop budget. */
  ghost function MostSends(live: LiveGraph, sender: Id, dest: Id): nat {
    Most(live, {dest}, sender, DEFAULT_TTL)
  }

  /** Every copy in flight is one of this message, and none is lost from sight. */
  ghost predicate Addressed(f: Flood, id: string) {
    && (forall e :: e in f.flying ==> e.msg.id == id && e.msg.to == f.dest)
    && f.sends == f.taken + |f.flying|
  }

  lemma CopiesWorth(live: LiveGraph, dest: Id, v: Id, targets: set<Id>, msg: Message)
    requires msg.via == v
    ensures Sum(multiset(CopiesTo(targets, msg)), Worth(live, dest)) ==
            Sum(multiset(targets), Heir(live, {dest}, v, msg.ttl))
  {
    hide Brood;
    var g := (w: Id) => MessageFlood.Envelope(w, msg);
    SumImage(targets, g, CopiesTo(targets, msg), Worth(live, dest), Heir(live, {dest}, v, msg.ttl));
  }

  lemma BeginWeighs(live: LiveGraph, sender: Id, dest: Id, id: string)
    ensures var f := Begin(live, sender, dest, id);
      Addressed(f, id) && f.taken == 0 && Weight(live, f) == MostSends(live, sender, dest)
  {
    CopiesWorth(live, dest, sender, Targets(live, sender, sender), Fresh(id, sender, dest));
  }

  /** What a node sends on is worth one less than what it got, if it did not know
      the message, and nothing if it did. */
  lemma OutWeighs(live: LiveGraph, known: bool, e: Envelope)
    ensures var out, worth := Sum(multiset(NewCopies(live, known, e)), Worth(live, e.msg.to)), Worth(live, e.msg.to)(e);
      out + 1 <= worth && (!known ==> out + 1 == worth)
  {
    var targets, c := Targets(live, e.to, e.msg.via), MessageFlood.AsCopy(e);
    BroodIs(live, e.msg.to, c);
    hide Brood, Heir, React;
    if known || e.to == e.msg.to || e.msg.ttl <= 1 || targets == {} {
      NothingSent(live, known, e);
      var none: set<Id> := {};
      assert multiset(none) == multiset{};
    } else {
      SomethingSent(live, e);
      CopiesWorth(live, e.msg.to, e.to, targets, MessagePlane.PassedOn(e.to, e.msg));
    }
  }

  lemma BroodIs(live: LiveGraph, dest: Id, c: Copy)
    ensures Brood(live, {dest}, c) >= 1
    ensures c.ttl <= 1 || c.to == dest ==> Brood(live, {dest}, c) == 1
    ensures c.ttl > 1 && c.to != dest ==>
      Brood(live, {dest}, c) == 1 + Sum(multiset(Targets(live, c.to, c.via)), Heir(live, {dest}, c.to, c.ttl - 1))
  {
    assert Targets(live, c.to, c.via) == Onward(live, c.to, c.via);
  }

  lemma SomethingSent(live: LiveGraph, e: Envelope)
    requires e.to != e.msg.to && e.msg.ttl > 1 && Targets(live, e.to, e.msg.via) != {}
    ensures NewCopies(live, false, e) == CopiesTo(Targets(live, e.to, e.msg.via), MessagePlane.PassedOn(e.to, e.msg))
  {
  }

  lemma NothingSent(live: LiveGraph, known: bool, e: Envelope)
    requires known || e.to == e.msg.to || e.msg.ttl <= 1 || Targets(live, e.to, e.msg.via) == {}
    ensures multiset(NewCopies(live, known, e)) == multiset{}
  {
  }

  lemma HandleWeighs(live: LiveGraph, known: bool, f: Flood, id: string, e: Envelope, now: Time)
    requires Addressed(f, id) && e in f.flying
    ensures var g := Handle(live, known, f, e, now);
      && Addressed(g, id) && g.sender == f.sender && g.dest == f.dest && g.taken == f.taken + 1
      && Weight(live, g) < Weight(live, f) && (!known ==> Weight(live, g) + 1 == Weight(live, f))
  {
    hide NewCopies, Worth, Reaction1;
    var g, out := Handle(live, known, f, e, now), NewCopies(live, known, e);
    OutWeighs(live, known, e);
    SumExchange(f.flying, e, multiset(out), Worth(live, f.dest));
    forall x | x in g.flying ensures x.msg.id == id && x.msg.to == f.dest {
      assert x in multiset(out) <==> x in out;
      if x in out { CopySays(live, known, e, x); }
    }
    assert |f.flying - multiset{e} + multiset(out)| == |f.flying| - 1 + |out|;
  }

  lemma CopySays(live: LiveGraph, known: bool, e: Envelope, x: Envelope)
    requires x in NewCopies(live, known, e)
    ensures x.msg.id == e.msg.id && x.msg.to == e.msg.to
  {
  }

  lemma LossWeighs(live: LiveGraph, f: Flood, id: string, e: Envelope)
    requires Addressed(f, id) && e in f.flying
    ensures Addressed(Lost(f, e), id) && Weight(live, Lost(f, e)) < Weight(live, f)
  {
    SumOne(f.flying, Worth(live, f.dest), e);
    assert |f.flying - multiset{e}| == |f.flying| - 1;
  }

  // -------------------------------------------------------- over every run

  ghost predicate Limited(live: LiveGraph, net: Net, id: string) {
    id in net.floods ==>
      var f := net.floods[id];
      Addressed(f, id) && f.taken + Weight(live, f) <= MostSends(live, f.sender, f.dest)
  }

  lemma ApplyKeepsLimit(live: LiveGraph, net: Net, ev: Event, id: string)
    requires Limited(live, net, id)
    ensures Limited(live, MessageFlood.Apply(live, net, ev), id)
  {
    hide Weight, MostSends, Addressed, Handle, Begin, Lost, Answers, Remember;
    if MessageFlood.Enabled(live, net, ev) {
      match ev
      case Send(sender, dest, m, now) => if m == id { BeginLimited(live, sender, dest, id); }
      case Deliver(e, now) =>
        if e.msg.id == id {
          HandleWeighs(live, Answers(net.seen, e.to, id, now), net.floods[id], id, e, now);
        }
      case Lose(e, now) => if e.msg.id == id { LossLimited(live, net.floods[id], id, e); }
    }
  }

  lemma BeginLimited(live: LiveGraph, sender: Id, dest: Id, id: string)
    ensures var f := Begin(live, sender, dest, id);
      Addressed(f, id) && f.taken + Weight(live, f) <= MostSends(live, f.sender, f.dest)
  {
    BeginWeighs(live, sender, dest, id);
    hide Weight, MostSends, Addressed, Targets;
  }

  lemma LossLimited(live: LiveGraph, f: Flood, id: string, e: Envelope)
    requires Addressed(f, id) && e in f.flying && f.taken + Weight(live, f) <= MostSends(live, f.sender, f.dest)
    ensures var g := Lost(f, e);
      Addressed(g, id) && g.taken + Weight(live, g) <= MostSends(live, g.sender, g.dest)
  {
    LossWeighs(live, f, id, e);
    hide Weight, MostSends, Addressed;
  }

  lemma {:induction false} RunIsLimited(live: LiveGraph, events: seq<Event>, id: string)
    ensures Limited(live, MessageFlood.After(live, events), id)
  {
    hide MessageFlood.Apply, Limited;
    if events == [] {
      assert Limited(live, Silent(live), id) by { SilentIsLimited(live, id); }
    } else {
      RunIsLimited(live, events[..|events| - 1], id);
      ApplyKeepsLimit(live, MessageFlood.After(live, events[..|events| - 1]), events[|events| - 1], id);
    }
  }

  lemma SilentIsLimited(live: LiveGraph, id: string)
    ensures Limited(live, Silent(live), id)
  {
  }

  /** Every flood ends, with no word about clocks, caches or losses: a copy sent is
      in flight or has been taken off its link, and what is still in flight can
      cause no more than what is left of a bound fixed at the start. */
  lemma EveryFloodEnds(live: LiveGraph, events: seq<Event>, id: string)
    requires id in MessageFlood.After(live, events).floods
    ensures var f := MessageFlood.After(live, events).floods[id];
      && f.sends == f.taken + |f.flying|
      && f.taken + Weight(live, f) <= MostSends(live, f.sender, f.dest)
      && f.sends <= MostSends(live, f.sender, f.dest)
  {
    RunIsLimited(live, events, id);
    var f := MessageFlood.After(live, events).floods[id];
    SumAtLeastSize(f.flying, Worth(live, f.dest));
  }

  /** In numbers: on a network of degree `d`, `d` plus `d` squared and so on, up to
      the sixteenth power. */
  lemma SendsInNumbers(live: LiveGraph, events: seq<Event>, id: string, d: nat)
    requires id in MessageFlood.After(live, events).floods && Degree(live, d)
    ensures MessageFlood.After(live, events).floods[id].sends <= d * Powers(d, DEFAULT_TTL)
  {
    hide MessageFlood.After;
    EveryFloodEnds(live, events, id);
    var f := MessageFlood.After(live, events).floods[id];
    MostBound(live, {f.dest}, f.sender, DEFAULT_TTL, d);
  }

  // ------------------------------------------- delivering all that is left

  /** No cache remembers `id` from later than `clock`. */
  ghost predicate NoneAfter(seen: map<Id, Entries>, id: string, clock: Time) {
    forall v :: Remembers(seen, v, id) ==> seen[v][id] <= clock
  }

  /** Deliveries one `gap` after the other. */
  ghost predicate Paced(more: seq<Event>, clock: Time, gap: Time) {
    && (forall i :: 0 <= i < |more| ==>
          more[i].Deliver? && more[i].now >= clock + gap && (gap == 0 ==> more[i].now == clock))
    && (forall i, j :: 0 <= i < j < |more| ==> more[i].now <= more[j].now)
  }

  lemma PacedFirst(more: seq<Event>, e: Envelope, clock: Time, gap: Time)
    requires gap >= 0 && Paced(more, clock + gap, gap)
    ensures Paced([Deliver(e, clock + gap)] + more, clock, gap)
  {
  }

  /** What holds of the flood of `id` while its copies are being delivered. */
  ghost predicate Draining(net: Net, id: string, clock: Time) {
    id != "" && id in net.floods && Addressed(net.floods[id], id) && NoneAfter(net.seen, id, clock)
  }

  /** A cache asked about `id` remembers it from no later than now, and does not
      know it if all it knew is forgotten. */
  lemma AskedOnce(seen: map<Id, Entries>, id: string, v: Id, clock: Time, gap: Time)
    requires NoneAfter(seen, id, clock) && gap >= 0
    ensures NoneAfter(Remember(seen, v, id, clock + gap), id, clock + gap)
    ensures gap > MESSAGE_SEEN_TTL ==> !Answers(seen, v, id, clock + gap)
  {
    forall u | u in seen && id in seen[u] ensures seen[u][id] <= clock { assert Remembers(seen, u, id); }
  }

  /** One delivery takes exactly one off what is left of the flood if the node has
      forgotten the message, and at least one if not. */
  ghost predicate OneLess(live: LiveGraph, f: Flood, g: Flood, forgot: bool) {
    && g.sender == f.sender && g.dest == f.dest && g.taken == f.taken + 1
    && Weight(live, g) < Weight(live, f) && (forgot ==> Weight(live, g) + 1 == Weight(live, f))
  }

  lemma DrainStep(live: LiveGraph, net: Net, id: string, e: Envelope, clock: Time, gap: Time)
    requires Draining(net, id, clock) && e in net.floods[id].flying && gap >= 0
    ensures var r := MessageFlood.Apply(live, net, Deliver(e, clock + gap));
      Draining(r, id, clock + gap) && OneLess(live, net.floods[id], r.floods[id], gap > MESSAGE_SEEN_TTL)
  {
    hide Handle, Weight, Addressed, Answers, Remember, NoneAfter;
    var now := clock + gap;
    EnvelopeIsOf(net.floods[id], id, e);
    AskedOnce(net.seen, id, e.to, clock, gap);
    HandleWeighs(live, Answers(net.seen, e.to, id, now), net.floods[id], id, e, now);
  }

  lemma EnvelopeIsOf(f: Flood, id: string, e: Envelope)
    requires Addressed(f, id) && e in f.flying
    ensures e.msg.id == id
  {
  }

  /** Delivering what is in flight ends; and if every copy comes after all caches
      have forgotten, each causes all it could. */
  lemma {:induction false} Drain(live: LiveGraph, events: seq<Event>, id: string, clock: Time, gap: Time)
    returns (more: seq<Event>)
    requires Draining(MessageFlood.After(live, events), id, clock) && gap >= 0
    ensures Paced(more, clock, gap) && id in MessageFlood.After(live, events + more).floods
    ensures var f, g := MessageFlood.After(live, events).floods[id], MessageFlood.After(live, events + more).floods[id];
      && g.flying == multiset{} && Addressed(g, id) && g.sender == f.sender && g.dest == f.dest
      && (gap > MESSAGE_SEEN_TTL ==> g.taken == f.taken + Weight(live, f))
    decreases Weight(live, MessageFlood.After(live, events).floods[id])
  {
    hide MessageFlood.Apply, Addressed, NoneAfter;
    var net := MessageFlood.After(live, events);
    more := [];
    assert events + more == events;
    if e :| e in net.floods[id].flying {
      var ev := Deliver(e, clock + gap);
      DrainStep(live, net, id, e, clock, gap);
      assert (events + [ev])[..|events|] == events;
      more := Drain(live, events + [ev], id, clock + gap, gap);
      PacedFirst(more, e, clock, gap);
      assert events + [ev] + more == events + ([ev] + more);
      more := [ev] + more;
    }
  }

  /** One message, and then only deliveries until nothing is in flight. */
  lemma SendAndDrain(live: LiveGraph, sender: Id, dest: Id, gap: Time) returns (events: seq<Event>)
    requires sender in live && sender != dest && gap >= 0
    ensures MessageReplays.ClockRuns(events) && Lossless(events) && (gap == 0 ==> forall span: Time :: span >= 0 ==> InSpan(events, 0, span))
    ensures "m" in MessageFlood.After(live, events).floods
    ensures var f := MessageFlood.After(live, events).floods["m"];
      && f.flying == multiset{} && f.sender == sender && f.dest == dest
      && (gap > MESSAGE_SEEN_TTL ==> f.sends == MostSends(live, sender, dest))
  {
    var first := [Send(sender, dest, "m", 0)];
    AfterSend(live, sender, dest);
    BeginWeighs(live, sender, dest, "m");
    hide MessageFlood.Apply, MessageFlood.After, Weight, MostSends, Addressed, Paced, Lossless, InSpan, MessageReplays.ClockRuns;
    var more := Drain(live, first, "m", 0, gap);
    events := first + more;
    hide Begin;
    PacedRuns(first, more, gap);
    NoneLost(MessageFlood.After(live, events).floods["m"], "m");
  }

  lemma NoneLost(f: Flood, id: string)
    requires Addressed(f, id)
    ensures f.sends == f.taken + |f.flying|
  {
  }

  lemma PacedRuns(first: seq<Event>, more: seq<Event>, gap: Time)
    requires |first| == 1 && !first[0].Lose? && first[0].now == 0 && gap >= 0 && Paced(more, 0, gap)
    ensures MessageReplays.ClockRuns(first + more) && Lossless(first + more)
    ensures gap == 0 ==> forall span: Time :: span >= 0 ==> InSpan(first + more, 0, span)
  {
  }

  lemma AfterSend(live: LiveGraph, sender: Id, dest: Id)
    requires sender in live && sender != dest
    ensures var net := MessageFlood.After(live, [Send(sender, dest, "m", 0)]);
      Draining(net, "m", 0) && net.floods["m"] == Begin(live, sender, dest, "m")
  {
    var first := [Send(sender, dest, "m", 0)];
    BeginWeighs(live, sender, dest, "m");
    hide MessageFlood.Begin, Addressed;
    assert first[..|first| - 1] == [];
    assert MessageFlood.After(live, first) == MessageFlood.Apply(live, Silent(live), first[0]);
  }

  /** The bound is the least there is: whoever sends to whomever, some run without
      loss makes the nodes send exactly that many copies. */
  lemma MostSendsIsAttained(live: LiveGraph, sender: Id, dest: Id) returns (events: seq<Event>)
    requires sender in live && sender != dest
    ensures MessageReplays.ClockRuns(events) && Lossless(events) && "m" in MessageFlood.After(live, events).floods
    ensures var f := MessageFlood.After(live, events).floods["m"];
      f.sender == sender && f.dest == dest && f.sends == MostSends(live, sender, dest)
  {
    events := SendAndDrain(live, sender, dest, MESSAGE_SEEN_TTL + 1);
  }

  // ------------------------------- how long the bound by live links holds

  /** A message to nobody, round a triangle: both ways round are taken at once as
      far as the link between `b` and `c`, and further at `late`. */
  function RoundTrips(a: Id, b: Id, c: Id, dest: Id, late: Time): seq<Event> {
    var msg := Fresh("m", a, dest);
    var overB, overC := MessagePlane.PassedOn(b, msg), MessagePlane.PassedOn(c, msg);
    [Send(a, dest, "m", 0),
     Deliver(MessageFlood.Envelope(b, msg), 0), Deliver(MessageFlood.Envelope(c, msg), 0),
     Deliver(MessageFlood.Envelope(c, overB), late), Deliver(MessageFlood.Envelope(b, overC), late),
     Deliver(MessageFlood.Envelope(a, MessagePlane.PassedOn(c, overB)), late)]
  }

  /** A flood that has put `sends` copies on links, of which at least those in
      `some` are still there. */
  ghost predicate Flows(net: Net, dest: Id, some: multiset<Envelope>, sends: nat) {
    "m" in net.floods && net.floods["m"].dest == dest && some <= net.floods["m"].flying && net.floods["m"].sends == sends
  }

  /** One node passes a copy on to its one other neighbour. */
  lemma Turn(live: LiveGraph, net: Net, e: Envelope, w: Id, dest: Id, some: multiset<Envelope>, sends: nat, now: Time)
    requires Flows(net, dest, some, sends) && e in some
    requires e.msg.id == "m" && e.msg.to != e.to && e.msg.ttl > 1 && Targets(live, e.to, e.msg.via) == {w}
    requires !Answers(net.seen, e.to, "m", now)
    ensures var r := MessageFlood.Apply(live, net, Deliver(e, now));
      && Flows(r, dest, some - multiset{e} + multiset{MessageFlood.Envelope(w, MessagePlane.PassedOn(e.to, e.msg))}, sends + 1)
      && r.seen == Remember(net.seen, e.to, "m", now)
  {
    hide Answers, Remember;
    var x := MessageFlood.Envelope(w, MessagePlane.PassedOn(e.to, e.msg));
    assert NewCopies(live, false, e) == {x} by { assert CopiesTo({w}, x.msg) == {x}; }
    assert multiset({x}) == multiset{x};
  }

  /** What `v` remembers of the message dates from the beginning. */
  ghost predicate FromStart(seen: map<Id, Entries>, v: Id) {
    Remembers(seen, v, "m") ==> seen[v]["m"] <= 0
  }

  lemma RememberOne(seen: map<Id, Entries>, v: Id, now: Time)
    ensures forall u :: u != v ==>
      && (Remembers(Remember(seen, v, "m", now), u, "m") <==> Remembers(seen, u, "m"))
      && (FromStart(seen, u) ==> FromStart(Remember(seen, v, "m", now), u))
    ensures now == 0 && FromStart(seen, v) ==> FromStart(Remember(seen, v, "m", now), v)
    ensures !Remembers(seen, v, "m") ==> !Answers(seen, v, "m", now)
    ensures now > MESSAGE_SEEN_TTL && FromStart(seen, v) ==> !Answers(seen, v, "m", now)
  {
  }

  /** `Turn` at the end of a run. */
  lemma TurnNext(live: LiveGraph, events: seq<Event>, e: Envelope, w: Id, dest: Id, some: multiset<Envelope>, sends: nat, now: Time)
    requires Flows(MessageFlood.After(live, events), dest, some, sends) && e in some
    requires e.msg.id == "m" && e.msg.to != e.to && e.msg.ttl > 1 && Targets(live, e.to, e.msg.via) == {w}
    requires var seen := MessageFlood.After(live, events).seen;
      !Remembers(seen, e.to, "m") || (now > MESSAGE_SEEN_TTL && FromStart(seen, e.to))
    ensures var seen, r := MessageFlood.After(live, events).seen, MessageFlood.After(live, events + [Deliver(e, now)]);
      && Flows(r, dest, some - multiset{e} + multiset{MessageFlood.Envelope(w, MessagePlane.PassedOn(e.to, e.msg))}, sends + 1)
      && (forall u :: u != e.to ==>
            (Remembers(r.seen, u, "m") <==> Remembers(seen, u, "m")) && (FromStart(seen, u) ==> FromStart(r.seen, u)))
      && (now == 0 && FromStart(seen, e.to) ==> FromStart(r.seen, e.to))
  {
    var net := MessageFlood.After(live, events);
    RememberOne(net.seen, e.to, now);
    hide MessageFlood.Apply, Answers, Remember, Remembers, FromStart;
    Turn(live, net, e, w, dest, some, sends, now);
    assert (events + [Deliver(e, now)])[..|events|] == events;
  }

  lemma RoundTripsStart(a: Id, b: Id, c: Id, dest: Id)
    requires a != b && a != c && b != c && dest != a
    ensures var live, msg := Corner(a, b, c), Fresh("m", a, dest);
      var net := MessageFlood.After(live, [Send(a, dest, "m", 0)]);
      && Flows(net, dest, multiset{MessageFlood.Envelope(b, msg), MessageFlood.Envelope(c, msg)}, 2)
      && FromStart(net.seen, a) && !Remembers(net.seen, b, "m") && !Remembers(net.seen, c, "m")
  {
    var live, msg := Corner(a, b, c), Fresh("m", a, dest);
    AfterSend(live, a, dest);
    assert Targets(live, a, a) == {b, c};
    var out := {MessageFlood.Envelope(b, msg), MessageFlood.Envelope(c, msg)};
    assert CopiesTo({b, c}, msg) == out;
    assert multiset(out) == multiset{MessageFlood.Envelope(b, msg), MessageFlood.Envelope(c, msg)};
    var first := [Send(a, dest, "m", 0)];
    assert first[..|first| - 1] == [];
    RememberOne(Silent(live).seen, a, 0);
  }

  lemma Exchanged(x: Envelope, y: Envelope, z: Envelope)
    ensures multiset{x, y} - multiset{x} + multiset{z} == multiset{y, z}
  {
  }

  lemma RoundTripsSteps(a: Id, b: Id, c: Id, dest: Id, late: Time)
    ensures var msg := Fresh("m", a, dest);
      var overB, overC := MessagePlane.PassedOn(b, msg), MessagePlane.PassedOn(c, msg);
      var half := RoundTrips(a, b, c, dest, 0)[..3];
      && half == [Send(a, dest, "m", 0)] + [Deliver(MessageFlood.Envelope(b, msg), 0)] + [Deliver(MessageFlood.Envelope(c, msg), 0)]
      && RoundTrips(a, b, c, dest, late)[..5] ==
           half + [Deliver(MessageFlood.Envelope(c, overB), late)] + [Deliver(MessageFlood.Envelope(b, overC), late)]
      && RoundTrips(a, b, c, dest, late) ==
           RoundTrips(a, b, c, dest, late)[..5] + [Deliver(MessageFlood.Envelope(a, MessagePlane.PassedOn(c, overB)), late)]
  {
  }

  lemma HalfWayRound(a: Id, b: Id, c: Id, dest: Id)
    requires a != b && a != c && b != c && dest !in {a, b, c}
    ensures var live, msg := Corner(a, b, c), Fresh("m", a, dest);
      var net := MessageFlood.After(live, RoundTrips(a, b, c, dest, 0)[..3]);
      && Flows(net, dest, multiset{MessageFlood.Envelope(c, MessagePlane.PassedOn(b, msg)),
                                   MessageFlood.Envelope(b, MessagePlane.PassedOn(c, msg))}, 4)
      && FromStart(net.seen, a) && FromStart(net.seen, b) && FromStart(net.seen, c)
  {
    var live, msg := Corner(a, b, c), Fresh("m", a, dest);
    var ab, ac := MessageFlood.Envelope(b, msg), MessageFlood.Envelope(c, msg);
    var bc, cb := MessageFlood.Envelope(c, MessagePlane.PassedOn(b, msg)), MessageFlood.Envelope(b, MessagePlane.PassedOn(c, msg));
    var first := [Send(a, dest, "m", 0)];
    RoundTripsStart(a, b, c, dest);
    assert Targets(live, b, a) == {c} && Targets(live, c, a) == {b};
    NotYet(MessageFlood.After(live, first).seen, b);
    NotYet(MessageFlood.After(live, first).seen, c);
    hide MessageFlood.After, Flows, FromStart, Remembers, Targets, Corner, RoundTrips;
    TurnNext(live, first, ab, c, dest, multiset{ab, ac}, 2, 0);
    Exchanged(ab, ac, bc);
    TurnNext(live, first + [Deliver(ab, 0)], ac, b, dest, multiset{ac, bc}, 3, 0);
    Exchanged(ac, bc, cb);
    assert RoundTrips(a, b, c, dest, 0)[..3] == first + [Deliver(ab, 0)] + [Deliver(ac, 0)] by { RoundTripsSteps(a, b, c, dest, 0); }
  }

  lemma NotYet(seen: map<Id, Entries>, v: Id)
    requires !Remembers(seen, v, "m")
    ensures FromStart(seen, v)
  {
  }

  lemma NearlyRound(a: Id, b: Id, c: Id, dest: Id, late: Time)
    requires a != b && a != c && b != c && dest !in {a, b, c} && late > MESSAGE_SEEN_TTL
    ensures var live, msg := Corner(a, b, c), Fresh("m", a, dest);
      var overB, overC := MessagePlane.PassedOn(b, msg), MessagePlane.PassedOn(c, msg);
      var net := MessageFlood.After(live, RoundTrips(a, b, c, dest, late)[..5]);
      && Flows(net, dest, multiset{MessageFlood.Envelope(a, MessagePlane.PassedOn(c, overB)),
                                   MessageFlood.Envelope(a, MessagePlane.PassedOn(b, overC))}, 6)
      && FromStart(net.seen, a)
  {
    var live, msg := Corner(a, b, c), Fresh("m", a, dest);
    var overB, overC := MessagePlane.PassedOn(b, msg), MessagePlane.PassedOn(c, msg);
    var bc, cb, ca := MessageFlood.Envelope(c, overB), MessageFlood.Envelope(b, overC), MessageFlood.Envelope(a, MessagePlane.PassedOn(c, overB));
    var ba := MessageFlood.Envelope(a, MessagePlane.PassedOn(b, overC));
    var half := RoundTrips(a, b, c, dest, 0)[..3];
    HalfWayRound(a, b, c, dest);
    RoundTripsSteps(a, b, c, dest, late);
    assert Targets(live, c, b) == {a} && Targets(live, b, c) == {a};
    hide MessageFlood.After, Flows, FromStart, Remembers, Targets, Corner, RoundTrips;
    TurnNext(live, half, bc, a, dest, multiset{bc, cb}, 4, late);
    Exchanged(bc, cb, ca);
    TurnNext(live, half + [Deliver(bc, late)], cb, a, dest, multiset{cb, ca}, 5, late);
    Exchanged(cb, ca, ba);
  }

  /** Six links, seven sends. */
  lemma RoundTripsOverrun(a: Id, b: Id, c: Id, dest: Id, late: Time)
    requires a != b && a != c && b != c && dest !in {a, b, c} && late > MESSAGE_SEEN_TTL
    ensures var net := MessageFlood.After(Corner(a, b, c), RoundTrips(a, b, c, dest, late));
      "m" in net.floods && net.floods["m"].sends == 7
  {
    var live, msg := Corner(a, b, c), Fresh("m", a, dest);
    var ca := MessageFlood.Envelope(a, MessagePlane.PassedOn(c, MessagePlane.PassedOn(b, msg)));
    var ba := MessageFlood.Envelope(a, MessagePlane.PassedOn(b, MessagePlane.PassedOn(c, msg)));
    var es := RoundTrips(a, b, c, dest, late);
    NearlyRound(a, b, c, dest, late);
    RoundTripsSteps(a, b, c, dest, late);
    assert Targets(live, a, c) == {b};
    hide MessageFlood.After, Flows, FromStart, Remembers, Targets, Corner, RoundTrips;
    TurnNext(live, es[..5], ca, b, dest, multiset{ca, ba}, 6, late);
    var ab := MessageFlood.Envelope(b, MessagePlane.PassedOn(a, ca.msg));
    FlowsSends(MessageFlood.After(live, es), dest, multiset{ca, ba} - multiset{ca} + multiset{ab}, 7);
  }

  lemma FlowsSends(net: Net, dest: Id, some: multiset<Envelope>, sends: nat)
    requires Flows(net, dest, some, sends)
    ensures "m" in net.floods && net.floods["m"].sends == sends
  {
  }

  /** In runs that last no longer than `span` no message is sent on more often than
      there are live links. */
  ghost predicate SendsWithinLinks(span: Time) {
    forall live: LiveGraph, events, id, start ::
      WellFormed(live) && InSpan(events, start, span) && id in MessageFlood.After(live, events).floods ==>
        MessageFlood.After(live, events).floods[id].sends <= |LinksOf(live, live.Keys)|
  }

  lemma CornerLinks(a: Id, b: Id, c: Id)
    requires a != b && a != c && b != c
    ensures WellFormed(Corner(a, b, c)) && |LinksOf(Corner(a, b, c), Corner(a, b, c).Keys)| == 6
  {
    assert LinksOf(Corner(a, b, c), Corner(a, b, c).Keys) == {(a, b), (a, c), (b, a), (b, c), (c, a), (c, b)};
  }

  /** Exactly how long the number of live links bounds a flood: as long as a cache
      remembers. */
  lemma LinksBoundIffWithinMemory(span: Time)
    ensures SendsWithinLinks(span) <==> span <= MESSAGE_SEEN_TTL
  {
    hide MessageFlood.After;
    if span <= MESSAGE_SEEN_TTL {
      forall live, events, id, start |
        WellFormed(live) && InSpan(events, start, span) && id in MessageFlood.After(live, events).floods
        ensures MessageFlood.After(live, events).floods[id].sends <= |LinksOf(live, live.Keys)|
      {
        FloodEnds(live, events, id, start);
      }
    } else {
      var a, b, c, dest := "a", "b", "c", "d";
      assert a[0] != b[0] && a[0] != c[0] && b[0] != c[0] && dest[0] != a[0] && dest[0] != b[0] && dest[0] != c[0];
      RoundTripsOverrun(a, b, c, dest, span);
      CornerLinks(a, b, c);
      assert InSpan(RoundTrips(a, b, c, dest, span), 0, span);
    }
  }

  // ------------------------------- how long and how far exactly-once holds

  /** A run without loss after which a message that could reach its destination is
      no longer in flight. */
  ghost predicate RanOut(live: LiveGraph, events: seq<Event>, id: string) {
    && WellFormed(live) && Lossless(events) && id in MessageFlood.After(live, events).floods
    && MessageFlood.After(live, events).floods[id].flying == multiset{}
    && var f := MessageFlood.After(live, events).floods[id]; Reachable(live, {}, f.sender, f.dest)
  }

  /** On at most `nodes` nodes and in runs of at most `span` every message that can
      arrive does so exactly once. */
  ghost predicate ExactlyOnce(nodes: nat, span: Time) {
    forall live: LiveGraph, events, id, start ::
      |live.Keys| <= nodes && InSpan(events, start, span) && RanOut(live, events, id) ==>
        |MessageFlood.After(live, events).floods[id].delivered| == 1
  }

  /** Exactly how far and how long exactly-once holds: on one node more than the
      hop budget has units, and as long as a cache remembers. */
  lemma ExactlyOnceIff(nodes: nat, span: Time)
    requires nodes >= 3 && span >= 0
    ensures ExactlyOnce(nodes, span) <==> nodes <= DEFAULT_TTL + 1 && span <= MESSAGE_SEEN_TTL
  {
    hide MessageFlood.After;
    if span > MESSAGE_SEEN_TTL {
      LateTwice(nodes, span);
    } else if nodes > DEFAULT_TTL + 1 {
      TooFar(nodes, span);
    } else {
      forall live: LiveGraph, events, id, start | |live.Keys| <= nodes && InSpan(events, start, span) && RanOut(live, events, id)
        ensures |MessageFlood.After(live, events).floods[id].delivered| == 1
      {
        ReachableDeliversOnce(live, events, id, start);
      }
    }
  }

  lemma LateTwice(nodes: nat, span: Time)
    requires nodes >= 3 && span > MESSAGE_SEEN_TTL
    ensures !ExactlyOnce(nodes, span)
  {
    hide MessageFlood.After;
    var s, d, r := "s", "d", "r";
    assert s[0] != d[0] && s[0] != r[0] && d[0] != r[0];
    var live, events := Corner(s, d, r), LateCopy(s, d, r, span);
    LateCopyDeliversTwice(s, d, r, span);
    CornerLinks(s, d, r);
    assert live.Keys == {s, d, r} && InSpan(events, 0, span) && Lossless(events);
    LateCopyEnds(s, d, r, span);
    assert OpenPath(live, {}, [s]);
    Lines.OneLinkMore(live, [s], d);
    assert RanOut(live, events, "m");
  }

  lemma LateCopyEnds(s: Id, d: Id, r: Id, late: Time)
    requires s != d && s != r && d != r && "m" in MessageFlood.After(Corner(s, d, r), LateCopy(s, d, r, late)).floods
    ensures var f := MessageFlood.After(Corner(s, d, r), LateCopy(s, d, r, late)).floods["m"]; f.sender == s && f.dest == d
  {
    LateCopyUnfolds(s, d, r, late);
  }

  lemma TooFar(nodes: nat, span: Time)
    requires nodes > DEFAULT_TTL + 1 && span >= 0
    ensures !ExactlyOnce(nodes, span)
  {
    hide MessageFlood.After, ClockRuns, Lossless, InSpan;
    var live, s, d := Lines.Line(nodes), Lines.Stop(0), Lines.Stop(nodes - 1);
    Lines.EndOfLine(nodes, DEFAULT_TTL);
    hide Lines.Line, Lines.Stop;
    var events := SendAndDrain(live, s, d, 0);
    MessageReplays.NeverBeyondBudget(live, events, "m");
    assert RanOut(live, events, "m") && InSpan(events, 0, span);
  }
}
