/** What ends the flood of an announcement, whatever is lost, forgotten or expires:
    the hop budget; and what it can cost at most. */
module LinkStateLimits {
  import opened Options
  import opened Ordering
  import opened SeenCaches
  import opened LinkState
  import opened FloodCore
  import opened FloodWeights
  import opened Sums
  import opened LinkStateFlood
  import opened LinkStateRuns

  type Net = LinkStateFlood.Net
  type Event = LinkStateFlood.Event

  // ------------------------------------------------ the weight of a flood

  ghost function Worth(live: LiveGraph, origin: Id): Envelope -> nat {
    e => Brood(live, {origin}, AsCopy(e))
  }

  ghost function Weight(live: LiveGraph, f: Flood): nat {
    Sum(f.flying, Worth(live, f.lsp.origin))
  }

  /** As many copies as one announcement can ever cause: one for each way on from
      its origin that never turns straight back, ends when it comes home, and is no
      longer than fifteen links. */
  ghost function MostCopies(live: LiveGraph, origin: Id): nat {
    Most(live, {origin}, origin, BUDGET)
  }

  /** What copies from `v` to the nodes in `to` are worth. */
  lemma CopiesWorth(live: LiveGraph, origin: Id, v: Id, p: Info, heard: set<Id>)
    requires p.ttl > 1 && heard <= Neighbours(live, v)
    ensures Sum(multiset(Relay(v, heard, p)), Worth(live, origin)) ==
            Sum(multiset(heard - {p.via}), Heir(live, {origin}, v, p.ttl - 1))
            <= Sum(multiset(Onward(live, v, p.via)), Heir(live, {origin}, v, p.ttl - 1))
  {
    var g := (w: Id) => Envelope(w, Relayed(v, p));
    var out, to := Relay(v, heard, p), heard - {p.via};
    forall x ensures x in out <==> x in (set w | w in to :: g(w)) {
      assert x in out ==> x.to in to && x == g(x.to);
    }
    SumImage(to, g, out, Worth(live, origin), Heir(live, {origin}, v, p.ttl - 1));
    SumWithin(multiset(to), multiset(Onward(live, v, p.via)), Heir(live, {origin}, v, p.ttl - 1));
  }

  /** What a node passes on is worth at most one less than what it got, and just
      that if it knows all its neighbours. */
  lemma RelayWeighs(live: LiveGraph, origin: Id, e: Envelope, heard: set<Id>)
    requires e.to != origin && heard <= Neighbours(live, e.to)
    ensures var out := Sum(multiset(Relay(e.to, heard, e.info)), Worth(live, origin));
      out + 1 <= Worth(live, origin)(e) && (heard == Neighbours(live, e.to) ==> out + 1 == Worth(live, origin)(e))
  {
    BroodIs(live, origin, AsCopy(e));
    hide Brood, Heir;
    if e.info.ttl > 1 {
      CopiesWorth(live, origin, e.to, e.info, heard);
      assert heard == Neighbours(live, e.to) ==> heard - {e.info.via} == Onward(live, e.to, e.info.via);
    } else {
      var none: multiset<Envelope> := multiset{};
      assert multiset(Relay(e.to, heard, e.info)) == none;
    }
  }

  lemma BroodIs(live: LiveGraph, origin: Id, c: Copy)
    requires c.to != origin
    ensures Brood(live, {origin}, c) == 1 + if c.ttl <= 1 then 0 else Sum(multiset(Onward(live, c.to, c.via)), Heir(live, {origin}, c.to, c.ttl - 1))
  {
  }

  /** A delivery or loss takes at least one off the weight of its flood; a delivery
      to a node that knows nothing of it any more, and all its neighbours, exactly
      one. */
  lemma DeliveryWeighs(live: LiveGraph, net: Net, e: Envelope, now: Time, heard: set<Id>)
    requires Safety(live, net) && Possible(live, net, Delivering(e, now, heard))
    ensures var f, r := net.floods[e.info.msgId], Occur(live, net, Delivering(e, now, heard));
      && e.info.msgId in r.floods && r.floods[e.info.msgId].lsp == f.lsp
      && Weight(live, r.floods[e.info.msgId]) < Weight(live, f)
      && (e.to == f.lsp.origin
          || (HandleInfo(e.to, net.nodes[e.to], e.info, now).1 && heard == Neighbours(live, e.to)) ==>
            Weight(live, r.floods[e.info.msgId]) + 1 == Weight(live, f))
  {
    var f := net.floods[e.info.msgId];
    assert FloodSafe(live, net, e.info.msgId) && CopyOk(live, f, e.info.msgId, e);
    InfoEffect(e.to, net.nodes[e.to], e.info, f.lsp, now);
    if e.to != f.lsp.origin { RelayWeighs(live, f.lsp.origin, e, heard); }
    hide HandleInfo, Relay, Safety;
    var relayed := HandleInfo(e.to, net.nodes[e.to], e.info, now).1;
    var out := if relayed then Relay(e.to, heard, e.info) else {};
    SumExchange(f.flying, e, multiset(out), Worth(live, f.lsp.origin));
    assert !relayed ==> multiset(out) == multiset{};
  }

  lemma LossWeighs(live: LiveGraph, net: Net, e: Envelope, now: Time)
    requires Possible(live, net, Losing(e, now))
    ensures var f, r := net.floods[e.info.msgId], Occur(live, net, Losing(e, now));
      && e.info.msgId in r.floods && r.floods[e.info.msgId].lsp == f.lsp
      && Weight(live, r.floods[e.info.msgId]) < Weight(live, f)
  {
    var f := net.floods[e.info.msgId];
    SumOne(f.flying, Worth(live, f.lsp.origin), e);
  }

  lemma AnnouncementWeighs(live: LiveGraph, net: Net, v: Id, ev: LinkState.Event, heard: set<Id>)
    requires Possible(live, net, Local(v, ev, heard)) && Emits(net, v, ev) && v !in Neighbours(live, v)
    ensures var r := Occur(live, net, Local(v, ev, heard));
      && ev.msgId in r.floods && r.floods[ev.msgId].lsp.origin == v
      && Weight(live, r.floods[ev.msgId]) <= MostCopies(live, v)
      && (heard == Neighbours(live, v) ==> Weight(live, r.floods[ev.msgId]) == MostCopies(live, v))
  {
    LocalEffect(v, net.nodes[v], ev);
    hide Handle, Relay;
    CopiesWorth(live, v, v, Handle(v, net.nodes[v], ev).1.value, heard);
    assert heard - {v} == heard && Onward(live, v, v) == Neighbours(live, v);
  }

  lemma OtherFlood(live: LiveGraph, net: Net, ev: Event, m: string)
    requires Possible(live, net, ev)
    requires ev.Local? ==> !(Emits(net, ev.v, ev.ev) && m == ev.ev.msgId)
    requires !ev.Local? ==> ev.e.info.msgId != m
    ensures var r := Occur(live, net, ev);
      (m in r.floods <==> m in net.floods) && (m in net.floods ==> r.floods[m] == net.floods[m])
  {
    if ev.Local? { LocalEffect(ev.v, net.nodes[ev.v], ev.ev); }
    hide Handle, HandleInfo, Relay;
  }

  // ---------------------------------------------------------- over every run

  /** A copy of `m` comes off its link. */
  ghost predicate Takes(live: LiveGraph, net: Net, ev: Event, m: string) {
    !ev.Local? && ev.e.info.msgId == m && Possible(live, net, ev)
  }

  /** How many copies of announcement `m` were taken off their links in a run. */
  ghost function Taken(live: LiveGraph, start: Net, events: seq<Event>, m: string): nat {
    if events == [] then 0
    else
      var before, last := events[..|events| - 1], events[|events| - 1];
      Taken(live, start, before, m) + if Takes(live, Through(live, start, before), last, m) then 1 else 0
  }

  ghost predicate Limited(live: LiveGraph, net: Net, m: string, taken: nat) {
    if m in net.floods then taken + Weight(live, net.floods[m]) <= MostCopies(live, net.floods[m].lsp.origin)
    else taken == 0
  }

  lemma StepKeepsLimit(live: LiveGraph, net: Net, ev: Event, m: string, taken: nat)
    requires Sound(live) && Safety(live, net) && Limited(live, net, m, taken)
    ensures Limited(live, Step(live, net, ev), m, taken + if Takes(live, net, ev, m) then 1 else 0)
  {
    hide Safety, Weight, MostCopies, Occur, Emits;
    if Possible(live, net, ev) {
      if ev.Local? && Emits(net, ev.v, ev.ev) && m == ev.ev.msgId {
        AnnouncementWeighs(live, net, ev.v, ev.ev, ev.heard);
      } else if ev.Delivering? && ev.e.info.msgId == m {
        DeliveryWeighs(live, net, ev.e, ev.now, ev.heard);
      } else if ev.Losing? && ev.e.info.msgId == m {
        LossWeighs(live, net, ev.e, ev.now);
      } else {
        OtherFlood(live, net, ev, m);
      }
    }
  }

  /** Every flood ends, whatever is lost, expires, is forgotten or comes late: the
      copies taken off their links, and all that those in flight can still cause,
      stay within a bound that the live graph fixes when the flood begins. */
  lemma {:induction false} EveryFloodEnds(live: LiveGraph, start: Net, events: seq<Event>, m: string)
    requires Sound(live) && Initial(live, start)
    ensures Limited(live, Through(live, start, events), m, Taken(live, start, events, m))
  {
    hide Step, Weight, MostCopies, Takes, Safety;
    if events == [] {
      assert start.floods == map[];
    } else {
      EveryFloodEnds(live, start, events[..|events| - 1], m);
      RunIsSafe(live, start, events[..|events| - 1]);
      hide Limited;
      StepKeepsLimit(live, Through(live, start, events[..|events| - 1]), events[|events| - 1], m,
                     Taken(live, start, events[..|events| - 1], m));
    }
  }

  /** In numbers: on a network of degree `d`, `d` plus `d` squared and so on, up to
      the fifteenth power. */
  lemma CopiesInNumbers(live: LiveGraph, start: Net, events: seq<Event>, m: string, d: nat)
    requires Sound(live) && Initial(live, start) && m in Through(live, start, events).floods && Degree(live, d)
    ensures Taken(live, start, events, m) + |Through(live, start, events).floods[m].flying| <= d * Powers(d, BUDGET)
  {
    hide Through, Taken;
    EveryFloodEnds(live, start, events, m);
    var f := Through(live, start, events).floods[m];
    SumAtLeastSize(f.flying, Worth(live, f.lsp.origin));
    MostBound(live, {f.lsp.origin}, f.lsp.origin, BUDGET, d);
  }

  // ------------------------------------------------- the bound is attained

  /** Nobody has heard of `m`, or of anyone, later than `clock`. */
  ghost predicate AllOld(net: Net, m: string, clock: Time) {
    forall v :: v in net.nodes ==> OldAt(net.nodes[v], m, clock)
  }

  ghost predicate OldAt(st: State, m: string, clock: Time) {
    && (m in st.seen ==> st.seen[m] <= clock)
    && (forall o :: o in st.lsdb ==> st.lsdb[o].refreshed <= clock)
  }

  /** A sweep, and then a copy, at a node whose memory is all too old. */
  lemma ForgetfulNode(v: Id, st: State, p: Info, lsp: Lsp, clock: Time, now: Time)
    requires OldAt(st, p.msgId, clock) && now > clock + SEEN_TTL && p.lsp == Some(lsp) && lsp.origin != ""
    ensures var swept := Sweep(v, st, now);
      var (st', relayed) := HandleInfo(v, swept, p, now);
      && swept.lsdb == map[] && OldAt(swept, p.msgId, clock)
      && (relayed <==> lsp.origin != v)
      && OldAt(st', p.msgId, now)
  {
    hide TableFor;
    assert Unexpired(st.lsdb, now) == map[];
    assert Sweep(v, st, now).lsdb == map[] && Sweep(v, st, now).seen == st.seen;
  }

  ghost predicate Draining(live: LiveGraph, net: Net, m: string, clock: Time) {
    Safety(live, net) && m in net.floods && AllOld(net, m, clock)
  }

  /** A node sweeps its database. */
  lemma SweepStep(live: LiveGraph, net: Net, v: Id, now: Time, heard: set<Id>)
    requires Sound(live) && Safety(live, net) && v in net.nodes && heard <= Neighbours(live, v)
    ensures var ev := Local(v, LinkState.Event(Ageing, "", now), heard);
      Safety(live, Step(live, net, ev))
      && Step(live, net, ev) == net.(nodes := net.nodes[v := Sweep(v, net.nodes[v], now)])
  {
    StepKeepsSafety(live, net, Local(v, LinkState.Event(Ageing, "", now), heard));
    hide Sweep, Safety;
  }

  /** The node that `e` goes to sweeps its database, then `e` arrives. */
  function Visit(live: LiveGraph, e: Envelope, now: Time): seq<Event> {
    [Local(e.to, LinkState.Event(Ageing, "", now), Neighbours(live, e.to)), Delivering(e, now, Neighbours(live, e.to))]
  }

  lemma DrainStep(live: LiveGraph, net: Net, m: string, e: Envelope, clock: Time, now: Time)
    requires Sound(live) && Draining(live, net, m, clock) && e in net.floods[m].flying && now > clock + SEEN_TTL
    ensures e.info.msgId == m
    ensures var swept := Step(live, net, Visit(live, e, now)[0]);
      var r := Step(live, swept, Visit(live, e, now)[1]);
      && !Takes(live, net, Visit(live, e, now)[0], m) && Takes(live, swept, Visit(live, e, now)[1], m)
      && Draining(live, r, m, now) && r.floods[m].lsp == net.floods[m].lsp
      && Weight(live, r.floods[m]) + 1 == Weight(live, net.floods[m])
  {
    var heard, f := Neighbours(live, e.to), net.floods[m];
    assert FloodSafe(live, net, m) && CopyOk(live, f, m, e);
    assert OldAt(net.nodes[e.to], m, clock);
    SweepStep(live, net, e.to, now, heard);
    ForgetfulNode(e.to, net.nodes[e.to], e.info, f.lsp, clock, now);
    var swept := Step(live, net, Visit(live, e, now)[0]);
    hide Sweep, Safety, OldAt, HandleInfo, Relay, Weight, Look, FloodSafe, CopyOk;
    DeliveryWeighs(live, swept, e, now, heard);
    StepKeepsSafety(live, swept, Delivering(e, now, heard));
    OthersStayOld(live, net, swept, m, e, clock, now, heard);
  }

  lemma OthersStayOld(live: LiveGraph, net: Net, swept: Net, m: string, e: Envelope, clock: Time, now: Time, heard: set<Id>)
    requires AllOld(net, m, clock) && clock <= now && e.to in net.nodes && Possible(live, swept, Delivering(e, now, heard))
    requires swept.nodes == net.nodes[e.to := swept.nodes[e.to]]
    requires OldAt(HandleInfo(e.to, swept.nodes[e.to], e.info, now).0, m, now)
    ensures AllOld(Step(live, swept, Delivering(e, now, heard)), m, now)
  {
    hide HandleInfo, Relay, OldAt;
    var r := Step(live, swept, Delivering(e, now, heard));
    forall v | v in r.nodes ensures OldAt(r.nodes[v], m, now) {
      if v != e.to { StillOld(net.nodes[v], m, clock, now); }
    }
  }

  lemma StillOld(st: State, m: string, clock: Time, now: Time)
    requires OldAt(st, m, clock) && clock <= now
    ensures OldAt(st, m, now)
  {
  }

  ghost predicate Forward(events: seq<Event>) {
    forall i, j :: 0 <= i < j < |events| ==> At(events[i]) <= At(events[j])
  }

  function At(ev: Event): Time {
    if ev.Local? then ev.ev.now else ev.now
  }

  lemma ThroughTwo(live: LiveGraph, start: Net, events: seq<Event>, a: Event, b: Event, m: string)
    ensures var net := Through(live, start, events);
      && Through(live, start, events + [a, b]) == Step(live, Step(live, net, a), b)
      && Taken(live, start, events + [a, b], m) ==
           Taken(live, start, events, m) + (if Takes(live, net, a, m) then 1 else 0) + (if Takes(live, Step(live, net, a), b, m) then 1 else 0)
  {
    hide Step, Takes;
    var es := events + [a, b];
    assert es[..|es| - 1] == events + [a];
    assert (events + [a])[..|events + [a]| - 1] == events;
  }

  lemma ThroughOne(live: LiveGraph, start: Net, events: seq<Event>, a: Event, m: string)
    ensures Through(live, start, events + [a]) == Step(live, Through(live, start, events), a)
    ensures Taken(live, start, events + [a], m) ==
            Taken(live, start, events, m) + if Takes(live, Through(live, start, events), a, m) then 1 else 0
  {
    hide Step, Takes;
    assert (events + [a])[..|events + [a]| - 1] == events;
  }

  // ---------------------------------------------- while the refresh ticks

  /** `o` refreshes at least every ten seconds from `from` until `until`. */
  ghost predicate Refreshing(events: seq<Event>, o: Id, from: Time, until: Time) {
    forall t :: from <= t < until ==> RefreshedAt(events, o, t)
  }

  ghost predicate RefreshedAt(events: seq<Event>, o: Id, t: Time) {
    exists i :: 0 <= i < |events| && RefreshBefore(events[i], o, t)
  }

  predicate RefreshBefore(ev: Event, o: Id, t: Time) {
    ev.Local? && ev.v == o && ev.ev.input.Refresh? && t - REFRESH_INTERVAL <= ev.ev.now <= t
  }

  lemma RefreshingOn(a: seq<Event>, b: seq<Event>, o: Id, from: Time, mid: Time, until: Time)
    requires Refreshing(a, o, from, mid) && Refreshing(b, o, mid, until)
    ensures Refreshing(a + b, o, from, until)
  {
    forall t | from <= t < until ensures RefreshedAt(a + b, o, t) {
      if t < mid {
        assert RefreshedAt(a, o, t);
        var i :| 0 <= i < |a| && RefreshBefore(a[i], o, t);
        assert RefreshBefore((a + b)[i], o, t);
      } else {
        assert RefreshedAt(b, o, t);
        var i :| 0 <= i < |b| && RefreshBefore(b[i], o, t);
        assert RefreshBefore((a + b)[|a| + i], o, t);
      }
    }
  }

  /** Events from `clock` to `until` on that lose no copy of `m`. */
  ghost predicate Between(events: seq<Event>, m: string, clock: Time, until: Time) {
    && Forward(events)
    && forall i :: 0 <= i < |events| ==>
         clock <= At(events[i]) <= until && (events[i].Losing? ==> events[i].e.info.msgId != m)
  }

  lemma BetweenOn(a: seq<Event>, b: seq<Event>, m: string, clock: Time, mid: Time, until: Time)
    requires Between(a, m, clock, mid) && Between(b, m, mid, until) && clock <= mid <= until
    ensures Between(a + b, m, clock, until)
  {
  }

  /** `m` and what is known of it are as they were. */
  ghost predicate SameOf(net: Net, r: Net, m: string) {
    m in net.floods && m in r.floods && r.floods[m] == net.floods[m]
  }

  /** All copies of `n` are lost. */
  lemma {:induction false} LoseAll(live: LiveGraph, start: Net, events: seq<Event>, n: string, m: string, clock: Time, now: Time)
    returns (more: seq<Event>)
    requires Sound(live) && n != m && n in Through(live, start, events).floods && Draining(live, Through(live, start, events), m, clock)
    ensures Between(more, m, now, now)
    ensures var net, r := Through(live, start, events), Through(live, start, events + more);
      && Draining(live, r, m, clock) && SameOf(net, r, m)
      && Taken(live, start, events + more, m) == Taken(live, start, events, m)
    decreases |Through(live, start, events).floods[n].flying|
  {
    hide Step, Through, Taken, Takes, Safety, AllOld;
    var net := Through(live, start, events);
    more := [];
    assert events + more == events;
    if e :| e in net.floods[n].flying {
      var ev := Losing(e, now);
      LoseOne(live, net, n, e, m, clock, now);
      ThroughOne(live, start, events, ev, m);
      more := LoseAll(live, start, events + [ev], n, m, clock, now);
      assert events + [ev] + more == events + ([ev] + more);
      more := [ev] + more;
    }
  }

  lemma LoseOne(live: LiveGraph, net: Net, n: string, e: Envelope, m: string, clock: Time, now: Time)
    requires Sound(live) && Draining(live, net, m, clock) && n in net.floods && e in net.floods[n].flying && n != m
    ensures e.info.msgId == n && !Takes(live, net, Losing(e, now), m)
    ensures var r := Step(live, net, Losing(e, now));
      && Draining(live, r, m, clock) && SameOf(net, r, m) && n in r.floods
      && |r.floods[n].flying| < |net.floods[n].flying|
  {
    assert FloodSafe(live, net, n) && CopyOk(live, net.floods[n], n, e);
    StepKeepsSafety(live, net, Losing(e, now));
    hide Safety, OldAt;
    assert |net.floods[n].flying - multiset{e}| == |net.floods[n].flying| - 1;
  }

  /** `o` refreshes, and every copy of that is lost. */
  lemma Tick(live: LiveGraph, start: Net, events: seq<Event>, o: Id, m: string, clock: Time, now: Time) returns (more: seq<Event>)
    requires Sound(live) && o in live && Draining(live, Through(live, start, events), m, clock)
    ensures Between(more, m, now, now) && Refreshing(more, o, now, now + REFRESH_INTERVAL)
    ensures var net, r := Through(live, start, events), Through(live, start, events + more);
      && Draining(live, r, m, clock) && SameOf(net, r, m)
      && Taken(live, start, events + more, m) == Taken(live, start, events, m)
  {
    hide Step, Through, Taken, Takes, Between, SameOf;
    var net := Through(live, start, events);
    var n := FreshId(net.floods.Keys);
    var ev := Local(o, LinkState.Event(Refresh, n, now), Neighbours(live, o));
    TickStays(live, net, o, n, m, clock, now);
    ThroughOne(live, start, events, ev, m);
    hide Draining;
    var lost := LoseAll(live, start, events + [ev], n, m, clock, now);
    assert events + [ev] + lost == events + ([ev] + lost);
    more := [ev] + lost;
    assert more[0] == ev;
    FirstBetween(ev, lost, m, now);
    StaysSame(net, Through(live, start, events + [ev]), Through(live, start, events + more), m);
    forall t | now <= t < now + REFRESH_INTERVAL ensures RefreshedAt(more, o, t) { assert RefreshBefore(more[0], o, t); }
  }

  lemma FirstBetween(ev: Event, more: seq<Event>, m: string, now: Time)
    requires !ev.Losing? && At(ev) == now && Between(more, m, now, now)
    ensures Between([ev] + more, m, now, now)
  {
  }

  lemma StaysSame(a: Net, b: Net, c: Net, m: string)
    requires SameOf(a, b, m) && SameOf(b, c, m)
    ensures SameOf(a, c, m)
  {
  }

  lemma TickStays(live: LiveGraph, net: Net, o: Id, n: string, m: string, clock: Time, now: Time)
    requires Sound(live) && o in live && Draining(live, net, m, clock) && n != "" && n !in net.floods
    ensures var ev := Local(o, LinkState.Event(Refresh, n, now), Neighbours(live, o));
      var r := Step(live, net, ev);
      && Draining(live, r, m, clock) && SameOf(net, r, m) && n in r.floods && !Takes(live, net, ev, m)
  {
    var ev := LinkState.Event(Refresh, n, now);
    StepKeepsSafety(live, net, Local(o, ev, Neighbours(live, o)));
    assert OldAt(net.nodes[o], m, clock);
    RefreshStaysOld(o, net.nodes[o], n, m, clock, now);
    hide Safety, OldAt, Handle, Relay;
    LocalEffect(o, net.nodes[o], ev);
    assert Possible(live, net, Local(o, ev, Neighbours(live, o)));
  }

  lemma RefreshStaysOld(o: Id, st: State, n: string, m: string, clock: Time, now: Time)
    requires OldAt(st, m, clock) && n != m
    ensures OldAt(Handle(o, st, LinkState.Event(Refresh, n, now)).0, m, clock)
    ensures Handle(o, st, LinkState.Event(Refresh, n, now)).1.Some?
  {
  }

  /** `k` such refreshes, ten seconds apart, the first ten seconds after `last`. */
  lemma {:induction false} Ticks(live: LiveGraph, start: Net, events: seq<Event>, o: Id, m: string, clock: Time, last: Time, k: nat)
    returns (more: seq<Event>, end: Time)
    requires Sound(live) && o in live && Draining(live, Through(live, start, events), m, clock) && k > 0
    ensures end == last + k * REFRESH_INTERVAL
    ensures Between(more, m, last + REFRESH_INTERVAL, end)
    ensures Refreshing(more, o, last + REFRESH_INTERVAL, end + REFRESH_INTERVAL)
    ensures var net, r := Through(live, start, events), Through(live, start, events + more);
      && Draining(live, r, m, clock) && SameOf(net, r, m)
      && Taken(live, start, events + more, m) == Taken(live, start, events, m)
    decreases k
  {
    hide Through, Taken, Draining, Between, Refreshing, SameOf;
    var now := last + REFRESH_INTERVAL;
    more := Tick(live, start, events, o, m, clock, now);
    end := now;
    if k > 1 {
      var rest;
      rest, end := Ticks(live, start, events + more, o, m, clock, now, k - 1);
      BetweenFrom(rest, m, now, now + REFRESH_INTERVAL, end);
      BetweenOn(more, rest, m, now, now, end);
      RefreshingOn(more, rest, o, now, now + REFRESH_INTERVAL, end + REFRESH_INTERVAL);
      StaysSame(Through(live, start, events), Through(live, start, events + more), Through(live, start, events + more + rest), m);
      assert events + more + rest == events + (more + rest);
      more := more + rest;
    }
  }

  lemma BetweenFrom(events: seq<Event>, m: string, clock: Time, from: Time, until: Time)
    requires Between(events, m, from, until) && clock <= from
    ensures Between(events, m, clock, until)
  {
  }

  /** Every copy of `m` comes when the node it goes to has forgotten all it knew,
      and all refreshes meanwhile are lost. */
  lemma {:induction false} Drain(live: LiveGraph, start: Net, events: seq<Event>, o: Id, m: string, clock: Time)
    returns (more: seq<Event>, end: Time)
    requires Sound(live) && o in live && Draining(live, Through(live, start, events), m, clock)
    ensures end >= clock && Between(more, m, clock, end)
    ensures Refreshing(more, o, clock + REFRESH_INTERVAL, end + REFRESH_INTERVAL)
    ensures var net, r := Through(live, start, events), Through(live, start, events + more);
      && m in r.floods && r.floods[m].flying == multiset{} && r.floods[m].lsp == net.floods[m].lsp
      && Taken(live, start, events + more, m) == Taken(live, start, events, m) + Weight(live, net.floods[m])
    decreases Weight(live, Through(live, start, events).floods[m])
  {
    hide Step, Takes, Safety, AllOld, Through, Taken, Between, Refreshing;
    var net := Through(live, start, events);
    more, end := [], clock;
    assert events + more == events;
    NoneBetween(m, o, clock);
    if e :| e in net.floods[m].flying {
      var ticks, now := Ticks(live, start, events, o, m, clock, clock, 7);
      var ticked := Through(live, start, events + ticks);
      DrainStep(live, ticked, m, e, clock, now);
      var a, b := Visit(live, e, now)[0], Visit(live, e, now)[1];
      ThroughTwo(live, start, events + ticks, a, b, m);
      var rest;
      rest, end := Drain(live, start, events + ticks + [a, b], o, m, now);
      Joined(ticks, a, b, rest, o, m, clock, now, end);
      assert events + ticks + [a, b] + rest == events + (ticks + [a, b] + rest);
      more := ticks + [a, b] + rest;
    }
  }

  lemma NoneBetween(m: string, o: Id, clock: Time)
    ensures Between([], m, clock, clock)
    ensures Refreshing([], o, clock + REFRESH_INTERVAL, clock + REFRESH_INTERVAL)
  {
  }

  lemma Joined(ticks: seq<Event>, a: Event, b: Event, rest: seq<Event>, o: Id, m: string, clock: Time, now: Time, end: Time)
    requires clock + REFRESH_INTERVAL <= now <= end && At(a) == now == At(b) && !a.Losing? && !b.Losing?
    requires Between(ticks, m, clock + REFRESH_INTERVAL, now) && Between(rest, m, now, end)
    requires Refreshing(ticks, o, clock + REFRESH_INTERVAL, now + REFRESH_INTERVAL)
    requires Refreshing(rest, o, now + REFRESH_INTERVAL, end + REFRESH_INTERVAL)
    ensures Between(ticks + [a, b] + rest, m, clock, end)
    ensures Refreshing(ticks + [a, b] + rest, o, clock + REFRESH_INTERVAL, end + REFRESH_INTERVAL)
  {
    assert Between([a, b], m, now, now);
    BetweenFrom(ticks, m, clock, clock + REFRESH_INTERVAL, now);
    BetweenOn(ticks, [a, b], m, clock, now, now);
    BetweenOn(ticks + [a, b], rest, m, clock, now, end);
    MoreRefreshing(ticks, [a, b], o, clock + REFRESH_INTERVAL, now + REFRESH_INTERVAL);
    RefreshingOn(ticks + [a, b], rest, o, clock + REFRESH_INTERVAL, now + REFRESH_INTERVAL, end + REFRESH_INTERVAL);
  }

  lemma MoreRefreshing(a: seq<Event>, b: seq<Event>, o: Id, from: Time, until: Time)
    requires Refreshing(a, o, from, until)
    ensures Refreshing(a + b, o, from, until)
  {
    forall t | from <= t < until ensures RefreshedAt(a + b, o, t) {
      assert RefreshedAt(a, o, t);
      var i :| 0 <= i < |a| && RefreshBefore(a[i], o, t);
      assert RefreshBefore((a + b)[i], o, t);
    }
  }

  /** The bound is the least there is: from every start, in some run with a clock
      that never goes back and a refresh of the origin at least every ten seconds,
      no copy of one announcement is lost and exactly that many arrive. So neither
      the sequence number nor the duplicate cache ends a flood; the hop budget
      does. */
  lemma MostCopiesIsAttained(live: LiveGraph, start: Net, o: Id) returns (events: seq<Event>, end: Time)
    requires Sound(live) && Initial(live, start) && o in live
    ensures Between(events, "m", 0, end) && Refreshing(events, o, 0, end + REFRESH_INTERVAL)
    ensures var r := Through(live, start, events);
      && "m" in r.floods && r.floods["m"].lsp.origin == o && r.floods["m"].flying == multiset{}
      && Taken(live, start, events, "m") == MostCopies(live, o)
  {
    hide Step, Takes, Draining, Through, Taken, MostCopies, Weight, Between, Refreshing, Initial, Sound;
    var ev := Local(o, LinkState.Event(Refresh, "m", 0), Neighbours(live, o));
    AfterRefresh(live, start, o);
    var more;
    more, end := Drain(live, start, [ev], o, "m", 0);
    events := [ev] + more;
    FirstRefresh(ev, more, o, end);
  }

  lemma FirstRefresh(ev: Event, more: seq<Event>, o: Id, end: Time)
    requires ev.Local? && ev.v == o && ev.ev.input.Refresh? && ev.ev.now == 0 && end >= 0
    requires Between(more, "m", 0, end) && Refreshing(more, o, REFRESH_INTERVAL, end + REFRESH_INTERVAL)
    ensures Between([ev] + more, "m", 0, end) && Refreshing([ev] + more, o, 0, end + REFRESH_INTERVAL)
  {
    forall t | 0 <= t < REFRESH_INTERVAL ensures RefreshedAt([ev], o, t) { assert RefreshBefore([ev][0], o, t); }
    RefreshingOn([ev], more, o, 0, REFRESH_INTERVAL, end + REFRESH_INTERVAL);
  }

  lemma AfterRefresh(live: LiveGraph, start: Net, o: Id)
    requires Sound(live) && Initial(live, start) && o in live
    ensures var events := [Local(o, LinkState.Event(Refresh, "m", 0), Neighbours(live, o))];
      var net := Through(live, start, events);
      && Draining(live, net, "m", 0) && net.floods["m"].lsp.origin == o
      && Weight(live, net.floods["m"]) == MostCopies(live, o) && Taken(live, start, events, "m") == 0
  {
    var ev, heard := LinkState.Event(Refresh, "m", 0), Neighbours(live, o);
    var events := [Local(o, ev, heard)];
    assert events[..|events| - 1] == [];
    assert Possible(live, start, Local(o, ev, heard)) && Emits(start, o, ev);
    RunIsSafe(live, start, events);
    AnnouncementWeighs(live, start, o, ev, heard);
    hide Relay, Weight, MostCopies, Safety;
    var net := Through(live, start, events);
    assert net == Occur(live, start, Local(o, ev, heard));
    forall v | v in net.nodes ensures OldAt(net.nodes[v], "m", 0) {}
  }
}
