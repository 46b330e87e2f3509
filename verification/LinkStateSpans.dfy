/** Exactly how long each link carries an announcement at most once, when copies may
    be dropped or come late and entries expire. */
module LinkStateSpans {
  import opened Options
  import opened Ordering
  import opened SeenCaches
  import opened LinkState
  import opened Packets
  import opened Exactness
  import opened FloodCore
  import opened FloodWeights
  import opened LinkStateFlood
  import opened LinkStateRuns
  import opened LinkStateLimits

  type Net = LinkStateFlood.Net
  type Event = LinkStateFlood.Event

  ghost predicate InSpan(events: seq<Event>, begin: Time, span: Time) {
    forall i :: 0 <= i < |events| ==> begin <= At(events[i]) <= begin + span
  }

  // ------------------------------------- within the memory of a cache

  ghost predicate Young(seen: Entries, begin: Time) {
    forall m :: m in seen ==> begin <= seen[m]
  }

  /** Every node that has handled `m` remembers it, and copies come from such. */
  ghost predicate Remembered(net: Net, f: Flood, m: string) {
    && f.lsp.origin in f.level && f.level.Keys <= net.nodes.Keys
    && (forall v :: v in f.level && v in net.nodes ==> m in net.nodes[v].seen)
    && (forall e :: e in f.flying ==> e.info.via in f.level)
  }

  ghost predicate Fresh(live: LiveGraph, net: Net, m: string, begin: Time) {
    && Safety(live, net) && (forall v :: v in net.nodes ==> Young(net.nodes[v].seen, begin))
    && (m in net.floods ==> Remembered(net, net.floods[m], m))
  }

  /** A young cache forgets nothing. */
  lemma YoungLook(seen: Entries, id: string, now: Time, begin: Time)
    requires Young(seen, begin) && id != "" && begin <= now <= begin + SEEN_TTL
    ensures var r := Look(seen, id, now, SEEN_TTL);
      Young(r.0, begin) && r.0.Keys == seen.Keys + {id} && (r.1 <==> id in seen)
  {
    LookRecords(seen, id, now, begin, SEEN_TTL);
  }

  lemma LocalSeen(v: Id, st: State, ev: LinkState.Event)
    requires !ev.input.Received?
    ensures var (st', emitted) := Handle(v, st, ev);
      && (emitted.None? ==> st'.seen == st.seen)
      && (emitted.Some? ==> st'.seen == Look(st.seen, ev.msgId, ev.now, SEEN_TTL).0)
  {
    hide TableFor, Look;
  }

  lemma InfoSeen(v: Id, st: State, p: Info, now: Time)
    ensures var (st', relayed) := HandleInfo(v, st, p, now);
      st'.seen == Look(st.seen, p.msgId, now, SEEN_TTL).0 && (relayed ==> !Look(st.seen, p.msgId, now, SEEN_TTL).1)
  {
    hide TableFor, Look;
  }

  /** What a local event within the span does. */
  lemma LocalShape(live: LiveGraph, net: Net, v: Id, ev: LinkState.Event, heard: set<Id>, begin: Time)
    requires Sound(live) && net.nodes.Keys == live.Keys && Possible(live, net, Local(v, ev, heard)) && begin <= ev.now <= begin + SEEN_TTL
    requires Young(net.nodes[v].seen, begin)
    ensures var r := Occur(live, net, Local(v, ev, heard));
      && v in r.nodes && r.nodes == net.nodes[v := r.nodes[v]]
      && Young(r.nodes[v].seen, begin) && net.nodes[v].seen.Keys <= r.nodes[v].seen.Keys
      && (if Emits(net, v, ev)
          then && ev.msgId in r.floods && r.floods == net.floods[ev.msgId := r.floods[ev.msgId]]
               && ev.msgId in r.nodes[v].seen && Begun(live, r.floods[ev.msgId], v)
          else r.floods == net.floods)
  {
    LocalEffect(v, net.nodes[v], ev);
    LocalSeen(v, net.nodes[v], ev);
    if Emits(net, v, ev) {
      YoungLook(net.nodes[v].seen, ev.msgId, ev.now, begin);
      CopiesStart(live, net, v, ev, heard);
    }
    hide Handle, Relay, Look, Begun;
  }

  /** A flood as its origin leaves it. */
  ghost predicate Begun(live: LiveGraph, f: Flood, v: Id) {
    && f.lsp.origin == v && f.level == map[v := 0] && Work(live, f) <= |LinksOf(live, live.Keys)|
    && forall e :: e in f.flying ==> e.info.via == v
  }

  lemma CopiesStart(live: LiveGraph, net: Net, v: Id, ev: LinkState.Event, heard: set<Id>)
    requires Sound(live) && net.nodes.Keys == live.Keys && Possible(live, net, Local(v, ev, heard)) && Emits(net, v, ev)
    ensures var r := Occur(live, net, Local(v, ev, heard)); ev.msgId in r.floods && Begun(live, r.floods[ev.msgId], v)
  {
    LocalEffect(v, net.nodes[v], ev);
    hide Handle;
    RelayCount(v, heard, Handle(v, net.nodes[v], ev).1.value);
    SubsetIsNoLarger(heard, Neighbours(live, v));
    var level: Levels := map[v := 0];
    LinksOfOneMore(live, live.Keys - level.Keys, v);
    assert live.Keys - level.Keys + {v} == live.Keys;
  }

  /** The work left for `m`, and what has been done, within the number of links. */
  ghost predicate Bounded(live: LiveGraph, net: Net, m: string, taken: nat) {
    if m in net.floods then taken + Work(live, net.floods[m]) <= |LinksOf(live, live.Keys)| else taken == 0
  }

  lemma LocalStaysFresh(live: LiveGraph, net: Net, v: Id, ev: LinkState.Event, heard: set<Id>, m: string, begin: Time, taken: nat)
    requires Sound(live) && Fresh(live, net, m, begin) && Possible(live, net, Local(v, ev, heard)) && begin <= ev.now <= begin + SEEN_TTL
    requires Bounded(live, net, m, taken)
    ensures Fresh(live, Occur(live, net, Local(v, ev, heard)), m, begin)
    ensures Bounded(live, Occur(live, net, Local(v, ev, heard)), m, taken)
  {
    LocalKeepsSafety(live, net, v, ev, heard);
    LocalShape(live, net, v, ev, heard, begin);
    LocalKeepsMemory(live, net, v, ev, heard, m, begin);
    hide Safety, Occur, Young, Sound, Work, Remembered;
  }

  lemma LocalKeepsMemory(live: LiveGraph, net: Net, v: Id, ev: LinkState.Event, heard: set<Id>, m: string, begin: Time)
    requires Sound(live) && Fresh(live, net, m, begin) && Possible(live, net, Local(v, ev, heard)) && begin <= ev.now <= begin + SEEN_TTL
    ensures var r := Occur(live, net, Local(v, ev, heard));
      && (m in net.floods ==> m in r.floods && r.floods[m] == net.floods[m] && Remembered(r, r.floods[m], m))
      && (m in r.floods && m !in net.floods ==>
            Remembered(r, r.floods[m], m) && Work(live, r.floods[m]) <= |LinksOf(live, live.Keys)|)
  {
    assert net.nodes.Keys == live.Keys;
    hide Safety, Occur, Young, Sound, Work, Remembered, Begun;
    LocalShape(live, net, v, ev, heard, begin);
    var r := Occur(live, net, Local(v, ev, heard));
    if m in net.floods {
      RememberedStays(net, r, net.floods[m], m, v);
    } else if m in r.floods {
      BegunIsRemembered(live, r, v, m);
    }
  }

  lemma BegunIsRemembered(live: LiveGraph, net: Net, v: Id, m: string)
    requires m in net.floods && Begun(live, net.floods[m], v) && v in net.nodes && m in net.nodes[v].seen
    ensures Remembered(net, net.floods[m], m) && Work(live, net.floods[m]) <= |LinksOf(live, live.Keys)|
  {
    hide Work;
  }

  // ------------------------------------------------------------ deliveries

  /** What a delivery of another announcement, or of this one, does within the
      span. */
  lemma DeliveryShape(live: LiveGraph, net: Net, e: Envelope, now: Time, heard: set<Id>, begin: Time)
    requires Possible(live, net, Delivering(e, now, heard)) && begin <= now <= begin + SEEN_TTL && e.info.msgId != ""
    requires Young(net.nodes[e.to].seen, begin)
    ensures var r, v, m := Occur(live, net, Delivering(e, now, heard)), e.to, e.info.msgId;
      && v in r.nodes && r.nodes == net.nodes[v := r.nodes[v]]
      && Young(r.nodes[v].seen, begin) && r.nodes[v].seen.Keys == net.nodes[v].seen.Keys + {m}
      && m in r.floods && r.floods == net.floods[m := r.floods[m]]
      && r.floods[m].lsp == net.floods[m].lsp && r.floods[m].level == LinkStateFlood.LevelsAfter(net.floods[m].level, e)
      && r.floods[m].flying == net.floods[m].flying - multiset{e} + multiset(Sent(net, e, now, heard))
      && (m in net.nodes[v].seen ==> Sent(net, e, now, heard) == {})
      && Sent(net, e, now, heard) <= Relay(v, Neighbours(live, v), e.info)
  {
    InfoSeen(e.to, net.nodes[e.to], e.info, now);
    YoungLook(net.nodes[e.to].seen, e.info.msgId, now, begin);
    assert Relay(e.to, heard, e.info) <= Relay(e.to, Neighbours(live, e.to), e.info);
    hide HandleInfo, Relay, Look;
  }

  lemma DeliveryTakesWork(live: LiveGraph, f: Flood, g: Flood, e: Envelope, out: set<Envelope>)
    requires e in f.flying && e.info.via in f.level && e.to in live && f.level.Keys <= live.Keys
    requires g.flying == f.flying - multiset{e} + multiset(out) && g.level == LinkStateFlood.LevelsAfter(f.level, e)
    requires e.to in f.level ==> out == {}
    requires out <= Relay(e.to, Neighbours(live, e.to), e.info)
    ensures Work(live, g) < Work(live, f)
  {
    assert |g.flying| == |f.flying| - 1 + |out|;
    RelayCount(e.to, Neighbours(live, e.to), e.info);
    SubsetIsNoLarger(out, Relay(e.to, Neighbours(live, e.to), e.info));
    hide Relay;
    if e.to !in f.level {
      LinksOfOneMore(live, live.Keys - f.level.Keys - {e.to}, e.to);
      assert live.Keys - f.level.Keys - {e.to} + {e.to} == live.Keys - f.level.Keys;
      assert live.Keys - g.level.Keys == live.Keys - f.level.Keys - {e.to};
    }
  }

  lemma DeliveryStaysRemembered(net: Net, r: Net, f: Flood, g: Flood, e: Envelope, out: set<Envelope>, live: LiveGraph)
    requires Remembered(net, f, e.info.msgId) && e in f.flying && e.to in net.nodes && e.to in r.nodes
    requires r.nodes == net.nodes[e.to := r.nodes[e.to]] && r.nodes[e.to].seen.Keys == net.nodes[e.to].seen.Keys + {e.info.msgId}
    requires g.lsp == f.lsp && g.level == LinkStateFlood.LevelsAfter(f.level, e)
    requires g.flying == f.flying - multiset{e} + multiset(out) && out <= Relay(e.to, Neighbours(live, e.to), e.info)
    ensures Remembered(r, g, e.info.msgId)
  {
    forall x | x in g.flying ensures x.info.via in g.level {
      assert x in multiset(out) <==> x in out;
    }
  }

  lemma DeliveryStaysFresh(live: LiveGraph, net: Net, e: Envelope, now: Time, heard: set<Id>, m: string, begin: Time, taken: nat)
    requires Sound(live) && Fresh(live, net, m, begin) && Possible(live, net, Delivering(e, now, heard)) && begin <= now <= begin + SEEN_TTL
    requires Bounded(live, net, m, taken)
    ensures var r := Occur(live, net, Delivering(e, now, heard));
      Fresh(live, r, m, begin) && Bounded(live, r, m, taken + if e.info.msgId == m then 1 else 0)
  {
    DeliveringKeepsSafety(live, net, e, now, heard);
    assert net.nodes.Keys == live.Keys && e.info.msgId != "";
    hide Safety, Occur, HandleInfo, Relay, Young, Sound, Work, Remembered;
    DeliveryShape(live, net, e, now, heard, begin);
    var r, id := Occur(live, net, Delivering(e, now, heard)), e.info.msgId;
    var f, g, out := net.floods[id], r.floods[id], Sent(net, e, now, heard);
    if id == m {
      DeliveryStaysRemembered(net, r, f, g, e, out, live);
      RememberedSays(net, f, m, e);
      DeliveryTakesWork(live, f, g, e, out);
    } else if m in net.floods {
      RememberedStays(net, r, net.floods[m], m, e.to);
    }
  }

  lemma RememberedSays(net: Net, f: Flood, m: string, e: Envelope)
    requires Remembered(net, f, m) && e in f.flying
    ensures e.info.via in f.level && f.level.Keys <= net.nodes.Keys
    ensures e.to in f.level && e.to in net.nodes ==> m in net.nodes[e.to].seen
  {
  }

  lemma RememberedStays(net: Net, r: Net, f: Flood, m: string, v: Id)
    requires Remembered(net, f, m) && v in net.nodes && v in r.nodes && r.nodes == net.nodes[v := r.nodes[v]]
    requires net.nodes[v].seen.Keys <= r.nodes[v].seen.Keys
    ensures Remembered(r, f, m)
  {
  }

  lemma LossStaysFresh(live: LiveGraph, net: Net, e: Envelope, now: Time, m: string, begin: Time, taken: nat)
    requires Fresh(live, net, m, begin) && Possible(live, net, Losing(e, now)) && Bounded(live, net, m, taken)
    ensures var r := Occur(live, net, Losing(e, now));
      Fresh(live, r, m, begin) && Bounded(live, r, m, taken + if e.info.msgId == m then 1 else 0)
  {
    LosingKeepsSafety(live, net, e, now);
    hide Safety, Young;
    assert |net.floods[e.info.msgId].flying - multiset{e}| == |net.floods[e.info.msgId].flying| - 1;
  }

  lemma StepStaysFresh(live: LiveGraph, net: Net, ev: Event, m: string, begin: Time, taken: nat)
    requires Sound(live) && Fresh(live, net, m, begin) && begin <= At(ev) <= begin + SEEN_TTL && Bounded(live, net, m, taken)
    ensures var r := Step(live, net, ev);
      Fresh(live, r, m, begin) && Bounded(live, r, m, taken + if Takes(live, net, ev, m) then 1 else 0)
  {
    hide Fresh, Bounded, Occur;
    if Possible(live, net, ev) {
      match ev
      case Local(v, local, heard) => LocalStaysFresh(live, net, v, local, heard, m, begin, taken);
      case Delivering(e, now, heard) => DeliveryStaysFresh(live, net, e, now, heard, m, begin, taken);
      case Losing(e, now) => LossStaysFresh(live, net, e, now, m, begin, taken);
    }
  }

  /** Within the memory of a cache every copy is one of at most as many as there are
      live links, whatever is lost, late or expires. */
  lemma {:induction false} LinksBoundCopies(live: LiveGraph, start: Net, events: seq<Event>, m: string, begin: Time)
    requires Sound(live) && Initial(live, start) && InSpan(events, begin, SEEN_TTL)
    ensures var net := Through(live, start, events);
      Fresh(live, net, m, begin) && Bounded(live, net, m, Taken(live, start, events, m))
  {
    hide Step, Takes;
    if events == [] {
      InitialSafety(live, start);
    } else {
      var before, last := events[..|events| - 1], events[|events| - 1];
      LinksBoundCopies(live, start, before, m, begin);
      hide Fresh, Bounded;
      StepStaysFresh(live, Through(live, start, before), last, m, begin, Taken(live, start, before, m));
    }
  }

  // ------------------------------------------------ and not a moment longer

  /** A node that the next copy of `m` finds without memory, or anything on file, of
      it, if a sweep comes first. */
  ghost predicate Forgets(st: State, m: string, o: Id, now: Time) {
    && (m in st.seen ==> now - st.seen[m] > SEEN_TTL)
    && (o in st.lsdb ==> now - st.lsdb[o].refreshed > LSP_MAX_AGE)
  }

  /** What a node has of `m` and of `o` dates from `t` or before. */
  ghost predicate Dated(st: State, m: string, o: Id, t: Time) {
    (m in st.seen ==> st.seen[m] <= t) && (o in st.lsdb ==> st.lsdb[o].refreshed <= t)
  }

  lemma SweptAndTold(v: Id, st: State, p: Info, lsp: Lsp, now: Time)
    requires Forgets(st, p.msgId, lsp.origin, now) && p.lsp == Some(lsp) && lsp.origin != "" && lsp.origin != v
    ensures var (st', relayed) := HandleInfo(v, Sweep(v, st, now), p, now);
      relayed && Dated(st', p.msgId, lsp.origin, now)
  {
    hide TableFor;
    assert lsp.origin !in Unexpired(st.lsdb, now);
    assert lsp.origin !in Sweep(v, st, now).lsdb && Sweep(v, st, now).seen == st.seen;
  }

  /** A run in which `sends` copies of `m` of `o` have been put on links, and `e` is
      still on one. */
  ghost predicate Carried(live: LiveGraph, start: Net, events: seq<Event>, o: Id, m: string, e: Envelope, sends: nat) {
    var net := Through(live, start, events);
    && Safety(live, net) && m in net.floods && net.floods[m].lsp.origin == o && e in net.floods[m].flying
    && Taken(live, start, events, m) + |net.floods[m].flying| == sends
  }

  lemma TwoSteps(live: LiveGraph, net: Net, o: Id, m: string, e: Envelope, now: Time, w: Id)
    requires Sound(live) && Safety(live, net) && m in net.floods && net.floods[m].lsp.origin == o && e in net.floods[m].flying
    requires e.to != o && e.info.ttl > 1 && w in Onward(live, e.to, e.info.via)
    requires e.to in net.nodes && Forgets(net.nodes[e.to], m, o, now)
    ensures var heard := Neighbours(live, e.to);
      var sweep := Local(e.to, LinkState.Event(Ageing, "", now), heard);
      var swept := Step(live, net, sweep);
      var r := Step(live, swept, Delivering(e, now, heard));
      && !Takes(live, net, sweep, m) && Takes(live, swept, Delivering(e, now, heard), m)
      && Safety(live, r) && m in r.floods && r.floods[m].lsp.origin == o
      && Envelope(w, Relayed(e.to, e.info)) in r.floods[m].flying
      && |r.floods[m].flying| + 1 == |net.floods[m].flying| + |Onward(live, e.to, e.info.via)|
      && e.to in r.nodes && r.nodes == net.nodes[e.to := r.nodes[e.to]] && Dated(r.nodes[e.to], m, o, now)
  {
    var heard, f := Neighbours(live, e.to), net.floods[m];
    assert FloodSafe(live, net, m) && CopyOk(live, f, m, e);
    hide Safety, Sweep, Forgets, Dated, FloodSafe, CopyOk, HandleInfo, Onward, Step, Takes, Relayed;
    SweepStep(live, net, e.to, now, heard);
    SweptAndTold(e.to, net.nodes[e.to], e.info, f.lsp, now);
    var sweep := Local(e.to, LinkState.Event(Ageing, "", now), heard);
    var swept := Step(live, net, sweep);
    StepKeepsSafety(live, swept, Delivering(e, now, heard));
    VisitSends(live, swept, e, now, m, w);
    LocalTakesNothing(live, net, e.to, sweep.ev, heard, m);
    var r := Step(live, swept, Delivering(e, now, heard));
    UpdatedTwice(net.nodes, e.to, swept.nodes[e.to], r.nodes[e.to]);
  }

  lemma UpdatedTwice(nodes: map<Id, State>, v: Id, first: State, second: State)
    ensures nodes[v := first][v := second] == nodes[v := second]
  {
  }

  lemma LocalTakesNothing(live: LiveGraph, net: Net, v: Id, ev: LinkState.Event, heard: set<Id>, m: string)
    ensures !Takes(live, net, Local(v, ev, heard), m)
  {
  }

  /** A node that has forgotten passes the copy on to all but the previous hop. */
  lemma VisitPassesOn(live: LiveGraph, start: Net, events: seq<Event>, o: Id, m: string, e: Envelope, sends: nat, now: Time, w: Id)
    requires Sound(live) && Carried(live, start, events, o, m, e, sends) && e.to != o && e.info.ttl > 1
    requires w in Onward(live, e.to, e.info.via)
    requires e.to in Through(live, start, events).nodes && Forgets(Through(live, start, events).nodes[e.to], m, o, now)
    ensures Carried(live, start, events + Visit(live, e, now), o, m, Envelope(w, Relayed(e.to, e.info)),
                    sends + |Onward(live, e.to, e.info.via)|)
    ensures var net, r := Through(live, start, events), Through(live, start, events + Visit(live, e, now));
      e.to in r.nodes && r.nodes == net.nodes[e.to := r.nodes[e.to]] && Dated(r.nodes[e.to], m, o, now)
  {
    hide Safety, Forgets, Dated, Step, Takes, Onward, Through, Taken;
    var heard := Neighbours(live, e.to);
    var a, b := Local(e.to, LinkState.Event(Ageing, "", now), heard), Delivering(e, now, heard);
    assert Visit(live, e, now) == [a, b];
    TwoSteps(live, Through(live, start, events), o, m, e, now, w);
    ThroughTwo(live, start, events, a, b, m);
  }

  lemma VisitSends(live: LiveGraph, net: Net, e: Envelope, now: Time, m: string, w: Id)
    requires m in net.floods && e in net.floods[m].flying && e.info.msgId == m && e.to in net.nodes && e.info.ttl > 1
    requires w in Onward(live, e.to, e.info.via) && HandleInfo(e.to, net.nodes[e.to], e.info, now).1
    ensures var r := Step(live, net, Delivering(e, now, Neighbours(live, e.to)));
      && Takes(live, net, Delivering(e, now, Neighbours(live, e.to)), m) && m in r.floods && r.floods[m].lsp == net.floods[m].lsp
      && Envelope(w, Relayed(e.to, e.info)) in r.floods[m].flying
      && |r.floods[m].flying| + 1 == |net.floods[m].flying| + |Onward(live, e.to, e.info.via)|
      && r.nodes == net.nodes[e.to := HandleInfo(e.to, net.nodes[e.to], e.info, now).0]
  {
    hide HandleInfo;
    var out := Relay(e.to, Neighbours(live, e.to), e.info);
    RelaySize(live, e.to, e.info);
    assert Envelope(w, Relayed(e.to, e.info)) in out;
    hide Relay, Onward;
    assert |net.floods[m].flying - multiset{e} + multiset(out)| == |net.floods[m].flying| - 1 + |out|;
  }

  lemma RelaySize(live: LiveGraph, v: Id, p: Info)
    requires p.ttl > 1
    ensures |Relay(v, Neighbours(live, v), p)| == |Onward(live, v, p.via)|
  {
    var out, targets := Relay(v, Neighbours(live, v), p), Onward(live, v, p.via);
    ImageSize(targets, out, w => Envelope(w, Relayed(v, p)));
  }

  lemma {:induction false} ImageSize(s: set<Id>, image: set<Envelope>, g: Id -> Envelope)
    requires (forall x :: x in s ==> g(x) in image) && forall y :: y in image ==> y.to in s && y == g(y.to)
    requires forall x :: g(x).to == x
    ensures |image| == |s|
    decreases |s|
  {
    if x :| x in s {
      ImageSize(s - {x}, image - {g(x)}, g);
    } else {
      assert image == {};
    }
  }

  /** A triangle with `o` linked to one of its corners: eight links. */
  function Lasso(o: Id, a: Id, b: Id, c: Id): LiveGraph {
    map[o := {a}, a := {o, b, c}, b := {a, c}, c := {b, a}]
  }

  ghost predicate Distinct(o: Id, a: Id, b: Id, c: Id) {
    o != a && o != b && o != c && a != b && a != c && b != c && "" !in {o, a, b, c}
  }

  lemma LassoLinks(o: Id, a: Id, b: Id, c: Id)
    requires Distinct(o, a, b, c)
    ensures |LinksOf(Lasso(o, a, b, c), Lasso(o, a, b, c).Keys)| == 8
  {
    var live := Lasso(o, a, b, c);
    var us: set<Id> := {};
    LinksOfOneMore(live, us, o);
    LinksOfOneMore(live, {o}, a);
    LinksOfOneMore(live, {o, a}, b);
    LinksOfOneMore(live, {o, a, b}, c);
    assert LinksOf(live, us) == {} && us + {o} == {o} && {o} + {a} == {o, a} && {o, a} + {b} == {o, a, b};
    assert {o, a, b} + {c} == live.Keys;
  }

  lemma LassoIsSound(o: Id, a: Id, b: Id, c: Id)
    requires Distinct(o, a, b, c)
    ensures Sound(Lasso(o, a, b, c))
  {
  }

  lemma LassoTurns(o: Id, a: Id, b: Id, c: Id)
    requires Distinct(o, a, b, c)
    ensures var live := Lasso(o, a, b, c);
      && (forall via :: via in {o, c} ==> |Onward(live, a, via)| == 2 && b in Onward(live, a, via))
      && Onward(live, b, a) == {c} && Onward(live, c, b) == {a}
  {
    var live := Lasso(o, a, b, c);
    assert Onward(live, a, o) == {b, c} && Onward(live, a, c) == {o, b};
    assert live[b] == {a, c} && live[c] == {b, a};
  }

  /** The corners `todo` have forgotten `m` by `now`, and what the corners `done`
      have of it dates from then. */
  ghost predicate Lapping(net: Net, todo: set<Id>, done: set<Id>, m: string, o: Id, now: Time) {
    && (forall v :: v in todo ==> v in net.nodes && Forgets(net.nodes[v], m, o, now))
    && (forall v :: v in done ==> v in net.nodes && Dated(net.nodes[v], m, o, now))
  }

  lemma VisitLaps(live: LiveGraph, start: Net, events: seq<Event>, o: Id, m: string, e: Envelope, sends: nat, now: Time, w: Id,
                  todo: set<Id>, done: set<Id>)
    requires Sound(live) && Carried(live, start, events, o, m, e, sends) && e.to != o && e.info.ttl > 1
    requires w in Onward(live, e.to, e.info.via)
    requires e.to in todo && Lapping(Through(live, start, events), todo, done, m, o, now)
    ensures Carried(live, start, events + Visit(live, e, now), o, m, Envelope(w, Relayed(e.to, e.info)),
                    sends + |Onward(live, e.to, e.info.via)|)
    ensures Lapping(Through(live, start, events + Visit(live, e, now)), todo - {e.to}, done + {e.to}, m, o, now)
  {
    hide Carried, Through, Onward, Sound, Visit, Forgets, Dated;
    VisitPassesOn(live, start, events, o, m, e, sends, now, w);
  }

  function Lap(live: LiveGraph, a: Id, b: Id, c: Id, e: Envelope, now: Time): seq<Event> {
    var ab := Envelope(b, Relayed(a, e.info));
    Visit(live, e, now) + Visit(live, ab, now) + Visit(live, Envelope(c, Relayed(b, ab.info)), now)
  }

  lemma RelayedBy(v: Id, p: Info)
    ensures Relayed(v, p).via == v && Relayed(v, p).ttl == p.ttl - 1
  {
  }

  /** Past the first corner. */
  lemma FirstVisit(o: Id, a: Id, b: Id, c: Id, start: Net, events: seq<Event>, m: string, e: Envelope, sends: nat, now: Time)
    requires Distinct(o, a, b, c) && Carried(Lasso(o, a, b, c), start, events, o, m, e, sends)
    requires e.to == a && e.info.via in {o, c} && e.info.ttl > 1
    requires Lapping(Through(Lasso(o, a, b, c), start, events), {a, b, c}, {}, m, o, now)
    ensures var live := Lasso(o, a, b, c);
      var more := events + Visit(live, e, now);
      && Carried(live, start, more, o, m, Envelope(b, Relayed(a, e.info)), sends + 2)
      && Lapping(Through(live, start, more), {b, c}, {a}, m, o, now)
  {
    LassoIsSound(o, a, b, c);
    LassoTurns(o, a, b, c);
    var corners, none: set<Id> := {a, b, c}, {};
    assert corners - {a} == {b, c} && none + {a} == {a};
    hide Lasso, Carried, Lapping, Through, Onward, Sound, Visit, Relayed;
    VisitLaps(Lasso(o, a, b, c), start, events, o, m, e, sends, now, b, corners, none);
  }

  /** Past the second. */
  lemma SecondVisit(o: Id, a: Id, b: Id, c: Id, start: Net, events: seq<Event>, m: string, e: Envelope, sends: nat, now: Time)
    requires Distinct(o, a, b, c) && Carried(Lasso(o, a, b, c), start, events, o, m, e, sends)
    requires e.to == b && e.info.via == a && e.info.ttl > 1
    requires Lapping(Through(Lasso(o, a, b, c), start, events), {b, c}, {a}, m, o, now)
    ensures var live := Lasso(o, a, b, c);
      var more := events + Visit(live, e, now);
      && Carried(live, start, more, o, m, Envelope(c, Relayed(b, e.info)), sends + 1)
      && Lapping(Through(live, start, more), {c}, {a, b}, m, o, now)
  {
    LassoIsSound(o, a, b, c);
    LassoTurns(o, a, b, c);
    var rest, first := {b, c}, {a};
    assert rest - {b} == {c} && first + {b} == {a, b};
    hide Lasso, Carried, Lapping, Through, Onward, Sound, Visit, Relayed;
    VisitLaps(Lasso(o, a, b, c), start, events, o, m, e, sends, now, c, rest, first);
  }

  /** Past the third. */
  lemma ThirdVisit(o: Id, a: Id, b: Id, c: Id, start: Net, events: seq<Event>, m: string, e: Envelope, sends: nat, now: Time)
    requires Distinct(o, a, b, c) && Carried(Lasso(o, a, b, c), start, events, o, m, e, sends)
    requires e.to == c && e.info.via == b && e.info.ttl > 1
    requires Lapping(Through(Lasso(o, a, b, c), start, events), {c}, {a, b}, m, o, now)
    ensures var live := Lasso(o, a, b, c);
      var more := events + Visit(live, e, now);
      && Carried(live, start, more, o, m, Envelope(a, Relayed(c, e.info)), sends + 1)
      && Lapping(Through(live, start, more), {}, {a, b, c}, m, o, now)
  {
    LassoIsSound(o, a, b, c);
    LassoTurns(o, a, b, c);
    var rest, first := {c}, {a, b};
    assert rest - {c} == {} && first + {c} == {a, b, c};
    hide Lasso, Carried, Lapping, Through, Onward, Sound, Visit, Relayed;
    VisitLaps(Lasso(o, a, b, c), start, events, o, m, e, sends, now, a, rest, first);
  }

  /** Once round the triangle, past nodes that have forgotten. */
  lemma LapSends(o: Id, a: Id, b: Id, c: Id, start: Net, events: seq<Event>, m: string, e: Envelope, sends: nat, now: Time)
    requires Distinct(o, a, b, c) && Carried(Lasso(o, a, b, c), start, events, o, m, e, sends)
    requires e.to == a && e.info.via in {o, c} && e.info.ttl > 3
    requires Lapping(Through(Lasso(o, a, b, c), start, events), {a, b, c}, {}, m, o, now)
    ensures var live := Lasso(o, a, b, c);
      var lap := events + Lap(live, a, b, c, e, now);
      && Carried(live, start, lap, o, m, Envelope(a, Relayed(c, Relayed(b, Relayed(a, e.info)))), sends + 4)
      && Lapping(Through(live, start, lap), {}, {a, b, c}, m, o, now)
  {
    var live := Lasso(o, a, b, c);
    var ab := Envelope(b, Relayed(a, e.info));
    var bc := Envelope(c, Relayed(b, ab.info));
    RelayedBy(a, e.info);
    RelayedBy(b, ab.info);
    hide Distinct, Lasso, Carried, Lapping, Through, Visit, Relayed;
    FirstVisit(o, a, b, c, start, events, m, e, sends, now);
    SecondVisit(o, a, b, c, start, events + Visit(live, e, now), m, ab, sends + 2, now);
    ThirdVisit(o, a, b, c, start, events + Visit(live, e, now) + Visit(live, ab, now), m, bc, sends + 3, now);
    LapVisits(live, events, a, b, c, e, now);
  }

  lemma LapVisits(live: LiveGraph, events: seq<Event>, a: Id, b: Id, c: Id, e: Envelope, now: Time)
    ensures var ab := Envelope(b, Relayed(a, e.info));
      events + Visit(live, e, now) + Visit(live, ab, now) + Visit(live, Envelope(c, Relayed(b, ab.info)), now) == events + Lap(live, a, b, c, e, now)
  {
    hide Visit;
  }

  /** `o` announces: one copy, to a node that knows nothing. */
  lemma Announced(o: Id, a: Id, b: Id, c: Id, start: Net) returns (e: Envelope)
    requires Distinct(o, a, b, c) && Initial(Lasso(o, a, b, c), start)
    ensures e.to == a && e.info.via == o && e.info.ttl == BUDGET
    ensures var live := Lasso(o, a, b, c);
      var first := [Local(o, LinkState.Event(Refresh, "m", 0), Neighbours(live, o))];
      Carried(live, start, first, o, "m", e, 1) && Lapping(Through(live, start, first), {a, b, c}, {}, "m", o, 0)
  {
    var live := Lasso(o, a, b, c);
      var p := Handle(o, start.nodes[o], LinkState.Event(Refresh, "m", 0)).1.value;
    LassoIsSound(o, a, b, c);
    FirstAnnouncement(live, start, o);
    e := Envelope(a, Relayed(o, p));
    FirstCopy(o, a, b, c, p);
    FirstIsCarried(live, start, o, e);
    OthersForget(live, start, o, {a, b, c});
    hide Handle, Relay, Carried, Lapping, Lasso;
  }

  lemma FirstIsCarried(live: LiveGraph, start: Net, o: Id, e: Envelope)
    requires Sound(live) && Initial(live, start) && o in live
    requires var ev := LinkState.Event(Refresh, "m", 0);
      var emitted := Handle(o, start.nodes[o], ev).1;
      emitted.Some? && multiset(Relay(o, Neighbours(live, o), emitted.value)) == multiset{e}
    ensures Carried(live, start, [Local(o, LinkState.Event(Refresh, "m", 0), Neighbours(live, o))], o, "m", e, 1)
  {
    AfterRefresh(live, start, o);
    FirstAnnouncement(live, start, o);
    hide Handle, Relay, Through, Taken, Safety, LinkStateLimits.Weight;
  }

  lemma OthersForget(live: LiveGraph, start: Net, o: Id, us: set<Id>)
    requires Sound(live) && Initial(live, start) && o in live && us <= live.Keys && o !in us
    ensures Lapping(Through(live, start, [Local(o, LinkState.Event(Refresh, "m", 0), Neighbours(live, o))]), us, {}, "m", o, 0)
  {
    FirstAnnouncement(live, start, o);
    hide Handle, Relay, Through;
  }

  lemma FirstCopy(o: Id, a: Id, b: Id, c: Id, p: Info)
    requires Distinct(o, a, b, c) && p.via == o && p.ttl > 1
    ensures multiset(Relay(o, Neighbours(Lasso(o, a, b, c), o), p)) == multiset{Envelope(a, Relayed(o, p))}
  {
    assert Lasso(o, a, b, c)[o] == {a};
    assert Relay(o, {a}, p) == {Envelope(a, Relayed(o, p))};
  }

  lemma FirstAnnouncement(live: LiveGraph, start: Net, o: Id)
    requires Sound(live) && Initial(live, start) && o in live
    ensures var ev := LinkState.Event(Refresh, "m", 0);
      var net, emitted := Through(live, start, [Local(o, ev, Neighbours(live, o))]), Handle(o, start.nodes[o], ev).1;
      && emitted.Some? && emitted.value.via == o && emitted.value.ttl == DEFAULT_TTL
      && "m" in net.floods && net.floods["m"].flying == multiset(Relay(o, Neighbours(live, o), emitted.value))
      && net.nodes.Keys == live.Keys && forall v :: v in live && v != o ==> net.nodes[v] == start.nodes[v]
  {
    var ev := LinkState.Event(Refresh, "m", 0);
    assert [Local(o, ev, Neighbours(live, o))][..|[Local(o, ev, Neighbours(live, o))]| - 1] == [];
    hide Relay, Look;
  }

  lemma ForgottenBy(net: Net, corners: set<Id>, m: string, o: Id, late: Time)
    requires Lapping(net, {}, corners, m, o, 0) && late > SEEN_TTL
    ensures Lapping(net, corners, {}, m, o, late)
  {
  }

  lemma LapIsBetween(live: LiveGraph, a: Id, b: Id, c: Id, e: Envelope, now: Time)
    ensures forall i :: 0 <= i < |Lap(live, a, b, c, e, now)| ==> At(Lap(live, a, b, c, e, now)[i]) == now
  {
  }

  /** Eight links, nine copies: the first copy goes round twice, the second time
      late. */
  lemma TwoLapsOverrun(o: Id, a: Id, b: Id, c: Id, start: Net, late: Time) returns (events: seq<Event>)
    requires Distinct(o, a, b, c) && Initial(Lasso(o, a, b, c), start) && late > SEEN_TTL
    ensures InSpan(events, 0, late)
    ensures var net := Through(Lasso(o, a, b, c), start, events);
      "m" in net.floods && Taken(Lasso(o, a, b, c), start, events, "m") + |net.floods["m"].flying| == 9
  {
    hide Lasso, Through, Taken, Lapping, Initial, Distinct, Safety;
    var live := Lasso(o, a, b, c);
    var e := Announced(o, a, b, c, start);
    var first := [Local(o, LinkState.Event(Refresh, "m", 0), Neighbours(live, o))];
    var next := Envelope(a, Relayed(c, Relayed(b, Relayed(a, e.info))));
    LapSends(o, a, b, c, start, first, "m", e, 1, 0);
    var half := first + Lap(live, a, b, c, e, 0);
    ForgottenBy(Through(live, start, half), {a, b, c}, "m", o, late);
    LapSends(o, a, b, c, start, half, "m", next, 5, late);
    events := half + Lap(live, a, b, c, next, late);
    LapIsBetween(live, a, b, c, e, 0);
    LapIsBetween(live, a, b, c, next, late);
    hide Lap;
  }

  /** In runs that last no longer than `span`, with losses, expiry and late copies,
      no announcement causes more copies than there are live links. */
  ghost predicate CopiesWithinLinks(span: Time) {
    forall live: LiveGraph, start, events, m, begin ::
      Sound(live) && Initial(live, start) && InSpan(events, begin, span) && m in Through(live, start, events).floods ==>
        Taken(live, start, events, m) + |Through(live, start, events).floods[m].flying| <= |LinksOf(live, live.Keys)|
  }

  /** Exactly how long: as long as a cache remembers. */
  lemma LinksBoundIffWithinMemory(span: Time)
    ensures CopiesWithinLinks(span) <==> span <= SEEN_TTL
  {
    hide Through, Taken;
    if span <= SEEN_TTL {
      forall live: LiveGraph, start, events, m, begin |
        Sound(live) && Initial(live, start) && InSpan(events, begin, span) && m in Through(live, start, events).floods
        ensures Taken(live, start, events, m) + |Through(live, start, events).floods[m].flying| <= |LinksOf(live, live.Keys)|
      {
        LinksBoundCopies(live, start, events, m, begin);
      }
    } else {
      var o, a, b, c := "o", "a", "b", "c";
      assert o[0] != a[0] && o[0] != b[0] && o[0] != c[0] && a[0] != b[0] && a[0] != c[0] && b[0] != c[0];
      var live := Lasso(o, a, b, c);
      var start := Net.Net(map v | v in live :: INITIAL, map[], map[]);
      assert Initial(live, start);
      var events := TwoLapsOverrun(o, a, b, c, start, span);
      LassoLinks(o, a, b, c);
      LassoIsSound(o, a, b, c);
    }
  }
}
