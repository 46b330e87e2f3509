/** The refresh heals: whatever was lost, forgotten or expired before, one flood of
    an origin's latest announcement that is itself spared brings everyone up to date. */
module Healing {
  import opened Ordering
  import opened SeenCaches
  import opened LinkState
  import opened FloodCore
  import opened LinkStateFlood
  import opened LinkStateRuns
  import LinkStateLimits

  type Net = LinkStateFlood.Net
  type Event = LinkStateFlood.Event

  /** The event spares announcement `m` of `o`: who announces it or passes it on
      knows all its neighbours, no copy of it is lost, no entry with its number
      expires, and nothing of `o` arrives that is a restart gap behind it. All else
      may go wrong. */
  ghost predicate Sparing(live: LiveGraph, net: Net, ev: Event, o: Id, m: string) {
    match ev
    case Local(v, local, heard) =>
      && (m !in net.floods && local.msgId == m ==> heard == Neighbours(live, v))
      && (m in net.floods && local.input.Ageing? && v in net.nodes && o in net.nodes[v].lsdb
          && net.nodes[v].lsdb[o].number == net.floods[m].lsp.number ==>
            local.now - net.nodes[v].lsdb[o].refreshed <= LSP_MAX_AGE)
    case Delivering(e, _, heard) =>
      && (m in net.floods && e.info.msgId == m ==> heard == Neighbours(live, e.to))
      && (m in net.floods && e.info.msgId in net.floods && net.floods[e.info.msgId].lsp.origin == o ==>
            net.floods[m].lsp.number - net.floods[e.info.msgId].lsp.number < SEQ_RESET_GAP)
    case Losing(e, _) => m in net.floods ==> e.info.msgId != m
  }

  ghost predicate IsLatest(net: Net, o: Id, m: string) {
    m in net.floods && o in net.latest && net.latest[o] == m
  }

  /** The announcement is the only one of `o` with its number, and `o` still has
      that number and the neighbours it names. */
  ghost predicate Newest(net: Net, o: Id, m: string)
    requires m in net.floods
  {
    var lsp := net.floods[m].lsp;
    && lsp.origin == o && o in net.nodes
    && net.nodes[o].number == lsp.number && net.nodes[o].links.Keys == lsp.links.Keys
    && forall n :: n in net.floods && net.floods[n].lsp.origin == o && net.floods[n].lsp.number == lsp.number ==> n == m
  }

  /** Exactly the nodes that have handled it have its number on file, and only they
      remember it. */
  ghost predicate Caught(net: Net, v: Id, o: Id, m: string)
    requires m in net.floods
  {
    v in net.nodes ==>
      && (m in net.nodes[v].seen ==> v in net.floods[m].level)
      && (v != o ==>
            (v in net.floods[m].level <==>
               o in net.nodes[v].lsdb && net.nodes[v].lsdb[o].number == net.floods[m].lsp.number))
  }

  ghost predicate Spreads(live: LiveGraph, net: Net, o: Id, m: string)
    requires m in net.floods
  {
    var f := net.floods[m];
    Safe(live, o, BUDGET, f.level, CopiesIn(f.flying)) && Covered(live, BUDGET, {}, f.level, CopiesIn(f.flying))
  }

  ghost predicate Heals(live: LiveGraph, net: Net, o: Id, m: string) {
    IsLatest(net, o, m) ==>
      && Newest(net, o, m) && Spreads(live, net, o, m)
      && forall v :: Caught(net, v, o, m)
  }

  // ------------------------------------------------------------ one event

  /** What an announcement of `o` under the new id `m` does to the network. */
  lemma Announced(live: LiveGraph, net: Net, v: Id, ev: LinkState.Event, heard: set<Id>, o: Id, m: string)
    requires Sound(live) && Safety(live, net) && Possible(live, net, Local(v, ev, heard)) && m !in net.floods
    requires IsLatest(Occur(live, net, Local(v, ev, heard)), o, m)
    ensures v == o && m == ev.msgId && Emits(net, o, ev)
    ensures var r := Occur(live, net, Local(v, ev, heard));
      && r.floods.Keys == net.floods.Keys + {m} && (forall n :: n in net.floods ==> r.floods[n] == net.floods[n])
      && r.floods[m].level == map[o := 0] && r.floods[m].lsp == Lsp(o, net.nodes[o].number + 1, r.nodes[o].links)
      && r.nodes == net.nodes[o := r.nodes[o]] && r.nodes[o].number == net.nodes[o].number + 1
      && r.nodes[o].seen.Keys <= net.nodes[o].seen.Keys + {m}
  {
    assert Known(net);
    LocalEffect(v, net.nodes[v], ev);
    hide Handle, Relay, FloodSafe, EntrySafe;
  }

  lemma AnnouncedIsNewest(live: LiveGraph, net: Net, ev: LinkState.Event, heard: set<Id>, o: Id, m: string)
    requires Sound(live) && Safety(live, net) && Possible(live, net, Local(o, ev, heard)) && m !in net.floods
    requires IsLatest(Occur(live, net, Local(o, ev, heard)), o, m)
    ensures Newest(Occur(live, net, Local(o, ev, heard)), o, m)
  {
    Announced(live, net, o, ev, heard, o, m);
    hide Occur, EntrySafe, Known;
    var r := Occur(live, net, Local(o, ev, heard));
    forall n | n in r.floods && r.floods[n].lsp.origin == o && r.floods[n].lsp.number == r.floods[m].lsp.number
      ensures n == m
    {
      assert FloodSafe(live, net, n);
    }
  }

  lemma AnnouncedIsCaught(live: LiveGraph, net: Net, ev: LinkState.Event, heard: set<Id>, o: Id, m: string, u: Id)
    requires Sound(live) && Safety(live, net) && Possible(live, net, Local(o, ev, heard)) && m !in net.floods
    requires IsLatest(Occur(live, net, Local(o, ev, heard)), o, m)
    ensures Caught(Occur(live, net, Local(o, ev, heard)), u, o, m)
  {
    Announced(live, net, o, ev, heard, o, m);
    hide Occur, FloodSafe, Within;
    assert Known(net) && EntrySafe(live, net, u, o);
  }

  lemma AnnouncedSpreads(live: LiveGraph, net: Net, ev: LinkState.Event, heard: set<Id>, o: Id, m: string)
    requires Sound(live) && Safety(live, net) && Possible(live, net, Local(o, ev, heard)) && m !in net.floods
    requires IsLatest(Occur(live, net, Local(o, ev, heard)), o, m)
    ensures heard == Neighbours(live, o) ==> Spreads(live, Occur(live, net, Local(o, ev, heard)), o, m)
  {
    Announced(live, net, o, ev, heard, o, m);
    LocalEffect(o, net.nodes[o], ev);
    hide Handle, Relay, Safe, Covered, CopiesIn, Started, FloodSafe, EntrySafe;
    StartCopies(live, o, Handle(o, net.nodes[o], ev).1.value, heard);
    StartIsSafe(live, o, BUDGET, {});
  }

  /** The announcement is made. */
  lemma AnnouncingHeals(live: LiveGraph, net: Net, v: Id, ev: LinkState.Event, heard: set<Id>, o: Id, m: string)
    requires Sound(live) && Safety(live, net) && Possible(live, net, Local(v, ev, heard)) && m !in net.floods
    requires Sparing(live, net, Local(v, ev, heard), o, m)
    ensures Heals(live, Occur(live, net, Local(v, ev, heard)), o, m)
  {
    var r := Occur(live, net, Local(v, ev, heard));
    if IsLatest(r, o, m) {
      Announced(live, net, v, ev, heard, o, m);
      hide Safety, Occur, Newest, Spreads, Caught;
      AnnouncedIsNewest(live, net, ev, heard, o, m);
      AnnouncedSpreads(live, net, ev, heard, o, m);
      forall u ensures Caught(r, u, o, m) { AnnouncedIsCaught(live, net, ev, heard, o, m, u); }
    }
  }

  /** A local event while the announcement is under way, and stays the latest. */
  lemma LocalEffects(live: LiveGraph, net: Net, v: Id, ev: LinkState.Event, heard: set<Id>, o: Id, m: string)
    requires Possible(live, net, Local(v, ev, heard)) && m in net.floods && IsLatest(Occur(live, net, Local(v, ev, heard)), o, m)
    ensures var r := Occur(live, net, Local(v, ev, heard));
      && IsLatest(net, o, m) && r.floods[m] == net.floods[m] && r.nodes == net.nodes[v := r.nodes[v]]
      && (forall n :: n in r.floods && n !in net.floods ==> r.floods[n].lsp.origin != o)
      && (forall n :: n in net.floods ==> n in r.floods && r.floods[n] == net.floods[n])
      && (v == o ==> r.nodes[o].number == net.nodes[o].number && r.nodes[o].links.Keys == net.nodes[o].links.Keys)
      && (m in r.nodes[v].seen ==> m in net.nodes[v].seen)
      && NothingFiled(net.nodes[v].lsdb, r.nodes[v].lsdb)
  {
    LocalEffect(v, net.nodes[v], ev);
    hide Handle, Relay;
  }

  lemma KeepsEntry(v: Id, st: State, ev: LinkState.Event, o: Id)
    requires !ev.input.Received?
    ensures o in st.lsdb && (ev.input.Ageing? ==> ev.now - st.lsdb[o].refreshed <= LSP_MAX_AGE) ==>
              o in Handle(v, st, ev).0.lsdb
  {
    hide TableFor, Look;
  }

  lemma LocalHeals(live: LiveGraph, net: Net, v: Id, ev: LinkState.Event, heard: set<Id>, o: Id, m: string)
    requires Heals(live, net, o, m) && m in net.floods
    requires Possible(live, net, Local(v, ev, heard)) && Sparing(live, net, Local(v, ev, heard), o, m)
    ensures Heals(live, Occur(live, net, Local(v, ev, heard)), o, m)
  {
    var r := Occur(live, net, Local(v, ev, heard));
    hide Spreads, Caught;
    if IsLatest(r, o, m) {
      LocalEffects(live, net, v, ev, heard, o, m);
      SpreadsBy(live, net, r, o, m);
      forall u ensures Caught(r, u, o, m) { LocalKeepsCaught(live, net, v, ev, heard, o, m, u); }
      hide Occur;
    }
  }

  lemma SpreadsBy(live: LiveGraph, net: Net, net': Net, o: Id, m: string)
    requires m in net.floods && m in net'.floods && net'.floods[m] == net.floods[m] && Spreads(live, net, o, m)
    ensures Spreads(live, net', o, m)
  {
  }

  lemma LocalKeepsCaught(live: LiveGraph, net: Net, v: Id, ev: LinkState.Event, heard: set<Id>, o: Id, m: string, u: Id)
    requires m in net.floods && Caught(net, u, o, m) && Possible(live, net, Local(v, ev, heard)) && Sparing(live, net, Local(v, ev, heard), o, m)
    requires IsLatest(Occur(live, net, Local(v, ev, heard)), o, m)
    ensures Caught(Occur(live, net, Local(v, ev, heard)), u, o, m)
  {
    LocalEffects(live, net, v, ev, heard, o, m);
    KeepsEntry(v, net.nodes[v], ev, o);
    hide Handle, Relay;
  }

  // ------------------------------------------------------------ deliveries

  /** What the network looks like while the latest announcement of `o` spreads. */
  ghost predicate Spreading(live: LiveGraph, net: Net, o: Id, m: string) {
    && Sound(live) && Safety(live, net) && IsLatest(net, o, m)
    && Newest(net, o, m) && Spreads(live, net, o, m) && forall v :: Caught(net, v, o, m)
  }

  /** A copy of the latest is taken exactly by those who have not handled it. */
  lemma LatestIsTaken(live: LiveGraph, net: Net, e: Envelope, now: Time, o: Id, m: string)
    requires Spreading(live, net, o, m) && InFlight(net, e) && e.to in net.nodes && e.info.msgId == m
    ensures HandleInfo(e.to, net.nodes[e.to], e.info, now).1 <==> e.to !in net.floods[m].level
  {
    hide TableFor, Look, Covered;
    LookKeys(net.nodes[e.to].seen, m, now, SEEN_TTL);
    assert Caught(net, e.to, o, m) && EntrySafe(live, net, e.to, o);
    assert FloodSafe(live, net, m) && CopyOk(live, net.floods[m], m, e);
  }

  /** A copy of another announcement is taken by none that have handled the latest
      of its origin. */
  lemma OthersKeepLatest(live: LiveGraph, net: Net, e: Envelope, now: Time, o: Id, m: string)
    requires Spreading(live, net, o, m) && InFlight(net, e) && e.to in net.nodes && e.info.msgId != m
    requires net.floods[e.info.msgId].lsp.origin == o && e.to in net.floods[m].level
    requires net.floods[m].lsp.number - net.floods[e.info.msgId].lsp.number < SEQ_RESET_GAP
    ensures !HandleInfo(e.to, net.nodes[e.to], e.info, now).1
  {
    hide TableFor, Look, Covered;
    assert Caught(net, e.to, o, m) && EntrySafe(live, net, e.to, o);
    var n := e.info.msgId;
    assert FloodSafe(live, net, n) && CopyOk(live, net.floods[n], n, e);
  }

  lemma DeliveryShape(live: LiveGraph, net: Net, e: Envelope, now: Time, heard: set<Id>)
    requires Possible(live, net, Delivering(e, now, heard))
    ensures var r := Occur(live, net, Delivering(e, now, heard));
      && r.latest == net.latest && r.floods.Keys == net.floods.Keys
      && (forall n :: n in net.floods ==> r.floods[n].lsp == net.floods[n].lsp)
      && (forall n :: n in net.floods && n != e.info.msgId ==> r.floods[n] == net.floods[n])
      && r.nodes == net.nodes[e.to := HandleInfo(e.to, net.nodes[e.to], e.info, now).0]
      && r.floods[e.info.msgId].level == LinkStateFlood.LevelsAfter(net.floods[e.info.msgId].level, e)
  {
    hide HandleInfo, Relay;
  }

  /** What arrives is of the announcement its id names. */
  lemma DeliveryEffect(live: LiveGraph, net: Net, e: Envelope, now: Time)
    requires Safety(live, net) && InFlight(net, e) && e.to in net.nodes
    ensures var st, lsp := net.nodes[e.to], net.floods[e.info.msgId].lsp;
      var (st', relayed) := HandleInfo(e.to, st, e.info, now);
      && st'.links == st.links && st'.number == st.number && st'.seen.Keys <= st.seen.Keys + {e.info.msgId}
      && (relayed ==> lsp.origin != e.to && st'.lsdb == st.lsdb[lsp.origin := Entry(lsp.number, lsp.links, now)])
      && (!relayed ==> SameAnnouncements(st'.lsdb, st.lsdb))
  {
    var f := net.floods[e.info.msgId];
    assert FloodSafe(live, net, e.info.msgId) && CopyOk(live, f, e.info.msgId, e);
    InfoEffect(e.to, net.nodes[e.to], e.info, f.lsp, now);
    hide HandleInfo;
  }

  lemma DeliveringKeepsNewest(live: LiveGraph, net: Net, e: Envelope, now: Time, heard: set<Id>, o: Id, m: string)
    requires Spreading(live, net, o, m) && Possible(live, net, Delivering(e, now, heard))
    ensures Newest(Occur(live, net, Delivering(e, now, heard)), o, m)
  {
    DeliveryShape(live, net, e, now, heard);
    DeliveryEffect(live, net, e, now);
    hide HandleInfo, Occur, Safety, Spreads, Caught;
  }

  lemma CopyFromHandled(live: LiveGraph, net: Net, e: Envelope, o: Id, m: string)
    requires Spreading(live, net, o, m) && e in net.floods[m].flying
    ensures AsCopy(e) in CopiesIn(net.floods[m].flying) && e.info.via in net.floods[m].level && o in net.floods[m].level
  {
    hide Covered;
    assert AsCopy(e) in CopiesIn(net.floods[m].flying);
  }

  lemma LatestKeepsCaught(live: LiveGraph, net: Net, e: Envelope, now: Time, heard: set<Id>, o: Id, m: string)
    requires Spreading(live, net, o, m) && Possible(live, net, Delivering(e, now, heard)) && e.info.msgId == m
    ensures m in Occur(live, net, Delivering(e, now, heard)).floods && Caught(Occur(live, net, Delivering(e, now, heard)), e.to, o, m)
  {
    DeliveryShape(live, net, e, now, heard);
    DeliveryEffect(live, net, e, now);
    assert Caught(net, e.to, o, m);
    LatestIsTaken(live, net, e, now, o, m);
    CopyFromHandled(live, net, e, o, m);
    hide HandleInfo, Occur, Safety, Spreads, Sound;
  }

  lemma OthersKeepCaught(live: LiveGraph, net: Net, e: Envelope, now: Time, heard: set<Id>, o: Id, m: string)
    requires Spreading(live, net, o, m) && Possible(live, net, Delivering(e, now, heard)) && Sparing(live, net, Delivering(e, now, heard), o, m)
    requires e.info.msgId != m
    ensures m in Occur(live, net, Delivering(e, now, heard)).floods && Caught(Occur(live, net, Delivering(e, now, heard)), e.to, o, m)
  {
    hide HandleInfo, Occur, Safety, Spreads, Sound;
    DeliveryShape(live, net, e, now, heard);
    DeliveryEffect(live, net, e, now);
    assert Caught(net, e.to, o, m);
    if net.floods[e.info.msgId].lsp.origin == o && e.to in net.floods[m].level { OthersKeepLatest(live, net, e, now, o, m); }
  }

  lemma ElsewhereKeepsCaught(live: LiveGraph, net: Net, e: Envelope, now: Time, heard: set<Id>, o: Id, m: string, u: Id)
    requires Spreading(live, net, o, m) && Possible(live, net, Delivering(e, now, heard)) && u != e.to
    ensures m in Occur(live, net, Delivering(e, now, heard)).floods && Caught(Occur(live, net, Delivering(e, now, heard)), u, o, m)
  {
    hide Occur, HandleInfo, Safety, Spreads, Sound, Newest;
    DeliveryShape(live, net, e, now, heard);
    assert Caught(net, u, o, m);
  }

  lemma DeliveringKeepsCaught(live: LiveGraph, net: Net, e: Envelope, now: Time, heard: set<Id>, o: Id, m: string, u: Id)
    requires Spreading(live, net, o, m) && Possible(live, net, Delivering(e, now, heard)) && Sparing(live, net, Delivering(e, now, heard), o, m)
    ensures m in Occur(live, net, Delivering(e, now, heard)).floods && Caught(Occur(live, net, Delivering(e, now, heard)), u, o, m)
  {
    hide Spreading, Sparing, Caught, Occur;
    if u != e.to {
      ElsewhereKeepsCaught(live, net, e, now, heard, o, m, u);
    } else if e.info.msgId == m {
      LatestKeepsCaught(live, net, e, now, heard, o, m);
    } else {
      OthersKeepCaught(live, net, e, now, heard, o, m);
    }
  }

  lemma DeliveringKeepsSpreads(live: LiveGraph, net: Net, e: Envelope, now: Time, heard: set<Id>, o: Id, m: string)
    requires Spreading(live, net, o, m) && Possible(live, net, Delivering(e, now, heard)) && Sparing(live, net, Delivering(e, now, heard), o, m)
    ensures m in Occur(live, net, Delivering(e, now, heard)).floods && Spreads(live, Occur(live, net, Delivering(e, now, heard)), o, m)
  {
    var r, f := Occur(live, net, Delivering(e, now, heard)), net.floods[m];
    DeliveryShape(live, net, e, now, heard);
    if e.info.msgId == m {
      LatestIsTaken(live, net, e, now, o, m);
      CopyFromHandled(live, net, e, o, m);
      assert e.to in live;
      var out := Sent(net, e, now, heard);
      assert r.floods[m].flying == f.flying - multiset{e} + multiset(out);
      FlightAfter(f.flying, e, out);
      RelayedCopies(live, e, heard);
      hide Occur, HandleInfo, Relay, Safe, Covered, CopiesIn, PassedOn, Safety, Caught;
      var before, after, c := CopiesIn(f.flying), CopiesIn(r.floods[m].flying), AsCopy(e);
      if e.to in f.level {
        RepeatKeepsSafe(live, o, BUDGET, f.level, before, after);
        RepeatKeepsCovered(live, BUDGET, {}, f.level, before, after, c);
      } else {
        FirstKeepsSafe(live, o, BUDGET, f.level, before, after, c);
        FirstKeepsCovered(live, o, BUDGET, {}, f.level, before, after, c);
      }
    }
  }

  lemma DeliveringHeals(live: LiveGraph, net: Net, e: Envelope, now: Time, heard: set<Id>, o: Id, m: string)
    requires Sound(live) && Safety(live, net) && Heals(live, net, o, m) && m in net.floods
    requires Possible(live, net, Delivering(e, now, heard)) && Sparing(live, net, Delivering(e, now, heard), o, m)
    ensures Heals(live, Occur(live, net, Delivering(e, now, heard)), o, m)
  {
    var r := Occur(live, net, Delivering(e, now, heard));
    DeliveryShape(live, net, e, now, heard);
    hide Occur, Safety, Newest, Spreads, Caught, Sparing;
    if IsLatest(r, o, m) {
      DeliveringKeepsNewest(live, net, e, now, heard, o, m);
      DeliveringKeepsSpreads(live, net, e, now, heard, o, m);
      forall u ensures Caught(r, u, o, m) { DeliveringKeepsCaught(live, net, e, now, heard, o, m, u); }
    }
  }

  lemma LosingHeals(live: LiveGraph, net: Net, e: Envelope, now: Time, o: Id, m: string)
    requires Heals(live, net, o, m) && m in net.floods && Possible(live, net, Losing(e, now)) && e.info.msgId != m
    ensures Heals(live, Occur(live, net, Losing(e, now)), o, m)
  {
    var r := Occur(live, net, Losing(e, now));
    hide Safe, Covered, CopiesIn;
    if IsLatest(r, o, m) {
      forall u ensures Caught(r, u, o, m) { assert Caught(net, u, o, m); }
    }
  }

  // ------------------------------------------------------------ whole runs

  lemma StepHeals(live: LiveGraph, net: Net, ev: Event, o: Id, m: string)
    requires Sound(live) && Safety(live, net) && Heals(live, net, o, m) && Sparing(live, net, ev, o, m)
    ensures Heals(live, Step(live, net, ev), o, m)
  {
    hide Safety, Heals, Sparing;
    if Possible(live, net, ev) {
      if m in net.floods {
        match ev
        case Local(v, local, heard) => LocalHeals(live, net, v, local, heard, o, m);
        case Delivering(e, now, heard) => DeliveringHeals(live, net, e, now, heard, o, m);
        case Losing(e, now) =>
          LosesAnother(live, net, e, now, o, m);
          LosingHeals(live, net, e, now, o, m);
      } else {
        NotYetMade(live, net, ev, o, m);
      }
    }
  }

  lemma LosesAnother(live: LiveGraph, net: Net, e: Envelope, now: Time, o: Id, m: string)
    requires m in net.floods && Sparing(live, net, Losing(e, now), o, m)
    ensures e.info.msgId != m
  {
  }

  lemma NotYetMade(live: LiveGraph, net: Net, ev: Event, o: Id, m: string)
    requires Sound(live) && Safety(live, net) && Possible(live, net, ev) && m !in net.floods && Sparing(live, net, ev, o, m)
    ensures Heals(live, Occur(live, net, ev), o, m)
  {
    match ev
    case Local(v, local, heard) => AnnouncingHeals(live, net, v, local, heard, o, m);
    case Delivering(e, now, heard) => DeliveryShape(live, net, e, now, heard); hide Occur;
    case Losing(e, now) =>
  }

  /** Every event of a run from the `k`th on spares announcement `m` of `o`. */
  ghost predicate SparedFrom(live: LiveGraph, start: Net, events: seq<Event>, k: nat, o: Id, m: string) {
    forall i :: k <= i < |events| ==> Sparing(live, Through(live, start, events[..i]), events[i], o, m)
  }

  lemma {:induction false} RunHeals(live: LiveGraph, start: Net, events: seq<Event>, k: nat, o: Id, m: string)
    requires Sound(live) && Initial(live, start) && k <= |events|
    requires m !in Through(live, start, events[..k]).floods && SparedFrom(live, start, events, k, o, m)
    ensures Heals(live, Through(live, start, events), o, m)
    decreases |events|
  {
    hide Step, Sparing;
    if k == |events| {
      assert events[..k] == events;
    } else {
      var n := |events| - 1;
      var before := events[..n];
      assert before[..k] == events[..k];
      forall i | k <= i < n ensures Sparing(live, Through(live, start, before[..i]), before[i], o, m) {
        assert before[..i] == events[..i];
      }
      RunHeals(live, start, before, k, o, m);
      RunIsSafe(live, start, before);
      hide Heals, Safety;
      StepHeals(live, Through(live, start, before), events[n], o, m);
    }
  }

  /** Healing: in a run in which anything may have been lost, may have expired or
      come late before `o` made announcement `m`, if what came after spared `m`,
      `m` is still the latest of `o`, and no copy of it is left in flight, then on at
      most sixteen nodes every node that the live graph connects to `o` has exactly
      `m` on file: the number of `o`, the links it announced under it, and so its
      neighbours of now. */
  lemma LatestHeals(live: LiveGraph, start: Net, events: seq<Event>, k: nat, o: Id, m: string, v: Id)
    requires Sound(live) && Initial(live, start) && |live.Keys| <= BUDGET + 1 && k <= |events|
    requires m !in Through(live, start, events[..k]).floods && SparedFrom(live, start, events, k, o, m)
    requires var net := Through(live, start, events); IsLatest(net, o, m) && net.floods[m].flying == multiset{}
    requires v != o && Reachable(live, {}, o, v)
    ensures var net := Through(live, start, events); o in net.nodes && v in net.nodes && UpToDate(net, v, o)
  {
    RunHeals(live, start, events, k, o, m);
    RunIsSafe(live, start, events);
    hide Through, SparedFrom;
    HealedIsUpToDate(live, Through(live, start, events), o, m, v);
  }

  lemma HealedIsUpToDate(live: LiveGraph, net: Net, o: Id, m: string, v: Id)
    requires Sound(live) && |live.Keys| <= BUDGET + 1 && Safety(live, net) && Heals(live, net, o, m)
    requires IsLatest(net, o, m) && net.floods[m].flying == multiset{} && v != o && Reachable(live, {}, o, v)
    ensures o in net.nodes && v in net.nodes && UpToDate(net, v, o)
  {
    var f := net.floods[m];
    assert CopiesIn(f.flying) == {};
    QuietMeansReached(live, o, BUDGET, {}, f.level, v);
    hide Covered;
    assert Caught(net, v, o, m) && EntrySafe(live, net, v, o);
    var n :| Says(net, n, Lsp(o, net.nodes[v].lsdb[o].number, net.nodes[v].lsdb[o].links));
  }

  // ---------------------------------------------------------- orderly runs

  /** Nothing is lost, and all nodes know all their neighbours. */
  ghost predicate Whole(live: LiveGraph, events: seq<Event>) {
    forall i :: 0 <= i < |events| ==> match events[i]
      case Local(v, _, heard) => heard == Neighbours(live, v)
      case Delivering(e, _, heard) => heard == Neighbours(live, e.to)
      case Losing(_, _) => false
  }

  lemma OrderlySpares(live: LiveGraph, net: Net, ev: Event, o: Id, m: string)
    requires Inv(live, net) && Safety(live, net) && Enabled(live, net, ev) && Whole(live, [ev])
    requires m in net.floods ==> net.floods[m].lsp.origin == o
    ensures Sparing(live, net, ev, o, m)
  {
    assert [ev][0] == ev;
    if ev.Delivering? { assert NumberOk(net, ev.e.info.msgId) && NumberOk(net, m); }
  }

  lemma {:induction false} OrderlyHeals(live: LiveGraph, start: Net, events: seq<Event>, o: Id, m: string)
    requires Sound(live) && Initial(live, start) && Whole(live, events)
    ensures Safety(live, LinkStateFlood.After(live, start, events)) && Heals(live, LinkStateFlood.After(live, start, events), o, m)
  {
    hide Apply, Safety, Heals, Occur, Enabled, LinkStateFlood.Inv, Sparing;
    if events == [] {
      InitialSafety(live, start);
      NothingYet(live, start, o, m);
    } else {
      var before, ev := events[..|events| - 1], events[|events| - 1];
      var net := LinkStateFlood.After(live, start, before);
      OrderlyHeals(live, start, before, o, m);
      RunKeepsInv(live, start, before);
      OrderlyStep(live, net, ev, o, m);
    }
  }

  lemma NothingYet(live: LiveGraph, net: Net, o: Id, m: string)
    requires net.floods == map[]
    ensures Heals(live, net, o, m)
  {
  }

  lemma OrderlyStep(live: LiveGraph, net: Net, ev: Event, o: Id, m: string)
    requires Sound(live) && Inv(live, net) && Safety(live, net) && Heals(live, net, o, m) && Whole(live, [ev])
    ensures Safety(live, Apply(live, net, ev)) && Heals(live, Apply(live, net, ev), o, m)
  {
    hide Safety, Heals, Occur, Inv, Sparing;
    if Enabled(live, net, ev) {
      assert Apply(live, net, ev) == Step(live, net, ev);
      StepKeepsSafety(live, net, ev);
      if m in net.floods && net.floods[m].lsp.origin != o {
        StaysAnothers(live, net, ev, o, m);
      } else {
        OrderlySpares(live, net, ev, o, m);
        StepHeals(live, net, ev, o, m);
      }
    }
  }

  /** An announcement of another node is never the latest of `o`. */
  lemma StaysAnothers(live: LiveGraph, net: Net, ev: Event, o: Id, m: string)
    requires Inv(live, net) && Enabled(live, net, ev) && m in net.floods && net.floods[m].lsp.origin != o
    ensures Heals(live, Step(live, net, ev), o, m)
  {
    assert OriginOk(net, o);
    hide Inv, Handle, HandleInfo, Relay;
    if ev.Local? { LocalState(live, net, ev.v, ev.ev, ev.heard); }
  }

  /** Convergence: on at most sixteen nodes that know their neighbours, in every order
      of announcements and deliveries, once no copy is in flight every node that the
      live graph connects to an origin has that origin's highest number, the links
      announced under it, and so its neighbours of now, on file. */
  lemma FloodConverges(live: LiveGraph, start: Net, events: seq<Event>, o: Id, v: Id)
    requires Sound(live) && Initial(live, start) && |live.Keys| <= BUDGET + 1 && Whole(live, events)
    requires Quiet(LinkStateFlood.After(live, start, events)) && o in live && v != o && Reachable(live, {}, o, v)
    ensures UpToDate(LinkStateFlood.After(live, start, events), v, o)
  {
    var net := LinkStateFlood.After(live, start, events);
    OrderlyHeals(live, start, events, o, "");
    RunKeepsInv(live, start, events);
    assert OriginOk(net, o) by { hide LinkStateFlood.After; }
    if o in net.latest {
      OrderlyHeals(live, start, events, o, net.latest[o]);
      hide LinkStateFlood.After, Inv;
      HealedIsUpToDate(live, net, o, net.latest[o], v);
    } else {
      hide LinkStateFlood.After, Whole;
      assert Backed(net, v, o);
      if v in net.nodes && o in net.nodes[v].lsdb { NoNewerThanLatest(live, net, v, o); }
    }
  }

  // ------------------------------------------------ a refresh always heals

  /** Deliveries of copies of `m` to nodes that know all their neighbours. */
  ghost predicate OnlyDelivers(live: LiveGraph, more: seq<Event>, m: string) {
    forall i :: 0 <= i < |more| ==>
      && more[i].Delivering? && more[i].e.info.msgId == m && more[i].now == 0
      && more[i].e.to in live && more[i].heard == live[more[i].e.to]
  }

  /** Every one of `more` can happen in its turn. */
  ghost predicate AllHappen(live: LiveGraph, start: Net, events: seq<Event>, more: seq<Event>) {
    forall i :: 0 <= i < |more| ==> Possible(live, Through(live, start, events + more[..i]), more[i])
  }

  lemma HappensFirst(live: LiveGraph, start: Net, events: seq<Event>, ev: Event, more: seq<Event>)
    requires Possible(live, Through(live, start, events), ev) && AllHappen(live, start, events + [ev], more)
    ensures AllHappen(live, start, events, [ev] + more)
  {
    hide Possible, Through;
    var all := [ev] + more;
    forall i | 0 <= i < |all| ensures Possible(live, Through(live, start, events + all[..i]), all[i]) {
      if i == 0 {
        assert events + all[..0] == events;
      } else {
        assert events + all[..i] == events + [ev] + more[..i - 1];
      }
    }
  }

  lemma FlyingArrives(live: LiveGraph, net: Net, m: string, e: Envelope)
    requires Safety(live, net) && m in net.floods && e in net.floods[m].flying
    ensures e.info.msgId == m && e.to in live && Possible(live, net, Delivering(e, 0, Neighbours(live, e.to)))
    ensures var r := Occur(live, net, Delivering(e, 0, Neighbours(live, e.to)));
      m in r.floods && r.latest == net.latest && LinkStateLimits.Weight(live, r.floods[m]) < LinkStateLimits.Weight(live, net.floods[m])
  {
    assert FloodSafe(live, net, m) && CopyOk(live, net.floods[m], m, e);
    LinkStateLimits.DeliveryWeighs(live, net, e, 0, Neighbours(live, e.to));
    DeliveryShape(live, net, e, 0, Neighbours(live, e.to));
    hide Occur, Safety, LinkStateLimits.Weight;
  }

  /** The copies of `m` are delivered until there are none. */
  lemma {:induction false} DrainOne(live: LiveGraph, start: Net, events: seq<Event>, m: string) returns (more: seq<Event>)
    requires Sound(live) && Initial(live, start) && m in Through(live, start, events).floods
    ensures OnlyDelivers(live, more, m) && AllHappen(live, start, events, more)
    ensures var net, r := Through(live, start, events), Through(live, start, events + more);
      m in r.floods && r.floods[m].flying == multiset{} && r.latest == net.latest
    decreases LinkStateLimits.Weight(live, Through(live, start, events).floods[m])
  {
    hide Step, Occur, Possible, LinkStateLimits.Weight, Safety, OnlyDelivers, Through, Neighbours, Sound, Initial;
    NothingDelivered(live, m);
    var net := Through(live, start, events);
    more := [];
    assert events + more == events;
    if e :| e in net.floods[m].flying {
      var ev := Delivering(e, 0, Neighbours(live, e.to));
      RunIsSafe(live, start, events);
      FlyingArrives(live, net, m, e);
      ThroughNext(live, start, events, ev);
      StepIsOccur(live, net, ev);
      more := DrainOne(live, start, events + [ev], m);
      assert events + [ev] + more == events + ([ev] + more);
      DeliversFirst(live, e, m, more);
      HappensFirst(live, start, events, ev, more);
      more := [ev] + more;
    }
  }

  lemma ThroughNext(live: LiveGraph, start: Net, events: seq<Event>, ev: Event)
    ensures Through(live, start, events + [ev]) == Step(live, Through(live, start, events), ev)
  {
    hide Step;
    assert (events + [ev])[..|events|] == events;
  }

  lemma NothingDelivered(live: LiveGraph, m: string)
    ensures OnlyDelivers(live, [], m)
  {
  }

  lemma DeliversFirst(live: LiveGraph, e: Envelope, m: string, more: seq<Event>)
    requires OnlyDelivers(live, more, m) && e.info.msgId == m && e.to in live
    ensures OnlyDelivers(live, [Delivering(e, 0, Neighbours(live, e.to))] + more, m)
  {
  }

  lemma StepIsOccur(live: LiveGraph, net: Net, ev: Event)
    requires Possible(live, net, ev)
    ensures Step(live, net, ev) == Occur(live, net, ev)
  {
  }

  lemma DeliveriesSpare(live: LiveGraph, start: Net, events: seq<Event>, k: nat, o: Id, m: string)
    requires k < |events| && events[k].Local? && events[k].heard == Neighbours(live, events[k].v)
    requires OnlyDelivers(live, events[k + 1..], m) && m !in Through(live, start, events[..k]).floods
    ensures SparedFrom(live, start, events, k, o, m)
  {
    hide Step;
    forall i | k <= i < |events| ensures Sparing(live, Through(live, start, events[..i]), events[i], o, m) {
      if i > k { assert events[k + 1..][i - k - 1] == events[i]; }
    }
  }

  /** Whatever has been lost, has expired or is late, one refresh of `o` and the
      deliveries it causes bring every node connected to `o` up to date with it. */
  lemma RefreshHeals(live: LiveGraph, start: Net, events: seq<Event>, o: Id) returns (more: seq<Event>)
    requires Sound(live) && Initial(live, start) && |live.Keys| <= BUDGET + 1 && o in live
    ensures var net := Through(live, start, events + more);
      forall v :: v != o && Reachable(live, {}, o, v) ==> v in net.nodes && UpToDate(net, v, o)
  {
    hide Through, Safety, UpToDate, SparedFrom, IsLatest, Reachable, OnlyDelivers;
    var k, net := |events|, Through(live, start, events);
    var m := FreshId(net.floods.Keys);
    var ev := Local(o, LinkState.Event(Refresh, m, 0), Neighbours(live, o));
    var first := events + [ev];
    assert first[..k] == events;
    RefreshedRun(live, start, events, o, m);
    var rest := DrainOne(live, start, first, m);
    more := [ev] + rest;
    var all := events + more;
    assert all == first + rest && all[..k] == events && all[k + 1..] == rest;
    DeliveriesSpare(live, start, all, k, o, m);
    StaysLatest(Through(live, start, first), Through(live, start, all), o, m);
    forall v | v != o && Reachable(live, {}, o, v)
      ensures v in Through(live, start, all).nodes && UpToDate(Through(live, start, all), v, o)
    {
      LatestHeals(live, start, all, k, o, m, v);
    }
  }

  lemma StaysLatest(net: Net, net': Net, o: Id, m: string)
    requires IsLatest(net, o, m) && net'.latest == net.latest && m in net'.floods
    ensures IsLatest(net', o, m)
  {
  }

  lemma RefreshedRun(live: LiveGraph, start: Net, events: seq<Event>, o: Id, m: string)
    requires Sound(live) && Initial(live, start) && o in live && m != "" && m !in Through(live, start, events).floods
    ensures var r := Through(live, start, events + [Local(o, LinkState.Event(Refresh, m, 0), Neighbours(live, o))]);
      m in r.floods && IsLatest(r, o, m)
  {
    var net, ev := Through(live, start, events), Local(o, LinkState.Event(Refresh, m, 0), Neighbours(live, o));
    assert (events + [ev])[..|events|] == events;
    RunIsSafe(live, start, events);
    RefreshIsLatest(live, net, o, m);
    hide Occur, Safety;
    StepIsOccur(live, net, ev);
  }

  lemma RefreshIsLatest(live: LiveGraph, net: Net, o: Id, m: string)
    requires Safety(live, net) && o in live && m != "" && m !in net.floods
    ensures var ev := Local(o, LinkState.Event(Refresh, m, 0), Neighbours(live, o));
      Possible(live, net, ev) && IsLatest(Occur(live, net, ev), o, m)
  {
    hide Relay, Look;
  }
}
