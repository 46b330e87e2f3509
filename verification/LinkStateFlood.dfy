/** The link-state protocol as a network: every node runs the handlers of
    `LinkState`, and any copy in flight may be delivered, or lost, next, at any time.
    To whom a node floods is what its `Neighbors()` answers then, some or all of the
    nodes that the live graph links it to. */
module LinkStateFlood {
  import opened Options
  import opened Ordering
  import opened SeenCaches
  import opened LinkState
  import opened Packets
  import opened FloodCore
  import opened Exactness

  /** The hop budget left on the copies an origin sends: `relay` spends one unit
      before the first of them leaves. */
  const BUDGET: nat := 15

  /** One announcement, its copies in flight, and how far from its origin each
      node that handled it is. */
  datatype Flood = Flood(lsp: Lsp, flying: multiset<Envelope>, level: Levels)

  /** The nodes, the announcements made so far by message id, and the id of each
      origin's latest. */
  datatype Net = Net(nodes: map<Id, State>, floods: map<string, Flood>, latest: map<Id, string>)

  /** A link event, refresh or sweep at one node, or a copy that arrives or is
      dropped; `heard` is who the node knows to be alive meanwhile. */
  datatype Event =
    | Local(v: Id, ev: LinkState.Event, heard: set<Id>)
    | Delivering(e: Envelope, now: Time, heard: set<Id>)
    | Losing(e: Envelope, now: Time)

  ghost predicate Sound(live: LiveGraph) {
    WellFormed(live) && "" !in live
  }

  /** Nodes that know no announcements and remember no packets. */
  ghost predicate Initial(live: LiveGraph, net: Net) {
    && net.nodes.Keys == live.Keys && net.floods == map[] && net.latest == map[]
    && forall v :: v in net.nodes ==> net.nodes[v].lsdb == map[] && net.nodes[v].seen == map[]
  }

  ghost predicate Emits(net: Net, v: Id, ev: LinkState.Event) {
    v in net.nodes && Handle(v, net.nodes[v], ev).1.Some?
  }

  /** No copy of an announcement of `v` would be a whole restart gap behind if `v`
      announced once more. */
  ghost predicate CaughtUp(net: Net, v: Id) {
    forall m :: m in net.floods && net.floods[m].lsp.origin == v && net.floods[m].flying != multiset{} ==>
      v in net.nodes && net.nodes[v].number + 1 - net.floods[m].lsp.number < SEQ_RESET_GAP
  }

  ghost predicate InFlight(net: Net, e: Envelope) {
    e.info.msgId in net.floods && e in net.floods[e.info.msgId].flying
  }

  function Neighbours(live: LiveGraph, v: Id): set<Id> {
    if v in live then live[v] else {}
  }

  /** What can happen: any of this at any time, with a fresh id for each new
      announcement, and nobody alive who is not linked. */
  ghost predicate Possible(live: LiveGraph, net: Net, ev: Event) {
    match ev
    case Local(v, local, heard) =>
      && v in net.nodes && !local.input.Received? && heard <= Neighbours(live, v)
      && (Emits(net, v, local) ==> local.msgId != "" && local.msgId !in net.floods)
    case Delivering(e, _, heard) => InFlight(net, e) && e.to in net.nodes && heard <= Neighbours(live, e.to)
    case Losing(e, _) => InFlight(net, e)
  }

  /** The orderly part of it: no database entry expires, and the copies in flight of
      an origin's earlier announcements are less than the restart gap behind a new
      one. Caches forget as they do, and any copy may be lost. */
  ghost predicate Enabled(live: LiveGraph, net: Net, ev: Event) {
    && Possible(live, net, ev)
    && (ev.Local? ==>
          && (ev.ev.input.Ageing? ==> Unexpired(net.nodes[ev.v].lsdb, ev.ev.now) == net.nodes[ev.v].lsdb)
          && (Emits(net, ev.v, ev.ev) ==> CaughtUp(net, ev.v)))
  }

  function LevelsAfter(level: Levels, e: Envelope): Levels {
    if e.to in level || e.info.via !in level then level else level[e.to := level[e.info.via] + 1]
  }

  ghost function Occur(live: LiveGraph, net: Net, ev: Event): Net
    requires Possible(live, net, ev)
  {
    match ev
    case Local(v, local, heard) =>
      var (st', emitted) := Handle(v, net.nodes[v], local);
      var nodes := net.nodes[v := st'];
      if emitted.None? then net.(nodes := nodes)
      else
        var p := emitted.value;
        var out := multiset(Relay(v, heard, p));
        Net(nodes,
            net.floods[p.msgId := Flood(Lsp(v, st'.number, st'.links), out, map[v := 0])],
            net.latest[v := p.msgId])
    case Delivering(e, now, heard) =>
      var (st', relayed) := HandleInfo(e.to, net.nodes[e.to], e.info, now);
      var out := if relayed then Relay(e.to, heard, e.info) else {};
      var f := net.floods[e.info.msgId];
      net.(nodes := net.nodes[e.to := st'],
           floods := net.floods[e.info.msgId :=
             Flood(f.lsp, f.flying - multiset{e} + multiset(out), LevelsAfter(f.level, e))])
    case Losing(e, _) =>
      var f := net.floods[e.info.msgId];
      net.(floods := net.floods[e.info.msgId := f.(flying := f.flying - multiset{e})])
  }

  ghost function Apply(live: LiveGraph, net: Net, ev: Event): Net {
    if Enabled(live, net, ev) then Occur(live, net, ev) else net
  }

  ghost function After(live: LiveGraph, net: Net, events: seq<Event>): Net {
    if events == [] then net
    else Apply(live, After(live, net, events[..|events| - 1]), events[|events| - 1])
  }

  // ------------------------------------------------------ what stays true

  function AsCopy(e: Envelope): Copy {
    Copy(e.info.via, e.to, e.info.ttl)
  }

  function CopiesIn(flying: multiset<Envelope>): set<Copy> {
    set e | e in flying :: AsCopy(e)
  }

  /** A node remembers only announcements it has handled. */
  ghost predicate SeenHandled(net: Net, v: Id, m: string) {
    v in net.nodes && m in net.nodes[v].seen ==> m in net.floods && v in net.floods[m].level
  }

  ghost predicate Carries(f: Flood, m: string, e: Envelope) {
    e.info.msgId == m && e.info.lsp == Some(f.lsp)
  }

  /** The flood of one announcement is safe. */
  ghost predicate FloodOk(live: LiveGraph, net: Net, m: string) {
    m in net.floods ==>
      var f := net.floods[m];
      && f.lsp.origin in live
      && Safe(live, f.lsp.origin, BUDGET, f.level, CopiesIn(f.flying))
      && (forall e :: e in f.flying ==> Carries(f, m, e))
  }

  /** No announcement is ahead of its origin, and none in flight a restart gap
      behind. */
  ghost predicate NumberOk(net: Net, m: string) {
    m in net.floods ==>
      var f := net.floods[m];
      && f.lsp.origin in net.nodes && f.lsp.origin in net.latest
      && f.lsp.number <= net.nodes[f.lsp.origin].number
      && (f.flying != multiset{} ==> net.nodes[f.lsp.origin].number - f.lsp.number < SEQ_RESET_GAP)
  }

  /** An origin's latest announcement carries its number, and names its neighbours,
      of now. */
  ghost predicate OriginOk(net: Net, o: Id) {
    o in net.latest ==>
      && o in net.nodes && net.latest[o] in net.floods
      && Current(net.floods[net.latest[o]].lsp, o, net.nodes[o])
  }

  predicate Current(lsp: Lsp, o: Id, st: State) {
    lsp.origin == o && lsp.number == st.number && lsp.links.Keys == st.links.Keys
  }

  ghost predicate Unique(net: Net, m: string, n: string) {
    m in net.floods && n in net.floods && net.floods[m].lsp.origin == net.floods[n].lsp.origin ==>
      (net.floods[m].lsp.number == net.floods[n].lsp.number ==> m == n)
  }

  ghost predicate Source(net: Net, v: Id, o: Id, m: string)
    requires v in net.nodes && o in net.nodes[v].lsdb
  {
    && m in net.floods && v in net.floods[m].level
    && net.floods[m].lsp == Lsp(o, net.nodes[v].lsdb[o].number, net.nodes[v].lsdb[o].links)
  }

  /** What a node has on file is an announcement it handled, of another node. */
  ghost predicate Backed(net: Net, v: Id, o: Id) {
    v in net.nodes && o in net.nodes[v].lsdb ==> o != v && exists m :: Source(net, v, o, m)
  }

  /** A node that handled an announcement has one at least as new on file. */
  ghost predicate Held(net: Net, v: Id, m: string) {
    v in net.nodes && m in net.floods && v in net.floods[m].level && v != net.floods[m].lsp.origin ==>
      var lsp := net.floods[m].lsp;
      lsp.origin in net.nodes[v].lsdb && net.nodes[v].lsdb[lsp.origin].number >= lsp.number
  }

  ghost predicate Numbered(net: Net) {
    && (forall m :: NumberOk(net, m))
    && (forall o :: OriginOk(net, o))
    && (forall m, n :: Unique(net, m, n))
  }

  ghost predicate Filed(net: Net) {
    && (forall v, o :: Backed(net, v, o))
    && (forall v, m :: Held(net, v, m))
  }

  ghost predicate Inv(live: LiveGraph, net: Net) {
    && net.nodes.Keys == live.Keys && "" !in net.floods
    && (forall v, m :: SeenHandled(net, v, m))
    && (forall m :: FloodOk(live, net, m))
    && Numbered(net) && Filed(net)
  }

  lemma InitialInv(live: LiveGraph, net: Net)
    requires Sound(live) && Initial(live, net)
    ensures Inv(live, net)
  {
  }

  // --------------------------------------------------------- announcing

  /** The copies an origin sends are copies of the abstract flood; all of them, if
      it knows all its neighbours. */
  lemma StartCopies(live: LiveGraph, v: Id, p: Info, heard: set<Id>)
    requires Sound(live) && v in live && heard <= live[v] && p.via == v && p.ttl == DEFAULT_TTL
    ensures CopiesIn(multiset(Relay(v, heard, p))) <= Started(live, v, BUDGET)
    ensures heard == live[v] ==> CopiesIn(multiset(Relay(v, heard, p))) == Started(live, v, BUDGET)
    ensures forall e :: e in multiset(Relay(v, heard, p)) ==> e.info.msgId == p.msgId && e.info.lsp == p.lsp
  {
    var out := Relay(v, heard, p);
    forall c | c in Started(live, v, BUDGET) && c.to in heard ensures c in CopiesIn(multiset(out)) {
      var e := Envelope(c.to, Relayed(v, p));
      assert e in out && AsCopy(e) == c;
    }
  }

  /** What a local event does to a node: it says something under the next number,
      or nothing at all; its database stays. */
  lemma LocalState(live: LiveGraph, net: Net, v: Id, ev: LinkState.Event, heard: set<Id>)
    requires Enabled(live, net, Local(v, ev, heard))
    ensures var (st', emitted) := Handle(v, net.nodes[v], ev);
      && st'.lsdb == net.nodes[v].lsdb
      && (emitted.Some? ==>
            && st'.number == net.nodes[v].number + 1
            && st'.seen.Keys <= net.nodes[v].seen.Keys + {ev.msgId}
            && emitted.value == Info(ev.msgId, DEFAULT_TTL, v, Some(Lsp(v, st'.number, st'.links))))
      && (emitted.None? ==>
            && st'.number == net.nodes[v].number && st'.seen == net.nodes[v].seen
            && st'.links.Keys == net.nodes[v].links.Keys)
  {
    hide TableFor, Look, Unexpired;
    LookKeys(net.nodes[v].seen, ev.msgId, ev.now, SEEN_TTL);
  }

  lemma LocalKeepsOrigin(live: LiveGraph, net: Net, v: Id, ev: LinkState.Event, heard: set<Id>, o: Id)
    requires Sound(live) && Inv(live, net) && Enabled(live, net, Local(v, ev, heard))
    ensures OriginOk(Apply(live, net, Local(v, ev, heard)), o)
  {
    LocalState(live, net, v, ev, heard);
    hide Handle, Relay, FloodOk, SeenHandled, Filed;
    assert OriginOk(net, o);
  }

  lemma LocalKeepsNumbers(live: LiveGraph, net: Net, v: Id, ev: LinkState.Event, heard: set<Id>)
    requires Sound(live) && Inv(live, net) && Enabled(live, net, Local(v, ev, heard))
    ensures Numbered(Apply(live, net, Local(v, ev, heard)))
  {
    var net' := Apply(live, net, Local(v, ev, heard));
    forall o ensures OriginOk(net', o) { LocalKeepsOrigin(live, net, v, ev, heard, o); }
    assert OriginOk(net, v);
    LocalState(live, net, v, ev, heard);
    hide Handle, Relay, FloodOk, SeenHandled, Filed, OriginOk;
    forall m ensures NumberOk(net', m) { assert NumberOk(net, m); }
    forall m, n ensures Unique(net', m, n) {
      assert Unique(net, m, n) && NumberOk(net, m) && NumberOk(net, n);
    }
  }

  lemma LocalKeepsFiles(live: LiveGraph, net: Net, v: Id, ev: LinkState.Event, heard: set<Id>)
    requires Sound(live) && Inv(live, net) && Enabled(live, net, Local(v, ev, heard))
    ensures Filed(Apply(live, net, Local(v, ev, heard)))
  {
    LocalState(live, net, v, ev, heard);
    hide Handle, Relay, FloodOk, SeenHandled, Numbered;
    var net' := Apply(live, net, Local(v, ev, heard));
    forall u, o ensures Backed(net', u, o) {
      assert Backed(net, u, o);
      if u in net.nodes && o in net.nodes[u].lsdb {
        var m :| Source(net, u, o, m);
        assert Source(net', u, o, m);
      }
    }
    forall u, m ensures Held(net', u, m) { assert Held(net, u, m); }
  }

  lemma LocalKeepsFlood(live: LiveGraph, net: Net, v: Id, ev: LinkState.Event, heard: set<Id>, m: string)
    requires Sound(live) && Inv(live, net) && Enabled(live, net, Local(v, ev, heard))
    ensures FloodOk(live, Apply(live, net, Local(v, ev, heard)), m)
  {
    LocalState(live, net, v, ev, heard);
    hide Handle, Relay, Numbered, Filed, SeenHandled, Safe, CopiesIn, Started, Covered;
    if Emits(net, v, ev) {
      var out := multiset(Relay(v, heard, Handle(v, net.nodes[v], ev).1.value));
      StartCopies(live, v, Handle(v, net.nodes[v], ev).1.value, heard);
      StartIsSafe(live, v, BUDGET, {});
      RepeatKeepsSafe(live, v, BUDGET, map[v := 0], Started(live, v, BUDGET), CopiesIn(out));
    }
    assert FloodOk(live, net, m);
  }

  lemma LocalKeepsSeen(live: LiveGraph, net: Net, v: Id, ev: LinkState.Event, heard: set<Id>, u: Id, m: string)
    requires Sound(live) && Inv(live, net) && Enabled(live, net, Local(v, ev, heard))
    ensures SeenHandled(Apply(live, net, Local(v, ev, heard)), u, m)
  {
    LocalState(live, net, v, ev, heard);
    hide Handle, Relay, Numbered, Filed, FloodOk;
    assert SeenHandled(net, u, m);
  }

  lemma LocalKeepsInv(live: LiveGraph, net: Net, v: Id, ev: LinkState.Event, heard: set<Id>)
    requires Sound(live) && Inv(live, net) && Enabled(live, net, Local(v, ev, heard))
    ensures Inv(live, Apply(live, net, Local(v, ev, heard)))
  {
    LocalState(live, net, v, ev, heard);
    LocalKeepsNumbers(live, net, v, ev, heard);
    LocalKeepsFiles(live, net, v, ev, heard);
    hide Handle, Relay, Numbered, Filed, FloodOk, SeenHandled;
    var net' := Apply(live, net, Local(v, ev, heard));
    forall u, m ensures SeenHandled(net', u, m) { LocalKeepsSeen(live, net, v, ev, heard, u, m); }
    forall m ensures FloodOk(live, net', m) { LocalKeepsFlood(live, net, v, ev, heard, m); }
  }

  // --------------------------------------------------------- delivering

  /** The announcement `e` carries, at a node that has not handled it. */
  ghost predicate FirstAt(live: LiveGraph, net: Net, e: Envelope) {
    && Sound(live) && Inv(live, net) && e.to in net.nodes
    && e.info.msgId in net.floods && e in net.floods[e.info.msgId].flying
    && e.to !in net.floods[e.info.msgId].level
  }

  ghost predicate Newer(lsdb: Database, lsp: Lsp) {
    lsp.origin !in lsdb || lsdb[lsp.origin].number < lsp.number
  }

  /** As no copy in flight is a restart gap behind what is on file, `store` takes
      exactly the newer announcements; otherwise it changes no content. */
  lemma StoreDecides(live: LiveGraph, net: Net, e: Envelope, now: Time)
    requires Sound(live) && Inv(live, net) && e.to in net.nodes
    requires e.info.msgId in net.floods && e in net.floods[e.info.msgId].flying
    ensures var lsp, lsdb := net.floods[e.info.msgId].lsp, net.nodes[e.to].lsdb;
      && lsp.origin != "" && e.info.lsp == Some(lsp)
      && Store(lsdb, lsp, now).accepted == Newer(lsdb, lsp)
      && (if Newer(lsdb, lsp) then Store(lsdb, lsp, now).lsdb == lsdb[lsp.origin := Entry(lsp.number, lsp.links, now)]
          else SameAnnouncements(Store(lsdb, lsp, now).lsdb, lsdb))
  {
    var v, m := e.to, e.info.msgId;
    var lsp := net.floods[m].lsp;
    hide Covered;
    assert FloodOk(live, net, m) && Carries(net.floods[m], m, e) && NumberOk(net, m);
    assert Backed(net, v, lsp.origin);
    if lsp.origin in net.nodes[v].lsdb {
      var n :| Source(net, v, lsp.origin, n);
      assert NumberOk(net, n);
    }
  }

  /** An origin's latest is news to every node that has not handled it. */
  lemma LatestIsNews(live: LiveGraph, net: Net, e: Envelope)
    requires FirstAt(live, net, e)
    ensures var lsp := net.floods[e.info.msgId].lsp;
      && lsp.origin != e.to
      && (lsp.origin in net.latest && net.latest[lsp.origin] == e.info.msgId ==> Newer(net.nodes[e.to].lsdb, lsp))
  {
    var v, m := e.to, e.info.msgId;
    var o := net.floods[m].lsp.origin;
    hide Covered;
    assert FloodOk(live, net, m) && NumberOk(net, m) && OriginOk(net, o) && Backed(net, v, o);
    if o in net.nodes[v].lsdb {
      var n :| Source(net, v, o, n);
      assert Unique(net, m, n) && NumberOk(net, n);
    }
  }

  /** What the handler makes of a first copy: a newer announcement goes on file
      and is passed on, an older one is dropped. */
  lemma FirstHandled(live: LiveGraph, net: Net, e: Envelope, now: Time)
    requires FirstAt(live, net, e)
    ensures var st, lsp := net.nodes[e.to], net.floods[e.info.msgId].lsp;
      var (st', relayed) := HandleInfo(e.to, st, e.info, now);
      && relayed == Newer(st.lsdb, lsp)
      && st'.links == st.links && st'.number == st.number && st'.seen.Keys <= st.seen.Keys + {e.info.msgId}
      && (if relayed then st'.lsdb == st.lsdb[lsp.origin := Entry(lsp.number, lsp.links, now)]
          else SameAnnouncements(st'.lsdb, st.lsdb))
  {
    hide TableFor, Store, Look;
    StoreDecides(live, net, e, now);
    LatestIsNews(live, net, e);
    LookKeys(net.nodes[e.to].seen, e.info.msgId, now, SEEN_TTL);
    assert SeenHandled(net, e.to, e.info.msgId);
  }

  /** A later copy is never passed on, even when the cache has forgotten it: what
      is on file is at least as new. */
  lemma RepeatHandled(live: LiveGraph, net: Net, e: Envelope, now: Time)
    requires Sound(live) && Inv(live, net) && InFlight(net, e) && e.to in net.nodes
    requires e.to in net.floods[e.info.msgId].level
    ensures var st := net.nodes[e.to];
      var (st', relayed) := HandleInfo(e.to, st, e.info, now);
      && !relayed && st'.links == st.links && st'.number == st.number
      && st'.seen.Keys <= st.seen.Keys + {e.info.msgId} && SameAnnouncements(st'.lsdb, st.lsdb)
  {
    hide TableFor, Store, Look;
    StoreDecides(live, net, e, now);
    LookKeys(net.nodes[e.to].seen, e.info.msgId, now, SEEN_TTL);
    assert Held(net, e.to, e.info.msgId);
  }

  /** Taking `e` off its link and putting `out` on others. */
  lemma FlightAfter(flying: multiset<Envelope>, e: Envelope, out: set<Envelope>)
    requires e in flying
    ensures var before, after := CopiesIn(flying), CopiesIn(flying - multiset{e} + multiset(out));
      var sent := set x | x in out :: AsCopy(x);
      && AsCopy(e) in before && before - {AsCopy(e)} <= after && sent <= after && after <= before + sent
    ensures forall x :: x in flying - multiset{e} + multiset(out) ==> x in flying || x in out
  {
    var after := flying - multiset{e} + multiset(out);
    forall x ensures x in after ==> x in flying || x in out
             ensures x in out ==> x in after
             ensures x in flying && x != e ==> x in after
    {
      assert x in multiset(out) <==> x in out;
    }
  }

  /** The copies a node passes on are copies of the abstract flood; all of them, if
      it knows all its neighbours. */
  lemma RelayedCopies(live: LiveGraph, e: Envelope, heard: set<Id>)
    requires e.to in live && heard <= live[e.to]
    ensures (set x | x in Relay(e.to, heard, e.info) :: AsCopy(x)) <= PassedOn(live, AsCopy(e))
    ensures heard == live[e.to] ==> (set x | x in Relay(e.to, heard, e.info) :: AsCopy(x)) == PassedOn(live, AsCopy(e))
    ensures forall x :: x in Relay(e.to, heard, e.info) ==> x.info == Relayed(e.to, e.info)
  {
    var out := Relay(e.to, heard, e.info);
    forall c | c in PassedOn(live, AsCopy(e)) && c.to in heard ensures c in (set x | x in out :: AsCopy(x)) {
      var x := Envelope(c.to, Relayed(e.to, e.info));
      assert x in out && AsCopy(x) == c;
    }
  }

  ghost function Sent(net: Net, e: Envelope, now: Time, heard: set<Id>): set<Envelope>
    requires e.to in net.nodes
  {
    if HandleInfo(e.to, net.nodes[e.to], e.info, now).1 then Relay(e.to, heard, e.info) else {}
  }

  lemma RepeatKeepsFlood(live: LiveGraph, net: Net, e: Envelope, now: Time, heard: set<Id>)
    requires Sound(live) && Inv(live, net) && Enabled(live, net, Delivering(e, now, heard))
    requires e.to in net.floods[e.info.msgId].level
    ensures FloodOk(live, Apply(live, net, Delivering(e, now, heard)), e.info.msgId)
  {
    var f := net.floods[e.info.msgId];
    RepeatHandled(live, net, e, now);
    assert FloodOk(live, net, e.info.msgId);
    hide HandleInfo, Relay, Safe, CopiesIn;
    FlightAfter(f.flying, e, {});
    assert multiset(Sent(net, e, now, heard)) == multiset{};
    var after := f.flying - multiset{e} + multiset(Sent(net, e, now, heard));
    RepeatKeepsSafe(live, f.lsp.origin, BUDGET, f.level, CopiesIn(f.flying), CopiesIn(after));
  }

  /** What becomes of a flood when a new node handles a copy. */
  lemma FirstSpreads(live: LiveGraph, net: Net, e: Envelope, out: set<Envelope>, heard: set<Id>)
    requires FirstAt(live, net, e) && heard <= Neighbours(live, e.to) && out <= Relay(e.to, heard, e.info)
    ensures var f := net.floods[e.info.msgId];
      Safe(live, f.lsp.origin, BUDGET, LevelsAfter(f.level, e), CopiesIn(f.flying - multiset{e} + multiset(out)))
  {
    var f, c := net.floods[e.info.msgId], AsCopy(e);
    assert FloodOk(live, net, e.info.msgId);
    assert c in CopiesIn(f.flying) && c.via in f.level;
    RelayedCopies(live, e, heard);
    FlightAfter(f.flying, e, out);
    hide Inv, FirstAt, Relay, Safe, CopiesIn, PassedOn, FloodOk;
    assert (set x | x in out :: AsCopy(x)) <= PassedOn(live, c);
    FirstKeepsSafe(live, f.lsp.origin, BUDGET, f.level, CopiesIn(f.flying), CopiesIn(f.flying - multiset{e} + multiset(out)), c);
  }

  lemma FirstKeepsFlood(live: LiveGraph, net: Net, e: Envelope, now: Time, heard: set<Id>)
    requires FirstAt(live, net, e) && Enabled(live, net, Delivering(e, now, heard))
    ensures FloodOk(live, Apply(live, net, Delivering(e, now, heard)), e.info.msgId)
  {
    assert FloodOk(live, net, e.info.msgId);
    var out := Sent(net, e, now, heard);
    assert forall x :: x in out ==> x.info == Relayed(e.to, e.info);
    hide HandleInfo, Relay, Safe, CopiesIn, Inv;
    FirstSpreads(live, net, e, out, heard);
    FlightAfter(net.floods[e.info.msgId].flying, e, out);
  }

  /** Everybody's number and links, and what each announcement says, are the
      same in both networks. */
  ghost predicate SaysTheSame(net: Net, net': Net) {
    && net'.latest == net.latest
    && net'.nodes.Keys == net.nodes.Keys && net'.floods.Keys == net.floods.Keys
    && (forall u :: u in net.nodes ==>
          net'.nodes[u].number == net.nodes[u].number && net'.nodes[u].links == net.nodes[u].links)
    && (forall m :: m in net.floods ==>
          && net'.floods[m].lsp == net.floods[m].lsp
          && (net.floods[m].flying == multiset{} ==> net'.floods[m].flying == multiset{}))
  }

  lemma SameNumbers(live: LiveGraph, net: Net, net': Net)
    requires Numbered(net) && SaysTheSame(net, net')
    ensures Numbered(net')
  {
    forall m ensures NumberOk(net', m) { assert NumberOk(net, m); }
    forall o ensures OriginOk(net', o) { assert OriginOk(net, o); }
    forall m, n ensures Unique(net', m, n) { assert Unique(net, m, n); }
  }

  lemma DeliveringSaysTheSame(live: LiveGraph, net: Net, e: Envelope, now: Time, heard: set<Id>)
    requires Enabled(live, net, Delivering(e, now, heard))
    ensures SaysTheSame(net, Apply(live, net, Delivering(e, now, heard)))
  {
    hide TableFor, Store, Look, Relay;
  }

  lemma RepeatKeepsFiles(live: LiveGraph, net: Net, e: Envelope, now: Time, heard: set<Id>)
    requires Sound(live) && Inv(live, net) && Enabled(live, net, Delivering(e, now, heard))
    requires e.to in net.floods[e.info.msgId].level
    ensures Filed(Apply(live, net, Delivering(e, now, heard)))
  {
    RepeatHandled(live, net, e, now);
    hide HandleInfo, Relay, FloodOk, SeenHandled, Numbered;
    var net' := Apply(live, net, Delivering(e, now, heard));
    forall u, o ensures Backed(net', u, o) {
      assert Backed(net, u, o);
      if u in net.nodes && o in net.nodes[u].lsdb {
        var m :| Source(net, u, o, m);
        assert Source(net', u, o, m);
      }
    }
    forall u, m ensures Held(net', u, m) { assert Held(net, u, m); }
  }

  lemma ViaHandled(live: LiveGraph, net: Net, e: Envelope)
    requires Inv(live, net) && e.info.msgId in net.floods && e in net.floods[e.info.msgId].flying
    ensures e.info.via in net.floods[e.info.msgId].level
  {
    hide Covered, Numbered, Filed;
    assert FloodOk(live, net, e.info.msgId) && AsCopy(e) in CopiesIn(net.floods[e.info.msgId].flying);
  }

  lemma FirstKeepsBacked(live: LiveGraph, net: Net, e: Envelope, now: Time, heard: set<Id>, u: Id, o: Id)
    requires FirstAt(live, net, e) && Enabled(live, net, Delivering(e, now, heard))
    ensures Backed(Apply(live, net, Delivering(e, now, heard)), u, o)
  {
    var f, net' := net.floods[e.info.msgId], Apply(live, net, Delivering(e, now, heard));
    FirstHandled(live, net, e, now);
    ViaHandled(live, net, e);
    hide HandleInfo, Relay, FloodOk, SeenHandled, Numbered, Store;
    assert Backed(net, u, o);
    if u in net.nodes && o in net'.nodes[u].lsdb {
      if u == e.to && o == f.lsp.origin && Newer(net.nodes[u].lsdb, f.lsp) {
        assert Source(net', u, o, e.info.msgId);
      } else {
        var m :| Source(net, u, o, m);
        assert Source(net', u, o, m);
      }
    }
  }

  lemma FirstKeepsHeld(live: LiveGraph, net: Net, e: Envelope, now: Time, heard: set<Id>, u: Id, m: string)
    requires FirstAt(live, net, e) && Enabled(live, net, Delivering(e, now, heard))
    ensures Held(Apply(live, net, Delivering(e, now, heard)), u, m)
  {
    hide Relay, FloodOk, SeenHandled, Numbered, Store;
    FirstHandled(live, net, e, now);
    ViaHandled(live, net, e);
    assert Held(net, u, m);
    hide HandleInfo, Filed;
  }

  lemma FirstKeepsFiles(live: LiveGraph, net: Net, e: Envelope, now: Time, heard: set<Id>)
    requires FirstAt(live, net, e) && Enabled(live, net, Delivering(e, now, heard))
    ensures Filed(Apply(live, net, Delivering(e, now, heard)))
  {
    var net' := Apply(live, net, Delivering(e, now, heard));
    hide Inv, Held, Backed, Apply;
    forall u, o ensures Backed(net', u, o) { FirstKeepsBacked(live, net, e, now, heard, u, o); }
    forall u, m ensures Held(net', u, m) { FirstKeepsHeld(live, net, e, now, heard, u, m); }
  }

  lemma OtherFloodsStay(live: LiveGraph, net: Net, e: Envelope, now: Time, heard: set<Id>, n: string)
    requires Inv(live, net) && Enabled(live, net, Delivering(e, now, heard)) && n != e.info.msgId
    ensures FloodOk(live, Apply(live, net, Delivering(e, now, heard)), n)
  {
    assert FloodOk(live, net, n);
    hide HandleInfo, Relay, Numbered, Filed, Covered, Safe, CopiesIn, SeenHandled;
  }

  lemma RepeatKeepsSeen(live: LiveGraph, net: Net, e: Envelope, now: Time, heard: set<Id>, u: Id, n: string)
    requires Sound(live) && Inv(live, net) && Enabled(live, net, Delivering(e, now, heard)) && e.to in net.floods[e.info.msgId].level
    ensures SeenHandled(Apply(live, net, Delivering(e, now, heard)), u, n)
  {
    RepeatHandled(live, net, e, now);
    hide HandleInfo, Relay, Numbered, Filed, FloodOk;
    assert SeenHandled(net, u, n);
  }

  lemma RepeatKeepsInv(live: LiveGraph, net: Net, e: Envelope, now: Time, heard: set<Id>)
    requires Sound(live) && Inv(live, net) && Enabled(live, net, Delivering(e, now, heard))
    requires e.to in net.floods[e.info.msgId].level
    ensures Inv(live, Apply(live, net, Delivering(e, now, heard)))
  {
    hide Apply, Numbered, Filed, FloodOk, SeenHandled, HandleInfo;
    var net' := Apply(live, net, Delivering(e, now, heard));
    DeliveringSaysTheSame(live, net, e, now, heard);
    SameNumbers(live, net, net');
    RepeatKeepsFlood(live, net, e, now, heard);
    RepeatKeepsFiles(live, net, e, now, heard);
    forall u, n ensures SeenHandled(net', u, n) { RepeatKeepsSeen(live, net, e, now, heard, u, n); }
    forall n ensures FloodOk(live, net', n) {
      if n != e.info.msgId { OtherFloodsStay(live, net, e, now, heard, n); }
    }
  }

  lemma FirstKeepsSeen(live: LiveGraph, net: Net, e: Envelope, now: Time, heard: set<Id>, u: Id, n: string)
    requires FirstAt(live, net, e) && Enabled(live, net, Delivering(e, now, heard))
    ensures SeenHandled(Apply(live, net, Delivering(e, now, heard)), u, n)
  {
    FirstHandled(live, net, e, now);
    ViaHandled(live, net, e);
    hide HandleInfo, Relay, Numbered, Filed, FloodOk;
    assert SeenHandled(net, u, n);
  }

  lemma FirstKeepsInv(live: LiveGraph, net: Net, e: Envelope, now: Time, heard: set<Id>)
    requires FirstAt(live, net, e) && Enabled(live, net, Delivering(e, now, heard))
    ensures Inv(live, Apply(live, net, Delivering(e, now, heard)))
  {
    hide Apply, Numbered, Filed, FloodOk, SeenHandled, HandleInfo;
    var net' := Apply(live, net, Delivering(e, now, heard));
    DeliveringSaysTheSame(live, net, e, now, heard);
    SameNumbers(live, net, net');
    FirstKeepsFlood(live, net, e, now, heard);
    FirstKeepsFiles(live, net, e, now, heard);
    forall u, n ensures SeenHandled(net', u, n) { FirstKeepsSeen(live, net, e, now, heard, u, n); }
    forall n ensures FloodOk(live, net', n) {
      if n != e.info.msgId { OtherFloodsStay(live, net, e, now, heard, n); }
    }
  }

  // -------------------------------------------------------------- losing

  lemma LosingKeepsFlood(live: LiveGraph, net: Net, e: Envelope, now: Time, m: string)
    requires FloodOk(live, net, m) && Enabled(live, net, Losing(e, now))
    ensures FloodOk(live, Apply(live, net, Losing(e, now)), m)
  {
    hide Safe, CopiesIn;
    var net' := Apply(live, net, Losing(e, now));
    if m in net.floods && m == e.info.msgId {
      var f, f' := net.floods[m], net'.floods[m];
      FewerCopies(f.flying, f'.flying);
      RepeatKeepsSafe(live, f.lsp.origin, BUDGET, f.level, CopiesIn(f.flying), CopiesIn(f'.flying));
    }
  }

  lemma FewerCopies(flying: multiset<Envelope>, left: multiset<Envelope>)
    requires left <= flying
    ensures CopiesIn(left) <= CopiesIn(flying)
  {
  }

  lemma LosingKeepsInv(live: LiveGraph, net: Net, e: Envelope, now: Time)
    requires Inv(live, net) && Enabled(live, net, Losing(e, now))
    ensures Inv(live, Apply(live, net, Losing(e, now)))
  {
    hide FloodOk, Safe;
    var net' := Apply(live, net, Losing(e, now));
    assert SaysTheSame(net, net');
    SameNumbers(live, net, net');
    forall u, n ensures SeenHandled(net', u, n) { assert SeenHandled(net, u, n); }
    forall n ensures FloodOk(live, net', n) { LosingKeepsFlood(live, net, e, now, n); }
    LosingKeepsFiles(live, net, e, now);
  }

  lemma LosingKeepsFiles(live: LiveGraph, net: Net, e: Envelope, now: Time)
    requires Filed(net) && Enabled(live, net, Losing(e, now))
    ensures Filed(Apply(live, net, Losing(e, now)))
  {
    var net' := Apply(live, net, Losing(e, now));
    forall u, o ensures Backed(net', u, o) {
      assert Backed(net, u, o);
      if u in net.nodes && o in net.nodes[u].lsdb {
        var m :| Source(net, u, o, m);
        assert Source(net', u, o, m);
      }
    }
    forall u, m ensures Held(net', u, m) { assert Held(net, u, m); }
  }

  // --------------------------------------------------------- whole runs

  lemma ApplyKeepsInv(live: LiveGraph, net: Net, ev: Event)
    requires Sound(live) && Inv(live, net)
    ensures Inv(live, Apply(live, net, ev))
  {
    hide Inv;
    if Enabled(live, net, ev) {
      match ev
      case Local(v, local, heard) => LocalKeepsInv(live, net, v, local, heard);
      case Delivering(e, now, heard) =>
        assert Inv(live, Apply(live, net, ev)) by {
          if e.to in net.floods[e.info.msgId].level {
            RepeatKeepsInv(live, net, e, now, heard);
          } else {
            FirstKeepsInv(live, net, e, now, heard);
          }
        }
      case Losing(e, now) => LosingKeepsInv(live, net, e, now);
    }
  }

  lemma {:induction false} RunKeepsInv(live: LiveGraph, net: Net, events: seq<Event>)
    requires Sound(live) && Initial(live, net)
    ensures Inv(live, After(live, net, events))
  {
    hide Apply, Inv;
    if events == [] {
      InitialInv(live, net);
    } else {
      RunKeepsInv(live, net, events[..|events| - 1]);
      ApplyKeepsInv(live, After(live, net, events[..|events| - 1]), events[|events| - 1]);
    }
  }

  ghost predicate Quiet(net: Net) {
    forall m :: m in net.floods ==> net.floods[m].flying == multiset{}
  }

  /** What the database of `v` says about `o` is what `o` last announced. */
  ghost predicate UpToDate(net: Net, v: Id, o: Id) {
    v in net.nodes && o in net.nodes ==>
      && (o in net.latest <==> o in net.nodes[v].lsdb)
      && (o in net.latest ==>
            && net.nodes[v].lsdb[o].number == net.nodes[o].number
            && net.latest[o] in net.floods
            && net.nodes[v].lsdb[o].links == net.floods[net.latest[o]].lsp.links
            && net.nodes[v].lsdb[o].links.Keys == net.nodes[o].links.Keys)
  }

  lemma NoNewerThanLatest(live: LiveGraph, net: Net, v: Id, o: Id)
    requires Inv(live, net) && v in net.nodes && o in net.nodes[v].lsdb
    ensures o in net.nodes && net.nodes[v].lsdb[o].number <= net.nodes[o].number && o in net.latest
    ensures net.latest[o] in net.floods
    ensures net.nodes[v].lsdb[o].number == net.nodes[o].number ==>
              var links := net.nodes[v].lsdb[o].links;
              links == net.floods[net.latest[o]].lsp.links && links.Keys == net.nodes[o].links.Keys
  {
    assert Backed(net, v, o);
    var m :| Source(net, v, o, m);
    assert NumberOk(net, m) && OriginOk(net, o) && Unique(net, m, net.latest[o]);
  }

  // -------------------------------------------------------- the flood ends

  /** The copies in flight, and those that nodes yet to handle the announcement
      could still send. */
  ghost function Work(live: LiveGraph, f: Flood): nat {
    |f.flying| + |LinksOf(live, live.Keys - f.level.Keys)|
  }

  ghost predicate ComesOff(live: LiveGraph, net: Net, ev: Event, m: string) {
    !ev.Local? && ev.e.info.msgId == m && Enabled(live, net, ev)
  }

  /** How many copies of announcement `m` came off their links in a run. */
  ghost function CameOff(live: LiveGraph, start: Net, events: seq<Event>, m: string): nat {
    if events == [] then 0
    else
      var before, last := events[..|events| - 1], events[|events| - 1];
      CameOff(live, start, before, m) + if ComesOff(live, After(live, start, before), last, m) then 1 else 0
  }

  lemma {:induction false} RelayCount(self: Id, targets: set<Id>, p: Info)
    ensures |Relay(self, targets, p)| <= |targets|
    decreases |targets|
  {
    if targets == {} {
      assert Relay(self, targets, p) == {};
    } else {
      var w :| w in targets;
      RelayCount(self, targets - {w}, p);
      SubsetIsNoLarger(Relay(self, targets, p), Relay(self, targets - {w}, p) + {Envelope(w, Relayed(self, p))});
    }
  }

  lemma DeliveringTakesWork(live: LiveGraph, net: Net, e: Envelope, now: Time, heard: set<Id>)
    requires Sound(live) && Inv(live, net) && Enabled(live, net, Delivering(e, now, heard))
    ensures var m := e.info.msgId;
      Work(live, Apply(live, net, Delivering(e, now, heard)).floods[m]) < Work(live, net.floods[m])
  {
    var f, v := net.floods[e.info.msgId], e.to;
    RelayCount(v, heard, e.info);
    SubsetIsNoLarger(heard, Neighbours(live, v));
    ViaHandled(live, net, e);
    var out := Sent(net, e, now, heard);
    assert |f.flying - multiset{e} + multiset(out)| == |f.flying| - 1 + |out|;
    if v in f.level {
      RepeatHandled(live, net, e, now);
    } else {
      hide HandleInfo, Relay, Inv;
      LinksOfOneMore(live, live.Keys - f.level.Keys - {v}, v);
      assert live.Keys - f.level.Keys - {v} + {v} == live.Keys - f.level.Keys;
      assert live.Keys - LevelsAfter(f.level, e).Keys == live.Keys - f.level.Keys - {v};
    }
  }

  lemma AnnouncingSetsWork(live: LiveGraph, net: Net, v: Id, ev: LinkState.Event, heard: set<Id>)
    requires Sound(live) && Inv(live, net) && Enabled(live, net, Local(v, ev, heard)) && Emits(net, v, ev)
    ensures Work(live, Apply(live, net, Local(v, ev, heard)).floods[ev.msgId]) <= |LinksOf(live, live.Keys)|
  {
    LocalState(live, net, v, ev, heard);
    hide Handle, Relay, Inv;
    RelayCount(v, heard, Handle(v, net.nodes[v], ev).1.value);
    SubsetIsNoLarger(heard, Neighbours(live, v));
    var level: Levels := map[v := 0];
    LinksOfOneMore(live, live.Keys - level.Keys, v);
    assert live.Keys - level.Keys + {v} == live.Keys;
  }

  lemma LocalKeepsOtherWork(live: LiveGraph, net: Net, v: Id, ev: LinkState.Event, heard: set<Id>, m: string)
    requires Enabled(live, net, Local(v, ev, heard))
    ensures var r := Apply(live, net, Local(v, ev, heard));
      if Emits(net, v, ev) && m == ev.msgId then m in r.floods
      else (m in r.floods <==> m in net.floods) && (m in net.floods ==> r.floods[m] == net.floods[m])
  {
    LocalState(live, net, v, ev, heard);
    hide Handle, Relay;
  }

  lemma DeliveringKeepsOtherWork(live: LiveGraph, net: Net, e: Envelope, now: Time, heard: set<Id>, m: string)
    requires Enabled(live, net, Delivering(e, now, heard)) && m != e.info.msgId
    ensures var r := Apply(live, net, Delivering(e, now, heard));
      (m in r.floods <==> m in net.floods) && (m in net.floods ==> r.floods[m] == net.floods[m])
  {
    hide HandleInfo, Relay;
  }

  lemma LosingTakesWork(live: LiveGraph, net: Net, e: Envelope, now: Time, m: string)
    requires Enabled(live, net, Losing(e, now))
    ensures var r := Apply(live, net, Losing(e, now));
      && r.floods.Keys == net.floods.Keys
      && (m in net.floods && m != e.info.msgId ==> r.floods[m] == net.floods[m])
      && (m == e.info.msgId ==> Work(live, r.floods[m]) < Work(live, net.floods[m]))
  {
    var flying := net.floods[e.info.msgId].flying;
    assert |flying - multiset{e}| == |flying| - 1;
  }

  /** What one event does to the work left for `m`. */
  lemma WorkStep(live: LiveGraph, net: Net, ev: Event, m: string)
    requires Sound(live) && Inv(live, net)
    ensures var r, done := Apply(live, net, ev), if ComesOff(live, net, ev, m) then 1 else 0;
      && (m in net.floods ==> m in r.floods && done + Work(live, r.floods[m]) <= Work(live, net.floods[m]))
      && (m !in net.floods ==> done == 0 && (m in r.floods ==> Work(live, r.floods[m]) <= |LinksOf(live, live.Keys)|))
  {
    hide Inv, Work, Emits, Handle, HandleInfo, Relay;
    if Enabled(live, net, ev) {
      match ev
      case Local(v, local, heard) =>
        LocalKeepsOtherWork(live, net, v, local, heard, m);
        if Emits(net, v, local) && m == local.msgId { AnnouncingSetsWork(live, net, v, local, heard); }
      case Delivering(e, now, heard) =>
        if m == e.info.msgId {
          DeliveringSaysTheSame(live, net, e, now, heard);
          DeliveringTakesWork(live, net, e, now, heard);
        } else {
          DeliveringKeepsOtherWork(live, net, e, now, heard, m);
        }
      case Losing(e, now) => LosingTakesWork(live, net, e, now, m);
    }
  }

  /** Every flood ends: however deliveries are ordered and whatever is lost, one
      announcement causes at most as many copies as there are live links. */
  lemma {:induction false} FloodEnds(live: LiveGraph, start: Net, events: seq<Event>, m: string)
    requires Sound(live) && Initial(live, start)
    ensures var net := After(live, start, events);
      if m in net.floods
      then CameOff(live, start, events, m) + Work(live, net.floods[m]) <= |LinksOf(live, live.Keys)|
      else CameOff(live, start, events, m) == 0
  {
    hide Inv, Apply, Work, ComesOff, Sound;
    if events == [] {
      assert start.floods == map[];
    } else {
      var before, ev := events[..|events| - 1], events[|events| - 1];
      FloodEnds(live, start, before, m);
      RunKeepsInv(live, start, before);
      WorkStep(live, After(live, start, before), ev, m);
    }
  }
}
