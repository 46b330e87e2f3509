/** The link-state protocol with all that can go wrong: copies are dropped or come
    any time later, entries expire, caches forget, and nodes do not know all their
    neighbours, or not yet. What is safe then. */
module LinkStateRuns {
  import opened Options
  import opened Ordering
  import opened SeenCaches
  import opened LinkState
  import opened Packets
  import opened FloodCore
  import opened LinkStateFlood

  type Net = LinkStateFlood.Net
  type Event = LinkStateFlood.Event

  /** Any possible event may come next; an impossible one changes nothing. */
  ghost function Step(live: LiveGraph, net: Net, ev: Event): Net {
    if Possible(live, net, ev) then Occur(live, net, ev) else net
  }

  ghost function Through(live: LiveGraph, start: Net, events: seq<Event>): Net {
    if events == [] then start
    else Step(live, Through(live, start, events[..|events| - 1]), events[|events| - 1])
  }

  // ------------------------------------------------------ what stays true

  /** A copy says what was announced and goes from a node to one linked with it, and
      the hops it has come are missing from its budget. */
  ghost predicate CopyOk(live: LiveGraph, f: Flood, m: string, e: Envelope) {
    && Carries(f, m, e) && 1 <= e.info.ttl <= BUDGET
    && e.info.via in live && e.to in live[e.info.via] && e.to in live
    && e.to in Within(live, f.lsp.origin, BUDGET + 1 - e.info.ttl)
  }

  ghost predicate FloodSafe(live: LiveGraph, net: Net, m: string) {
    m in net.floods ==>
      var f := net.floods[m];
      && f.lsp.origin in net.nodes && f.lsp.number <= net.nodes[f.lsp.origin].number
      && (forall e :: e in f.flying ==> CopyOk(live, f, m, e))
  }

  ghost predicate Says(net: Net, m: string, lsp: Lsp) {
    m in net.floods && net.floods[m].lsp == lsp
  }

  /** What is on file about `o` at `v` was said by `o`, not too far away. */
  ghost predicate EntrySafe(live: LiveGraph, net: Net, v: Id, o: Id) {
    v in net.nodes && o in net.nodes[v].lsdb ==>
      var entry := net.nodes[v].lsdb[o];
      && o != v && o in net.nodes && entry.number <= net.nodes[o].number
      && v in Within(live, o, BUDGET)
      && exists m :: Says(net, m, Lsp(o, entry.number, entry.links))
  }

  /** Nobody speaks of announcements that were not made. */
  ghost predicate Known(net: Net) {
    && (forall o :: o in net.latest ==> net.latest[o] in net.floods)
    && (forall v :: v in net.nodes ==> net.nodes[v].seen.Keys <= net.floods.Keys)
  }

  ghost predicate Safety(live: LiveGraph, net: Net) {
    && net.nodes.Keys == live.Keys && "" !in net.floods && Known(net)
    && (forall m :: FloodSafe(live, net, m))
    && (forall v, o :: EntrySafe(live, net, v, o))
  }

  lemma InitialSafety(live: LiveGraph, net: Net)
    requires Initial(live, net)
    ensures Safety(live, net)
  {
  }

  // -------------------------------------------------------- local events

  /** Nothing new comes on file by a local event. */
  ghost predicate NothingFiled(before: Database, after: Database) {
    forall o :: o in after ==> o in before && after[o] == before[o]
  }

  lemma LocalEffect(v: Id, st: State, ev: LinkState.Event)
    requires !ev.input.Received?
    ensures var (st', emitted) := Handle(v, st, ev);
      && NothingFiled(st.lsdb, st'.lsdb)
      && (emitted.Some? ==>
            && st'.number == st.number + 1 && st'.seen.Keys <= st.seen.Keys + {ev.msgId}
            && emitted.value == Info(ev.msgId, DEFAULT_TTL, v, Some(Lsp(v, st'.number, st'.links))))
      && (emitted.None? ==>
            st'.number == st.number && st'.seen == st.seen && st'.links.Keys == st.links.Keys)
  {
    hide TableFor, Look;
    LookKeys(st.seen, ev.msgId, ev.now, SEEN_TTL);
  }

  /** The copies of a new announcement go one hop, with one hop spent. */
  lemma FirstCopies(live: LiveGraph, v: Id, p: Info, lsp: Lsp, heard: set<Id>)
    requires Sound(live) && v in live && heard <= live[v]
    requires p.via == v && p.ttl == DEFAULT_TTL && p.lsp == Some(lsp) && lsp.origin == v
    ensures var f := Flood(lsp, multiset(Relay(v, heard, p)), map[v := 0]);
      forall e :: e in f.flying ==> CopyOk(live, f, p.msgId, e)
  {
    var out := Relay(v, heard, p);
    forall e | e in multiset(out)
      ensures CopyOk(live, Flood(lsp, multiset(out), map[v := 0]), p.msgId, e)
    {
      assert live[v] <= live.Keys && e.to in live[v];
      assert Within(live, v, 0) == {v} && e.to in Within(live, v, 1);
    }
  }

  lemma LocalKeepsEntry(live: LiveGraph, net: Net, v: Id, ev: LinkState.Event, heard: set<Id>, u: Id, o: Id)
    requires Possible(live, net, Local(v, ev, heard)) && EntrySafe(live, net, u, o)
    ensures EntrySafe(live, Occur(live, net, Local(v, ev, heard)), u, o)
  {
    LocalEffect(v, net.nodes[v], ev);
    hide Handle, Relay, Within;
    var r := Occur(live, net, Local(v, ev, heard));
    if u in net.nodes && o in r.nodes[u].lsdb {
      var entry := net.nodes[u].lsdb[o];
      var m :| Says(net, m, Lsp(o, entry.number, entry.links));
      assert Says(r, m, Lsp(o, entry.number, entry.links));
    }
  }

  lemma LocalKeepsFloodSafe(live: LiveGraph, net: Net, v: Id, ev: LinkState.Event, heard: set<Id>, m: string)
    requires Sound(live) && net.nodes.Keys == live.Keys && Possible(live, net, Local(v, ev, heard)) && FloodSafe(live, net, m)
    ensures FloodSafe(live, Occur(live, net, Local(v, ev, heard)), m)
  {
    LocalEffect(v, net.nodes[v], ev);
    hide Handle, Relay, CopyOk;
    var (st', emitted) := Handle(v, net.nodes[v], ev);
    if emitted.Some? { FirstCopies(live, v, emitted.value, Lsp(v, st'.number, st'.links), heard); }
  }

  lemma LocalKeepsSafety(live: LiveGraph, net: Net, v: Id, ev: LinkState.Event, heard: set<Id>)
    requires Sound(live) && Safety(live, net) && Possible(live, net, Local(v, ev, heard))
    ensures Safety(live, Occur(live, net, Local(v, ev, heard)))
  {
    var r := Occur(live, net, Local(v, ev, heard));
    LocalEffect(v, net.nodes[v], ev);
    hide Handle, Relay, FloodSafe, EntrySafe;
    forall m ensures FloodSafe(live, r, m) { LocalKeepsFloodSafe(live, net, v, ev, heard, m); }
    forall u, o ensures EntrySafe(live, r, u, o) { LocalKeepsEntry(live, net, v, ev, heard, u, o); }
  }

  // ------------------------------------------------------------ deliveries

  /** What the handler can make of a copy: the announcement goes on file and is
      passed on, or no content changes. */
  lemma InfoEffect(v: Id, st: State, p: Info, lsp: Lsp, now: Time)
    requires p.lsp == Some(lsp)
    ensures var (st', relayed) := HandleInfo(v, st, p, now);
      && st'.links == st.links && st'.number == st.number && st'.seen.Keys <= st.seen.Keys + {p.msgId}
      && (relayed ==> lsp.origin != v && st'.lsdb == st.lsdb[lsp.origin := Entry(lsp.number, lsp.links, now)])
      && (!relayed ==> SameAnnouncements(st'.lsdb, st.lsdb))
  {
    hide TableFor, Look;
    LookKeys(st.seen, p.msgId, now, SEEN_TTL);
  }

  /** What a node passes on goes one hop further, with one hop more spent. */
  lemma NextCopies(live: LiveGraph, f: Flood, m: string, e: Envelope, heard: set<Id>, x: Envelope)
    requires Sound(live) && CopyOk(live, f, m, e) && heard <= Neighbours(live, e.to) && x in Relay(e.to, heard, e.info)
    ensures CopyOk(live, f, m, x)
  {
    assert live[e.to] <= live.Keys && x.to in live[e.to];
    assert x.to in Within(live, f.lsp.origin, BUDGET + 1 - e.info.ttl + 1);
  }

  lemma CopyKeeps(live: LiveGraph, f: Flood, g: Flood, m: string, e: Envelope)
    requires CopyOk(live, f, m, e) && g.lsp == f.lsp
    ensures CopyOk(live, g, m, e)
  {
  }

  lemma DeliveringKeepsFloodSafe(live: LiveGraph, net: Net, e: Envelope, now: Time, heard: set<Id>, m: string)
    requires Sound(live) && Possible(live, net, Delivering(e, now, heard))
    requires FloodSafe(live, net, m) && FloodSafe(live, net, e.info.msgId)
    ensures FloodSafe(live, Occur(live, net, Delivering(e, now, heard)), m)
  {
    var r, f := Occur(live, net, Delivering(e, now, heard)), net.floods[e.info.msgId];
    assert CopyOk(live, f, e.info.msgId, e);
    InfoEffect(e.to, net.nodes[e.to], e.info, f.lsp, now);
    hide HandleInfo, Relay, CopyOk;
    var out := Relay(e.to, heard, e.info);
    if m == e.info.msgId {
      forall x | x in r.floods[m].flying ensures CopyOk(live, r.floods[m], m, x) {
        assert x in multiset(out) <==> x in out;
        if x !in f.flying { NextCopies(live, f, m, e, heard, x); }
        CopyKeeps(live, f, r.floods[m], m, x);
      }
    }
  }

  /** What a delivery leaves on file was there, or is what it brings. */
  lemma DeliveryFiles(live: LiveGraph, net: Net, e: Envelope, now: Time, heard: set<Id>, u: Id, o: Id)
    requires Possible(live, net, Delivering(e, now, heard)) && FloodSafe(live, net, e.info.msgId)
    requires var r := Occur(live, net, Delivering(e, now, heard)); u in net.nodes && o in r.nodes[u].lsdb
    ensures var r, f := Occur(live, net, Delivering(e, now, heard)), net.floods[e.info.msgId];
      var entry := r.nodes[u].lsdb[o];
      || (o in net.nodes[u].lsdb && entry.number == net.nodes[u].lsdb[o].number && entry.links == net.nodes[u].lsdb[o].links)
      || (u == e.to && o != u && Lsp(o, entry.number, entry.links) == f.lsp && u in Within(live, o, BUDGET))
  {
    var f := net.floods[e.info.msgId];
    assert CopyOk(live, f, e.info.msgId, e);
    InfoEffect(e.to, net.nodes[e.to], e.info, f.lsp, now);
    WithinGrows(live, f.lsp.origin, BUDGET + 1 - e.info.ttl, BUDGET);
    hide HandleInfo, Relay, Within;
  }

  lemma DeliveryKeepsWords(live: LiveGraph, net: Net, e: Envelope, now: Time, heard: set<Id>)
    requires Possible(live, net, Delivering(e, now, heard)) && FloodSafe(live, net, e.info.msgId)
    ensures var r := Occur(live, net, Delivering(e, now, heard));
      && r.nodes.Keys == net.nodes.Keys && (forall v :: v in net.nodes ==> r.nodes[v].number == net.nodes[v].number)
      && forall m, lsp :: Says(net, m, lsp) ==> Says(r, m, lsp)
  {
    var f := net.floods[e.info.msgId];
    assert CopyOk(live, f, e.info.msgId, e);
    InfoEffect(e.to, net.nodes[e.to], e.info, f.lsp, now);
    hide HandleInfo, Relay, CopyOk;
  }

  lemma DeliveringKeepsEntry(live: LiveGraph, net: Net, e: Envelope, now: Time, heard: set<Id>, u: Id, o: Id)
    requires Possible(live, net, Delivering(e, now, heard)) && EntrySafe(live, net, u, o) && FloodSafe(live, net, e.info.msgId)
    ensures EntrySafe(live, Occur(live, net, Delivering(e, now, heard)), u, o)
  {
    hide Occur, Within, CopyOk;
    var r, f := Occur(live, net, Delivering(e, now, heard)), net.floods[e.info.msgId];
    DeliveryKeepsWords(live, net, e, now, heard);
    if u in net.nodes && o in r.nodes[u].lsdb {
      DeliveryFiles(live, net, e, now, heard, u, o);
      var lsp := Lsp(o, r.nodes[u].lsdb[o].number, r.nodes[u].lsdb[o].links);
      if o in net.nodes[u].lsdb && lsp.number == net.nodes[u].lsdb[o].number && lsp.links == net.nodes[u].lsdb[o].links {
        var m :| Says(net, m, lsp);
        assert Says(r, m, lsp);
      } else {
        assert Says(net, e.info.msgId, lsp);
        assert Says(r, e.info.msgId, lsp);
      }
    }
  }

  lemma DeliveringKeepsKnown(live: LiveGraph, net: Net, e: Envelope, now: Time, heard: set<Id>)
    requires Known(net) && FloodSafe(live, net, e.info.msgId) && Possible(live, net, Delivering(e, now, heard))
    ensures Known(Occur(live, net, Delivering(e, now, heard)))
  {
    var f := net.floods[e.info.msgId];
    assert CopyOk(live, f, e.info.msgId, e);
    InfoEffect(e.to, net.nodes[e.to], e.info, f.lsp, now);
    hide HandleInfo, Relay, CopyOk;
  }

  lemma DeliveringKeepsSafety(live: LiveGraph, net: Net, e: Envelope, now: Time, heard: set<Id>)
    requires Sound(live) && Safety(live, net) && Possible(live, net, Delivering(e, now, heard))
    ensures Safety(live, Occur(live, net, Delivering(e, now, heard)))
  {
    var r := Occur(live, net, Delivering(e, now, heard));
    hide HandleInfo, Relay, FloodSafe, EntrySafe, Known;
    DeliveringKeepsKnown(live, net, e, now, heard);
    forall m ensures FloodSafe(live, r, m) { DeliveringKeepsFloodSafe(live, net, e, now, heard, m); }
    forall u, o ensures EntrySafe(live, r, u, o) { DeliveringKeepsEntry(live, net, e, now, heard, u, o); }
  }

  // ---------------------------------------------------------------- losses

  lemma LosingKeepsSafety(live: LiveGraph, net: Net, e: Envelope, now: Time)
    requires Safety(live, net) && Possible(live, net, Losing(e, now))
    ensures Safety(live, Occur(live, net, Losing(e, now)))
  {
    hide CopyOk, Within;
    var r := Occur(live, net, Losing(e, now));
    forall m ensures FloodSafe(live, r, m) {
      assert FloodSafe(live, net, m);
      if m in net.floods {
        forall x | x in r.floods[m].flying ensures CopyOk(live, r.floods[m], m, x) {
          CopyKeeps(live, net.floods[m], r.floods[m], m, x);
        }
      }
    }
    forall u, o ensures EntrySafe(live, r, u, o) { LosingKeepsEntry(live, net, e, now, u, o); }
  }

  lemma LosingKeepsEntry(live: LiveGraph, net: Net, e: Envelope, now: Time, u: Id, o: Id)
    requires EntrySafe(live, net, u, o) && Possible(live, net, Losing(e, now))
    ensures EntrySafe(live, Occur(live, net, Losing(e, now)), u, o)
  {
    hide Within;
    if u in net.nodes && o in net.nodes[u].lsdb {
      var entry := net.nodes[u].lsdb[o];
      var m :| Says(net, m, Lsp(o, entry.number, entry.links));
      assert Says(Occur(live, net, Losing(e, now)), m, Lsp(o, entry.number, entry.links));
    }
  }

  // ------------------------------------------------------------ whole runs

  lemma StepKeepsSafety(live: LiveGraph, net: Net, ev: Event)
    requires Sound(live) && Safety(live, net)
    ensures Safety(live, Step(live, net, ev))
  {
    hide Safety, Occur;
    if Possible(live, net, ev) {
      match ev
      case Local(v, local, heard) => LocalKeepsSafety(live, net, v, local, heard);
      case Delivering(e, now, heard) => DeliveringKeepsSafety(live, net, e, now, heard);
      case Losing(e, now) => LosingKeepsSafety(live, net, e, now);
    }
  }

  lemma {:induction false} RunIsSafe(live: LiveGraph, start: Net, events: seq<Event>)
    requires Sound(live) && Initial(live, start)
    ensures Safety(live, Through(live, start, events))
  {
    hide Safety, Step;
    if events == [] {
      InitialSafety(live, start);
    } else {
      RunIsSafe(live, start, events[..|events| - 1]);
      StepKeepsSafety(live, Through(live, start, events[..|events| - 1]), events[|events| - 1]);
    }
  }

  /** Never ahead: at every moment of every run, whatever is on file about an
      origin is something it announced, with a number it has reached. */
  lemma NothingInvented(live: LiveGraph, start: Net, events: seq<Event>, v: Id, o: Id)
    requires Sound(live) && Initial(live, start)
    requires var net := Through(live, start, events); v in net.nodes && o in net.nodes[v].lsdb
    ensures var net := Through(live, start, events);
      var entry := net.nodes[v].lsdb[o];
      && o != v && o in net.nodes && entry.number <= net.nodes[o].number
      && exists m :: m in net.floods && net.floods[m].lsp == Lsp(o, entry.number, entry.links)
  {
    hide Through;
    RunIsSafe(live, start, events);
    var net := Through(live, start, events);
    assert EntrySafe(live, net, v, o);
    var entry := net.nodes[v].lsdb[o];
    var m :| Says(net, m, Lsp(o, entry.number, entry.links));
  }

  /** The hop budget is a hard limit: no run files an announcement at a node more
      than fifteen hops from its origin. */
  lemma NeverBeyondBudget(live: LiveGraph, start: Net, events: seq<Event>, v: Id, o: Id)
    requires Sound(live) && Initial(live, start)
    requires var net := Through(live, start, events); v in net.nodes && o in net.nodes[v].lsdb
    ensures v in Within(live, o, BUDGET)
  {
    hide Through;
    RunIsSafe(live, start, events);
    assert EntrySafe(live, Through(live, start, events), v, o);
  }

  /** Every copy on a link has budget left, so decoding it, which restores a spent
      budget to the full sixteen hops, leaves it as it is. */
  lemma NoBudgetIsRestored(live: LiveGraph, start: Net, events: seq<Event>, m: string, e: Envelope)
    requires Sound(live) && Initial(live, start)
    requires var net := Through(live, start, events); m in net.floods && e in net.floods[m].flying
    ensures DecodedTtl(e.info.ttl) == e.info.ttl
  {
    hide Through;
    RunIsSafe(live, start, events);
    var net := Through(live, start, events);
    assert FloodSafe(live, net, m) && CopyOk(live, net.floods[m], m, e);
  }
}
