/** The link-state protocol at one node, over resolved identifiers: every handler
    as a function from (state, input, clock) to the new state and what it sends. */
module LinkState {
  import opened Options
  import opened Ordering
  import opened Graphs
  import opened ShortestPaths
  import Exactness
  import opened SeenCaches
  import opened Packets

  const REFRESH_INTERVAL: Time := 10 * SECOND
  const LSP_MAX_AGE: Time := 30 * SECOND
  const AGE_INTERVAL: Time := 3 * SECOND
  const SEEN_TTL: Time := 60 * SECOND
  const MIN_ANNOUNCE_INTERVAL: Time := 5 * SECOND
  const SEQ_RESET_GAP: int := 16
  const COST_CHANGE_THRESHOLD: real := 0.5

  datatype Lsp = Lsp(origin: Id, number: int, links: Links)

  /** The parts of an `info` packet the routing plane reads or writes; `lsp` is
      absent when the payload cannot be read. */
  datatype Info = Info(msgId: string, ttl: int, via: Id, lsp: Option<Lsp>)

  datatype Envelope = Envelope(to: Id, info: Info)

  datatype Entry = Entry(number: int, links: Links, refreshed: Time)
  type Database = map<Id, Entry>

  datatype State = State(
    links: Links,
    lsdb: Database,
    number: int,
    lastAnnounce: Option<Time>,
    seen: Entries,
    table: Table)

  const INITIAL: State := State(map[], map[], 0, None, map[], map[])

  // -------------------------------------------------------------- database

  datatype Stored = Stored(lsdb: Database, accepted: bool, structural: bool)

  /** `store`: a number at or below the one on file is stale, unless it is at
      least `SEQ_RESET_GAP` below, which is read as a restarted origin. */
  function Store(lsdb: Database, lsp: Lsp, now: Time): Stored {
    var known := lsp.origin in lsdb;
    if known && lsp.number <= lsdb[lsp.origin].number && lsdb[lsp.origin].number - lsp.number < SEQ_RESET_GAP then
      if lsp.number == lsdb[lsp.origin].number
      then Stored(lsdb[lsp.origin := lsdb[lsp.origin].(refreshed := now)], false, false)
      else Stored(lsdb, false, false)
    else
      Stored(lsdb[lsp.origin := Entry(lsp.number, lsp.links, now)], true,
             !known || lsdb[lsp.origin].links.Keys != lsp.links.Keys)
  }

  function Unexpired(lsdb: Database, now: Time): Database {
    map origin | origin in lsdb && now - lsdb[origin].refreshed <= LSP_MAX_AGE :: lsdb[origin]
  }

  /** Two databases that differ at most in when their entries were refreshed. */
  ghost predicate SameAnnouncements(a: Database, b: Database) {
    && a.Keys == b.Keys
    && forall o :: o in a ==> a[o].number == b[o].number && a[o].links == b[o].links
  }

  // ----------------------------------------------------------------- table

  ghost function LinkEdges(from: Id, links: Links): set<Edge> {
    set n | n in links :: Edge(from, n, links[n])
  }

  ghost function DatabaseEdges(lsdb: Database, origins: set<Id>): set<Edge> {
    set origin, n | origin in origins && origin in lsdb && n in lsdb[origin].links ::
      Edge(origin, n, lsdb[origin].links[n])
  }

  /** The edges behind `recompute` and `Topology`: the node's own links and those
      of every announcement on file. */
  ghost function EdgesOf(self: Id, links: Links, lsdb: Database): set<Edge> {
    LinkEdges(self, links) + DatabaseEdges(lsdb, lsdb.Keys)
  }

  /** The table `recompute` derives from the links and the database. */
  ghost function TableFor(self: Id, links: Links, lsdb: Database): Table {
    DijkstraTable(GraphOf(EdgesOf(self, links, lsdb)), self)
  }

  ghost function Recompute(self: Id, st: State): State {
    st.(table := TableFor(self, st.links, st.lsdb))
  }

  // -------------------------------------------------------------- handlers

  function Relayed(self: Id, p: Info): Info {
    p.(ttl := p.ttl - 1, via := self)
  }

  /** `relay`: nothing once the budget is spent, else one copy to every live
      neighbour but the previous hop. */
  function Relay(self: Id, live: set<Id>, p: Info): set<Envelope> {
    if p.ttl - 1 <= 0 then {}
    else set n | n in live && n != p.via :: Envelope(n, Relayed(self, p))
  }

  /** `announce`: count up, stamp the clock, and flood the current links. A packet
      without a `via` header falls back on `from`, the announcing node itself. */
  function Announce(self: Id, st: State, msgId: string, now: Time): (State, Info) {
    var st' := st.(
      number := st.number + 1,
      lastAnnounce := Some(now),
      seen := Look(st.seen, msgId, now, SEEN_TTL).0);
    (st', Info(msgId, DEFAULT_TTL, self, Some(Lsp(self, st'.number, st.links))))
  }

  /** `HandleInfo`: the new state, and whether the packet is relayed. */
  ghost function HandleInfo(self: Id, st: State, p: Info, now: Time): (State, bool) {
    var (seen, known) := Look(st.seen, p.msgId, now, SEEN_TTL);
    var st1 := st.(seen := seen);
    if known || p.lsp.None? || p.lsp.value.origin == "" || p.lsp.value.origin == self then (st1, false)
    else
      var r := Store(st.lsdb, p.lsp.value, now);
      var st2 := st1.(lsdb := r.lsdb);
      if r.accepted then (Recompute(self, st2), true) else (st2, false)
  }

  function RelativeChange(before: real, after: real): real {
    if before <= 0.0 then 1.0
    else
      var delta := after - before;
      (if delta < 0.0 then -delta else delta) / before
  }

  /** The cost has risen or fallen by more than half, or was none. */
  predicate Moved(before: real, cost: real) {
    before <= 0.0 || 2.0 * cost > 3.0 * before || 2.0 * cost < before
  }

  lemma HalfOf(x: real, before: real)
    requires before > 0.0
    ensures x / before > 0.5 <==> 2.0 * x > before
  {
    var q := x / before;
    assert q * before == x;
    if q > 0.5 { assert (q - 0.5) * before > 0.0; } else { assert (0.5 - q) * before >= 0.0; }
  }

  lemma ChangeIsMove(before: real, cost: real)
    ensures RelativeChange(before, cost) > COST_CHANGE_THRESHOLD <==> Moved(before, cost)
  {
    if before > 0.0 {
      HalfOf(cost - before, before);
      HalfOf(before - cost, before);
    }
  }

  /** Whether a cost that merely drifted is worth announcing now. */
  function CostMoved(st: State, neighbor: Id, cost: real, now: Time): bool {
    && neighbor in st.links
    && RelativeChange(st.links[neighbor], cost) > COST_CHANGE_THRESHOLD
    && (st.lastAnnounce.None? || now - st.lastAnnounce.value > MIN_ANNOUNCE_INTERVAL)
  }

  ghost function OnLinkUp(self: Id, st: State, neighbor: Id, cost: real, msgId: string, now: Time): (State, Option<Info>) {
    var st1 := st.(links := st.links[neighbor := cost]);
    if neighbor !in st.links || CostMoved(st, neighbor, cost, now) then
      var (st2, p) := Announce(self, st1, msgId, now);
      (Recompute(self, st2), Some(p))
    else (Recompute(self, st1), None)
  }

  ghost function OnLinkDown(self: Id, st: State, neighbor: Id, msgId: string, now: Time): (State, Option<Info>) {
    if neighbor !in st.links then (st, None)
    else
      var (st1, p) := Announce(self, st.(links := st.links - {neighbor}), msgId, now);
      (Recompute(self, st1), Some(p))
  }

  /** The ageing sweep: drop what was not refreshed, recompute if that removed
      anything. */
  ghost function Sweep(self: Id, st: State, now: Time): State {
    var kept := Unexpired(st.lsdb, now);
    if kept == st.lsdb then st else Recompute(self, st.(lsdb := kept))
  }

  // ------------------------------------------------------------------ runs

  datatype Input =
    | Received(info: Info)
    | LinkUp(neighbor: Id, cost: real)
    | LinkDown(neighbor: Id)
    | Refresh
    | Ageing

  /** One handler call; `msgId` is the random id a fresh announcement would get. */
  datatype Event = Event(input: Input, msgId: string, now: Time)

  /** The state after an event, and the announcement it emitted, if any. */
  ghost function Handle(self: Id, st: State, ev: Event): (State, Option<Info>) {
    match ev.input
    case Received(p) => (HandleInfo(self, st, p, ev.now).0, None)
    case LinkUp(n, c) => OnLinkUp(self, st, n, c, ev.msgId, ev.now)
    case LinkDown(n) => OnLinkDown(self, st, n, ev.msgId, ev.now)
    case Refresh => var (st', p) := Announce(self, st, ev.msgId, ev.now); (st', Some(p))
    case Ageing => (Sweep(self, st, ev.now), None)
  }

  ghost function RunFrom(self: Id, st: State, events: seq<Event>): State {
    if events == [] then st
    else Handle(self, RunFrom(self, st, events[..|events| - 1]), events[|events| - 1]).0
  }

  ghost function Run(self: Id, events: seq<Event>): State {
    RunFrom(self, INITIAL, events)
  }

  ghost predicate ClockRuns(events: seq<Event>) {
    forall i, j :: 0 <= i < j < |events| ==> events[i].now <= events[j].now
  }

  // ------------------------------------------- the table is always current

  ghost predicate Consistent(self: Id, st: State) {
    && st.table == TableFor(self, st.links, st.lsdb)
    && self !in st.lsdb
  }

  lemma InitialIsConsistent(self: Id)
    ensures Consistent(self, INITIAL)
  {
    assert EdgesOf(self, map[], map[]) == {};
    EmptyGraphEmptyTable(self);
  }

  lemma EmptyGraphEmptyTable(self: Id)
    ensures DijkstraTable(GraphOf({}), self) == map[]
  {
    var g := GraphOf({});
    GraphOfDescribes({});
    Exactness.DijkstraIsExact(g, self);
    forall v ensures !WalkBetweenOthers(g, self, v) {
      forall w ensures !(v != self && WalkBetween(g, self, w, v)) { assert |w| > 1 ==> w[|w| - 2] !in g; }
    }
    assert forall v :: v in DijkstraTable(g, self) ==> WalkBetweenOthers(g, self, v);
  }

  ghost predicate WalkBetweenOthers(g: Graph, s: Id, v: Id) {
    v != s && Reaches(g, s, v)
  }

  lemma HandleKeepsConsistent(self: Id, st: State, ev: Event)
    requires Consistent(self, st)
    ensures Consistent(self, Handle(self, st, ev).0)
  {
    hide DijkstraTable, GraphOf;
    match ev.input
    case Received(p) => ReceivedKeepsConsistent(self, st, p, ev.now);
    case LinkUp(_, _) =>
    case LinkDown(_) =>
    case Refresh =>
    case Ageing =>
  }

  lemma RefreshKeepsEdges(self: Id, links: Links, lsdb: Database, origin: Id, now: Time)
    requires origin in lsdb
    ensures EdgesOf(self, links, lsdb[origin := lsdb[origin].(refreshed := now)]) == EdgesOf(self, links, lsdb)
  {
    var lsdb' := lsdb[origin := lsdb[origin].(refreshed := now)];
    forall e ensures e in EdgesOf(self, links, lsdb') <==> e in EdgesOf(self, links, lsdb) {
      assert forall o :: o in lsdb ==> lsdb'[o].links == lsdb[o].links;
    }
  }

  lemma ReceivedKeepsConsistent(self: Id, st: State, p: Info, now: Time)
    requires Consistent(self, st)
    ensures Consistent(self, HandleInfo(self, st, p, now).0)
  {
    hide DijkstraTable, GraphOf;
    if p.lsp.Some? {
      var r := Store(st.lsdb, p.lsp.value, now);
      if !r.accepted { RefreshKeepsEdges(self, st.links, st.lsdb, p.lsp.value.origin, now); }
    }
  }

  /** After every run of complete handlers the published table is the one that
      recomputing from the links and the database would give; so is the table
      the console builds from any listing of `Topology()`. */
  lemma {:induction false} TableIsCurrent(self: Id, events: seq<Event>, listing: seq<Edge>)
    ensures var st := Run(self, events);
      && st.table == TableFor(self, st.links, st.lsdb)
      && (Elements(listing) == EdgesOf(self, st.links, st.lsdb) ==>
            DijkstraTable(GraphFrom(listing), self) == st.table)
  {
    RunIsConsistent(self, events);
    AnyListingBuilds(listing);
  }

  lemma {:induction false} RunIsConsistent(self: Id, events: seq<Event>)
    ensures Consistent(self, Run(self, events))
  {
    if events == [] {
      InitialIsConsistent(self);
    } else {
      RunIsConsistent(self, events[..|events| - 1]);
      HandleKeepsConsistent(self, Run(self, events[..|events| - 1]), events[|events| - 1]);
    }
  }

}
