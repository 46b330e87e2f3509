/** What a node makes of costs it was not told: when forwarding survives that
    every node routes by its own measurements and everyone else's announcements. */
module Drift {
  import opened Ordering
  import opened Graphs
  import opened ShortestPaths
  import opened Exactness
  import opened HopByHop
  import opened Packets

  type LinkMap = map<Id, Links>

  /** Links between nodes of the map, at a cost; every node has one. */
  ghost predicate Costed(out: LinkMap) {
    forall u :: Linked(out, u) && Priced(out, u)
  }

  ghost predicate Priced(out: LinkMap, u: Id) {
    u in out ==> forall v :: v in out[u] ==> out[u][v] > 0.0
  }

  /** `u` has the same links in both, at whatever cost. */
  ghost predicate SameLinks(said: LinkMap, own: LinkMap, u: Id) {
    u in said && u in own ==> said[u].Keys == own[u].Keys
  }

  /** The same links, measured again. */
  ghost predicate Remeasured(said: LinkMap, own: LinkMap) {
    Costed(said) && Costed(own) && said.Keys == own.Keys && forall u :: SameLinks(said, own, u)
  }

  /** What `u` routes by: its own links as measured, all others as announced. */
  ghost function View(said: LinkMap, own: LinkMap, u: Id): Graph
    requires u in own
  {
    LinkGraph(said[u := own[u]])
  }

  ghost function ViewTables(said: LinkMap, own: LinkMap): Tables
    requires said.Keys == own.Keys
  {
    map u | u in said :: DijkstraTable(View(said, own, u), u)
  }

  ghost function SaidTables(said: LinkMap): Tables {
    map u | u in said :: DijkstraTable(LinkGraph(said), u)
  }

  /** No link of `u` has risen since it was announced by as much as the cheapest
      link of `u` costs. */
  ghost predicate Mild(said: LinkMap, own: LinkMap, u: Id) {
    u in said && u in own ==> forall x, y :: x in own[u] && y in own[u] && x in said[u] ==>
      own[u][x] - said[u][x] < own[u][y]
  }

  // --------------------------------------------- walks that avoid a node

  /** Graphs that differ at most in what the links of `u` cost. */
  ghost predicate SameOff(g: Graph, h: Graph, u: Id) {
    forall x, y {:trigger Usable(g, x, y)} {:trigger Usable(h, x, y)} ::
      (Usable(g, x, y) <==> Usable(h, x, y)) && (Usable(g, x, y) && x != u ==> g[x][y] == h[x][y])
  }

  ghost predicate Positive(g: Graph) {
    forall x, y {:trigger Usable(g, x, y)} :: Usable(g, x, y) ==> g[x][y] > 0.0
  }

  lemma {:induction false} SameWalkOff(g: Graph, h: Graph, u: Id, w: seq<Id>)
    requires SameOff(g, h, u) && IsWalk(g, w) && forall x :: x in w ==> x != u
    ensures IsWalk(h, w) && WalkCost(h, w) == WalkCost(g, w)
    decreases |w|
  {
    if |w| > 1 {
      var init := w[..|w| - 1];
      forall x | x in init ensures x != u { assert x in w; }
      SameWalkOff(g, h, u, init);
      assert w[|w| - 2] in w && Usable(g, w[|w| - 2], w[|w| - 1]);
      assert Usable(g, w[|w| - 2], w[|w| - 1]);
    }
  }

  lemma {:induction false} SuffixIsNoDearer(g: Graph, w: seq<Id>, i: nat)
    requires IsWalk(g, w) && i < |w|
    ensures IsWalk(g, w[i..]) && WalkCost(g, w[i..]) <= WalkCost(g, w)
    decreases i
  {
    if i == 0 {
      assert w[0..] == w;
    } else {
      SplitFirst(g, w[0], w, w[|w| - 1]);
      SuffixIsNoDearer(g, w[1..], i - 1);
      assert w[1..][i - 1..] == w[i..];
    }
  }

  /** A cheapest way never comes back to where it started. */
  lemma CheapestLeavesForGood(g: Graph, u: Id, w: seq<Id>, d: Id)
    requires Positive(g) && WalkBetween(g, u, w, d) && |w| > 1 && LeastCost(g, u, d, WalkCost(g, w))
    ensures Usable(g, u, w[1]) && WalkBetween(g, w[1], w[1..], d)
    ensures WalkCost(g, w) == g[u][w[1]] + WalkCost(g, w[1..])
    ensures forall x :: x in w[1..] ==> x != u
  {
    SplitFirst(g, u, w, d);
    var rest := w[1..];
    assert Usable(g, u, w[1]);
    forall i | 0 <= i < |rest| ensures rest[i] != u {
      SuffixIsNoDearer(g, rest, i);
      assert rest[i] == u ==> WalkBetween(g, u, rest[i..], d);
    }
  }

  // ------------------------------------------------------ the hop is closer

  /** The way `u` takes by its own costs, after its first link, is a way in the
      announced graph too. */
  lemma RestIsAnnounced(said: Graph, own: Graph, u: Id, h: Id, d: Id, c: real) returns (rest: seq<Id>)
    requires SameOff(said, own, u) && Positive(own)
    requires LeastCost(own, u, d, c) && Witnessed(own, u, d, c, h)
    ensures Usable(own, u, h) && WalkBetween(said, h, rest, d) && c == own[u][h] + WalkCost(said, rest)
  {
    var w :| WalkBetween(own, u, w, d) && |w| > 1 && w[1] == h && WalkCost(own, w) == c;
    CheapestLeavesForGood(own, u, w, d);
    SameWalkOff(own, said, u, w[1..]);
    rest := w[1..];
  }

  /** The cheapest announced way from `u` is open to `u` at its own first cost. */
  lemma AnnouncedIsOpen(said: Graph, own: Graph, u: Id, d: Id, c: real, cu: real) returns (x: Id)
    requires SameOff(said, own, u) && Positive(said) && u != d
    requires LeastCost(own, u, d, c) && LeastCost(said, u, d, cu)
    ensures Usable(own, u, x) && Usable(said, u, x) && c <= own[u][x] - said[u][x] + cu
  {
    var v :| WalkBetween(said, u, v, d) && WalkCost(said, v) == cu;
    assert |v| > 1;
    hide IsWalk, WalkCost;
    CheapestLeavesForGood(said, u, v, d);
    SameWalkOff(said, own, u, v[1..]);
    x := v[1];
    assert Usable(own, u, x);
    PrependWalk(own, u, v[1..]);
    assert WalkBetween(own, u, [u] + v[1..], d);
  }

  /** The heart of the matter: where `u` sends a message by its own costs is closer
      to the goal by the announced ones, if no link of `u` has risen by as much as
      the link taken costs. */
  lemma DriftedHopIsCloser(said: Graph, own: Graph, u: Id, h: Id, d: Id, c: real, cu: real, ch: real)
    requires SameOff(said, own, u) && Positive(said) && Positive(own) && u != d
    requires LeastCost(own, u, d, c) && Witnessed(own, u, d, c, h)
    requires LeastCost(said, u, d, cu)
    requires forall x :: Usable(own, u, x) && Usable(own, u, h) ==> own[u][x] - said[u][x] < own[u][h]
    requires Reaches(said, h, d) ==> LeastCost(said, h, d, ch)
    ensures Reaches(said, h, d) && ch < cu
  {
    var rest := RestIsAnnounced(said, own, u, h, d, c);
    var x := AnnouncedIsOpen(said, own, u, d, c, cu);
    hide IsWalk, WalkCost;
    assert ch <= WalkCost(said, rest);
  }

  /** The links of the announced graph, or of a view, by what they cost. */
  ghost predicate LinksAre(g: Graph, out: LinkMap) {
    forall x, y {:trigger Usable(g, x, y)} ::
      (Usable(g, x, y) <==> x in out && y in out[x]) && (Usable(g, x, y) ==> g[x][y] == out[x][y] > 0.0)
  }

  lemma CostedLinksAre(out: LinkMap)
    requires forall u :: Priced(out, u)
    ensures LinksAre(LinkGraph(out), out) && Positive(LinkGraph(out))
  {
    hide LinkGraph;
    var g := LinkGraph(out);
    forall x, y
      ensures Usable(g, x, y) <==> x in out && y in out[x]
      ensures Usable(g, x, y) ==> g[x][y] == out[x][y] > 0.0
    {
      assert Priced(out, x);
      LinkGraphLinks(out, x, y);
    }
  }

  lemma ViewLinks(said: LinkMap, own: LinkMap, u: Id)
    requires Remeasured(said, own) && u in said
    ensures SameOff(LinkGraph(said), View(said, own, u), u)
    ensures Positive(LinkGraph(said)) && Positive(View(said, own, u))
    ensures LinksAre(LinkGraph(said), said) && LinksAre(View(said, own, u), said[u := own[u]])
  {
    hide LinkGraph;
    var out := said[u := own[u]];
    assert forall x :: Priced(said, x) && Priced(own, x);
    forall x ensures Priced(out, x) { assert Priced(said, x) && Priced(own, x); }
    CostedLinksAre(said);
    CostedLinksAre(out);
    assert SameLinks(said, own, u);
    hide Priced, Linked;
  }

  /** The announced tables are tables of one graph, whose nodes are all nodes. */
  lemma SaidTablesAgree(said: LinkMap)
    requires Costed(said)
    ensures SameGraph(LinkGraph(said), SaidTables(said))
  {
    LinkGraphNodes(said);
    hide LinkGraph, DijkstraTable;
    var g := LinkGraph(said);
    forall u, v | HasLink(g, u, v) ensures v in g && g[u][v] > 0.0 {
      LinkGraphLinks(said, u, v);
      assert Priced(said, u);
    }
    DijkstraTablesAgree(g, SaidTables(said));
  }

  lemma {:induction false} WalksCarryOver(g: Graph, view: Graph, u: Id, w: seq<Id>)
    requires SameOff(g, view, u) && IsWalk(g, w)
    ensures IsWalk(view, w)
    decreases |w|
  {
    if |w| > 1 {
      WalksCarryOver(g, view, u, w[..|w| - 1]);
      assert Usable(g, w[|w| - 2], w[|w| - 1]);
    }
  }

  ghost predicate MildAt(g: Graph, view: Graph, u: Id) {
    forall x, y {:trigger Usable(view, u, x), Usable(view, u, y)} ::
      Usable(view, u, x) && Usable(view, u, y) && Usable(g, u, x) ==> view[u][x] - g[u][x] < view[u][y]
  }

  lemma ViewReaches(g: Graph, view: Graph, u: Id, d: Id)
    requires SameOff(g, view, u) && Reaches(g, u, d)
    ensures Reaches(view, u, d)
  {
    var w :| WalkBetween(g, u, w, d);
    WalksCarryOver(g, view, u, w);
    assert WalkBetween(view, u, w, d);
  }

  /** A node whose table is optimal for its view sends closer by the announced
      tables. */
  lemma ViewLeadsCloser(g: Graph, base: Tables, view: Graph, t: Table, u: Id, d: Id)
    requires SameGraph(g, base) && SameOff(g, view, u) && Positive(g) && Positive(view)
    requires Optimal(view, u, t) && MildAt(g, view, u) && Routable(base, u, d) && u != d
    ensures d in t && Routable(base, t[d].nextHop, d)
    ensures Remaining(base, t[d].nextHop, d) < Remaining(base, u, d)
  {
    RemainingIsLeast(g, base, u, d);
    ViewReaches(g, view, u, d);
    var h, c := t[d].nextHop, t[d].cost;
    FirstHopReaches(view, u, h, d, c);
    assert Usable(g, u, h) && HasLink(g, u, h) && h in base;
    assert Optimal(g, h, base[h]);
    var ch := if Routable(base, h, d) then Remaining(base, h, d) else 0.0;
    if Routable(base, h, d) { RemainingIsLeast(g, base, h, d); }
    DriftedHopIsCloser(g, view, u, h, d, c, Remaining(base, u, d), ch);
  }

  lemma MildAtView(said: LinkMap, own: LinkMap, g: Graph, view: Graph, u: Id)
    requires u in said && u in own && Mild(said, own, u)
    requires LinksAre(g, said) && LinksAre(view, said[u := own[u]])
    ensures MildAt(g, view, u)
  {
  }

  lemma MildLeadsCloser(said: LinkMap, own: LinkMap, d: Id, u: Id)
    requires Remeasured(said, own) && u in said && Mild(said, own, u)
    ensures LeadsCloser(SaidTables(said), ViewTables(said, own), d, u)
  {
    hide Costed, SameLinks, LinkGraph, View, DijkstraTable, SameGraph, Optimal, SameOff, Positive, MildAt, LinksAre, Mild;
    var g, view := LinkGraph(said), View(said, own, u);
    var base: Tables, tables: Tables := SaidTables(said), ViewTables(said, own);
    ViewLinks(said, own, u);
    SaidTablesAgree(said);
    MildAtView(said, own, g, view, u);
    DijkstraIsExact(view, u);
    assert tables[u] == DijkstraTable(view, u);
    hide Remeasured, SaidTables, ViewTables;
    if Routable(base, u, d) && u != d { ViewLeadsCloser(g, base, view, tables[u], u, d); }
  }

  /** Forwarding survives drift: on at most seventeen nodes, if no link has risen
      since its announcement by as much as its node's cheapest link costs, every
      message for a node that can be reached arrives. */
  lemma MildDriftIsHarmless(said: LinkMap, own: LinkMap, u: Id, d: Id, id: string)
    requires Remeasured(said, own) && |said.Keys| <= DEFAULT_TTL + 1
    requires forall x :: Mild(said, own, x)
    requires u in said && u != d && Reaches(LinkGraph(said), u, d)
    ensures Forwarded(ViewTables(said, own), u, d, id).Arrived?
  {
    assert said.Keys == own.Keys;
    hide LinkGraph, DijkstraTable, Remeasured, Mild, SaidTables, ViewTables, SameGraph, LeadsCloser, Forwarded, Reaches;
    var base, tables := SaidTables(said), ViewTables(said, own);
    SaidTablesList(said, own, u, d);
    forall x ensures LeadsCloser(base, tables, d, x) {
      if x in said { MildLeadsCloser(said, own, d, x); } else { NoLead(base, tables, d, x); }
    }
    DescentArrives(base, tables, u, d, id);
  }

  lemma NoLead(base: Tables, tables: Tables, d: Id, x: Id)
    requires x !in base
    ensures LeadsCloser(base, tables, d, x)
  {
  }

  // --------------------------------------------------- what the route costs

  /** No link of `u` has risen by more than `rise` since it was announced. */
  ghost predicate RisenBy(said: LinkMap, own: LinkMap, rise: real, u: Id) {
    u in said && u in own ==> forall x :: x in own[u] && x in said[u] ==> own[u][x] - said[u][x] <= rise
  }

  /** The hop a node takes by its own costs is dearer than it leads closer, by the
      announced ones, by no more than its links have risen. */
  lemma DriftedHopCosts(said: Graph, own: Graph, u: Id, h: Id, d: Id, c: real, cu: real, ch: real, rise: real)
    requires SameOff(said, own, u) && Positive(said) && Positive(own) && u != d
    requires LeastCost(own, u, d, c) && Witnessed(own, u, d, c, h)
    requires LeastCost(said, u, d, cu) && LeastCost(said, h, d, ch)
    requires forall x :: Usable(own, u, x) ==> own[u][x] - said[u][x] <= rise
    ensures Usable(own, u, h) && own[u][h] + ch <= cu + rise
  {
    var rest := RestIsAnnounced(said, own, u, h, d, c);
    var x := AnnouncedIsOpen(said, own, u, d, c, cu);
    hide IsWalk, WalkCost;
    assert ch <= WalkCost(said, rest);
  }

  lemma ViewPaysOff(g: Graph, base: Tables, view: Graph, t: Table, u: Id, d: Id, rise: real)
    requires SameGraph(g, base) && SameOff(g, view, u) && Positive(g) && Positive(view)
    requires Optimal(view, u, t) && MildAt(g, view, u) && Routable(base, u, d) && u != d
    requires forall x :: Usable(view, u, x) ==> Usable(g, u, x) && view[u][x] - g[u][x] <= rise
    ensures d in t && Routable(base, t[d].nextHop, d) && Usable(view, u, t[d].nextHop)
    ensures view[u][t[d].nextHop] + Remaining(base, t[d].nextHop, d) <= Remaining(base, u, d) + rise
  {
    ViewLeadsCloser(g, base, view, t, u, d);
    var h, c := t[d].nextHop, t[d].cost;
    RemainingIsLeast(g, base, u, d);
    RemainingIsLeast(g, base, h, d);
    hide SameGraph, SameOff, MildAt;
    DriftedHopCosts(g, view, u, h, d, c, Remaining(base, u, d), Remaining(base, h, d), rise);
  }

  lemma MildPaysOff(said: LinkMap, own: LinkMap, d: Id, u: Id, rise: real)
    requires Remeasured(said, own) && Mild(said, own, u) && RisenBy(said, own, rise, u)
    ensures LeadsCloser(SaidTables(said), ViewTables(said, own), d, u)
    ensures PaysOff(LinkGraph(own), SaidTables(said), ViewTables(said, own), d, rise, u)
  {
    hide Costed, SameLinks, LinkGraph, View, DijkstraTable, SameGraph, Optimal, SameOff, Positive, MildAt, LinksAre, Mild;
    var base: Tables, tables: Tables := SaidTables(said), ViewTables(said, own);
    if u in said && Routable(base, u, d) && u != d {
      var g, view := LinkGraph(said), View(said, own, u);
      MildLeadsCloser(said, own, d, u);
      ViewLinks(said, own, u);
      OwnLinks(said, own, u);
      SaidTablesAgree(said);
      MildAtView(said, own, g, view, u);
      DijkstraIsExact(view, u);
      RisesAtView(said, own, g, view, u, rise);
      ViewPaysOff(g, base, view, tables[u], u, d, rise);
    }
  }

  lemma OwnLinks(said: LinkMap, own: LinkMap, u: Id)
    requires Remeasured(said, own) && u in said
    ensures LinksAre(LinkGraph(own), own)
    ensures forall x :: Usable(View(said, own, u), u, x) ==> HasLink(LinkGraph(own), u, x) && LinkGraph(own)[u][x] == View(said, own, u)[u][x]
  {
    ViewLinks(said, own, u);
    assert forall x :: Priced(own, x);
    CostedLinksAre(own);
    hide LinkGraph, View, Costed;
    forall x | Usable(View(said, own, u), u, x)
      ensures HasLink(LinkGraph(own), u, x) && LinkGraph(own)[u][x] == View(said, own, u)[u][x]
    {
      assert Usable(LinkGraph(own), u, x);
    }
  }

  lemma RisesAtView(said: LinkMap, own: LinkMap, g: Graph, view: Graph, u: Id, rise: real)
    requires u in said && u in own && SameLinks(said, own, u) && RisenBy(said, own, rise, u)
    requires LinksAre(g, said) && LinksAre(view, said[u := own[u]])
    ensures forall x :: Usable(view, u, x) ==> Usable(g, u, x) && view[u][x] - g[u][x] <= rise
  {
    forall x | Usable(view, u, x) ensures Usable(g, u, x) && view[u][x] - g[u][x] <= rise { assert Usable(g, u, x); }
  }

  /** What drift costs: a message then travels, at the costs of now, for no more
      than the announced least cost and the greatest rise once for each hop. */
  lemma MildDriftCosts(said: LinkMap, own: LinkMap, u: Id, d: Id, id: string, rise: real)
    requires Remeasured(said, own) && |said.Keys| <= DEFAULT_TTL + 1
    requires forall x :: Mild(said, own, x) && RisenBy(said, own, rise, x)
    requires u in said && u != d && Reaches(LinkGraph(said), u, d)
    ensures var o := Paid(LinkGraph(own), ViewTables(said, own), u, d, id);
      && o.Arrived? && 1 <= |o.message.trace| <= DEFAULT_TTL
      && exists least :: LeastCost(LinkGraph(said), u, d, least) && o.cost <= least + Times(rise, |o.message.trace|)
  {
    assert said.Keys == own.Keys;
    hide LinkGraph, DijkstraTable, Remeasured, Mild, RisenBy, SaidTables, ViewTables, SameGraph, Optimal, LeadsCloser, PaysOff, Paid, Times;
    var base, tables := SaidTables(said), ViewTables(said, own);
    SaidTablesList(said, own, u, d);
    RemainingIsLeast(LinkGraph(said), base, u, d);
    hide Reaches, LeastCost;
    forall x ensures LeadsCloser(base, tables, d, x) && PaysOff(LinkGraph(own), base, tables, d, rise, x) {
      MildPaysOff(said, own, d, x, rise);
    }
    DescentCosts(LinkGraph(own), base, tables, u, d, id, rise);
    assert LeastCost(LinkGraph(said), u, d, Remaining(base, u, d));
  }

  lemma SaidTablesList(said: LinkMap, own: LinkMap, u: Id, d: Id)
    requires Remeasured(said, own) && u in said && u != d && Reaches(LinkGraph(said), u, d)
    ensures SameGraph(LinkGraph(said), SaidTables(said)) && SaidTables(said).Keys == said.Keys == own.Keys
    ensures Routable(SaidTables(said), u, d)
  {
    hide LinkGraph, DijkstraTable, Costed, SameLinks;
    SaidTablesAgree(said);
    assert Optimal(LinkGraph(said), u, SaidTables(said)[u]);
  }
}
