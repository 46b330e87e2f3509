/** Static mode: shortest paths over the configured topology, without the
    neighbours currently considered down. */
module StaticMode {
  import opened Ordering
  import opened Graphs
  import opened ShortestPaths
  import opened Exactness
  import opened SafeTables

  /** The configured links that avoid every node in `down`. */
  ghost function UsableEdges(base: Graph, down: set<Id>): set<Edge> {
    set u, v | u in base && v in base[u] && u !in down && v !in down :: Edge(u, v, base[u][v])
  }

  ghost function Pruned(base: Graph, down: set<Id>): Graph {
    GraphOf(UsableEdges(base, down))
  }

  ghost function StaticTable(base: Graph, self: Id, down: set<Id>): Table {
    DijkstraTable(Pruned(base, down), self)
  }

  datatype LinkEvent = Up(neighbor: Id) | Down(neighbor: Id)

  datatype State = State(down: set<Id>, table: Table)

  ghost function Handle(base: Graph, self: Id, st: State, ev: LinkEvent): State {
    match ev
    case Up(n) => if n in st.down then State(st.down - {n}, StaticTable(base, self, st.down - {n})) else st
    case Down(n) => if n in st.down then st else State(st.down + {n}, StaticTable(base, self, st.down + {n}))
  }

  /** The state after `Start` and then `events`. */
  ghost function Run(base: Graph, self: Id, events: seq<LinkEvent>): State {
    if events == [] then State({}, StaticTable(base, self, {}))
    else Handle(base, self, Run(base, self, events[..|events| - 1]), events[|events| - 1])
  }

  // ----------------------------------------------------- walks that avoid

  /** A walk over the configured links that meets no node in `down`. */
  ghost predicate AvoidingWalk(base: Graph, down: set<Id>, s: Id, w: seq<Id>, v: Id) {
    WalkBetween(base, s, w, v) && forall x :: x in w ==> x !in down
  }

  lemma PrunedLinks(base: Graph, down: set<Id>, u: Id, v: Id)
    ensures HasLink(Pruned(base, down), u, v) <==> HasLink(base, u, v) && u !in down && v !in down
    ensures HasLink(Pruned(base, down), u, v) ==> Pruned(base, down)[u][v] == base[u][v]
  {
    var g, edges := Pruned(base, down), UsableEdges(base, down);
    GraphOfDescribes(edges);
    if HasLink(g, u, v) { assert Edge(u, v, g[u][v]) in edges; }
    if HasLink(base, u, v) && u !in down && v !in down {
      var e := Edge(u, v, base[u][v]);
      assert e in edges;
      assert HasLink(g, e.from, e.to);
    }
  }

  /** The walks of two or more nodes in the pruned graph are exactly the avoiding
      walks, at the same cost. */
  lemma {:induction false} PrunedWalks(base: Graph, down: set<Id>, w: seq<Id>)
    requires |w| > 1
    ensures IsWalk(Pruned(base, down), w) <==> IsWalk(base, w) && forall x :: x in w ==> x !in down
    ensures IsWalk(Pruned(base, down), w) ==> WalkCost(Pruned(base, down), w) == WalkCost(base, w)
    decreases |w|
  {
    var n := |w| - 1;
    var u, v := w[n - 1], w[n];
    assert w == w[..n] + [v];
    PrunedLinks(base, down, u, v);
    assert Usable(Pruned(base, down), u, v) <==> Usable(base, u, v) && u !in down && v !in down by {
      hide Pruned;
    }
    if n > 1 {
      PrunedWalks(base, down, w[..n]);
    } else {
      assert w[..n] == [u];
    }
  }

  ghost predicate CheapestAvoiding(base: Graph, down: set<Id>, s: Id, v: Id, d: real, hop: Id) {
    && (exists w :: AvoidingWalk(base, down, s, w, v) && |w| > 1 && w[1] == hop && WalkCost(base, w) == d)
    && (forall w :: AvoidingWalk(base, down, s, w, v) ==> d <= WalkCost(base, w))
  }

  /** The table lists the optimum over the walks that avoid `down`. */
  ghost predicate OptimalAvoiding(base: Graph, down: set<Id>, s: Id, t: Table) {
    && (forall v :: v in t <==> v != s && exists w :: AvoidingWalk(base, down, s, w, v))
    && (forall v :: v in t ==> CheapestAvoiding(base, down, s, v, t[v].cost, t[v].nextHop))
  }

  lemma AvoidingIsPruned(base: Graph, down: set<Id>, s: Id, w: seq<Id>, v: Id)
    requires v != s
    ensures AvoidingWalk(base, down, s, w, v) <==> WalkBetween(Pruned(base, down), s, w, v)
    ensures AvoidingWalk(base, down, s, w, v) ==> WalkCost(Pruned(base, down), w) == WalkCost(base, w)
  {
    if |w| > 1 { PrunedWalks(base, down, w); }
  }

  lemma StaticTableIsOptimal(base: Graph, self: Id, down: set<Id>)
    ensures OptimalAvoiding(base, down, self, StaticTable(base, self, down))
  {
    hide DijkstraTable, Pruned, IsWalk;
    var g, t := Pruned(base, down), StaticTable(base, self, down);
    DijkstraIsExact(g, self);
    forall v
      ensures v in t <==> v != self && exists w :: AvoidingWalk(base, down, self, w, v)
      ensures v in t ==> CheapestAvoiding(base, down, self, v, t[v].cost, t[v].nextHop)
    {
      if v != self {
        forall w
          ensures AvoidingWalk(base, down, self, w, v) <==> WalkBetween(g, self, w, v)
          ensures AvoidingWalk(base, down, self, w, v) ==> WalkCost(g, w) == WalkCost(base, w)
        {
          AvoidingIsPruned(base, down, self, w, v);
        }
        if v in t {
          var w :| WalkBetween(g, self, w, v) && |w| > 1 && w[1] == t[v].nextHop && WalkCost(g, w) == t[v].cost;
          assert AvoidingWalk(base, down, self, w, v);
        }
      }
    }
  }

  // ------------------------------------------------------------ main results

  /** Static mode is history-free: after any sequence of link events the table is
      the one the current set of unreachable neighbours determines, and that is
      the optimum over the walks avoiding them. */
  lemma {:induction false} TableDependsOnDownOnly(base: Graph, self: Id, events: seq<LinkEvent>)
    ensures var st := Run(base, self, events);
            st.table == StaticTable(base, self, st.down) && OptimalAvoiding(base, st.down, self, st.table)
  {
    hide OptimalAvoiding, DijkstraTable;
    StaticTableIsOptimal(base, self, Run(base, self, events).down);
    if events != [] { TableDependsOnDownOnly(base, self, events[..|events| - 1]); }
  }

  /** Rebuilding the graph from the links `Topology` lists, in any order, gives
      the published table: what the console's `dijkstra` command shows. */
  lemma {:induction false} AnyListingGivesTheTable(base: Graph, self: Id, events: seq<LinkEvent>, listing: seq<Edge>)
    requires Elements(listing) == UsableEdges(base, Run(base, self, events).down)
    ensures DijkstraTable(GraphFrom(listing), self) == Run(base, self, events).table
  {
    TableDependsOnDownOnly(base, self, events);
    AnyListingBuilds(listing);
  }

  /** Losing a reachable neighbour and finding it again restores the table. */
  lemma DownThenUpCancels(base: Graph, self: Id, events: seq<LinkEvent>, n: Id)
    requires n !in Run(base, self, events).down
    ensures Run(base, self, events + [Down(n), Up(n)]) == Run(base, self, events)
  {
    var e2 := events + [Down(n), Up(n)];
    assert e2[..|e2| - 1] == events + [Down(n)] && (events + [Down(n)])[..|events|] == events;
    TableDependsOnDownOnly(base, self, events);
    assert Run(base, self, events).down + {n} - {n} == Run(base, self, events).down;
  }

  /** Losing neighbours never adds a destination or lowers a cost. */
  lemma LosingNeighboursNeverHelps(base: Graph, self: Id, few: set<Id>, many: set<Id>)
    requires few <= many
    ensures var t, t' := StaticTable(base, self, few), StaticTable(base, self, many);
            forall v :: v in t' ==> v in t && t[v].cost <= t'[v].cost
  {
    hide StaticTable, IsWalk;
    StaticTableIsOptimal(base, self, few);
    StaticTableIsOptimal(base, self, many);
    var t, t' := StaticTable(base, self, few), StaticTable(base, self, many);
    forall v | v in t' ensures v in t && t[v].cost <= t'[v].cost {
      assert CheapestAvoiding(base, many, self, v, t'[v].cost, t'[v].nextHop);
      var w :| AvoidingWalk(base, many, self, w, v) && |w| > 1 && w[1] == t'[v].nextHop && WalkCost(base, w) == t'[v].cost;
      assert AvoidingWalk(base, few, self, w, v);
      assert CheapestAvoiding(base, few, self, v, t[v].cost, t[v].nextHop);
    }
  }

  // --------------------------------------------------------- the algorithm

  /** The usable links that leave the nodes of `done`. */
  ghost function UsableFrom(base: Graph, down: set<Id>, done: set<Id>): set<Edge> {
    set u, v | u in done && u in base && v in base[u] && u !in down && v !in down :: Edge(u, v, base[u][v])
  }

  /** The usable links from `u` to the nodes of `vs`. */
  ghost function UsableTo(base: Graph, down: set<Id>, u: Id, vs: set<Id>): set<Edge>
    requires u in base
  {
    set v | v in vs && v in base[u] && u !in down && v !in down :: Edge(u, v, base[u][v])
  }

  lemma OneMoreLink(base: Graph, down: set<Id>, u: Id, vs: set<Id>, v: Id)
    requires u in base && v in base[u]
    ensures UsableTo(base, down, u, vs + {v}) ==
            UsableTo(base, down, u, vs) + if u in down || v in down then {} else {Edge(u, v, base[u][v])}
  {
  }

  lemma NoLinksYet(base: Graph, down: set<Id>, u: Id)
    requires u in base
    ensures UsableTo(base, down, u, {}) == {}
  {
  }

  lemma OneMoreNode(base: Graph, down: set<Id>, done: set<Id>, u: Id)
    requires u in base
    ensures UsableFrom(base, down, done + {u}) == UsableFrom(base, down, done) + UsableTo(base, down, u, base[u].Keys)
  {
  }

  class StaticRouter {
    const self: Id
    const base: Graph
    const tables: SafeTable
    var down: set<Id>

    ghost function Current(): State
      reads this, tables
    {
      State(down, tables.table)
    }

    constructor (self: Id, base: Graph)
      ensures this.self == self && this.base == base && down == {} && fresh(tables)
    {
      this.self, this.base, down := self, base, {};
      tables := new SafeTable();
    }

    /** Adds the usable links out of `u` to the graph being rebuilt. */
    method AddUsable(g: Adjacency, u: Id, ghost listed: seq<Edge>) returns (ghost more: seq<Edge>)
      requires u in base && g.links == GraphFrom(listed)
      modifies g
      ensures g.links == GraphFrom(more)
      ensures Elements(more) == Elements(listed) + UsableTo(base, down, u, base[u].Keys)
    {
      hide WithEdge, UsableTo, Elements;
      more := listed;
      var left := base[u].Keys;
      NoLinksYet(base, down, u);
      assert base[u].Keys - left == {};
      while left != {}
        invariant left <= base[u].Keys
        invariant g.links == GraphFrom(more)
        invariant Elements(more) == Elements(listed) + UsableTo(base, down, u, base[u].Keys - left)
      {
        var v :| v in left;
        ghost var done := base[u].Keys - left;
        OneMoreLink(base, down, u, done, v);
        left := left - {v};
        assert base[u].Keys - left == done + {v};
        if !(u in down || v in down) {
          g.AddEdge(u, v, base[u][v]);
          ElementsAppend(more, Edge(u, v, base[u][v]));
          assert (more + [Edge(u, v, base[u][v])])[..|more|] == more;
          more := more + [Edge(u, v, base[u][v])];
        }
      }
      assert base[u].Keys - {} == base[u].Keys;
    }

    method Recompute()
      modifies tables
      ensures tables.table == StaticTable(base, self, down)
    {
      var g := new Adjacency();
      ghost var listed: seq<Edge> := [];
      var left := base.Keys;
      while left != {}
        invariant left <= base.Keys && fresh(g)
        invariant g.links == GraphFrom(listed)
        invariant Elements(listed) == UsableFrom(base, down, base.Keys - left)
      {
        var u :| u in left;
        OneMoreNode(base, down, base.Keys - left, u);
        listed := AddUsable(g, u, listed);
        left := left - {u};
        assert base.Keys - left == base.Keys - (left + {u}) + {u};
      }
      assert UsableFrom(base, down, base.Keys - {}) == UsableEdges(base, down);
      AnyListingBuilds(listed);
      var table := Dijkstra(g.links, self);
      tables.Replace(table);
    }

    /** `Start`. */
    method Start()
      modifies tables
      ensures Current() == State(old(down), StaticTable(base, self, old(down)))
    {
      Recompute();
    }

    method OnLinkUp(neighbor: Id)
      modifies this`down, tables
      ensures Current() == Handle(base, self, old(Current()), Up(neighbor))
    {
      var changed := neighbor in down;
      down := down - {neighbor};
      if changed { Recompute(); } else { assert down == old(down); }
    }

    method OnLinkDown(neighbor: Id)
      modifies this`down, tables
      ensures Current() == Handle(base, self, old(Current()), Down(neighbor))
    {
      var changed := neighbor !in down;
      down := down + {neighbor};
      if changed { Recompute(); } else { assert down == old(down); }
    }

    /** The configured links still usable, in whatever order the maps are
        iterated. */
    method Topology() returns (edges: seq<Edge>)
      ensures Elements(edges) == UsableEdges(base, down)
    {
      edges := [];
      var left := base.Keys;
      while left != {}
        invariant left <= base.Keys
        invariant Elements(edges) == UsableFrom(base, down, base.Keys - left)
      {
        var u :| u in left;
        OneMoreNode(base, down, base.Keys - left, u);
        edges := ListUsable(u, edges);
        left := left - {u};
        assert base.Keys - left == base.Keys - (left + {u}) + {u};
      }
      assert UsableFrom(base, down, base.Keys - {}) == UsableEdges(base, down);
    }

    method ListUsable(u: Id, listed: seq<Edge>) returns (edges: seq<Edge>)
      requires u in base
      ensures Elements(edges) == Elements(listed) + UsableTo(base, down, u, base[u].Keys)
    {
      hide UsableTo, Elements;
      edges := listed;
      NoLinksYet(base, down, u);
      var left := base[u].Keys;
      assert base[u].Keys - left == {};
      while left != {}
        invariant left <= base[u].Keys
        invariant Elements(edges) == Elements(listed) + UsableTo(base, down, u, base[u].Keys - left)
      {
        var v :| v in left;
        ghost var done := base[u].Keys - left;
        OneMoreLink(base, down, u, done, v);
        left := left - {v};
        assert base[u].Keys - left == done + {v};
        if !(u in down || v in down) {
          ElementsAppend(edges, Edge(u, v, base[u][v]));
          edges := edges + [Edge(u, v, base[u][v])];
        }
      }
      assert base[u].Keys - {} == base[u].Keys;
    }
  }
}
