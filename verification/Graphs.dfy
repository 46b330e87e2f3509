/** Weighted directed graphs, how `AddEdge` builds them, and walks through them. */
module Graphs {
  import opened Ordering

  type Links = map<Id, real>
  type Graph = map<Id, Links>

  datatype Edge = Edge(from: Id, to: Id, cost: real)

  /** The effect of `AddEdge`: both ends become nodes, and the lower cost wins. */
  function WithEdge(g: Graph, e: Edge): Graph {
    var g1 := if e.from in g then g else g[e.from := map[]];
    var g2 := if e.to in g1 then g1 else g1[e.to := map[]];
    if e.to !in g2[e.from] || e.cost < g2[e.from][e.to]
    then g2[e.from := g2[e.from][e.to := e.cost]]
    else g2
  }

  function GraphFrom(edges: seq<Edge>): Graph {
    if edges == [] then map[] else WithEdge(GraphFrom(edges[..|edges| - 1]), edges[|edges| - 1])
  }

  predicate HasLink(g: Graph, u: Id, v: Id) {
    u in g && v in g[u]
  }

  ghost predicate Touches(edges: set<Edge>, u: Id) {
    exists e :: e in edges && (e.from == u || e.to == u)
  }

  /** `g` has exactly the ends of `edges` as nodes, links exactly the declared
      pairs, and charges each pair the least cost declared for it. */
  ghost predicate Describes(g: Graph, edges: set<Edge>) {
    && (forall u {:trigger Touches(edges, u)} :: Touches(edges, u) <==> u in g)
    && (forall u, v {:trigger HasLink(g, u, v)} :: HasLink(g, u, v) ==> Edge(u, v, g[u][v]) in edges)
    && (forall e :: e in edges ==> HasLink(g, e.from, e.to) && g[e.from][e.to] <= e.cost)
  }

  lemma WithEdgeLinks(g: Graph, e: Edge)
    ensures WithEdge(g, e).Keys == g.Keys + {e.from, e.to}
    ensures HasLink(WithEdge(g, e), e.from, e.to)
    ensures var kept := HasLink(g, e.from, e.to) && g[e.from][e.to] <= e.cost;
            WithEdge(g, e)[e.from][e.to] == if kept then g[e.from][e.to] else e.cost
    ensures forall u, v :: u != e.from || v != e.to ==>
              && HasLink(WithEdge(g, e), u, v) == HasLink(g, u, v)
              && (HasLink(g, u, v) ==> WithEdge(g, e)[u][v] == g[u][v])
  {
  }

  lemma TouchesOneMore(edges: set<Edge>, e: Edge, u: Id)
    ensures Touches(edges + {e}, u) <==> Touches(edges, u) || u == e.from || u == e.to
  {
    assert e in edges + {e};
    if Touches(edges, u) {
      var x :| x in edges && (x.from == u || x.to == u);
      assert x in edges + {e};
    }
  }

  lemma WithEdgeDescribes(g: Graph, edges: set<Edge>, e: Edge)
    requires Describes(g, edges)
    ensures Describes(WithEdge(g, e), edges + {e})
  {
    WithEdgeLinks(g, e);
    var r := WithEdge(g, e);
    forall u, v | HasLink(r, u, v) ensures Edge(u, v, r[u][v]) in edges + {e} {
      if HasLink(g, u, v) { assert Edge(u, v, g[u][v]) in edges; }
    }
    forall u ensures Touches(edges + {e}, u) <==> u in r { TouchesOneMore(edges, e, u); }
    forall x | x in edges + {e} ensures HasLink(r, x.from, x.to) && r[x.from][x.to] <= x.cost {
      if x in edges { assert HasLink(g, x.from, x.to); }
    }
  }

  lemma EmptyDescribes()
    ensures Describes(map[], {})
  {
  }

  lemma {:induction false} GraphFromDescribes(edges: seq<Edge>)
    ensures Describes(GraphFrom(edges), Elements(edges))
  {
    if edges == [] {
      EmptyDescribes();
      assert Elements(edges) == {};
    } else {
      var init, last := edges[..|edges| - 1], edges[|edges| - 1];
      GraphFromDescribes(init);
      WithEdgeDescribes(GraphFrom(init), Elements(init), last);
      assert Elements(edges) == Elements(init) + {last} by { assert edges == init + [last]; }
    }
  }

  /** Only which edges were declared matters: any two listings of the same
      edges, in any order and with any repetition, build the same graph. */
  lemma EdgeOrderIrrelevant(a: seq<Edge>, b: seq<Edge>)
    requires Elements(a) == Elements(b)
    ensures GraphFrom(a) == GraphFrom(b)
  {
    GraphFromDescribes(a);
    GraphFromDescribes(b);
    DescriptionUnique(GraphFrom(a), GraphFrom(b), Elements(a));
  }

  /** Some listing of a finite set, standing for Go's arbitrary map order. */
  ghost function Listing<T(!new)>(s: set<T>): (r: seq<T>)
    ensures Elements(r) == s
    decreases |s|
  {
    if s == {} then [] else
      var x :| x in s;
      var r := [x] + Listing(s - {x});
      ElementsOfTail(r);
      r
  }

  /** The graph that any listing of `edges` builds. */
  ghost function GraphOf(edges: set<Edge>): Graph {
    GraphFrom(Listing(edges))
  }

  lemma GraphOfDescribes(edges: set<Edge>)
    ensures Describes(GraphOf(edges), edges)
  {
    GraphFromDescribes(Listing(edges));
  }

  lemma AnyListingBuilds(edges: seq<Edge>)
    ensures GraphFrom(edges) == GraphOf(Elements(edges))
  {
    EdgeOrderIrrelevant(edges, Listing(Elements(edges)));
  }

  lemma DescriptionUnique(g: Graph, h: Graph, edges: set<Edge>)
    requires Describes(g, edges) && Describes(h, edges)
    ensures g == h
  {
    forall u ensures u in g <==> u in h { assert Touches(edges, u) <==> u in g; }
    forall u | u in g ensures g[u] == h[u] {
      LinksUnique(g, h, edges, u);
      LinksUnique(h, g, edges, u);
    }
  }

  lemma LinksUnique(g: Graph, h: Graph, edges: set<Edge>, u: Id)
    requires Describes(g, edges) && Describes(h, edges) && u in g && u in h
    ensures forall v :: v in g[u] ==> v in h[u] && h[u][v] <= g[u][v]
  {
    forall v | v in g[u] ensures v in h[u] && h[u][v] <= g[u][v] {
      assert HasLink(g, u, v);
      var e := Edge(u, v, g[u][v]);
      assert e in edges;
      assert HasLink(h, e.from, e.to);
    }
  }

  /** The edges out of every node, given its links. */
  ghost function EdgesFrom(out: map<Id, Links>): set<Edge> {
    set u, v | u in out && v in out[u] :: Edge(u, v, out[u][v])
  }

  /** The graph in which every node has the links `out` gives it. */
  ghost function LinkGraph(out: map<Id, Links>): Graph {
    GraphOf(EdgesFrom(out))
  }

  lemma LinkGraphLinks(out: map<Id, Links>, u: Id, v: Id)
    ensures var g := LinkGraph(out);
      && (HasLink(g, u, v) <==> u in out && v in out[u])
      && (HasLink(g, u, v) ==> v in g && g[u][v] == out[u][v])
  {
    var edges := EdgesFrom(out);
    GraphOfDescribes(edges);
    assert Touches(edges, v) <==> v in LinkGraph(out);
    if u in out && v in out[u] {
      var e := Edge(u, v, out[u][v]);
      assert e in edges && HasLink(LinkGraph(out), e.from, e.to);
    }
  }

  /** A node with a link, all of whose links lead to nodes. */
  ghost predicate Linked(out: map<Id, Links>, u: Id) {
    u in out ==> out[u] != map[] && out[u].Keys <= out.Keys
  }

  lemma LinkGraphNode(out: map<Id, Links>, u: Id)
    requires forall x :: Linked(out, x)
    ensures u in LinkGraph(out) <==> u in out
  {
    var edges, g := EdgesFrom(out), LinkGraph(out);
    GraphOfDescribes(edges);
    assert Touches(edges, u) <==> u in g;
    if u in g {
      var e :| e in edges && (e.from == u || e.to == u);
      assert Linked(out, e.from);
    }
    if u in out {
      assert Linked(out, u);
      var v :| v in out[u];
      LinkGraphLinks(out, u, v);
    }
  }

  /** Its nodes, if every node has a link and every link leads to a node. */
  lemma LinkGraphNodes(out: map<Id, Links>)
    requires forall u :: Linked(out, u)
    ensures LinkGraph(out).Keys == out.Keys
  {
    hide LinkGraph, Linked;
    forall u ensures u in LinkGraph(out) <==> u in out { LinkGraphNode(out, u); }
  }

  /** The `Graph` map, changed in place by `AddEdge`. */
  class Adjacency {
    var links: Graph

    constructor ()
      ensures links == map[]
    {
      links := map[];
    }

    method AddEdge(from: Id, to: Id, cost: real)
      modifies this
      ensures links == WithEdge(old(links), Edge(from, to, cost))
    {
      if from !in links { links := links[from := map[]]; }
      if to !in links { links := links[to := map[]]; }
      if to !in links[from] || cost < links[from][to] {
        links := links[from := links[from][to := cost]];
      }
    }
  }

  // ---------------------------------------------------------------- walks

  /** A link the search may use: `Dijkstra` skips negative costs. */
  predicate Usable(g: Graph, u: Id, v: Id) {
    u in g && v in g[u] && g[u][v] >= 0.0
  }

  ghost predicate IsWalk(g: Graph, w: seq<Id>) {
    w != [] && (|w| > 1 ==> IsWalk(g, w[..|w| - 1]) && Usable(g, w[|w| - 2], w[|w| - 1]))
  }

  ghost predicate WalkBetween(g: Graph, s: Id, w: seq<Id>, v: Id) {
    IsWalk(g, w) && w[0] == s && w[|w| - 1] == v
  }

  /** The sum of the link costs along a walk, from its last link backwards. */
  ghost function WalkCost(g: Graph, w: seq<Id>): real
    requires IsWalk(g, w)
  {
    if |w| == 1 then 0.0
    else WalkCost(g, w[..|w| - 1]) + g[w[|w| - 2]][w[|w| - 1]]
  }

  ghost predicate Reaches(g: Graph, s: Id, v: Id) {
    exists w :: WalkBetween(g, s, w, v)
  }

  /** `d` is the least cost of a walk from `s` to `v`. */
  ghost predicate LeastCost(g: Graph, s: Id, v: Id, d: real) {
    && (exists w :: WalkBetween(g, s, w, v) && WalkCost(g, w) == d)
    && (forall w :: WalkBetween(g, s, w, v) ==> d <= WalkCost(g, w))
  }

  lemma ExtendWalk(g: Graph, s: Id, w: seq<Id>, u: Id, v: Id)
    requires WalkBetween(g, s, w, u) && Usable(g, u, v)
    ensures WalkBetween(g, s, w + [v], v)
    ensures WalkCost(g, w + [v]) == WalkCost(g, w) + g[u][v]
  {
    assert (w + [v])[..|w|] == w;
  }

  lemma {:induction false} PrependWalk(g: Graph, u: Id, w: seq<Id>)
    requires IsWalk(g, w) && Usable(g, u, w[0])
    ensures IsWalk(g, [u] + w)
    ensures WalkCost(g, [u] + w) == g[u][w[0]] + WalkCost(g, w)
    decreases |w|
  {
    var x := [u] + w;
    if |w| == 1 {
      assert x[..1] == [u];
    } else {
      PrependWalk(g, u, w[..|w| - 1]);
      assert x[..|x| - 1] == [u] + w[..|w| - 1];
    }
  }

  lemma {:induction false} TailIsWalk(g: Graph, w: seq<Id>)
    requires IsWalk(g, w) && |w| > 1
    ensures Usable(g, w[0], w[1]) && IsWalk(g, w[1..])
    decreases |w|
  {
    if |w| > 2 {
      TailIsWalk(g, w[..|w| - 1]);
      assert w[1..][..|w| - 2] == w[..|w| - 1][1..];
    }
  }

  /** A walk of two or more nodes is its first link followed by a walk. */
  lemma SplitFirst(g: Graph, s: Id, w: seq<Id>, v: Id)
    requires WalkBetween(g, s, w, v) && |w| > 1
    ensures Usable(g, s, w[1]) && WalkBetween(g, w[1], w[1..], v)
    ensures WalkCost(g, w) == g[s][w[1]] + WalkCost(g, w[1..])
  {
    TailIsWalk(g, w);
    PrependWalk(g, s, w[1..]);
    assert [s] + w[1..] == w;
  }

  lemma {:induction false} WalkCostNonNegative(g: Graph, w: seq<Id>)
    requires IsWalk(g, w)
    ensures WalkCost(g, w) >= 0.0
    decreases |w|
  {
    if |w| > 1 {
      WalkCostNonNegative(g, w[..|w| - 1]);
    }
  }
}
