/** Links that only one of their two ends declares: what the check reports, and
    what an empty report is good for. */
module Symmetry {
  import opened Ordering
  import opened Graphs
  import opened ShortestPaths
  import opened Exactness

  datatype Asymmetry = Asymmetry(declared: Id, missing: Id, cost: real)

  type Pair = (Id, Id)

  predicate PairLess(a: Pair, b: Pair) {
    Less(a.0, b.0) || (a.0 == b.0 && Less(a.1, b.1))
  }

  lemma PairLessIsStrictOrder()
    ensures StrictOrder(PairLess)
  {
    LessIsStrictOrder();
  }

  /** What each node declares: self-links are skipped, a later cost for the same
      link overwrites an earlier one. */
  function Declarations(edges: seq<Edge>): Graph {
    if edges == [] then map[]
    else WithDeclaration(Declarations(edges[..|edges| - 1]), edges[|edges| - 1])
  }

  function WithDeclaration(d: Graph, e: Edge): Graph {
    if e.from == e.to then d
    else d[e.from := (if e.from in d then d[e.from] else map[])[e.to := e.cost]]
  }

  /** A declared link whose other end has announced something, but not this. */
  predicate OneSided(d: Graph, from: Id, to: Id) {
    HasLink(d, from, to) && to in d && from !in d[to]
  }

  ghost function Found(d: Graph): set<Pair> {
    set u, v | u in d && v in d[u] && OneSided(d, u, v) :: (u, v)
  }

  function Labelled(d: Graph, pairs: seq<Pair>): (r: seq<Asymmetry>)
    requires forall i :: 0 <= i < |pairs| ==> HasLink(d, pairs[i].0, pairs[i].1)
    ensures |r| == |pairs|
    ensures forall i :: 0 <= i < |r| ==>
      HasLink(d, pairs[i].0, pairs[i].1) && r[i] == Asymmetry(pairs[i].0, pairs[i].1, d[pairs[i].0][pairs[i].1])
  {
    if pairs == [] then []
    else
      var p := pairs[0];
      assert HasLink(d, p.0, p.1);
      [Asymmetry(p.0, p.1, d[p.0][p.1])] + Labelled(d, pairs[1..])
  }

  ghost function SortedPairs(d: Graph): (pairs: seq<Pair>)
    ensures Elements(pairs) == Found(d)
    ensures forall i :: 0 <= i < |pairs| ==> HasLink(d, pairs[i].0, pairs[i].1)
  {
    PairLessIsStrictOrder();
    var pairs := Sorted(PairLess, Found(d));
    assert forall i :: 0 <= i < |pairs| ==> pairs[i] in Elements(pairs);
    pairs
  }

  ghost function AsymmetriesOf(edges: seq<Edge>): seq<Asymmetry> {
    Labelled(Declarations(edges), SortedPairs(Declarations(edges)))
  }

  method Asymmetries(edges: seq<Edge>) returns (r: seq<Asymmetry>)
    ensures r == AsymmetriesOf(edges)
  {
    var declares: Graph := map[];
    var i := 0;
    while i < |edges|
      invariant 0 <= i <= |edges| && declares == Declarations(edges[..i])
    {
      var e := edges[i];
      assert edges[..i + 1][..i] == edges[..i];
      if e.from != e.to {
        if e.from !in declares { declares := declares[e.from := map[]]; }
        declares := declares[e.from := declares[e.from][e.to := e.cost]];
      }
      i := i + 1;
    }
    assert edges[..i] == edges;
    var found := FindOneSided(declares);
    PairLessIsStrictOrder();
    var pairs := Sort(PairLess, found);
    assert pairs == SortedPairs(declares);
    r := Labelled(declares, pairs);
  }

  method FindOneSided(declares: Graph) returns (found: set<Pair>)
    ensures found == Found(declares)
  {
    found := {};
    var froms := declares.Keys;
    while froms != {}
      invariant froms <= declares.Keys
      invariant forall p :: p in found <==> p in Found(declares) && p.0 !in froms
    {
      var from :| from in froms;
      var tos := declares[from].Keys;
      while tos != {}
        invariant tos <= declares[from].Keys
        invariant forall p :: p in found <==>
          p in Found(declares) && (p.0 !in froms || (p.0 == from && p.1 !in tos))
      {
        var to :| to in tos;
        tos := tos - {to};
        if to in declares && from !in declares[to] { found := found + {(from, to)}; }
      }
      froms := froms - {from};
    }
  }

  // ------------------------------------------------------------ exactness

  /** Some edge declares the link from `u` to another node `v`. */
  ghost predicate Links(edges: seq<Edge>, u: Id, v: Id) {
    u != v && exists i :: 0 <= i < |edges| && edges[i].from == u && edges[i].to == v
  }

  /** The cost of the last edge that declares it. */
  ghost predicate LastCost(edges: seq<Edge>, u: Id, v: Id, cost: real) {
    exists i :: 0 <= i < |edges| && edges[i] == Edge(u, v, cost)
      && forall j :: i < j < |edges| ==> edges[j].from != u || edges[j].to != v
  }

  ghost predicate Announced(edges: seq<Edge>, u: Id) {
    exists v :: Links(edges, u, v)
  }

  lemma LinksOneMore(edges: seq<Edge>, e: Edge, u: Id, v: Id)
    ensures Links(edges + [e], u, v) <==> Links(edges, u, v) || (u != v && e.from == u && e.to == v)
  {
    var all := edges + [e];
    assert all[|edges|] == e;
    if Links(edges, u, v) {
      var i :| 0 <= i < |edges| && edges[i].from == u && edges[i].to == v;
      assert all[i] == edges[i];
    }
  }

  lemma LastCostOneMore(edges: seq<Edge>, e: Edge, u: Id, v: Id, cost: real)
    ensures if e.from == u && e.to == v then LastCost(edges + [e], u, v, e.cost)
            else LastCost(edges, u, v, cost) ==> LastCost(edges + [e], u, v, cost)
  {
    var all := edges + [e];
    assert all[|edges|] == e;
    if LastCost(edges, u, v, cost) {
      var i :| 0 <= i < |edges| && edges[i] == Edge(u, v, cost)
        && forall j :: i < j < |edges| ==> edges[j].from != u || edges[j].to != v;
      assert all[i] == edges[i];
    }
  }

  lemma {:induction false} DeclarationsAre(edges: seq<Edge>, u: Id, v: Id)
    ensures var d := Declarations(edges);
      && (HasLink(d, u, v) <==> Links(edges, u, v))
      && (HasLink(d, u, v) ==> LastCost(edges, u, v, d[u][v]))
      && (u in d ==> d[u] != map[])
  {
    if edges != [] {
      var init, e := edges[..|edges| - 1], edges[|edges| - 1];
      DeclarationsAre(init, u, v);
      LinksOneMore(init, e, u, v);
      var d := Declarations(init);
      LastCostOneMore(init, e, u, v, if HasLink(d, u, v) then d[u][v] else 0.0);
      assert edges == init + [e];
      if e.from == u != e.to { assert e.to in Declarations(edges)[u]; }
    }
  }

  lemma AnnouncedIsDeclared(edges: seq<Edge>, u: Id)
    ensures u in Declarations(edges) <==> Announced(edges, u)
  {
    var d := Declarations(edges);
    if u in d {
      DeclarationsAre(edges, u, u);
      var v :| v in d[u];
      DeclarationsAre(edges, u, v);
    }
    if v :| Links(edges, u, v) { DeclarationsAre(edges, u, v); }
  }

  /** What a finding is: a link one end declares, at the cost it declared last,
      and that the other end, which has declared links, does not. */
  ghost predicate IsFinding(edges: seq<Edge>, a: Asymmetry) {
    && Links(edges, a.declared, a.missing) && LastCost(edges, a.declared, a.missing, a.cost)
    && Announced(edges, a.missing) && !Links(edges, a.missing, a.declared)
  }

  predicate ListedBefore(a: Asymmetry, b: Asymmetry) {
    PairLess((a.declared, a.missing), (b.declared, b.missing))
  }

  lemma FindingIffListed(edges: seq<Edge>, u: Id, v: Id)
    ensures var d := Declarations(edges);
      (u, v) in Found(d) <==> HasLink(d, u, v) && IsFinding(edges, Asymmetry(u, v, d[u][v]))
  {
    DeclarationsAre(edges, u, v);
    DeclarationsAre(edges, v, u);
    AnnouncedIsDeclared(edges, v);
  }

  lemma LastCostUnique(edges: seq<Edge>, u: Id, v: Id, c: real, d: real)
    requires LastCost(edges, u, v, c) && LastCost(edges, u, v, d)
    ensures c == d
  {
  }

  /** The order of the report is that of a dictionary, by declaring and then by missing
      node. */
  lemma ListedByName(a: Asymmetry, b: Asymmetry)
    ensures ListedBefore(a, b) <==>
      NameBefore(a.declared, b.declared) || (a.declared == b.declared && NameBefore(a.missing, b.missing))
  {
    LessIsNameOrder(a.declared, b.declared);
    LessIsNameOrder(a.missing, b.missing);
  }

  /** The report is sorted by declaring and then by missing node, names no link
      twice, and holds exactly the findings. */
  lemma AsymmetriesAreExact(edges: seq<Edge>)
    ensures var r := AsymmetriesOf(edges);
      && (forall i, j :: 0 <= i < j < |r| ==> ListedBefore(r[i], r[j]))
      && (forall a :: a in r <==> IsFinding(edges, a))
  {
    PairLessIsStrictOrder();
    var d, r := Declarations(edges), AsymmetriesOf(edges);
    var pairs := SortedPairs(d);
    forall a ensures a in r <==> IsFinding(edges, a) {
      var p := (a.declared, a.missing);
      FindingIffListed(edges, p.0, p.1);
      DeclarationsAre(edges, p.0, p.1);
      assert p in pairs <==> p in Elements(pairs);
      if a in r {
        var i :| 0 <= i < |r| && r[i] == a;
        assert pairs[i] == p;
      }
      if IsFinding(edges, a) {
        LastCostUnique(edges, p.0, p.1, a.cost, d[p.0][p.1]);
        var i :| 0 <= i < |pairs| && pairs[i] == p;
        assert r[i] == a;
      }
    }
  }

  /** Every listing of the same links, each declared at one cost, gives the same
      report: the order in which maps are iterated leaves no trace. */
  lemma ReportIsReproducible(a: seq<Edge>, b: seq<Edge>)
    requires Elements(a) == Elements(b)
    requires forall x, y :: x in a && y in a && x.from == y.from && x.to == y.to ==> x.cost == y.cost
    ensures AsymmetriesOf(a) == AsymmetriesOf(b)
  {
    hide Declarations, Links;
    var da, db := Declarations(a), Declarations(b);
    forall e ensures e in a <==> e in b { assert e in Elements(a) <==> e in Elements(b); }
    forall u, v {:trigger HasLink(da, u, v)}
      ensures (HasLink(da, u, v) <==> HasLink(db, u, v)) && (HasLink(da, u, v) ==> da[u][v] == db[u][v])
    {
      SameLinks(a, b, u, v);
    }
    forall u ensures u in da <==> u in db {
      AnnouncedIsDeclared(a, u);
      AnnouncedIsDeclared(b, u);
      forall w ensures Links(a, u, w) <==> Links(b, u, w) { SameLinks(a, b, u, w); }
    }
    SameGraphs(da, db);
  }

  lemma SameLinks(a: seq<Edge>, b: seq<Edge>, u: Id, v: Id)
    requires forall e :: e in a <==> e in b
    requires forall x, y :: x in a && y in a && x.from == y.from && x.to == y.to ==> x.cost == y.cost
    ensures Links(a, u, v) <==> Links(b, u, v)
    ensures var da, db := Declarations(a), Declarations(b);
      && (HasLink(da, u, v) <==> HasLink(db, u, v))
      && (HasLink(da, u, v) ==> da[u][v] == db[u][v])
  {
    DeclarationsAre(a, u, v);
    DeclarationsAre(b, u, v);
    if Links(a, u, v) {
      var i :| 0 <= i < |a| && a[i].from == u && a[i].to == v;
      assert a[i] in b;
    }
    if Links(b, u, v) {
      var i :| 0 <= i < |b| && b[i].from == u && b[i].to == v;
      assert b[i] in a;
    }
    if Links(a, u, v) {
      assert Edge(u, v, Declarations(a)[u][v]) in a;
      assert Edge(u, v, Declarations(b)[u][v]) in b;
    }
  }

  lemma SameGraphs(g: Graph, h: Graph)
    requires forall u, v {:trigger HasLink(g, u, v)} ::
      (HasLink(g, u, v) <==> HasLink(h, u, v)) && (HasLink(g, u, v) ==> g[u][v] == h[u][v])
    requires forall u :: u in g <==> u in h
    ensures g == h
  {
    forall u | u in g ensures g[u] == h[u] {
      forall v ensures v in g[u] <==> v in h[u] { assert HasLink(g, u, v) <==> HasLink(h, u, v); }
      forall v | v in g[u] ensures g[u][v] == h[u][v] { assert HasLink(g, u, v); }
    }
  }

  // ------------------------------------------------- what it is good for

  /** Both ends of an edge have declared a link, and its cost is a cost. */
  ghost predicate Settled(edges: seq<Edge>, e: Edge) {
    e in edges ==> Announced(edges, e.from) && Announced(edges, e.to) && e.cost >= 0.0
  }

  /** Every node some edge mentions has declared a link, and costs are costs. */
  ghost predicate Complete(edges: seq<Edge>) {
    forall e :: Settled(edges, e)
  }

  lemma MutualLinks(edges: seq<Edge>, u: Id, v: Id)
    requires Complete(edges) && AsymmetriesOf(edges) == []
    requires Usable(GraphFrom(edges), u, v)
    ensures Usable(GraphFrom(edges), v, u)
  {
    var g := GraphFrom(edges);
    GraphFromDescribes(edges);
    assert HasLink(g, u, v);
    var e := Edge(u, v, g[u][v]);
    assert e in Elements(edges) && Settled(edges, e);
    if u != v {
      DeclarationsAre(edges, u, v);
      var cost := Declarations(edges)[u][v];
      AsymmetriesAreExact(edges);
      assert Asymmetry(u, v, cost) !in AsymmetriesOf(edges);
      assert Links(edges, v, u);
      var i :| 0 <= i < |edges| && edges[i].from == v && edges[i].to == u;
      assert edges[i] in Elements(edges);
      assert HasLink(g, v, u);
      assert Edge(v, u, g[v][u]) in Elements(edges) && Settled(edges, Edge(v, u, g[v][u]));
    }
  }

  lemma {:induction false} WalksReverse(edges: seq<Edge>, s: Id, w: seq<Id>, v: Id)
    requires Complete(edges) && AsymmetriesOf(edges) == []
    requires WalkBetween(GraphFrom(edges), s, w, v)
    ensures Reaches(GraphFrom(edges), v, s)
    decreases |w|
  {
    hide GraphFrom, Complete, AsymmetriesOf;
    var g := GraphFrom(edges);
    if |w| == 1 {
      assert WalkBetween(g, v, [v], s);
    } else {
      var u := w[|w| - 2];
      assert WalkBetween(g, s, w[..|w| - 1], u);
      WalksReverse(edges, s, w[..|w| - 1], u);
      MutualLinks(edges, u, v);
      var back :| WalkBetween(g, u, back, s);
      PrependWalk(g, v, back);
      assert WalkBetween(g, v, [v] + back, s);
    }
  }

  /** What an empty report is good for: once every node mentioned has announced,
      either both of two nodes route to each other or neither does. */
  lemma SilenceMeansMutualRoutes(edges: seq<Edge>, u: Id, v: Id)
    requires Complete(edges) && AsymmetriesOf(edges) == []
    ensures v in DijkstraTable(GraphFrom(edges), u) <==> u in DijkstraTable(GraphFrom(edges), v)
  {
    var g := GraphFrom(edges);
    DijkstraIsExact(g, u);
    DijkstraIsExact(g, v);
    if w :| WalkBetween(g, u, w, v) { WalksReverse(edges, u, w, v); }
    if w :| WalkBetween(g, v, w, u) { WalksReverse(edges, v, w, u); }
  }
}
