/** Three nodes, the smallest network in which a message can go round in a circle:
    exactly when it does. */
module Triangles {
  import opened Ordering
  import opened Graphs
  import opened ShortestPaths
  import opened Exactness
  import opened Ties
  import opened HopByHop
  import opened Drift
  import MessagePlane

  datatype Costs = Costs(near: real, far: real)

  /** The links of `a` and of `b`, each to the other and to `d`; and those of `d`. */
  function Triangle(a: Id, b: Id, d: Id, ofA: Costs, ofB: Costs, ofD: Costs): LinkMap {
    map[a := TwoLinks(b, d, ofA), b := TwoLinks(a, d, ofB), d := TwoLinks(a, b, ofD)]
  }

  function TwoLinks(near: Id, far: Id, c: Costs): Links {
    map[near := c.near, far := c.far]
  }

  predicate Real(c: Costs) {
    c.near > 0.0 && c.far > 0.0
  }

  // ------------------------------------------------------- one node's view

  /** No walk costs less than what a measure loses along it, if no link does. */
  lemma {:induction false} MeasureBoundsWalks(g: Graph, measure: Id -> real, w: seq<Id>)
    requires IsWalk(g, w)
    requires forall x, y {:trigger Usable(g, x, y)} :: Usable(g, x, y) ==> measure(x) - measure(y) <= g[x][y]
    ensures measure(w[0]) - measure(w[|w| - 1]) <= WalkCost(g, w)
    decreases |w|
  {
    if |w| > 1 {
      MeasureBoundsWalks(g, measure, w[..|w| - 1]);
      assert Usable(g, w[|w| - 2], w[|w| - 1]);
    }
  }

  /** When a detour over `h` beats every other way to leave `s`, it is taken. */
  lemma DetourIsTaken(g: Graph, s: Id, h: Id, d: Id)
    requires s != d && h != d && Usable(g, s, h) && Usable(g, h, d)
    requires forall x :: Usable(g, s, x) && x != h ==> g[s][x] > g[s][h] + g[h][d]
    ensures d in DijkstraTable(g, s) && DijkstraTable(g, s)[d].nextHop == h
  {
    hide DijkstraTable;
    DijkstraIsExact(g, s);
    var detour := [s, h, d];
    assert WalkBetween(g, s, [s], s) && WalkCost(g, [s]) == 0.0;
    ExtendWalk(g, s, [s], s, h);
    ExtendWalk(g, s, [s, h], h, d);
    assert [s] + [h] == [s, h] && [s, h] + [d] == detour;
    assert WalkBetween(g, s, detour, d);
    var r := DijkstraTable(g, s)[d];
    assert r.cost <= WalkCost(g, detour) == g[s][h] + g[h][d];
    var w :| WalkBetween(g, s, w, d) && |w| > 1 && w[1] == r.nextHop && WalkCost(g, w) == r.cost;
    SplitFirst(g, s, w, d);
    WalkCostNonNegative(g, w[1..]);
  }

  /** When a measure shows the direct link to be a cheapest way, it is taken. */
  lemma DirectIsTaken(g: Graph, s: Id, d: Id, measure: Id -> real)
    requires s != d && Usable(g, s, d) && measure(s) == g[s][d] && measure(d) == 0.0
    requires forall x, y {:trigger Usable(g, x, y)} :: Usable(g, x, y) ==> measure(x) - measure(y) <= g[x][y]
    ensures d in DijkstraTable(g, s) && DijkstraTable(g, s)[d].nextHop == d
  {
    hide DijkstraTable;
    DirectLinkWinsTies(g, s, d);
    DijkstraIsExact(g, s);
    var w :| WalkBetween(g, s, w, d) && WalkCost(g, w) == DijkstraTable(g, s)[d].cost;
    MeasureBoundsWalks(g, measure, w);
  }

  lemma TriangleIsCosted(a: Id, b: Id, d: Id, ofA: Costs, ofB: Costs, ofD: Costs)
    requires a != b && a != d && b != d && Real(ofA) && Real(ofB) && Real(ofD)
    ensures Costed(Triangle(a, b, d, ofA, ofB, ofD))
  {
    var out := Triangle(a, b, d, ofA, ofB, ofD);
    forall u ensures Linked(out, u) && Priced(out, u) {
      if u in out { assert (if u == a then b else a) in out[u]; }
    }
  }

  /** Where `a` sends what is for `d`: over `b` if that is cheaper, else directly,
      also if it costs the same. */
  lemma TriangleHop(a: Id, b: Id, d: Id, ofA: Costs, ofB: Costs, ofD: Costs)
    requires a != b && a != d && b != d && Real(ofA) && Real(ofB) && Real(ofD)
    ensures var t := DijkstraTable(LinkGraph(Triangle(a, b, d, ofA, ofB, ofD)), a);
      d in t && t[d].nextHop == if ofA.near + ofB.far < ofA.far then b else d
  {
    hide DijkstraTable, LinkGraph;
    var out := Triangle(a, b, d, ofA, ofB, ofD);
    var g := LinkGraph(out);
    TriangleIsCosted(a, b, d, ofA, ofB, ofD);
    CostedLinksAre(out);
    hide Costed;
    if ofA.near + ofB.far < ofA.far {
      DetourIsTaken(g, a, b, d);
    } else {
      var fromB := if ofB.far < ofB.near + ofA.far then ofB.far else ofB.near + ofA.far;
      var measure := x => if x == a then ofA.far else if x == b then fromB else 0.0;
      DirectIsTaken(g, a, d, measure);
    }
  }

  // ------------------------------------------------------------ the outcome

  lemma TriangleViews(a: Id, b: Id, d: Id, saidA: Costs, saidB: Costs, ofD: Costs, ownA: Costs, ownB: Costs)
    requires a != b && a != d && b != d
    ensures var said, own := Triangle(a, b, d, saidA, saidB, ofD), Triangle(a, b, d, ownA, ownB, ofD);
      && said[a := own[a]] == Triangle(a, b, d, ownA, saidB, ofD)
      && said[b := own[b]] == Triangle(b, a, d, ownB, saidA, Costs(ofD.far, ofD.near))
  {
    assert TwoLinks(a, b, ofD) == TwoLinks(b, a, Costs(ofD.far, ofD.near));
    hide TwoLinks;
  }

  /** Two nodes beside `d` whose costs have been measured again since they were
      announced: a message of one for `d` arrives unless each now finds the other's
      announced link the cheaper way; then it comes back and is dropped. One
      changed cost can be enough. */
  lemma TriangleArrivesIff(a: Id, b: Id, d: Id, saidA: Costs, saidB: Costs, ofD: Costs, ownA: Costs, ownB: Costs, id: string)
    requires a != b && a != d && b != d
    requires Real(saidA) && Real(saidB) && Real(ofD) && Real(ownA) && Real(ownB)
    ensures var said, own := Triangle(a, b, d, saidA, saidB, ofD), Triangle(a, b, d, ownA, ownB, ofD);
      var o := Forwarded(ViewTables(said, own), a, d, id);
      if ownA.near + saidB.far < ownA.far && ownB.near + saidA.far < ownB.far
      then o == Stopped(a, MessagePlane.Duplicate)
      else o.Arrived?
  {
    hide DijkstraTable, LinkGraph, MessagePlane.React, Travel;
    var said, own := Triangle(a, b, d, saidA, saidB, ofD), Triangle(a, b, d, ownA, ownB, ofD);
    TriangleViews(a, b, d, saidA, saidB, ofD, ownA, ownB);
    TriangleHop(a, b, d, ownA, saidB, ofD);
    TriangleHop(b, a, d, ownB, saidA, Costs(ofD.far, ofD.near));
    var tables := ViewTables(said, own);
    assert tables[a] == DijkstraTable(View(said, own, a), a) && tables[b] == DijkstraTable(View(said, own, b), b);
    hide Triangle, View, ViewTables, Forwarded;
    HopsDecide(tables, a, b, d, id);
  }

  lemma HopsDecide(tables: Tables, a: Id, b: Id, d: Id, id: string)
    requires a != b && a != d && b != d && a in tables && b in tables && d in tables[a] && d in tables[b]
    requires tables[a][d].nextHop in {b, d} && tables[b][d].nextHop in {a, d}
    ensures var o := Forwarded(tables, a, d, id);
      if tables[a][d].nextHop == b && tables[b][d].nextHop == a
      then o == Stopped(a, MessagePlane.Duplicate)
      else o.Arrived?
  {
    var p := MessagePlane.Fresh(id, a, d);
    var q := MessagePlane.PassedOn(b, p);
    var g: Graph := map[];
    var after := tables[b][d].nextHop;
    if tables[a][d].nextHop == b {
      assert MessagePlane.React(b, false, p, true) == MessagePlane.Relayed(q);
      assert Travel(g, tables, b, p, {a}, 0.0) == Travel(g, tables, after, q, {a} + {b}, 0.0);
      assert after == d ==> Travel(g, tables, d, q, {a} + {b}, 0.0) == Arrived(q, 0.0);
      assert after == a ==> Travel(g, tables, a, q, {a} + {b}, 0.0) == Stopped(a, MessagePlane.Duplicate);
    } else {
      assert Travel(g, tables, d, p, {a}, 0.0) == Arrived(p, 0.0);
    }
  }
}
