/** Forwarding along next hops when every node holds the Dijkstra table of the
    same graph: messages arrive, on shortest paths, within the hop budget. */
module HopByHop {
  import opened Ordering
  import opened Graphs
  import opened ShortestPaths
  import opened Exactness
  import opened MessagePlane
  import opened Packets

  type Tables = map<Id, Table>

  ghost predicate PositiveCosts(g: Graph) {
    forall u, v {:trigger HasLink(g, u, v)} :: HasLink(g, u, v) ==> v in g && g[u][v] > 0.0
  }

  /** Every node of `g` routes by an optimal table for `g`, all of whose costs
      are strictly positive (discovery never reports less than `minCost`). */
  ghost predicate SameGraph(g: Graph, tables: Tables) {
    && tables.Keys == g.Keys
    && (forall u {:trigger tables[u]} :: u in g ==> Optimal(g, u, tables[u]))
    && PositiveCosts(g)
  }

  /** The tables the nodes compute from one graph are such tables. */
  lemma DijkstraTablesAgree(g: Graph, tables: Tables)
    requires tables.Keys == g.Keys && PositiveCosts(g)
    requires forall u :: u in g ==> tables[u] == DijkstraTable(g, u)
    ensures SameGraph(g, tables)
  {
    forall u | u in g ensures Optimal(g, u, tables[u]) { DijkstraIsExact(g, u); }
  }

  predicate Routable(tables: Tables, u: Id, d: Id) {
    u in tables && (u == d || d in tables[u])
  }

  /** The cost that `u`'s table promises for the rest of the way to `d`. */
  function Remaining(tables: Tables, u: Id, d: Id): real
    requires Routable(tables, u, d)
  {
    if u == d then 0.0 else tables[u][d].cost
  }

  function NextHop(tables: Tables, u: Id, d: Id): Id
    requires Routable(tables, u, d) && u != d
  {
    tables[u][d].nextHop
  }

  /** The nodes closer to `d` than `u` is. */
  ghost function Closer(tables: Tables, u: Id, d: Id): set<Id>
    requires Routable(tables, u, d)
  {
    set x | x in tables && Routable(tables, x, d) && Remaining(tables, x, d) < Remaining(tables, u, d)
  }

  lemma FirstHopReaches(g: Graph, u: Id, h: Id, d: Id, c: real)
    requires Witnessed(g, u, d, c, h)
    ensures Usable(g, u, h) && Reaches(g, h, d)
  {
    var w :| WalkBetween(g, u, w, d) && |w| > 1 && w[1] == h && WalkCost(g, w) == c;
    SplitFirst(g, u, w, d);
  }

  /** The rest of a least-cost walk is a least-cost walk. */
  lemma OptimalSplits(g: Graph, u: Id, h: Id, d: Id, c: real, r: real)
    requires LeastCost(g, u, d, c) && Witnessed(g, u, d, c, h) && LeastCost(g, h, d, r)
    ensures Usable(g, u, h) && c == g[u][h] + r
  {
    var w :| WalkBetween(g, u, w, d) && |w| > 1 && w[1] == h && WalkCost(g, w) == c;
    SplitFirst(g, u, w, d);
    var x :| WalkBetween(g, h, x, d) && WalkCost(g, x) == r;
    PrependWalk(g, u, x);
    assert WalkBetween(g, u, [u] + x, d);
  }

  lemma RemainingIsLeast(g: Graph, tables: Tables, u: Id, d: Id)
    requires SameGraph(g, tables) && Routable(tables, u, d)
    ensures LeastCost(g, u, d, Remaining(tables, u, d))
  {
    if u == d {
      assert WalkBetween(g, u, [u], d) && WalkCost(g, [u]) == 0.0;
      forall w | WalkBetween(g, u, w, d) ensures 0.0 <= WalkCost(g, w) { WalkCostNonNegative(g, w); }
    } else {
      assert Optimal(g, u, tables[u]);
    }
  }

  /** A next hop is a neighbour that can itself route to the destination, and the
      remaining cost shrinks by exactly the link crossed. */
  lemma NextHopIsCloser(g: Graph, tables: Tables, u: Id, d: Id)
    requires SameGraph(g, tables) && Routable(tables, u, d) && u != d
    ensures var h := NextHop(tables, u, d);
      && HasLink(g, u, h) && Routable(tables, h, d)
      && Remaining(tables, u, d) == g[u][h] + Remaining(tables, h, d)
      && Remaining(tables, h, d) < Remaining(tables, u, d)
  {
    var h, c := NextHop(tables, u, d), tables[u][d].cost;
    assert Optimal(g, u, tables[u]);
    FirstHopReaches(g, u, h, d, c);
    assert HasLink(g, u, h);
    assert Optimal(g, h, tables[h]);
    RemainingIsLeast(g, tables, h, d);
    OptimalSplits(g, u, h, d, c, Remaining(tables, h, d));
  }

  lemma CloserShrinks(g: Graph, tables: Tables, u: Id, d: Id)
    requires SameGraph(g, tables) && Routable(tables, u, d) && u != d
    ensures Routable(tables, NextHop(tables, u, d), d)
    ensures Closer(tables, NextHop(tables, u, d), d) < Closer(tables, u, d)
    ensures |Closer(tables, NextHop(tables, u, d), d)| < |Closer(tables, u, d)|
  {
    NextHopIsCloser(g, tables, u, d);
    var h := NextHop(tables, u, d);
    var near, far := Closer(tables, h, d), Closer(tables, u, d);
    assert h in far && h !in near;
    assert far == near + (far - near);
    assert h in far - near;
  }

  /** `path` is what following next hops towards `d` visits: each node's table
      names the one after it, and its remaining cost is the link to that node
      plus what remains from there. */
  ghost predicate IsRoute(g: Graph, tables: Tables, path: seq<Id>, d: Id) {
    && path != [] && Routable(tables, path[0], d)
    && (if |path| == 1 then path[0] == d
        else
          && path[0] != d && path[1] == NextHop(tables, path[0], d)
          && HasLink(g, path[0], path[1])
          && IsRoute(g, tables, path[1..], d)
          && Remaining(tables, path[0], d) == g[path[0]][path[1]] + Remaining(tables, path[1], d)
          && Remaining(tables, path[1], d) < Remaining(tables, path[0], d))
  }

  ghost function RouteOf(g: Graph, tables: Tables, u: Id, d: Id): (path: seq<Id>)
    requires SameGraph(g, tables) && Routable(tables, u, d)
    ensures IsRoute(g, tables, path, d) && path[0] == u
    ensures |path| <= |Closer(tables, u, d)| + 1
    decreases Closer(tables, u, d)
  {
    if u == d then [u]
    else
      CloserShrinks(g, tables, u, d);
      NextHopIsCloser(g, tables, u, d);
      [u] + RouteOf(g, tables, NextHop(tables, u, d), d)
  }

  lemma RouteWithinNodeCount(g: Graph, tables: Tables, u: Id, d: Id)
    requires SameGraph(g, tables) && Routable(tables, u, d)
    ensures |RouteOf(g, tables, u, d)| <= |g.Keys|
  {
    assert Closer(tables, u, d) <= g.Keys - {u};
    SubsetIsNoLarger(Closer(tables, u, d), g.Keys - {u});
  }

  /** The remaining cost falls strictly along a route, so no node repeats. */
  lemma {:induction false} RouteDescends(g: Graph, tables: Tables, path: seq<Id>, d: Id, i: nat, j: nat)
    requires IsRoute(g, tables, path, d) && i < j < |path|
    ensures Routable(tables, path[i], d) && Routable(tables, path[j], d)
    ensures Remaining(tables, path[j], d) < Remaining(tables, path[i], d) && path[i] != path[j]
    decreases |path|
  {
    if i > 0 {
      RouteDescends(g, tables, path[1..], d, i - 1, j - 1);
    } else if j > 1 {
      RouteDescends(g, tables, path[1..], d, 0, j - 1);
    }
  }

  datatype Outcome = Arrived(message: Message, cost: real) | Stopped(at: Id, why: Reaction)

  /** The fate of message `p` once it has been sent to node `at`; `seen` are the
      nodes that already remember its id and `spent` the cost of the links it
      has crossed. */
  ghost function Travel(g: Graph, tables: Tables, at: Id, p: Message, seen: set<Id>, spent: real): Outcome
    decreases p.ttl
  {
    var table := if at in tables then tables[at] else map[];
    match React(at, at in seen, p, p.to in table)
    case Delivered => Arrived(p, spent)
    case Relayed(copy) =>
      var next := table[p.to].nextHop;
      var cost := if HasLink(g, at, next) then g[at][next] else 0.0;
      Travel(g, tables, next, copy, seen + {at}, spent + cost)
    case why => Stopped(at, why)
  }

  /** `Send` at `u`: remember the id, then hand the message to the next hop. */
  ghost function Sent(g: Graph, tables: Tables, u: Id, d: Id, id: string): Outcome
    requires Routable(tables, u, d) && u != d && HasLink(g, u, NextHop(tables, u, d))
  {
    Travel(g, tables, NextHop(tables, u, d), Fresh(id, u, d), {u}, g[u][NextHop(tables, u, d)])
  }

  /** Every node in `seen` is farther from `d` than `at` is. */
  ghost predicate Behind(tables: Tables, seen: set<Id>, at: Id, d: Id)
    requires Routable(tables, at, d)
  {
    forall x :: x in seen ==> Routable(tables, x, d) && Remaining(tables, x, d) > Remaining(tables, at, d)
  }

  /** On its route a message arrives if and only if its budget exceeds the hops
      left; it then has cost the link sum, one unit of budget per hop, and its
      trace is the route. */
  lemma {:induction false} TravelArrives(g: Graph, tables: Tables, path: seq<Id>, p: Message, seen: set<Id>, spent: real)
    requires IsRoute(g, tables, path, p.to) && p.ttl >= 1
    requires Behind(tables, seen, path[0], p.to)
    ensures var k, o := |path| - 1, Travel(g, tables, path[0], p, seen, spent);
      if k < p.ttl
      then o == Arrived(p.(ttl := p.ttl - k, trace := p.trace + path[..k],
                           via := if k == 0 then p.via else path[k - 1]),
                        spent + Remaining(tables, path[0], p.to))
      else o.Stopped? && o.why == Expired
    decreases p.ttl
  {
    var at := path[0];
    if |path| > 1 && p.ttl > 1 {
      var h, q := path[1], PassedOn(at, p);
      TravelArrives(g, tables, path[1..], q, seen + {at}, spent + g[at][h]);
      assert q.trace + path[1..][..|path| - 2] == p.trace + path[..|path| - 1];
    }
  }

  /** Hop-by-hop forwarding delivers exactly the messages whose route has at most
      sixteen links, at the cost the sender's table lists and with the route as
      trace; any other message expires. */
  lemma DeliveredIffWithinBudget(g: Graph, tables: Tables, u: Id, d: Id, id: string)
    requires SameGraph(g, tables) && Routable(tables, u, d) && u != d
    ensures HasLink(g, u, NextHop(tables, u, d))
    ensures var path, o := RouteOf(g, tables, u, d), Sent(g, tables, u, d, id);
      && (o.Arrived? <==> |path| - 1 <= DEFAULT_TTL)
      && (o.Stopped? ==> o.why == Expired)
      && (o.Arrived? ==> o.cost == tables[u][d].cost && o.message.trace + [d] == path)
  {
    var path := RouteOf(g, tables, u, d);
    SentOnRoute(g, tables, path, d, id);
  }

  lemma SentOnRoute(g: Graph, tables: Tables, path: seq<Id>, d: Id, id: string)
    requires IsRoute(g, tables, path, d) && |path| > 1
    ensures var k, o := |path| - 1, Sent(g, tables, path[0], d, id);
      && (o.Arrived? <==> k <= DEFAULT_TTL)
      && (o.Stopped? ==> o.why == Expired)
      && (o.Arrived? ==> o.cost == Remaining(tables, path[0], d) && o.message.trace + [d] == path)
  {
    var u := path[0];
    TravelArrives(g, tables, path[1..], Fresh(id, u, d), {u}, g[u][path[1]]);
    RouteEnds(g, tables, path, d);
    assert [u] + path[1..][..|path| - 2] + [d] == path;
  }

  lemma {:induction false} RouteEnds(g: Graph, tables: Tables, path: seq<Id>, d: Id)
    requires IsRoute(g, tables, path, d)
    ensures path[|path| - 1] == d
    decreases |path|
  {
    if |path| > 1 { RouteEnds(g, tables, path[1..], d); }
  }

  /** On at most seventeen nodes the hop budget never runs out: every destination
      a node lists is reached at the listed cost. */
  lemma SmallNetworkDelivers(g: Graph, tables: Tables, u: Id, d: Id, id: string)
    requires SameGraph(g, tables) && Routable(tables, u, d) && u != d
    ensures HasLink(g, u, NextHop(tables, u, d))
    ensures var o := Sent(g, tables, u, d, id);
            |g.Keys| <= DEFAULT_TTL + 1 ==> o.Arrived? && o.cost == tables[u][d].cost
  {
    RouteWithinNodeCount(g, tables, u, d);
    DeliveredIffWithinBudget(g, tables, u, d, id);
  }

  // ---------------------------------------- tables of different graphs

  /** The outcome of `Send` at `u` when every node forwards by its own table. */
  ghost function Forwarded(tables: Tables, u: Id, d: Id, id: string): Outcome {
    if Routable(tables, u, d) && u != d
    then Travel(map[], tables, NextHop(tables, u, d), Fresh(id, u, d), {u}, 0.0)
    else Stopped(u, NoTarget)
  }

  /** By the measure of the tables `base`, every next hop of `tables` towards `d`
      leads closer. */
  ghost predicate LeadsCloser(base: Tables, tables: Tables, d: Id, u: Id) {
    Routable(base, u, d) && u != d ==>
      && Routable(tables, u, d)
      && Routable(base, NextHop(tables, u, d), d)
      && Remaining(base, NextHop(tables, u, d), d) < Remaining(base, u, d)
  }

  lemma CloserCount(base: Tables, d: Id, u: Id, h: Id)
    requires Routable(base, u, d) && Routable(base, h, d) && Remaining(base, h, d) < Remaining(base, u, d)
    ensures |Closer(base, h, d)| < |Closer(base, u, d)|
  {
    var near, far := Closer(base, h, d), Closer(base, u, d);
    assert h in far && h !in near && near + {h} <= far;
    SubsetIsNoLarger(near + {h}, far);
  }

  /** Whatever graphs the tables come from: if every hop leads closer by one
      measure, a message with budget enough arrives. */
  lemma {:induction false} TravelByDescent(g: Graph, base: Tables, tables: Tables, at: Id, p: Message, seen: set<Id>, spent: real)
    requires forall u :: LeadsCloser(base, tables, p.to, u)
    requires Routable(base, at, p.to) && Behind(base, seen, at, p.to)
    requires p.ttl > |Closer(base, at, p.to)|
    ensures Travel(g, tables, at, p, seen, spent).Arrived?
    decreases p.ttl
  {
    if at != p.to {
      assert LeadsCloser(base, tables, p.to, at);
      var h := NextHop(tables, at, p.to);
      CloserCount(base, p.to, at, h);
      var cost := if HasLink(g, at, h) then g[at][h] else 0.0;
      TravelByDescent(g, base, tables, h, PassedOn(at, p), seen + {at}, spent + cost);
    }
  }

  lemma DescentArrives(base: Tables, tables: Tables, u: Id, d: Id, id: string)
    requires forall x :: LeadsCloser(base, tables, d, x)
    requires Routable(base, u, d) && u != d && |base.Keys| <= DEFAULT_TTL + 1
    ensures Forwarded(tables, u, d, id).Arrived?
  {
    assert LeadsCloser(base, tables, d, u);
    var h := NextHop(tables, u, d);
    CloserCount(base, d, u, h);
    assert Closer(base, u, d) <= base.Keys - {u};
    SubsetIsNoLarger(Closer(base, u, d), base.Keys - {u});
    TravelByDescent(map[], base, tables, h, Fresh(id, u, d), {u}, 0.0);
  }

  /** `Forwarded`, adding up what the links taken cost in `g`. */
  ghost function Paid(g: Graph, tables: Tables, u: Id, d: Id, id: string): Outcome {
    if Routable(tables, u, d) && u != d && HasLink(g, u, NextHop(tables, u, d))
    then Travel(g, tables, NextHop(tables, u, d), Fresh(id, u, d), {u}, g[u][NextHop(tables, u, d)])
    else Stopped(u, NoTarget)
  }

  /** A hop costs at most `slack` more than it leads closer. */
  ghost predicate PaysOff(g: Graph, base: Tables, tables: Tables, d: Id, slack: real, u: Id)
    requires LeadsCloser(base, tables, d, u)
  {
    Routable(base, u, d) && u != d ==>
      var h := NextHop(tables, u, d);
      HasLink(g, u, h) && g[u][h] + Remaining(base, h, d) <= Remaining(base, u, d) + slack
  }

  function Times(x: real, n: int): real {
    x * n as real
  }

  lemma {:induction false} TravelCosts(g: Graph, base: Tables, tables: Tables, at: Id, p: Message, seen: set<Id>, spent: real, slack: real)
    requires forall u :: LeadsCloser(base, tables, p.to, u) && PaysOff(g, base, tables, p.to, slack, u)
    requires Routable(base, at, p.to) && Behind(base, seen, at, p.to)
    requires p.ttl > |Closer(base, at, p.to)|
    ensures var o := Travel(g, tables, at, p, seen, spent);
      && o.Arrived? && |p.trace| <= |o.message.trace| <= |p.trace| + p.ttl - 1
      && o.cost <= spent + Remaining(base, at, p.to) + Times(slack, |o.message.trace| - |p.trace|)
    decreases p.ttl
  {
    if at != p.to {
      assert LeadsCloser(base, tables, p.to, at) && PaysOff(g, base, tables, p.to, slack, at);
      var h := NextHop(tables, at, p.to);
      CloserCount(base, p.to, at, h);
      var o := Travel(g, tables, h, PassedOn(at, p), seen + {at}, spent + g[at][h]);
      TravelCosts(g, base, tables, h, PassedOn(at, p), seen + {at}, spent + g[at][h], slack);
      OneMoreTime(slack, |o.message.trace| - |p.trace|);
      hide Times;
    } else {
      OneMoreTime(slack, 1);
    }
  }

  lemma OneMoreTime(x: real, n: int)
    ensures Times(x, n) == Times(x, n - 1) + x && Times(x, 0) == 0.0
  {
    assert n as real == (n - 1) as real + 1.0;
  }

  /** What descent by one measure costs by another: no more than the measure at the
      start and the slack of each hop. */
  lemma DescentCosts(g: Graph, base: Tables, tables: Tables, u: Id, d: Id, id: string, slack: real)
    requires forall x :: LeadsCloser(base, tables, d, x) && PaysOff(g, base, tables, d, slack, x)
    requires Routable(base, u, d) && u != d && |base.Keys| <= DEFAULT_TTL + 1
    ensures var o := Paid(g, tables, u, d, id);
      && o.Arrived? && 1 <= |o.message.trace| <= DEFAULT_TTL
      && o.cost <= Remaining(base, u, d) + Times(slack, |o.message.trace|)
  {
    assert LeadsCloser(base, tables, d, u) && PaysOff(g, base, tables, d, slack, u);
    var h := NextHop(tables, u, d);
    CloserCount(base, d, u, h);
    assert Closer(base, u, d) <= base.Keys - {u};
    SubsetIsNoLarger(Closer(base, u, d), base.Keys - {u});
    TravelCosts(g, base, tables, h, Fresh(id, u, d), {u}, g[u][h], slack);
    OneMoreTime(slack, |Paid(g, tables, u, d, id).message.trace|);
  }
}
