/** Controlled flooding: every neighbour but the one that handed us the packet. */
module Flooding {
  import opened Ordering
  import opened Graphs
  import opened ShortestPaths

  function FloodTargets(neighbors: seq<Id>, previousHop: Id): (r: seq<Id>)
    ensures Elements(r) == Elements(neighbors) - {previousHop}
  {
    if neighbors == [] then []
    else
      ElementsOfTail(neighbors);
      var rest := FloodTargets(neighbors[1..], previousHop);
      if neighbors[0] == previousHop then rest
      else
        ElementsOfTail([neighbors[0]] + rest);
        [neighbors[0]] + rest
  }

  ghost predicate Distinct<T>(s: seq<T>) {
    forall i, j :: 0 <= i < j < |s| ==> s[i] != s[j]
  }

  /** No neighbour is sent the packet twice. */
  lemma {:induction false} FloodTargetsDistinct(neighbors: seq<Id>, previousHop: Id)
    requires Distinct(neighbors)
    ensures Distinct(FloodTargets(neighbors, previousHop))
  {
    if neighbors != [] {
      FloodTargetsDistinct(neighbors[1..], previousHop);
      var rest := FloodTargets(neighbors[1..], previousHop);
      forall j | 0 <= j < |rest| ensures rest[j] != neighbors[0] {
        assert rest[j] in Elements(rest);
        assert rest[j] in neighbors[1..];
      }
    }
  }

  lemma FloodFirst(n: Id, rest: seq<Id>, previousHop: Id)
    ensures FloodTargets([n] + rest, previousHop) == (if n == previousHop then [] else [n]) + FloodTargets(rest, previousHop)
  {
    hide Elements;
    assert ([n] + rest)[1..] == rest;
  }

  /** Those kept stay in order: listings one after the other give their targets one
      after the other. */
  lemma {:induction false} FloodKeepsOrder(a: seq<Id>, b: seq<Id>, previousHop: Id)
    ensures FloodTargets(a + b, previousHop) == FloodTargets(a, previousHop) + FloodTargets(b, previousHop)
  {
    if a == [] {
      assert a + b == b;
    } else {
      FloodKeepsOrder(a[1..], b, previousHop);
      FloodFirst(a[0], a[1..], previousHop);
      FloodFirst(a[0], a[1..] + b, previousHop);
      assert a == [a[0]] + a[1..] && a + b == [a[0]] + (a[1..] + b);
      hide FloodTargets;
    }
  }

  method Flood(neighbors: seq<Id>, previousHop: Id) returns (targets: seq<Id>)
    ensures targets == FloodTargets(neighbors, previousHop)
  {
    targets := [];
    var i := 0;
    while i < |neighbors|
      invariant 0 <= i <= |neighbors|
      invariant targets + FloodTargets(neighbors[i..], previousHop) == FloodTargets(neighbors, previousHop)
    {
      if neighbors[i] != previousHop { targets := targets + [neighbors[i]]; }
      i := i + 1;
    }
  }

  /** Flooding mode keeps no routes; it records what each live link costs, for
      the console to show as one-hop routes. */
  class FloodingRouter {
    var costs: Links

    constructor ()
      ensures costs == map[]
    {
      costs := map[];
    }

    method OnLinkUp(neighbor: Id, cost: real)
      modifies this
      ensures costs == old(costs)[neighbor := cost]
    {
      costs := costs[neighbor := cost];
    }

    method OnLinkDown(neighbor: Id)
      modifies this
      ensures costs == old(costs) - {neighbor}
    {
      costs := costs - {neighbor};
    }

    method Table() returns (table: Table)
      ensures table == map n | n in costs :: Route(n, n, costs[n])
    {
      table := map[];
      var left := costs.Keys;
      while left != {}
        invariant left <= costs.Keys
        invariant table == map n | n in costs && n !in left :: Route(n, n, costs[n])
      {
        var n :| n in left;
        table := table[n := Route(n, n, costs[n])];
        left := left - {n};
      }
    }
  }
}
