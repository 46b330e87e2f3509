/** Which of several cheapest ways Dijkstra lists: a direct link wins every tie. */
module Ties {
  import opened Ordering
  import opened Graphs
  import opened NodeQueue
  import opened ShortestPaths
  import opened Exactness

  /** The link from `s` to `v` has been tried, and is the way to `v` unless a
      cheaper one has been found. */
  ghost predicate Tried(g: Graph, s: Id, st: Search, v: Id)
    requires Usable(g, s, v)
  {
    && v in st.dist && st.dist[v] <= g[s][v]
    && (st.dist[v] == g[s][v] ==> v in st.firstHop && st.firstHop[v] == v)
  }

  lemma {:induction false} RelaxAllKeepsTried(g: Graph, s: Id, cur: Queued, ns: seq<Id>, st: Search, v: Id)
    requires forall n :: n in ns ==> HasLink(g, cur.id, n)
    requires Usable(g, s, v)
    requires Tried(g, s, st, v) || (cur == Queued(s, 0.0) && v in ns && v !in st.dist)
    ensures Tried(g, s, RelaxAll(g, s, cur, ns, st), v)
    decreases |ns|
  {
    if ns != [] {
      assert HasLink(g, cur.id, ns[0]);
      RelaxAllKeepsTried(g, s, cur, ns[1..], Relax(g, s, cur, ns[0], st), v);
    }
  }

  lemma StepKeepsTried(g: Graph, s: Id, st: Search, v: Id)
    requires st.queue != [] && Usable(g, s, v) && Tried(g, s, st, v)
    ensures Tried(g, s, Step(g, s, st), v)
  {
    var (cur, rest) := Pop(st.queue);
    hide Pop;
    if cur.id !in st.visited {
      RelaxAllKeepsTried(g, s, cur, Neighbours(g, cur.id), Visit(st, cur, rest), v);
    }
  }

  /** The first pass tries every link of the source. */
  lemma FirstStepTries(g: Graph, s: Id, v: Id)
    requires Usable(g, s, v) && v != s
    ensures Started(s).queue != [] && Tried(g, s, Step(g, s, Started(s)), v)
  {
    var st := Started(s);
    StartedWithin(s);
    PopMembers(st.queue);
    var (cur, rest) := Pop(st.queue);
    hide Pop;
    var ns := Neighbours(g, s);
    assert v in Elements(ns);
    RelaxAllKeepsTried(g, s, cur, ns, Visit(st, cur, rest), v);
  }

  lemma {:induction false} SearchTries(g: Graph, s: Id, run: seq<Search>, i: nat, v: Id)
    requires IsSearch(g, s, run) && 0 < i < |run| && Usable(g, s, v) && v != s
    ensures Tried(g, s, run[i], v)
  {
    hide Step, Started;
    assert PassAt(g, s, run, i);
    if i == 1 {
      FirstStepTries(g, s, v);
    } else {
      SearchTries(g, s, run, i - 1, v);
      StepKeepsTried(g, s, run[i - 1], v);
    }
  }

  /** A neighbour is listed at no more than its link costs, and if at just that,
      as its own next hop, however many other ways are as cheap. */
  lemma DirectLinkWinsTies(g: Graph, s: Id, v: Id)
    requires Usable(g, s, v) && v != s
    ensures var t := DijkstraTable(g, s);
      v in t && t[v].cost <= g[s][v] && (t[v].cost == g[s][v] ==> t[v].nextHop == v)
  {
    var run := SearchRun(g, s);
    StartedWithin(s);
    assert Finished(g, s).queue == [];
    assert |run| > 1;
    SearchTries(g, s, run, |run| - 1, v);
    DijkstraIsExact(g, s);
    assert WalkBetween(g, s, [s], s);
    ExtendWalk(g, s, [s], s, v);
    assert [s] + [v] == [s, v];
    assert WalkBetween(g, s, [s, v], v);
    assert Reaches(g, s, v);
  }

  // ------------------------------------------------- who is settled first

  /** `x` is the nearest of `done`, by the links of `s`, and of several the one that
      comes first in the dictionary. */
  ghost predicate Nearest(g: Graph, s: Id, done: set<Id>, x: Queued) {
    && x.id in done && x.id != s && Usable(g, s, x.id) && x.dist == g[s][x.id]
    && forall v :: v in done && v != s && Usable(g, s, v) ==>
         x.dist <= g[s][v] && (x.dist == g[s][v] && v != x.id ==> NameBefore(x.id, v))
  }

  /** The queue after the links to `done` have been tried, first of all. */
  ghost predicate Leads(g: Graph, s: Id, st: Search, done: set<Id>) {
    && Heap(st.queue, |st.queue|) && st.dist.Keys <= done + {s}
    && s in st.dist && st.dist[s] == 0.0
    && (forall e :: e in st.queue ==> e.id != s)
    && (st.queue == [] <==> forall v :: v in done && v != s ==> !Usable(g, s, v))
    && (st.queue != [] ==> Nearest(g, s, done, st.queue[0]))
  }

  lemma RelaxLeads(g: Graph, s: Id, next: Id, st: Search, done: set<Id>)
    requires HasLink(g, s, next) && Leads(g, s, st, done) && next !in done
    requires forall v :: v in done ==> NameBefore(v, next)
    ensures Leads(g, s, Relax(g, s, Queued(s, 0.0), next, st), done + {next})
  {
    hide Heap, NameBefore, Up;
    var x := Queued(next, g[s][next]);
    if Usable(g, s, next) && next != s {
      PushMembers(st.queue, x);
      PushKeepsHeap(st.queue, x);
      PushedRoot(st.queue, x);
      assert x in Push(st.queue, x);
      assert Relax(g, s, Queued(s, 0.0), next, st).queue == Push(st.queue, x);
    }
  }

  lemma {:induction false} RelaxAllLeads(g: Graph, s: Id, ns: seq<Id>, st: Search, done: set<Id>)
    requires forall n :: n in ns ==> HasLink(g, s, n)
    requires forall i, j :: 0 <= i < j < |ns| ==> NameBefore(ns[i], ns[j]) && ns[i] != ns[j]
    requires forall v, i :: v in done && 0 <= i < |ns| ==> NameBefore(v, ns[i]) && v != ns[i]
    requires Leads(g, s, st, done)
    ensures var r := RelaxAll(g, s, Queued(s, 0.0), ns, st); Leads(g, s, r, done + Elements(ns)) && r.settled == st.settled
  {
    hide Leads, NameBefore;
    if ns == [] {
      assert done + Elements<Id>([]) == done;
    } else {
      assert HasLink(g, s, ns[0]);
      RelaxLeads(g, s, ns[0], st, done);
      RelaxAllLeads(g, s, ns[1..], Relax(g, s, Queued(s, 0.0), ns[0], st), done + {ns[0]});
      ElementsOfTail(ns);
      assert done + {ns[0]} + Elements(ns[1..]) == done + Elements(ns);
    }
  }

  lemma NameBeforeIsStrict(a: Id)
    ensures !NameBefore(a, a)
  {
    LessIsNameOrder(a, a);
    LessIrreflexive(a);
  }

  /** The links of a node are tried in the order of their names. */
  lemma NeighboursAscend(g: Graph, u: Id, i: nat, j: nat)
    requires i < j < |Neighbours(g, u)|
    ensures NameBefore(Neighbours(g, u)[i], Neighbours(g, u)[j]) && Neighbours(g, u)[i] != Neighbours(g, u)[j]
  {
    SortedIdsAscend(OutLinks(g, u).Keys, i, j);
    NameBeforeIsStrict(Neighbours(g, u)[i]);
  }

  lemma FirstStepLeads(g: Graph, s: Id)
    ensures Started(s).queue != []
    ensures var st := Step(g, s, Started(s));
      && Leads(g, s, st, OutLinks(g, s).Keys) && st.settled == [Queued(s, 0.0)] && st.visited == {s}
  {
    var st := Started(s);
    StartedWithin(s);
    PopMembers(st.queue);
    var (cur, rest) := Pop(st.queue);
    var ns, now := Neighbours(g, s), Visit(st, cur, rest);
    assert Leads(g, s, now, {});
    forall i, j | 0 <= i < j < |ns| ensures NameBefore(ns[i], ns[j]) && ns[i] != ns[j] { NeighboursAscend(g, s, i, j); }
    hide Leads, NameBefore, Pop;
    RelaxAllLeads(g, s, ns, now, {});
    RelaxAllWithin(g, s, cur, ns, now);
    assert {} + Elements(ns) == OutLinks(g, s).Keys;
  }

  lemma {:induction false} RelaxAllSettles(g: Graph, s: Id, cur: Queued, ns: seq<Id>, st: Search)
    requires forall n :: n in ns ==> HasLink(g, cur.id, n)
    ensures RelaxAll(g, s, cur, ns, st).settled == st.settled
  {
    if ns != [] {
      assert HasLink(g, cur.id, ns[0]);
      RelaxAllSettles(g, s, cur, ns[1..], Relax(g, s, cur, ns[0], st));
    }
  }

  /** Each pass settles one more node, or none. */
  lemma StepSettles(g: Graph, s: Id, st: Search)
    requires st.queue != []
    ensures var cur := Pop(st.queue).0;
      Step(g, s, st).settled == if cur.id in st.visited then st.settled else st.settled + [cur]
  {
    var (cur, rest) := Pop(st.queue);
    if cur.id !in st.visited { RelaxAllSettles(g, s, cur, Neighbours(g, cur.id), Visit(st, cur, rest)); }
  }

  /** What is settled stays settled. */
  lemma {:induction false} SettledStays(g: Graph, s: Id, run: seq<Search>, i: nat, j: nat)
    requires Passes(g, s, run) && i <= j < |run|
    ensures run[i].settled <= run[j].settled
    decreases j
  {
    hide Step;
    if i < j {
      SettledStays(g, s, run, i, j - 1);
      assert PassAt(g, s, run, j);
      StepSettles(g, s, run[j - 1]);
    }
  }

  /** The first node settled after the source is the nearest one that a link of the
      source leads to, and of several equally near the one whose name comes first. */
  lemma FirstSettledIsFirstNamed(g: Graph, s: Id)
    ensures var settled := Finished(g, s).settled;
      && settled != [] && settled[0] == Queued(s, 0.0)
      && (|settled| > 1 <==> exists v :: v != s && Usable(g, s, v))
      && (|settled| > 1 ==>
            var x := settled[1];
            && x.id != s && Usable(g, s, x.id) && x.dist == g[s][x.id]
            && forall v :: v != s && Usable(g, s, v) ==>
                 x.dist <= g[s][v] && (x.dist == g[s][v] && v != x.id ==> NameBefore(x.id, v)))
  {
    var run := SearchRun(g, s);
    var done := OutLinks(g, s).Keys;
    FirstStepLeads(g, s);
    assert |run| > 1 && PassAt(g, s, run, 1);
    SettledStays(g, s, run, 1, |run| - 1);
    assert forall v :: Usable(g, s, v) ==> v in done;
    hide Step, NameBefore;
    assert |run| > 2 ==> PassAt(g, s, run, 2);
    if run[1].queue != [] {
      assert |run| > 2 && PassAt(g, s, run, 2);
      PopMembers(run[1].queue);
      StepSettles(g, s, run[1]);
      SettledStays(g, s, run, 2, |run| - 1);
    }
  }

  // ----------------------------------------------- which way is listed

  /** The `i`th settled node is the first to have a cheapest way on to `v`. */
  ghost predicate FirstVia(g: Graph, settled: seq<Queued>, v: Id, cost: real, i: nat) {
    && i < |settled| && Usable(g, settled[i].id, v) && settled[i].dist + g[settled[i].id][v] == cost
    && forall j :: 0 <= j < i && Usable(g, settled[j].id, v) ==> settled[j].dist + g[settled[j].id][v] > cost
  }

  /** The way on file to `v` came through the first settled node it could. */
  ghost predicate Parented(g: Graph, s: Id, st: Search, v: Id) {
    v in st.firstHop && v in st.dist ==> exists i: nat ::
      && FirstVia(g, st.settled, v, st.dist[v], i)
      && (if st.settled[i].id == s then st.firstHop[v] == v
          else st.settled[i].id in st.firstHop && st.firstHop[v] == st.firstHop[st.settled[i].id])
  }

  /** `cur`, settled last, has just tried its links to `done`. */
  ghost predicate Trying(g: Graph, s: Id, st: Search, cur: Queued, done: set<Id>) {
    && Inv(g, s, st, cur.id, done) && Acting(cur, st)
    && st.settled != [] && st.settled[|st.settled| - 1] == cur
    && forall v :: Parented(g, s, st, v)
  }

  lemma RelaxKeepsParents(g: Graph, s: Id, cur: Queued, next: Id, st: Search, done: set<Id>)
    requires HasLink(g, cur.id, next) && next !in done && Trying(g, s, st, cur, done)
    ensures Trying(g, s, Relax(g, s, cur, next, st), cur, done + {next})
  {
    RelaxKeeps(g, s, cur, next, st, done);
    RelaxSparesVisited(g, s, cur, next, st);
    var r := Relax(g, s, cur, next, st);
    if r != st {
      forall v ensures Parented(g, s, r, v) { RelaxKeepsParent(g, s, cur, next, st, done, v); }
    }
  }

  /** A way through `cur` that is taken is cheaper than any through those settled
      before. */
  lemma NewWayIsCheaper(g: Graph, s: Id, cur: Queued, next: Id, st: Search, done: set<Id>, j: nat)
    requires HasLink(g, cur.id, next) && next !in done && Trying(g, s, st, cur, done)
    requires Relax(g, s, cur, next, st) != st && j < |st.settled| - 1 && Usable(g, st.settled[j].id, next)
    ensures st.settled[j].dist + g[st.settled[j].id][next] > cur.dist + g[cur.id][next]
  {
    assert History(st) && Relaxed(g, st, cur.id, done);
    hide Inv, Walked, Pending, Frontier, Parented;
    assert LinkRelaxed(g, st, st.settled[j].id, next);
  }

  /** A parent stays one while its own way and the one through it do. */
  lemma SameParent(g: Graph, s: Id, st: Search, r: Search, v: Id)
    requires Parented(g, s, st, v) && v in st.firstHop && v in st.dist && r.settled == st.settled
    requires v in r.dist && r.dist[v] == st.dist[v] && v in r.firstHop && r.firstHop[v] == st.firstHop[v]
    requires forall i :: 0 <= i < |st.settled| && st.settled[i].id in st.firstHop ==>
      st.settled[i].id in r.firstHop && r.firstHop[st.settled[i].id] == st.firstHop[st.settled[i].id]
    ensures Parented(g, s, r, v)
  {
    var i: nat :| FirstVia(g, st.settled, v, st.dist[v], i)
      && (if st.settled[i].id == s then st.firstHop[v] == v
          else st.settled[i].id in st.firstHop && st.firstHop[v] == st.firstHop[st.settled[i].id]);
    assert FirstVia(g, r.settled, v, r.dist[v], i);
  }

  lemma NewParent(g: Graph, s: Id, r: Search, cur: Queued, v: Id)
    requires r.settled != [] && r.settled[|r.settled| - 1] == cur && Usable(g, cur.id, v)
    requires v in r.dist && r.dist[v] == cur.dist + g[cur.id][v] && v in r.firstHop
    requires if cur.id == s then r.firstHop[v] == v else cur.id in r.firstHop && r.firstHop[v] == r.firstHop[cur.id]
    requires forall j :: 0 <= j < |r.settled| - 1 && Usable(g, r.settled[j].id, v) ==> r.settled[j].dist + g[r.settled[j].id][v] > r.dist[v]
    ensures Parented(g, s, r, v)
  {
    assert FirstVia(g, r.settled, v, r.dist[v], |r.settled| - 1);
  }

  /** What relaxing one link does to the maps, when it does anything. */
  lemma RelaxTakes(g: Graph, s: Id, cur: Queued, next: Id, st: Search, done: set<Id>)
    requires HasLink(g, cur.id, next) && Trying(g, s, st, cur, done) && Relax(g, s, cur, next, st) != st
    ensures var r := Relax(g, s, cur, next, st);
      && Usable(g, cur.id, next) && r.settled == st.settled
      && r.dist == st.dist[next := cur.dist + g[cur.id][next]]
      && r.firstHop.Keys == st.firstHop.Keys + {next} && (forall v :: v in st.firstHop && v != next ==> r.firstHop[v] == st.firstHop[v])
      && (if cur.id == s then r.firstHop[next] == next
          else cur.id != next && cur.id in st.firstHop && r.firstHop[next] == st.firstHop[cur.id])
      && forall i :: 0 <= i < |st.settled| ==> st.settled[i].id != next
  {
    hide Inv, Push;
    RelaxSparesVisited(g, s, cur, next, st);
    TryingParts(g, s, st, cur, done);
    hide Inv, Trying, Push;
    assert forall i :: 0 <= i < |st.settled| ==> st.settled[i].id in st.visited;
  }

  lemma TryingParts(g: Graph, s: Id, st: Search, cur: Queued, done: set<Id>)
    requires Trying(g, s, st, cur, done)
    ensures Walked(g, s, st) && History(st) && Acting(cur, st)
  {
  }

  lemma RelaxKeepsParent(g: Graph, s: Id, cur: Queued, next: Id, st: Search, done: set<Id>, v: Id)
    requires HasLink(g, cur.id, next) && next !in done && Trying(g, s, st, cur, done)
    requires Relax(g, s, cur, next, st) != st
    ensures Parented(g, s, Relax(g, s, cur, next, st), v)
  {
    hide Inv, Relax;
    var r, n := Relax(g, s, cur, next, st), |st.settled| - 1;
    assert Parented(g, s, st, v);
    RelaxTakes(g, s, cur, next, st, done);
    hide Parented, FirstVia;
    if v == next {
      forall j | 0 <= j < n && Usable(g, st.settled[j].id, v) ensures st.settled[j].dist + g[st.settled[j].id][v] > r.dist[v] {
        NewWayIsCheaper(g, s, cur, next, st, done, j);
      }
      NewParent(g, s, r, cur, v);
    } else if v in st.firstHop && v in st.dist {
      SameParent(g, s, st, r, v);
    } else {
      NoParent(g, s, r, v);
    }
  }

  lemma NoParent(g: Graph, s: Id, r: Search, v: Id)
    requires v !in r.firstHop || v !in r.dist
    ensures Parented(g, s, r, v)
  {
  }

  lemma {:induction false} RelaxAllKeepsParents(g: Graph, s: Id, cur: Queued, ns: seq<Id>, st: Search, done: set<Id>)
    requires forall n :: n in ns ==> HasLink(g, cur.id, n) && n !in done
    requires Distinct(ns) && Trying(g, s, st, cur, done)
    ensures Trying(g, s, RelaxAll(g, s, cur, ns, st), cur, done + Elements(ns))
  {
    hide Trying;
    if ns == [] {
      assert done + Elements<Id>([]) == done;
    } else {
      assert HasLink(g, cur.id, ns[0]);
      RelaxKeepsParents(g, s, cur, ns[0], st, done);
      RelaxAllKeepsParents(g, s, cur, ns[1..], Relax(g, s, cur, ns[0], st), done + {ns[0]});
      ElementsOfTail(ns);
      assert done + {ns[0]} + Elements(ns[1..]) == done + Elements(ns);
    }
  }

  /** No two are the same. */
  ghost predicate Distinct(ns: seq<Id>) {
    forall i, j :: 0 <= i < j < |ns| ==> ns[i] != ns[j]
  }

  ghost predicate AllParented(g: Graph, s: Id, st: Search) {
    forall v :: Parented(g, s, st, v)
  }

  /** One more settled node changes nobody's parent. */
  lemma VisitKeepsParent(g: Graph, s: Id, st: Search, cur: Queued, rest: seq<Queued>, v: Id)
    requires Parented(g, s, st, v)
    ensures Parented(g, s, Visit(st, cur, rest), v) && Parented(g, s, Skip(st, cur, rest), v)
  {
    var r := Visit(st, cur, rest);
    if v in st.firstHop && v in st.dist {
      var i: nat :| FirstVia(g, st.settled, v, st.dist[v], i)
        && (if st.settled[i].id == s then st.firstHop[v] == v
            else st.settled[i].id in st.firstHop && st.firstHop[v] == st.firstHop[st.settled[i].id]);
      assert FirstVia(g, r.settled, v, r.dist[v], i);
    }
  }

  lemma ActKeepsParents(g: Graph, s: Id, st: Search, cur: Queued)
    requires Inv(g, s, st, cur.id, {}) && Acting(cur, st) && AllParented(g, s, st)
    requires st.settled != [] && st.settled[|st.settled| - 1] == cur
    ensures AllParented(g, s, RelaxAll(g, s, cur, Neighbours(g, cur.id), st))
  {
    hide Inv, Acting, Parented, NameBefore, RelaxAll;
    var ns := Neighbours(g, cur.id);
    forall i, j | 0 <= i < j < |ns| ensures ns[i] != ns[j] { NeighboursAscend(g, cur.id, i, j); }
    RelaxAllKeepsParents(g, s, cur, ns, st, {});
  }

  lemma StepKeepsParents(g: Graph, s: Id, st: Search)
    requires Inv(g, s, st, s, OutLinks(g, s).Keys) && st.queue != [] && AllParented(g, s, st)
    ensures AllParented(g, s, Step(g, s, st))
  {
    hide Pop, Inv, Acting, Parented, RelaxAll;
    var (cur, rest) := Pop(st.queue);
    forall v ensures Parented(g, s, Visit(st, cur, rest), v) && Parented(g, s, Skip(st, cur, rest), v) {
      VisitKeepsParent(g, s, st, cur, rest, v);
    }
    if cur.id !in st.visited {
      VisitKeeps(g, s, st);
      ActKeepsParents(g, s, Visit(st, cur, rest), cur);
    }
  }

  lemma {:induction false} SearchKeepsParents(g: Graph, s: Id, run: seq<Search>, i: nat)
    requires IsSearch(g, s, run) && i < |run|
    ensures AllParented(g, s, run[i])
  {
    if i == 0 {
      StartedWithin(s);
    } else {
      hide Step, Inv, AllParented;
      SearchKeepsParents(g, s, run, i - 1);
      SearchKeepsInv(g, s, run, i - 1);
      assert PassAt(g, s, run, i);
      StepKeepsParents(g, s, run[i - 1]);
    }
  }

  /** Which of the cheapest ways is listed: the one through the first node settled
      that has one. If that is the source, its link is taken; otherwise the way
      leaves as the way to that node does. */
  lemma FirstSettledWayIsListed(g: Graph, s: Id, v: Id)
    requires v in DijkstraTable(g, s)
    ensures var t, settled := DijkstraTable(g, s), Finished(g, s).settled;
      exists i: nat ::
        && i < |settled| && Usable(g, settled[i].id, v) && settled[i].dist + g[settled[i].id][v] == t[v].cost
        && (forall j :: 0 <= j < i && Usable(g, settled[j].id, v) ==> settled[j].dist + g[settled[j].id][v] > t[v].cost)
        && (if settled[i].id == s then t[v].nextHop == v
            else settled[i].id in t && t[v].nextHop == t[settled[i].id].nextHop)
  {
    var run, st, t := SearchRun(g, s), Finished(g, s), DijkstraTable(g, s);
    SearchKeepsParents(g, s, run, |run| - 1);
    FinishedInv(g, s);
    assert Walked(g, s, st) && History(st);
    hide Inv, Walked, Pending, Frontier, Relaxed;
    assert Parented(g, s, st, v);
    var i: nat :| FirstVia(g, st.settled, v, st.dist[v], i)
      && (if st.settled[i].id == s then st.firstHop[v] == v
          else st.settled[i].id in st.firstHop && st.firstHop[v] == st.firstHop[st.settled[i].id]);
    assert t[v].cost == st.dist[v];
    if st.settled[i].id != s { assert st.settled[i].id in t; }
  }
}
