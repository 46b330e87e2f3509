/** What the lazily cleaned search computes: least walk costs and first hops
    that achieve them, with every stale queue entry harmless. */
module Exactness {
  import opened Ordering
  import opened Graphs
  import opened NodeQueue
  import opened ShortestPaths

  /** Some walk reaches `v` at cost `d`, leaving the source towards `hop`. */
  ghost predicate Witnessed(g: Graph, s: Id, v: Id, d: real, hop: Id) {
    exists w :: WalkBetween(g, s, w, v) && |w| > 1 && w[1] == hop && WalkCost(g, w) == d
  }

  /** The declarative meaning of a routing table. */
  ghost predicate Optimal(g: Graph, s: Id, t: Table) {
    && (forall v :: v in t <==> v != s && Reaches(g, s, v))
    && (forall v :: v in t ==>
          && t[v].dest == v
          && LeastCost(g, s, v, t[v].cost)
          && Witnessed(g, s, v, t[v].cost, t[v].nextHop))
  }

  // --------------------------------------------------- the search invariant

  ghost predicate Walked(g: Graph, s: Id, st: Search) {
    && s in st.dist && st.dist[s] == 0.0
    && st.firstHop.Keys == st.dist.Keys - {s}
    && (forall v :: v in st.dist ==> st.dist[v] >= 0.0)
    && (forall v :: v in st.firstHop ==> Witnessed(g, s, v, st.dist[v], st.firstHop[v]))
  }

  /** Queue entries never undercut `dist`, and every unvisited known node is
      queued at its current distance. */
  ghost predicate Pending(st: Search) {
    && Heap(st.queue, |st.queue|)
    && (forall e :: e in st.queue ==> e.id in st.dist && st.dist[e.id] <= e.dist)
    && (forall v :: v in st.dist && v !in st.visited ==> Queued(v, st.dist[v]) in st.queue)
  }

  /** No visited node is farther than `limit`. */
  ghost predicate VisitedWithin(st: Search, limit: real) {
    forall u :: u in st.visited ==> u in st.dist && st.dist[u] <= limit
  }

  ghost predicate Frontier(st: Search) {
    forall e :: e in st.queue ==> VisitedWithin(st, e.dist)
  }

  ghost predicate LinkRelaxed(g: Graph, st: Search, u: Id, v: Id) {
    Usable(g, u, v) ==> u in st.dist && v in st.dist && st.dist[v] <= st.dist[u] + g[u][v]
  }

  /** Every link out of a visited node has been relaxed, except that `cur` has
      only relaxed its links to `done`. */
  ghost predicate Relaxed(g: Graph, st: Search, cur: Id, done: set<Id>) {
    forall u, v :: u in st.visited && (u != cur || v in done) ==> LinkRelaxed(g, st, u, v)
  }

  /** The history agrees with the maps: the settled entries are the visited
      nodes, at their distances, nearest first. */
  ghost predicate History(st: Search) {
    && (forall i :: 0 <= i < |st.settled| ==>
          st.settled[i].id in st.visited && st.settled[i].id in st.dist
          && st.settled[i].dist == st.dist[st.settled[i].id])
    && (forall i, j :: 0 <= i < j < |st.settled| ==>
          st.settled[i].dist <= st.settled[j].dist && st.settled[i].id != st.settled[j].id)
    && |st.settled| == |st.visited|
    && st.visited <= st.dist.Keys
  }

  ghost predicate Inv(g: Graph, s: Id, st: Search, cur: Id, done: set<Id>) {
    && Walked(g, s, st) && Pending(st) && Frontier(st) && Relaxed(g, st, cur, done) && History(st)
  }

  // ------------------------------------------------------------ inner loop

  /** `cur` has just been visited, at its distance. */
  ghost predicate Acting(cur: Queued, st: Search) {
    cur.id in st.visited && cur.id in st.dist && st.dist[cur.id] == cur.dist && VisitedWithin(st, cur.dist)
  }

  lemma ReachThrough(g: Graph, s: Id, cur: Queued, next: Id, st: Search)
    requires Walked(g, s, st) && Acting(cur, st) && Usable(g, cur.id, next)
    ensures Witnessed(g, s, next, cur.dist + g[cur.id][next], FirstHopVia(s, cur.id, next, st.firstHop))
  {
    if cur.id == s {
      ExtendWalk(g, s, [s], s, next);
      assert WalkCost(g, [s]) == 0.0;
      assert WalkBetween(g, s, [s] + [next], next);
    } else {
      var w :| WalkBetween(g, s, w, cur.id) && |w| > 1 && w[1] == st.firstHop[cur.id] && WalkCost(g, w) == cur.dist;
      ExtendWalk(g, s, w, cur.id, next);
      assert (w + [next])[1] == w[1];
    }
  }

  lemma RelaxKeepsWalked(g: Graph, s: Id, cur: Queued, next: Id, st: Search)
    requires Walked(g, s, st) && Acting(cur, st) && HasLink(g, cur.id, next)
    ensures Walked(g, s, Relax(g, s, cur, next, st))
  {
    if Usable(g, cur.id, next) { ReachThrough(g, s, cur, next, st); }
  }

  /** Relaxing never touches a visited node, since none is farther than `cur`. */
  lemma RelaxSparesVisited(g: Graph, s: Id, cur: Queued, next: Id, st: Search)
    requires Acting(cur, st) && HasLink(g, cur.id, next)
    ensures var r := Relax(g, s, cur, next, st);
            && Acting(cur, r) && r.visited == st.visited && r.settled == st.settled
            && (forall u :: u in st.visited ==> u in r.dist && r.dist[u] == st.dist[u])
            && (forall v :: v in st.dist ==> v in r.dist && r.dist[v] <= st.dist[v])
  {
  }

  lemma RelaxKeepsPending(g: Graph, s: Id, cur: Queued, next: Id, st: Search)
    requires Pending(st) && Frontier(st) && Acting(cur, st) && HasLink(g, cur.id, next)
    ensures Pending(Relax(g, s, cur, next, st)) && Frontier(Relax(g, s, cur, next, st))
  {
    RelaxSparesVisited(g, s, cur, next, st);
    var r := Relax(g, s, cur, next, st);
    var x := Queued(next, cur.dist + g[cur.id][next]);
    if r != st {
      PushKeepsHeap(st.queue, x);
      PushMembers(st.queue, x);
      forall e | e in r.queue ensures VisitedWithin(r, e.dist) {
        assert VisitedWithin(st, cur.dist);
        if e != x { assert VisitedWithin(st, e.dist); }
      }
    }
  }

  lemma RelaxKeepsRelaxed(g: Graph, s: Id, cur: Queued, next: Id, st: Search, done: set<Id>)
    requires Relaxed(g, st, cur.id, done) && Acting(cur, st) && HasLink(g, cur.id, next)
    ensures Relaxed(g, Relax(g, s, cur, next, st), cur.id, done + {next})
  {
    RelaxSparesVisited(g, s, cur, next, st);
    var r := Relax(g, s, cur, next, st);
    forall u, v | u in r.visited && (u != cur.id || v in done + {next}) ensures LinkRelaxed(g, r, u, v) {
      if u != cur.id || v in done { assert LinkRelaxed(g, st, u, v); }
    }
  }

  lemma RelaxKeeps(g: Graph, s: Id, cur: Queued, next: Id, st: Search, done: set<Id>)
    requires HasLink(g, cur.id, next) && Inv(g, s, st, cur.id, done) && Acting(cur, st)
    ensures Inv(g, s, Relax(g, s, cur, next, st), cur.id, done + {next})
    ensures Acting(cur, Relax(g, s, cur, next, st))
  {
    RelaxKeepsWalked(g, s, cur, next, st);
    RelaxKeepsPending(g, s, cur, next, st);
    RelaxKeepsRelaxed(g, s, cur, next, st, done);
    RelaxSparesVisited(g, s, cur, next, st);
  }

  lemma {:induction false} RelaxAllKeeps(g: Graph, s: Id, cur: Queued, ns: seq<Id>, st: Search, done: set<Id>)
    requires forall n :: n in ns ==> HasLink(g, cur.id, n)
    requires Inv(g, s, st, cur.id, done) && Acting(cur, st)
    ensures Inv(g, s, RelaxAll(g, s, cur, ns, st), cur.id, done + Elements(ns))
    ensures Acting(cur, RelaxAll(g, s, cur, ns, st))
  {
    if ns == [] {
      assert done + Elements<Id>([]) == done;
    } else {
      var next := ns[0];
      assert HasLink(g, cur.id, next);
      RelaxKeeps(g, s, cur, next, st, done);
      RelaxAllKeeps(g, s, cur, ns[1..], Relax(g, s, cur, next, st), done + {next});
      ElementsOfTail(ns);
      assert done + {next} + Elements(ns[1..]) == done + Elements(ns);
    }
  }

  // ------------------------------------------------------------ outer loop

  /** An unvisited node is popped at its `dist` entry: its stale copies, being
      larger, come out later and are skipped. */
  lemma PoppedEntryIsCurrent(g: Graph, s: Id, st: Search)
    requires Pending(st) && st.queue != [] && Pop(st.queue).0.id !in st.visited
    ensures var cur := Pop(st.queue).0; cur.id in st.dist && cur.dist == st.dist[cur.id]
  {
    PopMembers(st.queue);
    PopTakesLeast(st.queue);
    var cur := Pop(st.queue).0;
    assert Queued(cur.id, st.dist[cur.id]) in st.queue;
  }

  lemma SkipKeeps(g: Graph, s: Id, st: Search)
    requires Inv(g, s, st, s, OutLinks(g, s).Keys) && st.queue != [] && Pop(st.queue).0.id in st.visited
    ensures Inv(g, s, Skip(st, Pop(st.queue).0, Pop(st.queue).1), s, OutLinks(g, s).Keys)
  {
    var (cur, rest) := Pop(st.queue);
    PopMembers(st.queue);
    PopTakesLeast(st.queue);
    var r := Skip(st, cur, rest);
    forall v | v in r.dist && v !in r.visited ensures Queued(v, r.dist[v]) in r.queue {
      assert Queued(v, st.dist[v]) in st.queue;
    }
    forall e | e in r.queue ensures VisitedWithin(r, e.dist) { assert VisitedWithin(st, e.dist); }
    assert forall u, v :: LinkRelaxed(g, st, u, v) ==> LinkRelaxed(g, r, u, v);
  }

  lemma VisitKeepsQueue(g: Graph, s: Id, st: Search)
    requires Pending(st) && Frontier(st) && st.queue != [] && Pop(st.queue).0.id !in st.visited
    ensures var (cur, rest) := Pop(st.queue);
            && Pending(Visit(st, cur, rest)) && Frontier(Visit(st, cur, rest))
            && VisitedWithin(st, cur.dist) && Acting(cur, Visit(st, cur, rest))
  {
    var (cur, rest) := Pop(st.queue);
    PoppedEntryIsCurrent(g, s, st);
    PopMembers(st.queue);
    PopTakesLeast(st.queue);
    assert VisitedWithin(st, cur.dist);
    var r := Visit(st, cur, rest);
    forall v | v in r.dist && v !in r.visited ensures Queued(v, r.dist[v]) in r.queue {
      assert Queued(v, st.dist[v]) in st.queue;
    }
    forall e | e in r.queue ensures VisitedWithin(r, e.dist) { assert VisitedWithin(st, e.dist); }
  }

  lemma VisitKeepsHistory(st: Search, cur: Queued, rest: seq<Queued>)
    requires History(st) && VisitedWithin(st, cur.dist) && cur.id !in st.visited
    requires cur.id in st.dist && st.dist[cur.id] == cur.dist
    ensures History(Visit(st, cur, rest))
  {
    forall i | 0 <= i < |st.settled| ensures st.settled[i].dist <= cur.dist {
      assert st.settled[i].id in st.visited;
    }
  }

  lemma VisitKeepsRelaxed(g: Graph, s: Id, st: Search, cur: Queued, rest: seq<Queued>)
    requires Relaxed(g, st, s, OutLinks(g, s).Keys)
    ensures Relaxed(g, Visit(st, cur, rest), cur.id, {})
  {
    AllRelaxed(g, st);
    assert forall u, v :: LinkRelaxed(g, st, u, v) ==> LinkRelaxed(g, Visit(st, cur, rest), u, v);
  }

  lemma VisitKeeps(g: Graph, s: Id, st: Search)
    requires Inv(g, s, st, s, OutLinks(g, s).Keys) && st.queue != [] && Pop(st.queue).0.id !in st.visited
    ensures var (cur, rest) := Pop(st.queue);
            Inv(g, s, Visit(st, cur, rest), cur.id, {}) && Acting(cur, Visit(st, cur, rest))
  {
    hide Pop, Pending, Frontier, Relaxed, History;
    var (cur, rest) := Pop(st.queue);
    VisitKeepsQueue(g, s, st);
    VisitKeepsRelaxed(g, s, st, cur, rest);
    VisitKeepsHistory(st, cur, rest);
  }

  /** Relaxing all of a node's own links leaves no exception. */
  lemma AllRelaxed(g: Graph, st: Search)
    ensures forall c :: Relaxed(g, st, c, OutLinks(g, c).Keys) ==>
              forall u, v :: u in st.visited ==> LinkRelaxed(g, st, u, v)
  {
  }

  lemma StepKeeps(g: Graph, s: Id, st: Search)
    requires Inv(g, s, st, s, OutLinks(g, s).Keys) && st.queue != []
    ensures Inv(g, s, Step(g, s, st), s, OutLinks(g, s).Keys)
  {
    var (cur, rest) := Pop(st.queue);
    hide Pop, Heap, Pending, Frontier, History, Walked, Relaxed;
    if cur.id in st.visited {
      SkipKeeps(g, s, st);
    } else {
      VisitKeeps(g, s, st);
      RelaxAllKeeps(g, s, cur, Neighbours(g, cur.id), Visit(st, cur, rest), {});
      AllRelaxed(g, Step(g, s, st));
      assert {} + Elements(Neighbours(g, cur.id)) == OutLinks(g, cur.id).Keys;
    }
  }

  lemma StartedInv(g: Graph, s: Id)
    ensures Inv(g, s, Started(s), s, OutLinks(g, s).Keys)
  {
    StartedWithin(s);
  }

  /** The invariant holds after every pass of the search. */
  lemma {:induction false} SearchKeepsInv(g: Graph, s: Id, run: seq<Search>, i: nat)
    requires IsSearch(g, s, run) && i < |run|
    ensures Inv(g, s, run[i], s, OutLinks(g, s).Keys)
  {
    if i == 0 {
      StartedInv(g, s);
    } else {
      SearchKeepsInv(g, s, run, i - 1);
      assert PassAt(g, s, run, i);
      StepKeeps(g, s, run[i - 1]);
    }
  }

  lemma FinishedInv(g: Graph, s: Id)
    ensures Inv(g, s, Finished(g, s), s, OutLinks(g, s).Keys)
    ensures Finished(g, s).queue == []
  {
    SearchKeepsInv(g, s, SearchRun(g, s), |SearchRun(g, s)| - 1);
  }

  // ---------------------------------------------------------- main results

  /** With every link relaxed and the queue empty, `dist` bounds every walk. */
  lemma {:induction false} DistBoundsWalks(g: Graph, s: Id, st: Search, w: seq<Id>)
    requires s in st.dist && st.dist[s] == 0.0 && IsWalk(g, w) && w[0] == s
    requires forall v :: v in st.dist ==> v in st.visited
    requires forall u, v :: u in st.visited ==> LinkRelaxed(g, st, u, v)
    ensures w[|w| - 1] in st.dist && st.dist[w[|w| - 1]] <= WalkCost(g, w)
    decreases |w|
  {
    if |w| > 1 {
      var init := w[..|w| - 1];
      DistBoundsWalks(g, s, st, init);
      var u, v := w[|w| - 2], w[|w| - 1];
      assert init[|init| - 1] == u;
      assert LinkRelaxed(g, st, u, v);
    }
  }

  /** Dijkstra is exact: its table lists precisely the other nodes that can be
      reached over links of cost at least zero, each with the least walk cost and
      with the first node of a walk of that cost. */
  lemma DijkstraIsExact(g: Graph, s: Id)
    ensures Optimal(g, s, DijkstraTable(g, s))
  {
    var st, t := Finished(g, s), DijkstraTable(g, s);
    FinishedInv(g, s);
    AllRelaxed(g, st);
    forall v | v != s && Reaches(g, s, v) ensures v in t {
      var w :| WalkBetween(g, s, w, v);
      DistBoundsWalks(g, s, st, w);
    }
    forall v | v in t
      ensures t[v].dest == v && Witnessed(g, s, v, t[v].cost, t[v].nextHop) && v != s && Reaches(g, s, v)
      ensures LeastCost(g, s, v, t[v].cost)
    {
      var w :| WalkBetween(g, s, w, v) && |w| > 1 && w[1] == t[v].nextHop && WalkCost(g, w) == t[v].cost;
      forall x | WalkBetween(g, s, x, v) ensures t[v].cost <= WalkCost(g, x) { DistBoundsWalks(g, s, st, x); }
    }
  }

  // ------------------------------------------------- lazy deletion in numbers

  /** The links leaving the nodes of `us`. */
  ghost function LinksFrom(g: Graph, us: set<Id>): set<(Id, Id)> {
    set u, v | u in us && u in g && v in g[u] :: (u, v)
  }

  /** Entries come out nearest first, none is lost, and at most one was queued
      for each link relaxed so far (`links`), besides the first. */
  ghost predicate Tally(st: Search, links: nat) {
    && st.pushes == |st.popped| + |st.queue|
    && st.pushes <= 1 + links
    && (forall i, j :: 0 <= i < j < |st.popped| ==> st.popped[i].dist <= st.popped[j].dist)
    && (forall i, e :: 0 <= i < |st.popped| && e in st.queue ==> st.popped[i].dist <= e.dist)
  }

  ghost predicate PoppedWithin(st: Search, limit: real) {
    forall i :: 0 <= i < |st.popped| ==> st.popped[i].dist <= limit
  }

  lemma RelaxKeepsTally(g: Graph, s: Id, cur: Queued, next: Id, st: Search, links: nat)
    requires HasLink(g, cur.id, next) && Tally(st, links)
    requires PoppedWithin(st, cur.dist)
    ensures Tally(Relax(g, s, cur, next, st), links + 1)
    ensures Relax(g, s, cur, next, st).popped == st.popped
  {
    PushMembers(st.queue, Queued(next, cur.dist + g[cur.id][next]));
  }

  lemma {:induction false} RelaxAllKeepsTally(g: Graph, s: Id, cur: Queued, ns: seq<Id>, st: Search, links: nat)
    requires forall n :: n in ns ==> HasLink(g, cur.id, n)
    requires Tally(st, links)
    requires PoppedWithin(st, cur.dist)
    ensures Tally(RelaxAll(g, s, cur, ns, st), links + |ns|)
  {
    if ns != [] {
      assert HasLink(g, cur.id, ns[0]);
      RelaxKeepsTally(g, s, cur, ns[0], st, links);
      RelaxAllKeepsTally(g, s, cur, ns[1..], Relax(g, s, cur, ns[0], st), links + 1);
    }
  }

  lemma {:induction false} PairsCount(u: Id, vs: set<Id>)
    ensures |set v | v in vs :: (u, v)| == |vs|
    decreases |vs|
  {
    if vs == {} {
      assert (set v | v in vs :: (u, v)) == {};
    } else {
      var x :| x in vs;
      PairsCount(u, vs - {x});
      assert (set v | v in vs :: (u, v)) == (set v | v in vs - {x} :: (u, v)) + {(u, x)};
    }
  }

  lemma LinksFromSplit(g: Graph, us: set<Id>, u: Id, own: set<(Id, Id)>)
    requires u !in us && own == set v | v in OutLinks(g, u).Keys :: (u, v)
    ensures LinksFrom(g, us + {u}) == LinksFrom(g, us) + own && LinksFrom(g, us) !! own
  {
  }

  lemma LinksFromOneMore(g: Graph, us: set<Id>, u: Id)
    requires u !in us
    ensures |LinksFrom(g, us + {u})| == |LinksFrom(g, us)| + |Neighbours(g, u)|
  {
    var vs := OutLinks(g, u).Keys;
    var own := set v | v in vs :: (u, v);
    PairsCount(u, vs);
    LinksFromSplit(g, us, u, own);
    SortedIdsLength(vs);
  }

  lemma SkipKeepsTally(st: Search, links: nat)
    requires st.queue != [] && Heap(st.queue, |st.queue|) && Tally(st, links)
    ensures var (cur, rest) := Pop(st.queue);
      && Tally(Skip(st, cur, rest), links)
      && Tally(Visit(st, cur, rest), links)
      && PoppedWithin(Visit(st, cur, rest), cur.dist)
  {
    PopMembers(st.queue);
    PopTakesLeast(st.queue);
  }

  lemma RelaxingAddsLinks(g: Graph, s: Id, cur: Queued, now: Search, before: set<Id>)
    requires cur.id !in before && now.visited == before + {cur.id}
    requires Tally(now, |LinksFrom(g, before)|) && PoppedWithin(now, cur.dist)
    ensures var r := RelaxAll(g, s, cur, Neighbours(g, cur.id), now);
            Tally(r, |LinksFrom(g, r.visited)|)
  {
    hide LinksFrom, Tally, PoppedWithin, RelaxAll, OutLinks;
    var ns := Neighbours(g, cur.id);
    RelaxAllWithin(g, s, cur, ns, now);
    RelaxAllKeepsTally(g, s, cur, ns, now, |LinksFrom(g, before)|);
    LinksFromOneMore(g, before, cur.id);
  }

  lemma StepKeepsTally(g: Graph, s: Id, st: Search)
    requires st.queue != [] && Heap(st.queue, |st.queue|) && Tally(st, |LinksFrom(g, st.visited)|)
    ensures Tally(Step(g, s, st), |LinksFrom(g, Step(g, s, st).visited)|)
  {
    hide Pop, Heap, LinksFrom, Tally, PoppedWithin, RelaxAll;
    var (cur, rest) := Pop(st.queue);
    SkipKeepsTally(st, |LinksFrom(g, st.visited)|);
    if cur.id !in st.visited { RelaxingAddsLinks(g, s, cur, Visit(st, cur, rest), st.visited); }
  }

  lemma {:induction false} SearchKeepsTally(g: Graph, s: Id, run: seq<Search>, i: nat)
    requires IsSearch(g, s, run) && i < |run|
    ensures Tally(run[i], |LinksFrom(g, run[i].visited)|)
  {
    hide Step, Pop, Heap, Walked, Frontier, Relaxed, History;
    if i == 0 {
      StartedWithin(s);
    } else {
      SearchKeepsTally(g, s, run, i - 1);
      SearchKeepsInv(g, s, run, i - 1);
      assert PassAt(g, s, run, i);
      StepKeepsTally(g, s, run[i - 1]);
    }
  }

  lemma SubsetIsNoLarger<T>(a: set<T>, b: set<T>)
    requires a <= b
    ensures |a| <= |b|
  {
    assert b == a + (b - a);
  }

  /** Lazy deletion is harmless: entries are popped nearest first; the ones acted
      upon are one per known node, at its final distance; and although stale
      copies stay queued, no more entries are ever popped than there are links,
      plus one. */
  lemma LazyDeletionIsHarmless(g: Graph, s: Id)
    ensures var st := Finished(g, s);
      && (forall i, j :: 0 <= i < j < |st.popped| ==> st.popped[i].dist <= st.popped[j].dist)
      && (forall i :: 0 <= i < |st.settled| ==>
            st.settled[i].id in st.dist && st.settled[i].dist == st.dist[st.settled[i].id])
      && (forall i, j :: 0 <= i < j < |st.settled| ==> st.settled[i].id != st.settled[j].id)
      && |st.settled| == |st.dist|
      && |st.popped| == st.pushes <= 1 + |LinksFrom(g, g.Keys)|
  {
    var st := Finished(g, s);
    FinishedInv(g, s);
    SearchKeepsTally(g, s, SearchRun(g, s), |SearchRun(g, s)| - 1);
    SubsetIsNoLarger(LinksFrom(g, st.visited), LinksFrom(g, g.Keys));
    assert st.visited == st.dist.Keys;
  }
}
