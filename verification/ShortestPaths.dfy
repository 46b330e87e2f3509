/** Dijkstra's search with a lazily cleaned heap, as a deterministic function of
    (graph, source), and the imperative search that computes it. */
module ShortestPaths {
  import opened Ordering
  import opened Graphs
  import opened NodeQueue

  datatype Route = Route(dest: Id, nextHop: Id, cost: real)
  type Table = map<Id, Route>

  /** The local variables of the search, and its history: the entries popped so
      far, those among them that were acted upon, and how many were queued. */
  datatype Search = Search(
    dist: map<Id, real>,
    firstHop: map<Id, Id>,
    visited: set<Id>,
    queue: seq<Queued>,
    popped: seq<Queued>,
    settled: seq<Queued>,
    pushes: nat)

  function OutLinks(g: Graph, u: Id): Links {
    if u in g then g[u] else map[]
  }

  function Started(source: Id): Search {
    Search(map[source := 0.0], map[], {}, Push([], Queued(source, 0.0)), [], [], 1)
  }

  function FirstHopVia(source: Id, cur: Id, next: Id, firstHop: map<Id, Id>): Id {
    if cur == source then next
    else if cur in firstHop then firstHop[cur] else ""
  }

  /** One pass of the inner loop: try to reach `next` through `cur`. */
  function Relax(g: Graph, source: Id, cur: Queued, next: Id, st: Search): Search
    requires HasLink(g, cur.id, next)
  {
    var cost := g[cur.id][next];
    var alt := cur.dist + cost;
    if cost < 0.0 || (next in st.dist && alt >= st.dist[next]) then st
    else st.(
      dist := st.dist[next := alt],
      firstHop := st.firstHop[next := FirstHopVia(source, cur.id, next, st.firstHop)],
      queue := Push(st.queue, Queued(next, alt)),
      pushes := st.pushes + 1)
  }

  ghost function RelaxAll(g: Graph, source: Id, cur: Queued, ns: seq<Id>, st: Search): Search
    requires forall n :: n in ns ==> HasLink(g, cur.id, n)
  {
    if ns == [] then st else RelaxAll(g, source, cur, ns[1..], Relax(g, source, cur, ns[0], st))
  }

  ghost function Neighbours(g: Graph, u: Id): (ns: seq<Id>)
    ensures Elements(ns) == OutLinks(g, u).Keys
    ensures forall n :: n in ns ==> HasLink(g, u, n)
  {
    var ns := SortedIds(OutLinks(g, u).Keys);
    assert forall n :: n in ns ==> n in Elements(ns);
    ns
  }

  /** One pass of the outer loop: pop an entry and act on it unless its node was
      already visited. */
  ghost function Step(g: Graph, source: Id, st: Search): Search
    requires st.queue != []
  {
    var (cur, rest) := Pop(st.queue);
    if cur.id in st.visited then Skip(st, cur, rest)
    else RelaxAll(g, source, cur, Neighbours(g, cur.id), Visit(st, cur, rest))
  }

  function Skip(st: Search, cur: Queued, rest: seq<Queued>): Search {
    st.(queue := rest, popped := st.popped + [cur])
  }

  function Visit(st: Search, cur: Queued, rest: seq<Queued>): Search {
    Skip(st, cur, rest).(visited := st.visited + {cur.id}, settled := st.settled + [cur])
  }

  /** Every id the search can meet. */
  ghost function Universe(g: Graph, source: Id): set<Id> {
    {source} + g.Keys + set u, v | u in g && v in g[u] :: v
  }

  ghost predicate QueueWithin(ids: set<Id>, q: seq<Queued>) {
    forall e :: e in q ==> e.id in ids
  }

  lemma {:induction false} RelaxAllWithin(g: Graph, source: Id, cur: Queued, ns: seq<Id>, st: Search)
    requires forall n :: n in ns ==> HasLink(g, cur.id, n)
    ensures QueueWithin(Universe(g, source), st.queue) ==>
              QueueWithin(Universe(g, source), RelaxAll(g, source, cur, ns, st).queue)
    ensures RelaxAll(g, source, cur, ns, st).visited == st.visited
  {
    if ns != [] {
      var next := ns[0];
      assert HasLink(g, cur.id, next);
      PushMembers(st.queue, Queued(next, cur.dist + g[cur.id][next]));
      RelaxAllWithin(g, source, cur, ns[1..], Relax(g, source, cur, next, st));
    }
  }

  /** Each pass visits one more node, or leaves one entry fewer: the measure on
      which the loop ends. */
  lemma StepDecreases(g: Graph, source: Id, st: Search)
    requires st.queue != [] && QueueWithin(Universe(g, source), st.queue)
    ensures QueueWithin(Universe(g, source), Step(g, source, st).queue)
    ensures var left, left' := Universe(g, source) - st.visited, Universe(g, source) - Step(g, source, st).visited;
            left' < left || (left' == left && |Step(g, source, st).queue| < |st.queue|)
  {
    var (cur, rest) := Pop(st.queue);
    PopMembers(st.queue);
    if cur.id !in st.visited {
      RelaxAllWithin(g, source, cur, Neighbours(g, cur.id), Visit(st, cur, rest));
      assert cur.id in Universe(g, source) - st.visited;
    }
  }

  ghost predicate Follows(g: Graph, source: Id, a: Search, b: Search) {
    a.queue != [] && b == Step(g, source, a)
  }

  ghost predicate PassAt(g: Graph, source: Id, run: seq<Search>, i: nat)
    requires 0 < i < |run|
  {
    Follows(g, source, run[i - 1], run[i])
  }

  /** Consecutive passes of the outer loop. */
  ghost predicate Passes(g: Graph, source: Id, run: seq<Search>) {
    run != [] && forall i :: 0 < i < |run| ==> PassAt(g, source, run, i)
  }

  /** Consecutive passes, until the queue is empty. */
  ghost predicate Completes(g: Graph, source: Id, run: seq<Search>) {
    Passes(g, source, run) && run[|run| - 1].queue == []
  }

  lemma StartedWithin(source: Id)
    ensures Started(source).queue == [Queued(source, 0.0)]
  {
    assert Started(source).queue == Up([] + [Queued(source, 0.0)], 0);
  }

  /** The loop ends from every state it can be in. */
  lemma {:induction false} SearchEnds(g: Graph, source: Id, st: Search) returns (run: seq<Search>)
    requires QueueWithin(Universe(g, source), st.queue)
    ensures Completes(g, source, run) && run[0] == st
    decreases Universe(g, source) - st.visited, |st.queue|
  {
    hide Step, Universe;
    if st.queue == [] {
      run := [st];
    } else {
      StepDecreases(g, source, st);
      var rest := SearchEnds(g, source, Step(g, source, st));
      run := [st] + rest;
      PassBefore(g, source, st, rest);
      assert run[|run| - 1] == rest[|rest| - 1];
    }
  }

  lemma PassBefore(g: Graph, source: Id, st: Search, rest: seq<Search>)
    requires Passes(g, source, rest) && Follows(g, source, st, rest[0])
    ensures Passes(g, source, [st] + rest)
  {
    var run := [st] + rest;
    forall i | 0 < i < |run| ensures PassAt(g, source, run, i) {
      if i > 1 { assert PassAt(g, source, rest, i - 1); }
    }
  }

  lemma LaterPasses(g: Graph, source: Id, run: seq<Search>)
    requires Passes(g, source, run) && |run| > 1
    ensures Passes(g, source, run[1..]) && Follows(g, source, run[0], run[1])
  {
    assert PassAt(g, source, run, 1);
    var rest := run[1..];
    forall i | 0 < i < |rest| ensures PassAt(g, source, rest, i) {
      assert PassAt(g, source, run, i + 1);
    }
  }

  /** The loop is deterministic, so it ends in one state only. */
  lemma {:induction false} SearchIsDeterministic(g: Graph, source: Id, a: seq<Search>, b: seq<Search>)
    requires Completes(g, source, a) && Completes(g, source, b) && a[0] == b[0]
    ensures a[|a| - 1] == b[|b| - 1]
  {
    EndsAtOnce(g, source, a);
    EndsAtOnce(g, source, b);
    if |a| > 1 {
      LaterPasses(g, source, a);
      LaterPasses(g, source, b);
      SearchIsDeterministic(g, source, a[1..], b[1..]);
    }
  }

  lemma EndsAtOnce(g: Graph, source: Id, run: seq<Search>)
    requires Completes(g, source, run)
    ensures |run| == 1 <==> run[0].queue == []
  {
    if |run| > 1 { assert PassAt(g, source, run, 1); }
  }

  ghost predicate IsSearch(g: Graph, source: Id, run: seq<Search>) {
    Completes(g, source, run) && run[0] == Started(source)
  }

  /** The run of the search from `source`. */
  ghost function SearchRun(g: Graph, source: Id): (run: seq<Search>)
    ensures IsSearch(g, source, run)
  {
    assert exists run :: IsSearch(g, source, run) by {
      StartedWithin(source);
      var run := SearchEnds(g, source, Started(source));
      assert IsSearch(g, source, run);
    }
    var run :| IsSearch(g, source, run);
    run
  }

  ghost function Finished(g: Graph, source: Id): Search {
    SearchRun(g, source)[|SearchRun(g, source)| - 1]
  }

  ghost function Listed(st: Search, source: Id): Table {
    map v | v in st.dist && v != source && v in st.firstHop :: Route(v, st.firstHop[v], st.dist[v])
  }

  /** The routing table `Dijkstra(g, source)` returns. */
  ghost function DijkstraTable(g: Graph, source: Id): Table {
    Listed(Finished(g, source), source)
  }

  /** One pass of the inner loop. */
  method RelaxLink(g: Graph, source: Id, current: Queued, next: Id, pq: Queue,
                   dist0: map<Id, real>, firstHop0: map<Id, Id>, ghost st: Search)
    returns (dist: map<Id, real>, firstHop: map<Id, Id>)
    requires HasLink(g, current.id, next)
    requires dist0 == st.dist && firstHop0 == st.firstHop && pq.items == st.queue
    modifies pq
    ensures var done := Relax(g, source, current, next, st);
            dist == done.dist && firstHop == done.firstHop && pq.items == done.queue
  {
    dist, firstHop := dist0, firstHop0;
    var cost := g[current.id][next];
    if cost < 0.0 { return; }
    var alt := current.dist + cost;
    if next in dist && alt >= dist[next] { return; }
    dist := dist[next := alt];
    if current.id == source {
      firstHop := firstHop[next := next];
    } else {
      firstHop := firstHop[next := if current.id in firstHop then firstHop[current.id] else ""];
    }
    pq.HeapPush(Queued(next, alt));
  }

  /** The inner loop: relax every link out of the node just visited. */
  method RelaxNeighbours(g: Graph, source: Id, current: Queued, pq: Queue,
                         dist0: map<Id, real>, firstHop0: map<Id, Id>, ghost st: Search)
    returns (dist: map<Id, real>, firstHop: map<Id, Id>)
    requires dist0 == st.dist && firstHop0 == st.firstHop && pq.items == st.queue
    modifies pq
    ensures var done := RelaxAll(g, source, current, Neighbours(g, current.id), st);
            dist == done.dist && firstHop == done.firstHop && pq.items == done.queue
  {
    dist, firstHop := dist0, firstHop0;
    ghost var done := st;
    var links := if current.id in g then g[current.id] else map[];
    var neighbours := SortStrings(links.Keys);
    while neighbours != []
      invariant forall n :: n in neighbours ==> HasLink(g, current.id, n)
      invariant RelaxAll(g, source, current, neighbours, done)
             == RelaxAll(g, source, current, Neighbours(g, current.id), st)
      invariant dist == done.dist && firstHop == done.firstHop && pq.items == done.queue
      decreases |neighbours|
    {
      dist, firstHop := RelaxLink(g, source, current, neighbours[0], pq, dist, firstHop, done);
      done := Relax(g, source, current, neighbours[0], done);
      neighbours := neighbours[1..];
    }
  }

  /** One pass of the outer loop. */
  method Pass(g: Graph, source: Id, pq: Queue, dist0: map<Id, real>, firstHop0: map<Id, Id>,
              visited0: set<Id>, ghost st: Search)
    returns (dist: map<Id, real>, firstHop: map<Id, Id>, visited: set<Id>)
    requires pq.items != [] && pq.items == st.queue
    requires dist0 == st.dist && firstHop0 == st.firstHop && visited0 == st.visited
    modifies pq
    ensures var next := Step(g, source, st);
      dist == next.dist && firstHop == next.firstHop && visited == next.visited && pq.items == next.queue
  {
    dist, firstHop, visited := dist0, firstHop0, visited0;
    var current := pq.HeapPop();
    if current.id !in visited {
      visited := visited + {current.id};
      ghost var now := Visit(st, current, pq.items);
      RelaxAllWithin(g, source, current, Neighbours(g, current.id), now);
      dist, firstHop := RelaxNeighbours(g, source, current, pq, dist, firstHop, now);
    }
  }

  lemma OnePassMore(g: Graph, source: Id, run: seq<Search>)
    requires Passes(g, source, run) && run[|run| - 1].queue != []
    ensures Passes(g, source, run + [Step(g, source, run[|run| - 1])])
  {
    var more := run + [Step(g, source, run[|run| - 1])];
    forall i | 0 < i < |more| ensures PassAt(g, source, more, i) {
      if i < |run| { assert PassAt(g, source, run, i); }
    }
  }

  method Dijkstra(g: Graph, source: Id) returns (table: Table)
    ensures table == DijkstraTable(g, source)
  {
    var dist: map<Id, real>, firstHop: map<Id, Id>, visited: set<Id> := map[source := 0.0], map[], {};
    var pq := new Queue();
    pq.HeapPush(Queued(source, 0.0));
    StartedWithin(source);
    ghost var run := [Started(source)];

    while pq.items != []
      invariant fresh(pq)
      invariant Passes(g, source, run) && run[0] == Started(source)
      invariant var st := run[|run| - 1];
        dist == st.dist && firstHop == st.firstHop && visited == st.visited && pq.items == st.queue
      invariant QueueWithin(Universe(g, source), pq.items)
      decreases Universe(g, source) - visited, |pq.items|
    {
      ghost var st := run[|run| - 1];
      StepDecreases(g, source, st);
      OnePassMore(g, source, run);
      run := run + [Step(g, source, st)];
      dist, firstHop, visited := Pass(g, source, pq, dist, firstHop, visited, st);
    }
    SearchIsDeterministic(g, source, run, SearchRun(g, source));
    table := map v | v in dist && v != source && v in firstHop :: Route(v, firstHop[v], dist[v]);
  }
}
