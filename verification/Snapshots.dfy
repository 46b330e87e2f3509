/** What survives when handlers interleave: `recompute` reads links and database
    under the lock but publishes its table after letting go of it. */
module Snapshots {
  import opened Options
  import opened Ordering
  import opened Graphs
  import opened ShortestPaths
  import opened Exactness
  import opened SeenCaches
  import opened LinkState

  /** Where a task is: not holding the lock, holding it, in the middle of reading,
      or done reading and on its own. */
  datatype Phase = Outside | Locked | HasLinks(links: Links) | HasBoth(links: Links, lsdb: Database)

  /** The fields all tasks share, the lock, and each task's phase. */
  datatype Shared = Shared(links: Links, lsdb: Database, table: Table, lock: Option<nat>, phase: map<nat, Phase>)

  /** What a handler does to the fields while it holds the lock. */
  datatype Change = SetLink(n: Id, cost: real) | DropLink(n: Id) | StoreLsp(lsp: Lsp, now: Time) | Expire(now: Time)

  datatype Step =
    | Acquire(task: nat)
    | Mutate(task: nat, change: Change)
    | Release(task: nat)
    | ReadLinks(task: nat)
    | ReadDatabase(task: nat)
    | Publish(task: nat)

  function PhaseOf(s: Shared, task: nat): Phase {
    if task in s.phase then s.phase[task] else Outside
  }

  function Changed(s: Shared, c: Change): Shared {
    match c
    case SetLink(n, cost) => s.(links := s.links[n := cost])
    case DropLink(n) => s.(links := s.links - {n})
    case StoreLsp(lsp, now) => s.(lsdb := Store(s.lsdb, lsp, now).lsdb)
    case Expire(now) => s.(lsdb := Unexpired(s.lsdb, now))
  }

  predicate Enabled(s: Shared, step: Step) {
    var phase := PhaseOf(s, step.task);
    match step
    case Acquire(_) => s.lock.None? && phase == Outside
    case Mutate(t, _) => s.lock == Some(t) && phase == Locked
    case Release(t) => s.lock == Some(t) && phase == Locked
    case ReadLinks(t) => s.lock == Some(t) && phase == Locked
    case ReadDatabase(t) => s.lock == Some(t) && phase.HasLinks?
    case Publish(_) => phase.HasBoth?
  }

  /** One step of one task; a step that is not enabled changes nothing. */
  ghost function Apply(self: Id, s: Shared, step: Step): Shared {
    if !Enabled(s, step) then s
    else
      var t, phase := step.task, PhaseOf(s, step.task);
      match step
      case Acquire(_) => s.(lock := Some(t), phase := s.phase[t := Locked])
      case Mutate(_, c) => Changed(s, c)
      case Release(_) => s.(lock := None, phase := s.phase[t := Outside])
      case ReadLinks(_) => s.(phase := s.phase[t := HasLinks(s.links)])
      case ReadDatabase(_) => s.(lock := None, phase := s.phase[t := HasBoth(phase.links, s.lsdb)])
      case Publish(_) => s.(table := TableFor(self, phase.links, phase.lsdb), phase := s.phase[t := Outside])
  }

  const START: Shared := Shared(map[], map[], map[], None, map[])

  ghost function From(self: Id, s: Shared, steps: seq<Step>): Shared {
    if steps == [] then s
    else Apply(self, From(self, s, steps[..|steps| - 1]), steps[|steps| - 1])
  }

  ghost function After(self: Id, steps: seq<Step>): Shared {
    From(self, START, steps)
  }

  /** The run passed through this pair of links and database. */
  ghost predicate Passed(self: Id, steps: seq<Step>, links: Links, lsdb: Database) {
    exists i :: 0 <= i <= |steps| && After(self, steps[..i]).links == links && After(self, steps[..i]).lsdb == lsdb
  }

  /** Only the holder of the lock is inside; half a reading is of the present, a
      whole one of some moment. */
  ghost predicate TaskOk(self: Id, steps: seq<Step>, task: nat) {
    var s := After(self, steps);
    match PhaseOf(s, task)
    case Outside => s.lock != Some(task)
    case Locked => s.lock == Some(task)
    case HasLinks(links) => s.lock == Some(task) && links == s.links
    case HasBoth(links, lsdb) => s.lock != Some(task) && Passed(self, steps, links, lsdb)
  }

  ghost predicate Published(self: Id, steps: seq<Step>, table: Table) {
    exists links, lsdb :: Passed(self, steps, links, lsdb) && table == TableFor(self, links, lsdb)
  }

  lemma PassedStays(self: Id, steps: seq<Step>, step: Step, links: Links, lsdb: Database)
    requires Passed(self, steps, links, lsdb)
    ensures Passed(self, steps + [step], links, lsdb)
  {
    var i :| 0 <= i <= |steps| && After(self, steps[..i]).links == links && After(self, steps[..i]).lsdb == lsdb;
    assert (steps + [step])[..i] == steps[..i];
  }

  lemma PresentIsPassed(self: Id, steps: seq<Step>)
    ensures Passed(self, steps, After(self, steps).links, After(self, steps).lsdb)
  {
    assert steps[..|steps|] == steps;
  }

  lemma TaskStays(self: Id, steps: seq<Step>, step: Step, task: nat)
    requires TaskOk(self, steps, task) && TaskOk(self, steps, step.task)
    ensures TaskOk(self, steps + [step], task)
  {
    hide TableFor, Passed, Store, Unexpired;
    var all := steps + [step];
    assert all[..|steps|] == steps;
    var s := After(self, steps);
    assert After(self, all) == Apply(self, s, step);
    PresentIsPassed(self, steps);
    PassedStays(self, steps, step, s.links, s.lsdb);
    match PhaseOf(s, task)
    case HasBoth(links, lsdb) => PassedStays(self, steps, step, links, lsdb);
    case _ =>
  }

  lemma {:induction false} TasksAreOk(self: Id, steps: seq<Step>, task: nat)
    ensures TaskOk(self, steps, task)
  {
    if steps != [] {
      var init, last := steps[..|steps| - 1], steps[|steps| - 1];
      hide TaskOk;
      TasksAreOk(self, init, task);
      TasksAreOk(self, init, last.task);
      TaskStays(self, init, last, task);
      assert steps == init + [last];
    }
  }

  /** Snapshot consistency: however the tasks' steps interleave, every table ever
      published is the one that a single state the run passed through gives,
      links and database of the same moment. */
  lemma {:induction false} EveryTableIsOneSnapshot(self: Id, steps: seq<Step>)
    ensures Published(self, steps, After(self, steps).table)
  {
    hide TableFor, Passed;
    if steps == [] {
      InitialIsConsistent(self);
      PresentIsPassed(self, steps);
    } else {
      var init, last := steps[..|steps| - 1], steps[|steps| - 1];
      EveryTableIsOneSnapshot(self, init);
      TasksAreOk(self, init, last.task);
      var s := After(self, init);
      var links, lsdb :| Passed(self, init, links, lsdb) && s.table == TableFor(self, links, lsdb);
      assert steps == init + [last];
      PassedStays(self, init, last, links, lsdb);
      if last.Publish? && Enabled(s, last) {
        var phase := PhaseOf(s, last.task);
        PassedStays(self, init, last, phase.links, phase.lsdb);
      }
    }
  }

  // ------------------------------------------------------------- staleness

  ghost predicate AllOutside(s: Shared) {
    s.lock.None? && forall t :: PhaseOf(s, t) == Outside
  }

  lemma {:induction false} FromConcat(self: Id, s: Shared, a: seq<Step>, b: seq<Step>)
    ensures From(self, s, a + b) == From(self, From(self, s, a), b)
    decreases |b|
  {
    if b == [] {
      assert a + b == a;
    } else {
      FromConcat(self, s, a, b[..|b| - 1]);
      assert (a + b)[..|a + b| - 1] == a + b[..|b| - 1];
    }
  }

  lemma FromThree(self: Id, s: Shared, a: Step, b: Step, c: Step)
    ensures From(self, s, [a, b, c]) == Apply(self, Apply(self, Apply(self, s, a), b), c)
  {
    hide Apply;
    FromOne(self, s, a);
    assert [a, b][..1] == [a] && From(self, s, [a, b]) == Apply(self, From(self, s, [a]), b);
    assert [a, b, c][..2] == [a, b];
  }

  /** A recompute by `task`, without its last step. */
  function Reading(task: nat): seq<Step> {
    [Acquire(task), ReadLinks(task), ReadDatabase(task)]
  }

  function Changing(task: nat, c: Change): seq<Step> {
    [Acquire(task), Mutate(task, c), Release(task)]
  }

  ghost predicate Free(s: Shared, task: nat) {
    s.lock.None? && PhaseOf(s, task) == Outside
  }

  lemma ReadingReads(self: Id, s: Shared, task: nat)
    requires Free(s, task)
    ensures From(self, s, Reading(task)) == s.(phase := s.phase[task := HasBoth(s.links, s.lsdb)])
  {
    FromThree(self, s, Acquire(task), ReadLinks(task), ReadDatabase(task));
    hide From;
    assert s.phase[task := Locked][task := HasLinks(s.links)][task := HasBoth(s.links, s.lsdb)]
           == s.phase[task := HasBoth(s.links, s.lsdb)];
  }

  lemma ChangingChanges(self: Id, s: Shared, task: nat, c: Change)
    requires Free(s, task)
    ensures From(self, s, Changing(task, c)) == Changed(s, c).(phase := s.phase[task := Outside])
  {
    hide Store, Unexpired;
    FromThree(self, s, Acquire(task), Mutate(task, c), Release(task));
    hide From;
    assert s.phase[task := Locked][task := Outside] == s.phase[task := Outside];
  }

  /** Task 0 reads, task 1 changes something and recomputes, task 0 publishes. */
  function Straggle(c: Change): seq<Step> {
    Reading(0) + (Changing(1, c) + (Reading(1) + [Publish(1)])) + [Publish(0)]
  }

  /** Interleaving costs currency: from any state at rest, after any change, a
      slow task can publish last what it read first, and the old table stays
      although no task is at work. */
  lemma StragglerWins(self: Id, s: Shared, c: Change)
    requires AllOutside(s)
    ensures var r := From(self, s, Straggle(c));
      && AllOutside(r) && r.links == Changed(s, c).links && r.lsdb == Changed(s, c).lsdb
      && r.table == TableFor(self, s.links, s.lsdb)
  {
    hide TableFor, From, Store, Unexpired, Reading, Changing;
    assert PhaseOf(s, 0) == Outside && PhaseOf(s, 1) == Outside;
    FromConcat(self, s, Reading(0) + (Changing(1, c) + (Reading(1) + [Publish(1)])), [Publish(0)]);
    FromConcat(self, s, Reading(0), Changing(1, c) + (Reading(1) + [Publish(1)]));
    ReadingReads(self, s, 0);
    var s1 := From(self, s, Reading(0));
    FromConcat(self, s1, Changing(1, c), Reading(1) + [Publish(1)]);
    ChangingChanges(self, s1, 1, c);
    var s2 := From(self, s1, Changing(1, c));
    FromConcat(self, s2, Reading(1), [Publish(1)]);
    ReadingReads(self, s2, 1);
    var s3 := From(self, s2, Reading(1));
    FromOne(self, s3, Publish(1));
    FromOne(self, Apply(self, s3, Publish(1)), Publish(0));
    var r := From(self, s, Straggle(c));
    forall t ensures PhaseOf(r, t) == Outside { assert PhaseOf(s, t) == Outside; }
  }

  lemma FromOne(self: Id, s: Shared, step: Step)
    ensures From(self, s, [step]) == Apply(self, s, step)
  {
    hide Apply;
    assert [step][..0] == [];
  }

  /** So a run can end with no task at work and a table that misses a link. */
  lemma StaleTableIsPossible(self: Id, n: Id)
    requires n != self
    ensures exists steps :: Stale(self, After(self, steps))
  {
    var steps := Straggle(SetLink(n, 1.0));
    StragglerWins(self, START, SetLink(n, 1.0));
    var s := After(self, steps);
    InitialIsConsistent(self);
    LinkIsRouted(self, n);
    assert Stale(self, s);
  }

  ghost predicate Stale(self: Id, s: Shared) {
    AllOutside(s) && s.table != TableFor(self, s.links, s.lsdb)
  }

  lemma LinkIsRouted(self: Id, n: Id)
    requires n != self
    ensures n in TableFor(self, map[n := 1.0], map[])
  {
    var links: Links := map[n := 1.0];
    var edges := EdgesOf(self, links, map[]);
    var g := GraphOf(edges);
    GraphOfDescribes(edges);
    var e := Edge(self, n, 1.0);
    assert n in links && e == Edge(self, n, links[n]);
    assert e in LinkEdges(self, links) && e in edges;
    assert HasLink(g, e.from, e.to) && Edge(self, n, g[self][n]) in edges;
    assert [self, n][..1] == [self];
    assert WalkBetween(g, self, [self, n], n);
    DijkstraIsExact(g, self);
  }

  // --------------------------------------------------- currency regained

  ghost predicate Untouched(steps: seq<Step>) {
    forall i :: 0 <= i < |steps| ==> !steps[i].Mutate?
  }

  /** How many tables a run publishes. */
  ghost function Publications(self: Id, s: Shared, steps: seq<Step>): nat {
    if steps == [] then 0
    else
      var init, last := steps[..|steps| - 1], steps[|steps| - 1];
      Publications(self, s, init) + if last.Publish? && Enabled(From(self, s, init), last) then 1 else 0
  }

  /** A reading under way is of the present; a finished one gives the present table,
      if perhaps not from the present state. */
  ghost predicate Harmless(self: Id, s: Shared, t: nat) {
    match PhaseOf(s, t)
    case HasLinks(links) => links == s.links
    case HasBoth(links, lsdb) => TableFor(self, links, lsdb) == TableFor(self, s.links, s.lsdb)
    case _ => true
  }

  /** While nothing changes and nobody holds a stale reading, nobody comes to hold
      one, and every table published is the current one. */
  lemma {:induction false} RecomputeRestoresCurrency(self: Id, s: Shared, steps: seq<Step>)
    requires (forall t :: Harmless(self, s, t)) && Untouched(steps)
    ensures var r := From(self, s, steps);
      && r.links == s.links && r.lsdb == s.lsdb
      && (forall t :: Harmless(self, r, t))
      && r.table == if Publications(self, s, steps) > 0 then TableFor(self, s.links, s.lsdb) else s.table
  {
    hide TableFor;
    if steps != [] {
      var init, last := steps[..|steps| - 1], steps[|steps| - 1];
      RecomputeRestoresCurrency(self, s, init);
      var r := From(self, s, init);
      assert Harmless(self, r, last.task);
      forall t ensures Harmless(self, Apply(self, r, last), t) { assert Harmless(self, r, t); }
    }
  }

  /** The last step publishes a table that is not the one the fields now give. */
  ghost predicate PublishesStale(self: Id, s: Shared, steps: seq<Step>) {
    && steps != [] && steps[|steps| - 1].Publish?
    && Enabled(From(self, s, steps[..|steps| - 1]), steps[|steps| - 1])
    && var r := From(self, s, steps); r.table != TableFor(self, r.links, r.lsdb)
  }

  /** Someone has read what gives another table than the present state. */
  ghost predicate Straggles(self: Id, s: Shared, t: nat) {
    PhaseOf(s, t).HasBoth? &&
      TableFor(self, PhaseOf(s, t).links, PhaseOf(s, t).lsdb) != TableFor(self, s.links, s.lsdb)
  }

  ghost predicate StaleAhead(self: Id, s: Shared) {
    exists steps :: Untouched(steps) && PublishesStale(self, s, steps)
  }

  /** Exactly when currency is in danger: after any run, even if nothing changes any
      more, some continuation still publishes a table that is not current if and
      only if some task now holds a finished reading that gives another table. */
  lemma StaleAheadIffStraggler(self: Id, past: seq<Step>)
    ensures var s := After(self, past); StaleAhead(self, s) <==> exists t :: Straggles(self, s, t)
  {
    hide TableFor;
    var s := After(self, past);
    if t :| Straggles(self, s, t) {
      var steps := [Publish(t)];
      FromOne(self, s, Publish(t));
      assert steps[..0] == [] && From(self, s, steps[..0]) == s;
      assert PublishesStale(self, s, steps);
    } else {
      forall t ensures Harmless(self, s, t) {
        TasksAreOk(self, past, t);
        assert !Straggles(self, s, t);
      }
      forall steps | Untouched(steps) ensures !PublishesStale(self, s, steps) { NoStalePublish(self, s, steps); }
    }
  }

  lemma NoStalePublish(self: Id, s: Shared, steps: seq<Step>)
    requires (forall t :: Harmless(self, s, t)) && Untouched(steps)
    ensures !PublishesStale(self, s, steps)
  {
    hide TableFor;
    RecomputeRestoresCurrency(self, s, steps);
  }

  // ------------------------------------------------- one task at a time

  /** What a handler does in the terms of this module, if it is left alone: the change
      under the lock, and the recompute that follows if there is one. */
  function HandlerSteps(self: Id, st: State, ev: Event, task: nat): seq<Step> {
    match ev.input
    case LinkUp(n, cost) => Changing(task, SetLink(n, cost)) + Recomputing(task)
    case LinkDown(n) => Changing(task, DropLink(n)) + if n in st.links then Recomputing(task) else []
    case Received(p) =>
      if Look(st.seen, p.msgId, ev.now, SEEN_TTL).1 || p.lsp.None? || p.lsp.value.origin == "" || p.lsp.value.origin == self then []
      else
        Changing(task, StoreLsp(p.lsp.value, ev.now))
        + if Store(st.lsdb, p.lsp.value, ev.now).accepted then Recomputing(task) else []
    case Refresh => []
    case Ageing => Changing(task, Expire(ev.now)) + if Unexpired(st.lsdb, ev.now) != st.lsdb then Recomputing(task) else []
  }

  function Recomputing(task: nat): seq<Step> {
    Reading(task) + [Publish(task)]
  }

  ghost predicate Mirrors(s: Shared, st: State) {
    s.links == st.links && s.lsdb == st.lsdb && s.table == st.table
  }

  lemma RecomputingPublishes(self: Id, s: Shared, task: nat)
    requires Free(s, task)
    ensures var r := From(self, s, Recomputing(task));
      Free(r, task) && r.links == s.links && r.lsdb == s.lsdb && r.table == TableFor(self, s.links, s.lsdb)
  {
    hide TableFor, Reading, From;
    FromConcat(self, s, Reading(task), [Publish(task)]);
    ReadingReads(self, s, task);
    FromOne(self, From(self, s, Reading(task)), Publish(task));
  }

  lemma ChangingThen(self: Id, s: Shared, task: nat, c: Change, recompute: bool)
    requires Free(s, task)
    ensures var r := From(self, s, Changing(task, c) + if recompute then Recomputing(task) else []);
      && Free(r, task) && r.links == Changed(s, c).links && r.lsdb == Changed(s, c).lsdb
      && r.table == if recompute then TableFor(self, r.links, r.lsdb) else s.table
  {
    hide TableFor, Changing, Recomputing, From, Store, Unexpired;
    ChangingChanges(self, s, task, c);
    var s1 := From(self, s, Changing(task, c));
    if recompute {
      FromConcat(self, s, Changing(task, c), Recomputing(task));
      RecomputingPublishes(self, s1, task);
    } else {
      assert Changing(task, c) + [] == Changing(task, c);
    }
  }

  /** A handler whose steps nobody interrupts does what the link-state machine says. */
  lemma UninterruptedIsHandle(self: Id, s: Shared, st: State, ev: Event, task: nat)
    requires Free(s, task) && Mirrors(s, st)
    ensures var r := From(self, s, HandlerSteps(self, st, ev, task));
      Free(r, task) && Mirrors(r, Handle(self, st, ev).0)
  {
    hide TableFor, Changing, Recomputing, From, Look, Store, Unexpired;
    match ev.input
    case LinkUp(n, cost) => ChangingThen(self, s, task, SetLink(n, cost), true);
    case LinkDown(n) =>
      ChangingThen(self, s, task, DropLink(n), n in st.links);
      assert n !in st.links ==> st.links - {n} == st.links;
    case Received(p) =>
      NoSteps(self, s);
      if p.lsp.Some? {
        ChangingThen(self, s, task, StoreLsp(p.lsp.value, ev.now), Store(st.lsdb, p.lsp.value, ev.now).accepted);
      }
    case Refresh => NoSteps(self, s);
    case Ageing => ChangingThen(self, s, task, Expire(ev.now), Unexpired(st.lsdb, ev.now) != st.lsdb);
  }

  lemma NoSteps(self: Id, s: Shared)
    ensures From(self, s, []) == s
  {
  }

  /** The handlers of a run one after the other. */
  ghost function Serial(self: Id, events: seq<Event>, task: nat): seq<Step> {
    if events == [] then []
    else
      var init := events[..|events| - 1];
      Serial(self, init, task) + HandlerSteps(self, Run(self, init), events[|events| - 1], task)
  }

  /** Tasks that take turns refine the machine: links, database and published table are
      those of its run. */
  lemma {:induction false} SerialIsTheMachine(self: Id, events: seq<Event>, task: nat)
    ensures Free(After(self, Serial(self, events, task)), task)
    ensures Mirrors(After(self, Serial(self, events, task)), Run(self, events))
  {
    hide HandlerSteps, Handle;
    if events == [] {
      NoSteps(self, START);
    } else {
      var init, last := events[..|events| - 1], events[|events| - 1];
      SerialIsTheMachine(self, init, task);
      FromConcat(self, START, Serial(self, init, task), HandlerSteps(self, Run(self, init), last, task));
      UninterruptedIsHandle(self, After(self, Serial(self, init, task)), Run(self, init), last, task);
    }
  }
}
