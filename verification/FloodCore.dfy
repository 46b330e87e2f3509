/** The flood of one packet over a static live graph, whatever it carries: each
    node handles the first copy it gets, passes copies on with one unit of budget
    less, and ignores later ones. `level` records how many relays lie between
    the origin and each node that has handled the packet. */
module FloodCore {
  import opened Ordering
  import opened Exactness

  type LiveGraph = map<Id, set<Id>>
  type Levels = map<Id, nat>

  datatype Copy = Copy(via: Id, to: Id, ttl: int)

  /** Live neighbours are nodes, and nobody is its own neighbour. */
  ghost predicate WellFormed(live: LiveGraph) {
    forall u {:trigger live[u]} :: u in live ==> live[u] <= live.Keys && u !in live[u]
  }

  /** The nodes at most `k` hops from `origin`. */
  ghost function Within(live: LiveGraph, origin: Id, k: nat): set<Id> {
    if k == 0 then {origin}
    else
      var near := Within(live, origin, k - 1);
      near + set u, w | u in near && u in live && w in live[u] :: w
  }

  lemma {:induction false} WithinGrows(live: LiveGraph, origin: Id, j: nat, k: nat)
    requires j <= k
    ensures Within(live, origin, j) <= Within(live, origin, k)
    decreases k
  {
    if j < k { WithinGrows(live, origin, j, k - 1); }
  }

  ghost predicate HasLevel(level: Levels, k: int) {
    exists u :: u in level && level[u] == k
  }

  /** A node below the origin got the packet from a node one level up. */
  ghost predicate Parented(level: Levels, v: Id) {
    v in level && level[v] > 0 ==> HasLevel(level, level[v] - 1)
  }

  /** Levels start at the origin and leave no gap, and every copy in flight comes
      from a node that handled the packet, with the budget its level leaves. */
  ghost predicate Safe(live: LiveGraph, origin: Id, budget: nat, level: Levels, copies: set<Copy>) {
    && origin in level && level.Keys <= live.Keys
    && (forall v :: v in level ==> level[v] <= budget && v in Within(live, origin, level[v]))
    && (forall v :: Parented(level, v))
    && (forall c :: c in copies ==>
          c.via in level && c.to in live[c.via] && c.ttl == budget - level[c.via] && c.ttl >= 1)
  }

  ghost predicate Incoming(copies: set<Copy>, w: Id) {
    exists c :: c in copies && c.to == w
  }

  ghost predicate Done(level: Levels, copies: set<Copy>, w: Id) {
    w in level || Incoming(copies, w)
  }

  /** If `u` passed the packet on, its neighbour `w` has handled it or has a copy
      coming. Nodes in `sinks` keep the packet to themselves. */
  ghost predicate LinkCovered(live: LiveGraph, budget: nat, sinks: set<Id>, level: Levels, copies: set<Copy>,
                              u: Id, w: Id)
  {
    u in level && u !in sinks && level[u] < budget && u in live && w in live[u] ==> Done(level, copies, w)
  }

  ghost predicate Covered(live: LiveGraph, budget: nat, sinks: set<Id>, level: Levels, copies: set<Copy>) {
    forall u, w :: LinkCovered(live, budget, sinks, level, copies, u, w)
  }

  /** What a node that handles copy `c` sends on. */
  ghost function PassedOn(live: LiveGraph, c: Copy): set<Copy> {
    if c.ttl - 1 <= 0 || c.to !in live then {}
    else set w | w in live[c.to] && w != c.via :: Copy(c.to, w, c.ttl - 1)
  }

  /** What the origin sends. */
  ghost function Started(live: LiveGraph, origin: Id, budget: nat): set<Copy> {
    if origin !in live || budget == 0 then {} else set w | w in live[origin] :: Copy(origin, w, budget)
  }

  lemma StartIsSafe(live: LiveGraph, origin: Id, budget: nat, sinks: set<Id>)
    requires WellFormed(live) && origin in live
    ensures Safe(live, origin, budget, map[origin := 0], Started(live, origin, budget))
    ensures Covered(live, budget, sinks, map[origin := 0], Started(live, origin, budget))
  {
    var level: Levels, copies := map[origin := 0], Started(live, origin, budget);
    forall u, w ensures LinkCovered(live, budget, sinks, level, copies, u, w) {
      if u == origin && w in live[u] && budget > 0 { assert Copy(origin, w, budget) in copies; }
    }
  }

  // ------------------------------------------------------ handling a copy

  /** A copy for a node that has handled the packet is ignored. */
  lemma RepeatKeepsSafe(live: LiveGraph, origin: Id, budget: nat, level: Levels, copies: set<Copy>, after: set<Copy>)
    requires Safe(live, origin, budget, level, copies) && after <= copies
    ensures Safe(live, origin, budget, level, after)
  {
  }

  lemma StillIncoming(copies: set<Copy>, after: set<Copy>, c: Copy, w: Id)
    requires copies - {c} <= after && w != c.to
    ensures Incoming(copies, w) ==> Incoming(after, w)
  {
    if Incoming(copies, w) {
      var x :| x in copies && x.to == w;
      assert x in after;
    }
  }

  lemma RepeatKeepsCovered(live: LiveGraph, budget: nat, sinks: set<Id>, level: Levels,
                           copies: set<Copy>, after: set<Copy>, c: Copy)
    requires Covered(live, budget, sinks, level, copies) && copies - {c} <= after && c.to in level
    ensures Covered(live, budget, sinks, level, after)
  {
    forall u, w ensures LinkCovered(live, budget, sinks, level, after, u, w) {
      assert LinkCovered(live, budget, sinks, level, copies, u, w);
      if w !in level { StillIncoming(copies, after, c, w); }
    }
  }

  /** The levels once the copy `c` has been handled by a new node. */
  function Handled(level: Levels, c: Copy): Levels
    requires c.via in level
  {
    level[c.to := level[c.via] + 1]
  }

  lemma FirstKeepsSafe(live: LiveGraph, origin: Id, budget: nat, level: Levels,
                       copies: set<Copy>, after: set<Copy>, c: Copy)
    requires WellFormed(live) && Safe(live, origin, budget, level, copies) && c in copies && c.to !in level
    requires after <= copies + PassedOn(live, c)
    ensures Safe(live, origin, budget, Handled(level, c), after)
  {
    var level' := Handled(level, c);
    assert live[c.via] <= live.Keys && c.to in live[c.via];
    assert c.to in Within(live, origin, level'[c.to]);
    forall v ensures Parented(level', v) { HandledParented(level, c, v); }
  }

  lemma HandledParented(level: Levels, c: Copy, v: Id)
    requires c.via in level && c.to !in level && Parented(level, v)
    ensures Parented(Handled(level, c), v)
  {
    var level' := Handled(level, c);
    if v == c.to {
      assert c.via in level' && level'[c.via] == level'[v] - 1;
    } else if v in level && level[v] > 0 {
      var u :| u in level && level[u] == level[v] - 1;
      assert u in level' && level'[u] == level'[v] - 1;
    }
  }

  lemma FirstKeepsCovered(live: LiveGraph, origin: Id, budget: nat, sinks: set<Id>, level: Levels,
                          copies: set<Copy>, after: set<Copy>, c: Copy)
    requires Safe(live, origin, budget, level, copies) && Covered(live, budget, sinks, level, copies)
    requires c in copies && c.to !in level && copies - {c} <= after
    requires c.to !in sinks ==> PassedOn(live, c) <= after
    ensures Covered(live, budget, sinks, Handled(level, c), after)
  {
    var level' := Handled(level, c);
    forall u, w ensures LinkCovered(live, budget, sinks, level', after, u, w) {
      if u == c.to {
        if u !in sinks && level'[u] < budget && u in live && w in live[u] && w != c.via {
          assert Copy(u, w, c.ttl - 1) in PassedOn(live, c);
        }
      } else {
        assert LinkCovered(live, budget, sinks, level, copies, u, w);
        if w != c.to { StillIncoming(copies, after, c, w); }
      }
    }
  }

  // ------------------------------------------------------------- counting

  /** The live links out of `us`. */
  ghost function LinksOf(live: LiveGraph, us: set<Id>): set<(Id, Id)> {
    set u, w | u in us && u in live && w in live[u] :: (u, w)
  }

  lemma LinksOfOneMore(live: LiveGraph, us: set<Id>, u: Id)
    requires u !in us && u in live
    ensures |LinksOf(live, us + {u})| == |LinksOf(live, us)| + |live[u]|
  {
    var own := set w | w in live[u] :: (u, w);
    PairsCount(u, live[u]);
    assert LinksOf(live, us + {u}) == LinksOf(live, us) + own;
    assert LinksOf(live, us) !! own;
  }

  // ------------------------------------------------------------- coverage

  /** A live path whose nodes before the last are not sinks. */
  ghost predicate OpenPath(live: LiveGraph, sinks: set<Id>, p: seq<Id>) {
    p != [] && (|p| > 1 ==>
      && OpenPath(live, sinks, p[..|p| - 1])
      && p[|p| - 2] in live && p[|p| - 2] !in sinks && p[|p| - 1] in live[p[|p| - 2]])
  }

  ghost predicate Reachable(live: LiveGraph, sinks: set<Id>, s: Id, v: Id) {
    exists p :: OpenPath(live, sinks, p) && p[0] == s && p[|p| - 1] == v
  }

  lemma {:induction false} LevelsBelow(level: Levels, v: Id, k: nat)
    requires forall x :: Parented(level, x)
    requires v in level && k <= level[v]
    ensures HasLevel(level, k)
    decreases level[v]
  {
    if k < level[v] {
      assert Parented(level, v);
      var u :| u in level && level[u] == level[v] - 1;
      LevelsBelow(level, u, k);
    }
  }

  ghost function UpTo(level: Levels, k: int): set<Id> {
    set u | u in level && level[u] <= k
  }

  /** Nodes on different levels are different nodes. */
  lemma {:induction false} LevelsCountNodes(level: Levels, k: nat)
    requires forall i: nat :: i <= k ==> HasLevel(level, i)
    ensures |UpTo(level, k)| >= k + 1
  {
    assert HasLevel(level, k);
    var u :| u in level && level[u] == k;
    assert UpTo(level, k) >= UpTo(level, k - 1) + {u};
    SubsetIsNoLarger(UpTo(level, k - 1) + {u}, UpTo(level, k));
    if k > 0 { LevelsCountNodes(level, k - 1); }
  }

  /** A node at level `k` proves that at least `k + 1` nodes have handled the
      packet; so on few enough nodes a spent budget means everyone has. */
  lemma SpentBudgetMeansEveryone(live: LiveGraph, origin: Id, budget: nat, level: Levels, copies: set<Copy>, v: Id)
    requires Safe(live, origin, budget, level, copies) && v in level && level[v] == budget
    requires |live.Keys| <= budget + 1
    ensures level.Keys == live.Keys
  {
    forall i: nat | i <= budget ensures HasLevel(level, i) { LevelsBelow(level, v, i); }
    LevelsCountNodes(level, budget);
    SubsetIsNoLarger(UpTo(level, budget), level.Keys);
    if level.Keys != live.Keys {
      var x :| x in live.Keys && x !in level.Keys;
      assert level.Keys <= live.Keys - {x};
      SubsetIsNoLarger(level.Keys, live.Keys - {x});
    }
  }

  /** Once no copy is in flight, on at most `budget + 1` nodes every node that can
      be reached without passing through a sink has handled the packet. */
  lemma QuietMeansReached(live: LiveGraph, origin: Id, budget: nat, sinks: set<Id>, level: Levels, v: Id)
    requires WellFormed(live) && |live.Keys| <= budget + 1
    requires Safe(live, origin, budget, level, {}) && Covered(live, budget, sinks, level, {})
    requires Reachable(live, sinks, origin, v)
    ensures v in level
  {
    var p :| OpenPath(live, sinks, p) && p[0] == origin && p[|p| - 1] == v;
    if u :| u in level && level[u] == budget {
      SpentBudgetMeansEveryone(live, origin, budget, level, {}, u);
      PathStaysInside(live, sinks, level.Keys, p);
    } else {
      forall u, w | u in level && u !in sinks && u in live && w in live[u] ensures w in level {
        assert LinkCovered(live, budget, sinks, level, {}, u, w);
      }
      PathStaysInside(live, sinks, level.Keys, p);
    }
  }

  lemma {:induction false} PathStaysInside(live: LiveGraph, sinks: set<Id>, inside: set<Id>, p: seq<Id>)
    requires OpenPath(live, sinks, p) && p[0] in inside
    requires forall u, w :: u in inside && u !in sinks && u in live && w in live[u] ==> w in inside
    ensures p[|p| - 1] in inside
    decreases |p|
  {
    if |p| > 1 { PathStaysInside(live, sinks, inside, p[..|p| - 1]); }
  }

  /** A live path to `v` can be cut short at its first visit to `v`. */
  lemma {:induction false} CutAtSink(live: LiveGraph, s: Id, v: Id, p: seq<Id>)
    requires OpenPath(live, {}, p) && p[0] == s && p[|p| - 1] == v
    ensures Reachable(live, {v}, s, v)
    decreases |p|
  {
    if i :| 0 <= i < |p| - 1 && p[i] == v {
      PrefixOfPath(live, {}, p, i + 1);
      CutAtSink(live, s, v, p[..i + 1]);
    } else {
      AvoidingPath(live, v, p);
    }
  }

  lemma {:induction false} PrefixOfPath(live: LiveGraph, sinks: set<Id>, p: seq<Id>, n: nat)
    requires OpenPath(live, sinks, p) && 0 < n <= |p|
    ensures OpenPath(live, sinks, p[..n])
    decreases |p|
  {
    if n == |p| {
      assert p[..n] == p;
    } else {
      PrefixOfPath(live, sinks, p[..|p| - 1], n);
      assert p[..|p| - 1][..n] == p[..n];
    }
  }

  lemma {:induction false} AvoidingPath(live: LiveGraph, v: Id, p: seq<Id>)
    requires OpenPath(live, {}, p) && forall i :: 0 <= i < |p| - 1 ==> p[i] != v
    ensures OpenPath(live, {v}, p)
    decreases |p|
  {
    if |p| > 1 {
      AvoidingPath(live, v, p[..|p| - 1]);
      assert p[|p| - 2] != v;
    }
  }
}
