/** How much a flood can grow if no node remembered anything: every copy is worth
    itself and all that can come of it before the hop budget is spent. */
module FloodWeights {
  import opened Ordering
  import opened FloodCore
  import opened Sums
  import Exactness

  /** The neighbours `v` passes a copy from `via` on to. */
  ghost function Onward(live: LiveGraph, v: Id, via: Id): set<Id> {
    if v in live then live[v] - {via} else {}
  }

  /** How many copies come of `c`, itself included, if every node it reaches treats
      it as new; nodes in `sinks` keep it to themselves. */
  ghost function Brood(live: LiveGraph, sinks: set<Id>, c: Copy): nat
    decreases c.ttl, 0
  {
    if c.ttl <= 1 || c.to in sinks then 1
    else 1 + Sum(multiset(Onward(live, c.to, c.via)), Heir(live, sinks, c.to, c.ttl - 1))
  }

  /** What a copy from `v` is worth, by the neighbour it goes to. */
  ghost function Heir(live: LiveGraph, sinks: set<Id>, v: Id, ttl: int): Id -> nat
    decreases ttl, 1
  {
    w => Brood(live, sinks, Copy(v, w, ttl))
  }

  /** How many copies can come of a flood in all. */
  ghost function Most(live: LiveGraph, sinks: set<Id>, origin: Id, budget: int): nat {
    Sum(multiset(Onward(live, origin, origin)), Heir(live, sinks, origin, budget))
  }

  /** One, `d`, `d` squared, and so on, `k` terms. */
  function Powers(d: nat, k: nat): nat {
    if k == 0 then 0 else 1 + d * Powers(d, k - 1)
  }

  ghost predicate Degree(live: LiveGraph, d: nat) {
    forall u :: u in live ==> |live[u]| <= d
  }

  lemma {:induction false} BroodBound(live: LiveGraph, sinks: set<Id>, c: Copy, d: nat)
    requires Degree(live, d) && c.ttl >= 1
    ensures Brood(live, sinks, c) <= Powers(d, c.ttl)
    decreases c.ttl
  {
    var k := c.ttl - 1;
    if c.ttl > 1 && c.to !in sinks {
      var out, f := Onward(live, c.to, c.via), Heir(live, sinks, c.to, k);
      forall w | w in out ensures f(w) <= Powers(d, k) { BroodBound(live, sinks, Copy(c.to, w, k), d); }
      OnwardBound(live, c.to, c.via, d);
      SumAtMost(multiset(out), f, Powers(d, k));
      TimesMonotone(|out|, d, Powers(d, k));
    }
  }

  lemma OnwardBound(live: LiveGraph, v: Id, via: Id, d: nat)
    requires Degree(live, d)
    ensures |Onward(live, v, via)| <= d
  {
    if v in live { Exactness.SubsetIsNoLarger(live[v] - {via}, live[v]); }
  }

  lemma TimesMonotone(a: nat, b: nat, c: nat)
    requires a <= b
    ensures a * c <= b * c
  {
  }

  /** A flood on a network of degree `d` is at most a sum of powers of `d`. */
  lemma MostBound(live: LiveGraph, sinks: set<Id>, origin: Id, budget: nat, d: nat)
    requires Degree(live, d) && budget >= 1
    ensures Most(live, sinks, origin, budget) <= d * Powers(d, budget)
  {
    var out, f := Onward(live, origin, origin), Heir(live, sinks, origin, budget);
    forall w | w in out ensures f(w) <= Powers(d, budget) { BroodBound(live, sinks, Copy(origin, w, budget), d); }
    OnwardBound(live, origin, origin, d);
    SumAtMost(multiset(out), f, Powers(d, budget));
    TimesMonotone(|out|, d, Powers(d, budget));
  }
}
