/** Networks in a row: the ones on which the hop budget is felt first. */
module Lines {
  import opened Ordering
  import opened FloodCore

  /** Names told apart by their length. */
  function Stop(i: nat): Id {
    seq(i + 1, k => 'n')
  }

  function Stops(n: nat): set<Id> {
    set i: nat | i < n :: Stop(i)
  }

  lemma {:induction false} StopsCount(n: nat)
    ensures |Stops(n)| == n
  {
    if n > 0 {
      StopsCount(n - 1);
      forall i: nat | i < n - 1 ensures Stop(i) != Stop(n - 1) {
        assert |Stop(i)| == i + 1 && |Stop(n - 1)| == n;
      }
      assert Stops(n) == Stops(n - 1) + {Stop(n - 1)};
    } else {
      assert Stops(0) == {};
    }
  }

  /** `n` nodes in a row, each linked with the one before and the one after. */
  function Line(n: nat): LiveGraph {
    map u | u in Stops(n) :: NextTo(n, |u| - 1)
  }

  function NextTo(n: nat, i: int): set<Id> {
    set j: nat | j < n && (j == i + 1 || j == i - 1) :: Stop(j)
  }

  lemma LineIsWellFormed(n: nat)
    ensures WellFormed(Line(n)) && "" !in Line(n) && |Line(n).Keys| == n
  {
    StopsCount(n);
    assert Line(n).Keys == Stops(n);
    forall u | u in Line(n) ensures u !in Line(n)[u] && Line(n)[u] <= Line(n).Keys {
      forall j: nat | j == |u| || j == |u| - 2 ensures Stop(j) != u { assert |Stop(j)| == j + 1; }
    }
  }

  /** Within `k` hops of the first there is nobody further down the line. */
  lemma {:induction false} WithinLine(n: nat, k: nat)
    requires n > 0
    ensures forall u :: u in Within(Line(n), Stop(0), k) ==> |u| <= k + 1
  {
    if k > 0 {
      WithinLine(n, k - 1);
      forall u, w | u in Within(Line(n), Stop(0), k - 1) && u in Line(n) && w in Line(n)[u] ensures |w| <= k + 1 {
        var j: nat :| j < n && (j == |u| || j == |u| - 2) && w == Stop(j);
        assert |Stop(j)| == j + 1;
      }
    }
  }

  /** The last node can be reached from the first. */
  lemma {:induction false} LineIsConnected(n: nat, k: nat)
    requires k < n
    ensures Reachable(Line(n), {}, Stop(0), Stop(k))
  {
    if k == 0 {
      assert OpenPath(Line(n), {}, [Stop(0)]);
    } else {
      LineIsConnected(n, k - 1);
      var p :| OpenPath(Line(n), {}, p) && p[0] == Stop(0) && p[|p| - 1] == Stop(k - 1);
      assert |Stop(k - 1)| == k;
      assert Stop(k - 1) in Stops(n) && Stop(k) in NextTo(n, k - 1);
      OneLinkMore(Line(n), p, Stop(k));
    }
  }

  lemma OneLinkMore(live: LiveGraph, p: seq<Id>, w: Id)
    requires OpenPath(live, {}, p) && p[|p| - 1] in live && w in live[p[|p| - 1]]
    ensures Reachable(live, {}, p[0], w)
  {
    var q := p + [w];
    assert q[..|q| - 1] == p;
    assert OpenPath(live, {}, q) && q[0] == p[0] && q[|q| - 1] == w;
  }

  /** The last of more than `k + 1` nodes in a row is out of reach within `k` hops. */
  lemma EndOfLine(n: nat, k: nat)
    requires n > k + 1
    ensures WellFormed(Line(n)) && "" !in Line(n) && |Line(n).Keys| == n
    ensures Stop(0) in Line(n) && Stop(n - 1) in Line(n) && Stop(0) != Stop(n - 1)
    ensures Reachable(Line(n), {}, Stop(0), Stop(n - 1))
    ensures Stop(n - 1) !in Within(Line(n), Stop(0), k)
  {
    LineIsWellFormed(n);
    LineIsConnected(n, n - 1);
    WithinLine(n, k);
    assert |Stop(n - 1)| == n && |Stop(0)| == 1;
    assert Stop(0) in Stops(n) && Stop(n - 1) in Stops(n);
  }
}
