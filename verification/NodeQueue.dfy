/** The priority queue of the shortest-path search: Go's `container/heap`
    sift-up and sift-down over the `nodeQueue` slice, ordered by distance. */
module NodeQueue {
  import opened Ordering

  datatype Queued = Queued(id: Id, dist: real)

  function Parent(k: nat): nat
    requires k > 0
  {
    (k - 1) / 2
  }

  function Swapped(q: seq<Queued>, i: nat, j: nat): (r: seq<Queued>)
    requires i < |q| && j < |q|
    ensures |r| == |q|
  {
    q[i := q[j]][j := q[i]]
  }

  /** `heap.up`. */
  function Up(q: seq<Queued>, j: nat): (r: seq<Queued>)
    requires j < |q|
    ensures |r| == |q|
    decreases j
  {
    if j == 0 || q[j].dist >= q[Parent(j)].dist then q
    else Up(Swapped(q, Parent(j), j), Parent(j))
  }

  /** The child of `i` that `heap.down` compares with it. */
  function LesserChild(q: seq<Queued>, i: nat, n: nat): (j: nat)
    requires 2 * i + 1 < n <= |q|
    ensures i < j < n
  {
    var left := 2 * i + 1;
    if left + 1 < n && q[left + 1].dist < q[left].dist then left + 1 else left
  }

  /** `heap.down` on the first `n` places. */
  function Down(q: seq<Queued>, i: nat, n: nat): (r: seq<Queued>)
    requires i < |q| && n <= |q|
    ensures |r| == |q|
    decreases n - i
  {
    if 2 * i + 1 >= n then q
    else
      var j := LesserChild(q, i, n);
      if q[j].dist >= q[i].dist then q else Down(Swapped(q, i, j), j, n)
  }

  lemma {:induction false} UpPermutes(q: seq<Queued>, j: nat)
    requires j < |q|
    ensures multiset(Up(q, j)) == multiset(q)
    decreases j
  {
    if j != 0 && q[j].dist < q[Parent(j)].dist { UpPermutes(Swapped(q, Parent(j), j), Parent(j)); }
  }

  /** `heap.down` permutes the first `n` places and leaves the others alone. */
  lemma {:induction false} DownPermutes(q: seq<Queued>, i: nat, n: nat)
    requires i < |q| && n <= |q|
    ensures multiset(Down(q, i, n)) == multiset(q)
    ensures forall k :: n <= k < |q| ==> Down(q, i, n)[k] == q[k]
    decreases n - i
  {
    if 2 * i + 1 < n {
      var j := LesserChild(q, i, n);
      if q[j].dist < q[i].dist { DownPermutes(Swapped(q, i, j), j, n); }
    }
  }

  function Push(q: seq<Queued>, x: Queued): seq<Queued> {
    Up(q + [x], |q|)
  }

  /** Moves the root to the last place, restores the order of the others, and
      takes the last place off. */
  function Pop(q: seq<Queued>): (r: (Queued, seq<Queued>))
    requires q != []
    ensures |r.1| == |q| - 1
  {
    var n := |q| - 1;
    var r := Down(Swapped(q, 0, n), 0, n);
    (r[n], r[..n])
  }

  lemma PushMembers(q: seq<Queued>, x: Queued)
    ensures multiset(Push(q, x)) == multiset(q) + multiset{x}
    ensures forall e :: e in Push(q, x) <==> e in q || e == x
  {
    UpPermutes(q + [x], |q|);
    forall e ensures e in Push(q, x) <==> e in q || e == x {
      assert e in multiset(Push(q, x)) <==> e in multiset(q) + multiset{x};
    }
  }

  lemma PopPermutes(q: seq<Queued>)
    requires q != []
    ensures Pop(q).0 == q[0]
    ensures multiset(q) == multiset(Pop(q).1) + multiset{Pop(q).0}
  {
    var n := |q| - 1;
    DownPermutes(Swapped(q, 0, n), 0, n);
    var r := Down(Swapped(q, 0, n), 0, n);
    assert r == r[..n] + [r[n]];
  }

  lemma PopMembers(q: seq<Queued>)
    requires q != []
    ensures Pop(q).0 == q[0]
    ensures forall e :: e in q <==> e in Pop(q).1 || e == Pop(q).0
  {
    hide Pop;
    PopPermutes(q);
    forall e ensures e in q <==> e in Pop(q).1 || e == Pop(q).0 {
      assert e in multiset(q) <==> e in multiset(Pop(q).1) + multiset{Pop(q).0};
    }
  }

  ghost predicate Heap(q: seq<Queued>, n: nat)
    requires n <= |q|
  {
    forall k :: 0 < k < n ==> q[Parent(k)].dist <= q[k].dist
  }

  /** A heap except that `j` may be smaller than its parent. */
  ghost predicate HeapAbove(q: seq<Queued>, j: nat)
    requires j < |q|
  {
    && (forall k :: 0 < k < |q| && k != j ==> q[Parent(k)].dist <= q[k].dist)
    && (forall k :: 0 < k < |q| && Parent(k) == j && j > 0 ==> q[Parent(j)].dist <= q[k].dist)
  }

  /** A heap except that `i` may be larger than its children. */
  ghost predicate HeapBelow(q: seq<Queued>, i: nat, n: nat)
    requires i < |q| && n <= |q|
  {
    && (forall k :: 0 < k < n && Parent(k) != i ==> q[Parent(k)].dist <= q[k].dist)
    && (forall k :: 0 < k < n && Parent(k) == i && i > 0 ==> q[Parent(i)].dist <= q[k].dist)
  }

  lemma {:induction false} UpRestores(q: seq<Queued>, j: nat)
    requires j < |q| && HeapAbove(q, j)
    ensures Heap(Up(q, j), |q|)
    decreases j
  {
    if j != 0 && q[j].dist < q[Parent(j)].dist {
      UpRestores(Swapped(q, Parent(j), j), Parent(j));
    }
  }

  lemma SwapDownKeeps(q: seq<Queued>, i: nat, n: nat)
    requires n <= |q| && 2 * i + 1 < n && HeapBelow(q, i, n)
    requires q[LesserChild(q, i, n)].dist < q[i].dist
    ensures HeapBelow(Swapped(q, i, LesserChild(q, i, n)), LesserChild(q, i, n), n)
  {
    var j := LesserChild(q, i, n);
    assert Parent(j) == i;
    assert forall k :: 0 < k < n && Parent(k) == i ==> k == 2 * i + 1 || k == 2 * i + 2;
  }

  lemma {:induction false} DownRestores(q: seq<Queued>, i: nat, n: nat)
    requires i < |q| && n <= |q| && HeapBelow(q, i, n)
    ensures Heap(Down(q, i, n), n)
    decreases n - i
  {
    if 2 * i + 1 < n {
      var j := LesserChild(q, i, n);
      if q[j].dist < q[i].dist {
        SwapDownKeeps(q, i, n);
        DownRestores(Swapped(q, i, j), j, n);
      } else {
        assert forall k :: 0 < k < n && Parent(k) == i ==> k == 2 * i + 1 || k == 2 * i + 2;
      }
    }
  }

  lemma {:induction false} RootIsLeast(q: seq<Queued>, k: nat)
    requires k < |q| && Heap(q, |q|)
    ensures q[0].dist <= q[k].dist
  {
    if k > 0 { RootIsLeast(q, Parent(k)); }
  }

  /** `heap.Push` keeps the heap order. */
  lemma PushKeepsHeap(q: seq<Queued>, x: Queued)
    requires Heap(q, |q|)
    ensures Heap(Push(q, x), |q| + 1)
  {
    UpRestores(q + [x], |q|);
  }

  /** `heap.Pop` removes a least element and keeps the heap order. */
  lemma PopTakesLeast(q: seq<Queued>)
    requires q != [] && Heap(q, |q|)
    ensures forall e :: e in q ==> Pop(q).0.dist <= e.dist
    ensures Heap(Pop(q).1, |q| - 1)
  {
    forall e | e in q ensures q[0].dist <= e.dist {
      var k :| 0 <= k < |q| && q[k] == e;
      RootIsLeast(q, k);
    }
    PopMembers(q);
    PopKeepsHeap(q);
  }

  lemma PopKeepsHeap(q: seq<Queued>)
    requires q != [] && Heap(q, |q|)
    ensures Heap(Pop(q).1, |q| - 1)
  {
    DownRestores(Swapped(q, 0, |q| - 1), 0, |q| - 1);
  }

  // ------------------------------------------------------- who comes first

  lemma {:induction false} RootLeadsUpTo(q: seq<Queued>, j: nat, k: nat)
    requires k < j < |q| && HeapAbove(q, j)
    ensures q[0].dist <= q[k].dist
  {
    if k > 0 { RootLeadsUpTo(q, j, Parent(k)); }
  }

  lemma SwapUpKeeps(q: seq<Queued>, j: nat)
    requires 0 < j < |q| && HeapAbove(q, j) && q[j].dist < q[Parent(j)].dist
    ensures HeapAbove(Swapped(q, Parent(j), j), Parent(j))
  {
  }

  lemma {:induction false} UpRoot(q: seq<Queued>, j: nat)
    requires j < |q| && HeapAbove(q, j)
    ensures Up(q, j)[0] == if q[j].dist < q[0].dist then q[j] else q[0]
    decreases j
  {
    if j != 0 {
      RootLeadsUpTo(q, j, Parent(j));
      if q[j].dist < q[Parent(j)].dist {
        SwapUpKeeps(q, j);
        hide HeapAbove;
        UpRoot(Swapped(q, Parent(j), j), Parent(j));
      }
    }
  }

  /** A newcomer leads the queue only if it is nearer than who did. */
  lemma PushedRoot(q: seq<Queued>, x: Queued)
    requires Heap(q, |q|)
    ensures Push(q, x)[0] == if q == [] || x.dist < q[0].dist then x else q[0]
  {
    UpRoot(q + [x], |q|);
  }

  lemma {:induction false} DownSpares(q: seq<Queued>, i: nat, n: nat, k: nat)
    requires k < i < |q| && n <= |q|
    ensures Down(q, i, n)[k] == q[k]
    decreases n - i
  {
    if 2 * i + 1 < n {
      var j := LesserChild(q, i, n);
      if q[j].dist < q[i].dist { DownSpares(Swapped(q, i, j), j, n, k); }
    }
  }

  /** After a pop the entry that was last leads, unless the nearer of the two next
      in line is nearer than it; of two at one distance the left goes first. */
  lemma PoppedRoot(q: seq<Queued>)
    requires |q| > 1
    ensures var n, rest := |q| - 1, Pop(q).1;
      if n == 1 then rest == [q[1]]
      else
        var next := if n > 2 && q[2].dist < q[1].dist then q[2] else q[1];
        rest[0] == if next.dist < q[n].dist then next else q[n]
  {
    var n := |q| - 1;
    var r := Swapped(q, 0, n);
    if n > 1 {
      var j := LesserChild(r, 0, n);
      if r[j].dist < r[0].dist { DownSpares(Swapped(r, 0, j), j, n, 0); }
    }
  }

  /** The `nodeQueue` slice together with the `container/heap` operations that
      change it in place. */
  class Queue {
    var items: seq<Queued>

    constructor ()
      ensures items == []
    {
      items := [];
    }

    method Swap(i: nat, j: nat)
      requires i < |items| && j < |items|
      modifies this
      ensures items == Swapped(old(items), i, j)
    {
      items := items[i := items[j]][j := items[i]];
    }

    method SiftUp(start: nat)
      requires start < |items|
      modifies this
      ensures items == Up(old(items), start)
    {
      var j: nat := start;
      while j > 0 && items[j].dist < items[(j - 1) / 2].dist
        invariant j < |items|
        invariant Up(items, j) == Up(old(items), start)
      {
        Swap((j - 1) / 2, j);
        j := (j - 1) / 2;
      }
    }

    method SiftDown(start: nat, n: nat)
      requires start < |items| && n <= |items|
      modifies this
      ensures items == Down(old(items), start, n)
    {
      var i: nat := start;
      ghost var was := items;
      while 2 * i + 1 < n
        invariant i < |items| == |was| && n <= |items|
        invariant Down(items, i, n) == Down(was, start, n)
        decreases n - i
      {
        var j: nat := 2 * i + 1;
        if j + 1 < n && items[j + 1].dist < items[j].dist { j := j + 1; }
        assert j == LesserChild(items, i, n);
        if items[j].dist >= items[i].dist { return; }
        assert Down(items, i, n) == Down(Swapped(items, i, j), j, n);
        Swap(i, j);
        i := j;
      }
    }

    method HeapPush(x: Queued)
      modifies this
      ensures items == Push(old(items), x)
    {
      items := items + [x];
      SiftUp(|items| - 1);
    }

    method HeapPop() returns (x: Queued)
      requires items != []
      modifies this
      ensures (x, items) == Pop(old(items))
    {
      var n := |items| - 1;
      Swap(0, n);
      SiftDown(0, n);
      x := items[n];
      items := items[..n];
    }
  }
}
