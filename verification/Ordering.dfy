/** Node identifiers, their order, and the strictly ascending sequences that
    Go's `sort.Strings` and `sort.Slice` produce from duplicate-free input. */
module Ordering {
  type Id = string

  /** The lexicographic order Go uses for `<` on strings. */
  predicate Less(a: Id, b: Id) {
    |b| > 0 && (|a| == 0 || a[0] < b[0] || (a[0] == b[0] && Less(a[1..], b[1..])))
  }

  lemma {:induction false} LessIrreflexive(a: Id)
    ensures !Less(a, a)
  {
    if |a| > 0 { LessIrreflexive(a[1..]); }
  }

  lemma {:induction false} LessTransitive(a: Id, b: Id, c: Id)
    requires Less(a, b) && Less(b, c)
    ensures Less(a, c)
  {
    if |a| > 0 && a[0] == b[0] == c[0] { LessTransitive(a[1..], b[1..], c[1..]); }
  }

  lemma {:induction false} LessTotal(a: Id, b: Id)
    ensures a == b || Less(a, b) || Less(b, a)
  {
    if |a| > 0 && |b| > 0 && a[0] == b[0] {
      LessTotal(a[1..], b[1..]);
      if a[1..] == b[1..] { assert a == [a[0]] + a[1..] == b; }
    }
  }

  /** `a` and `b` agree up to place `k`, where `a` ends or has the lower character. */
  predicate LowerAt(a: Id, b: Id, k: nat) {
    k <= |a| && k < |b| && a[..k] == b[..k] && (k == |a| || a[k] < b[k])
  }

  /** `a` comes before `b` in a dictionary. */
  ghost predicate NameBefore(a: Id, b: Id) {
    exists k: nat :: LowerAt(a, b, k)
  }

  /** The order is the one of dictionaries. */
  lemma {:induction false} LessIsNameOrder(a: Id, b: Id)
    ensures Less(a, b) <==> NameBefore(a, b)
  {
    if |a| > 0 && |b| > 0 && a[0] == b[0] {
      LessIsNameOrder(a[1..], b[1..]);
      assert a == [a[0]] + a[1..] && b == [b[0]] + b[1..];
      if k: nat :| LowerAt(a[1..], b[1..], k) { assert LowerAt(a, b, k + 1); }
      if k: nat :| LowerAt(a, b, k) {
        assert a[1..][..k - 1] == a[..k][1..] && b[1..][..k - 1] == b[..k][1..];
        assert LowerAt(a[1..], b[1..], k - 1);
      }
    } else if Less(a, b) {
      assert LowerAt(a, b, 0);
    } else {
      forall k: nat | k > 0 && k <= |a| && k < |b| ensures !LowerAt(a, b, k) { assert a[..k][0] != b[..k][0]; }
    }
  }

  /** `less` is a strict total order. */
  ghost predicate StrictOrder<T(!new)>(less: (T, T) -> bool) {
    && (forall a :: !less(a, a))
    && (forall a, b, c :: less(a, b) && less(b, c) ==> less(a, c))
    && (forall a, b :: a == b || less(a, b) || less(b, a))
  }

  lemma LessIsStrictOrder()
    ensures StrictOrder(Less)
  {
    forall a ensures !Less(a, a) { LessIrreflexive(a); }
    forall a, b, c | Less(a, b) && Less(b, c) ensures Less(a, c) { LessTransitive(a, b, c); }
    forall a, b ensures a == b || Less(a, b) || Less(b, a) { LessTotal(a, b); }
  }

  ghost predicate Ascending<T>(less: (T, T) -> bool, s: seq<T>) {
    forall i, j :: 0 <= i < j < |s| ==> less(s[i], s[j])
  }

  ghost function Elements<T>(s: seq<T>): set<T> {
    set x | x in s
  }

  lemma ListedElements<T>(s: seq<T>)
    ensures s != [] ==> Elements(s) != {}
  {
    if s != [] { assert s[0] in Elements(s); }
  }

  lemma ElementsOfTail<T>(s: seq<T>)
    requires s != []
    ensures Elements(s) == {s[0]} + Elements(s[1..])
  {
    assert s == [s[0]] + s[1..];
  }

  lemma ElementsAppend<T>(s: seq<T>, x: T)
    ensures Elements(s + [x]) == Elements(s) + {x}
  {
  }

  /** A set has only one ascending listing, so sorting removes every trace of
      the order in which a map was iterated. */
  lemma {:induction false} AscendingUnique<T(!new)>(less: (T, T) -> bool, a: seq<T>, b: seq<T>)
    requires StrictOrder(less)
    requires Ascending(less, a) && Ascending(less, b) && Elements(a) == Elements(b)
    ensures a == b
  {
    if a == [] {
      ListedElements(b);
    } else {
      assert a[0] in Elements(b) && b != [];
      assert b[0] in Elements(a);
      assert a[0] == b[0];
      forall x ensures x in Elements(a[1..]) <==> x in Elements(b[1..]) {
        assert x in a[1..] <==> x in Elements(a) && x != a[0];
        assert x in b[1..] <==> x in Elements(b) && x != b[0];
      }
      AscendingUnique(less, a[1..], b[1..]);
      assert a == [a[0]] + a[1..] && b == [b[0]] + b[1..];
    }
  }

  /** Insertion of `x` before the first element it precedes. */
  function Insert<T>(less: (T, T) -> bool, x: T, s: seq<T>): seq<T> {
    if s == [] || less(x, s[0]) then [x] + s else [s[0]] + Insert(less, x, s[1..])
  }

  lemma {:induction false} InsertAscending<T(!new)>(less: (T, T) -> bool, x: T, s: seq<T>)
    requires StrictOrder(less) && Ascending(less, s) && x !in s
    ensures Ascending(less, Insert(less, x, s))
    ensures Elements(Insert(less, x, s)) == Elements(s) + {x}
  {
    if s == [] || less(x, s[0]) {
    } else {
      InsertAscending(less, x, s[1..]);
      var rest := Insert(less, x, s[1..]);
      forall j | 0 <= j < |rest| ensures less(s[0], rest[j]) {
        assert rest[j] in Elements(rest);
      }
      assert s == [s[0]] + s[1..];
      assert Elements([s[0]] + rest) == {s[0]} + Elements(rest);
    }
  }

  /** The ascending listing of a finite set. */
  ghost function Sorted<T(!new)>(less: (T, T) -> bool, s: set<T>): (r: seq<T>)
    requires StrictOrder(less)
    ensures Ascending(less, r) && Elements(r) == s
    decreases |s|
  {
    if s == {} then [] else
      var x :| x in s;
      var rest := Sorted(less, s - {x});
      assert x !in Elements(rest);
      InsertAscending(less, x, rest);
      Insert(less, x, rest)
  }

  ghost function SortedIds(s: set<Id>): (r: seq<Id>)
    ensures Elements(r) == s
  {
    LessIsStrictOrder();
    Sorted(Less, s)
  }

  lemma {:induction false} AscendingLength<T(!new)>(less: (T, T) -> bool, s: seq<T>)
    requires StrictOrder(less) && Ascending(less, s)
    ensures |Elements(s)| == |s|
  {
    if s == [] {
      assert Elements(s) == {};
    } else {
      AscendingLength(less, s[1..]);
      ElementsOfTail(s);
      assert s[0] !in s[1..];
    }
  }

  /** Names are listed as in a dictionary. */
  lemma SortedIdsAscend(s: set<Id>, i: nat, j: nat)
    requires i < j < |SortedIds(s)|
    ensures NameBefore(SortedIds(s)[i], SortedIds(s)[j])
  {
    LessIsStrictOrder();
    LessIsNameOrder(SortedIds(s)[i], SortedIds(s)[j]);
  }

  lemma SortedIdsLength(s: set<Id>)
    ensures |SortedIds(s)| == |s|
  {
    LessIsStrictOrder();
    AscendingLength(Less, SortedIds(s));
  }

  /** Collects the members of a set, in whatever order they come, and sorts
      them: the shape of `Graph.Nodes` and of the neighbour list in Dijkstra. */
  method Sort<T(==,!new)>(less: (T, T) -> bool, items: set<T>) returns (r: seq<T>)
    requires StrictOrder(less)
    ensures r == Sorted(less, items)
    ensures Ascending(less, r) && forall x :: x in r <==> x in items
  {
    r := [];
    var left := items;
    while left != {}
      invariant left <= items
      invariant Ascending(less, r) && Elements(r) == items - left
    {
      var x :| x in left;
      assert x !in Elements(r);
      InsertAscending(less, x, r);
      r := Insert(less, x, r);
      left := left - {x};
    }
    AscendingUnique(less, r, Sorted(less, items));
    assert forall x :: x in r <==> x in Elements(r);
  }

  /** `sort.Strings` on the keys of a map. */
  method SortStrings(items: set<Id>) returns (r: seq<Id>)
    ensures r == SortedIds(items)
    ensures forall x :: x in r <==> x in items
  {
    LessIsStrictOrder();
    r := Sort(Less, items);
  }

  /** There is always a name not taken yet. */
  lemma {:induction false} FreshId(ids: set<string>) returns (m: string)
    ensures m != "" && m !in ids && forall x :: x in ids ==> |x| < |m|
    decreases |ids|
  {
    m := "x";
    if ids != {} {
      var x :| x in ids;
      m := FreshId(ids - {x});
      if |x| >= |m| { m := x + "x"; }
    }
  }
}
