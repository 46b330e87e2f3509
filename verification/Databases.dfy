/** The link-state database as a fold of `store` over deliveries: when every
    delivery order agrees, and how a restarted origin gets through. */
module Databases {
  import opened Ordering
  import opened Graphs
  import opened SeenCaches
  import opened LinkState

  /** What `origin` announced under each number. */
  type Content = (Id, int) -> Links

  datatype Delivery = Delivery(origin: Id, number: int, now: Time)

  function Fold(content: Content, lsdb: Database, ds: seq<Delivery>): Database {
    if ds == [] then lsdb
    else
      var d := ds[|ds| - 1];
      Store(Fold(content, lsdb, ds[..|ds| - 1]), Lsp(d.origin, d.number, content(d.origin, d.number)), d.now).lsdb
  }

  /** The numbers delivered for `origin`. */
  ghost function Numbers(ds: seq<Delivery>, origin: Id): set<int> {
    set d | d in ds && d.origin == origin :: d.number
  }

  ghost predicate Greatest(ns: set<int>, n: int) {
    n in ns && forall m :: m in ns ==> m <= n
  }

  /** Numbers so close together that none can be mistaken for a restart. */
  ghost predicate NarrowSpan(ns: set<int>) {
    forall m, n :: m in ns && n in ns ==> n - m < SEQ_RESET_GAP
  }

  /** `lsdb` holds, for `origin`, exactly the highest number delivered and what
      was announced under it. */
  ghost predicate HoldsGreatest(content: Content, lsdb: Database, ns: set<int>, origin: Id) {
    && (origin in lsdb <==> ns != {})
    && (origin in lsdb ==> Greatest(ns, lsdb[origin].number)
                           && lsdb[origin].links == content(origin, lsdb[origin].number))
  }

  lemma NumbersOneMore(ds: seq<Delivery>, d: Delivery, origin: Id)
    ensures Numbers(ds + [d], origin) == Numbers(ds, origin) + if d.origin == origin then {d.number} else {}
  {
    assert forall x :: x in ds + [d] <==> x in ds || x == d;
  }

  lemma {:induction false} FoldHoldsGreatest(content: Content, ds: seq<Delivery>, origin: Id)
    requires NarrowSpan(Numbers(ds, origin))
    ensures HoldsGreatest(content, Fold(content, map[], ds), Numbers(ds, origin), origin)
  {
    if ds != [] {
      var init, d := ds[..|ds| - 1], ds[|ds| - 1];
      assert ds == init + [d];
      NumbersOneMore(init, d, origin);
      FoldHoldsGreatest(content, init, origin);
    }
  }

  /** Both were delivered the same numbers of `origin`, none of them a restart. */
  ghost predicate HeardAlike(a: seq<Delivery>, b: seq<Delivery>, origin: Id) {
    Numbers(a, origin) == Numbers(b, origin) && NarrowSpan(Numbers(a, origin))
  }

  /** Databases agree: two nodes that were delivered the same announcements, in
      any order, at any times and with any duplication, hold the same database,
      provided each origin's numbers span less than the restart gap. */
  lemma DatabasesAgree(content: Content, a: seq<Delivery>, b: seq<Delivery>)
    requires forall o :: HeardAlike(a, b, o)
    ensures SameAnnouncements(Fold(content, map[], a), Fold(content, map[], b))
  {
    var fa, fb := Fold(content, map[], a), Fold(content, map[], b);
    forall o
      ensures o in fa <==> o in fb
      ensures o in fa ==> fa[o].number == fb[o].number && fa[o].links == fb[o].links
    {
      assert HeardAlike(a, b, o);
      FoldHoldsGreatest(content, a, o);
      FoldHoldsGreatest(content, b, o);
    }
  }

  /** The links all entries together declare. */
  ghost function DeclaredLinks(lsdb: Database): set<(Id, Id)> {
    set o, n | o in lsdb && n in lsdb[o].links :: (o, n)
  }

  /** The second verdict of `store` tells news from a changed topology: an accepted
      announcement is structural exactly if its origin was unknown or other links are
      declared now than before. */
  lemma StructuralIffTopologyChanged(lsdb: Database, lsp: Lsp, now: Time)
    ensures var r := Store(lsdb, lsp, now);
      r.structural <==> r.accepted && (lsp.origin !in lsdb || DeclaredLinks(r.lsdb) != DeclaredLinks(lsdb))
  {
    var r := Store(lsdb, lsp, now);
    if r.accepted && lsp.origin in lsdb {
      var before, after := lsdb[lsp.origin].links, lsp.links;
      if before.Keys == after.Keys {
        assert DeclaredLinks(r.lsdb) == DeclaredLinks(lsdb);
      } else if n :| n in before && n !in after {
        assert (lsp.origin, n) in DeclaredLinks(lsdb) && (lsp.origin, n) !in DeclaredLinks(r.lsdb);
      } else {
        var n :| n in after && n !in before;
        assert (lsp.origin, n) in DeclaredLinks(r.lsdb) && (lsp.origin, n) !in DeclaredLinks(lsdb);
      }
    }
  }

  // --------------------------------------------------- the exact condition

  /** The same numbers of every origin were delivered, in whatever order, at
      whatever times and however often. */
  ghost predicate SameNumbers(a: seq<Delivery>, b: seq<Delivery>) {
    forall o :: Numbers(a, o) == Numbers(b, o)
  }

  ghost predicate AllNarrow(ds: seq<Delivery>) {
    forall o :: NarrowSpan(Numbers(ds, o))
  }

  /** However the deliveries had come, the database would say the same. */
  ghost predicate OrderIrrelevant(content: Content, ds: seq<Delivery>) {
    forall a, b :: SameNumbers(ds, a) && SameNumbers(ds, b) ==>
      SameAnnouncements(Fold(content, map[], a), Fold(content, map[], b))
  }

  /** What is on file was delivered. */
  lemma {:induction false} FoldHoldsDelivered(content: Content, ds: seq<Delivery>, origin: Id)
    ensures var r := Fold(content, map[], ds); origin in r ==> r[origin].number in Numbers(ds, origin)
  {
    if ds != [] {
      var init, d := ds[..|ds| - 1], ds[|ds| - 1];
      assert ds == init + [d];
      NumbersOneMore(init, d, origin);
      FoldHoldsDelivered(content, init, origin);
    }
  }

  lemma {:induction false} GreatestExists(ns: set<int>) returns (n: int)
    requires ns != {}
    ensures Greatest(ns, n)
    decreases |ns|
  {
    assert Listing(ns) != [] by { assert Elements<int>([]) == {}; }
    var x := Listing(ns)[0];
    assert x in Elements(Listing(ns));
    n := x;
    if ns - {x} != {} {
      var m := GreatestExists(ns - {x});
      if m > x { n := m; }
      assert forall y :: y in ns ==> y == x || y in ns - {x};
    }
  }

  /** Delivering a number again adds none. */
  lemma AgainAddsNone(ds: seq<Delivery>, d: Delivery)
    requires d.number in Numbers(ds, d.origin)
    ensures SameNumbers(ds, ds + [d])
  {
    forall o ensures Numbers(ds, o) == Numbers(ds + [d], o) { NumbersOneMore(ds, d, o); }
  }

  /** The greatest number, delivered once more, is on file; a number at least the
      gap below it, delivered after it, replaces it. */
  lemma LateRestartWins(content: Content, ds: seq<Delivery>, top: Delivery, low: Delivery)
    requires top.origin == low.origin && Greatest(Numbers(ds, top.origin), top.number)
    requires low.number in Numbers(ds, low.origin) && top.number - low.number >= SEQ_RESET_GAP
    ensures var a, b := ds + [top], ds + [top] + [low];
      && SameNumbers(ds, a) && SameNumbers(ds, b)
      && top.origin in Fold(content, map[], a) && Fold(content, map[], a)[top.origin].number == top.number
      && low.origin in Fold(content, map[], b) && Fold(content, map[], b)[low.origin].number == low.number
  {
    hide Numbers;
    var a, b := ds + [top], ds + [top] + [low];
    AgainAddsNone(ds, top);
    assert Numbers(a, low.origin) == Numbers(ds, low.origin);
    AgainAddsNone(a, low);
    FoldHoldsDelivered(content, ds, top.origin);
    hide SameNumbers;
    assert SameNumbers(ds, b) by { SameNumbersChain(ds, a, b); }
    assert a[..|a| - 1] == ds && b[..|b| - 1] == a;
  }

  lemma SameNumbersChain(a: seq<Delivery>, b: seq<Delivery>, c: seq<Delivery>)
    requires SameNumbers(a, b) && SameNumbers(b, c)
    ensures SameNumbers(a, c)
  {
    hide Numbers;
  }

  /** The restart rule makes arrival order matter exactly when two numbers of one
      origin are at least the gap apart: every order, with any repetition and at any
      times, ends with the same announcements on file if and only if no two are. */
  lemma OrderIrrelevantIffNarrow(content: Content, ds: seq<Delivery>)
    ensures OrderIrrelevant(content, ds) <==> AllNarrow(ds)
  {
    if AllNarrow(ds) {
      forall a, b | SameNumbers(ds, a) && SameNumbers(ds, b)
        ensures SameAnnouncements(Fold(content, map[], a), Fold(content, map[], b))
      {
        forall o ensures HeardAlike(a, b, o) {
          assert Numbers(ds, o) == Numbers(a, o) && Numbers(ds, o) == Numbers(b, o) && NarrowSpan(Numbers(ds, o));
        }
        DatabasesAgree(content, a, b);
      }
    } else {
      var o :| !NarrowSpan(Numbers(ds, o));
      WideSpanDisagrees(content, ds, o);
    }
  }

  ghost predicate Disagree(content: Content, ds: seq<Delivery>, a: seq<Delivery>, b: seq<Delivery>) {
    && SameNumbers(ds, a) && SameNumbers(ds, b)
    && !SameAnnouncements(Fold(content, map[], a), Fold(content, map[], b))
  }

  /** With a wider span, two orders of the same deliveries end differently. */
  lemma WideSpanDisagrees(content: Content, ds: seq<Delivery>, o: Id)
    requires !NarrowSpan(Numbers(ds, o))
    ensures exists a, b :: Disagree(content, ds, a, b)
  {
    hide SameNumbers, Fold, Numbers;
    var low, high :| low in Numbers(ds, o) && high in Numbers(ds, o) && high - low >= SEQ_RESET_GAP;
    var top := GreatestExists(Numbers(ds, o));
    LateRestartWins(content, ds, Delivery(o, top, 0), Delivery(o, low, 0));
    var a, b := ds + [Delivery(o, top, 0)], ds + [Delivery(o, top, 0)] + [Delivery(o, low, 0)];
    assert !SameAnnouncements(Fold(content, map[], a), Fold(content, map[], b));
    hide SameAnnouncements;
    assert Disagree(content, ds, a, b);
  }

  // ---------------------------------------------------- restart recovery

  /** What `store` answers to deliveries arriving in turn. */
  function Verdicts(content: Content, lsdb: Database, ds: seq<Delivery>): (vs: seq<bool>)
    ensures |vs| == |ds|
    decreases |ds|
  {
    if ds == [] then []
    else
      var r := Store(lsdb, Lsp(ds[0].origin, ds[0].number, content(ds[0].origin, ds[0].number)), ds[0].now);
      [r.accepted] + Verdicts(content, r.lsdb, ds[1..])
  }

  /** Deliveries of one origin whose numbers rise. */
  ghost predicate Increasing(ds: seq<Delivery>, origin: Id) {
    && (forall i :: 0 <= i < |ds| ==> ds[i].origin == origin)
    && (forall i, j :: 0 <= i < j < |ds| ==> ds[i].number < ds[j].number)
  }

  /** Of `ds`, exactly the first `k` are rejected. */
  ghost predicate AcceptedFrom(content: Content, lsdb: Database, ds: seq<Delivery>, k: nat) {
    k <= |ds| && forall i :: 0 <= i < |ds| ==> (Verdicts(content, lsdb, ds)[i] <==> i >= k)
  }

  /** Restart recovery: whatever is on file, of announcements of one origin with
      strictly increasing numbers, at any times, `store` rejects at most the first
      sixteen, and accepts every one from the first it accepts. */
  lemma RestartRecovers(content: Content, lsdb: Database, ds: seq<Delivery>, origin: Id)
    requires Increasing(ds, origin)
    ensures exists k: nat :: k <= SEQ_RESET_GAP && AcceptedFrom(content, lsdb, ds, k)
  {
    var k := RejectedPrefix(content, lsdb, ds, origin);
  }

  /** The rejected numbers are the leading ones that fall in the window of sixteen
      numbers ending at the one on file. */
  lemma {:induction false} RejectedPrefix(content: Content, lsdb: Database, ds: seq<Delivery>, origin: Id) returns (k: nat)
    requires Increasing(ds, origin)
    ensures AcceptedFrom(content, lsdb, ds, k)
    ensures k == 0 || (origin in lsdb && ds[0].number > lsdb[origin].number - SEQ_RESET_GAP
                       && ds[0].number + k - 1 <= lsdb[origin].number)
    ensures ds != [] && (origin !in lsdb || ds[0].number > lsdb[origin].number) ==> k == 0
    decreases |ds|
  {
    k := 0;
    if ds != [] {
      var r := Store(lsdb, Lsp(origin, ds[0].number, content(origin, ds[0].number)), ds[0].now);
      k := RejectedPrefix(content, r.lsdb, ds[1..], origin);
      if !r.accepted { k := k + 1; }
    }
  }
}
