/** When a one-sided link is worth a warning: once per unbroken episode, after a
    grace period. */
module AsymmetryWatches {
  import opened Ordering
  import opened Graphs
  import opened SeenCaches
  import opened Symmetry

  /** The text under which a finding is remembered. */
  function Key(a: Asymmetry): string {
    a.declared + "->" + a.missing
  }

  datatype Memory = Memory(firstSeen: map<string, Time>, warned: set<string>)

  function Keys(found: seq<Asymmetry>): set<string> {
    set a | a in found :: Key(a)
  }

  /** Takes note of one finding; whether it is reported now. */
  function Note(w: Memory, a: Asymmetry, now: Time, grace: Time): (Memory, bool) {
    var k := Key(a);
    var first := if k in w.firstSeen then w.firstSeen else w.firstSeen[k := now];
    if k in w.warned || now - first[k] <= grace then (Memory(first, w.warned), false)
    else (Memory(first, w.warned + {k}), true)
  }

  function NoteAll(w: Memory, found: seq<Asymmetry>, now: Time, grace: Time): (Memory, seq<Asymmetry>) {
    if found == [] then (w, [])
    else
      var (w1, report) := NoteAll(w, found[..|found| - 1], now, grace);
      var a := found[|found| - 1];
      var (w2, due) := Note(w1, a, now, grace);
      (w2, if due then report + [a] else report)
  }

  /** What is no longer found is forgotten. */
  function Forget(w: Memory, current: set<string>): Memory {
    var gone := w.firstSeen.Keys - current;
    Memory(w.firstSeen - gone, w.warned - gone)
  }

  /** `due`: the memory afterwards, and the findings to report. */
  function Review(w: Memory, found: seq<Asymmetry>, now: Time, grace: Time): (Memory, seq<Asymmetry>) {
    var (w1, report) := NoteAll(w, found, now, grace);
    (Forget(w1, Keys(found)), report)
  }

  class AsymmetryWatch {
    var firstSeen: map<string, Time>
    var warned: set<string>

    function State(): Memory
      reads this
    {
      Memory(firstSeen, warned)
    }

    constructor ()
      ensures State() == Memory(map[], {})
    {
      firstSeen, warned := map[], {};
    }

    method Due(found: seq<Asymmetry>, now: Time, grace: Time) returns (report: seq<Asymmetry>)
      modifies this
      ensures (State(), report) == Review(old(State()), found, now, grace)
    {
      var current: set<string> := {};
      report := [];
      var i := 0;
      while i < |found|
        invariant 0 <= i <= |found| && current == Keys(found[..i])
        invariant (State(), report) == NoteAll(old(State()), found[..i], now, grace)
      {
        var a := found[i];
        var key := Key(a);
        assert found[..i + 1][..i] == found[..i];
        KeysOneMore(found[..i], a);
        assert found[..i] + [a] == found[..i + 1];
        current := current + {key};
        i := i + 1;
        if key !in firstSeen { firstSeen := firstSeen[key := now]; }
        if !(key in warned || now - firstSeen[key] <= grace) {
          warned := warned + {key};
          report := report + [a];
        }
      }
      assert found[..i] == found;
      ForgetResolved(current);
    }

    method ForgetResolved(current: set<string>)
      modifies this
      ensures State() == Forget(old(State()), current)
    {
      var left := firstSeen.Keys;
      ghost var gone := firstSeen.Keys - current;
      while left != {}
        invariant left <= old(firstSeen).Keys
        invariant firstSeen == old(firstSeen) - (gone - left) && warned == old(warned) - (gone - left)
      {
        var key :| key in left;
        ghost var was := gone - left;
        left := left - {key};
        if key !in current {
          assert gone - left == was + {key};
          firstSeen := firstSeen - {key};
          warned := warned - {key};
        } else {
          assert gone - left == was;
        }
      }
      assert gone - {} == gone;
    }
  }

  lemma KeysOneMore(found: seq<Asymmetry>, a: Asymmetry)
    ensures Keys(found + [a]) == Keys(found) + {Key(a)}
  {
    assert forall x :: x in found + [a] <==> x in found || x == a;
  }

  // ------------------------------------------------------------ whole runs

  /** One call: the findings of a sweep and its time. */
  datatype Call = Call(found: seq<Asymmetry>, now: Time)

  function After(calls: seq<Call>, grace: Time): Memory {
    if calls == [] then Memory(map[], {})
    else
      var last := calls[|calls| - 1];
      Review(After(calls[..|calls| - 1], grace), last.found, last.now, grace).0
  }

  /** What call `i` of the run reports. */
  function ReportOf(calls: seq<Call>, grace: Time, i: nat): seq<Asymmetry>
    requires i < |calls|
  {
    Review(After(calls[..i], grace), calls[i].found, calls[i].now, grace).1
  }

  /** The first call of the unbroken stretch of calls up to `i` that find `k`. */
  function EpisodeStart(calls: seq<Call>, i: nat, k: string): (s: nat)
    requires i < |calls| && k in Keys(calls[i].found)
    ensures s <= i && forall j :: s <= j <= i ==> k in Keys(calls[j].found)
    ensures s > 0 ==> k !in Keys(calls[s - 1].found)
  {
    if i > 0 && k in Keys(calls[i - 1].found) then EpisodeStart(calls, i - 1, k) else i
  }

  /** Call `j` is later than the grace period after call `s`. */
  predicate PastGrace(calls: seq<Call>, grace: Time, s: nat, j: nat)
    requires s < |calls| && j < |calls|
  {
    calls[j].now - calls[s].now > grace
  }

  /** What one sweep remembers of one key. */
  lemma {:induction false} NoteAllRemembers(w: Memory, found: seq<Asymmetry>, now: Time, grace: Time, k: string)
    requires w.warned <= w.firstSeen.Keys
    ensures var v := NoteAll(w, found, now, grace).0;
      && v.warned <= v.firstSeen.Keys
      && (k in v.firstSeen <==> k in w.firstSeen || k in Keys(found))
      && (k in v.firstSeen ==> v.firstSeen[k] == if k in w.firstSeen then w.firstSeen[k] else now)
      && (k in v.warned <==> k in w.warned || (k in Keys(found) && now - v.firstSeen[k] > grace))
  {
    if found != [] {
      var init, a := found[..|found| - 1], found[|found| - 1];
      NoteAllRemembers(w, init, now, grace, k);
      assert found == init + [a];
      KeysOneMore(init, a);
      hide Keys;
    }
  }

  /** No two entries of a report have key `k`. */
  ghost predicate AtMostOnce(report: seq<Asymmetry>, k: string) {
    forall i, j :: 0 <= i < j < |report| ==> Key(report[i]) != k || Key(report[j]) != k
  }

  /** A sweep reports the findings that are warned of for the first time. */
  lemma {:induction false} NoteAllReports(w: Memory, found: seq<Asymmetry>, now: Time, grace: Time, k: string)
    ensures var (v, report) := NoteAll(w, found, now, grace);
      && (k in w.warned ==> k in v.warned)
      && (k in Keys(report) <==> k in v.warned && k !in w.warned)
      && AtMostOnce(report, k) && Elements(report) <= Elements(found)
  {
    if found != [] {
      var init, a := found[..|found| - 1], found[|found| - 1];
      NoteAllReports(w, init, now, grace, k);
      var report := NoteAll(w, init, now, grace).1;
      KeysOneMore(report, a);
      ElementsAppend(init, a);
      ElementsAppend(report, a);
      assert found == init + [a];
      forall i | 0 <= i < |report| ensures Key(report[i]) in Keys(report) { assert report[i] in report; }
    }
  }

  /** Some call of the episode, up to call `i`, was past its grace. */
  ghost predicate Overstayed(calls: seq<Call>, grace: Time, i: nat, k: string)
    requires i < |calls| && k in Keys(calls[i].found)
  {
    exists j :: EpisodeStart(calls, i, k) <= j <= i && PastGrace(calls, grace, EpisodeStart(calls, i, k), j)
  }

  lemma OverstayedStep(calls: seq<Call>, grace: Time, i: nat, k: string)
    requires i < |calls| && k in Keys(calls[i].found)
    ensures var s := EpisodeStart(calls, i, k);
      if i > 0 && k in Keys(calls[i - 1].found)
      then s == EpisodeStart(calls, i - 1, k)
           && (Overstayed(calls, grace, i, k) <==> Overstayed(calls, grace, i - 1, k) || PastGrace(calls, grace, s, i))
      else s == i && (Overstayed(calls, grace, i, k) <==> PastGrace(calls, grace, i, i))
  {
  }

  lemma {:induction false} PrefixEpisode(calls: seq<Call>, grace: Time, n: nat, i: nat, k: string)
    requires i < n <= |calls| && k in Keys(calls[i].found)
    ensures EpisodeStart(calls[..n], i, k) == EpisodeStart(calls, i, k)
    ensures Overstayed(calls[..n], grace, i, k) == Overstayed(calls, grace, i, k)
  {
    OverstayedStep(calls, grace, i, k);
    OverstayedStep(calls[..n], grace, i, k);
    hide Overstayed;
    if i > 0 && k in Keys(calls[i - 1].found) { PrefixEpisode(calls, grace, n, i - 1, k); }
  }

  /** What is remembered of `k` between calls: the start of its episode, and
      whether a call of the episode was past its grace. */
  ghost predicate Remembers(calls: seq<Call>, grace: Time, k: string) {
    var w, n := After(calls, grace), |calls| - 1;
    && w.warned <= w.firstSeen.Keys
    && (k in w.firstSeen <==> n >= 0 && k in Keys(calls[n].found))
    && (k in w.firstSeen ==>
          && w.firstSeen[k] == calls[EpisodeStart(calls, n, k)].now
          && (k in w.warned <==> Overstayed(calls, grace, n, k)))
  }

  lemma {:induction false} RunRemembers(calls: seq<Call>, grace: Time, k: string)
    ensures Remembers(calls, grace, k)
  {
    hide Overstayed, Keys, NoteAll, PastGrace;
    if calls != [] {
      var n := |calls| - 1;
      var init, last := calls[..n], calls[n];
      RunRemembers(init, grace, k);
      NoteAllRemembers(After(init, grace), last.found, last.now, grace, k);
      if k in Keys(last.found) { EpisodeGoesOn(calls, grace, n, k); }
    }
  }

  /** The episode of `k` at call `i`, from what the calls before it say. */
  lemma EpisodeGoesOn(calls: seq<Call>, grace: Time, i: nat, k: string)
    requires i < |calls| && k in Keys(calls[i].found)
    ensures var init, s := calls[..i], EpisodeStart(calls, i, k);
      if i > 0 && k in Keys(calls[i - 1].found)
      then s == EpisodeStart(init, i - 1, k) && init[s] == calls[s]
           && (Overstayed(calls, grace, i, k) <==> Overstayed(init, grace, i - 1, k) || calls[i].now - calls[s].now > grace)
      else s == i && (Overstayed(calls, grace, i, k) <==> 0 > grace)
  {
    OverstayedStep(calls, grace, i, k);
    hide Overstayed;
    if i > 0 && k in Keys(calls[i - 1].found) { PrefixEpisode(calls, grace, i, i - 1, k); }
  }

  /** A call reports `k` exactly when it is past the grace of an episode of which no
      call was before. */
  lemma ReportedWhenOverdue(calls: seq<Call>, grace: Time, i: nat, k: string)
    requires i < |calls|
    ensures k in Keys(ReportOf(calls, grace, i)) <==>
      && k in Keys(calls[i].found)
      && Overstayed(calls, grace, i, k)
      && !(i > 0 && k in Keys(calls[i - 1].found) && Overstayed(calls[..i], grace, i - 1, k))
  {
    hide AtMostOnce, Keys, NoteAll, Overstayed, After, PastGrace;
    var init := calls[..i];
    var w := After(init, grace);
    RunRemembers(init, grace, k);
    NoteAllRemembers(w, calls[i].found, calls[i].now, grace, k);
    NoteAllReports(w, calls[i].found, calls[i].now, grace, k);
    if k in Keys(calls[i].found) { EpisodeGoesOn(calls, grace, i, k); }
  }

  /** Over every run: a call reports a finding exactly if it is the first call of
      an unbroken episode to come later than the grace period after the
      episode's first; so each episode is reported at most once. */
  lemma DueIsExact(calls: seq<Call>, grace: Time, i: nat, k: string)
    requires i < |calls|
    ensures k in Keys(ReportOf(calls, grace, i)) <==>
      && k in Keys(calls[i].found)
      && (var s := EpisodeStart(calls, i, k);
          PastGrace(calls, grace, s, i) && forall j :: s <= j < i ==> !PastGrace(calls, grace, s, j))
    ensures AtMostOnce(ReportOf(calls, grace, i), k)
  {
    hide AtMostOnce, Keys, NoteAll, Overstayed, After, PastGrace;
    ReportedWhenOverdue(calls, grace, i, k);
    NoteAllReports(After(calls[..i], grace), calls[i].found, calls[i].now, grace, k);
    if k in Keys(calls[i].found) {
      OverstayedStep(calls, grace, i, k);
      if i > 0 && k in Keys(calls[i - 1].found) { PrefixEpisode(calls, grace, i, i - 1, k); }
      FirstPastGrace(calls, grace, i, k);
    }
  }

  lemma FirstPastGrace(calls: seq<Call>, grace: Time, i: nat, k: string)
    requires i < |calls| && k in Keys(calls[i].found)
    ensures var s := EpisodeStart(calls, i, k);
      (forall j :: s <= j < i ==> !PastGrace(calls, grace, s, j)) <==>
      !(i > 0 && k in Keys(calls[i - 1].found) && Overstayed(calls[..i], grace, i - 1, k))
  {
    if i > 0 && k in Keys(calls[i - 1].found) {
      PrefixEpisode(calls, grace, i, i - 1, k);
      OverstayedStep(calls, grace, i, k);
    }
  }

  // --------------------------------------------------------------- the keys

  const ARROW := "->"

  predicate SameLink(a: Asymmetry, b: Asymmetry) {
    a.declared == b.declared && a.missing == b.missing
  }

  /** The two arrows of one text: `a` is read at the first and `b` at the second. */
  ghost predicate Shifted(a: Asymmetry, b: Asymmetry) {
    exists t: string :: b.declared == a.declared + ARROW + t && a.missing == t + ARROW + b.missing
  }

  /** Two findings are remembered under one key exactly if they are about the same
      link, or their names contain the arrow in just this way. */
  lemma KeysCollideIff(a: Asymmetry, b: Asymmetry)
    ensures Key(a) == Key(b) <==> SameLink(a, b) || Shifted(a, b) || Shifted(b, a)
  {
    ShiftedKeys(a, b);
    ShiftedKeys(b, a);
    if Key(a) == Key(b) {
      if |a.declared| == |b.declared| {
        assert Key(a)[..|a.declared|] == a.declared && Key(b)[..|b.declared|] == b.declared;
        assert Key(a)[|a.declared| + 2..] == a.missing && Key(b)[|b.declared| + 2..] == b.missing;
      } else if |a.declared| < |b.declared| {
        LongerNameShifts(a, b);
      } else {
        LongerNameShifts(b, a);
      }
    }
  }

  lemma ShiftedKeys(a: Asymmetry, b: Asymmetry)
    ensures Shifted(a, b) ==> Key(a) == Key(b)
  {
    if t: string :| b.declared == a.declared + ARROW + t && a.missing == t + ARROW + b.missing {
      assert Key(a) == a.declared + ARROW + (t + ARROW + b.missing);
      assert Key(b) == (a.declared + ARROW + t) + ARROW + b.missing;
      assert Key(a) == Key(b);
    }
  }

  lemma LongerNameShifts(a: Asymmetry, b: Asymmetry)
    requires Key(a) == Key(b) && |a.declared| < |b.declared|
    ensures Shifted(a, b)
  {
    var k, m, n := Key(a), |a.declared|, |b.declared|;
    assert k[m] == '-' && k[m + 1] == '>' && k[n] == '-' && k[n + 1] == '>';
    assert k[..m] == a.declared && k[..n] == b.declared;
    assert m + 2 <= n;
    var t := k[m + 2..n];
    assert b.declared == a.declared + ARROW + t by {
      assert k[..n] == k[..m] + k[m..m + 2] + k[m + 2..n] && k[m..m + 2] == ARROW;
    }
    assert a.missing == t + ARROW + b.missing by {
      assert k[m + 2..] == a.missing && k[n + 2..] == b.missing;
      assert k[m + 2..] == k[m + 2..n] + k[n..n + 2] + k[n + 2..] && k[n..n + 2] == ARROW;
    }
  }

  /** A name without an arrow in it. */
  predicate Arrowless(id: Id) {
    forall i :: 0 <= i < |id| - 1 ==> !(id[i] == '-' && id[i + 1] == '>')
  }

  /** Among names without arrows every link has its own key. */
  lemma KeysAreDistinct(a: Asymmetry, b: Asymmetry)
    requires Arrowless(a.declared) && Arrowless(b.declared) && Key(a) == Key(b)
    ensures SameLink(a, b)
  {
    KeysCollideIff(a, b);
    ShiftNeedsArrow(a, b);
    ShiftNeedsArrow(b, a);
  }

  lemma JoinHasArrow(a: Id, t: string)
    ensures !Arrowless(a + ARROW + t)
  {
    var joined, m := a + ARROW + t, |a|;
    assert joined[m] == ARROW[0] && joined[m + 1] == ARROW[1];
  }

  lemma ShiftNeedsArrow(a: Asymmetry, b: Asymmetry)
    requires Arrowless(b.declared)
    ensures !Shifted(a, b)
  {
    forall t: string ensures b.declared != a.declared + ARROW + t { JoinHasArrow(a.declared, t); }
  }

  // ------------------------------------------- what is due, link by link

  ghost predicate ListsLink(found: seq<Asymmetry>, a: Asymmetry) {
    exists x :: x in found && SameLink(x, a)
  }

  ghost predicate ArrowlessNames(calls: seq<Call>) {
    forall i, x :: 0 <= i < |calls| && x in calls[i].found ==> Arrowless(x.declared)
  }

  lemma KeysAreLinks(found: seq<Asymmetry>, a: Asymmetry)
    requires Arrowless(a.declared) && forall x :: x in found ==> Arrowless(x.declared)
    ensures Key(a) in Keys(found) <==> ListsLink(found, a)
  {
    forall x | x in found ensures Key(x) == Key(a) <==> SameLink(x, a) {
      if Key(x) == Key(a) { KeysAreDistinct(x, a); }
    }
  }

  /** Calls `s` to `i` all find the link, and the one before `s` did not. */
  ghost predicate LinkEpisode(calls: seq<Call>, s: nat, i: nat, a: Asymmetry)
    requires s <= i < |calls|
  {
    && (forall j :: s <= j <= i ==> ListsLink(calls[j].found, a))
    && (s > 0 ==> !ListsLink(calls[s - 1].found, a))
  }

  lemma OneEpisode(calls: seq<Call>, s: nat, e: nat, i: nat, a: Asymmetry)
    requires s <= i < |calls| && e <= i && LinkEpisode(calls, s, i, a) && LinkEpisode(calls, e, i, a)
    ensures s == e
  {
    hide ListsLink;
  }

  /** Over every run, for names without arrows: a one-sided link is reported by
      exactly the first call of each unbroken episode that comes later than the
      grace period after the episode's first. */
  lemma LinkDueIsExact(calls: seq<Call>, grace: Time, i: nat, a: Asymmetry)
    requires i < |calls| && ArrowlessNames(calls) && Arrowless(a.declared)
    ensures ListsLink(ReportOf(calls, grace, i), a) <==>
      exists s: nat :: s <= i && LinkEpisode(calls, s, i, a)
        && PastGrace(calls, grace, s, i) && forall j :: s <= j < i ==> !PastGrace(calls, grace, s, j)
  {
    var k, report := Key(a), ReportOf(calls, grace, i);
    DueIsExact(calls, grace, i, k);
    ReportIsArrowless(calls, grace, i);
    KeysAreLinks(report, a);
    forall j | 0 <= j < |calls| ensures k in Keys(calls[j].found) <==> ListsLink(calls[j].found, a) {
      KeysAreLinks(calls[j].found, a);
    }
    hide Keys, ListsLink, PastGrace, Key;
    if k in Keys(calls[i].found) {
      var e := EpisodeStart(calls, i, k);
      assert LinkEpisode(calls, e, i, a);
      forall s: nat | s <= i && LinkEpisode(calls, s, i, a) ensures s == e {
        OneEpisode(calls, s, e, i, a);
      }
    }
  }

  lemma ReportIsArrowless(calls: seq<Call>, grace: Time, i: nat)
    requires i < |calls| && ArrowlessNames(calls)
    ensures forall x :: x in ReportOf(calls, grace, i) ==> Arrowless(x.declared)
  {
    hide NoteAll, Arrowless, Keys;
    var w, found := After(calls[..i], grace), calls[i].found;
    var report := ReportOf(calls, grace, i);
    RunRemembers(calls[..i], grace, "");
    NoteAllReports(w, found, calls[i].now, grace, "");
    forall x | x in report ensures x in found { assert x in Elements(report); }
  }

  // ------------------------------------------- what a shared key does

  /** `a` is the first finding of `found` under its key. */
  ghost predicate Leads(found: seq<Asymmetry>, a: Asymmetry) {
    exists p :: 0 <= p < |found| && found[p] == a && forall i :: 0 <= i < p ==> Key(found[i]) != Key(a)
  }

  /** Of the findings under one key only the first is ever reported. */
  lemma {:induction false} OnlyLeaderReported(w: Memory, found: seq<Asymmetry>, now: Time, grace: Time, a: Asymmetry, b: Asymmetry)
    requires w.warned <= w.firstSeen.Keys && Leads(found, a) && Key(a) == Key(b) && a != b
    ensures b !in NoteAll(w, found, now, grace).1
    decreases |found|
  {
    hide Key;
    var init, last := found[..|found| - 1], found[|found| - 1];
    var p :| 0 <= p < |found| && found[p] == a && forall i :: 0 <= i < p ==> Key(found[i]) != Key(a);
    NoteAllRemembers(w, init, now, grace, Key(a));
    NoteAllReports(w, init, now, grace, Key(a));
    if p < |init| {
      assert init[p] == a;
      assert Leads(init, a);
      OnlyLeaderReported(w, init, now, grace, a, b);
      assert Key(a) in Keys(init);
    } else {
      forall j | 0 <= j < |init| ensures init[j] != b { assert found[j] == init[j]; }
      assert b !in Elements(init);
    }
  }

  lemma {:induction false} PrefixIsLess(a: Id, tail: string)
    requires tail != ""
    ensures Less(a, a + tail)
    decreases |a|
  {
    if a != "" {
      PrefixIsLess(a[1..], tail);
      assert (a + tail)[1..] == a[1..] + tail;
    }
  }

  lemma ShorterNameFirst(a: Asymmetry, b: Asymmetry)
    requires Shifted(a, b)
    ensures a != b && Key(a) == Key(b) && !ListedBefore(b, a)
  {
    var t: string :| b.declared == a.declared + ARROW + t && a.missing == t + ARROW + b.missing;
    assert b.declared == a.declared + (ARROW + t);
    PrefixIsLess(a.declared, ARROW + t);
    ShiftedKeys(a, b);
    LessIrreflexive(a.declared);
    hide Less;
    if Less(b.declared, a.declared) { LessTransitive(a.declared, b.declared, a.declared); }
  }

  /** Who comes after another finding of its key does not lead. */
  lemma LaterDoesNotLead(found: seq<Asymmetry>, a: Asymmetry, b: Asymmetry)
    requires forall i, j :: 0 <= i < j < |found| ==> ListedBefore(found[i], found[j])
    requires a in found && a != b && Key(a) == Key(b) && !ListedBefore(b, a)
    ensures !Leads(found, b)
  {
    hide ListedBefore, Key;
    var i :| 0 <= i < |found| && found[i] == a;
    forall p | 0 <= p < |found| && found[p] == b ensures i < p {
    }
  }

  /** A report lists a shifted pair with the shorter name first. */
  lemma ShorterNameLeads(edges: seq<Edge>, a: Asymmetry, b: Asymmetry)
    requires Shifted(a, b) && IsFinding(edges, a)
    ensures !Leads(AsymmetriesOf(edges), b)
  {
    hide IsFinding, AsymmetriesOf, ListedBefore, Shifted, Key, Leads;
    AsymmetriesAreExact(edges);
    ShorterNameFirst(a, b);
    LaterDoesNotLead(AsymmetriesOf(edges), a, b);
  }

  lemma {:induction false} SomeoneLeads(found: seq<Asymmetry>, b: Asymmetry) returns (a: Asymmetry)
    requires b in found
    ensures Leads(found, a) && Key(a) == Key(b)
    decreases |found|
  {
    hide Key;
    var n := |found| - 1;
    if x :| x in found[..n] && Key(x) == Key(b) {
      a := SomeoneLeads(found[..n], x);
      StillLeads(found, n, a);
    } else {
      a := found[n];
      forall i | 0 <= i < n ensures Key(found[i]) != Key(b) { assert found[i] in found[..n]; }
      assert b == a;
    }
  }

  lemma StillLeads(found: seq<Asymmetry>, n: nat, a: Asymmetry)
    requires n <= |found| && Leads(found[..n], a)
    ensures Leads(found, a)
  {
    hide Key;
    var p :| 0 <= p < n && found[..n][p] == a && forall i :: 0 <= i < p ==> Key(found[..n][i]) != Key(a);
    assert found[p] == a;
    forall i | 0 <= i < p ensures Key(found[i]) != Key(a) { assert found[..n][i] == found[i]; }
  }

  /** A collision hides a link for good: in every run in which the shifted link `a` is
      found whenever `b` is, `b` is never reported, however long it stays one-sided. */
  lemma ShiftedLinkIsNeverReported(topologies: seq<seq<Edge>>, times: seq<Time>, grace: Time, a: Asymmetry, b: Asymmetry, i: nat)
    requires |topologies| == |times| && i < |times| && Shifted(a, b)
    requires forall j :: 0 <= j < |topologies| && IsFinding(topologies[j], b) ==> IsFinding(topologies[j], a)
    ensures b !in ReportOf(Sweeps(topologies, times), grace, i)
  {
    var calls := Sweeps(topologies, times);
    var found := calls[i].found;
    var w := After(calls[..i], grace);
    AsymmetriesAreExact(topologies[i]);
    RunRemembers(calls[..i], grace, "");
    NoteAllReports(w, found, calls[i].now, grace, Key(b));
    if b in found {
      ShorterNameLeads(topologies[i], a, b);
      var lead := SomeoneLeads(found, b);
      OnlyLeaderReported(w, found, calls[i].now, grace, lead, b);
    } else {
      assert b !in Elements(found);
    }
  }

  /** The watch run over what `Asymmetries` finds in each topology. */
  ghost function Sweeps(topologies: seq<seq<Edge>>, times: seq<Time>): seq<Call>
    requires |topologies| == |times|
  {
    seq(|times|, i requires 0 <= i < |times| => Call.Call(AsymmetriesOf(topologies[i]), times[i]))
  }

  ghost predicate InNameOrder(found: seq<Asymmetry>) {
    forall i, j :: 0 <= i < j < |found| ==>
      NameBefore(found[i].declared, found[j].declared)
      || (found[i].declared == found[j].declared && NameBefore(found[i].missing, found[j].missing))
  }

  lemma InitInOrder(found: seq<Asymmetry>, a: Asymmetry)
    requires InNameOrder(found + [a])
    ensures InNameOrder(found)
    ensures forall x :: x in found ==>
      NameBefore(x.declared, a.declared) || (x.declared == a.declared && NameBefore(x.missing, a.missing))
  {
    hide NameBefore;
    var all := found + [a];
    assert forall i :: 0 <= i < |found| ==> all[i] == found[i];
    assert all[|found|] == a;
  }

  lemma OneMoreInOrder(report: seq<Asymmetry>, a: Asymmetry)
    requires InNameOrder(report)
    requires forall x :: x in report ==>
      NameBefore(x.declared, a.declared) || (x.declared == a.declared && NameBefore(x.missing, a.missing))
    ensures InNameOrder(report + [a])
  {
    hide NameBefore;
    var all := report + [a];
    forall i | 0 <= i < |report| ensures all[i] == report[i] && report[i] in report {}
  }

  /** Reports list findings in the order in which they were found. */
  lemma {:induction false} ReportInOrder(w: Memory, found: seq<Asymmetry>, now: Time, grace: Time)
    requires InNameOrder(found)
    ensures InNameOrder(NoteAll(w, found, now, grace).1)
    ensures forall x :: x in NoteAll(w, found, now, grace).1 ==> x in found
  {
    hide Note, InNameOrder;
    if found == [] {
      assert InNameOrder([]) by { NoneInOrder(); }
    } else {
      var init, a := found[..|found| - 1], found[|found| - 1];
      assert found == init + [a];
      InitInOrder(init, a);
      ReportInOrder(w, init, now, grace);
      OneMoreInOrder(NoteAll(w, init, now, grace).1, a);
    }
  }

  lemma NoneInOrder()
    ensures InNameOrder([])
  {
  }

  /** What the console is told at each sweep is sorted by declaring and missing node. */
  lemma ReportsAreSorted(topologies: seq<seq<Edge>>, times: seq<Time>, grace: Time, i: nat)
    requires |topologies| == |times| && i < |times|
    ensures InNameOrder(ReportOf(Sweeps(topologies, times), grace, i))
  {
    hide NoteAll, AsymmetriesOf, IsFinding, After, NameBefore, ListedBefore;
    var calls := Sweeps(topologies, times);
    AsymmetriesAreExact(topologies[i]);
    forall a, b ensures ListedBefore(a, b) <==>
      NameBefore(a.declared, b.declared) || (a.declared == b.declared && NameBefore(a.missing, b.missing))
    {
      ListedByName(a, b);
    }
    ReportInOrder(After(calls[..i], grace), calls[i].found, calls[i].now, grace);
  }
}
