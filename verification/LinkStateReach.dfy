/** Exactly how far announcements are sure to get. */
module LinkStateReach {
  import opened Ordering
  import opened LinkState
  import opened FloodCore
  import opened LinkStateFlood
  import opened Healing
  import LinkStateRuns
  import Lines

  type Net = LinkStateFlood.Net
  type Event = LinkStateFlood.Event

  /** What is safe in all runs is safe in orderly ones. */
  lemma {:induction false} OrderlyRunIsARun(live: LiveGraph, start: Net, events: seq<Event>) returns (kept: seq<Event>)
    ensures After(live, start, events) == LinkStateRuns.Through(live, start, kept)
  {
    hide Occur;
    kept := [];
    if events != [] {
      var before, ev := events[..|events| - 1], events[|events| - 1];
      kept := OrderlyRunIsARun(live, start, before);
      if Enabled(live, After(live, start, before), ev) {
        assert (kept + [ev])[..|kept|] == kept;
        kept := kept + [ev];
      }
    }
  }

  /** On at most `nodes` nodes every orderly run without loss, of nodes that know
      their neighbours, leaves every node up to date with every origin that the live
      graph connects it to, once it falls quiet. */
  ghost predicate Converges(nodes: nat) {
    forall live: LiveGraph, start, events, o, v ::
      Sound(live) && Initial(live, start) && |live.Keys| <= nodes && Whole(live, events)
      && Quiet(After(live, start, events)) && o in live && v != o && Reachable(live, {}, o, v) ==>
        v in live && UpToDate(After(live, start, events), v, o)
  }

  /** Exactly how many nodes the hop budget is enough for. */
  lemma ConvergesIff(nodes: nat)
    ensures Converges(nodes) <==> nodes <= BUDGET + 1
  {
    hide After, UpToDate, Whole;
    if nodes <= BUDGET + 1 {
      forall live: LiveGraph, start, events, o, v |
        Sound(live) && Initial(live, start) && |live.Keys| <= nodes && Whole(live, events)
        && Quiet(After(live, start, events)) && o in live && v != o && Reachable(live, {}, o, v)
        ensures v in live && UpToDate(After(live, start, events), v, o)
      {
        FloodConverges(live, start, events, o, v);
        ReachableIsNode(live, o, v);
      }
    } else {
      TooLong(nodes);
    }
  }

  lemma ReachableIsNode(live: LiveGraph, o: Id, v: Id)
    requires WellFormed(live) && o in live && Reachable(live, {}, o, v)
    ensures v in live
  {
    var p :| OpenPath(live, {}, p) && p[0] == o && p[|p| - 1] == v;
    if |p| > 1 { assert live[p[|p| - 2]] <= live.Keys; }
  }

  // ------------------------------------------------------ too many nodes

  lemma AfterOneMore(live: LiveGraph, start: Net, events: seq<Event>, ev: Event)
    ensures After(live, start, events + [ev]) == Apply(live, After(live, start, events), ev)
    ensures Whole(live, events) && Whole(live, [ev]) ==> Whole(live, events + [ev])
  {
    hide Apply;
    assert (events + [ev])[..|events|] == events;
    assert [ev][0] == ev;
  }

  ghost predicate OnlyFlies(net: Net, m: string) {
    forall n :: n in net.floods && n != m ==> net.floods[n].flying == multiset{}
  }

  lemma DrainStep(live: LiveGraph, net: Net, m: string, e: Envelope)
    requires Sound(live) && Inv(live, net) && m in net.floods && OnlyFlies(net, m) && e in net.floods[m].flying
    ensures var r := Apply(live, net, Delivering(e, 0, Neighbours(live, e.to)));
      && Inv(live, r) && m in r.floods && OnlyFlies(r, m) && SaysTheSame(net, r)
      && Work(live, r.floods[m]) < Work(live, net.floods[m])
  {
    var heard := Neighbours(live, e.to);
    FlyingIsEnabled(live, net, m, e);
    hide Apply, Inv, Work, Enabled;
    ApplyKeepsInv(live, net, Delivering(e, 0, heard));
    DeliveringTakesWork(live, net, e, 0, heard);
    DeliveringSaysTheSame(live, net, e, 0, heard);
  }

  lemma FlyingIsEnabled(live: LiveGraph, net: Net, m: string, e: Envelope)
    requires Sound(live) && Inv(live, net) && m in net.floods && e in net.floods[m].flying
    ensures e.info.msgId == m && Enabled(live, net, Delivering(e, 0, Neighbours(live, e.to)))
  {
    hide Numbered, Filed;
    assert FloodOk(live, net, m) && Carries(net.floods[m], m, e);
    assert AsCopy(e) in CopiesIn(net.floods[m].flying);
    assert live[e.info.via] <= live.Keys;
  }

  /** Delivering what is in flight ends. */
  lemma {:induction false} Drain(live: LiveGraph, start: Net, events: seq<Event>, m: string) returns (more: seq<Event>)
    requires Sound(live) && Whole(live, events)
    requires var net := After(live, start, events); Inv(live, net) && m in net.floods && OnlyFlies(net, m)
    ensures Whole(live, events + more)
    ensures var net, r := After(live, start, events), After(live, start, events + more); Quiet(r) && SaysTheSame(net, r)
    decreases Work(live, After(live, start, events).floods[m])
  {
    hide Apply, After, Inv, Work, Enabled, Whole, Neighbours, SaysTheSame, Sound;
    var net := After(live, start, events);
    more := [];
    assert events + more == events;
    AlwaysTheSame(net);
    if e :| e in net.floods[m].flying {
      var ev := Delivering(e, 0, Neighbours(live, e.to));
      DrainStep(live, net, m, e);
      AfterOneMore(live, start, events, ev);
      assert Whole(live, [ev]) by { DeliveryIsWhole(live, e); }
      more := Drain(live, start, events + [ev], m);
      assert events + [ev] + more == events + ([ev] + more);
      StillTheSame(net, After(live, start, events + [ev]), After(live, start, events + [ev] + more));
      more := [ev] + more;
    }
  }

  lemma AlwaysTheSame(net: Net)
    ensures SaysTheSame(net, net)
  {
  }

  lemma StillTheSame(a: Net, b: Net, c: Net)
    requires SaysTheSame(a, b) && SaysTheSame(b, c)
    ensures SaysTheSame(a, c)
  {
  }

  lemma DeliveryIsWhole(live: LiveGraph, e: Envelope)
    ensures Whole(live, [Delivering(e, 0, Neighbours(live, e.to))])
  {
  }

  function Booted(live: LiveGraph): Net {
    Net.Net(map v | v in live :: INITIAL, map[], map[])
  }

  lemma TooLong(nodes: nat)
    requires nodes > BUDGET + 1
    ensures !Converges(nodes)
  {
    hide Lines.Line, Lines.Stop, Booted, Initial, After, UpToDate, Quiet, Within, Reachable, Whole;
    var live, o, v := Lines.Line(nodes), Lines.Stop(0), Lines.Stop(nodes - 1);
    Lines.EndOfLine(nodes, BUDGET);
    var start := Booted(live);
    BootedIsInitial(live);
    var events := Spoken(live, start, o);
    NotHeard(live, start, events, o, v);
    assert !UpToDate(After(live, start, events), v, o);
  }

  lemma BootedIsInitial(live: LiveGraph)
    ensures Initial(live, Booted(live))
  {
  }

  /** A run in which `o` announces and everything is delivered. */
  lemma Spoken(live: LiveGraph, start: Net, o: Id) returns (events: seq<Event>)
    requires Sound(live) && Initial(live, start) && o in live
    ensures Whole(live, events)
    ensures var r := After(live, start, events);
      Quiet(r) && o in r.latest && r.nodes.Keys == live.Keys
  {
    var ev := Local(o, LinkState.Event(Refresh, "m", 0), Neighbours(live, o));
    RefreshFromStart(live, start, o);
    AfterOneMore(live, start, [], ev);
    assert [] + [ev] == [ev] && Whole(live, [ev]);
    hide Apply, Inv, Whole, After;
    var more := Drain(live, start, [ev], "m");
    events := [ev] + more;
  }

  lemma RefreshFromStart(live: LiveGraph, start: Net, o: Id)
    requires Sound(live) && Initial(live, start) && o in live
    ensures After(live, start, []) == start
    ensures var net := Apply(live, start, Local(o, LinkState.Event(Refresh, "m", 0), Neighbours(live, o)));
      Inv(live, net) && "m" in net.floods && OnlyFlies(net, "m") && o in net.latest && net.nodes.Keys == live.Keys
  {
    InitialInv(live, start);
    ApplyKeepsInv(live, start, Local(o, LinkState.Event(Refresh, "m", 0), Neighbours(live, o)));
    hide Inv, Relay;
  }

  lemma NotHeard(live: LiveGraph, start: Net, events: seq<Event>, o: Id, v: Id)
    requires Sound(live) && Initial(live, start) && v !in Within(live, o, BUDGET) && o in live && v in live
    requires var r := After(live, start, events); o in r.latest && r.nodes.Keys == live.Keys
    ensures !UpToDate(After(live, start, events), v, o)
  {
    hide After;
    var kept := OrderlyRunIsARun(live, start, events);
    if o in After(live, start, events).nodes[v].lsdb {
      LinkStateRuns.NeverBeyondBudget(live, start, kept, v, o);
    }
  }
}
