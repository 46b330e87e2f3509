/** Neighbour liveness and link costs, and how each routing algorithm is kept in
    step with them: the node's discovery plane as functions of its state. */
module Discovery {
  import opened Options
  import opened Ordering
  import opened Graphs
  import opened SeenCaches
  import LinkState
  import StaticMode

  const MIN_COST: real := 0.01
  const COST_SMOOTHING: real := 0.25
  const UNKNOWN_COST: real := 1.0
  const DEAD_AFTER: Time := 14 * SECOND

  /** What is known of one direct link; `lastSeen` is absent until first heard. */
  datatype Neighbor = Neighbor(alive: bool, cost: real, lastSeen: Option<Time>)
  type Neighbors = map<Id, Neighbor>

  // ------------------------------------------------------- the neighbours

  /** Someone the discovery plane listens to: not nameless and not this node. */
  predicate Foreign(self: Id, id: Id) {
    id != "" && id != self
  }

  /** `markAlive`: any packet proves its sender alive, at the cost on record; the
      routing plane is told when that is a change. */
  function Heard(self: Id, ns: Neighbors, id: Id, now: Time): (Neighbors, Option<real>) {
    if !Foreign(self, id) then (ns, None)
    else
      var was := if id in ns then ns[id] else Neighbor(false, UNKNOWN_COST, None);
      (ns[id := Neighbor(true, was.cost, Some(now))], if was.alive then None else Some(was.cost))
  }

  /** The moving average of a live link's cost. */
  function Smoothed(cost: real, sample: real): real {
    cost * (1.0 - COST_SMOOTHING) + sample * COST_SMOOTHING
  }

  /** `markAliveWithCost`: a measurement is always reported. */
  function Measured(self: Id, ns: Neighbors, id: Id, sample: real, now: Time): (Neighbors, Option<real>) {
    if !Foreign(self, id) then (ns, None)
    else
      var cost := if id in ns && ns[id].alive && ns[id].cost > 0.0 then Smoothed(ns[id].cost, sample) else sample;
      (ns[id := Neighbor(true, cost, Some(now))], Some(cost))
  }

  /** `handleEcho`: half the round trip in milliseconds, at least the floor, which
      also stands in for a missing timestamp. */
  function EchoCost(sent: Option<real>, clock: real): real {
    match sent
    case None => MIN_COST
    case Some(t0) =>
      var cost := (clock - t0) * 1000.0 / 2.0;
      if cost < MIN_COST then MIN_COST else cost
  }

  predicate Overdue(n: Neighbor, now: Time) {
    n.alive && n.lastSeen.Some? && now - n.lastSeen.value > DEAD_AFTER
  }

  function Dead(ns: Neighbors, now: Time): set<Id> {
    set id | id in ns && Overdue(ns[id], now)
  }

  function Reaped(ns: Neighbors, now: Time): Neighbors {
    map id | id in ns :: if Overdue(ns[id], now) then ns[id].(alive := false) else ns[id]
  }

  function Alive(ns: Neighbors): set<Id> {
    set id | id in ns && ns[id].alive
  }

  /** The costs of exactly the live neighbours. */
  function LiveCosts(ns: Neighbors): Links {
    map id | id in ns && ns[id].alive :: ns[id].cost
  }

  /** The neighbours that were alive once and are no longer. */
  function Lost(ns: Neighbors): set<Id> {
    set id | id in ns && !ns[id].alive && ns[id].lastSeen.Some?
  }

  // ---------------------------------------------------- the routing plane

  /** What each algorithm keeps: the link-state machine, the neighbours that are
      down in the static graph, or just the costs in flooding mode. */
  datatype Routing =
    | LinkStateMode(st: LinkState.State)
    | DijkstraMode(base: Graph, current: StaticMode.State)
    | FloodingMode(costs: Links)

  ghost function LinkUp(self: Id, r: Routing, n: Id, cost: real, msgId: string, now: Time): Routing {
    match r
    case LinkStateMode(st) => LinkStateMode(LinkState.OnLinkUp(self, st, n, cost, msgId, now).0)
    case DijkstraMode(base, st) => DijkstraMode(base, StaticMode.Handle(base, self, st, StaticMode.Up(n)))
    case FloodingMode(costs) => FloodingMode(costs[n := cost])
  }

  ghost function LinkDown(self: Id, r: Routing, n: Id, msgId: string, now: Time): Routing {
    match r
    case LinkStateMode(st) => LinkStateMode(LinkState.OnLinkDown(self, st, n, msgId, now).0)
    case DijkstraMode(base, st) => DijkstraMode(base, StaticMode.Handle(base, self, st, StaticMode.Down(n)))
    case FloodingMode(costs) => FloodingMode(costs - {n})
  }

  /** Link-down calls for `downs` in turn, each with the id of its announcement. */
  ghost function LinksDown(self: Id, r: Routing, downs: seq<(Id, string)>, now: Time): Routing {
    if downs == [] then r
    else
      var last := downs[|downs| - 1];
      LinkDown(self, LinksDown(self, r, downs[..|downs| - 1], now), last.0, last.1, now)
  }

  // ----------------------------------------------------------------- runs

  datatype Plane = Plane(neighbors: Neighbors, routing: Routing)

  /** A hello, an echo, an announcement whose previous hop was read as `via`, or a
      periodic duty. `downs` lists the dead in the order their map is iterated. */
  datatype Input =
    | Hello(from: Id)
    | Echo(from: Id, sent: Option<real>, clock: real)
    | Announcement(via: Id, info: LinkState.Info)
    | Reap(downs: seq<(Id, string)>)
    | Duty(input: LinkState.Input)

  /** One handler call; `msgId` is the random id an announcement would get. */
  datatype Step = Step(input: Input, msgId: string, now: Time)

  function Firsts(downs: seq<(Id, string)>): seq<Id> {
    seq(|downs|, i requires 0 <= i < |downs| => downs[i].0)
  }

  /** What can happen: the dead are listed in some order; the link-state timers
      tick and its announcements arrive, but links only change through discovery. */
  ghost predicate Possible(p: Plane, step: Step) {
    match step.input
    case Reap(downs) => Elements(Firsts(downs)) == Dead(p.neighbors, step.now)
    case Duty(input) => input.Refresh? || input.Ageing?
    case _ => true
  }

  ghost function Report(self: Id, r: Routing, id: Id, cost: Option<real>, msgId: string, now: Time): Routing {
    if cost.None? then r else LinkUp(self, r, id, cost.value, msgId, now)
  }

  ghost function Internal(self: Id, r: Routing, input: LinkState.Input, msgId: string, now: Time): Routing {
    match r
    case LinkStateMode(st) => LinkStateMode(LinkState.Handle(self, st, LinkState.Event(input, msgId, now)).0)
    case _ => r
  }

  ghost function Next(self: Id, p: Plane, step: Step): Plane {
    if !Possible(p, step) then p
    else match step.input
      case Hello(from) =>
        var (ns, cost) := Heard(self, p.neighbors, from, step.now);
        Plane(ns, Report(self, p.routing, from, cost, step.msgId, step.now))
      case Echo(from, sent, clock) =>
        var (ns, cost) := Measured(self, p.neighbors, from, EchoCost(sent, clock), step.now);
        Plane(ns, Report(self, p.routing, from, cost, step.msgId, step.now))
      case Announcement(via, info) =>
        var (ns, cost) := Heard(self, p.neighbors, via, step.now);
        var r := Report(self, p.routing, via, cost, step.msgId, step.now);
        Plane(ns, Internal(self, r, LinkState.Received(info), "", step.now))
      case Reap(downs) => Plane(Reaped(p.neighbors, step.now), LinksDown(self, p.routing, downs, step.now))
      case Duty(input) => p.(routing := Internal(self, p.routing, input, step.msgId, step.now))
  }

  ghost function Run(self: Id, p: Plane, steps: seq<Step>): Plane {
    if steps == [] then p else Next(self, Run(self, p, steps[..|steps| - 1]), steps[|steps| - 1])
  }

  /** A node as `New` leaves it: its configured neighbours, none heard yet, and an
      algorithm that knows no link event. */
  ghost predicate Fresh(p: Plane) {
    && (forall id :: id in p.neighbors ==> !p.neighbors[id].alive && p.neighbors[id].lastSeen.None?)
    && match p.routing
       case LinkStateMode(st) => st.links == map[]
       case DijkstraMode(_, st) => st.down == {}
       case FloodingMode(costs) => costs == map[]
  }

  // ------------------------------------------ discovery and routing agree

  /** The routing plane works with the live neighbours at their smoothed costs;
      static mode, with the configured graph less those that went silent. */
  ghost predicate Agrees(p: Plane) {
    match p.routing
    case LinkStateMode(st) => st.links == LiveCosts(p.neighbors)
    case DijkstraMode(_, st) => st.down == Lost(p.neighbors)
    case FloodingMode(costs) => costs == LiveCosts(p.neighbors)
  }

  /** An entry that is alive has been heard. */
  ghost predicate Timed(ns: Neighbors) {
    forall id :: id in ns && ns[id].alive ==> ns[id].lastSeen.Some?
  }

  lemma ReportKeepsAgreement(self: Id, p: Plane, ns: Neighbors, id: Id, n: Neighbor, cost: Option<real>, msgId: string, now: Time)
    requires Agrees(p) && n.alive && n.lastSeen.Some? && ns == p.neighbors[id := n]
    requires cost.Some? ==> cost.value == n.cost
    requires cost.None? ==> id in p.neighbors && p.neighbors[id].alive && p.neighbors[id].cost == n.cost
    ensures Agrees(Plane(ns, Report(self, p.routing, id, cost, msgId, now)))
  {
    hide LinkState.TableFor;
    assert LiveCosts(ns) == LiveCosts(p.neighbors)[id := n.cost];
    assert Lost(ns) == Lost(p.neighbors) - {id};
  }

  /** The routing plane without the links to `gone`, or with them marked down. */
  ghost predicate Without(before: Routing, after: Routing, gone: set<Id>) {
    match before
    case LinkStateMode(st) => after.LinkStateMode? && after.st.links == st.links - gone
    case DijkstraMode(base, st) => after.DijkstraMode? && after.current.down == st.down + gone
    case FloodingMode(costs) => after.FloodingMode? && after.costs == costs - gone
  }

  lemma {:induction false} DownsRemove(self: Id, r: Routing, downs: seq<(Id, string)>, now: Time)
    ensures Without(r, LinksDown(self, r, downs, now), Elements(Firsts(downs)))
    decreases |downs|
  {
    hide LinkState.TableFor;
    if downs == [] {
      assert Elements(Firsts(downs)) == {};
    } else {
      var init, last := downs[..|downs| - 1], downs[|downs| - 1];
      DownsRemove(self, r, init, now);
      assert Firsts(downs) == Firsts(init) + [last.0];
      ElementsAppend(Firsts(init), last.0);
    }
  }

  lemma InternalKeepsLinks(self: Id, r: Routing, input: LinkState.Input, msgId: string, now: Time)
    requires !input.LinkUp? && !input.LinkDown?
    ensures Without(r, Internal(self, r, input, msgId, now), {})
  {
    hide LinkState.TableFor;
  }

  lemma NextKeepsAgreement(self: Id, p: Plane, step: Step)
    requires Agrees(p) && Timed(p.neighbors)
    ensures Agrees(Next(self, p, step)) && Timed(Next(self, p, step).neighbors)
  {
    hide LinkUp, LinksDown, Internal;
    if Possible(p, step) {
      match step.input
      case Hello(from) => HeardKeepsAgreement(self, p, from, step.msgId, step.now);
      case Echo(from, sent, clock) => MeasuredKeepsAgreement(self, p, from, EchoCost(sent, clock), step.msgId, step.now);
      case Announcement(via, info) =>
        HeardKeepsAgreement(self, p, via, step.msgId, step.now);
        var (ns, cost) := Heard(self, p.neighbors, via, step.now);
        var r := Report(self, p.routing, via, cost, step.msgId, step.now);
        InternalKeepsLinks(self, r, LinkState.Received(info), "", step.now);
      case Reap(downs) =>
        DownsRemove(self, p.routing, downs, step.now);
        var ns, gone := p.neighbors, Dead(p.neighbors, step.now);
        assert LiveCosts(Reaped(ns, step.now)) == LiveCosts(ns) - gone;
        assert Lost(Reaped(ns, step.now)) == Lost(ns) + gone;
      case Duty(input) => InternalKeepsLinks(self, p.routing, input, step.msgId, step.now);
    }
  }

  lemma HeardKeepsAgreement(self: Id, p: Plane, id: Id, msgId: string, now: Time)
    requires Agrees(p) && Timed(p.neighbors)
    ensures var (ns, cost) := Heard(self, p.neighbors, id, now);
      Agrees(Plane(ns, Report(self, p.routing, id, cost, msgId, now))) && Timed(ns)
  {
    var (ns, cost) := Heard(self, p.neighbors, id, now);
    hide Agrees, LinkUp;
    if Foreign(self, id) { ReportKeepsAgreement(self, p, ns, id, ns[id], cost, msgId, now); }
  }

  lemma MeasuredKeepsAgreement(self: Id, p: Plane, id: Id, sample: real, msgId: string, now: Time)
    requires Agrees(p) && Timed(p.neighbors)
    ensures var (ns, cost) := Measured(self, p.neighbors, id, sample, now);
      Agrees(Plane(ns, Report(self, p.routing, id, cost, msgId, now))) && Timed(ns)
  {
    var (ns, cost) := Measured(self, p.neighbors, id, sample, now);
    hide Agrees, LinkUp;
    if Foreign(self, id) { ReportKeepsAgreement(self, p, ns, id, ns[id], cost, msgId, now); }
  }

  /** Discovery and routing agree: after every run of complete handlers, in every
      mode, the routing plane's links are the smoothed costs of exactly the live
      neighbours (in static mode, its pruned nodes exactly the lost ones). */
  lemma {:induction false} DiscoveryAgrees(self: Id, start: Plane, steps: seq<Step>)
    requires Fresh(start)
    ensures Agrees(Run(self, start, steps)) && Timed(Run(self, start, steps).neighbors)
  {
    hide Next;
    if steps != [] {
      DiscoveryAgrees(self, start, steps[..|steps| - 1]);
      NextKeepsAgreement(self, Run(self, start, steps[..|steps| - 1]), steps[|steps| - 1]);
    }
  }

  // ------------------------------------------------------ who counts as alive

  /** A step that proves `id` alive. */
  predicate Hears(self: Id, step: Step, id: Id) {
    Foreign(self, id) && match step.input
      case Hello(from) => from == id
      case Echo(from, _, _) => from == id
      case Announcement(via, _) => via == id
      case _ => false
  }

  /** The last step that proved `id` alive; -1 if none did. */
  function LastHeard(self: Id, steps: seq<Step>, id: Id): (i: int)
    ensures -1 <= i < |steps| && (i >= 0 ==> Hears(self, steps[i], id))
    ensures forall j :: i < j < |steps| ==> !Hears(self, steps[j], id)
  {
    if steps == [] then -1
    else if Hears(self, steps[|steps| - 1], id) then |steps| - 1
    else LastHeard(self, steps[..|steps| - 1], id)
  }

  /** Every step could happen when it did. */
  ghost predicate Legal(self: Id, start: Plane, steps: seq<Step>) {
    steps != [] ==>
      && Legal(self, start, steps[..|steps| - 1])
      && Possible(Run(self, start, steps[..|steps| - 1]), steps[|steps| - 1])
  }

  /** No sweep came more than fourteen seconds after step `i`. */
  ghost predicate SweptInTime(steps: seq<Step>, i: nat)
    requires i < |steps|
  {
    forall j :: i < j < |steps| && steps[j].input.Reap? ==> steps[j].now - steps[i].now <= DEAD_AFTER
  }

  /** A neighbour is alive exactly when it has been heard and no sweep since came
      too late after the last time; its record is dated by that time. */
  lemma {:induction false} AliveExactly(self: Id, start: Plane, steps: seq<Step>, id: Id)
    requires Fresh(start) && Legal(self, start, steps)
    ensures var ns, i := Run(self, start, steps).neighbors, LastHeard(self, steps, id);
      && (id in Alive(ns) <==> i >= 0 && SweptInTime(steps, i))
      && (i >= 0 ==> id in ns && ns[id].lastSeen == Some(steps[i].now))
  {
    if steps != [] {
      var init, last := steps[..|steps| - 1], steps[|steps| - 1];
      AliveExactly(self, start, init, id);
      var i := LastHeard(self, init, id);
      StepTracks(self, Run(self, start, init), last, id);
      if i >= 0 && !Hears(self, last, id) { SweptOneMore(init, last, i); }
      assert steps == init + [last];
    }
  }

  lemma SweptOneMore(steps: seq<Step>, last: Step, i: nat)
    requires i < |steps|
    ensures SweptInTime(steps + [last], i) <==>
      SweptInTime(steps, i) && (last.input.Reap? ==> last.now - steps[i].now <= DEAD_AFTER)
  {
    var all := steps + [last];
    if SweptInTime(all, i) {
      assert all[|steps|] == last;
      forall j | i < j < |steps| && steps[j].input.Reap? ensures steps[j].now - steps[i].now <= DEAD_AFTER {
        assert all[j] == steps[j];
      }
    }
  }

  /** How one step changes one neighbour's liveness. */
  lemma StepTracks(self: Id, p: Plane, step: Step, id: Id)
    requires Possible(p, step)
    ensures var ns, after := p.neighbors, Next(self, p, step).neighbors;
      if Hears(self, step, id) then id in after && after[id].alive && after[id].lastSeen == Some(step.now)
      else
        && (id in ns <==> id in after)
        && (id in ns ==> after[id].lastSeen == ns[id].lastSeen)
        && (id in Alive(after) <==> id in Alive(ns) && !(step.input.Reap? && Overdue(ns[id], step.now)))
  {
    hide Report, LinksDown, Internal;
  }

  // ----------------------------------------------------------- the cost floor

  /** Only others are ever alive, and their costs respect the floor. */
  ghost predicate Floored(self: Id, ns: Neighbors) {
    forall id :: id in ns ==>
      (ns[id].alive ==> Foreign(self, id)) && (Foreign(self, id) ==> ns[id].cost >= MIN_COST)
  }

  lemma {:induction false} RunKeepsFloor(self: Id, start: Plane, steps: seq<Step>)
    requires Floored(self, start.neighbors)
    ensures Floored(self, Run(self, start, steps).neighbors)
  {
    hide Report, LinksDown, Internal;
    if steps != [] { RunKeepsFloor(self, start, steps[..|steps| - 1]); }
  }

  /** No run ever gives the routing plane a link below the floor. */
  ghost predicate NeverBelowFloor(self: Id, start: Plane) {
    forall steps :: CostsFloored(Run(self, start, steps))
  }

  ghost predicate CostsFloored(p: Plane) {
    forall id :: id in LiveCosts(p.neighbors) ==> LiveCosts(p.neighbors)[id] >= MIN_COST
  }

  /** The floor `handleEcho` applies protects measured links only: no link cost
      ever falls below it if and only if no configured cost does. */
  lemma FloorIffConfigured(self: Id, start: Plane)
    requires Fresh(start)
    ensures NeverBelowFloor(self, start) <==>
      forall id :: id in start.neighbors && Foreign(self, id) ==> start.neighbors[id].cost >= MIN_COST
  {
    if id :| id in start.neighbors && Foreign(self, id) && start.neighbors[id].cost < MIN_COST {
      var steps := [Step(Hello(id), "", 0)];
      assert steps[..0] == [] && Run(self, start, []) == start;
      var p := Next(self, start, steps[0]);
      assert p == Run(self, start, steps) && p.neighbors[id].cost == start.neighbors[id].cost;
      assert id in LiveCosts(p.neighbors);
      assert !CostsFloored(p);
    } else {
      forall steps ensures CostsFloored(Run(self, start, steps)) { RunKeepsFloor(self, start, steps); }
    }
  }

  // -------------------------------------------------------------- smoothing

  /** A cost after samples taken while the neighbour stays alive. */
  function SmoothedAll(cost: real, samples: seq<real>): real {
    if samples == [] then cost
    else Smoothed(SmoothedAll(cost, samples[..|samples| - 1]), samples[|samples| - 1])
  }

  /** What `steps` measured of `id`. */
  function Samples(steps: seq<Step>, id: Id): seq<real> {
    if steps == [] then []
    else
      var last := steps[|steps| - 1];
      Samples(steps[..|steps| - 1], id) +
      if last.input.Echo? && last.input.from == id then [EchoCost(last.input.sent, last.input.clock)] else []
  }

  ghost predicate AliveThroughout(self: Id, p: Plane, steps: seq<Step>, id: Id) {
    && id in Alive(Run(self, p, steps).neighbors)
    && (steps != [] ==> AliveThroughout(self, p, steps[..|steps| - 1], id))
  }

  /** While a neighbour stays alive with a positive cost, its cost is the moving
      average of its samples, whatever else happens in between. */
  lemma {:induction false} CostIsSmoothed(self: Id, p: Plane, steps: seq<Step>, id: Id)
    requires Foreign(self, id) && AliveThroughout(self, p, steps, id)
    requires id in p.neighbors && p.neighbors[id].cost > 0.0
    ensures var ns := Run(self, p, steps).neighbors;
      id in ns && ns[id].cost == SmoothedAll(p.neighbors[id].cost, Samples(steps, id)) > 0.0
  {
    hide Report, LinksDown, Internal;
    if steps != [] {
      var init, last := steps[..|steps| - 1], steps[|steps| - 1];
      CostIsSmoothed(self, p, init, id);
      assert Samples(init, id) + [] == Samples(init, id);
      assert id in Alive(Run(self, p, init).neighbors);
      if last.input.Echo? && last.input.from == id {
        var samples := Samples(steps, id);
        assert samples[..|samples| - 1] == Samples(init, id);
      }
    }
  }

  /** The average stays between the least and the greatest of the starting cost
      and the samples. */
  lemma {:induction false} SmoothingStaysBetween(cost: real, samples: seq<real>, low: real, high: real)
    requires low <= cost <= high && forall i :: 0 <= i < |samples| ==> low <= samples[i] <= high
    ensures low <= SmoothedAll(cost, samples) <= high
  {
    if samples != [] { SmoothingStaysBetween(cost, samples[..|samples| - 1], low, high); }
  }

  function Power(x: real, k: nat): real {
    if k == 0 then 1.0 else x * Power(x, k - 1)
  }

  /** After `k` equal samples the distance to them is exactly (3/4)^k of what it
      was. */
  lemma {:induction false} SmoothingConverges(cost: real, sample: real, k: nat)
    ensures SmoothedAll(cost, seq(k, i => sample)) - sample == Power(0.75, k) * (cost - sample)
  {
    if k > 0 {
      SmoothingConverges(cost, sample, k - 1);
      var samples := seq(k, i => sample);
      assert samples[..k - 1] == seq(k - 1, i => sample);
      var d := SmoothedAll(cost, samples[..k - 1]) - sample;
      assert SmoothedAll(cost, samples) - sample == 0.75 * d;
      assert 0.75 * (Power(0.75, k - 1) * (cost - sample)) == Power(0.75, k) * (cost - sample);
    }
  }

  // ------------------------------------------------ what a link costs

  /** `c` is half the time, in milliseconds, from `sent` to `clock`, both in seconds,
      but at least a hundredth, which also stands in for a missing stamp. */
  predicate HalfTheTrip(sent: Option<real>, clock: real, c: real) {
    if sent.Some? && 1000.0 * (clock - sent.value) >= 2.0 * MIN_COST
    then 1000.0 * sent.value + 2.0 * c == 1000.0 * clock
    else c == MIN_COST
  }

  /** `cost` is half the round trip, if the neighbour was not alive or had no cost;
      else a quarter of the way there from the cost on record. */
  ghost predicate EchoMeasures(before: Neighbors, id: Id, sent: Option<real>, clock: real, cost: real) {
    exists c :: HalfTheTrip(sent, clock, c) &&
      4.0 * cost ==
        if id in before && before[id].alive && before[id].cost > 0.0 then 3.0 * before[id].cost + c else 4.0 * c
  }

  /** What an echo makes a link cost, for discovery and for the routing plane. */
  lemma EchoedCost(self: Id, p: Plane, step: Step)
    requires step.input.Echo? && step.input.from != "" && step.input.from != self
    ensures var id, r := step.input.from, Next(self, p, step);
      && id in Alive(r.neighbors) && EchoMeasures(p.neighbors, id, step.input.sent, step.input.clock, r.neighbors[id].cost)
      && (r.routing.LinkStateMode? ==> id in r.routing.st.links)
      && (r.routing.LinkStateMode? ==> r.routing.st.links[id] == r.neighbors[id].cost)
  {
    var id, r := step.input.from, Next(self, p, step);
    hide LinkState.TableFor;
    var c := EchoCost(step.input.sent, step.input.clock);
    assert HalfTheTrip(step.input.sent, step.input.clock, c);
    assert r.neighbors[id].cost == Measured(self, p.neighbors, id, c, step.now).0[id].cost;
  }

  /** What a hello makes a link cost: what is on record, or 1 for a stranger. */
  lemma GreetedCost(self: Id, p: Plane, step: Step)
    requires Agrees(p) && Timed(p.neighbors)
    requires step.input.Hello? && step.input.from != "" && step.input.from != self
    ensures var id, r := step.input.from, Next(self, p, step);
      && id in Alive(r.neighbors)
      && r.neighbors[id].cost == (if id in p.neighbors then p.neighbors[id].cost else 1.0)
      && (r.routing.LinkStateMode? ==> id in r.routing.st.links)
      && (r.routing.LinkStateMode? ==> r.routing.st.links[id] == r.neighbors[id].cost)
  {
    NextKeepsAgreement(self, p, step);
    hide Report, LinkUp;
  }

  predicate Echoed(steps: seq<Step>, id: Id) {
    exists i :: 0 <= i < |steps| && steps[i].input.Echo? && steps[i].input.from == id
  }

  /** Only its own echoes change the cost on record for a neighbour: it survives any
      silence, any loss and return, and all other traffic. */
  lemma {:induction false} CostStaysOnRecord(self: Id, p: Plane, steps: seq<Step>, id: Id)
    requires id in p.neighbors && !Echoed(steps, id)
    ensures var ns := Run(self, p, steps).neighbors; id in ns && ns[id].cost == p.neighbors[id].cost
  {
    hide Report, LinksDown, Internal;
    if steps != [] {
      var init := steps[..|steps| - 1];
      assert forall i :: 0 <= i < |init| ==> init[i] == steps[i];
      CostStaysOnRecord(self, p, init, id);
      assert !(steps[|steps| - 1].input.Echo? && steps[|steps| - 1].input.from == id);
    }
  }

  /** Nobody without a name, nor the node itself, ever comes to be its neighbour: over
      every run what is known of such an id stays as it was, and it is never alive. */
  lemma {:induction false} NoStrangeNeighbours(self: Id, start: Plane, steps: seq<Step>, id: Id)
    requires Fresh(start) && (id == "" || id == self)
    ensures var ns := Run(self, start, steps).neighbors;
      && id !in Alive(ns)
      && (id in ns <==> id in start.neighbors)
      && (id in ns ==> ns[id] == start.neighbors[id])
  {
    hide Report, LinksDown, Internal;
    if steps != [] { NoStrangeNeighbours(self, start, steps[..|steps| - 1], id); }
  }
}
