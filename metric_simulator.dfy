/**
 The metric simulator of the mock socket service: the state it owns (three
 series and two user counters) and one tick of the periodic update, which
 perturbs every value and publishes the four new snapshots through the hub.

 Every `Math.floor(Math.random() * k)` of a tick is a parameter `r` with
 `0 <= r < k`, so a tick is a deterministic step and its bounds are exact.
 */
module MetricSimulator {
  import opened EventHub

  /** The `k` of each `Math.floor(Math.random() * k) - k / 2`. */
  const SalesRange: nat := 200
  const TrafficRange: nat := 100
  const UserCountRange: nat := 10
  const ActiveUsersRange: nat := 8
  const RevenueRange: nat := 1000

  /** The offset a draw `r` stands for: `r - range / 2`. */
  function Offset(draw: int, range: nat): int {
    draw - range / 2
  }

  /** Every draw is a possible value of `Math.floor(Math.random() * range)`. */
  predicate DrawsIn(draws: seq<int>, range: nat) {
    forall i :: 0 <= i < |draws| ==> 0 <= draws[i] < range
  }

  /** `s.map(value => value + Math.floor(Math.random() * range) - range / 2)`, one draw per element. */
  function Perturb(s: seq<int>, draws: seq<int>, range: nat): (r: seq<int>)
    requires |draws| == |s|
    ensures |r| == |s|
    ensures forall i :: 0 <= i < |s| ==> r[i] - s[i] == Offset(draws[i], range)
  {
    if s == [] then []
    else [s[0] + Offset(draws[0], range)] + Perturb(s[1..], draws[1..], range)
  }

  /** With legal draws each element moves by an offset in `[-(range / 2), range - 1 - range / 2]`. */
  lemma PerturbBounds(s: seq<int>, draws: seq<int>, range: nat)
    requires |draws| == |s| && DrawsIn(draws, range)
    ensures forall i :: 0 <= i < |s| ==>
      s[i] - range / 2 <= Perturb(s, draws, range)[i] <= s[i] + (range - 1 - range / 2)
  {
  }

  /** The draws that turn `before` into `after`: the inverse of `Perturb`. */
  function DrawsBetween(before: seq<int>, after: seq<int>, range: nat): (draws: seq<int>)
    requires |after| == |before|
    ensures |draws| == |before|
  {
    seq(|before|, i requires 0 <= i < |before| => after[i] - before[i] + range / 2)
  }

  /**
   The bounds of `PerturbBounds` are exact: every target within them is reached
   by exactly the draws `DrawsBetween` recovers, and those draws are legal.
   */
  lemma PerturbReachesEveryOffset(s: seq<int>, target: seq<int>, range: nat)
    requires |target| == |s|
    requires forall i :: 0 <= i < |s| ==> s[i] - range / 2 <= target[i] <= s[i] + (range - 1 - range / 2)
    ensures DrawsIn(DrawsBetween(s, target, range), range)
    ensures Perturb(s, DrawsBetween(s, target, range), range) == target
  {
  }

  /** Different draws give different series: the tick loses none of its randomness. */
  lemma PerturbRecoversDraws(s: seq<int>, draws: seq<int>, range: nat)
    requires |draws| == |s|
    ensures DrawsBetween(s, Perturb(s, draws, range), range) == draws
  {
  }

  /** The series after the ticks whose draws are `rounds`, oldest first. */
  function Run(s: seq<int>, rounds: seq<seq<int>>, range: nat): (r: seq<int>)
    requires forall j :: 0 <= j < |rounds| ==> |rounds[j]| == |s|
    ensures |r| == |s|
    decreases |rounds|
  {
    if rounds == [] then s else Run(Perturb(s, rounds[0], range), rounds[1..], range)
  }

  /**
   Nothing clamps a series: after `n` ticks an element has drifted by at most
   `n` times the per-tick bound in either direction.
   */
  lemma {:induction false} RunDrift(s: seq<int>, rounds: seq<seq<int>>, range: nat, i: int)
    requires forall j :: 0 <= j < |rounds| ==> |rounds[j]| == |s| && DrawsIn(rounds[j], range)
    requires 0 <= i < |s|
    ensures s[i] - |rounds| * (range / 2) <= Run(s, rounds, range)[i]
    ensures Run(s, rounds, range)[i] <= s[i] + |rounds| * (range - 1 - range / 2)
    decreases |rounds|
  {
    if rounds != [] {
      var next := Perturb(s, rounds[0], range);
      var rest := rounds[1..];
      assert forall j :: 0 <= j < |rest| ==> rest[j] == rounds[j + 1];
      PerturbBounds(s, rounds[0], range);
      RunDrift(next, rest, range, i);
      assert Run(s, rounds, range) == Run(next, rest, range);
      StepsTimes(|rest|, range / 2);
      StepsTimes(|rest|, range - 1 - range / 2);
    }
  }

  /** One more tick adds one more per-tick bound. */
  lemma StepsTimes(n: nat, bound: int)
    ensures (n + 1) * bound == n * bound + bound
  {
  }

  /** The simulator's state: `salesData`, `trafficData`, `userCount`, `activeUsers`, `revenueData`. */
  datatype Metrics = Metrics(sales: seq<int>, traffic: seq<int>, userCount: int, activeUsers: int, revenue: seq<int>)

  /** The random draws of one tick, in the shape of the state they perturb. */
  datatype Draws = Draws(sales: seq<int>, traffic: seq<int>, userCount: int, activeUsers: int, revenue: seq<int>)

  /** The state at start-up. */
  function InitialMetrics(): Metrics {
    Metrics([1200, 1900, 3000, 5000, 2000, 3000], [500, 800, 1200, 1800, 1000, 1500], 1245, 789,
            [12000, 19000, 15000, 21000, 18000, 22000])
  }

  /** One draw per series element, and every draw a possible `Math.floor(Math.random() * k)`. */
  predicate DrawsFit(m: Metrics, d: Draws) {
    && |d.sales| == |m.sales| && DrawsIn(d.sales, SalesRange)
    && |d.traffic| == |m.traffic| && DrawsIn(d.traffic, TrafficRange)
    && 0 <= d.userCount < UserCountRange
    && 0 <= d.activeUsers < ActiveUsersRange
    && |d.revenue| == |m.revenue| && DrawsIn(d.revenue, RevenueRange)
  }

  /** The state after one tick with the given draws. */
  function Next(m: Metrics, d: Draws): Metrics
    requires |d.sales| == |m.sales| && |d.traffic| == |m.traffic| && |d.revenue| == |m.revenue|
  {
    Metrics(Perturb(m.sales, d.sales, SalesRange),
            Perturb(m.traffic, d.traffic, TrafficRange),
            m.userCount + Offset(d.userCount, UserCountRange),
            m.activeUsers + Offset(d.activeUsers, ActiveUsersRange),
            Perturb(m.revenue, d.revenue, RevenueRange))
  }

  /**
   A tick keeps every series' length and moves each value by an offset in its
   metric's range: sales [-100, 99], traffic [-50, 49], revenue [-500, 499],
   user count [-5, 4], active users [-4, 3]. Nothing is clamped.
   */
  lemma TickBounds(m: Metrics, d: Draws)
    requires DrawsFit(m, d)
    ensures var n := Next(m, d);
      && |n.sales| == |m.sales| && |n.traffic| == |m.traffic| && |n.revenue| == |m.revenue|
      && (forall i :: 0 <= i < |m.sales| ==> m.sales[i] - 100 <= n.sales[i] <= m.sales[i] + 99)
      && (forall i :: 0 <= i < |m.traffic| ==> m.traffic[i] - 50 <= n.traffic[i] <= m.traffic[i] + 49)
      && (forall i :: 0 <= i < |m.revenue| ==> m.revenue[i] - 500 <= n.revenue[i] <= m.revenue[i] + 499)
      && m.userCount - 5 <= n.userCount <= m.userCount + 4
      && m.activeUsers - 4 <= n.activeUsers <= m.activeUsers + 3
  {
  }

  /** Draws (8, 2) are offsets (+3, -2): users (1245, 789) become (1248, 787). */
  lemma UsersScenario(d: Draws)
    requires DrawsFit(InitialMetrics(), d) && d.userCount == 8 && d.activeUsers == 2
    ensures Next(InitialMetrics(), d).userCount == 1248
    ensures Next(InitialMetrics(), d).activeUsers == 787
  {
  }

  /** What an emit carries: a full series, or the user counters as one record. */
  datatype Payload = Series(values: seq<int>) | Users(userCount: int, activeUsers: int)

  /** One `emit` of a tick: the event, its payload and the callback invocations it made. */
  datatype Emission = Emission(event: string, payload: Payload, calls: seq<Call<Payload>>)

  /** The emit of `payload` on `event` given the registry at the time. */
  function Published(reg: Registry, event: string, payload: Payload): Emission {
    Emission(event, payload, Deliveries(ListOf(reg, event), payload))
  }

  class Simulator {
    var salesData: seq<int>
    var trafficData: seq<int>
    var userCount: int
    var activeUsers: int
    var revenueData: seq<int>
    const hub: Hub

    /** The current values, as one snapshot. */
    function Snapshot(): Metrics
      reads this
    {
      Metrics(salesData, trafficData, userCount, activeUsers, revenueData)
    }

    constructor (hub: Hub)
      ensures this.hub == hub
      ensures Snapshot() == InitialMetrics()
    {
      this.hub := hub;
      var m := InitialMetrics();
      salesData, trafficData, userCount, activeUsers, revenueData :=
        m.sales, m.traffic, m.userCount, m.activeUsers, m.revenue;
    }

    /**
     One run of the interval callback: advance every metric, then emit
     sales-update, traffic-update, users-update and revenue-update, in that
     order, each carrying the value just computed.
     */
    method Tick(draws: Draws) returns (emitted: seq<Emission>)
      requires DrawsFit(Snapshot(), draws)
      modifies this
      ensures Snapshot() == Next(old(Snapshot()), draws)
      ensures emitted == [
        Published(hub.callbacks, SalesUpdate, Series(salesData)),
        Published(hub.callbacks, TrafficUpdate, Series(trafficData)),
        Published(hub.callbacks, UsersUpdate, Users(userCount, activeUsers)),
        Published(hub.callbacks, RevenueUpdate, Series(revenueData))]
    {
      salesData := Perturb(salesData, draws.sales, SalesRange);
      var salesCalls := hub.Emit(SalesUpdate, Series(salesData));

      trafficData := Perturb(trafficData, draws.traffic, TrafficRange);
      var trafficCalls := hub.Emit(TrafficUpdate, Series(trafficData));

      userCount := userCount + Offset(draws.userCount, UserCountRange);
      activeUsers := activeUsers + Offset(draws.activeUsers, ActiveUsersRange);
      var usersCalls := hub.Emit(UsersUpdate, Users(userCount, activeUsers));

      revenueData := Perturb(revenueData, draws.revenue, RevenueRange);
      var revenueCalls := hub.Emit(RevenueUpdate, Series(revenueData));

      emitted := [
        Emission(SalesUpdate, Series(salesData), salesCalls),
        Emission(TrafficUpdate, Series(trafficData), trafficCalls),
        Emission(UsersUpdate, Users(userCount, activeUsers), usersCalls),
        Emission(RevenueUpdate, Series(revenueData), revenueCalls)];
    }
  }
}
