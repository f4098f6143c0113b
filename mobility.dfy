/**
 * The waypoint trajectories of the two mobile nodes. Each one recedes from
 * the router along its own axis at constant speed for 25 seconds and then
 * comes back the same way, one waypoint per second: Jarbas along the x axis,
 * Grazy along the y axis. Distances are in metres and exact over `real`.
 */
module Mobility {
  import opened JarbasGrazy

  /** A timestamped position handed to a node's waypoint mobility model. */
  datatype Waypoint = Waypoint(time: real, position: Vector)

  datatype Axis = XAxis | YAxis

  /** Last index of the outbound loop (it runs 0..25). */
  const OutboundLast: nat := 25
  /** Last index of the return loop (it runs 26..50). */
  const ReturnLast: nat := 50
  /** Distance from the router at the first waypoint. */
  const StartDistance: real := 1.0
  /** Distance covered between consecutive waypoints. */
  const Step: real := 49.0 / 25.0
  /** Distance reached at the turning point. */
  const FarthestDistance: real := 50.0

  /** Distance from the router of waypoint `i`, as the two loops compute it. */
  function Distance(i: nat): (d: real)
    requires i <= ReturnLast
    ensures StartDistance <= d <= FarthestDistance
    ensures d == FarthestDistance <==> i == OutboundLast
    ensures d == StartDistance <==> i == 0 || i == ReturnLast
  {
    if i <= OutboundLast then StartDistance + i as real * Step
    else StartDistance + (ReturnLast - i) as real * Step
  }

  /** The point at distance `d` from the router along axis `a`. */
  function OnAxis(a: Axis, d: real): (v: Vector)
    ensures SqNorm(v) == d * d
    ensures v.z == 0.0
  {
    match a
    case XAxis => Vector(d, 0.0, 0.0)
    case YAxis => Vector(0.0, d, 0.0)
  }

  /** The axis a mobile node moves along. */
  function AxisOf(r: Role): (a: Axis)
    requires r != Router
    ensures a == XAxis <==> r == Jarbas
  {
    if r == Jarbas then XAxis else YAxis
  }

  /** The full waypoint list of the node moving along `a`: waypoint `k` at second `k`. */
  function Trajectory(a: Axis): (t: seq<Waypoint>)
    ensures |t| == ReturnLast + 1
  {
    seq(ReturnLast + 1, k requires 0 <= k <= ReturnLast => Waypoint(k as real, OnAxis(a, Distance(k))))
  }

  /**
   * The two loops of the program: the outbound one adds, for i = 0..25, the
   * waypoint at second i and distance 1 + i*49/25 to both nodes; the return
   * one adds, for i = 26..50, the waypoint at second i and distance
   * 1 + (50 - i)*49/25.
   */
  method GenerateWaypoints() returns (jarbas: seq<Waypoint>, grazy: seq<Waypoint>)
    ensures jarbas == Trajectory(XAxis)
    ensures grazy == Trajectory(YAxis)
  {
    jarbas, grazy := [], [];
    var i: nat := 0;
    while i <= OutboundLast
      invariant i <= OutboundLast + 1
      invariant |jarbas| == |grazy| == i
      invariant forall k :: 0 <= k < i ==> jarbas[k] == Trajectory(XAxis)[k]
      invariant forall k :: 0 <= k < i ==> grazy[k] == Trajectory(YAxis)[k]
    {
      var dist := StartDistance + i as real * Step;
      jarbas := jarbas + [Waypoint(i as real, Vector(dist, 0.0, 0.0))];
      grazy := grazy + [Waypoint(i as real, Vector(0.0, dist, 0.0))];
      i := i + 1;
    }
    while i <= ReturnLast
      invariant OutboundLast < i <= ReturnLast + 1
      invariant |jarbas| == |grazy| == i
      invariant forall k :: 0 <= k < i ==> jarbas[k] == Trajectory(XAxis)[k]
      invariant forall k :: 0 <= k < i ==> grazy[k] == Trajectory(YAxis)[k]
    {
      var dist := StartDistance + (ReturnLast - i) as real * Step;
      jarbas := jarbas + [Waypoint(i as real, Vector(dist, 0.0, 0.0))];
      grazy := grazy + [Waypoint(i as real, Vector(0.0, dist, 0.0))];
      i := i + 1;
    }
  }

  // ---------------------------------------------------------------------------
  // Properties of the trajectories

  /** Each consecutive pair of waypoints is in strictly increasing time order. */
  ghost predicate Ascending(s: seq<Waypoint>)
  {
    forall k :: 0 <= k < |s| - 1 ==> s[k].time < s[k + 1].time
  }

  /** Timestamps increasing pair by pair are increasing over the whole list. */
  lemma {:induction false} AscendingIsStrictlySorted(s: seq<Waypoint>, i: nat, j: nat)
    requires Ascending(s)
    requires i < j < |s|
    ensures s[i].time < s[j].time
    decreases j - i
  {
    if i + 1 < j {
      AscendingIsStrictlySorted(s, i + 1, j);
    }
  }

  /**
   * 51 waypoints, 26 outbound and 25 back; waypoint k is at second k, so the
   * list runs from 0 to 50, ten seconds before the run stops at 60.
   */
  lemma TrajectoryTimes(a: Axis)
    ensures |Trajectory(a)| == 51
    ensures forall k :: 0 <= k < 51 ==> Trajectory(a)[k].time == k as real
    ensures Ascending(Trajectory(a))
    ensures Trajectory(a)[0].time == 0.0
    ensures Trajectory(a)[50].time == 50.0 < Declared().stopTime
  {
  }

  /** Any two waypoints of a trajectory are in strictly increasing time order. */
  lemma TrajectoryStrictlySorted(a: Axis, i: nat, j: nat)
    requires i < j < |Trajectory(a)|
    ensures Trajectory(a)[i].time < Trajectory(a)[j].time
  {
    TrajectoryTimes(a);
    AscendingIsStrictlySorted(Trajectory(a), i, j);
  }

  /** Outbound, the node recedes: from 1 at second 0 to 50 at second 25. */
  lemma OutboundRecedes(i: nat, j: nat)
    requires i < j <= OutboundLast
    ensures Distance(i) < Distance(j)
    ensures Distance(0) == 1.0 && Distance(OutboundLast) == 50.0
  {
  }

  /** On the way back, the node approaches: from 50 at second 25 to 1 at second 50. */
  lemma ReturnApproaches(i: nat, j: nat)
    requires OutboundLast <= i < j <= ReturnLast
    ensures Distance(i) > Distance(j)
    ensures Distance(ReturnLast) == 1.0
  {
  }

  /** The return leg mirrors the outbound leg around second 25. */
  lemma Mirror(i: nat)
    requires i <= ReturnLast
    ensures Distance(i) == Distance(ReturnLast - i)
  {
  }

  /** The single farthest point is reached at second 25. */
  lemma SingleApex(i: nat)
    requires i <= ReturnLast && i != OutboundLast
    ensures Distance(i) < Distance(OutboundLast)
  {
  }

  /** A reference triangle: 50 metres at second 25, minus one step per second away from it. */
  function Triangle(t: int): real
  {
    FarthestDistance - (if t <= OutboundLast then OutboundLast - t else t - OutboundLast) as real * Step
  }

  /** The distance law is the triangle wave, and changes by one step per second. */
  lemma DistanceIsTriangle(i: nat)
    requires i <= ReturnLast
    ensures Distance(i) == Triangle(i)
    ensures i < ReturnLast ==>
              Distance(i + 1) - Distance(i) == if i < OutboundLast then Step else -Step
  {
  }

  /** Every waypoint lies between 1 and 50 metres from the router, so never on it. */
  lemma NeverAtRouter(a: Axis, k: nat)
    requires k < |Trajectory(a)|
    ensures 1.0 <= SqNorm(Trajectory(a)[k].position) <= 2500.0
    ensures Trajectory(a)[k].position != InitialPosition(Router)
  {
    var d := Distance(k);
    assert Trajectory(a)[k].position == OnAxis(a, d);
    assert 1.0 <= d * d by {
      assert 1.0 * 1.0 <= d * 1.0 <= d * d;
    }
    assert d * d <= 2500.0 by {
      assert d * d <= d * 50.0 <= 50.0 * 50.0;
    }
  }

  /**
   * Jarbas stays on the x axis, Grazy on the y axis; at every second both are
   * at the same distance from the router on orthogonal axes, so they never
   * share a position.
   */
  lemma OrthogonalAtEverySecond(k: nat)
    requires k < |Trajectory(XAxis)|
    ensures Trajectory(XAxis)[k].position.y == Trajectory(XAxis)[k].position.z == 0.0
    ensures Trajectory(YAxis)[k].position.x == Trajectory(YAxis)[k].position.z == 0.0
    ensures Trajectory(XAxis)[k].time == Trajectory(YAxis)[k].time
    ensures SqNorm(Trajectory(XAxis)[k].position) == SqNorm(Trajectory(YAxis)[k].position)
    ensures Dot(Trajectory(XAxis)[k].position, Trajectory(YAxis)[k].position) == 0.0
    ensures Trajectory(XAxis)[k].position != Trajectory(YAxis)[k].position
  {
  }

  /** Each mobile node's first waypoint is where the allocator placed it. */
  lemma StartsAtInitialPosition(r: Role)
    requires r != Router
    ensures Trajectory(AxisOf(r))[0].position == InitialPosition(r)
  {
  }
}
