/**
 * The fixed scenario that the Jarbas/Grazy Wi-Fi program declares to the
 * network simulator before it starts the clock: three nodes with their roles,
 * where each one starts, how each one moves, the order in which their Wi-Fi
 * devices are handed to the address helper, the UDP echo applications with
 * their start and stop instants, and the instant at which the run ends.
 *
 * All times are simulated seconds and all coordinates metres, both as `real`.
 */
module JarbasGrazy {

  datatype Option<T> = None | Some(value: T)

  /** A point of the simulator's Cartesian space. */
  datatype Vector = Vector(x: real, y: real, z: real)

  const Origin := Vector(0.0, 0.0, 0.0)

  function SqNorm(v: Vector): real
  {
    v.x * v.x + v.y * v.y + v.z * v.z
  }

  function Dot(u: Vector, v: Vector): real
  {
    u.x * v.x + u.y * v.y + u.z * v.z
  }

  // ---------------------------------------------------------------------------
  // Node roles

  /** The three nodes of the container: 0 is the router, 1 Jarbas, 2 Grazy. */
  datatype Role = Router | Jarbas | Grazy

  const NodeCount: nat := 3

  /** Where each role sits in the node container. */
  function NodeIndex(r: Role): (i: nat)
    ensures i < NodeCount
    ensures i == 0 <==> r == Router
  {
    match r
    case Router => 0
    case Jarbas => 1
    case Grazy => 2
  }

  /** The role of container slot `i`; there is none past the third node. */
  function RoleAt(i: nat): (r: Option<Role>)
    ensures r.Some? <==> i < NodeCount
    ensures r.Some? ==> NodeIndex(r.value) == i
  {
    if i == 0 then Some(Router)
    else if i == 1 then Some(Jarbas)
    else if i == 2 then Some(Grazy)
    else None
  }

  /** Slot and role determine each other. */
  lemma RoleIndexRoundTrip(r: Role, i: nat)
    ensures RoleAt(NodeIndex(r)) == Some(r)
    ensures i < NodeCount ==> NodeIndex(RoleAt(i).value) == i
  {
  }

  // ---------------------------------------------------------------------------
  // Initial positions and mobility models

  /** The positions given to the list allocator, in the order they are added. */
  const AllocatorPositions: seq<Vector> :=
    [Vector(0.0, 0.0, 0.0), Vector(1.0, 0.0, 0.0), Vector(0.0, 1.0, 0.0)]

  /**
   * Mobility is installed on node 0, then node 1, then node 2, so node `i`
   * takes the `i`-th position of the allocator.
   */
  function InitialPosition(r: Role): (p: Vector)
    ensures p == Origin <==> r == Router
    ensures SqNorm(p) == if r == Router then 0.0 else 1.0
  {
    AllocatorPositions[NodeIndex(r)]
  }

  /** No two nodes start at the same place. */
  lemma InitialPositionsDistinct(r: Role, s: Role)
    requires r != s
    ensures InitialPosition(r) != InitialPosition(s)
  {
  }

  datatype MobilityModel = ConstantPosition | WaypointDriven

  /** The router keeps its position; the two stations follow waypoints. */
  function MobilityOf(r: Role): (m: MobilityModel)
    ensures m == ConstantPosition <==> r == Router
  {
    if r == Router then ConstantPosition else WaypointDriven
  }

  // ---------------------------------------------------------------------------
  // Wi-Fi devices and address order

  /** Station devices, installed on nodes 1 and 2 in that order. */
  const StaDevices: seq<Role> := [Jarbas, Grazy]

  /** The access-point device, installed on node 0. */
  const ApDevices: seq<Role> := [Router]

  /**
   * The device container handed to the address helper: the access point
   * first, then the stations. Interface `k` of the resulting interface
   * container belongs to the node `AddressOrder()[k]`.
   */
  function AddressOrder(): (order: seq<Role>)
    ensures |order| == NodeCount
    ensures forall r: Role :: order[NodeIndex(r)] == r
  {
    ApDevices + StaDevices
  }

  /** The node behind interface `k` of an interface container. */
  function InterfaceHost(order: seq<Role>, k: nat): (r: Option<Role>)
    ensures r.Some? <==> k < |order|
    ensures r.Some? ==> r.value in order
  {
    if k < |order| then Some(order[k]) else None
  }

  ghost predicate NoDuplicates(order: seq<Role>)
  {
    forall i, j :: 0 <= i < j < |order| ==> order[i] != order[j]
  }

  /** Every node receives exactly one address. */
  ghost predicate EachNodeOnce(order: seq<Role>)
  {
    NoDuplicates(order) && forall r: Role :: r in order
  }

  /**
   * The access point comes first, then the stations in node order, and every
   * node is addressed exactly once.
   */
  lemma AddressOrderApFirst()
    ensures EachNodeOnce(AddressOrder())
    ensures forall k :: 0 <= k < NodeCount ==> InterfaceHost(AddressOrder(), k) == RoleAt(k)
    ensures InterfaceHost(AddressOrder(), 0) == Some(Router)
    ensures forall k :: 0 < k < NodeCount ==> InterfaceHost(AddressOrder(), k) != Some(Router)
  {
    var order := AddressOrder();
    assert order == [Router, Jarbas, Grazy];
    forall r: Role ensures r in order {
      assert order[NodeIndex(r)] == r;
    }
  }

  // ---------------------------------------------------------------------------
  // Applications and timeline

  /** A closed activity window `[start, stop]` of an application. */
  datatype Interval = Interval(start: real, stop: real)

  predicate WellFormed(w: Interval)
  {
    0.0 <= w.start < w.stop
  }

  predicate ActiveAt(w: Interval, t: real)
  {
    w.start <= t <= w.stop
  }

  predicate Within(inner: Interval, outer: Interval)
  {
    outer.start <= inner.start && inner.stop <= outer.stop
  }

  /** Containment of windows is containment of the instants at which they are active. */
  lemma WithinMeansActiveWithin(inner: Interval, outer: Interval)
    requires WellFormed(inner)
    ensures Within(inner, outer) <==> forall t :: ActiveAt(inner, t) ==> ActiveAt(outer, t)
  {
    if forall t :: ActiveAt(inner, t) ==> ActiveAt(outer, t) {
      assert ActiveAt(inner, inner.start);
      assert ActiveAt(inner, inner.stop);
    }
  }

  datatype EchoServer = EchoServer(host: Role, port: nat, active: Interval)

  /**
   * An echo client: its node, the index in the interface container of the
   * address it sends to, that address's port, and its traffic attributes.
   */
  datatype EchoClient = EchoClient(
    host: Role,
    remoteInterface: nat,
    remotePort: nat,
    maxPackets: nat,
    interval: real,
    packetSize: nat,
    active: Interval)

  /** Everything the program hands to the simulator besides the waypoints. */
  datatype Scenario = Scenario(
    addressOrder: seq<Role>,
    server: EchoServer,
    clients: seq<EchoClient>,
    stopTime: real)

  /** A client that is well configured against the scenario's server and timeline. */
  ghost predicate ClientValid(s: Scenario, c: EchoClient)
  {
    && c.host != s.server.host
    && InterfaceHost(s.addressOrder, c.remoteInterface) == Some(s.server.host)
    && c.remotePort == s.server.port
    && c.maxPackets > 0 && c.interval > 0.0 && c.packetSize > 0
    && WellFormed(c.active)
    && Within(c.active, s.server.active)
    && c.active.stop <= s.stopTime
  }

  /** The invariants the declared scenario is built to satisfy. */
  ghost predicate Valid(s: Scenario)
  {
    && EachNodeOnce(s.addressOrder)
    && InterfaceHost(s.addressOrder, 0) == Some(Router)
    && s.server.host == Router
    && WellFormed(s.server.active)
    && s.server.active.stop <= s.stopTime
    && (forall c :: c in s.clients ==> ClientValid(s, c))
    && (forall i, j :: 0 <= i < j < |s.clients| ==> s.clients[i].host != s.clients[j].host)
  }

  const EchoPort: nat := 9

  const ServerWindow := Interval(1.0, 60.0)
  const ClientWindow := Interval(2.0, 60.0)
  const StopTime: real := 60.0

  /** One echo client on node `host`, configured as both clients are. */
  function EchoClientOn(host: Role): (c: EchoClient)
    ensures c.host == host
  {
    EchoClient(host, 0, EchoPort, 10000, 1.0, 1024, ClientWindow)
  }

  /** The scenario as the program declares it. */
  function Declared(): (s: Scenario)
    ensures |s.clients| == 2
  {
    Scenario(
      AddressOrder(),
      EchoServer(Router, EchoPort, ServerWindow),
      [EchoClientOn(Jarbas), EchoClientOn(Grazy)],
      StopTime)
  }

  lemma DeclaredIsValid()
    ensures Valid(Declared())
  {
    var s := Declared();
    AddressOrderApFirst();
    forall c | c in s.clients ensures ClientValid(s, c) {
      assert c == s.clients[0] || c == s.clients[1];
    }
  }

  /**
   * In a valid scenario every client sends to the server's node on the
   * server's port, and whenever a client is active the server is active too,
   * and the run has not ended.
   */
  lemma ValidClientsReachActiveServer(s: Scenario, c: EchoClient, t: real)
    requires Valid(s) && c in s.clients
    ensures c.remoteInterface < |s.addressOrder| && s.addressOrder[c.remoteInterface] == s.server.host
    ensures c.remotePort == s.server.port
    ensures ActiveAt(c.active, t) ==> ActiveAt(s.server.active, t) && t <= s.stopTime
  {
    assert ClientValid(s, c);
  }

  /**
   * The declared timeline: the server is up over [1, 60], both clients over
   * [2, 60], inside the server's window, and nothing stops after the run ends
   * at 60; the clients address interface 0, which is the router's.
   */
  lemma DeclaredTimeline()
    ensures Declared().server.active == Interval(1.0, 60.0)
    ensures forall c :: c in Declared().clients ==>
              c.active == Interval(2.0, 60.0) && Within(c.active, Declared().server.active)
              && c.active.stop <= Declared().stopTime
              && InterfaceHost(Declared().addressOrder, c.remoteInterface) == Some(Router)
    ensures Declared().server.active.stop <= Declared().stopTime == 60.0
  {
  }
}
