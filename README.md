# Jarbas/Grazy Wi-Fi scenario — a Dafny model

The program builds an ns-3 simulation with three nodes. Node 0 is a Wi-Fi
router (the access point). Nodes 1 and 2 ("Jarbas" and "Grazy") are stations
that move away from the router and back. Jarbas moves along the x axis and
Grazy along the y axis. Both stations run a UDP echo client that talks to an
echo server on the router. A flow monitor collects per-flow statistics until
the run stops at 60 s.

Only two pieces of `main` hold logic of their own, and this project models both:

- **The waypoint generator** (`mobility.dfy`, module `Mobility`). Two counted
  loops give each station 51 waypoints, one per second. On the outbound leg
  (i = 0..25) the distance from the router is 1 + i·49/25. On the return leg
  (i = 26..50) it is 1 + (50 − i)·49/25. `GenerateWaypoints` keeps the two
  loops and their appends to the two waypoint lists. It is proved equal to
  the specification function `Trajectory`. Lemmas about `Trajectory` and
  `Distance` state the shape of the result: length, timestamps, strict time
  order, bounds, monotone legs, mirror symmetry, a single apex, equality
  with a reference triangle wave, orthogonal axes, and the start at the
  allocated initial position.
- **The scenario declaration** (`scenario.dfy`, module `JarbasGrazy`). This
  holds the node roles and the initial positions from the list allocator. It
  says which node keeps a constant position and which nodes follow waypoints.
  It holds the device order given to the address helper (access point
  first), the echo server and the two clients with their attributes, and the
  simulator stop time. The predicate `Valid` states the invariants the
  declaration is built to meet, and `DeclaredIsValid` proves that the
  declared values meet them.

Times are simulated seconds and coordinates are metres, both of type `real`.

Three facts about the program shape the model:

- The last waypoint is at 50 s, ten seconds before the run stops at 60 s.
  `TrajectoryTimes` states this.
- The sample count, the step and the turning point are fixed literals in the
  loops, so the model uses the same fixed constants.
- The program performs no checks of its own while it builds the scenario.
  The model states the conditions the declaration meets as the predicate
  `Valid`, and proves that the declared scenario satisfies it.

## Model

| member | source | states |
|---|---|---|
| JarbasGrazy.NodeIndex | jarbas-grazy-wifi.cc:20-21 | each role has a slot among the three nodes, and slot 0 is exactly the router |
| JarbasGrazy.RoleAt | jarbas-grazy-wifi.cc:20-21 | slots 0..2 have a role and no other slot does; the role found maps back to the same slot |
| JarbasGrazy.RoleIndexRoundTrip | jarbas-grazy-wifi.cc:21 | slot and role determine each other, in both directions |
| JarbasGrazy.InitialPosition | jarbas-grazy-wifi.cc:47-58 | only the router starts at the origin, and both stations start exactly 1 m from it (the body gives node i the allocator's i-th position, as mobility is installed on nodes 0, 1, 2 in that order) |
| JarbasGrazy.InitialPositionsDistinct | jarbas-grazy-wifi.cc:48-50 | no two nodes share an initial position |
| JarbasGrazy.MobilityOf | jarbas-grazy-wifi.cc:53-58 | the router, and only the router, gets a constant-position model; the stations follow waypoints |
| JarbasGrazy.AddressOrder | jarbas-grazy-wifi.cc:37-80 | the device container given to the address helper holds three devices, and device k belongs to node k: the access point first, then Jarbas, then Grazy |
| JarbasGrazy.InterfaceHost | jarbas-grazy-wifi.cc:80-88 | an interface index resolves to a node exactly when it is inside the container, and that node is in the container |
| JarbasGrazy.AddressOrderApFirst | jarbas-grazy-wifi.cc:37-88 | every node is addressed exactly once; interface k resolves to the node in slot k, so interface 0, the clients' destination, is the router's, and no other interface is |
| JarbasGrazy.WithinMeansActiveWithin | jarbas-grazy-wifi.cc:85-97 | one activity window lies inside another exactly when every instant of the first is an instant of the second |
| JarbasGrazy.EchoClientOn | jarbas-grazy-wifi.cc:88-97 | a client built from the shared client helper runs on the node it is installed on |
| JarbasGrazy.Declared | jarbas-grazy-wifi.cc:80-114 | the declared scenario has exactly two echo clients |
| JarbasGrazy.DeclaredIsValid | jarbas-grazy-wifi.cc:80-114 | the declared scenario is valid: every node has one address, the access point is first, the server is on the router, the clients are on distinct stations, send to the server's address and port, and have windows inside the server's and before the stop time |
| JarbasGrazy.ValidClientsReachActiveServer | jarbas-grazy-wifi.cc:85-97 | in any valid scenario a client's destination is the server's node and port, and whenever a client is active the server is active and the run has not ended |
| JarbasGrazy.DeclaredTimeline | jarbas-grazy-wifi.cc:85-114 | the server is active over [1, 60] and both clients over [2, 60], inside the server's window; all stops are at or before the run stop at 60; the clients' destination interface is the router's |
| Mobility.Distance | jarbas-grazy-wifi.cc:63-69 | every waypoint distance lies in [1, 50]; it is 50 exactly at i = 25, and 1 exactly at i = 0 and i = 50 |
| Mobility.OnAxis | jarbas-grazy-wifi.cc:65-71 | a waypoint position lies at exactly the computed distance from the origin, in the z = 0 plane |
| Mobility.AxisOf | jarbas-grazy-wifi.cc:65-71 | Jarbas, and only Jarbas, moves along the x axis |
| Mobility.Trajectory | jarbas-grazy-wifi.cc:63-72 | a station's waypoint list has 51 entries |
| Mobility.GenerateWaypoints | jarbas-grazy-wifi.cc:63-72 | the two loops build exactly the Jarbas and Grazy trajectories |
| Mobility.AscendingIsStrictlySorted | jarbas-grazy-wifi.cc:63-72 | waypoints added in increasing time order, pair by pair, are strictly ordered in time across the whole list |
| Mobility.TrajectoryTimes | jarbas-grazy-wifi.cc:63-70 | 51 waypoints, waypoint k at second k, consecutive times increasing, from 0 to 50, and 50 is before the 60 s stop |
| Mobility.TrajectoryStrictlySorted | jarbas-grazy-wifi.cc:63-72 | any earlier waypoint of a trajectory has a strictly smaller timestamp |
| Mobility.OutboundRecedes | jarbas-grazy-wifi.cc:63-64 | on the outbound leg the distance strictly increases, from 1 at i = 0 to 50 at i = 25 |
| Mobility.ReturnApproaches | jarbas-grazy-wifi.cc:68-69 | on the return leg the distance strictly decreases, back to 1 at i = 50 |
| Mobility.Mirror | jarbas-grazy-wifi.cc:63-69 | the return leg mirrors the outbound leg: dist(i) = dist(50 − i) |
| Mobility.SingleApex | jarbas-grazy-wifi.cc:63-69 | the maximum distance is reached at second 25 and nowhere else |
| Mobility.DistanceIsTriangle | jarbas-grazy-wifi.cc:63-69 | the distance law equals a triangle wave with apex 50 at second 25, and changes by exactly 49/25 per second (up, then down) |
| Mobility.NeverAtRouter | jarbas-grazy-wifi.cc:48-69 | every waypoint lies 1 to 50 m from the router, so no waypoint coincides with the router's position |
| Mobility.OrthogonalAtEverySecond | jarbas-grazy-wifi.cc:65-71 | Jarbas's waypoints have y = z = 0 and Grazy's x = z = 0; at each timestamp both are at the same distance on orthogonal axes and never at the same point |
| Mobility.StartsAtInitialPosition | jarbas-grazy-wifi.cc:49-66 | each station's first waypoint is its allocated initial position: (1,0,0) for Jarbas, (0,1,0) for Grazy |

## Left out

- Wi-Fi standard, PHY, MAC, channel, SSID and pcap capture: these are calls into the simulator with no logic of the program's own.
- The address values that the IPv4 address helper hands out (10.1.1.x). Only the container order that the program chooses is modelled.
- Installing the IP stack.
- What the echo applications do at run time: packet generation, echoes, timeouts, and whether a send scheduled at the stop instant happens. The model keeps only their declared attributes and activity windows.
- How the waypoint mobility model interpolates between waypoints, and where a station stays after its last waypoint at 50 s. This is simulator behaviour.
- The waypoint model's own check that waypoints come in time order. `Ascending` states that property, and `TrajectoryTimes` proves it of the generated lists.
- The waypoint lists live inside simulator objects. They are modelled as sequences returned by `GenerateWaypoints`, not as objects updated in place.
- IEEE-754 rounding of 49.0/25.0, which a double cannot represent exactly. Distances are exact reals, so the model makes no claim about bit-exact doubles.
- Logging, time resolution, global name registration, NetAnim labels, colours and packet metadata, flow-monitor installation and its XML export, and running and destroying the simulator. These are I/O or calls into the simulator.
