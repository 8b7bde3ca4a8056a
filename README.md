# Virtual SpaceWire router — a Dafny model

The virtual SpaceWire router connects five SpaceWire-over-TCP links. Port 1 is a TCP
client that connects to a SpaceWire-to-GigabitEther box on TCP port 10030. Ports 2 to 5
are TCP servers on TCP ports 10031 to 10034. Each port's receive loop hands one packet
at a time to the router. The router then does three things:
- it reads the packet's first byte as a SpaceWire path address;
- it deletes that byte and forwards the rest to the addressed port, if that port is
  operational;
- it counts the packets received and sent on every port, as wrapping 32-bit counters.

A send that reports a disconnection closes every port.

The model has five modules, one per concern:

- `SpaceWire` (`spacewire.dfy`) covers bytes, packets, port numbers and the 32-bit
  counters. It also holds `Classify`, the checks `routePacket` makes on a packet before
  it touches any port, and its inverse `Frame`.
- `SpaceWirePort` (`port.dfy`) holds the class `Port`. This is a port's operational flag
  `spwifOpened`, its single `receivedPacket` hand-off slot, its `sendMutex` (as a flag),
  and what its transport has been asked to send. It has `open`, `receive`, the release
  by the router, `send` and `close` as methods.
- `SpaceWireRouter` (`router.dfy`) holds the class `VirtualSpaceWireRouter`:
  - the port table built by the constructor;
  - the two counter vectors, as arrays;
  - `routePacket`, `finalize` and one turn of `ReceiveThread::run`, as methods.

  Each method is proved equal to a pure step on a `RouterView`. A `RouterView` is the
  state that routing reads and writes: each port's link, both counter vectors, and
  whether `finalize` has run. The pure steps are `RouteStep`, `Teardown` and
  `DispatchStep`.
- `RouterProperties` (`properties.dfy`) proves what routing promises:
  - for one call: discards, stripping of the address byte, counting, release of the
    source port, and teardown;
  - for any sequence of packet arrivals (`Run`) during which no port opens or leaves
    its receive loop, against independent reference definitions (`Sends`,
    `PayloadsTo`, `DeliveredTo`, `ArrivedOn`):
    - each port's send log grows by exactly the payloads of the packets addressed to
      it that reach a send, in arrival order; a packet for a non-operational port, or
      one after the first send that reports a disconnection, reaches no send;
    - each sent counter moves by the number of those sends that returned normally, and
      each received counter by the number of packets that arrived on its port, modulo
      2^32;
    - the router is torn down exactly when one of those sends reports a disconnection.

    `RunJoin` shows that a run can be cut after any arrival and continued from the
    view reached there; both parts keep the same operational ports.
- `RouterScenarios` (`scenarios.dfy`) proves the outcome of three concrete cases on the
  router object:
  - forwarding `[3, 0xAA, 0xBB]` from port 2 to port 3;
  - two packets from port 2, with port 4 connecting between them;
  - a disconnection on port 4.

What the transport reports is a parameter of the model: whether `open()` succeeds, the
packet `receive()` returns, and the outcome of a send (`Ok`, `Timeout`, `Disconnected`,
or another `SpaceWireIFException` status).

Points where the code is easy to misread; the model follows the code:

- Port 1 always uses TCP port 10030. The router constructor's own `port` argument is
  never read.
- `close()` closes the interface but does not clear `spwifOpened`.
- A send failing with a status other than `Timeout` or `Disconnected` falls through to
  the release of the source port. Nothing else happens: no counter moves and no port
  closes (`ForwardFailed`).
- After a `Timeout` the destination port stays operational: `routePacket` catches the
  exception, prints it and goes on to release the source port.

In one respect the router model departs from the code: it sends through the corrected
`Port.Send`, which frees `sendMutex` on every path, not through `Port.SendAsWritten`
(see "## Findings").

## Model

| member | source | states |
|---|---|---|
| `SpaceWire.Increment` | VirtualSpaceWireRouter.hh:111 | `n++` on a uint32_t counter is `(n + 1) mod 2^32`. |
| `SpaceWire.AdvanceWraps` | VirtualSpaceWireRouter.hh:122-123 | `k` successive increments of a counter move it by `k` modulo 2^32. |
| `SpaceWire.Classify` | VirtualSpaceWireRouter.hh:183-200 | A packet is accepted exactly when it has at least two bytes and its first byte is 1..5. An accepted packet is its destination byte followed by a non-empty payload. Each rejection reason holds exactly in its own case: length 0 or 1, address above 5, address 0. |
| `SpaceWire.Frame` | VirtualSpaceWireRouter.hh:189-200 | Prefixing a payload with a path address gives a packet one byte longer, whose first byte is the address and whose remainder is the payload. |
| `SpaceWire.ClassifyFrame` | VirtualSpaceWireRouter.hh:183-200 | Round trip: every non-empty payload framed with a port number 1..5 is accepted with that destination and exactly that payload. |
| `SpaceWirePort.Port.Server` | VirtualSpaceWireRouter.hh:31-40 | A server-mode port starts with its name and TCP port set and `spwifOpened` false. It is not yet connected and holds no packet. |
| `SpaceWirePort.Port.Client` | VirtualSpaceWireRouter.hh:41-51 | A client-mode port starts with its name, URL and TCP port set and `spwifOpened` false. It is not yet connected and holds no packet. |
| `SpaceWirePort.Port.Open` | VirtualSpaceWireRouter.hh:62-71 | A failed `open()` changes nothing, so the port retries. A successful one sets `spwifOpened`, clears `stopped` and enters the receive loop. |
| `SpaceWirePort.Port.Receive` | VirtualSpaceWireRouter.hh:72-74 | A receive fills the hand-off slot. It is allowed only in the running loop and only when the slot is empty, so a port never buffers two packets. |
| `SpaceWirePort.Port.Release` | VirtualSpaceWireRouter.hh:75 | After the router's signal the slot is empty and the loop may receive again. |
| `SpaceWirePort.Port.Stop` | VirtualSpaceWireRouter.hh:72 | Stopping sets the flag that the receive loop checks. |
| `SpaceWirePort.Port.ExitLoop` | VirtualSpaceWireRouter.hh:72-77 | A stopped loop ends with its packet released and clears `spwifOpened`. |
| `SpaceWirePort.Port.Send` | VirtualSpaceWireRouter.hh:82-86 | Corrected send: the packet is handed to the transport whatever the transport then reports, and `sendMutex` is free again on every path. |
| `SpaceWirePort.Port.SendAsWritten` | VirtualSpaceWireRouter.hh:82-86 | Send as written: the packet is handed to the transport, and `sendMutex` stays held exactly when the transport throws. |
| `SpaceWirePort.Port.Close` | VirtualSpaceWireRouter.hh:88-90 | `close()` closes the port's interface and nothing else. |
| `SpaceWirePort.TimeoutLeavesSendMutexHeld` | VirtualSpaceWireRouter.hh:82-86 | Counterexample: a send to port 2 that times out leaves its `sendMutex` locked. |
| `SpaceWireRouter.Teardown` | VirtualSpaceWireRouter.hh:228-235 | `finalize`: every port 1..5 is closed and the router is torn down. Every other part of each port and both counter vectors are unchanged. |
| `SpaceWireRouter.Release` | VirtualSpaceWireRouter.hh:223 | The pure transferred signal on a well-formed view. Its own contract only keeps the view well formed; `RouterProperties.RouteReleasesSource` states that it empties the source slot and nothing else. |
| `SpaceWireRouter.HandOver` | VirtualSpaceWireRouter.hh:205 | The pure `ports[d]->send(payload)`. Its own contract only keeps the view well formed; `RouterProperties.PayloadIsStripped` and `RouterProperties.RouteFrame` state which send log grows and by what. |
| `SpaceWireRouter.Deliver` | VirtualSpaceWireRouter.hh:202-222 | The pure try block of `routePacket`. Its own contract only keeps the view well formed; `RouterProperties.NotOperationalDropped`, `RouterProperties.SentCountedOnlyOnSuccess` and `RouterProperties.DisconnectTearsDown` state each outcome. |
| `SpaceWireRouter.Forward` | VirtualSpaceWireRouter.hh:183-222 | The pure `routePacket` before its signal. Its own contract only keeps the view well formed; `RouterProperties.ShortPacketDiscarded` and `RouterProperties.BadAddressDiscarded` state the discards, and `RouterProperties.RouteFrame` states the rest. |
| `SpaceWireRouter.RouteStep` | VirtualSpaceWireRouter.hh:176-226 | The pure `routePacket`, which `VirtualSpaceWireRouter.RoutePacket` is proved equal to. Its own contract only keeps the view well formed; `RouterProperties.RouteFrame` and `RouterProperties.RouteReleasesSource` state what it does for every input. |
| `SpaceWireRouter.DispatchStep` | VirtualSpaceWireRouter.hh:109-112 | The pure receive-thread turn, which `VirtualSpaceWireRouter.Dispatch` is proved equal to. Its own contract only keeps the view well formed; `RouterProperties.DispatchCountsReceived` states the count and the release. |
| `SpaceWireRouter.VirtualSpaceWireRouter.constructor` | VirtualSpaceWireRouter.hh:126-152 | The table has `ports[0]` null. Port 1 is the client to the given URL on TCP port 10030. Ports 2..5 are servers on TCP ports 10031..10034. Every port is distinct, unconnected and empty. Both counter vectors have six entries, all 0. |
| `SpaceWireRouter.VirtualSpaceWireRouter.Finalize` | VirtualSpaceWireRouter.hh:228-235 | The loop closes ports 1..5, and the new router state is `Teardown` of the old one. Every port's `stopped` flag and loop phase are unchanged. |
| `SpaceWireRouter.VirtualSpaceWireRouter.SignalTransferred` | VirtualSpaceWireRouter.hh:223 | The source port's slot is emptied. No other state changes: the rest of the routing view is as before, and every port's `stopped` flag and loop phase are unchanged. |
| `SpaceWireRouter.VirtualSpaceWireRouter.SendTo` | VirtualSpaceWireRouter.hh:205 | Only the destination port's send log grows, by the payload. Every port's `stopped` flag and loop phase are unchanged. |
| `SpaceWireRouter.VirtualSpaceWireRouter.CountSent` | VirtualSpaceWireRouter.hh:208 | Only the destination's sent counter moves, by one, wrapping. |
| `SpaceWireRouter.VirtualSpaceWireRouter.CountReceived` | VirtualSpaceWireRouter.hh:111 | Only the watching port's received counter moves, by one, wrapping. |
| `SpaceWireRouter.VirtualSpaceWireRouter.TrySend` | VirtualSpaceWireRouter.hh:202-222 | The try block for the destination port agrees with the pure `Deliver` step on every outcome: operational check, send, count, and the Timeout and Disconnected handlers. Every port's `stopped` flag and loop phase are unchanged. |
| `SpaceWireRouter.VirtualSpaceWireRouter.RoutePacket` | VirtualSpaceWireRouter.hh:176-226 | The in-place `routePacket` agrees with the pure `RouteStep` on every path: each early exit, address-byte deletion, send, count, teardown, and the final signal. The source port's slot ends empty. The router stays valid. Every port's `stopped` flag and loop phase are unchanged. |
| `SpaceWireRouter.VirtualSpaceWireRouter.Dispatch` | VirtualSpaceWireRouter.hh:105-113 | One receive-thread turn agrees with `DispatchStep`: count the packet on the watching port, then route the held packet. The watching port's slot ends empty. Every port's `stopped` flag and loop phase are unchanged. |
| `RouterProperties.ShortPacketDiscarded` | VirtualSpaceWireRouter.hh:183-186 | A packet of 0 or 1 bytes only releases its source port. Nothing is sent and no counter moves. |
| `RouterProperties.BadAddressDiscarded` | VirtualSpaceWireRouter.hh:188-197 | A packet for port 0 or above 5 only releases its source port, with the matching reason. |
| `RouterProperties.PayloadIsStripped` | VirtualSpaceWireRouter.hh:199-205 | For `[addr] + payload` to an operational port, exactly `payload` is appended to that port's send log. |
| `RouterProperties.NotOperationalDropped` | VirtualSpaceWireRouter.hh:203-213 | A packet for a port with `spwifOpened` false only releases the source port. |
| `RouterProperties.SentCountedOnlyOnSuccess` | VirtualSpaceWireRouter.hh:202-222 | The destination's sent counter goes up by one exactly when the send returns normally. No other sent counter moves. |
| `RouterProperties.DisconnectTearsDown` | VirtualSpaceWireRouter.hh:214-221 | A Disconnected send closes every port and tears the router down. A Timeout closes nothing. |
| `RouterProperties.RouteReleasesSource` | VirtualSpaceWireRouter.hh:176-226 | On every path the source port, and only it, is released. No port's operational flag and no received counter changes. |
| `RouterProperties.RouteFrame` | VirtualSpaceWireRouter.hh:176-226 | Only the addressed port can be sent anything, and then exactly `data[1..]`. A sent counter moves only on `Forwarded`, by one. Ports close, and the router is torn down, exactly on a Disconnected send. |
| `RouterProperties.DispatchCountsReceived` | VirtualSpaceWireRouter.hh:109-112 | Every handed-over packet is counted on its port before routing, even one that is then discarded, and its slot ends empty. |
| `RouterProperties.Arrive` | VirtualSpaceWireRouter.hh:72-76 | A full receive, dispatch and release cycle leaves no slot holding a packet and no operational flag changed. |
| `RouterProperties.Run` | VirtualSpaceWireRouter.hh:108-113 | Any sequence of cycles keeps every slot empty and every operational flag as it was, and a torn-down router stays torn down. |
| `RouterProperties.ArriveSends` | VirtualSpaceWireRouter.hh:199-213 | One arrival sends its payload to its destination exactly when it is accepted and the destination is operational, and nothing to any other port. |
| `RouterProperties.ArriveSentCounters` | VirtualSpaceWireRouter.hh:202-208 | One arrival moves only its destination's sent counter, only on a normal send return. |
| `RouterProperties.ArriveFinalizes` | VirtualSpaceWireRouter.hh:214-217 | One arrival tears the router down exactly when its packet is sent and the send reports Disconnected. |
| `RouterProperties.ArriveTeardown` | VirtualSpaceWireRouter.hh:228-235 | The arrival that tears the router down leaves every port closed. |
| `RouterProperties.ArriveAfterTeardown` | VirtualSpaceWireRouter.hh:228-235 | After teardown an arrival sends nothing, moves no sent counter and reopens no port. This holds in the model's `PortsReleased` stand-in for the freed ports (see "## Left out"); the code itself then uses deleted ports. |
| `RouterProperties.ArriveCounted` | VirtualSpaceWireRouter.hh:111 | One arrival counts its packet on its own port and on no other. |
| `RouterProperties.QuietAfterTeardown` | VirtualSpaceWireRouter.hh:228-235 | After teardown no sequence of arrivals sends anything or moves a sent counter. This holds in the model's `PortsReleased` stand-in for the freed ports (see "## Left out"). |
| `RouterProperties.ClosedStaysClosed` | VirtualSpaceWireRouter.hh:228-235 | Once torn down with every port closed, the router stays so for any further arrivals. This holds in the model's `PortsReleased` stand-in for the freed ports (see "## Left out"). |
| `RouterProperties.RunSends` | VirtualSpaceWireRouter.hh:199-222 | Each port's send log grows by exactly the payloads of the packets addressed to it that reach a send, in arrival order. That excludes packets for non-operational ports and packets after the first Disconnected send. |
| `RouterProperties.RunSentCounters` | VirtualSpaceWireRouter.hh:208 | Each sent counter ends at its start plus the number of packets for that port whose send returned normally, modulo 2^32. Counter 0 never moves. |
| `RouterProperties.RunReceivedCounters` | VirtualSpaceWireRouter.hh:111 | Each received counter ends at its start plus the number of packets that arrived on that port, whatever became of them, modulo 2^32. |
| `RouterProperties.RunTeardown` | VirtualSpaceWireRouter.hh:214-235 | The router is torn down after a sequence exactly when one of its sends reported Disconnected, and then every port is closed. |
| `RouterProperties.RunJoin` | VirtualSpaceWireRouter.hh:108-113 | A run over two sequences of arrivals, one after the other, ends where the run over the second ends when started from the end of the first. |
| `RouterScenarios.ForwardToPortThree` | VirtualSpaceWireRouter.hh:176-226 | On a fresh router with ports 2 and 3 open, `[3, 0xAA, 0xBB]` on port 2 is forwarded. Port 3 is sent `[0xAA, 0xBB]`, its sent counter reads 1, and port 2's received counter reads 1. |
| `RouterScenarios.DisconnectOnPortFour` | VirtualSpaceWireRouter.hh:214-217 | A Disconnected send to port 4 closes all five ports and tears the router down. |
| `RouterScenarios.ForwardOn` | VirtualSpaceWireRouter.hh:105-113 | A packet for an operational port, received on a port in its receive loop and routed with a normal send, is forwarded. The receiving port is back in its loop with an empty slot, and no port's loop phase or operational flag has changed. |
| `RouterScenarios.ConnectWhileRouting` | VirtualSpaceWireRouter.hh:62-76 | Port 4 can still connect after port 2 has routed a packet to port 3, and port 2 can then receive and forward a packet to port 4. |

## Left out

- Threads, the five `ReceiveThread`s and `start()` are not modelled. Calls to `routePacket` are serialised, which is what `routingMutex` enforces, and one receive-thread turn is one `Dispatch` call.
- The receive/transferred `Condition` pairs are reduced to the single hand-off slot. Waiting on the receive condition becomes the precondition that the slot holds a packet. The transferred signal becomes `SignalTransferred`.
- `nReceivedPackets[watchingPort]++` runs outside `routingMutex`, but each received counter has a single writer, its own port's `ReceiveThread`, whose turns run one after another, so no update is lost. The router's printing loop reads the counters without a lock. The model has no concurrency, so neither access arises in it.
- Socket I/O (`SpaceWireIFOverTCP` creation, `open`, `receive`, `sendVectorPointer`) becomes parameters: whether `open` succeeds, the received packet, and the send outcome.
- The `goto loop_open` retry is one `Open` attempt per call; a retry is another call.
- Console messages, `dumpPacket`, and the counter-printing `run()` of the router (lines 158-170) are output only, so they are left out.
- `delete data` and `delete ports[i]` are memory management and are not modelled.
- After `finalize` the table holds dangling pointers, so a later `routePacket` reads freed memory. The model instead answers `PortsReleased` and changes nothing.
- `SpaceWireIFException` statuses other than Timeout and Disconnected are modelled as `OtherError`.
- Exception types other than `SpaceWireIFException` escape `routePacket` without the signal or the unlock. That path is not modelled.
- `CxxUtilities::Mutex`, `Condition` and `StoppableThread` are not part of this model. `sendMutex` is a boolean flag and `stop()` sets `stopped`.
- The router constructor's `port` argument is never read by the code, so the model ignores it.
- `SpaceWireRouter.VirtualSpaceWireRouter.SendTo`: sends through the corrected `Port.Send`, so the router model does not contain the as-written hang after a thrown send, where the next send to that port blocks on `sendMutex` while `routingMutex` is held. `SendAsWritten` and the finding below cover that path.
- `SpaceWireRouter.VirtualSpaceWireRouter.TrySend`: for the same reason, a Timeout or other failed send leaves the destination port usable for the next packet, which the code as written does not.
- `RouterProperties.Run`: its arrivals only receive and route packets, so the set of operational ports is fixed for the whole run. For a port that connects, or whose loop exits, between two runs, the run lemmas apply to each run separately, the second starting from the view after the change; on the router object that change is `RouterScenarios.OpenPort` (or `Port.ExitLoop`). No lemma on `RouterView` states the two runs together, and `RunJoin` does not cover this, since both of its parts share one operational set.
- `SpaceWirePort.Port.Receive`: always returns a packet. In the code, a `receive()` that throws a `SpaceWireIFException` leaves `run()`, which has no handler for it, without reaching the line that clears `spwifOpened`. So the port stays operational with no receive loop running, and `routePacket` goes on sending to it. What `StoppableThread` does with the escaping exception is not in the source files, and this path is not modelled.

## Findings

| source | as written | input that shows it | evidently intended | confidence | as-written member | corrected member |
|---|---|---|---|---|---|---|
| VirtualSpaceWireRouter.hh:82-86 | `send` unlocks `sendMutex` only after `sendVectorPointer` returns, so a thrown `SpaceWireIFException` leaves the mutex locked | a send to port 2 whose transport throws with status Timeout; `routePacket` catches it and goes on, and the next send to port 2 blocks on the held mutex | the mutex is released on every path | medium; not executed | `SpaceWirePort.Port.SendAsWritten` (shown by `SpaceWirePort.TimeoutLeavesSendMutexHeld`) | `SpaceWirePort.Port.Send` |
