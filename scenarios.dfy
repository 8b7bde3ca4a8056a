/** Worked cases on the router object: a fresh router, ports opened as their run() would
    open them, and packets handed over on their receive loops. */
module RouterScenarios {
  import opened SpaceWire
  import opened SpaceWirePort
  import opened SpaceWireRouter
  import opened RouterProperties

  /** Opens port `p` of a valid router: the port's first open() attempt succeeds. */
  method OpenPort(r: VirtualSpaceWireRouter, p: PortNumber)
    requires r.Valid() && r.ports[p].phase == Connecting
    modifies r.ports[p]
    ensures r.Valid() && r.ports[p].spwifOpened && r.ports[p].phase == Receiving && !r.ports[p].stopped
    ensures forall q: PortNumber :: q != p ==> r.ports[q].Link() == old(r.ports[q].Link())
    ensures r.ports[p].Link() == old(r.ports[p].Link()).(operational := true)
  {
    r.ports[p].Open(true);
    forall i | 1 <= i < |r.ports| && i != p
      ensures r.ports[i] != r.ports[p]
    {
      assert r.ports[i].port != r.ports[p].port;
    }
  }

  /** A packet [3, 0xAA, 0xBB] arriving on port 2 while port 3 is operational: port 3 is
      sent [0xAA, 0xBB], its sent counter reads 1 and port 2's received counter reads 1. */
  method ForwardToPortThree() returns (result: RouteResult, sentToThree: seq<Packet>, sent3: Counter, received2: Counter)
    ensures result == Forwarded(3)
    ensures sentToThree == [[0xAA, 0xBB]]
    ensures sent3 == 1 && received2 == 1
  {
    var r := new VirtualSpaceWireRouter("192.168.1.100", 10030);
    OpenPort(r, 3);
    OpenPort(r, 2);
    var packet: Packet := [3, 0xAA, 0xBB];
    ReceiveOn(r, 2, packet);
    result := r.Dispatch(2, Ok);
    assert Classify(packet) == Accept(3, [0xAA, 0xBB]);
    sentToThree := r.ports[3].sendCalls;
    sent3 := r.nSentPackets[3];
    received2 := r.nReceivedPackets[2];
  }

  /** Port `src` receives Frame(dest, payload) for an operational port `dest` and its
      receive thread routes it with a normal send return: the packet is forwarded, port
      `src` is back in its receive loop with an empty slot, and no port's loop or
      operational flag has changed. */
  method ForwardOn(r: VirtualSpaceWireRouter, src: PortNumber, dest: PortNumber, payload: Packet) returns (result: RouteResult)
    requires r.Valid() && !r.finalized && payload != []
    requires r.ports[src].phase == Receiving && !r.ports[src].stopped && r.ports[src].receivedPacket == Idle
    requires r.ports[dest].spwifOpened
    modifies r, r.nSentPackets, r.nReceivedPackets, r.PortSet()
    ensures r.Valid() && !r.finalized && result == Forwarded(dest)
    ensures r.ports[src].phase == Receiving && !r.ports[src].stopped && r.ports[src].receivedPacket == Idle
    ensures forall p: PortNumber :: r.ports[p].phase == old(r.ports[p].phase) && r.ports[p].spwifOpened == old(r.ports[p].spwifOpened)
  {
    var frame := Frame(dest, payload);
    ReceiveOn(r, src, frame);
    ghost var before := r.View();
    ghost var counted := before.(nReceived := before.nReceived[src := Increment(before.nReceived[src])]);
    result := r.Dispatch(src, Ok);
    ClassifyFrame(dest, payload);
    RouteReleasesSource(counted, frame, src, Ok);
  }

  /** Ports keep working while others route: with ports 2 and 3 open, [3, 0xAA] from
      port 2 is forwarded; then port 4, still connecting, opens, and port 2 receives
      [4, 0xCC], which is forwarded to port 4. */
  method ConnectWhileRouting() returns (first: RouteResult, second: RouteResult)
    ensures first == Forwarded(3) && second == Forwarded(4)
  {
    var r := new VirtualSpaceWireRouter("192.168.1.100", 10030);
    OpenPort(r, 3);
    OpenPort(r, 2);
    first := ForwardOn(r, 2, 3, [0xAA]);
    OpenPort(r, 4);
    second := ForwardOn(r, 2, 4, [0xCC]);
  }

  /** A packet for port 4 arriving on port 1 whose send reports Disconnected: finalize
      runs, so every port's interface is closed and the router is torn down. */
  method DisconnectOnPortFour() returns (result: RouteResult, allClosed: bool, finalized: bool)
    ensures result == ForwardDisconnected(4)
    ensures allClosed && finalized
  {
    var r := new VirtualSpaceWireRouter("192.168.1.100", 10030);
    OpenPort(r, 4);
    OpenPort(r, 1);
    var packet: Packet := [4, 0x01];
    ReceiveOn(r, 1, packet);
    ghost var before := r.View();
    assert before.links[4].operational && !before.finalized;
    result := r.Dispatch(1, Disconnected);
    assert Classify(packet) == Accept(4, [0x01]);
    ghost var counted := before.(nReceived := before.nReceived[1 := Increment(before.nReceived[1])]);
    DisconnectTearsDown(counted, packet, 1);
    assert forall p: PortNumber :: r.View().links[p].closed;
    allClosed := r.ports[1].spwifClosed && r.ports[2].spwifClosed && r.ports[3].spwifClosed &&
                 r.ports[4].spwifClosed && r.ports[5].spwifClosed;
    finalized := r.finalized;
  }

  /** Port `p` receives `frame` and signals it to its receive thread. */
  method ReceiveOn(r: VirtualSpaceWireRouter, p: PortNumber, frame: Packet)
    requires r.Valid() && r.ports[p].phase == Receiving && !r.ports[p].stopped && r.ports[p].receivedPacket == Idle
    modifies r.ports[p]
    ensures r.Valid() && r.ports[p].receivedPacket == Holding(frame)
    ensures r.ports[p].phase == Receiving && !r.ports[p].stopped
    ensures forall q: PortNumber :: q != p ==> r.ports[q].Link() == old(r.ports[q].Link())
    ensures r.ports[p].Link() == old(r.ports[p].Link()).(slot := Holding(frame))
  {
    r.ports[p].Receive(frame);
    forall i | 1 <= i < |r.ports| && i != p
      ensures r.ports[i] != r.ports[p]
    {
      assert r.ports[i].port != r.ports[p].port;
    }
  }
}
