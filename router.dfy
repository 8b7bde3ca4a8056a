/** The router (class VirtualSpaceWireRouter): the table of ports 1..MaxPortNumber, the
    per-port received and sent counters, the forwarding decision of routePacket, the
    receive-thread step that feeds it, and the teardown in finalize.

    The first half states each operation as a function of a RouterView, the part of the
    router's state that routing reads and writes; the class below updates the real
    fields in place and proves that it agrees with those functions. */
module SpaceWireRouter {
  import opened SpaceWire
  import opened SpaceWirePort

  /** What one routePacket call did with its packet. */
  datatype RouteResult =
    | Discarded(reason: Discard)                  // rejected before any port was looked at
    | NotOperational(destination: PortNumber)     // the destination's spwifOpened is false
    | Forwarded(destination: PortNumber)          // send returned normally
    | ForwardTimedOut(destination: PortNumber)    // send threw with status Timeout
    | ForwardDisconnected(destination: PortNumber) // send threw with status Disconnected
    | ForwardFailed(destination: PortNumber)      // send threw with another status
    | PortsReleased(destination: PortNumber)      // finalize had already deleted the ports

  /** The routing state: a view of every port, the counter vectors (index 0 included, as
      in the source, where it is never used) and whether finalize has run. */
  datatype RouterView = RouterView(
    links: map<PortNumber, LinkView>,
    nSent: seq<Counter>,
    nReceived: seq<Counter>,
    finalized: bool)

  predicate WellFormed(v: RouterView)
  {
    (forall p: PortNumber :: p in v.links) &&
    |v.nSent| == MaxPortNumber + 1 && |v.nReceived| == MaxPortNumber + 1
  }

  /** transferredConditions[fromPort].signal(): the source port's slot is emptied. */
  function Release(v: RouterView, fromPort: PortNumber): (w: RouterView)
    requires WellFormed(v)
    ensures WellFormed(w)
  {
    v.(links := v.links[fromPort := v.links[fromPort].(slot := Idle)])
  }

  /** finalize(): every port's interface is closed and the ports are gone. */
  function Teardown(v: RouterView): (w: RouterView)
    requires WellFormed(v)
    ensures WellFormed(w) && w.finalized
    ensures forall p: PortNumber :: w.links[p] == v.links[p].(closed := true)
    ensures w.nSent == v.nSent && w.nReceived == v.nReceived
  {
    v.(links := map p: PortNumber | p in v.links :: v.links[p].(closed := true), finalized := true)
  }

  /** ports[d]->send(payload): the payload is handed to port d's transport. */
  function HandOver(v: RouterView, d: PortNumber, payload: Packet): (w: RouterView)
    requires WellFormed(v)
    ensures WellFormed(w)
  {
    v.(links := v.links[d := v.links[d].(sendCalls := v.links[d].sendCalls + [payload])])
  }

  /** The try block of routePacket for an accepted packet: send `payload` to port `d` if
      it is operational, then count the send or handle the exception. After finalize the
      ports are gone and nothing is sent. */
  function Deliver(v: RouterView, d: PortNumber, payload: Packet, outcome: SendOutcome): (r: (RouterView, RouteResult))
    requires WellFormed(v)
    ensures WellFormed(r.0)
  {
    if v.finalized then (v, PortsReleased(d))
    else if !v.links[d].operational then (v, NotOperational(d))
    else
      var handed := HandOver(v, d, payload);
      match outcome
      case Ok => (handed.(nSent := handed.nSent[d := Increment(handed.nSent[d])]), Forwarded(d))
      case Timeout => (handed, ForwardTimedOut(d))
      case Disconnected => (Teardown(handed), ForwardDisconnected(d))
      case OtherError => (handed, ForwardFailed(d))
  }

  /** Everything routePacket does before it signals the source port. */
  function Forward(v: RouterView, data: Packet, outcome: SendOutcome): (r: (RouterView, RouteResult))
    requires WellFormed(v)
    ensures WellFormed(r.0)
  {
    match Classify(data)
    case Reject(reason) => (v, Discarded(reason))
    case Accept(d, payload) => Deliver(v, d, payload, outcome)
  }

  /** routePacket(data, fromPort), where `outcome` is what the destination's transport
      reports if it is asked to send. */
  function RouteStep(v: RouterView, data: Packet, fromPort: PortNumber, outcome: SendOutcome): (r: (RouterView, RouteResult))
    requires WellFormed(v)
    ensures WellFormed(r.0)
  {
    var (w, result) := Forward(v, data, outcome);
    (Release(w, fromPort), result)
  }

  /** One turn of ReceiveThread::run for `watchingPort` once its port has signalled a
      packet: count it as received, then route it. */
  function DispatchStep(v: RouterView, watchingPort: PortNumber, outcome: SendOutcome): (r: (RouterView, RouteResult))
    requires WellFormed(v) && v.links[watchingPort].slot.Holding?
    ensures WellFormed(r.0)
  {
    var counted := v.(nReceived := v.nReceived[watchingPort := Increment(v.nReceived[watchingPort])]);
    RouteStep(counted, v.links[watchingPort].slot.frame, watchingPort, outcome)
  }

  /** Two views of the port table that agree on every port are the same. */
  lemma SameLinks(a: map<PortNumber, LinkView>, b: map<PortNumber, LinkView>)
    requires forall p: PortNumber :: p in a && p in b && a[p] == b[p]
    ensures a == b
  {
    assert a.Keys == b.Keys;
  }

  /** The TCP port of router port 1; port i uses the i-th port from here. */
  const FirstTcpPort: nat := 10030

  /** The router object. ports[0] is null: packets for the configuration port are
      discarded before the table is indexed. */
  class VirtualSpaceWireRouter {
    const ports: seq<Port?>
    const nSentPackets: array<Counter>
    const nReceivedPackets: array<Counter>
    var finalized: bool  // finalize() has closed and deleted the ports

    ghost function PortSet(): set<Port>
    {
      set p: Port | p in ports
    }

    ghost function Repr(): set<object>
    {
      {this, nSentPackets, nReceivedPackets} + PortSet()
    }

    /** Port i listens on (or, for port 1, connects to) TCP port FirstTcpPort + i - 1,
        so no Port object appears twice in the table. Every sendMutex is free between
        routing steps: the router sends through the corrected Port.Send. */
    ghost predicate Valid()
      reads Repr()
    {
      |ports| == MaxPortNumber + 1 && ports[0] == null &&
      (forall i :: 1 <= i < |ports| ==>
         ports[i] != null && ports[i].port == FirstTcpPort + i - 1 &&
         ports[i].mode == (if i == PortNumberOfClientPort then ClientPort else ServerPort) &&
         ports[i].Valid() && !ports[i].sendLocked) &&
      nSentPackets.Length == MaxPortNumber + 1 && nReceivedPackets.Length == MaxPortNumber + 1 &&
      nSentPackets != nReceivedPackets
    }

    ghost function View(): (v: RouterView)
      requires Valid()
      reads Repr()
      ensures WellFormed(v)
      ensures forall p: PortNumber :: v.links[p] == ports[p].Link()
    {
      RouterView(
        map p: PortNumber | 1 <= p <= MaxPortNumber :: ports[p].Link(),
        nSentPackets[..], nReceivedPackets[..], finalized)
    }

    /** The constructor builds the port table: port 1 is a client of the uplink at
        url:10030, ports 2..5 are servers on TCP ports 10031..10034. The `port` argument
        is accepted and not used. Every port starts non-operational. */
    constructor(url: string, port: nat)
      ensures Valid() && !finalized
      ensures fresh(nSentPackets) && fresh(nReceivedPackets) && forall p: PortNumber :: fresh(ports[p])
      ensures ports[PortNumberOfClientPort].url == url
      ensures forall p: PortNumber :: ports[p].phase == Connecting && ports[p].Link() == LinkView(false, false, Idle, [])
      ensures forall i :: 0 <= i <= MaxPortNumber ==> nSentPackets[i] == 0 && nReceivedPackets[i] == 0
    {
      var port1 := new Port.Client("Port1 (to SpaceWire-to-GigabitEther)", url, 10030);
      var port2 := new Port.Server("Port2", 10031);
      var port3 := new Port.Server("Port3", 10032);
      var port4 := new Port.Server("Port4", 10033);
      var port5 := new Port.Server("Port5", 10034);
      ports := [null, port1, port2, port3, port4, port5];
      nSentPackets := new Counter[MaxPortNumber + 1](_ => 0);
      nReceivedPackets := new Counter[MaxPortNumber + 1](_ => 0);
      finalized := false;
      new;
      forall i | 1 <= i < |ports|
        ensures ports[i] != null && ports[i].port == FirstTcpPort + i - 1
        ensures ports[i].mode == (if i == PortNumberOfClientPort then ClientPort else ServerPort)
        ensures ports[i].Valid() && !ports[i].sendLocked && ports[i].phase == Connecting
        ensures ports[i].Link() == LinkView(false, false, Idle, []) && fresh(ports[i])
      {
        if i == 1 { assert ports[i] == port1; }
        else if i == 2 { assert ports[i] == port2; }
        else if i == 3 { assert ports[i] == port3; }
        else if i == 4 { assert ports[i] == port4; }
        else { assert ports[i] == port5; }
      }
    }

    /** finalize(): close every port 1..MaxPortNumber; the ports are then deleted. */
    method Finalize()
      requires Valid() && !finalized
      modifies this, PortSet()
      ensures Valid() && View() == Teardown(old(View()))
      ensures forall p: PortNumber :: ports[p].stopped == old(ports[p].stopped) && ports[p].phase == old(ports[p].phase)
    {
      var i := 1;
      while i < |ports|
        invariant 1 <= i <= |ports|
        invariant Valid() && !finalized
        invariant forall p: PortNumber :: ports[p].Link() ==
                    if p < i then old(ports[p].Link()).(closed := true) else old(ports[p].Link())
        invariant forall p: PortNumber :: ports[p].stopped == old(ports[p].stopped) && ports[p].phase == old(ports[p].phase)
      {
        ports[i].Close();
        i := i + 1;
      }
      finalized := true;
      SameLinks(View().links, Teardown(old(View())).links);
    }

    /** transferredConditions[fromPort].signal(): release the source port. */
    method SignalTransferred(fromPort: PortNumber)
      requires Valid()
      modifies ports[fromPort]
      ensures Valid() && View() == Release(old(View()), fromPort)
      ensures forall p: PortNumber :: ports[p].stopped == old(ports[p].stopped) && ports[p].phase == old(ports[p].phase)
      ensures ports[fromPort].receivedPacket == Idle
    {
      ghost var before := View();
      ports[fromPort].Release();
      forall p: PortNumber | p != fromPort
        ensures ports[p].Link() == before.links[p]
      {
        assert ports[p] != ports[fromPort];
      }
      SameLinks(View().links, Release(before, fromPort).links);
    }

    /** The try block of routePacket (Deliver): send to an operational destination and
        count the send, or handle the exception the send throws. */
    method TrySend(pathAddress: PortNumber, payload: Packet, outcome: SendOutcome) returns (result: RouteResult)
      requires Valid()
      modifies this, nSentPackets, PortSet()
      ensures Valid()
      ensures (View(), result) == Deliver(old(View()), pathAddress, payload, outcome)
      ensures forall p: PortNumber :: ports[p].stopped == old(ports[p].stopped) && ports[p].phase == old(ports[p].phase)
    {
      if finalized {
        result := PortsReleased(pathAddress);
        return;
      }
      if ports[pathAddress].spwifOpened {
        SendTo(pathAddress, payload, outcome);
        match outcome
        case Ok =>
          CountSent(pathAddress);
          result := Forwarded(pathAddress);
        case Disconnected =>
          Finalize();
          result := ForwardDisconnected(pathAddress);
        case Timeout =>
          result := ForwardTimedOut(pathAddress);
        case OtherError =>
          result := ForwardFailed(pathAddress);
      } else {
        result := NotOperational(pathAddress);
      }
    }

    /** ports[pathAddress]->send(payload), through the corrected Port.Send, which frees
        sendMutex on every path (Port.SendAsWritten is the source's own version). */
    method SendTo(pathAddress: PortNumber, payload: Packet, outcome: SendOutcome)
      requires Valid()
      modifies ports[pathAddress]
      ensures Valid() && View() == HandOver(old(View()), pathAddress, payload)
      ensures forall p: PortNumber :: ports[p].stopped == old(ports[p].stopped) && ports[p].phase == old(ports[p].phase)
    {
      ghost var before := View();
      ports[pathAddress].Send(payload, outcome);
      forall p: PortNumber | p != pathAddress
        ensures ports[p].Link() == before.links[p]
      {
        assert ports[p] != ports[pathAddress];
      }
      SameLinks(View().links, HandOver(before, pathAddress, payload).links);
    }

    /** nSentPackets[pathAddress]++. */
    method CountSent(pathAddress: PortNumber)
      requires Valid()
      modifies nSentPackets
      ensures Valid()
      ensures View() == old(View()).(nSent := old(View()).nSent[pathAddress := Increment(old(View()).nSent[pathAddress])])
    {
      nSentPackets[pathAddress] := Increment(nSentPackets[pathAddress]);
      SameLinks(View().links, old(View()).links);
    }

    /** routePacket(data, fromPort). The goto exits of the source become breaks out of
        the labelled block; the release of the source port follows it on every path. */
    method RoutePacket(data: Packet, fromPort: PortNumber, outcome: SendOutcome) returns (result: RouteResult)
      requires Valid()
      modifies this, nSentPackets, PortSet()
      ensures Valid()
      ensures (View(), result) == RouteStep(old(View()), data, fromPort, outcome)
      ensures forall p: PortNumber :: ports[p].stopped == old(ports[p].stopped) && ports[p].phase == old(ports[p].phase)
      ensures ports[fromPort].receivedPacket == Idle
    {
      label finalizeRoutePacket: {
        if |data| == 0 || |data| == 1 {
          result := Discarded(TooShort);
          break finalizeRoutePacket;
        }
        var pathAddress := data[0];
        if MaxPortNumber < pathAddress {
          result := Discarded(AddressTooLarge);
          break finalizeRoutePacket;
        }
        if pathAddress == 0 {
          result := Discarded(ConfigurationPort);
          break finalizeRoutePacket;
        }
        var payload := data[1..];
        result := TrySend(pathAddress, payload, outcome);
      }
      SignalTransferred(fromPort);
    }

    /** One turn of ReceiveThread::run after receiveConditions[watchingPort] was
        signalled: nReceivedPackets[watchingPort]++, then routePacket on the held packet. */
    method Dispatch(watchingPort: PortNumber, outcome: SendOutcome) returns (result: RouteResult)
      requires Valid() && ports[watchingPort].receivedPacket.Holding?
      modifies this, nSentPackets, nReceivedPackets, PortSet()
      ensures Valid()
      ensures (View(), result) == DispatchStep(old(View()), watchingPort, outcome)
      ensures forall p: PortNumber :: ports[p].stopped == old(ports[p].stopped) && ports[p].phase == old(ports[p].phase)
      ensures ports[watchingPort].receivedPacket == Idle
    {
      CountReceived(watchingPort);
      result := RoutePacket(ports[watchingPort].receivedPacket.frame, watchingPort, outcome);
    }

    /** nReceivedPackets[watchingPort]++. */
    method CountReceived(watchingPort: PortNumber)
      requires Valid()
      modifies nReceivedPackets
      ensures Valid()
      ensures View() == old(View()).(nReceived := old(View()).nReceived[watchingPort := Increment(old(View()).nReceived[watchingPort])])
    {
      nReceivedPackets[watchingPort] := Increment(nReceivedPackets[watchingPort]);
      SameLinks(View().links, old(View()).links);
    }
  }
}
