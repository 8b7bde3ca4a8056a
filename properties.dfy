/** What routePacket and the receive loop promise, stated over RouterView: first for one
    call, then for any sequence of packets arriving on the ports. */
module RouterProperties {
  import opened SpaceWire
  import opened SpaceWirePort
  import opened SpaceWireRouter

  // ---------------------------------------------------------------------------------
  // One routePacket call
  // ---------------------------------------------------------------------------------

  /** A packet of length 0 or 1 is discarded: the only effect is the release of its
      source port, so no send happens and no counter moves. */
  lemma ShortPacketDiscarded(v: RouterView, data: Packet, fromPort: PortNumber, outcome: SendOutcome)
    requires WellFormed(v) && |data| < 2
    ensures RouteStep(v, data, fromPort, outcome) == (Release(v, fromPort), Discarded(TooShort))
  {
  }

  /** A packet for the configuration port 0, or for an address above MaxPortNumber, is
      discarded with the same single effect; the null ports[0] is never used. */
  lemma BadAddressDiscarded(v: RouterView, data: Packet, fromPort: PortNumber, outcome: SendOutcome)
    requires WellFormed(v) && 2 <= |data| && (data[0] == 0 || MaxPortNumber < data[0])
    ensures RouteStep(v, data, fromPort, outcome) ==
            (Release(v, fromPort), Discarded(if data[0] == 0 then ConfigurationPort else AddressTooLarge))
  {
  }

  /** For an accepted packet [addr] + payload and an operational destination, the data
      handed to ports[addr]->send is exactly the payload: the address byte is gone and
      the remaining bytes keep their order and values. */
  lemma PayloadIsStripped(v: RouterView, addr: PortNumber, payload: Packet, fromPort: PortNumber, outcome: SendOutcome)
    requires WellFormed(v) && payload != [] && !v.finalized && v.links[addr].operational
    ensures RouteStep(v, Frame(addr, payload), fromPort, outcome).0.links[addr].sendCalls ==
            v.links[addr].sendCalls + [payload]
  {
    ClassifyFrame(addr, payload);
  }

  /** A packet for a port whose spwifOpened is false is dropped: no send, and its sent
      counter is unchanged. */
  lemma NotOperationalDropped(v: RouterView, data: Packet, fromPort: PortNumber, outcome: SendOutcome)
    requires WellFormed(v) && Classify(data).Accept? && !v.finalized
    requires !v.links[Classify(data).destination].operational
    ensures RouteStep(v, data, fromPort, outcome) ==
            (Release(v, fromPort), NotOperational(Classify(data).destination))
  {
  }

  /** The destination's sent counter goes up by one exactly when the send returns
      normally; a send that throws leaves it as it was, and no other counter moves. */
  lemma SentCountedOnlyOnSuccess(v: RouterView, data: Packet, fromPort: PortNumber, outcome: SendOutcome)
    requires WellFormed(v) && Classify(data).Accept? && !v.finalized
    requires v.links[Classify(data).destination].operational
    ensures var d := Classify(data).destination;
            RouteStep(v, data, fromPort, outcome).0.nSent ==
            if outcome == Ok then v.nSent[d := Increment(v.nSent[d])] else v.nSent
  {
  }

  /** A Disconnected send runs finalize: every port 1..MaxPortNumber is closed and the
      router is torn down. A Timeout closes nothing. */
  lemma DisconnectTearsDown(v: RouterView, data: Packet, fromPort: PortNumber)
    requires WellFormed(v) && Classify(data).Accept? && !v.finalized
    requires v.links[Classify(data).destination].operational
    ensures var r := RouteStep(v, data, fromPort, Disconnected);
            r.0.finalized && (forall p: PortNumber :: r.0.links[p].closed) &&
            r.1 == ForwardDisconnected(Classify(data).destination)
    ensures var r := RouteStep(v, data, fromPort, Timeout);
            !r.0.finalized && (forall p: PortNumber :: r.0.links[p].closed == v.links[p].closed) &&
            r.1 == ForwardTimedOut(Classify(data).destination)
  {
  }

  /** Every routePacket call, on every path, releases its source port and only it, and
      never changes whether a port is operational nor any received counter. */
  lemma RouteReleasesSource(v: RouterView, data: Packet, fromPort: PortNumber, outcome: SendOutcome)
    requires WellFormed(v)
    ensures var r := RouteStep(v, data, fromPort, outcome);
      r.0.links[fromPort].slot == Idle &&
      (forall p: PortNumber :: p != fromPort ==> r.0.links[p].slot == v.links[p].slot) &&
      (forall p: PortNumber :: r.0.links[p].operational == v.links[p].operational) &&
      r.0.nReceived == v.nReceived
  {
    match Classify(data)
    case Reject(_) =>
    case Accept(d, payload) =>
  }

  /** Only the packet's destination is sent anything, and then exactly the payload; a sent
      counter moves only on a normal return, by one; the router is torn down and its ports
      closed only through a Disconnected send. */
  lemma RouteFrame(v: RouterView, data: Packet, fromPort: PortNumber, outcome: SendOutcome)
    requires WellFormed(v)
    ensures var r := RouteStep(v, data, fromPort, outcome);
      (forall p: PortNumber :: r.0.links[p].sendCalls != v.links[p].sendCalls ==>
         2 <= |data| && Classify(data) == Accept(p, data[1..]) &&
         r.0.links[p].sendCalls == v.links[p].sendCalls + [data[1..]]) &&
      (forall i :: 0 <= i < |v.nSent| && r.0.nSent[i] != v.nSent[i] ==>
         1 <= i <= MaxPortNumber && r.1 == Forwarded(i) && r.0.nSent[i] == Increment(v.nSent[i])) &&
      r.0.finalized == (v.finalized || r.1.ForwardDisconnected?) &&
      (forall p: PortNumber :: r.0.links[p].closed == (v.links[p].closed || r.1.ForwardDisconnected?))
  {
    match Classify(data)
    case Reject(_) =>
    case Accept(d, payload) =>
      assert data[1..] == payload;
  }

  /** ReceiveThread::run counts every packet it is handed, whether or not routePacket then
      discards it. */
  lemma DispatchCountsReceived(v: RouterView, watchingPort: PortNumber, outcome: SendOutcome)
    requires WellFormed(v) && v.links[watchingPort].slot.Holding?
    ensures DispatchStep(v, watchingPort, outcome).0.nReceived ==
            v.nReceived[watchingPort := Increment(v.nReceived[watchingPort])]
    ensures DispatchStep(v, watchingPort, outcome).0.links[watchingPort].slot == Idle
  {
    var counted := v.(nReceived := v.nReceived[watchingPort := Increment(v.nReceived[watchingPort])]);
    RouteReleasesSource(counted, v.links[watchingPort].slot.frame, watchingPort, outcome);
  }

  // ---------------------------------------------------------------------------------
  // Sequences of packets
  // ---------------------------------------------------------------------------------

  /** A packet arriving on `port`, and what the destination's transport will report if
      the router sends it on. */
  datatype Arrival = Arrival(port: PortNumber, frame: Packet, outcome: SendOutcome)

  /** No port holds an unreleased packet. */
  predicate AllIdle(v: RouterView)
    requires WellFormed(v)
  {
    forall p: PortNumber :: v.links[p].slot == Idle
  }

  /** The ports that are operational. */
  function OpenPorts(v: RouterView): set<PortNumber>
    requires WellFormed(v)
  {
    set p: PortNumber | p in v.links && v.links[p].operational
  }

  /** One receive -> dispatch -> release cycle: the port's receive fills its slot, its
      receive thread counts the packet and routes it, and routing releases the slot.
      A port receives only once its open() has succeeded, so in the router every
      arrival is on an operational port; the lemmas below hold for any arrival, which
      covers those. */
  function Arrive(v: RouterView, e: Arrival): (w: RouterView)
    requires WellFormed(v) && AllIdle(v)
    ensures WellFormed(w) && AllIdle(w) && OpenPorts(w) == OpenPorts(v)
  {
    var held := v.(links := v.links[e.port := v.links[e.port].(slot := Holding(e.frame))]);
    RouteReleasesSource(held.(nReceived := held.nReceived[e.port := Increment(held.nReceived[e.port])]), e.frame, e.port, e.outcome);
    DispatchStep(held, e.port, e.outcome).0
  }

  /** The router after the arrivals `evs`, one at a time, each routed before the next. */
  function Run(v: RouterView, evs: seq<Arrival>): (w: RouterView)
    requires WellFormed(v) && AllIdle(v)
    ensures WellFormed(w) && AllIdle(w) && OpenPorts(w) == OpenPorts(v)
    ensures v.finalized ==> w.finalized
    decreases |evs|
  {
    if evs == [] then v else Run(Arrive(v, evs[0]), evs[1..])
  }

  /** The arrivals whose packet reaches a send, for a router whose operational ports are
      `open` and that has not been torn down: accepted packets for an open port, up to and
      including the first send that reports Disconnected. */
  function Sends(open: set<PortNumber>, evs: seq<Arrival>): seq<Arrival>
    decreases |evs|
  {
    if evs == [] then []
    else
      var c := Classify(evs[0].frame);
      if c.Accept? && c.destination in open then
        [evs[0]] + (if evs[0].outcome == Disconnected then [] else Sends(open, evs[1..]))
      else Sends(open, evs[1..])
  }

  /** The payloads, in order, of the arrivals in `fs` whose packet is addressed to `a`. */
  function PayloadsTo(fs: seq<Arrival>, a: PortNumber): seq<Packet>
    decreases |fs|
  {
    if fs == [] then []
    else
      var c := Classify(fs[0].frame);
      (if c.Accept? && c.destination == a then [c.payload] else []) + PayloadsTo(fs[1..], a)
  }

  /** How many arrivals in `fs` are addressed to `a` and were sent without an exception. */
  function DeliveredTo(fs: seq<Arrival>, a: PortNumber): nat
    decreases |fs|
  {
    if fs == [] then 0
    else
      var c := Classify(fs[0].frame);
      (if c.Accept? && c.destination == a && fs[0].outcome == Ok then 1 else 0) + DeliveredTo(fs[1..], a)
  }

  /** How many arrivals in `evs` came in on port `p`. */
  function ArrivedOn(evs: seq<Arrival>, p: PortNumber): nat
    decreases |evs|
  {
    if evs == [] then 0 else (if evs[0].port == p then 1 else 0) + ArrivedOn(evs[1..], p)
  }

  /** Some arrival in `fs` ran into a Disconnected send. */
  predicate Disconnects(fs: seq<Arrival>)
  {
    exists i :: 0 <= i < |fs| && fs[i].outcome == Disconnected
  }

  /** One arrival names the routing step it runs: the packet is counted on its port and
      then routed from the filled slot. */
  lemma ArriveRoutes(v: RouterView, e: Arrival)
    requires WellFormed(v) && AllIdle(v)
    ensures var held := v.(links := v.links[e.port := v.links[e.port].(slot := Holding(e.frame))]);
            var counted := held.(nReceived := held.nReceived[e.port := Increment(held.nReceived[e.port])]);
            WellFormed(counted) && counted.links == v.links[e.port := v.links[e.port].(slot := Holding(e.frame))] &&
            counted.nSent == v.nSent && counted.finalized == v.finalized &&
            Arrive(v, e) == RouteStep(counted, e.frame, e.port, e.outcome).0
  {
  }

  /** One arrival on a router that is not torn down sends the packet's payload to its
      destination if the packet is accepted and the destination operational, and sends
      nothing to any other port. */
  lemma ArriveSends(v: RouterView, e: Arrival, a: PortNumber)
    requires WellFormed(v) && AllIdle(v) && !v.finalized
    ensures var c := Classify(e.frame);
            var sent := c.Accept? && c.destination in OpenPorts(v);
            Arrive(v, e).links[a].sendCalls ==
              v.links[a].sendCalls + (if sent && c.destination == a then [c.payload] else [])
  {
    var held := v.(links := v.links[e.port := v.links[e.port].(slot := Holding(e.frame))]);
    var counted := held.(nReceived := held.nReceived[e.port := Increment(held.nReceived[e.port])]);
    ArriveRoutes(v, e);
    RouteFrame(counted, e.frame, e.port, e.outcome);
    var c := Classify(e.frame);
    if c.Accept? {
      assert e.frame[1..] == c.payload;
      if c.destination in OpenPorts(v) {
        PayloadIsStripped(counted, c.destination, c.payload, e.port, e.outcome);
        assert Frame(c.destination, c.payload) == e.frame;
      } else {
        NotOperationalDropped(counted, e.frame, e.port, e.outcome);
      }
    }
  }

  /** One arrival on a router that is not torn down moves the destination's sent counter
      when the packet is sent and the send returns normally, and no other sent counter. */
  lemma ArriveSentCounters(v: RouterView, e: Arrival, a: PortNumber)
    requires WellFormed(v) && AllIdle(v) && !v.finalized
    ensures var c := Classify(e.frame);
            var sent := c.Accept? && c.destination in OpenPorts(v);
            Arrive(v, e).nSent[a] ==
              (if sent && c.destination == a && e.outcome == Ok then Increment(v.nSent[a]) else v.nSent[a]) &&
            Arrive(v, e).nSent[0] == v.nSent[0]
  {
    var held := v.(links := v.links[e.port := v.links[e.port].(slot := Holding(e.frame))]);
    var counted := held.(nReceived := held.nReceived[e.port := Increment(held.nReceived[e.port])]);
    ArriveRoutes(v, e);
    var c := Classify(e.frame);
    if c.Accept? {
      if c.destination in OpenPorts(v) {
        SentCountedOnlyOnSuccess(counted, e.frame, e.port, e.outcome);
      } else {
        NotOperationalDropped(counted, e.frame, e.port, e.outcome);
      }
    }
  }

  /** One arrival tears the router down exactly when its packet is sent and the send
      reports Disconnected. */
  lemma ArriveFinalizes(v: RouterView, e: Arrival)
    requires WellFormed(v) && AllIdle(v) && !v.finalized
    ensures var c := Classify(e.frame);
            Arrive(v, e).finalized == (c.Accept? && c.destination in OpenPorts(v) && e.outcome == Disconnected)
  {
    var held := v.(links := v.links[e.port := v.links[e.port].(slot := Holding(e.frame))]);
    var counted := held.(nReceived := held.nReceived[e.port := Increment(held.nReceived[e.port])]);
    ArriveRoutes(v, e);
    RouteFrame(counted, e.frame, e.port, e.outcome);
    var c := Classify(e.frame);
    if c.Accept? {
      if c.destination in OpenPorts(v) {
        if e.outcome == Disconnected {
          DisconnectTearsDown(counted, e.frame, e.port);
        }
      } else {
        NotOperationalDropped(counted, e.frame, e.port, e.outcome);
      }
    }
  }

  /** The arrival that tears the router down closes every port. */
  lemma ArriveTeardown(v: RouterView, e: Arrival)
    requires WellFormed(v) && AllIdle(v) && !v.finalized
    ensures Arrive(v, e).finalized ==> forall p: PortNumber :: Arrive(v, e).links[p].closed
  {
    var held := v.(links := v.links[e.port := v.links[e.port].(slot := Holding(e.frame))]);
    var counted := held.(nReceived := held.nReceived[e.port := Increment(held.nReceived[e.port])]);
    ArriveRoutes(v, e);
    RouteFrame(counted, e.frame, e.port, e.outcome);
    var c := Classify(e.frame);
    if c.Accept? {
      if c.destination in OpenPorts(v) {
        if e.outcome == Disconnected {
          DisconnectTearsDown(counted, e.frame, e.port);
        }
      } else {
        NotOperationalDropped(counted, e.frame, e.port, e.outcome);
      }
    }
  }

  /** After finalize an arrival sends nothing, moves no sent counter and opens no port
      again. */
  lemma ArriveAfterTeardown(v: RouterView, e: Arrival)
    requires WellFormed(v) && AllIdle(v) && v.finalized
    ensures var w := Arrive(v, e);
            w.finalized && w.nSent == v.nSent &&
            (forall a: PortNumber :: w.links[a].sendCalls == v.links[a].sendCalls) &&
            (forall a: PortNumber :: v.links[a].closed ==> w.links[a].closed)
  {
    var held := v.(links := v.links[e.port := v.links[e.port].(slot := Holding(e.frame))]);
    var counted := held.(nReceived := held.nReceived[e.port := Increment(held.nReceived[e.port])]);
    ArriveRoutes(v, e);
    RouteFrame(counted, e.frame, e.port, e.outcome);
  }

  /** One arrival counts the packet on the port it came in on and on no other. */
  lemma ArriveCounted(v: RouterView, e: Arrival)
    requires WellFormed(v) && AllIdle(v)
    ensures forall p: PortNumber :: Arrive(v, e).nReceived[p] ==
              if e.port == p then Increment(v.nReceived[p]) else v.nReceived[p]
  {
    var held := v.(links := v.links[e.port := v.links[e.port].(slot := Holding(e.frame))]);
    DispatchCountsReceived(held, e.port, e.outcome);
  }

  /** Sends, one arrival at a time. */
  lemma SendsCons(open: set<PortNumber>, evs: seq<Arrival>)
    requires evs != []
    ensures var c := Classify(evs[0].frame);
            var sent := c.Accept? && c.destination in open;
            Sends(open, evs) ==
              (if sent then [evs[0]] else []) +
              (if sent && evs[0].outcome == Disconnected then [] else Sends(open, evs[1..]))
  {
  }

  lemma PayloadsToCons(first: seq<Arrival>, rest: seq<Arrival>, a: PortNumber)
    requires |first| <= 1
    ensures PayloadsTo(first + rest, a) == PayloadsTo(first, a) + PayloadsTo(rest, a)
  {
    if first != [] {
      assert (first + rest)[1..] == rest;
      assert first[1..] == [];
      var c := Classify(first[0].frame);
      var head: seq<Packet> := if c.Accept? && c.destination == a then [c.payload] else [];
      assert PayloadsTo(first[1..], a) == [];
      assert PayloadsTo(first, a) == head + [];
      assert PayloadsTo(first + rest, a) == head + PayloadsTo(rest, a);
      assert head + [] == head;
    } else {
      assert first + rest == rest;
    }
  }

  lemma DeliveredToCons(first: seq<Arrival>, rest: seq<Arrival>, a: PortNumber)
    requires |first| <= 1
    ensures DeliveredTo(first + rest, a) == DeliveredTo(first, a) + DeliveredTo(rest, a)
  {
    if first != [] {
      assert (first + rest)[1..] == rest;
      assert first[1..] == [];
      assert DeliveredTo(first[1..], a) == 0;
    } else {
      assert first + rest == rest;
    }
  }

  lemma DisconnectsCons(first: seq<Arrival>, rest: seq<Arrival>)
    requires |first| <= 1
    ensures Disconnects(first + rest) <==> Disconnects(first) || Disconnects(rest)
  {
    if Disconnects(rest) {
      var i :| 0 <= i < |rest| && rest[i].outcome == Disconnected;
      assert (first + rest)[|first| + i] == rest[i];
    }
    if Disconnects(first) {
      var i :| 0 <= i < |first| && first[i].outcome == Disconnected;
      assert (first + rest)[i] == first[i];
    }
    if Disconnects(first + rest) {
      var i :| 0 <= i < |first + rest| && (first + rest)[i].outcome == Disconnected;
      if i < |first| {
        assert first[i] == (first + rest)[i];
      } else {
        assert rest[i - |first|] == (first + rest)[i];
      }
    }
  }

  lemma AdvanceCons(n: Counter, b: nat, k: nat)
    requires b <= 1
    ensures Advance(n, b + k) == Advance(if b == 1 then Increment(n) else n, k)
  {
  }

  /** After finalize no arrival sends anything or moves a sent counter (the model's
      reading of routing on deleted ports). */
  lemma {:induction false} QuietAfterTeardown(v: RouterView, evs: seq<Arrival>)
    requires WellFormed(v) && AllIdle(v) && v.finalized
    ensures var w := Run(v, evs);
            w.nSent == v.nSent && forall a: PortNumber :: w.links[a].sendCalls == v.links[a].sendCalls
    decreases |evs|
  {
    if evs != [] {
      ArriveAfterTeardown(v, evs[0]);
      QuietAfterTeardown(Arrive(v, evs[0]), evs[1..]);
    }
  }

  /** Every port is sent exactly the payloads of the packets addressed to it that reach a
      send, in arrival order: nothing for port 0 or a too-high address, nothing while the
      port is not operational, nothing after a Disconnected send. */
  lemma {:induction false} RunSends(v: RouterView, evs: seq<Arrival>, a: PortNumber)
    requires WellFormed(v) && AllIdle(v) && !v.finalized
    ensures Run(v, evs).links[a].sendCalls == v.links[a].sendCalls + PayloadsTo(Sends(OpenPorts(v), evs), a)
    decreases |evs|
  {
    if evs != [] {
      var e := evs[0];
      var v1 := Arrive(v, e);
      ArriveSends(v, e, a);
      ArriveFinalizes(v, e);
      if v1.finalized {
        QuietAfterTeardown(v1, evs[1..]);
      } else {
        RunSends(v1, evs[1..], a);
      }
      SendsStep(OpenPorts(v), evs, a, v.links[a].sendCalls, v1.links[a].sendCalls, Run(v, evs).links[a].sendCalls);
    }
  }

  /** The bookkeeping of RunSends for one arrival: the send log after the first arrival,
      `log1`, and after the rest, `last`, compose to the payloads of all of them. */
  lemma SendsStep(open: set<PortNumber>, evs: seq<Arrival>, a: PortNumber, log: seq<Packet>, log1: seq<Packet>, last: seq<Packet>)
    requires evs != []
    requires var c := Classify(evs[0].frame);
             var sent := c.Accept? && c.destination in open;
             log1 == log + (if sent && c.destination == a then [c.payload] else []) &&
             last == (if sent && evs[0].outcome == Disconnected then log1
                      else log1 + PayloadsTo(Sends(open, evs[1..]), a))
    ensures last == log + PayloadsTo(Sends(open, evs), a)
  {
    var e := evs[0];
    var c := Classify(e.frame);
    var sent := c.Accept? && c.destination in open;
    var first := if sent then [e] else [];
    var rest := if sent && e.outcome == Disconnected then [] else Sends(open, evs[1..]);
    var p1, p2 := PayloadsTo(first, a), PayloadsTo(rest, a);
    assert log + p1 + p2 == log + (p1 + p2);
    SendsCons(open, evs);
    PayloadsToCons(first, rest, a);
    assert PayloadsTo(first, a) == (if sent && c.destination == a then [c.payload] else []) by {
      if sent { assert first[1..] == []; }
    }
    assert PayloadsTo(rest, a) == [] || last == log1 + PayloadsTo(rest, a);
    if last == log1 {
      assert last == log1 + [];
    }
  }

  /** Each sent counter ends at its start advanced by the number of packets for that port
      whose send returned normally (so modulo 2^32); the unused counter 0 never moves. */
  lemma {:induction false} RunSentCounters(v: RouterView, evs: seq<Arrival>, a: PortNumber)
    requires WellFormed(v) && AllIdle(v) && !v.finalized
    ensures Run(v, evs).nSent[a] == Advance(v.nSent[a], DeliveredTo(Sends(OpenPorts(v), evs), a))
    ensures Run(v, evs).nSent[0] == v.nSent[0]
    decreases |evs|
  {
    if evs != [] {
      var e := evs[0];
      var v1 := Arrive(v, e);
      ArriveSentCounters(v, e, a);
      ArriveFinalizes(v, e);
      if v1.finalized {
        QuietAfterTeardown(v1, evs[1..]);
      } else {
        RunSentCounters(v1, evs[1..], a);
      }
      SentStep(OpenPorts(v), evs, a, v.nSent[a], v1.nSent[a], Run(v, evs).nSent[a]);
    }
  }

  /** The bookkeeping of RunSentCounters for one arrival: the counter after the first
      arrival, `n1`, and after the rest, `last`, compose to the count over all of them. */
  lemma SentStep(open: set<PortNumber>, evs: seq<Arrival>, a: PortNumber, n: Counter, n1: Counter, last: Counter)
    requires evs != []
    requires var c := Classify(evs[0].frame);
             var sent := c.Accept? && c.destination in open;
             n1 == (if sent && c.destination == a && evs[0].outcome == Ok then Increment(n) else n) &&
             last == (if sent && evs[0].outcome == Disconnected then n1
                      else Advance(n1, DeliveredTo(Sends(open, evs[1..]), a)))
    ensures last == Advance(n, DeliveredTo(Sends(open, evs), a))
  {
    var e := evs[0];
    var c := Classify(e.frame);
    var sent := c.Accept? && c.destination in open;
    var first := if sent then [e] else [];
    var rest := if sent && e.outcome == Disconnected then [] else Sends(open, evs[1..]);
    SendsCons(open, evs);
    DeliveredToCons(first, rest, a);
    var b := DeliveredTo(first, a);
    assert b == (if sent && c.destination == a && e.outcome == Ok then 1 else 0) by {
      if sent { assert first[1..] == []; }
    }
    AdvanceCons(n, b, DeliveredTo(rest, a));
  }

  /** Each received counter ends at its start advanced by the number of packets that
      arrived on that port (so modulo 2^32), whatever became of them. */
  lemma {:induction false} RunReceivedCounters(v: RouterView, evs: seq<Arrival>, p: PortNumber)
    requires WellFormed(v) && AllIdle(v)
    ensures Run(v, evs).nReceived[p] == Advance(v.nReceived[p], ArrivedOn(evs, p))
    decreases |evs|
  {
    if evs != [] {
      var e := evs[0];
      var v1 := Arrive(v, e);
      ArriveCounted(v, e);
      RunReceivedCounters(v1, evs[1..], p);
      AdvanceCons(v.nReceived[p], if e.port == p then 1 else 0, ArrivedOn(evs[1..], p));
    }
  }

  /** The router is torn down after a run exactly when one of the sends reported
      Disconnected, and then every port is closed. */
  lemma {:induction false} RunTeardown(v: RouterView, evs: seq<Arrival>)
    requires WellFormed(v) && AllIdle(v) && !v.finalized
    ensures Run(v, evs).finalized <==> Disconnects(Sends(OpenPorts(v), evs))
    ensures Run(v, evs).finalized ==> forall p: PortNumber :: Run(v, evs).links[p].closed
    decreases |evs|
  {
    if evs != [] {
      var e := evs[0];
      var v1 := Arrive(v, e);
      var open := OpenPorts(v);
      var c := Classify(e.frame);
      var sent := c.Accept? && c.destination in open;
      var first := if sent then [e] else [];
      var rest := if sent && e.outcome == Disconnected then [] else Sends(open, evs[1..]);
      ArriveFinalizes(v, e);
      ArriveTeardown(v, e);
      SendsCons(open, evs);
      DisconnectsCons(first, rest);
      assert Disconnects(first) <==> v1.finalized by {
        if sent { assert first[0] == e; }
      }
      if v1.finalized {
        ClosedStaysClosed(v1, evs[1..]);
      } else {
        RunTeardown(v1, evs[1..]);
      }
    }
  }

  /** Once torn down, the router stays torn down with every port closed. */
  lemma {:induction false} ClosedStaysClosed(v: RouterView, evs: seq<Arrival>)
    requires WellFormed(v) && AllIdle(v) && v.finalized && forall p: PortNumber :: v.links[p].closed
    ensures Run(v, evs).finalized && forall p: PortNumber :: Run(v, evs).links[p].closed
    decreases |evs|
  {
    if evs != [] {
      ArriveAfterTeardown(v, evs[0]);
      ClosedStaysClosed(Arrive(v, evs[0]), evs[1..]);
    }
  }

  /** A run over `first + rest` is the run over `rest` from where the run over `first`
      ended: a run can be cut after any arrival. Both parts share one operational set,
      so a port opening or a loop exit between them is not covered by this. */
  lemma {:induction false} RunJoin(v: RouterView, first: seq<Arrival>, rest: seq<Arrival>)
    requires WellFormed(v) && AllIdle(v)
    ensures Run(v, first + rest) == Run(Run(v, first), rest)
    decreases |first|
  {
    if first == [] {
      assert first + rest == rest;
    } else {
      assert (first + rest)[0] == first[0];
      assert (first + rest)[1..] == first[1..] + rest;
      RunJoin(Arrive(v, first[0]), first[1..], rest);
    }
  }
}
