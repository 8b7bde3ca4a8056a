/** One router port (class Port): a SpaceWire-over-TCP link that is either a TCP server
    waiting for a connection or a TCP client connecting to the uplink, its operational
    flag, and the single slot through which its receive loop hands each received packet
    to the router before it receives the next one. */
module SpaceWirePort {
  import opened SpaceWire

  /** Server mode listens on a TCP port; client mode connects to url:port. */
  datatype Mode = ServerPort | ClientPort

  /** The receivedPacket hand-off: empty, or holding a packet that the router has not
      yet released (transferredCondition not yet signalled). */
  datatype Slot = Idle | Holding(frame: Packet)

  /** Where the port's run() is: retrying open(), inside the receive loop, or past it. */
  datatype Phase = Connecting | Receiving | Exited

  /** What routing reads and changes of a port: spwifOpened, whether close() was called
      on its interface, the hand-off slot, and every packet handed to send(), in order. */
  datatype LinkView = LinkView(operational: bool, closed: bool, slot: Slot, sendCalls: seq<Packet>)

  class Port {
    const portName: string
    const mode: Mode
    const url: string
    const port: nat

    var spwifOpened: bool
    var stopped: bool
    var phase: Phase
    var receivedPacket: Slot
    var spwifClosed: bool
    var sendCalls: seq<Packet>
    var sendLocked: bool  // sendMutex is held

    /** The port is operational exactly while its receive loop runs normally (a receive
        that throws is not modelled), and a packet is held only by a running loop. */
    ghost predicate Valid()
      reads this
    {
      (spwifOpened <==> phase == Receiving) &&
      (receivedPacket.Holding? ==> phase == Receiving)
    }

    function Link(): LinkView
      reads this
    {
      LinkView(spwifOpened, spwifClosed, receivedPacket, sendCalls)
    }

    /** A server-mode port: it will accept one connection on TCP port `port`. */
    constructor Server(portName: string, port: nat)
      ensures Valid()
      ensures this.portName == portName && this.port == port && mode == ServerPort && url == ""
      ensures !spwifOpened && phase == Connecting && receivedPacket == Idle
      ensures !spwifClosed && sendCalls == [] && !sendLocked
    {
      this.portName := portName;
      this.port := port;
      mode := ServerPort;
      url := "";
      spwifOpened := false;
      stopped := false;
      phase := Connecting;
      receivedPacket := Idle;
      spwifClosed := false;
      sendCalls := [];
      sendLocked := false;
    }

    /** A client-mode port: it will connect to `url` on TCP port `port`. */
    constructor Client(portName: string, url: string, port: nat)
      ensures Valid()
      ensures this.portName == portName && this.url == url && this.port == port && mode == ClientPort
      ensures !spwifOpened && phase == Connecting && receivedPacket == Idle
      ensures !spwifClosed && sendCalls == [] && !sendLocked
    {
      this.portName := portName;
      this.url := url;
      this.port := port;
      mode := ClientPort;
      spwifOpened := false;
      stopped := false;
      phase := Connecting;
      receivedPacket := Idle;
      spwifClosed := false;
      sendCalls := [];
      sendLocked := false;
    }

    /** One attempt of spwif->open() at the head of run(). A failed attempt changes
        nothing (run() retries it); a successful one makes the port operational, clears
        the stop flag and enters the receive loop. */
    method Open(succeeded: bool)
      requires Valid() && phase == Connecting
      modifies this`spwifOpened, this`stopped, this`phase
      ensures Valid()
      ensures spwifOpened == succeeded
      ensures phase == (if succeeded then Receiving else Connecting)
      ensures stopped == (if succeeded then false else old(stopped))
    {
      if succeeded {
        spwifOpened := true;
        stopped := false;
        phase := Receiving;
      }
    }

    /** spwif->receive() in the loop, then receiveCondition->signal(): the packet waits in
        the slot until the router releases it. Only an empty slot can be filled. */
    method Receive(frame: Packet)
      requires Valid() && phase == Receiving && !stopped && receivedPacket == Idle
      modifies this`receivedPacket
      ensures Valid() && receivedPacket == Holding(frame)
    {
      receivedPacket := Holding(frame);
    }

    /** transferredCondition->signal(): the router has finished with the held packet, and
        the receive loop may go on. */
    method Release()
      requires Valid()
      modifies this`receivedPacket
      ensures Valid() && receivedPacket == Idle
    {
      receivedPacket := Idle;
    }

    /** StoppableThread::stop(): ask the receive loop to end at its next check. */
    method Stop()
      modifies this`stopped
      ensures stopped
    {
      stopped := true;
    }

    /** The receive loop sees the stop flag after its packet was released: run() ends and
        the port is no longer operational. */
    method ExitLoop()
      requires Valid() && phase == Receiving && stopped && receivedPacket == Idle
      modifies this`spwifOpened, this`phase
      ensures Valid() && !spwifOpened && phase == Exited
    {
      spwifOpened := false;
      phase := Exited;
    }

    /** send(), with sendMutex released on every path: the packet is handed to the
        transport whatever the transport then reports. */
    method Send(data: Packet, outcome: SendOutcome)
      requires !sendLocked
      modifies this`sendCalls, this`sendLocked
      ensures sendCalls == old(sendCalls) + [data]
      ensures !sendLocked
    {
      sendLocked := true;
      sendCalls := sendCalls + [data];
      sendLocked := false;
    }

    /** send() as the source writes it: sendMutex.unlock() follows the transport call, so
        it is skipped when the transport throws, and the mutex stays held. */
    method SendAsWritten(data: Packet, outcome: SendOutcome)
      requires !sendLocked
      modifies this`sendCalls, this`sendLocked
      ensures sendCalls == old(sendCalls) + [data]
      ensures sendLocked <==> outcome != Ok
    {
      sendLocked := true;
      sendCalls := sendCalls + [data];
      if outcome == Ok {
        sendLocked := false;
      }
    }

    /** close(): closes the interface. It does not clear spwifOpened. */
    method Close()
      modifies this`spwifClosed
      ensures spwifClosed
    {
      spwifClosed := true;
    }
  }

  /** A send to a server port whose transport times out leaves sendMutex held, so the
      next send() to that port can never take it (Send and SendAsWritten both require it
      free). */
  method TimeoutLeavesSendMutexHeld() returns (held: bool)
    ensures held
  {
    var p := new Port.Server("Port2", 10031);
    p.SendAsWritten([0xAA, 0xBB], Timeout);
    held := p.sendLocked;
  }
}
