/** Bytes, packets, port numbers and packet counters of the virtual SpaceWire router,
    and the path-address rule of SpaceWire (ECSS-E-ST-50-12C, section 5.6): the leading
    byte of a packet names the output port and is deleted before the packet leaves. */
module SpaceWire {

  /** One byte of a packet (uint8_t). */
  type Byte = x: int | 0 <= x < 0x100

  /** A packet as the router holds it (std::vector<uint8_t>). */
  type Packet = seq<Byte>

  /** A packet counter (uint32_t); incrementing it wraps around at 2^32. */
  type Counter = x: int | 0 <= x < 0x1_0000_0000

  const CounterModulus: int := 0x1_0000_0000

  /** The highest port number; port 0 is the configuration port and has no Port object. */
  const MaxPortNumber: int := 5

  /** The port that connects out to the SpaceWire-to-GigabitEther uplink. */
  const PortNumberOfClientPort: int := 1

  /** A port that has a Port object: 1..MaxPortNumber. */
  type PortNumber = p: int | 1 <= p <= MaxPortNumber witness 1

  /** `n++` on a uint32_t counter. */
  function Increment(n: Counter): (m: Counter)
    ensures m == (n + 1) % CounterModulus
  {
    if n == CounterModulus - 1 then 0 else n + 1
  }

  /** `k` increments of a uint32_t counter, one after another. */
  function Advance(n: Counter, k: nat): Counter
    decreases k
  {
    if k == 0 then n else Advance(Increment(n), k - 1)
  }

  /** `k` increments move the counter by `k` modulo 2^32. */
  lemma {:induction false} AdvanceWraps(n: Counter, k: nat)
    ensures Advance(n, k) == (n + k) % CounterModulus
    decreases k
  {
    if k != 0 {
      AdvanceWraps(Increment(n), k - 1);
    }
  }

  /** What the transport reports for one send: it returns normally, or throws a
      SpaceWireIFException whose status is Timeout, Disconnected or something else. */
  datatype SendOutcome = Ok | Timeout | Disconnected | OtherError

  /** Why routePacket discards a packet before looking at any port. */
  datatype Discard =
    | TooShort           // fewer than two bytes: no address byte and payload
    | AddressTooLarge    // the path address is above MaxPortNumber
    | ConfigurationPort  // the path address is 0

  /** The result of reading a packet's path address. */
  datatype Classification =
    | Accept(destination: PortNumber, payload: Packet)
    | Reject(reason: Discard)

  /** The checks routePacket makes before it touches any port, and the deletion of the
      path-address byte. */
  function Classify(data: Packet): (c: Classification)
    ensures c.Accept? <==> 2 <= |data| && 1 <= data[0] <= MaxPortNumber
    ensures c.Accept? ==> data == [c.destination as Byte] + c.payload && c.payload != []
    ensures c == Reject(TooShort) <==> |data| < 2
    ensures c == Reject(AddressTooLarge) <==> 2 <= |data| && MaxPortNumber < data[0]
    ensures c == Reject(ConfigurationPort) <==> 2 <= |data| && data[0] == 0
  {
    if |data| == 0 || |data| == 1 then Reject(TooShort)
    else if MaxPortNumber < data[0] then Reject(AddressTooLarge)
    else if data[0] == 0 then Reject(ConfigurationPort)
    else Accept(data[0], data[1..])
  }

  /** A path-addressed packet: the address byte followed by the payload. */
  function Frame(destination: PortNumber, payload: Packet): (data: Packet)
    ensures |data| == |payload| + 1 && data[0] == destination && data[1..] == payload
  {
    [destination as Byte] + payload
  }

  /** Classify undoes Frame for every payload the router forwards. */
  lemma ClassifyFrame(destination: PortNumber, payload: Packet)
    requires payload != []
    ensures Classify(Frame(destination, payload)) == Accept(destination, payload)
  {
    var data := Frame(destination, payload);
    assert data[1..] == payload;
  }
}
