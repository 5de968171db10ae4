/** From the limits of the configuration to the limits of the carriers: every message the application builds fits. */
module Sizes {
  import opened Bytes
  import opened UdpWire
  import opened Messages
  import opened Configs
  import F = Fragments
  import OrderedFlow
  import TcpRecords

  /** The bytes of an ASCII string. */
  function Ascii(s: string): Data {
    seq(|s|, i requires 0 <= i < |s| => s[i] as int % 256)
  }

  const LIMIT_REACHED := "TCP connection limit reached"
  const NOT_ALLOWED := "service is not allowed or is not TCP"
  const DIAL_FAILED := "remote service connection failed"

  /** What the application asks to send: a packet read from the TUN device, the messages of a TCP flow, a fragment of a
      UDP datagram (towards a service of a forward, or back with no name), and the heartbeat. */
  datatype Request =
    | IPPacket(packet: Data)
    | OpenTCP(connID: nat, forward: nat)
    | StatusOk(connID: nat)
    | StatusError(connID: nat, reason: string)
    | TCPData(connID: nat, seqNo: nat, chunk: Data)
    | CloseTCP(connID: nat)
    | UDPData(key: F.Key, towards: Option<nat>, data: Data, part: nat)
    | Ping(seqNo: nat)
    | Pong(seqNo: nat)

  /** What bounds a request in accepted settings: packets by the MTU, names by the forwards, chunks and pieces by their
      buffers. */
  predicate Possible(c: Settings, r: Request) {
    match r
    case IPPacket(packet) => c.l3.enabled && |packet| <= c.l3.mtu
    case OpenTCP(_, forward) => forward < |c.forwards|
    case StatusOk(_) => true
    case StatusError(_, reason) => reason == LIMIT_REACHED || reason == NOT_ALLOWED || reason == DIAL_FAILED
    case TCPData(_, _, chunk) => 0 < |chunk| <= OrderedFlow.CHUNK
    case CloseTCP(_) => true
    case UDPData(_, forward, data, part) =>
      (forward.Some? ==> forward.value < |c.forwards|) && |data| <= F.MAX_DATAGRAM && part < F.Parts(|data|)
    case Ping(_) => true
    case Pong(_) => true
  }

  /** The message for a request, before it gets its identifier. */
  function Build(c: Settings, r: Request): Message
    requires Possible(c, r)
  {
    match r
    case IPPacket(packet) => Message(0, TYPE_IP_PACKET, 0, 0, [], [], packet)
    case OpenTCP(connID, forward) =>
      Message(0, TYPE_OPEN_TCP, connID, 0, Ascii(c.forwards[forward].service), [], [])
    case StatusOk(connID) => Message(0, TYPE_TCP_STATUS, connID, 0, [], [], [])
    case StatusError(connID, reason) => Message(0, TYPE_TCP_STATUS, connID, 0, [], Ascii(reason), [])
    case TCPData(connID, seqNo, chunk) => Message(0, TYPE_TCP_DATA, connID, seqNo, [], [], chunk)
    case CloseTCP(connID) => Message(0, TYPE_TCP_CLOSE, connID, 0, [], [], [])
    case UDPData(key, forward, data, part) =>
      F.Fragment(key, if forward.Some? then Ascii(c.forwards[forward.value].service) else [], data, part)
    case Ping(seqNo) => Message(0, TYPE_PING, 0, seqNo, [], [], [])
    case Pong(seqNo) => Message(0, TYPE_PONG, 0, seqNo, [], [], [])
  }

  lemma PieceFits(data: Data, part: nat)
    requires part < F.Parts(|data|)
    ensures |F.Piece(data, part)| <= F.PIECE
  {
    F.PieceStart(|data|, part);
  }

  /** Whatever identifier it gets, the message encodes, into at most 1340 bytes. */
  lemma BuiltSize(x: Syntax, c: Settings, r: Request, id: nat)
    requires Accepted(x, c) && Possible(c, r)
    ensures var m := Build(c, r).(id := id);
            Encode(m).Some? && |Encode(m).value| <= 1340
  {
    match r
    case IPPacket(packet) =>
    case OpenTCP(connID, forward) => assert ForwardOk(x, c.forwards[forward]);
    case StatusOk(connID) =>
    case StatusError(connID, reason) =>
    case TCPData(connID, seqNo, chunk) =>
    case CloseTCP(connID) =>
    case UDPData(key, forward, data, part) =>
      PieceFits(data, part);
      if forward.Some? { assert ForwardOk(x, c.forwards[forward.value]); }
    case Ping(seqNo) =>
    case Pong(seqNo) =>
  }

  /** So neither carrier refuses it for its size, and its UDP packet fits the 16-bit length and the read buffer. */
  lemma CarriersTakeIt(x: Syntax, c: Settings, r: Request, id: nat, d: Direction, sid: nat, seqNo: nat)
    requires Accepted(x, c) && Possible(c, r) && Lawful(d) && sid < UINT64 && seqNo < UINT64
    ensures var e := Encode(Build(c, r).(id := id)).value;
            && |e| <= MAX_PLAINTEXT && |e| <= TcpRecords.MAX_FRAME
            && |e| + OVERHEAD < UINT16 && |DataPacket(d, sid, seqNo, e)| <= READ_BUFFER
            && Classify(d, sid, DataPacket(d, sid, seqNo, e)) == Payload(seqNo, e)
  {
    BuiltSize(x, c, r, id);
    DataPacketReads(d, sid, seqNo, Encode(Build(c, r).(id := id)).value);
  }

  /** The TUN read buffer holds 128 bytes more than the MTU; a packet read into it is taken by the UDP carrier if and
      only if it has at most 1360 bytes. */
  lemma PacketFitsExactly(packet: Data, id: nat)
    requires |packet| <= 1300 + 128
    ensures var m := Message(id, TYPE_IP_PACKET, 0, 0, [], [], packet);
            Encode(m).Some? && (|Encode(m).value| <= MAX_PLAINTEXT <==> |packet| <= 1360)
  {
    var m := Message(id, TYPE_IP_PACKET, 0, 0, [], [], packet);
    assert Encodable(m);
  }
}
