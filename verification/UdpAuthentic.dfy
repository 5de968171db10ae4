/**
 Where the step system's rule of delivery comes from: if every tag and every seal that verifies was made by the peer, then a
 datagram that is not junk is one the peer put on the wire.
 */
module UdpAuthentic {
  import opened Bytes
  import opened UdpWire
  import opened UdpProtocol

  /** The headers a session tagged, and the nonces, texts and headers it sealed and released. */
  datatype Made = Made(tags: set<Data>, seals: set<(Data, Data, Data)>)

  function DataHeader(sid: nat, seqNo: nat, payload: Data): Data {
    Header(KIND_DATA, sid, seqNo, |payload| + OVERHEAD)
  }

  function MadeBy(d: Direction, sid: nat, x: Side): Made {
    Made(set k | k in x.acked :: Header(KIND_ACK, sid, k, 16),
         set k | 1 <= k <= |x.sent| && DataPacket(d, sid, k, x.sent[k - 1]) in x.wire ::
           (NonceFor(k), x.sent[k - 1], DataHeader(sid, k, x.sent[k - 1])))
  }

  /** If the end of the datagram verifies as a tag or a seal of its beginning, then the session made it. */
  ghost predicate Unforged(d: Direction, made: Made, packet: Data) {
    |packet| >= HEADER_LEN ==>
      var h, body := packet[..HEADER_LEN], packet[HEADER_LEN..];
      && (body == d.tag(h) ==> h in made.tags)
      && (forall n: Data | d.open(n, body, h).Some? :: exists p: Data :: (n, p, h) in made.seals && body == d.seal(n, p, h))
  }

  // ----- what is acknowledged is on the wire -----

  ghost predicate AcksOut(l: Link, x: Side) {
    forall k | k in x.acked :: l.out.ack(k) in x.wire
  }

  lemma AcksStep(l: Link, x: Side, y: Side, a: Action)
    requires AcksOut(l, x) && Enabled(l, x, y, a)
    ensures AcksOut(l, Apply(l, x, y, a))
  {
  }

  lemma {:induction false} AcksRun(l: Link, n: Net, steps: seq<Step>)
    requires AcksOut(Flip(l), n.y) && Runs(l, n, steps)
    ensures AcksOut(Flip(l), After(l, n, steps).y)
    decreases |steps|
  {
    if steps != [] {
      if !steps[0].left { AcksStep(Flip(l), n.y, n.x, steps[0].action); }
      AcksRun(l, Do(l, n, steps[0]), steps[1..]);
    }
  }

  // ----- what verifies is on the wire -----

  lemma AckOnWire(d: Direction, sid: nat, y: Side, packet: Data, seqNo: nat)
    requires sid < UINT64 && Unforged(d, MadeBy(d, sid, y), packet) && Classify(d, sid, packet) == Ack(seqNo)
    requires forall k | k in y.acked :: AckPacket(d, sid, k) in y.wire
    ensures packet in y.wire
  {
    AckExactly(d, sid, packet, seqNo);
    var h := packet[..HEADER_LEN];
    assert h in MadeBy(d, sid, y).tags;
    var k :| k in y.acked && h == Header(KIND_ACK, sid, k, 16);
    assert packet == h + packet[HEADER_LEN..] == AckPacket(d, sid, k);
  }

  lemma PayloadOnWire(d: Direction, sid: nat, y: Side, packet: Data, seqNo: nat, payload: Data)
    requires sid < UINT64 && Unforged(d, MadeBy(d, sid, y), packet) && Classify(d, sid, packet) == Payload(seqNo, payload)
    ensures packet in y.wire
  {
    PayloadExactly(d, sid, packet, seqNo, payload);
    var h, body := packet[..HEADER_LEN], packet[HEADER_LEN..];
    var p: Data :| (NonceFor(seqNo), p, h) in MadeBy(d, sid, y).seals && body == d.seal(NonceFor(seqNo), p, h);
    var k :| 1 <= k <= |y.sent| && DataPacket(d, sid, k, y.sent[k - 1]) in y.wire && NonceFor(seqNo) == NonceFor(k)
             && p == y.sent[k - 1] && h == DataHeader(sid, k, y.sent[k - 1]);
    assert packet == h + body == DataPacket(d, sid, k, y.sent[k - 1]);
  }

  /** In every run over the real packets, any datagram that is not a forgery may be delivered under the step system's rule:
      it is junk or the peer put it on the wire. */
  lemma UnforgedIsDelivered(d1: Direction, d2: Direction, sid: nat, steps: seq<Step>, packet: Data, ackOk: bool, room: nat)
    requires sid < UINT64 && Runs(Link(Keyed(d1, sid), Keyed(d2, sid)), INITIAL, steps)
    requires var n := After(Link(Keyed(d1, sid), Keyed(d2, sid)), INITIAL, steps);
             !n.x.ep.releasing && Unforged(d2, MadeBy(d2, sid, n.y), packet)
    ensures var l := Link(Keyed(d1, sid), Keyed(d2, sid));
            Can(l, After(l, INITIAL, steps), Step(true, Deliver(packet, ackOk, room)))
  {
    var l := Link(Keyed(d1, sid), Keyed(d2, sid));
    AcksRun(l, INITIAL, steps);
    var y := After(l, INITIAL, steps).y;
    assert forall k | k in y.acked :: Flip(l).out.ack(k) in y.wire;
    match Classify(d2, sid, packet)
    case Junk =>
    case Ack(k) => AckOnWire(d2, sid, y, packet, k);
    case Payload(k, p) => PayloadOnWire(d2, sid, y, packet, k, p);
  }
}
