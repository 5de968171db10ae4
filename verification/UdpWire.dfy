/**
 The packets of the UDP carrier: the 28-byte header, sealed data packets, authenticated acknowledgements,
 and how a received datagram is classified. The cipher and the MAC are parameters.
 */
module UdpWire {
  import opened Bytes

  const MAGIC: Data := [0x55, 0x4B, 0x44, 0x31]
  const NONCE_PREFIX: Data := [0x55, 0x54, 0x4E, 0x31]
  const VERSION: Byte := 1
  const KIND_DATA: Byte := 1
  const KIND_ACK: Byte := 2
  const HEADER_LEN: nat := 28
  const OVERHEAD: nat := 16
  const MAX_PLAINTEXT: nat := 1400
  const READ_BUFFER: nat := 2048

  /** The keyed functions of one direction: `seal`/`open` under the data key (nonce, text, associated data),
      `tag` the acknowledgement MAC cut to 16 bytes. */
  datatype Direction = Direction(
    seal: (Data, Data, Data) -> Data,
    open: (Data, Data, Data) -> Option<Data>,
    tag: Data -> Data)

  ghost predicate Lawful(d: Direction) {
    && (forall n, p, h :: |d.seal(n, p, h)| == |p| + OVERHEAD)
    && (forall n, p, h :: d.open(n, d.seal(n, p, h), h) == Some(p))
    && (forall h :: |d.tag(h)| == 16)
  }

  function NonceFor(seqNo: nat): (n: Data)
    ensures |n| == 12
  {
    NONCE_PREFIX + PutUint(seqNo, 8)
  }

  function Header(kind: Byte, sid: nat, seqNo: nat, bodyLen: nat): (h: Data)
    ensures |h| == HEADER_LEN
  {
    MAGIC + [VERSION, kind, 0, 0] + PutUint(sid, 8) + PutUint(seqNo, 8) + PutUint(bodyLen, 2) + [0, 0]
  }

  function DataPacket(d: Direction, sid: nat, seqNo: nat, payload: Data): Data {
    var h := Header(KIND_DATA, sid, seqNo, |payload| + OVERHEAD);
    h + d.seal(NonceFor(seqNo), payload, h)
  }

  function AckPacket(d: Direction, sid: nat, seqNo: nat): Data {
    var h := Header(KIND_ACK, sid, seqNo, 16);
    h + d.tag(h)
  }

  datatype Incoming = Junk | Ack(seqNo: nat) | Payload(seqNo: nat, payload: Data)

  /** What a session with identifier `sid`, receiving under `d`, makes of a datagram. */
  function Classify(d: Direction, sid: nat, packet: Data): Incoming {
    if |packet| < HEADER_LEN then Junk
    else if packet[..4] != MAGIC || packet[4] != VERSION then Junk
    else
      var h, body := packet[..HEADER_LEN], packet[HEADER_LEN..];
      var seqNo := GetUint(packet[16..24]);
      if GetUint(packet[8..16]) != sid || GetUint(packet[24..26]) != |body| then Junk
      else if packet[5] == KIND_ACK then
        if |body| == 16 && body == d.tag(h) then Ack(seqNo) else Junk
      else if packet[5] == KIND_DATA then
        if |body| < OVERHEAD then Junk
        else match d.open(NonceFor(seqNo), body, h)
          case None => Junk
          case Some(p) => Payload(seqNo, p)
      else Junk
  }

  lemma HeaderNumbers(kind: Byte, sid: nat, seqNo: nat, bodyLen: nat)
    requires sid < UINT64 && seqNo < UINT64 && bodyLen < UINT16
    ensures var h := Header(kind, sid, seqNo, bodyLen);
            && h[..4] == MAGIC && h[4] == VERSION && h[5] == kind
            && GetUint(h[8..16]) == sid && GetUint(h[16..24]) == seqNo && GetUint(h[24..26]) == bodyLen
  {
    Powers();
    GetPut(sid, 8);
    GetPut(seqNo, 8);
    GetPut(bodyLen, 2);
    var h := Header(kind, sid, seqNo, bodyLen);
    assert h[8..16] == PutUint(sid, 8);
    assert h[16..24] == PutUint(seqNo, 8);
    assert h[24..26] == PutUint(bodyLen, 2);
  }

  lemma HeaderFields(kind: Byte, sid: nat, seqNo: nat, body: Data)
    requires sid < UINT64 && seqNo < UINT64 && |body| < UINT16
    ensures var p := Header(kind, sid, seqNo, |body|) + body;
            && p[..HEADER_LEN] == Header(kind, sid, seqNo, |body|) && p[HEADER_LEN..] == body
            && p[..4] == MAGIC && p[4] == VERSION && p[5] == kind
            && GetUint(p[8..16]) == sid && GetUint(p[16..24]) == seqNo && GetUint(p[24..26]) == |body|
  {
    HeaderNumbers(kind, sid, seqNo, |body|);
    var h := Header(kind, sid, seqNo, |body|);
    var p := h + body;
    assert p[..HEADER_LEN] == h && p[HEADER_LEN..] == body;
    assert p[..4] == h[..4] && p[8..16] == h[8..16] && p[16..24] == h[16..24] && p[24..26] == h[24..26];
  }

  /** A sealed packet comes back as the number and payload it was made from, and fits the 2048-byte read buffer. */
  lemma DataPacketReads(d: Direction, sid: nat, seqNo: nat, payload: Data)
    requires Lawful(d) && sid < UINT64 && seqNo < UINT64 && |payload| <= MAX_PLAINTEXT
    ensures Classify(d, sid, DataPacket(d, sid, seqNo, payload)) == Payload(seqNo, payload)
    ensures |DataPacket(d, sid, seqNo, payload)| == HEADER_LEN + |payload| + OVERHEAD <= READ_BUFFER
  {
    var h := Header(KIND_DATA, sid, seqNo, |payload| + OVERHEAD);
    HeaderFields(KIND_DATA, sid, seqNo, d.seal(NonceFor(seqNo), payload, h));
  }

  lemma AckPacketReads(d: Direction, sid: nat, seqNo: nat)
    requires Lawful(d) && sid < UINT64 && seqNo < UINT64
    ensures Classify(d, sid, AckPacket(d, sid, seqNo)) == Ack(seqNo)
  {
    var h := Header(KIND_ACK, sid, seqNo, 16);
    HeaderFields(KIND_ACK, sid, seqNo, d.tag(h));
  }

  /** A received header with its two reserved fields cleared. */
  function Cleared(h: Data): Data
    requires |h| == HEADER_LEN
  {
    h[..6] + [0, 0] + h[8..26] + [0, 0]
  }

  lemma ClearedSlice(h: Data, lo: nat, hi: nat)
    requires |h| == HEADER_LEN && (lo <= hi <= 6 || 8 <= lo <= hi <= 26)
    ensures Cleared(h)[lo..hi] == h[lo..hi]
  {
    var c := Cleared(h);
    forall i | lo <= i < hi ensures c[i] == h[i] {
      if i >= 8 { assert c[i] == h[8..26][i - 8]; } else { assert c[i] == h[..6][i]; }
    }
  }

  lemma ClearedFields(h: Data, kind: Byte, sid: nat, seqNo: nat, bodyLen: nat)
    requires |h| == HEADER_LEN && sid < UINT64 && seqNo < UINT64 && bodyLen < UINT16
    requires Cleared(h) == Header(kind, sid, seqNo, bodyLen)
    ensures h[..4] == MAGIC && h[4] == VERSION && h[5] == kind
    ensures GetUint(h[8..16]) == sid && GetUint(h[16..24]) == seqNo && GetUint(h[24..26]) == bodyLen
  {
    HeaderNumbers(kind, sid, seqNo, bodyLen);
    ClearedSlice(h, 0, 4);
    ClearedSlice(h, 8, 16);
    ClearedSlice(h, 16, 24);
    ClearedSlice(h, 24, 26);
    assert Cleared(h)[4] == h[4] && Cleared(h)[5] == h[5];
  }

  lemma FieldsCleared(h: Data)
    requires |h| == HEADER_LEN && h[..4] == MAGIC && h[4] == VERSION
    ensures GetUint(h[8..16]) < UINT64 && GetUint(h[16..24]) < UINT64 && GetUint(h[24..26]) < UINT16
    ensures Cleared(h) == Header(h[5], GetUint(h[8..16]), GetUint(h[16..24]), GetUint(h[24..26]))
  {
    Powers();
    PutGet(h[8..16]);
    PutGet(h[16..24]);
    PutGet(h[24..26]);
    assert h[..6] == MAGIC + [VERSION, h[5]];
    assert h[8..26] == h[8..16] + h[16..24] + h[24..26];
  }

  /** The datagram's first 28 bytes are, but for the reserved fields, the header of that kind, session and number for the
      rest of it. */
  ghost predicate Headed(packet: Data, kind: Byte, sid: nat, seqNo: nat) {
    && HEADER_LEN <= |packet| < HEADER_LEN + UINT16 && sid < UINT64 && seqNo < UINT64
    && Cleared(packet[..HEADER_LEN]) == Header(kind, sid, seqNo, |packet| - HEADER_LEN)
  }

  lemma HeadedExactly(packet: Data, kind: Byte, sid: nat, seqNo: nat)
    requires |packet| >= HEADER_LEN && sid < UINT64
    ensures Headed(packet, kind, sid, seqNo) <==>
            && packet[..4] == MAGIC && packet[4] == VERSION && packet[5] == kind && GetUint(packet[8..16]) == sid
            && GetUint(packet[16..24]) == seqNo && GetUint(packet[24..26]) == |packet| - HEADER_LEN
  {
    var h := packet[..HEADER_LEN];
    assert h[..4] == packet[..4] && h[8..16] == packet[8..16] && h[16..24] == packet[16..24] && h[24..26] == packet[24..26];
    if Headed(packet, kind, sid, seqNo) { ClearedFields(h, kind, sid, seqNo, |packet| - HEADER_LEN); }
    if packet[..4] == MAGIC && packet[4] == VERSION { FieldsCleared(h); }
  }

  /** A datagram is taken for an acknowledgement if and only if it has an acknowledgement's header and length and ends in
      the tag of that very header. */
  lemma AckExactly(d: Direction, sid: nat, packet: Data, seqNo: nat)
    requires sid < UINT64
    ensures Classify(d, sid, packet) == Ack(seqNo) <==>
            && |packet| == HEADER_LEN + 16 && Headed(packet, KIND_ACK, sid, seqNo)
            && packet[HEADER_LEN..] == d.tag(packet[..HEADER_LEN])
  {
    if |packet| >= HEADER_LEN { HeadedExactly(packet, KIND_ACK, sid, seqNo); }
  }

  /** A datagram is taken for a payload if and only if it has a data header and the rest opens to that payload under that
      header and the nonce of its number. */
  lemma PayloadExactly(d: Direction, sid: nat, packet: Data, seqNo: nat, payload: Data)
    requires sid < UINT64
    ensures Classify(d, sid, packet) == Payload(seqNo, payload) <==>
            && |packet| >= HEADER_LEN + OVERHEAD && Headed(packet, KIND_DATA, sid, seqNo)
            && d.open(NonceFor(seqNo), packet[HEADER_LEN..], packet[..HEADER_LEN]) == Some(payload)
  {
    if |packet| >= HEADER_LEN { HeadedExactly(packet, KIND_DATA, sid, seqNo); }
  }

  /** One direction's packets as the protocol uses them: how data and acknowledgements are put into bytes, and how
      the other end reads bytes back. */
  datatype Codec = Codec(data: (nat, Data) -> Data, ack: nat -> Data, read: Data -> Incoming)

  ghost predicate CodecOk(c: Codec) {
    && (forall k: nat, p: Data | k < UINT64 && |p| <= MAX_PLAINTEXT :: c.read(c.data(k, p)) == Payload(k, p))
    && (forall k: nat | k < UINT64 :: c.read(c.ack(k)) == Ack(k))
  }

  /** The packets of session `sid` under the keys of `d`. */
  function Keyed(d: Direction, sid: nat): Codec {
    Codec((k, p) => DataPacket(d, sid, k, p), k => AckPacket(d, sid, k), packet => Classify(d, sid, packet))
  }

  /** The byte formats give a codec that reads back everything it writes. */
  lemma KeyedOk(d: Direction, sid: nat)
    requires Lawful(d) && sid < UINT64
    ensures CodecOk(Keyed(d, sid))
  {
    var c := Keyed(d, sid);
    forall k: nat, p: Data | k < UINT64 && |p| <= MAX_PLAINTEXT ensures c.read(c.data(k, p)) == Payload(k, p) {
      DataPacketReads(d, sid, k, p);
    }
    forall k: nat | k < UINT64 ensures c.read(c.ack(k)) == Ack(k) {
      AckPacketReads(d, sid, k);
    }
  }

  /** Distinct 64-bit numbers give distinct 12-byte nonces. */
  lemma NonceInjective(s: nat, t: nat)
    requires s < UINT64 && t < UINT64 && s != t
    ensures NonceFor(s) != NonceFor(t)
  {
    Powers();
    if NonceFor(s) == NonceFor(t) {
      assert PutUint(s, 8) == NonceFor(s)[4..] == NonceFor(t)[4..] == PutUint(t, 8);
      PutInjective(s, t, 8);
      assert false;
    }
  }
}
