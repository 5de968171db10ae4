/** The application message and its byte format. */
module Messages {
  import opened Bytes

  const TYPE_IP_PACKET: nat := 1
  const TYPE_OPEN_TCP: nat := 2
  const TYPE_TCP_STATUS: nat := 3
  const TYPE_TCP_DATA: nat := 4
  const TYPE_TCP_CLOSE: nat := 5
  const TYPE_UDP_DATA: nat := 6
  const TYPE_PING: nat := 7
  const TYPE_PONG: nat := 8

  const MAGIC: Data := [0x55, 0x4D, 0x53, 0x47]
  const VERSION: Byte := 1
  const FIXED: nat := 40
  const MAX_NAME: nat := 255
  const MAX_ERROR: nat := 1024
  const MAX_PAYLOAD: nat := 0x10_0000

  datatype Message = Message(id: nat, kind: Byte, connID: nat, seqNo: nat, name: Data, error: Data, payload: Data)

  /** The numbers fit their 64-bit fields. */
  predicate Sized(m: Message) {
    m.id < UINT64 && m.connID < UINT64 && m.seqNo < UINT64
  }

  predicate Encodable(m: Message) {
    TYPE_IP_PACKET <= m.kind <= TYPE_PONG && |m.name| <= MAX_NAME && |m.error| <= MAX_ERROR && |m.payload| <= MAX_PAYLOAD
  }

  function Numbers(m: Message): (h: Data)
    ensures |h| == 32
  {
    MAGIC + [VERSION, m.kind, 0, 0] + PutUint(m.id, 8) + PutUint(m.connID, 8) + PutUint(m.seqNo, 8)
  }

  function Lengths(m: Message): (h: Data)
    ensures |h| == 8
  {
    PutUint(|m.name|, 2) + PutUint(|m.error|, 2) + PutUint(|m.payload|, 4)
  }

  /** The encoding has 40 bytes besides its three fields. */
  function Encode(m: Message): (r: Option<Data>)
    ensures r.Some? <==> Encodable(m)
    ensures r.Some? ==> |r.value| == FIXED + |m.name| + |m.error| + |m.payload|
  {
    if Encodable(m) then Some(Numbers(m) + Lengths(m) + (m.name + m.error + m.payload)) else None
  }

  function Decode(data: Data): Option<Message> {
    if |data| < FIXED || data[..4] != MAGIC || data[4] != VERSION then None
    else
      var nameLen, errLen, payloadLen := GetUint(data[32..34]), GetUint(data[34..36]), GetUint(data[36..40]);
      if nameLen > MAX_NAME || errLen > MAX_ERROR || payloadLen > MAX_PAYLOAD then None
      else if FIXED + nameLen + errLen + payloadLen != |data| then None
      else
        var e := FIXED + nameLen;
        Some(Message(GetUint(data[8..16]), data[5], GetUint(data[16..24]), GetUint(data[24..32]),
                     data[FIXED..e], data[e..e + errLen], data[e + errLen..]))
  }

  lemma NumberFields(m: Message, rest: Data)
    requires Sized(m)
    ensures var d := Numbers(m) + rest;
            && d[..4] == MAGIC && d[4] == VERSION && d[5] == m.kind
            && GetUint(d[8..16]) == m.id && GetUint(d[16..24]) == m.connID && GetUint(d[24..32]) == m.seqNo
  {
    Powers();
    GetPut(m.id, 8);
    GetPut(m.connID, 8);
    GetPut(m.seqNo, 8);
    var d := Numbers(m) + rest;
    assert d[8..16] == PutUint(m.id, 8);
    assert d[16..24] == PutUint(m.connID, 8);
    assert d[24..32] == PutUint(m.seqNo, 8);
  }

  lemma LengthFields(numbers: Data, m: Message, body: Data)
    requires |numbers| == 32 && Encodable(m)
    ensures var d := numbers + Lengths(m) + body;
            GetUint(d[32..34]) == |m.name| && GetUint(d[34..36]) == |m.error| && GetUint(d[36..40]) == |m.payload|
  {
    Powers();
    GetPut(|m.name|, 2);
    GetPut(|m.error|, 2);
    GetPut(|m.payload|, 4);
    ThreeFields(numbers, PutUint(|m.name|, 2), PutUint(|m.error|, 2), PutUint(|m.payload|, 4), body);
  }

  lemma ThreeFields(numbers: Data, a: Data, b: Data, c: Data, body: Data)
    requires |numbers| == 32 && |a| == 2 && |b| == 2 && |c| == 4
    ensures var d := numbers + (a + b + c) + body; d[32..34] == a && d[34..36] == b && d[36..40] == c
  {
    var d := numbers + (a + b + c) + body;
    assert d == numbers + a + (b + c + body);
    Middle(numbers, a, b + c + body);
    assert d == (numbers + a) + b + (c + body);
    Middle(numbers + a, b, c + body);
    assert d == (numbers + a + b) + c + body;
    Middle(numbers + a + b, c, body);
  }

  /** Decoding undoes encoding for every message that can be encoded. */
  lemma DecodeEncode(m: Message)
    requires Sized(m) && Encodable(m)
    ensures Decode(Encode(m).value) == Some(m)
  {
    var body := m.name + m.error + m.payload;
    var d := Encode(m).value;
    assert d == Numbers(m) + (Lengths(m) + body);
    NumberFields(m, Lengths(m) + body);
    LengthFields(Numbers(m), m, body);
    var e := FIXED + |m.name|;
    assert d[FIXED..e] == m.name;
    assert d[e..e + |m.error|] == m.error;
    assert d[e + |m.error|..] == m.payload;
  }

  lemma DecodedNumbers(data: Data)
    requires Decode(data).Some?
    ensures Sized(Decode(data).value) && Numbers(Decode(data).value) == data[..6] + [0, 0] + data[8..32]
  {
    Powers();
    PutGet(data[8..16]);
    PutGet(data[16..24]);
    PutGet(data[24..32]);
    assert data[8..32] == data[8..16] + data[16..24] + data[24..32];
    assert data[..6] == MAGIC + [VERSION, data[5]];
  }

  lemma DecodedLengths(data: Data)
    requires Decode(data).Some?
    ensures Lengths(Decode(data).value) == data[32..FIXED]
  {
    PutGet(data[32..34]);
    PutGet(data[34..36]);
    PutGet(data[36..40]);
    assert data[32..FIXED] == data[32..34] + data[34..36] + data[36..40];
  }

  lemma Rejoin(data: Data)
    requires |data| >= FIXED
    ensures data[..6] + [0, 0] + data[8..32] + data[32..FIXED] + data[FIXED..] == data[..6] + [0, 0] + data[8..]
  {
  }

  /** Whatever is accepted with a known type encodes again to the same bytes, the two reserved ones cleared. */
  lemma EncodeDecode(data: Data)
    requires Decode(data).Some? && TYPE_IP_PACKET <= Decode(data).value.kind <= TYPE_PONG
    ensures Sized(Decode(data).value)
    ensures Encode(Decode(data).value) == Some(data[..6] + [0, 0] + data[8..])
  {
    var m := Decode(data).value;
    DecodedNumbers(data);
    DecodedLengths(data);
    assert m.name + m.error + m.payload == data[FIXED..];
    Rejoin(data);
  }
}
