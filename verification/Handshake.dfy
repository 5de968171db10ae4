/** The authenticated handshake and its byte format, under a MAC that is a parameter. */
module Handshakes {
  import opened Bytes

  const MAGIC: Data := [0x55, 0x4B, 0x48, 0x31]
  const VERSION: Byte := 1
  const FIXED: nat := 58
  const MAC_LEN: nat := 32
  const MAX_ID: nat := 64
  const INT64: int := 0x8000_0000_0000_0000

  datatype Handshake = Handshake(kind: Byte, sessionID: nat, timestamp: int, nonce: Data, nodeID: Data, peerID: Data)

  predicate Sized(h: Handshake) {
    h.sessionID < UINT64 && -INT64 <= h.timestamp < INT64
  }

  predicate Encodable(h: Handshake) {
    |h.nonce| == 32 && 1 <= |h.nodeID| <= MAX_ID && 1 <= |h.peerID| <= MAX_ID
  }

  /** A signed 64-bit number as an unsigned one, and back. */
  function ToUnsigned(t: int): nat
    requires -INT64 <= t < INT64
  {
    if t < 0 then t + UINT64 else t
  }

  function ToSigned(v: nat): int {
    if v < INT64 then v else v - UINT64
  }

  function Front(h: Handshake): (b: Data)
    requires Sized(h)
    ensures |b| == 24
  {
    MAGIC + [VERSION, h.kind, 0, 0] + PutUint(h.sessionID, 8) + PutUint(ToUnsigned(h.timestamp), 8)
  }

  function Back(h: Handshake): (b: Data)
    requires Encodable(h)
    ensures |b| == FIXED - 24 + |h.nodeID| + |h.peerID|
  {
    h.nonce + [|h.nodeID|, |h.peerID|] + h.nodeID + h.peerID
  }

  function Base(h: Handshake): (b: Data)
    requires Sized(h) && Encodable(h)
    ensures |b| == FIXED + |h.nodeID| + |h.peerID|
  {
    Front(h) + Back(h)
  }

  /** `mac(secret, bytes)` is 32 bytes long. */
  ghost predicate MacOk(mac: (Data, Data) -> Data) {
    forall k, b :: |mac(k, b)| == MAC_LEN
  }

  function Encode(h: Handshake, bind: Data, secret: Data, mac: (Data, Data) -> Data): (r: Option<Data>)
    requires Sized(h)
    ensures r.Some? <==> Encodable(h)
    ensures r.Some? && MacOk(mac) ==> 92 <= |r.value| == 90 + |h.nodeID| + |h.peerID| <= 218
  {
    if Encodable(h) then Some(Base(h) + mac(secret, Base(h) + bind)) else None
  }

  function Decode(data: Data, bind: Data, secret: Data, mac: (Data, Data) -> Data): Option<Handshake> {
    if |data| < FIXED + MAC_LEN || data[..4] != MAGIC || data[4] != VERSION then None
    else
      var nodeLen, peerLen := data[56], data[57];
      var baseLen := FIXED + nodeLen + peerLen;
      if nodeLen == 0 || peerLen == 0 || nodeLen > MAX_ID || peerLen > MAX_ID || |data| != baseLen + MAC_LEN then None
      else if data[baseLen..] != mac(secret, data[..baseLen] + bind) then None
      else
        Some(Handshake(data[5], GetUint(data[8..16]), ToSigned(GetUint(data[16..24])), data[24..56],
                       data[FIXED..FIXED + nodeLen], data[FIXED + nodeLen..baseLen]))
  }

  lemma FrontFields(h: Handshake, tail: Data)
    requires Sized(h)
    ensures var d := Front(h) + tail;
            && d[..4] == MAGIC && d[4] == VERSION && d[5] == h.kind
            && GetUint(d[8..16]) == h.sessionID && GetUint(d[16..24]) == ToUnsigned(h.timestamp)
  {
    Powers();
    GetPut(h.sessionID, 8);
    GetPut(ToUnsigned(h.timestamp), 8);
    var d := Front(h) + tail;
    assert d[8..16] == PutUint(h.sessionID, 8);
    assert d[16..24] == PutUint(ToUnsigned(h.timestamp), 8);
  }

  lemma BackFields(front: Data, h: Handshake, tail: Data)
    requires |front| == 24 && Encodable(h)
    ensures var d := front + Back(h) + tail;
            && d[24..56] == h.nonce && d[56] == |h.nodeID| && d[57] == |h.peerID|
            && d[FIXED..FIXED + |h.nodeID|] == h.nodeID
            && d[FIXED + |h.nodeID|..FIXED + |h.nodeID| + |h.peerID|] == h.peerID
  {
  }

  /** `d` holds the fields of `h` in front of a tag over everything before it. */
  ghost predicate Holds(d: Data, h: Handshake, bind: Data, secret: Data, mac: (Data, Data) -> Data)
    requires Sized(h) && Encodable(h)
  {
    var e := FIXED + |h.nodeID|;
    var n := e + |h.peerID|;
    && |d| == n + MAC_LEN && d[..4] == MAGIC && d[4] == VERSION && d[5] == h.kind
    && GetUint(d[8..16]) == h.sessionID && GetUint(d[16..24]) == ToUnsigned(h.timestamp)
    && d[24..56] == h.nonce && d[56] == |h.nodeID| && d[57] == |h.peerID|
    && d[FIXED..e] == h.nodeID && d[e..n] == h.peerID && d[n..] == mac(secret, d[..n] + bind)
  }

  lemma HoldsDecodes(d: Data, h: Handshake, bind: Data, secret: Data, mac: (Data, Data) -> Data)
    requires Sized(h) && Encodable(h) && Holds(d, h, bind, secret, mac)
    ensures Decode(d, bind, secret, mac) == Some(h)
  {
  }

  lemma EncodedHolds(h: Handshake, bind: Data, secret: Data, mac: (Data, Data) -> Data)
    requires Sized(h) && Encodable(h) && MacOk(mac)
    ensures Holds(Encode(h, bind, secret, mac).value, h, bind, secret, mac)
  {
    var tag := mac(secret, Base(h) + bind);
    var d := Base(h) + tag;
    FrontFields(h, Back(h) + tag);
    BackFields(Front(h), h, tag);
    assert d == Front(h) + (Back(h) + tag);
    assert d[..|Base(h)|] == Base(h) && d[|Base(h)|..] == tag;
  }

  /** Decoding undoes encoding under the same secret and bound nonce. */
  lemma DecodeEncode(h: Handshake, bind: Data, secret: Data, mac: (Data, Data) -> Data)
    requires Sized(h) && Encodable(h) && MacOk(mac)
    ensures Decode(Encode(h, bind, secret, mac).value, bind, secret, mac) == Some(h)
  {
    EncodedHolds(h, bind, secret, mac);
    HoldsDecodes(Encode(h, bind, secret, mac).value, h, bind, secret, mac);
  }

  lemma DecodedFront(data: Data, bind: Data, secret: Data, mac: (Data, Data) -> Data)
    requires Decode(data, bind, secret, mac).Some?
    ensures var h := Decode(data, bind, secret, mac).value;
            Sized(h) && Encodable(h) && Front(h) == data[..6] + [0, 0] + data[8..24]
  {
    Powers();
    PutGet(data[8..16]);
    PutGet(data[16..24]);
    assert data[8..24] == data[8..16] + data[16..24];
    assert data[..6] == MAGIC + [VERSION, data[5]];
  }

  lemma DecodedBack(data: Data, bind: Data, secret: Data, mac: (Data, Data) -> Data)
    requires Decode(data, bind, secret, mac).Some?
    ensures var h := Decode(data, bind, secret, mac).value;
            Encodable(h) && Back(h) == data[24..|data| - MAC_LEN]
  {
  }

  lemma DecodedBase(data: Data, bind: Data, secret: Data, mac: (Data, Data) -> Data)
    requires Decode(data, bind, secret, mac).Some?
    ensures var h := Decode(data, bind, secret, mac).value;
            Sized(h) && Encodable(h) && Base(h) == data[..6] + [0, 0] + data[8..|Base(h)|] && |data| == |Base(h)| + MAC_LEN
  {
    DecodedFront(data, bind, secret, mac);
    DecodedBack(data, bind, secret, mac);
    var n := |data| - MAC_LEN;
    assert data[8..n] == data[8..24] + data[24..n];
  }

  /** What is accepted with cleared reserved bytes is exactly the encoding of what was read; with other reserved
      bytes it is that encoding up to those two bytes and the MAC over them. */
  lemma EncodeDecode(data: Data, bind: Data, secret: Data, mac: (Data, Data) -> Data)
    requires Decode(data, bind, secret, mac).Some?
    ensures var h := Decode(data, bind, secret, mac).value;
            && Sized(h) && Encodable(h)
            && (data[6] == data[7] == 0 ==> Encode(h, bind, secret, mac) == Some(data))
            && Base(h) == data[..6] + [0, 0] + data[8..|data| - MAC_LEN]
            && data[|data| - MAC_LEN..] == mac(secret, data[..|data| - MAC_LEN] + bind)
  {
    DecodedBase(data, bind, secret, mac);
    var h := Decode(data, bind, secret, mac).value;
    var n := |data| - MAC_LEN;
    if data[6] == data[7] == 0 {
      assert data[..n] == data[..6] + [data[6], data[7]] + data[8..n];
      assert data == data[..n] + data[n..];
    }
  }
}
