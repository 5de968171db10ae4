/** The TCP carrier's record stream: numbered sealed frames written back to back and read from any piece of the stream. */
module TcpRecords {
  import opened Bytes
  import opened UdpWire
  import opened Writers

  const MAX_FRAME: nat := 0x20_0000
  const HEAD: nat := 12

  // ----- one frame -----

  function Sealed(d: Direction, seqNo: nat, payload: Data): Data {
    d.seal(NonceFor(seqNo), payload, PutUint(seqNo, 8))
  }

  function FrameHead(d: Direction, seqNo: nat, payload: Data): (h: Data)
    ensures |h| == HEAD
  {
    PutUint(8 + |Sealed(d, seqNo, payload)|, 4) + PutUint(seqNo, 8)
  }

  function Frame(d: Direction, seqNo: nat, payload: Data): Data {
    FrameHead(d, seqNo, payload) + Sealed(d, seqNo, payload)
  }

  function FrameLen(payload: Data): nat {
    HEAD + |payload| + OVERHEAD
  }

  datatype Stop = Eof | BadLength | BadSequence | BadTag

  /** What the front of the stream holds: a payload in a frame of `size` bytes, or a reason to stop. */
  datatype Next = Halt(stop: Stop) | Got(payload: Data, size: nat)

  predicate LengthOk(frameLen: nat) {
    8 + OVERHEAD <= frameLen <= MAX_FRAME + OVERHEAD + 8
  }

  function NextFrame(d: Direction, bytes: Data, recvSeq: nat): (n: Next)
    ensures n.Got? ==> 0 < n.size <= |bytes|
  {
    if |bytes| < HEAD then Halt(Eof)
    else
      var frameLen, seqNo := GetUint(bytes[..4]), GetUint(bytes[4..12]);
      if !LengthOk(frameLen) then Halt(BadLength)
      else if seqNo != recvSeq then Halt(BadSequence)
      else if |bytes| < 4 + frameLen then Halt(Eof)
      else match d.open(NonceFor(seqNo), bytes[HEAD..4 + frameLen], PutUint(seqNo, 8))
        case None => Halt(BadTag)
        case Some(p) => Got(p, 4 + frameLen)
  }

  lemma FrameFields(d: Direction, seqNo: nat, payload: Data, rest: Data)
    requires Lawful(d)
    ensures var b := Frame(d, seqNo, payload) + rest;
            && |Frame(d, seqNo, payload)| == FrameLen(payload)
            && b[..4] == PutUint(8 + |payload| + OVERHEAD, 4) && b[4..12] == PutUint(seqNo, 8)
            && b[HEAD..FrameLen(payload)] == Sealed(d, seqNo, payload)
  {
    var a, c := PutUint(8 + |payload| + OVERHEAD, 4), PutUint(seqNo, 8);
    var b := Frame(d, seqNo, payload) + rest;
    assert b == a + c + (Sealed(d, seqNo, payload) + rest);
  }

  /** A frame in front of anything passes the reader's length test and gives back its payload. */
  lemma FrameReads(d: Direction, seqNo: nat, payload: Data, rest: Data)
    requires Lawful(d) && seqNo < UINT64 && |payload| <= MAX_FRAME
    ensures NextFrame(d, Frame(d, seqNo, payload) + rest, seqNo) == Got(payload, FrameLen(payload))
  {
    Powers();
    GetPut(8 + |payload| + OVERHEAD, 4);
    GetPut(seqNo, 8);
    FrameFields(d, seqNo, payload, rest);
  }

  /** A frame that is cut short yields nothing. */
  lemma CutFrameReads(d: Direction, seqNo: nat, payload: Data, cut: nat)
    requires Lawful(d) && seqNo < UINT64 && |payload| <= MAX_FRAME && cut < FrameLen(payload)
    ensures |Frame(d, seqNo, payload)| == FrameLen(payload)
    ensures NextFrame(d, Frame(d, seqNo, payload)[..cut], seqNo) == Halt(Eof)
  {
    Powers();
    GetPut(8 + |payload| + OVERHEAD, 4);
    GetPut(seqNo, 8);
    FrameFields(d, seqNo, payload, []);
    var b := Frame(d, seqNo, payload);
    assert b + [] == b;
    if cut >= HEAD {
      assert b[..cut][..4] == b[..4] && b[..cut][4..12] == b[4..12];
    }
  }

  /** The reader takes a frame if and only if its length is allowed and all there, its number is the one expected, and its
      body opens under that number. */
  lemma NextFrameExactly(d: Direction, bytes: Data, recvSeq: nat, payload: Data, size: nat)
    requires recvSeq < UINT64
    ensures NextFrame(d, bytes, recvSeq) == Got(payload, size) <==>
            && 4 <= size <= |bytes| && LengthOk(size - 4)
            && bytes[..HEAD] == PutUint(size - 4, 4) + PutUint(recvSeq, 8)
            && d.open(NonceFor(recvSeq), bytes[HEAD..size], PutUint(recvSeq, 8)) == Some(payload)
  {
    Powers();
    GetPut(recvSeq, 8);
    if size >= 4 && LengthOk(size - 4) { GetPut(size - 4, 4); }
    if |bytes| >= HEAD {
      PutGet(bytes[..4]);
      PutGet(bytes[4..12]);
      assert bytes[..HEAD] == bytes[..4] + bytes[4..12];
      assert bytes[..HEAD][..4] == bytes[..4] && bytes[..HEAD][4..] == bytes[4..12];
    }
  }

  // ----- the stream, for any framing that reads back what it writes -----

  /** How a payload becomes a frame and what a reader makes of the front of a stream. */
  datatype Framing = Framing(frame: (nat, Data) -> Data, next: (Data, nat) -> Next)

  ghost predicate FramingOk(f: Framing) {
    && (forall k: nat, p: Data | |p| <= MAX_FRAME :: |f.frame(k, p)| == FrameLen(p))
    && (forall k: nat, p: Data, rest: Data | k < UINT64 && |p| <= MAX_FRAME ::
          f.next(f.frame(k, p) + rest, k) == Got(p, FrameLen(p)))
    && (forall k: nat, p: Data, cut: nat | k < UINT64 && |p| <= MAX_FRAME && cut < FrameLen(p) && cut <= |f.frame(k, p)| ::
          f.next(f.frame(k, p)[..cut], k) == Halt(Eof))
    && (forall k: nat :: f.next([], k) == Halt(Eof))
  }

  function Framed(d: Direction): Framing {
    Framing((k: nat, p: Data) => Frame(d, k, p), (bytes: Data, k: nat) => NextFrame(d, bytes, k))
  }

  /** The record format is such a framing. */
  lemma FramedOk(d: Direction)
    requires Lawful(d)
    ensures FramingOk(Framed(d))
  {
    var f := Framed(d);
    forall k: nat, p: Data | |p| <= MAX_FRAME ensures |f.frame(k, p)| == FrameLen(p) {
      FrameFields(d, k, p, []);
    }
    forall k: nat, p: Data, rest: Data | k < UINT64 && |p| <= MAX_FRAME
      ensures f.next(f.frame(k, p) + rest, k) == Got(p, FrameLen(p))
    {
      FrameReads(d, k, p, rest);
    }
    forall k: nat, p: Data, cut: nat | k < UINT64 && |p| <= MAX_FRAME && cut < FrameLen(p) && cut <= |f.frame(k, p)|
      ensures f.next(f.frame(k, p)[..cut], k) == Halt(Eof)
    {
      CutFrameReads(d, k, p, cut);
    }
  }

  /** The bytes of the frames for `payloads`, numbered from `from`. */
  function Stream(f: Framing, payloads: seq<Data>, from: nat): Data {
    if payloads == [] then [] else f.frame(from, payloads[0]) + Stream(f, payloads[1..], from + 1)
  }

  datatype Reading = Reading(payloads: seq<Data>, recvSeq: nat, stop: Stop)

  /** What the read loop yields from a stream that ends after `bytes`. */
  function Read(f: Framing, bytes: Data, recvSeq: nat): Reading
    decreases |bytes|
  {
    var n := f.next(bytes, recvSeq);
    if n.Halt? then Reading([], recvSeq, n.stop)
    else if n.size == 0 || n.size > |bytes| then Reading([], recvSeq, BadLength)
    else
      var rest := Read(f, bytes[n.size..], (recvSeq + 1) % UINT64);
      Reading([n.payload] + rest.payloads, rest.recvSeq, rest.stop)
  }

  /** What the loop has and what it will get make the whole reading. */
  ghost predicate Joined(all: Reading, out: seq<Data>, left: Reading) {
    all == Reading(out + left.payloads, left.recvSeq, left.stop)
  }

  lemma JoinedMore(all: Reading, out: seq<Data>, p: Data, left: Reading)
    requires Joined(all, out, Reading([p] + left.payloads, left.recvSeq, left.stop))
    ensures Joined(all, out + [p], left)
  {
    assert out + ([p] + left.payloads) == out + [p] + left.payloads;
  }

  method ReadLoop(d: Direction, bytes: Data) returns (r: Reading)
    ensures r == Read(Framed(d), bytes, 1)
  {
    var f := Framed(d);
    var rest, out: seq<Data> := bytes, [];
    var recvSeq: nat := 1;
    ghost var all := Read(f, bytes, 1);
    while true
      invariant Joined(all, out, Read(f, rest, recvSeq))
      decreases |rest|
    {
      var n := f.next(rest, recvSeq);
      assert n == NextFrame(d, rest, recvSeq);
      if n.Halt? {
        return Reading(out, recvSeq, n.stop);
      }
      JoinedMore(all, out, n.payload, Read(f, rest[n.size..], (recvSeq + 1) % UINT64));
      out := out + [n.payload];
      recvSeq := (recvSeq + 1) % UINT64;
      rest := rest[n.size..];
    }
  }

  /** How many of the frames lie entirely within the first `cut` bytes. */
  function Complete(payloads: seq<Data>, cut: nat): (k: nat)
    ensures k <= |payloads|
  {
    if payloads == [] || FrameLen(payloads[0]) > cut then 0
    else 1 + Complete(payloads[1..], cut - FrameLen(payloads[0]))
  }

  ghost predicate Sendable(payloads: seq<Data>) {
    forall i | 0 <= i < |payloads| :: |payloads[i]| <= MAX_FRAME
  }

  lemma CutWithin(a: Data, b: Data, cut: nat)
    requires cut <= |a + b|
    ensures (a + b)[..cut] == if cut <= |a| then a[..cut] else a + b[..cut - |a|]
  {
  }

  lemma ReadMore(f: Framing, bytes: Data, recvSeq: nat, p: Data, n: nat)
    requires 0 < n <= |bytes| && f.next(bytes, recvSeq) == Got(p, n) && recvSeq + 1 < UINT64
    ensures var rest := Read(f, bytes[n..], recvSeq + 1);
            Read(f, bytes, recvSeq) == Reading([p] + rest.payloads, rest.recvSeq, rest.stop)
  {
  }

  lemma OneTaken(payloads: seq<Data>, k: nat)
    requires k < |payloads|
    ensures [payloads[0]] + payloads[1..][..k] == payloads[..k + 1]
  {
  }

  lemma FrontFrame(f: Framing, from: nat, p: Data, rest: Data)
    requires FramingOk(f) && |p| <= MAX_FRAME && from + 1 < UINT64
    ensures var r := Read(f, rest, from + 1);
            Read(f, f.frame(from, p) + rest, from) == Reading([p] + r.payloads, r.recvSeq, r.stop)
  {
    var bytes := f.frame(from, p) + rest;
    assert f.next(bytes, from) == Got(p, FrameLen(p));
    ReadMore(f, bytes, from, p, FrameLen(p));
    assert bytes[FrameLen(p)..] == rest;
  }

  /** A cut within the first frame yields nothing, a cut behind it yields its payload and what the rest yields. */
  lemma CutFirst(f: Framing, from: nat, p: Data, later: Data, cut: nat)
    requires FramingOk(f) && |p| <= MAX_FRAME && from + 1 < UINT64 && cut <= |f.frame(from, p) + later|
    ensures |f.frame(from, p)| == FrameLen(p)
    ensures var bytes := (f.frame(from, p) + later)[..cut];
            if cut < FrameLen(p) then Read(f, bytes, from) == Reading([], from, Eof)
            else
              var r := Read(f, later[..cut - FrameLen(p)], from + 1);
              Read(f, bytes, from) == Reading([p] + r.payloads, r.recvSeq, r.stop)
  {
    var frame := f.frame(from, p);
    CutWithin(frame, later, cut);
    if cut < FrameLen(p) {
      assert f.next(frame[..cut], from) == Halt(Eof);
    } else {
      assert (frame + later)[..cut] == frame + later[..cut - FrameLen(p)];
      FrontFrame(f, from, p, later[..cut - FrameLen(p)]);
    }
  }

  /** From any cut of the stream the reader yields exactly the payloads whose frames are complete, in order, with its
      number in step, and stops only because the stream ends. */
  lemma {:induction false} ReadsComplete(f: Framing, payloads: seq<Data>, from: nat, cut: nat)
    requires FramingOk(f) && Sendable(payloads) && from + |payloads| < UINT64 && cut <= |Stream(f, payloads, from)|
    ensures var k := Complete(payloads, cut);
            Read(f, Stream(f, payloads, from)[..cut], from) == Reading(payloads[..k], from + k, Eof)
    decreases |payloads|
  {
    if payloads == [] {
      assert Stream(f, payloads, from)[..cut] == [];
    } else {
      var p, later := payloads[0], Stream(f, payloads[1..], from + 1);
      CutFirst(f, from, p, later, cut);
      if FrameLen(p) <= cut {
        var rest := cut - FrameLen(p);
        ReadsComplete(f, payloads[1..], from + 1, rest);
        OneTaken(payloads, Complete(payloads[1..], rest));
      }
    }
  }

  lemma {:induction false} StreamAppend(f: Framing, payloads: seq<Data>, more: Data, from: nat)
    ensures Stream(f, payloads + [more], from) == Stream(f, payloads, from) + f.frame(from + |payloads|, more)
    decreases |payloads|
  {
    if payloads == [] {
      assert (payloads + [more])[1..] == [];
    } else {
      StreamAppend(f, payloads[1..], more, from + 1);
      assert (payloads + [more])[1..] == payloads[1..] + [more];
    }
  }

  lemma PutTwice(s: Sink, a: Data, b: Data)
    ensures Fits(s, a) ==> Put(Put(s, a), b).written <= s.written + (a + b)
    ensures Fits(s, a) && Fits(Put(s, a), b) ==> Put(Put(s, a), b).written == s.written + (a + b)
    ensures Put(s, a).written <= s.written + (a + b)
    ensures s.room == 0 ==> Put(s, a).written == s.written
  {
    assert a[..|a|] == a && b[..|b|] == b;
  }

  /** Short and failed writes included: whatever part of the stream was written, reading it yields the payloads whose
      frames were written completely, in order, and stops at the end of the stream. */
  lemma WrittenReads(d: Direction, sent: seq<Data>, written: Data)
    requires Lawful(d) && Sendable(sent) && |sent| + 1 < UINT64 && written <= Stream(Framed(d), sent, 1)
    ensures var k := Complete(sent, |written|);
            Read(Framed(d), written, 1) == Reading(sent[..k], 1 + k, Eof)
  {
    FramedOk(d);
    ReadsComplete(Framed(d), sent, 1, |written|);
    assert Stream(Framed(d), sent, 1)[..|written|] == written;
  }

  /** The k-th payload sealed under number `k` makes `body`. */
  ghost predicate SealedAt(d: Direction, sent: seq<Data>, k: nat, nonce: Data, body: Data, aad: Data) {
    1 <= k <= |sent| && nonce == NonceFor(k) && aad == PutUint(k, 8) && body == Sealed(d, k, sent[k - 1])
  }

  /** Whatever part of the bytes opens is a seal of the sender's. */
  ghost predicate Unforged(d: Direction, sent: seq<Data>, bytes: Data) {
    forall i, j, nonce: Data, aad: Data | 0 <= i <= j <= |bytes| && d.open(nonce, bytes[i..j], aad).Some? ::
      exists k :: SealedAt(d, sent, k, nonce, bytes[i..j], aad)
  }

  lemma UnforgedRest(d: Direction, sent: seq<Data>, bytes: Data, n: nat)
    requires Unforged(d, sent, bytes) && n <= |bytes|
    ensures Unforged(d, sent, bytes[n..])
  {
    forall i, j, nonce: Data, aad: Data | 0 <= i <= j <= |bytes[n..]| && d.open(nonce, bytes[n..][i..j], aad).Some?
      ensures exists k :: SealedAt(d, sent, k, nonce, bytes[n..][i..j], aad)
    {
      assert bytes[n..][i..j] == bytes[n + i..n + j];
    }
  }

  lemma OpensTo(d: Direction, sent: seq<Data>, from: nat, body: Data, payload: Data, k: nat)
    requires Lawful(d) && |sent| + 1 < UINT64 && 1 <= from <= |sent| + 1
    requires d.open(NonceFor(from), body, PutUint(from, 8)) == Some(payload)
    requires SealedAt(d, sent, k, NonceFor(from), body, PutUint(from, 8))
    ensures from <= |sent| && payload == sent[from - 1]
  {
    if k != from { NonceInjective(k, from); }
  }

  lemma NextIsSent(d: Direction, sent: seq<Data>, bytes: Data, from: nat, n: Next)
    requires Lawful(d) && |sent| + 1 < UINT64 && 1 <= from <= |sent| + 1 && Unforged(d, sent, bytes)
    requires n == NextFrame(d, bytes, from) && n.Got?
    ensures from <= |sent| && n.payload == sent[from - 1]
  {
    NextFrameExactly(d, bytes, from, n.payload, n.size);
    var k :| SealedAt(d, sent, k, NonceFor(from), bytes[HEAD..n.size], PutUint(from, 8));
    OpensTo(d, sent, from, bytes[HEAD..n.size], n.payload, k);
  }

  lemma PrefixMore(sent: seq<Data>, from: nat, more: seq<Data>)
    requires 1 <= from <= |sent| && more <= sent[from..]
    ensures [sent[from - 1]] + more <= sent[from - 1..]
  {
    assert sent[from - 1..] == [sent[from - 1]] + sent[from..];
  }

  /** Whatever bytes arrive, cut, altered, repeated or reordered: if no seal in them is forged, the reader yields a prefix
      of the payloads sent. */
  lemma {:induction false} ReadsOnlySent(d: Direction, sent: seq<Data>, bytes: Data, from: nat)
    requires Lawful(d) && |sent| + 1 < UINT64 && 1 <= from <= |sent| + 1 && Unforged(d, sent, bytes)
    ensures Read(Framed(d), bytes, from).payloads <= sent[from - 1..]
    decreases |bytes|
  {
    var n := NextFrame(d, bytes, from);
    assert Framed(d).next(bytes, from) == n;
    if n.Got? {
      NextIsSent(d, sent, bytes, from, n);
      UnforgedRest(d, sent, bytes, n.size);
      ReadsOnlySent(d, sent, bytes[n.size..], from + 1);
      ReadMore(Framed(d), bytes, from, n.payload, n.size);
      PrefixMore(sent, from, Read(Framed(d), bytes[n.size..], from + 1).payloads);
    }
  }

  /** The nonces of successive seals, numbered from 1. */
  ghost predicate Successive(nonces: seq<Data>) {
    forall i | 0 <= i < |nonces| :: nonces[i] == NonceFor(i + 1)
  }

  /** Fewer than 2^64 seals never repeat a nonce. */
  lemma NoncesDistinct(nonces: seq<Data>, i: nat, j: nat)
    requires Successive(nonces) && |nonces| < UINT64 && i < j < |nonces|
    ensures nonces[i] != nonces[j]
  {
    NonceInjective(i + 1, j + 1);
  }

  lemma SealedMore(nonces: seq<Data>)
    requires Successive(nonces)
    ensures Successive(nonces + [NonceFor(|nonces| + 1)])
  {
  }

  lemma SendableMore(sent: seq<Data>, payload: Data)
    requires Sendable(sent) && |payload| <= MAX_FRAME
    ensures Sendable(sent + [payload])
  {
  }

  lemma SentMore(d: Direction, sent: seq<Data>, payload: Data)
    ensures Stream(Framed(d), sent + [payload], 1) == Stream(Framed(d), sent, 1) + Frame(d, |sent| + 1, payload)
  {
    var f := Framed(d);
    StreamAppend(f, sent, payload, 1);
    assert f.frame(1 + |sent|, payload) == Frame(d, |sent| + 1, payload);
  }

  /** The sending half of a session: everything it put on the connection is a prefix of the frames it was given. */
  class TcpSender {
    const d: Direction
    const conn: Conn
    var sendSeq: nat
    var closed: bool
    ghost var sent: seq<Data>
    ghost var nonces: seq<Data>

    ghost predicate Valid()
      reads this, conn
    {
      && Sendable(sent)
      && Successive(nonces) && |nonces| == sendSeq
      && conn.written <= Stream(Framed(d), sent, 1)
      && (!closed ==> conn.written == Stream(Framed(d), sent, 1) && sendSeq == |sent|)
      && (closed ==> conn.room == 0)
    }

    constructor (d: Direction, conn: Conn)
      requires conn.written == []
      ensures Valid() && this.d == d && this.conn == conn && sent == [] && nonces == [] && !closed
    {
      this.d, this.conn, sendSeq, closed, sent, nonces := d, conn, 0, false, [], [];
    }

    /** Writes the whole frame, or a part of it and closes the connection. */
    method WriteFrame(seqNo: nat, payload: Data) returns (ok: bool)
      modifies conn
      ensures ok ==> conn.written == old(conn.written) + Frame(d, seqNo, payload)
      ensures conn.written <= old(conn.written) + Frame(d, seqNo, payload)
      ensures !ok ==> conn.room == 0
      ensures old(conn.room) == 0 ==> !ok && conn.written == old(conn.written)
    {
      var head, body := FrameHead(d, seqNo, payload), Sealed(d, seqNo, payload);
      PutTwice(conn.View(), head, body);
      ok := conn.WriteAll(head);
      if ok {
        ok := conn.WriteAll(body);
      }
      if !ok {
        conn.Close();
      }
    }

    /** Numbers, seals and writes one frame. A failed write leaves a prefix of it and closes the session. */
    method Send(payload: Data) returns (ok: bool)
      requires Valid()
      modifies this, conn
      ensures Valid()
      ensures |payload| > MAX_FRAME ==> !ok && sent == old(sent) && conn.written == old(conn.written) && closed == old(closed)
      ensures ok ==> !closed && sent == old(sent) + [payload] && conn.written == old(conn.written) + Frame(d, |sent|, payload)
      ensures |payload| <= MAX_FRAME && !ok ==> closed
      ensures old(closed) ==> !ok && sent == old(sent) && conn.written == old(conn.written)
      ensures nonces == if |payload| > MAX_FRAME then old(nonces) else old(nonces) + [NonceFor(|nonces|)]
    {
      if |payload| > MAX_FRAME {
        return false;
      }
      sendSeq := sendSeq + 1;
      SealedMore(nonces);
      nonces := nonces + [NonceFor(sendSeq)];
      if !closed {
        SendableMore(sent, payload);
        SentMore(d, sent, payload);
        sent := sent + [payload];
      }
      ok := WriteFrame(sendSeq, payload);
      closed := closed || !ok;
    }
  }
}
