/** The receiving half of one TCP flow: chunks arrive in any order, bytes leave in the order they were read. */
module OrderedFlow {
  import opened Bytes
  import opened Writers

  const MAX_REORDER: nat := 4096
  const CHUNK: nat := 1200

  datatype Receiver = Receiver(expected: nat, reorder: map<nat, Data>, sink: Sink)

  datatype Outcome = Outcome(rx: Receiver, ok: bool)

  function Fresh(room: nat): Receiver {
    Receiver(1, map[], Sink([], room))
  }

  /** Writes held chunks while the next number is present. */
  function Drain(r: Receiver): Outcome
    decreases r.reorder.Keys
  {
    if r.expected !in r.reorder then Outcome(r, true)
    else
      var chunk := r.reorder[r.expected];
      var next := Receiver(r.expected, r.reorder - {r.expected}, Put(r.sink, chunk));
      if Fits(r.sink, chunk) then Drain(next.(expected := r.expected + 1)) else Outcome(next, false)
  }

  function Arrive(r: Receiver, k: nat, chunk: Data): Outcome {
    if k < r.expected then Outcome(r, true)
    else if k - r.expected > MAX_REORDER then Outcome(r, false)
    else if k > r.expected then
      Outcome(if k in r.reorder then r else r.(reorder := r.reorder[k := chunk]), true)
    else
      var next := r.(sink := Put(r.sink, chunk));
      if Fits(r.sink, chunk) then Drain(next.(expected := r.expected + 1)) else Outcome(next, false)
  }

  lemma {:induction false} FlattenPrefix(chunks: seq<Data>, n: nat)
    requires n <= |chunks|
    ensures Flatten(chunks[..n]) <= Flatten(chunks)
    decreases |chunks|
  {
    if n < |chunks| {
      FlattenPrefix(chunks[..|chunks| - 1], n);
      assert chunks[..|chunks| - 1][..n] == chunks[..n];
    } else {
      assert chunks[..n] == chunks;
    }
  }

  lemma FlattenNext(chunks: seq<Data>, n: nat)
    requires n < |chunks|
    ensures Flatten(chunks[..n + 1]) == Flatten(chunks[..n]) + chunks[n]
  {
    assert chunks[..n + 1][..n] == chunks[..n];
  }

  /** The flow has written exactly the chunks before `expected`; what it holds early is true and inside the window. */
  ghost predicate InStep(chunks: seq<Data>, r: Receiver) {
    && 1 <= r.expected <= |chunks| + 1
    && r.sink.written == Flatten(chunks[..r.expected - 1])
    && (forall k | k in r.reorder :: r.expected <= k <= r.expected + MAX_REORDER && k <= |chunks| && r.reorder[k] == chunks[k - 1])
  }

  ghost predicate Settled(chunks: seq<Data>, r: Receiver) {
    InStep(chunks, r) && r.expected !in r.reorder
  }

  lemma InStepPrefix(chunks: seq<Data>, r: Receiver)
    requires InStep(chunks, r)
    ensures r.sink.written <= Flatten(chunks)
  {
    FlattenPrefix(chunks, r.expected - 1);
  }

  lemma SettledGrows(chunks: seq<Data>, more: Data, r: Receiver)
    requires Settled(chunks, r)
    ensures Settled(chunks + [more], r)
  {
    assert (chunks + [more])[..r.expected - 1] == chunks[..r.expected - 1];
  }

  lemma PutPrefix(s: Sink, chunk: Data, whole: Data)
    requires s.written + chunk <= whole
    ensures Put(s, chunk).written <= whole
    ensures Fits(s, chunk) ==> Put(s, chunk).written == s.written + chunk
  {
    assert chunk[..|chunk|] == chunk;
  }

  lemma WriteNext(chunks: seq<Data>, r: Receiver)
    requires InStep(chunks, r) && r.expected <= |chunks|
    ensures var s := Put(r.sink, chunks[r.expected - 1]);
            && s.written <= Flatten(chunks)
            && (Fits(r.sink, chunks[r.expected - 1]) ==> s.written == Flatten(chunks[..r.expected]))
  {
    var done, whole, chunk := Flatten(chunks[..r.expected - 1]), Flatten(chunks), chunks[r.expected - 1];
    assert Flatten(chunks[..r.expected]) == done + chunk by { FlattenNext(chunks, r.expected - 1); }
    assert done + chunk <= whole by { FlattenPrefix(chunks, r.expected); }
    PutPrefix(r.sink, chunk, whole);
  }

  lemma {:induction false} DrainInStep(chunks: seq<Data>, r: Receiver)
    requires InStep(chunks, r)
    ensures Drain(r).ok ==> Settled(chunks, Drain(r).rx)
    ensures Drain(r).rx.sink.written <= Flatten(chunks)
    decreases r.reorder.Keys
  {
    if r.expected in r.reorder {
      var chunk := r.reorder[r.expected];
      WriteNext(chunks, r);
      if Fits(r.sink, chunk) {
        DrainInStep(chunks, Receiver(r.expected + 1, r.reorder - {r.expected}, Put(r.sink, chunk)));
      }
    } else {
      InStepPrefix(chunks, r);
    }
  }

  /** The arrival of any true chunk, early, late or repeated, keeps the written bytes a prefix of the bytes read, also
      when the local connection fails in the middle of a chunk. */
  lemma {:induction false} ArriveInStep(chunks: seq<Data>, r: Receiver, k: nat)
    requires Settled(chunks, r) && 1 <= k <= |chunks|
    ensures var o := Arrive(r, k, chunks[k - 1]);
            (o.ok ==> Settled(chunks, o.rx)) && o.rx.sink.written <= Flatten(chunks)
  {
    if k == r.expected {
      WriteNext(chunks, r);
      if Fits(r.sink, chunks[k - 1]) {
        DrainInStep(chunks, r.(sink := Put(r.sink, chunks[k - 1]), expected := k + 1));
      }
    } else {
      InStepPrefix(chunks, r);
    }
  }

  // ----- what an arrival achieves, whatever was sent -----

  /** Chunk `k` is written or held. */
  ghost predicate Has(r: Receiver, k: nat) {
    k < r.expected || k in r.reorder
  }

  lemma {:induction false} DrainHas(r: Receiver)
    requires Drain(r).ok
    ensures Drain(r).rx.expected !in Drain(r).rx.reorder && forall j | Has(r, j) :: Has(Drain(r).rx, j)
    decreases r.reorder.Keys
  {
    if r.expected in r.reorder {
      var next := Receiver(r.expected + 1, r.reorder - {r.expected}, Put(r.sink, r.reorder[r.expected]));
      DrainHas(next);
      assert forall j | Has(r, j) :: Has(next, j);
    }
  }

  /** An arrival that reports no error leaves its chunk written or held, and loses none that was. */
  lemma ArriveHas(r: Receiver, k: nat, chunk: Data)
    requires Arrive(r, k, chunk).ok
    ensures Has(Arrive(r, k, chunk).rx, k) && forall j | Has(r, j) :: Has(Arrive(r, k, chunk).rx, j)
    ensures r.expected !in r.reorder ==> Arrive(r, k, chunk).rx.expected !in Arrive(r, k, chunk).rx.reorder
  {
    if k == r.expected {
      var next := r.(sink := Put(r.sink, chunk), expected := k + 1);
      DrainHas(next);
      assert Has(next, k) && forall j | Has(r, j) :: Has(next, j);
    }
  }

  /** The bytes of the held chunks that follow one another from number `k` on. */
  function StreakBytes(reorder: map<nat, Data>, k: nat): Data
    decreases reorder.Keys
  {
    if k !in reorder then [] else reorder[k] + StreakBytes(reorder - {k}, k + 1)
  }

  lemma PutJoined(s: Sink, a: Data, b: Data)
    ensures Fits(s, a) ==> Put(Put(s, a), b) == Put(s, a + b) && (Fits(Put(s, a), b) <==> Fits(s, a + b))
    ensures !Fits(s, a) ==> Put(s, a) == Put(s, a + b) && !Fits(s, a + b)
  {
    if Fits(s, a) {
      assert a[..|a|] == a;
      assert s.written + a + b[..Taken(Put(s, a), b)] == s.written + (a + b)[..Taken(s, a + b)];
    } else {
      assert a[..s.room] == (a + b)[..s.room];
    }
  }

  lemma {:induction false} DrainExact(r: Receiver)
    ensures var held := StreakBytes(r.reorder, r.expected);
            Drain(r).rx.sink == Put(r.sink, held) && (Drain(r).ok <==> Fits(r.sink, held))
    decreases r.reorder.Keys
  {
    if r.expected in r.reorder {
      var chunk := r.reorder[r.expected];
      PutJoined(r.sink, chunk, StreakBytes(r.reorder - {r.expected}, r.expected + 1));
      if Fits(r.sink, chunk) {
        DrainExact(Receiver(r.expected + 1, r.reorder - {r.expected}, Put(r.sink, chunk)));
      }
    } else {
      var none: Data := [];
      assert Put(r.sink, none) == r.sink by { assert none[..0] == none && r.sink.written + none == r.sink.written; }
    }
  }

  /** The connection is given exactly the due chunk and the chunks held after it, nothing when another number arrives; and
      an error is reported if and only if the number is more than 4096 ahead or the connection does not take all. */
  lemma ArriveExact(r: Receiver, k: nat, chunk: Data)
    ensures var o, due := Arrive(r, k, chunk), chunk + StreakBytes(r.reorder, k + 1);
            if k == r.expected then o.rx.sink == Put(r.sink, due) && (o.ok <==> Fits(r.sink, due))
            else o.rx.sink == r.sink && (o.ok <==> k <= r.expected + MAX_REORDER)
  {
    if k == r.expected {
      PutJoined(r.sink, chunk, StreakBytes(r.reorder, k + 1));
      if Fits(r.sink, chunk) { DrainExact(r.(sink := Put(r.sink, chunk), expected := k + 1)); }
    }
  }

  /** The flow has written exactly the chunks before `expected` and does not hold that one. */
  ghost predicate InPlace(chunks: seq<Data>, r: Receiver) {
    && 1 <= r.expected <= |chunks| + 1 && r.expected !in r.reorder
    && r.sink.written == Flatten(chunks[..r.expected - 1])
  }

  /** Once every chunk is written or held, all of them are written. */
  lemma AllWritten(chunks: seq<Data>, r: Receiver)
    requires InPlace(chunks, r) && forall k | 1 <= k <= |chunks| :: Has(r, k)
    ensures r.sink.written == Flatten(chunks)
  {
    PastAll(r, |chunks|);
    assert chunks[..r.expected - 1] == chunks;
  }

  lemma PastAll(r: Receiver, n: nat)
    requires 1 <= r.expected <= n + 1 && r.expected !in r.reorder && forall k | 1 <= k <= n :: Has(r, k)
    ensures r.expected == n + 1
  {
    assert !Has(r, r.expected);
  }

  /** At most 4096 chunks are held. */
  lemma HeldBounded(chunks: seq<Data>, r: Receiver)
    requires Settled(chunks, r)
    ensures |r.reorder| <= MAX_REORDER
  {
    Range(r.reorder.Keys, r.expected + 1, MAX_REORDER);
    assert |r.reorder| == |r.reorder.Keys|;
  }

  class TcpState {
    const conn: Conn
    var expected: nat
    var reorder: map<nat, Data>

    ghost function View(): Receiver
      reads this, conn
    {
      Receiver(expected, reorder, conn.View())
    }

    constructor (conn: Conn)
      ensures this.conn == conn && View() == Receiver(1, map[], conn.View())
    {
      this.conn, expected, reorder := conn, 1, map[];
    }

    method WriteOrdered(k: nat, payload: Data) returns (ok: bool)
      modifies this, conn
      ensures Outcome(View(), ok) == Arrive(old(View()), k, payload)
    {
      if k < expected {
        return true;
      }
      if k - expected > MAX_REORDER {
        return false;
      }
      if k > expected {
        if k !in reorder {
          reorder := reorder[k := payload];
        }
        return true;
      }
      ok := conn.WriteAll(payload);
      if !ok {
        return;
      }
      expected := expected + 1;
      ghost var start := View();
      while expected in reorder
        invariant ok && Drain(View()) == Drain(start)
        decreases reorder.Keys
      {
        var next := reorder[expected];
        reorder := reorder - {expected};
        ok := conn.WriteAll(next);
        if !ok {
          return;
        }
        expected := expected + 1;
      }
    }
  }
}
