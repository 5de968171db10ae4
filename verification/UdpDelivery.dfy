/** What every step of the UDP carrier keeps between a sender and the receiver of its payloads. */
module UdpDelivery {
  import opened Bytes
  import opened UdpWire
  import opened UdpProtocol
  import opened UdpInvariant

  /** The receiver has published exactly the payloads below `expected`, in order, once each, and every held
      payload is the true one of a number inside the reorder window. */
  ghost predicate Ordered(sent: seq<Data>, e: Endpoint) {
    Settling(sent, e) && e.expected !in e.reorder
  }

  /** `Ordered`, except that the next payload may be among the held ones. */
  ghost predicate Settling(sent: seq<Data>, e: Endpoint) {
    && 1 <= e.expected <= |sent| + 1
    && e.published == sent[..e.expected - 1]
    && (forall k | k in e.reorder :: e.expected <= k <= e.expected + MAX_REORDER && k <= |sent| && e.reorder[k] == sent[k - 1])
  }

  ghost predicate Kept(e: Endpoint, k: nat) {
    k < e.expected || k in e.reorder
  }

  /** A send that has its number and no entry in the pending map: not yet entered, or failed and about to close. */
  predicate Out(s: Stage) {
    s.Sealed? || s.Failing? || s.Ending?
  }

  /** A running send has packet `k` in hand. */
  ghost predicate InHand(sending: Sends, k: nat) {
    exists w :: w in sending && Out(sending[w]) && sending[w].seqNo == k
  }

  ghost predicate AcksKept(e: Endpoint, acked: set<nat>, beyond: set<nat>) {
    !e.closed ==> forall k | k in acked :: Kept(e, k) || k in beyond
  }

  ghost predicate NothingLost(n: nat, pending: Entries, sending: Sends, e: Endpoint, beyond: set<nat>) {
    forall k | 1 <= k <= n :: k in pending || InHand(sending, k) || Kept(e, k) || k in beyond
  }

  /** The receiver `e` of the payloads `sent`, against the sender's pending entries and running sends. */
  ghost predicate Matched(sent: seq<Data>, pending: Entries, sending: Sends, senderClosed: bool,
                          e: Endpoint, acked: set<nat>, beyond: set<nat>)
  {
    && Ordered(sent, e)
    && (forall k | k in acked :: 1 <= k <= |sent|)
    && AcksKept(e, acked, beyond)
    && (!senderClosed && !e.closed ==> NothingLost(|sent|, pending, sending, e, beyond))
  }

  ghost predicate Pair(x: Side, y: Side) {
    Matched(x.sent, x.ep.pending, x.sending, x.ep.closed, y.ep, y.acked, y.beyond)
  }

  ghost predicate Inv(l: Link, n: Net) {
    Local(l, n.x) && Local(Flip(l), n.y) && Pair(n.x, n.y) && Pair(n.y, n.x)
  }

  // ----- the receiver half -----

  lemma {:induction false} DrainOrdered(sent: seq<Data>, e: Endpoint, room: nat)
    requires Settling(sent, e) && |sent| + 1 < UINT64
    ensures Ordered(sent, Drain(e, room))
    ensures e.closed ==> Drain(e, room).closed
    ensures !Drain(e, room).closed ==> forall k | Kept(e, k) :: Kept(Drain(e, room), k)
    decreases e.reorder.Keys
  {
    if e.expected in e.reorder && room > 0 {
      var next := e.(reorder := e.reorder - {e.expected}, published := e.published + [e.reorder[e.expected]],
                     expected := (e.expected + 1) % UINT64);
      assert next.published == sent[..next.expected - 1];
      DrainOrdered(sent, next, room - 1);
      assert forall k | Kept(e, k) :: Kept(next, k);
    }
  }

  /** Accepting the true payload of any number keeps the published payloads a prefix, and the number itself is
      kept exactly when it lies inside the window. */
  lemma AcceptOrdered(sent: seq<Data>, e: Endpoint, k: nat, room: nat)
    requires Ordered(sent, e) && 1 <= k <= |sent| && |sent| + 1 < UINT64
    ensures var d := Accept(e, k, sent[k - 1], room);
            && Ordered(sent, d)
            && (e.closed ==> d.closed)
            && (!d.closed ==> (Kept(d, k) <==> k <= e.expected + MAX_REORDER) && forall j | Kept(e, j) :: Kept(d, j))
  {
    if k == e.expected && room > 0 {
      var next := e.(published := e.published + [sent[k - 1]], expected := (e.expected + 1) % UINT64);
      assert next.published == sent[..next.expected - 1];
      DrainOrdered(sent, next, room - 1);
      assert forall j | Kept(e, j) :: Kept(next, j);
      assert Kept(next, k);
    }
  }

  /** How many held payloads follow one another from number `k` on. */
  function Streak(reorder: map<nat, Data>, k: nat): nat
    decreases reorder.Keys
  {
    if k !in reorder then 0 else 1 + Streak(reorder - {k}, k + 1)
  }

  lemma {:induction false} StreakBounded(reorder: map<nat, Data>, k: nat)
    ensures Streak(reorder, k) <= |reorder|
    decreases reorder.Keys
  {
    if k in reorder {
      Removed(reorder, k);
      StreakBounded(reorder - {k}, k + 1);
    }
  }

  /** The session with the next held payload published. */
  function Advanced(e: Endpoint): Endpoint
    requires e.expected in e.reorder
  {
    e.(reorder := e.reorder - {e.expected}, published := e.published + [e.reorder[e.expected]],
       expected := (e.expected + 1) % UINT64)
  }

  lemma AdvancedSettles(sent: seq<Data>, e: Endpoint)
    requires Settling(sent, e) && |sent| + 1 < UINT64 && e.expected in e.reorder
    ensures Settling(sent, Advanced(e)) && Advanced(e).expected == e.expected + 1
  {
    assert Advanced(e).published == sent[..e.expected];
  }

  /** Draining an open session publishes the whole streak, or as much of it as there is room for and closes. */
  lemma {:induction false} DrainExact(sent: seq<Data>, e: Endpoint, room: nat)
    requires Settling(sent, e) && |sent| + 1 < UINT64 && !e.closed
    ensures var d, n := Drain(e, room), Streak(e.reorder, e.expected);
            (d.closed <==> room < n) && d.expected == e.expected + if room < n then room else n
    decreases e.reorder.Keys
  {
    if e.expected in e.reorder && room > 0 {
      AdvancedSettles(sent, e);
      DrainExact(sent, Advanced(e), room - 1);
      assert Drain(e, room) == Drain(Advanced(e), room - 1);
    }
  }

  /** What an arrival unblocks: the due payload and the streak held after it. */
  function Unblocked(e: Endpoint, k: nat): nat {
    if k == e.expected then 1 + Streak(e.reorder, k + 1) else 0
  }

  lemma DueExact(sent: seq<Data>, e: Endpoint, room: nat)
    requires Ordered(sent, e) && !e.closed && e.expected <= |sent| && |sent| + 1 < UINT64
    ensures var d, n := Accept(e, e.expected, sent[e.expected - 1], room), Unblocked(e, e.expected);
            (d.closed <==> room < n) && d.expected == e.expected + if room < n then room else n
  {
    if room > 0 {
      var next := e.(published := e.published + [sent[e.expected - 1]], expected := (e.expected + 1) % UINT64);
      assert next.published == sent[..next.expected - 1];
      DrainExact(sent, next, room - 1);
    }
  }

  /** An open session that accepts the true payload of any number publishes exactly what it unblocks, and closes if and
      only if there is no room for all of that; so with room for one more than it holds it stays open, and keeps the
      number if that is at most 4096 ahead. */
  lemma AcceptExact(sent: seq<Data>, e: Endpoint, k: nat, room: nat)
    requires Ordered(sent, e) && !e.closed && 1 <= k <= |sent| && |sent| + 1 < UINT64
    ensures var d, n := Accept(e, k, sent[k - 1], room), Unblocked(e, k);
            && Ordered(sent, d)
            && (d.closed <==> room < n)
            && d.expected == e.expected + (if room < n then room else n)
            && (room > |e.reorder| ==> !d.closed && (k <= e.expected + MAX_REORDER ==> Kept(d, k)))
  {
    AcceptOrdered(sent, e, k, room);
    StreakBounded(e.reorder, k + 1);
    if k == e.expected { DueExact(sent, e, room); }
  }

  /** At most 4096 payloads are held. */
  lemma HeldBounded(sent: seq<Data>, e: Endpoint)
    requires Ordered(sent, e)
    ensures |e.reorder| <= MAX_REORDER
  {
    Range(e.reorder.Keys, e.expected + 1, MAX_REORDER);
    assert |e.reorder| == |e.reorder.Keys|;
  }

  /** An authentic datagram from `y` is one of its sealed payloads or one of its acknowledgements. */
  lemma FromWire(l: Link, y: Side, packet: Data)
    requires LinkOk(l) && Local(l, y) && Fits(y) && packet in y.wire
    requires forall k | k in y.acked :: k < UINT64
    ensures match l.out.read(packet)
            case Junk => false
            case Ack(k) => k in y.acked
            case Payload(k, p) => 1 <= k <= |y.sent| && p == y.sent[k - 1]
  {
    assert OnWire(l, y.sent, y.acked, packet);
    if k :| SealedAs(l, y.sent, packet, k) {
      assert packet == l.out.data(k, y.sent[k - 1]);
    } else {
      var k :| AckAs(l, y.acked, packet, k);
    }
  }

  lemma AckedKept(x: Side, y: Side, k: nat, room: nat)
    requires Pair(y, x) && 1 <= k <= |y.sent| && Fits(y)
    ensures Matched(y.sent, y.ep.pending, y.sending, y.ep.closed,
                    Accept(x.ep, k, y.sent[k - 1], room), x.acked + {k},
                    if k > x.ep.expected + MAX_REORDER then x.beyond + {k} else x.beyond)
  {
    AcceptOrdered(y.sent, x.ep, k, room);
  }

  /** The fields the receiver half owns, unchanged except that the session may close. */
  ghost predicate ReceiverSame(x: Side, x': Side) {
    && x'.ep.expected == x.ep.expected && x'.ep.reorder == x.ep.reorder && x'.ep.published == x.ep.published
    && (x.ep.closed ==> x'.ep.closed) && x'.acked == x.acked && x'.beyond == x.beyond
  }

  lemma ReceiverFrame(x: Side, x': Side, y: Side)
    requires Pair(y, x) && ReceiverSame(x, x')
    ensures Pair(y, x')
  {
    if !x'.ep.closed {
      assert forall k :: Kept(x'.ep, k) == Kept(x.ep, k);
    }
  }

  lemma OtherActions(l: Link, x: Side, y: Side, a: Action)
    requires Enabled(l, x, y, a) && !a.Deliver?
    ensures ReceiverSame(x, Apply(l, x, y, a))
  {
  }

  ghost predicate Genuine(sent: seq<Data>, m: Incoming) {
    m.Payload? ==> 1 <= m.seqNo <= |sent| && m.payload == sent[m.seqNo - 1]
  }

  lemma AckedSmall(x: Side, y: Side)
    requires Pair(y, x) && Fits(y)
    ensures forall k | k in x.acked :: k < UINT64
  {
  }

  /** A payload delivered from the wire of `x` is the true one of its number. */
  lemma DeliveredIs(l: Link, x: Side, y: Side, packet: Data)
    requires LinkOk(l) && Local(l, x) && Fits(x) && Fits(y) && Pair(y, x)
    requires l.out.read(packet).Junk? || packet in x.wire
    ensures Genuine(x.sent, l.out.read(packet))
  {
    AckedSmall(x, y);
    if !l.out.read(packet).Junk? { FromWire(l, x, packet); }
  }

  lemma DeliverReceiver(l: Link, x: Side, y: Side, packet: Data, ackOk: bool, room: nat)
    requires Fits(y) && Pair(y, x) && Genuine(y.sent, l.inc.read(packet))
    ensures Pair(y, AfterDeliver(l, x, packet, ackOk, room))
  {
    var m := l.inc.read(packet);
    if m.Payload? && ackOk {
      AckedKept(x, y, m.seqNo, room);
    } else {
      ReceiverFrame(x, AfterDeliver(l, x, packet, ackOk, room), y);
    }
  }

  /** Every action keeps what the actor has received from its peer. */
  lemma ReceiverStep(l: Link, x: Side, y: Side, a: Action, x': Side)
    requires LinkOk(l) && Local(Flip(l), y) && Fits(x) && Fits(y) && Pair(x, y) && Pair(y, x)
    requires Enabled(l, x, y, a) && x' == Apply(l, x, y, a)
    ensures Pair(y, x')
  {
    if a.Deliver? {
      DeliveredIs(Flip(l), y, x, a.packet);
      DeliverReceiver(l, x, y, a.packet, a.ackOk, a.room);
    } else {
      OtherActions(l, x, y, a);
      ReceiverFrame(x, x', y);
    }
  }

  // ----- the sender half -----

  lemma InHandSame(sending: Sends, w: nat, s: Stage, k: nat)
    requires w in sending ==> !Out(sending[w]) || (Out(s) && s.seqNo == sending[w].seqNo)
    requires InHand(sending, k)
    ensures InHand(sending[w := s], k)
  {
    var v :| v in sending && Out(sending[v]) && sending[v].seqNo == k;
    assert v in sending[w := s] && Out(sending[w := s][v]) && sending[w := s][v].seqNo == k;
  }

  lemma AcquireLost(n: nat, pending: Entries, sending: Sends, e: Endpoint, beyond: set<nat>, w: nat, p: Data)
    requires NothingLost(n, pending, sending, e, beyond) && w !in sending
    ensures NothingLost(n, pending, sending[w := Holding(p)], e, beyond)
  {
    var after := sending[w := Holding(p)];
    forall k | 1 <= k <= n ensures k in pending || InHand(after, k) || Kept(e, k) || k in beyond {
      if InHand(sending, k) { InHandSame(sending, w, Holding(p), k); }
    }
  }

  lemma SealLost(n: nat, pending: Entries, sending: Sends, e: Endpoint, beyond: set<nat>, w: nat, s: Stage)
    requires NothingLost(n, pending, sending, e, beyond) && w in sending && sending[w].Holding? && s.Sealed? && s.seqNo == n + 1
    ensures NothingLost(n + 1, pending, sending[w := s], e, beyond)
  {
    var after := sending[w := s];
    forall k | 1 <= k <= n + 1 ensures k in pending || InHand(after, k) || Kept(e, k) || k in beyond {
      if k == n + 1 {
        assert w in after && Out(after[w]) && after[w].seqNo == k;
      } else if InHand(sending, k) {
        InHandSame(sending, w, s, k);
      }
    }
  }

  lemma InsertLost(n: nat, pending: Entries, sending: Sends, e: Endpoint, beyond: set<nat>, w: nat, d: Pending)
    requires NothingLost(n, pending, sending, e, beyond) && w in sending && sending[w].Sealed?
    ensures var s := sending[w];
            NothingLost(n, pending[s.seqNo := d], sending[w := Inserted(s.seqNo, s.packet)], e, beyond)
  {
    var s := sending[w];
    var entered, after := pending[s.seqNo := d], sending[w := Inserted(s.seqNo, s.packet)];
    forall k | 1 <= k <= n ensures k in entered || InHand(after, k) || Kept(e, k) || k in beyond {
      if InHand(sending, k) {
        var v :| v in sending && Out(sending[v]) && sending[v].seqNo == k;
        if v != w { assert v in after && Out(after[v]) && after[v].seqNo == k; }
      }
    }
  }

  lemma WrittenLost(n: nat, pending: Entries, sending: Sends, e: Endpoint, beyond: set<nat>, w: nat)
    requires NothingLost(n, pending, sending, e, beyond) && w in sending && sending[w].Inserted?
    ensures NothingLost(n, pending, sending - {w}, e, beyond)
  {
    var after := sending - {w};
    forall k | 1 <= k <= n ensures k in pending || InHand(after, k) || Kept(e, k) || k in beyond {
      if InHand(sending, k) {
        var v :| v in sending && Out(sending[v]) && sending[v].seqNo == k;
        assert v in after && Out(after[v]) && after[v].seqNo == k;
      }
    }
  }

  lemma FailedLost(n: nat, pending: Entries, sending: Sends, e: Endpoint, beyond: set<nat>, w: nat)
    requires NothingLost(n, pending, sending, e, beyond) && w in sending && sending[w].Inserted?
    ensures var k := sending[w].seqNo;
            NothingLost(n, pending - {k}, sending[w := Failing(k, k in pending)], e, beyond)
  {
    var k0 := sending[w].seqNo;
    var after := sending[w := Failing(k0, k0 in pending)];
    forall k | 1 <= k <= n ensures k in pending - {k0} || InHand(after, k) || Kept(e, k) || k in beyond {
      if k == k0 {
        assert w in after && Out(after[w]) && after[w].seqNo == k;
      } else if InHand(sending, k) {
        InHandSame(sending, w, after[w], k);
      }
    }
  }

  lemma TakenBackLost(n: nat, pending: Entries, sending: Sends, e: Endpoint, beyond: set<nat>, w: nat)
    requires NothingLost(n, pending, sending, e, beyond) && w in sending && sending[w].Failing?
    ensures NothingLost(n, pending, sending[w := Ending(sending[w].seqNo, sending[w].had)], e, beyond)
  {
    var after := sending[w := Ending(sending[w].seqNo, sending[w].had)];
    forall k | 1 <= k <= n ensures k in pending || InHand(after, k) || Kept(e, k) || k in beyond {
      if InHand(sending, k) { InHandSame(sending, w, after[w], k); }
    }
  }

  lemma OrderedGrows(sent: seq<Data>, q: Data, e: Endpoint)
    requires Ordered(sent, e)
    ensures Ordered(sent + [q], e)
  {
    assert (sent + [q])[..e.expected - 1] == sent[..e.expected - 1];
  }

  lemma SealSender(l: Link, x: Side, y: Side, w: nat)
    requires x.ep.sendSeq == |x.sent| && Fits(x) && Pair(x, y) && w in x.sending && x.sending[w].Holding?
    ensures Pair(AfterSeal(l, x, w), y)
  {
    var x' := AfterSeal(l, x, w);
    assert NextNumber(x.ep) == |x.sent| + 1;
    OrderedGrows(x.sent, x.sending[w].payload, y.ep);
    if !x.ep.closed && !y.ep.closed {
      SealLost(|x.sent|, x.ep.pending, x.sending, y.ep, y.beyond, w, x'.sending[w]);
    }
  }

  lemma TickSender(x: Side, y: Side, now: int, bumped: set<nat>)
    requires Pair(x, y)
    ensures Matched(x.sent, Bump(x.ep.pending, bumped, now), x.sending, x.ep.closed, y.ep, y.acked, y.beyond)
  {
  }

  /** Every action keeps what the peer has received from the actor. */
  lemma SenderStep(l: Link, x: Side, y: Side, a: Action)
    requires LinkOk(l) && Local(l, x) && Local(Flip(l), y) && Fits(x) && Fits(y) && Pair(x, y) && Enabled(l, x, y, a)
    ensures Pair(Apply(l, x, y, a), y)
  {
    var kept := !x.ep.closed && !y.ep.closed;
    match a
    case Acquire(w, p) =>
      if kept { AcquireLost(|x.sent|, x.ep.pending, x.sending, y.ep, y.beyond, w, p); }
    case Seal(w) =>
      SealSender(l, x, y, w);
    case Insert(w, now) =>
      if kept { InsertLost(|x.sent|, x.ep.pending, x.sending, y.ep, y.beyond, w, Pending(x.sending[w].packet, now, 0)); }
    case Write(w, ok) =>
      if kept {
        if ok {
          WrittenLost(|x.sent|, x.ep.pending, x.sending, y.ep, y.beyond, w);
        } else {
          FailedLost(|x.sent|, x.ep.pending, x.sending, y.ep, y.beyond, w);
        }
      }
    case TakeBack(w) =>
      if kept { TakenBackLost(|x.sent|, x.ep.pending, x.sending, y.ep, y.beyond, w); }
    case Finish(w) =>
    case Deliver(packet, ackOk, room) =>
      SenderDelivered(l, x, y, packet, ackOk, room);
    case TakeAcked =>
    case Tick(now, bumped, written) =>
      TickSender(x, y, now, bumped);
    case Close =>
  }

  lemma AckLost(n: nat, e0: Endpoint, sending: Sends, e: Endpoint, beyond: set<nat>, k0: nat)
    requires NothingLost(n, e0.pending, sending, e, beyond) && (Kept(e, k0) || k0 in beyond)
    ensures NothingLost(n, Acked(e0, k0).pending, sending, e, beyond)
  {
    forall k | 1 <= k <= n ensures k in Acked(e0, k0).pending || InHand(sending, k) || Kept(e, k) || k in beyond {
      assert k in e0.pending || InHand(sending, k) || Kept(e, k) || k in beyond;
    }
  }

  /** Only an acknowledgement the peer really sent removes an entry, and the peer still keeps what it acknowledged. */
  lemma SenderDelivered(l: Link, x: Side, y: Side, packet: Data, ackOk: bool, room: nat)
    requires LinkOk(l) && Local(Flip(l), y) && Fits(x) && Fits(y) && Pair(x, y)
    requires Enabled(l, x, y, Deliver(packet, ackOk, room))
    ensures Pair(AfterDeliver(l, x, packet, ackOk, room), y)
  {
    match l.inc.read(packet)
    case Junk =>
    case Ack(k0) =>
      assert k0 in y.acked by { FromWire(Flip(l), y, packet); }
      if !x.ep.closed && !y.ep.closed {
        AckLost(|x.sent|, x.ep, x.sending, y.ep, y.beyond, k0);
      }
    case Payload(k0, p) =>
      AcceptSender(x.ep, k0, p, room);
  }

  // ----- whole runs -----

  lemma Grows(l: Link, x: Side, y: Side, a: Action)
    requires Enabled(l, x, y, a)
    ensures |x.sent| <= |Apply(l, x, y, a).sent|
  {
  }

  lemma ActKeeps(l: Link, x: Side, y: Side, a: Action)
    requires LinkOk(l) && Enabled(l, x, y, a) && Inv(l, Net(x, y)) && Fits(Apply(l, x, y, a)) && Fits(y)
    ensures Inv(l, Net(Apply(l, x, y, a), y))
  {
    Grows(l, x, y, a);
    LocalStep(l, x, y, a);
    SenderStep(l, x, y, a);
    ReceiverStep(l, x, y, a, Apply(l, x, y, a));
  }

  ghost predicate NetFits(n: Net) {
    Fits(n.x) && Fits(n.y)
  }

  lemma StepKeeps(l: Link, n: Net, s: Step)
    requires LinkOk(l) && Can(l, n, s) && Inv(l, n) && NetFits(Do(l, n, s))
    ensures Inv(l, Do(l, n, s))
  {
    if s.left {
      ActKeeps(l, n.x, n.y, s.action);
    } else {
      assert Flip(Flip(l)) == l;
      assert Inv(Flip(l), Net(n.y, n.x));
      ActKeeps(Flip(l), n.y, n.x, s.action);
    }
  }

  lemma {:induction false} RunGrows(l: Link, n: Net, steps: seq<Step>)
    requires Runs(l, n, steps)
    ensures |n.x.sent| <= |After(l, n, steps).x.sent| && |n.y.sent| <= |After(l, n, steps).y.sent|
    decreases |steps|
  {
    if steps != [] {
      var s := steps[0];
      if s.left { Grows(l, n.x, n.y, s.action); } else { Grows(Flip(l), n.y, n.x, s.action); }
      RunGrows(l, Do(l, n, s), steps[1..]);
    }
  }

  /** Every reachable state of the carrier satisfies the invariant. */
  lemma {:induction false} RunKeeps(l: Link, n: Net, steps: seq<Step>)
    requires LinkOk(l) && Inv(l, n) && Runs(l, n, steps) && NetFits(After(l, n, steps))
    ensures Inv(l, After(l, n, steps))
    decreases |steps|
  {
    if steps != [] {
      var m := Do(l, n, steps[0]);
      RunGrows(l, m, steps[1..]);
      StepKeeps(l, n, steps[0]);
      RunKeeps(l, m, steps[1..]);
    }
  }

  lemma InitialInv(l: Link)
    ensures Inv(l, INITIAL)
  {
    assert Waiting(START.sending) == {};
  }
}
