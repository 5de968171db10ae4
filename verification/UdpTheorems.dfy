/** What the UDP carrier guarantees in every run, for every interleaving and every behaviour of the network. */
module UdpTheorems {
  import opened Bytes
  import opened UdpWire
  import opened UdpProtocol
  import opened UdpInvariant
  import opened UdpDelivery

  /** A run from two fresh sessions in which no 64-bit counter wraps. */
  ghost predicate Run(l: Link, steps: seq<Step>) {
    LinkOk(l) && Runs(l, INITIAL, steps) && NetFits(After(l, INITIAL, steps))
  }

  ghost function End(l: Link, steps: seq<Step>): Net
    requires Runs(l, INITIAL, steps)
  {
    After(l, INITIAL, steps)
  }

  lemma Reached(l: Link, steps: seq<Step>)
    requires Run(l, steps)
    ensures Inv(l, End(l, steps))
  {
    InitialInv(l);
    RunKeeps(l, INITIAL, steps);
  }

  lemma {:induction false} LocalRun(l: Link, n: Net, steps: seq<Step>)
    requires Local(l, n.x) && Runs(l, n, steps) && Counts(After(l, n, steps).x)
    ensures Local(l, After(l, n, steps).x)
    decreases |steps|
  {
    if steps != [] {
      var s := steps[0];
      RunGrows(l, Do(l, n, s), steps[1..]);
      if s.left { LocalStep(l, n.x, n.y, s.action); }
      LocalRun(l, Do(l, n, s), steps[1..]);
    }
  }

  /** A run from two fresh sessions in which `x` numbers fewer than 2^64 payloads. */
  ghost predicate Counted(l: Link, steps: seq<Step>) {
    Runs(l, INITIAL, steps) && Counts(After(l, INITIAL, steps).x)
  }

  lemma LocalReached(l: Link, steps: seq<Step>)
    requires Counted(l, steps)
    ensures Local(l, End(l, steps).x)
  {
    InitialInv(l);
    LocalRun(l, INITIAL, steps);
  }

  function Mirror(steps: seq<Step>): seq<Step> {
    if steps == [] then [] else [Step(!steps[0].left, steps[0].action)] + Mirror(steps[1..])
  }

  /** Exchanging the two ends turns every run into a run, so what is proved of `x` holds of `y`. */
  lemma {:induction false} Mirrored(l: Link, n: Net, steps: seq<Step>)
    requires Runs(l, n, steps)
    ensures Runs(Flip(l), Net(n.y, n.x), Mirror(steps))
    ensures var m := After(l, n, steps); After(Flip(l), Net(n.y, n.x), Mirror(steps)) == Net(m.y, m.x)
    decreases |steps|
  {
    if steps != [] {
      assert Flip(Flip(l)) == l;
      var m := Do(l, n, steps[0]);
      Mirrored(l, m, steps[1..]);
      assert Mirror(steps)[0] == Step(!steps[0].left, steps[0].action) && Mirror(steps)[1..] == Mirror(steps[1..]);
      assert Do(Flip(l), Net(n.y, n.x), Mirror(steps)[0]) == Net(m.y, m.x);
    }
  }

  /** The real packets, under any two lawful key directions, are one of the links the theorems speak of. */
  lemma KeyedLink(d1: Direction, d2: Direction, sid: nat)
    requires Lawful(d1) && Lawful(d2) && sid < UINT64
    ensures LinkOk(Link(Keyed(d1, sid), Keyed(d2, sid)))
  {
    KeyedOk(d1, sid);
    KeyedOk(d2, sid);
  }

  lemma ReachedPairs(l: Link, steps: seq<Step>)
    requires Run(l, steps)
    ensures var n := End(l, steps); Pair(n.x, n.y) && Pair(n.y, n.x)
  {
    Reached(l, steps);
  }

  /** In order, exactly once: what each end has published is the peer's payloads numbered 1..expected-1, and every
      held payload is the true one of a number in (expected, expected + 4096]. */
  lemma InOrderExactlyOnce(l: Link, steps: seq<Step>)
    requires Run(l, steps)
    ensures var n := End(l, steps); Ordered(n.x.sent, n.y.ep) && Ordered(n.y.sent, n.x.ep)
  {
    ReachedPairs(l, steps);
  }

  /** While both ends are open, every number that left the sender's pending map, is not still in the hands of its Send and
      was not acknowledged beyond the window is published or held; so once nothing is pending or in hand, and whatever
      was acknowledged beyond the window was kept later, everything numbered was published. */
  lemma AcknowledgedIsDelivered(l: Link, steps: seq<Step>)
    requires Run(l, steps)
    requires var n := End(l, steps); !n.x.ep.closed && !n.y.ep.closed
    ensures var n := End(l, steps);
            && (forall k | 1 <= k <= |n.x.sent| && k !in n.x.ep.pending && !InHand(n.x.sending, k) && k !in n.y.beyond ::
                  Kept(n.y.ep, k))
            && ((&& n.x.ep.pending == map[] && (forall w | w in n.x.sending :: !Out(n.x.sending[w]))
                 && (forall k | k in n.y.beyond :: Kept(n.y.ep, k)))
                ==> n.y.ep.published == n.x.sent)
  {
    ReachedPairs(l, steps);
    var n := End(l, steps);
    assert !Kept(n.y.ep, n.y.ep.expected);
  }

  /** The sender has not numbered more than 4096 past a number that is pending or in hand. */
  ghost predicate Paced(x: Side) {
    forall k: nat | k in x.ep.pending || InHand(x.sending, k) :: |x.sent| <= k + MAX_REORDER
  }

  ghost predicate StaysPaced(l: Link, n: Net, steps: seq<Step>)
    requires Runs(l, n, steps)
    decreases |steps|
  {
    Paced(n.x) && (steps == [] || StaysPaced(l, Do(l, n, steps[0]), steps[1..]))
  }

  lemma PacedWithin(x: Side, y: Side, k: nat)
    requires Pair(x, y) && Paced(x) && !x.ep.closed && !y.ep.closed && y.beyond == {} && k <= |x.sent|
    ensures k <= y.ep.expected + MAX_REORDER
  {
    if y.ep.expected <= |x.sent| {
      assert !Kept(y.ep, y.ep.expected);
      assert y.ep.expected in x.ep.pending || InHand(x.sending, y.ep.expected);
    }
  }

  lemma PacedDeliver(l: Link, x: Side, y: Side, packet: Data, ackOk: bool, room: nat)
    requires LinkOk(l) && Local(l, x) && Fits(x) && Pair(x, y) && Pair(y, x) && Fits(y) && Paced(x)
    requires !x.ep.closed && !y.ep.closed && y.beyond == {} && Enabled(Flip(l), y, x, Deliver(packet, ackOk, room))
    ensures AfterDeliver(Flip(l), y, packet, ackOk, room).beyond == {}
  {
    if l.out.read(packet).Payload? {
      FromWire(l, x, packet);
      PacedWithin(x, y, l.out.read(packet).seqNo);
    }
  }

  lemma PacedStep(l: Link, n: Net, s: Step)
    requires LinkOk(l) && Inv(l, n) && Can(l, n, s) && NetFits(n) && Paced(n.x) && !n.x.ep.closed && !n.y.ep.closed && n.y.beyond == {}
    ensures Do(l, n, s).y.beyond == {}
  {
    if !s.left && s.action.Deliver? {
      PacedDeliver(l, n.x, n.y, s.action.packet, s.action.ackOk, s.action.room);
    } else if !s.left {
      OtherActions(Flip(l), n.y, n.x, s.action);
    }
  }

  lemma ClosedKept(l: Link, x: Side, y: Side, a: Action)
    requires Enabled(l, x, y, a) && x.ep.closed
    ensures Apply(l, x, y, a).ep.closed
  {
    if a.Deliver? { DeliverClosed(x.ep, l.inc.read(a.packet), a.ackOk, a.room); }
  }

  lemma ClosedStays(l: Link, n: Net, s: Step)
    requires Can(l, n, s)
    ensures n.x.ep.closed ==> Do(l, n, s).x.ep.closed
    ensures n.y.ep.closed ==> Do(l, n, s).y.ep.closed
  {
    if s.left {
      if n.x.ep.closed { ClosedKept(l, n.x, n.y, s.action); }
    } else {
      if n.y.ep.closed { ClosedKept(Flip(l), n.y, n.x, s.action); }
    }
  }

  /** A sender that never runs more than 4096 ahead of its lowest number still pending or in hand never makes its peer's
      window overrun, as long as both ends are open. */
  lemma {:induction false} PacedNeverOverruns(l: Link, n: Net, steps: seq<Step>)
    requires LinkOk(l) && Inv(l, n) && Runs(l, n, steps) && NetFits(After(l, n, steps)) && StaysPaced(l, n, steps)
    requires n.y.beyond == {} && !After(l, n, steps).x.ep.closed && !After(l, n, steps).y.ep.closed
    ensures After(l, n, steps).y.beyond == {} && !n.x.ep.closed && !n.y.ep.closed
    decreases |steps|
  {
    if steps != [] {
      var m := Do(l, n, steps[0]);
      RunGrows(l, n, steps);
      RunGrows(l, m, steps[1..]);
      StepKeeps(l, n, steps[0]);
      OpenBefore(l, m, steps[1..]);
      ClosedStays(l, n, steps[0]);
      PacedStep(l, n, steps[0]);
      PacedNeverOverruns(l, m, steps[1..]);
    }
  }

  lemma {:induction false} OpenBefore(l: Link, n: Net, steps: seq<Step>)
    requires Runs(l, n, steps) && !After(l, n, steps).x.ep.closed && !After(l, n, steps).y.ep.closed
    ensures !n.x.ep.closed && !n.y.ep.closed
    decreases |steps|
  {
    if steps != [] {
      OpenBefore(l, Do(l, n, steps[0]), steps[1..]);
      ClosedStays(l, n, steps[0]);
    }
  }

  /** So a paced sender whose pending map is empty knows that everything it numbered was published. */
  lemma PacedIsDelivered(l: Link, steps: seq<Step>)
    requires Run(l, steps) && StaysPaced(l, INITIAL, steps)
    requires var n := End(l, steps); !n.x.ep.closed && !n.y.ep.closed
    requires var x := End(l, steps).x; x.ep.pending == map[] && forall w | w in x.sending :: !Out(x.sending[w])
    ensures End(l, steps).y.ep.published == End(l, steps).x.sent
  {
    InitialInv(l);
    PacedNeverOverruns(l, INITIAL, steps);
    AcknowledgedIsDelivered(l, steps);
  }

  lemma DeliveredKept(l: Link, y: Side, sent: seq<Data>, packet: Data, room: nat)
    requires Ordered(sent, y.ep) && |sent| + 1 < UINT64 && l.inc.read(packet).Payload? && Genuine(sent, l.inc.read(packet))
    ensures var k, y' := l.inc.read(packet).seqNo, AfterDeliver(l, y, packet, true, room);
            k in y'.acked && (!y'.ep.closed ==> (Kept(y'.ep, k) <==> k <= y.ep.expected + MAX_REORDER))
  {
    AcceptOrdered(sent, y.ep, l.inc.read(packet).seqNo, room);
  }

  /** A delivered payload is always acknowledged; while the session stays open it is also kept if and only if its
      number is at most 4096 ahead of the expected one. */
  lemma KeptExactlyInWindow(l: Link, steps: seq<Step>, packet: Data, room: nat)
    requires Run(l, steps) && Can(l, End(l, steps), Step(false, Deliver(packet, true, room)))
    requires Flip(l).inc.read(packet).Payload?
    requires !Do(l, End(l, steps), Step(false, Deliver(packet, true, room))).y.ep.closed
    ensures var n, k := End(l, steps), l.out.read(packet).seqNo;
            var m := Do(l, n, Step(false, Deliver(packet, true, room)));
            k in m.y.acked && (Kept(m.y.ep, k) <==> k <= n.y.ep.expected + MAX_REORDER)
  {
    Reached(l, steps);
    var n := End(l, steps);
    DeliveredIs(l, n.x, n.y, packet);
    DeliveredKept(Flip(l), n.y, n.x.sent, packet, room);
  }

  /** Tokens are exactly the pending entries plus the sends and the acknowledgement that still account for one, until a
      failed send takes back a token for a packet that was acknowledged meanwhile; so at most 8192 packets are pending
      and an acknowledgement always finds its token. In a session that is open, with no such send about to close it,
      that has not happened. */
  lemma SlotsConserved(l: Link, steps: seq<Step>)
    requires Counted(l, steps)
    ensures var x := End(l, steps).x;
            && (!x.overReleased ==>
                  && ConservedAt(x)
                  && |x.ep.pending| <= MAX_PENDING
                  && (x.ep.releasing ==> Can(l, End(l, steps), Step(true, TakeAcked))))
            && (!x.ep.closed && !Overdrawn(x.sending) ==> !x.overReleased)
  {
    LocalReached(l, steps);
  }

  ghost predicate ConservedAt(x: Side) {
    Conserved(x.ep.slots, x.ep.pending, x.sending, x.ep.releasing)
  }

  ghost function WithToken(x: Side, v: nat, p: Data): Side {
    x.(ep := x.ep.(slots := x.ep.slots + 1), sending := x.sending[v := Holding(p)])
  }

  lemma TakeBackExact(x: Side, w: nat)
    requires ConservedAt(x) && w in x.sending && x.sending[w].Failing? && x.ep.slots > 0
    ensures ConservedAt(AfterTakeBack(x, w)) <==> x.sending[w].had
  {
    TakeBackSlots(x.ep.slots, x.ep.pending, x.sending, x.ep.releasing, w);
  }

  lemma TokenKeeps(x: Side, v: nat, p: Data)
    requires ConservedAt(x) && v !in x.sending
    ensures ConservedAt(WithToken(x, v, p))
  {
    assert Waiting(x.sending[v := Holding(p)]) == Waiting(x.sending) + {v};
  }

  /** Deleting the entry after a failed write keeps the tokens right, and taking a token back keeps them right if and
      only if the entry was still there: at once, or, if no token was left, from the next send that brings one. */
  lemma WriteFailureExact(x: Side, w: nat, v: nat, p: Data)
    requires ConservedAt(x) && w in x.sending && x.sending[w].Inserted? && v !in x.sending
    ensures var x1 := AfterWrite(x, w, false);
            && ConservedAt(x1)
            && (x1.ep.slots > 0 ==> (ConservedAt(AfterTakeBack(x1, w)) <==> x.sending[w].seqNo in x.ep.pending))
            && (ConservedAt(AfterTakeBack(WithToken(x1, v, p), w)) <==> x.sending[w].seqNo in x.ep.pending)
  {
    var x1 := AfterWrite(x, w, false);
    FailSlots(x.ep.slots, x.ep.pending, x.sending, x.ep.releasing, w);
    if x1.ep.slots > 0 { TakeBackExact(x1, w); }
    TokenKeeps(x1, v, p);
    TakeBackExact(WithToken(x1, v, p), w);
  }

  /** Every packet goes on the wire at most 19 times, and everything ever on the wire is byte for byte the packet
      first sealed under its number, or an acknowledgement. */
  lemma TransmissionsBounded(l: Link, steps: seq<Step>)
    requires Counted(l, steps)
    ensures var x := End(l, steps).x;
            && (forall k :: Times(x.transmits, k) <= 1 + MAX_RETRIES)
            && (forall p | p in x.wire ::
                  (exists k :: SealedAs(l, x.sent, p, k)) || (exists k :: AckAs(l, x.acked, p, k)))
            && (forall k | k in x.ep.pending :: SealedAs(l, x.sent, x.ep.pending[k].packet, k))
  {
    LocalReached(l, steps);
    var x := End(l, steps).x;
    forall k ensures Times(x.transmits, k) <= 1 + MAX_RETRIES {
      if k in x.transmits { assert WithinBudget(x.ep.pending, x.sending, x.transmits, k); }
    }
    forall p | p in x.wire
      ensures (exists k :: SealedAs(l, x.sent, p, k)) || (exists k :: AckAs(l, x.acked, p, k))
    {
      assert OnWire(l, x.sent, x.acked, p);
    }
  }

  /** No two encryptions of a session use the same nonce. */
  lemma NoncesDistinct(l: Link, steps: seq<Step>, i: nat, j: nat)
    requires Counted(l, steps) && i < j < |End(l, steps).x.nonces|
    ensures End(l, steps).x.nonces[i] != End(l, steps).x.nonces[j]
  {
    LocalReached(l, steps);
    NonceInjective(i + 1, j + 1);
  }

  // ----- retransmission -----

  ghost predicate StaysPending(l: Link, n: Net, steps: seq<Step>, k: nat)
    requires Runs(l, n, steps)
    decreases |steps|
  {
    k in n.x.ep.pending && (steps == [] || StaysPending(l, Do(l, n, steps[0]), steps[1..], k))
  }

  ghost predicate IsDueTick(n: Net, s: Step, k: nat) {
    s.left && s.action.Tick? && k in Due(n.x.ep, s.action.now)
  }

  /** How many ticks of `x` found entry `k` at least 350 ms after its last transmission. */
  ghost function DueTicks(l: Link, n: Net, steps: seq<Step>, k: nat): nat
    requires Runs(l, n, steps)
    decreases |steps|
  {
    if steps == [] then 0
    else (if IsDueTick(n, steps[0], k) then 1 else 0) + DueTicks(l, Do(l, n, steps[0]), steps[1..], k)
  }

  lemma EntrySame(l: Link, x: Side, y: Side, a: Action, k: nat)
    requires Enabled(l, x, y, a) && !a.Tick? && Unstarted(x.sending, x.ep.pending, x.transmits) && k in x.ep.pending
    ensures var e := Apply(l, x, y, a).ep;
            (x.ep.closed ==> e.closed) && (k in e.pending ==> e.pending[k] == x.ep.pending[k])
  {
    if a.Deliver? { DeliverClosed(x.ep, l.inc.read(a.packet), a.ackOk, a.room); }
  }

  /** A due tick counts one retry or closes; every other step leaves the count of a staying entry alone. */
  lemma StepRetries(l: Link, n: Net, s: Step, k: nat)
    requires Local(l, n.x) && Can(l, n, s) && k in n.x.ep.pending && k in Do(l, n, s).x.ep.pending
    ensures n.x.ep.closed ==> Do(l, n, s).x.ep.closed
    ensures !Do(l, n, s).x.ep.closed ==>
              Do(l, n, s).x.ep.pending[k].retries == n.x.ep.pending[k].retries + (if IsDueTick(n, s, k) then 1 else 0)
  {
    if s.left && !s.action.Tick? { EntrySame(l, n.x, n.y, s.action, k); }
  }

  lemma DeliverClosed(e: Endpoint, m: Incoming, ackOk: bool, room: nat)
    ensures var d := Receive(e, m, ackOk, room);
            (e.closed ==> d.closed) && forall k | k in d.pending :: k in e.pending && d.pending[k] == e.pending[k]
  {
    if m.Payload? {
      AcceptSender(e, m.seqNo, m.payload, room);
      if m.seqNo == e.expected && room > 0 {
        DrainClosed(e.(published := e.published + [m.payload], expected := (e.expected + 1) % UINT64), room - 1);
      }
    }
  }

  lemma DrainClosed(e: Endpoint, room: nat)
    ensures e.closed ==> Drain(e, room).closed
    decreases e.reorder.Keys
  {
  }

  /** An entry left unacknowledged while 19 ticks find it due closes the session, whatever happens between. */
  lemma {:induction false} UnacknowledgedCloses(l: Link, n: Net, steps: seq<Step>, k: nat)
    requires LinkOk(l) && Inv(l, n) && Runs(l, n, steps) && NetFits(After(l, n, steps)) && StaysPending(l, n, steps, k)
    requires DueTicks(l, n, steps, k) + n.x.ep.pending[k].retries > MAX_RETRIES || n.x.ep.closed
    ensures After(l, n, steps).x.ep.closed
    decreases |steps|
  {
    if steps != [] {
      var m := Do(l, n, steps[0]);
      RunGrows(l, m, steps[1..]);
      StepKeeps(l, n, steps[0]);
      StepRetries(l, n, steps[0], k);
      UnacknowledgedCloses(l, m, steps[1..], k);
    } else if !n.x.ep.closed {
      assert false;
    }
  }

  /** The retries the pending entries still have. */
  ghost function Remaining(p: Entries): nat
    decreases |p|
  {
    if p == map[] then 0
    else
      var k :| k in p;
      Removed(p, k);
      Spare(p[k]) + Remaining(p - {k})
  }

  ghost function Spare(d: Pending): nat {
    if d.retries < MAX_RETRIES then MAX_RETRIES - d.retries else 0
  }

  lemma {:induction false} RemainingSplit(p: Entries, k: nat)
    requires k in p
    ensures Remaining(p) == Spare(p[k]) + Remaining(p - {k})
    decreases |p|
  {
    var j :| j in p && Remaining(p) == Spare(p[j]) + Remaining(p - {j});
    if j != k {
      Removed(p, j);
      Removed(p, k);
      RemainingSplit(p - {j}, k);
      RemainingSplit(p - {k}, j);
      assert p - {j} - {k} == p - {k} - {j};
    }
  }

  /** A tick that closes nothing spends exactly one remaining retry for every entry it retransmits. */
  lemma {:induction false} TickSpends(p: Entries, due: set<nat>, now: int)
    requires forall k | k in due :: k in p && p[k].retries < MAX_RETRIES
    ensures Remaining(Bump(p, due, now)) + |due| == Remaining(p)
    decreases |due|
  {
    if due == {} {
      assert Bump(p, due, now) == p;
    } else {
      var k :| k in due;
      var rest := due - {k};
      TickSpends(p, rest, now);
      var b, c := Bump(p, rest, now), Bump(p, due, now);
      RemainingSplit(b, k);
      RemainingSplit(c, k);
      assert b - {k} == c - {k};
    }
  }

  /** Dropping an entry never adds retries. */
  lemma AckSpends(p: Entries, k: nat)
    ensures Remaining(p - {k}) <= Remaining(p)
  {
    if k in p { RemainingSplit(p, k); } else { assert p - {k} == p; }
  }

  ghost predicate Resends(n: Net, s: Step) {
    s.left && s.action.Tick? && Due(n.x.ep, s.action.now) != {}
  }

  /** No packet enters the pending map of `x` during the run. */
  ghost predicate Quiet(steps: seq<Step>) {
    forall i | 0 <= i < |steps| :: steps[i].left ==> !steps[i].action.Insert?
  }

  ghost function ResendTicks(l: Link, n: Net, steps: seq<Step>): nat
    requires Runs(l, n, steps)
    decreases |steps|
  {
    if steps == [] then 0
    else (if Resends(n, steps[0]) then 1 else 0) + ResendTicks(l, Do(l, n, steps[0]), steps[1..])
  }

  lemma StepSpends(l: Link, n: Net, s: Step)
    requires Can(l, n, s) && !(s.left && s.action.Insert?)
    ensures n.x.ep.closed ==> Do(l, n, s).x.ep.closed
    ensures !Do(l, n, s).x.ep.closed ==>
              Remaining(Do(l, n, s).x.ep.pending) + (if Resends(n, s) then 1 else 0) <= Remaining(n.x.ep.pending)
  {
    if s.left {
      match s.action
      case Acquire(w, p) =>
      case Seal(w) =>
      case Write(w, ok) => AckSpends(n.x.ep.pending, n.x.sending[w].seqNo);
      case TakeBack(w) =>
      case Finish(w) =>
      case TakeAcked =>
      case Deliver(packet, ackOk, room) =>
        var m := l.inc.read(packet);
        DeliverClosed(n.x.ep, m, ackOk, room);
        if m.Ack? { AckSpends(n.x.ep.pending, m.seqNo); }
        if m.Payload? { AcceptSender(n.x.ep, m.seqNo, m.payload, room); }
      case Tick(now, bumped, written) =>
        if !Ticked(n.x.ep, now, bumped).closed { TickStepSpends(n.x.ep, now, bumped, written); }
      case Close =>
    }
  }

  lemma TickStepSpends(e: Endpoint, now: int, bumped: set<nat>, written: set<nat>)
    requires TickChoice(e, now, bumped, written) && !Ticked(e, now, bumped).closed
    ensures Remaining(Ticked(e, now, bumped).pending) + (if Due(e, now) != {} then 1 else 0) <= Remaining(e.pending)
  {
    assert Exhausted(e, now) == {};
    forall k | k in bumped ensures e.pending[k].retries < MAX_RETRIES {
      assert k !in Exhausted(e, now);
    }
    TickSpends(e.pending, bumped, now);
  }

  /** Without new packets, the ticks that find something due are at most the remaining retries of what was
      pending; one more closes the session. */
  lemma {:induction false} QuietEnds(l: Link, n: Net, steps: seq<Step>)
    requires Runs(l, n, steps) && Quiet(steps) && !After(l, n, steps).x.ep.closed
    ensures !n.x.ep.closed && ResendTicks(l, n, steps) <= Remaining(n.x.ep.pending)
    decreases |steps|
  {
    if steps != [] {
      StepSpends(l, n, steps[0]);
      QuietEnds(l, Do(l, n, steps[0]), steps[1..]);
    }
  }
}
