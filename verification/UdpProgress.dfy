/** What an open receiver achieves: when exactly it closes, and that it publishes everything that reaches it in its window. */
module UdpProgress {
  import opened Bytes
  import opened UdpWire
  import opened UdpProtocol
  import opened UdpDelivery
  import opened UdpTheorems

  /** The number of the payload that a step delivers to `y`, if it delivers one. */
  function Delivered(l: Link, s: Step): Option<nat> {
    if !s.left && s.action.Deliver? && l.out.read(s.action.packet).Payload?
    then Some(l.out.read(s.action.packet).seqNo) else None
  }

  /** Why a step closes `y`: its acknowledgement cannot be written or there is no room for all that a payload unblocks,
      an entry has no retry left, a failed Send has its token back, or the session is closed from outside. */
  ghost predicate Closing(l: Link, n: Net, s: Step) {
    && !s.left
    && match s.action
       case Deliver(_, ackOk, room) =>
         var k := Delivered(l, s);
         k.Some? && (!ackOk || room < Unblocked(n.y.ep, k.value))
       case Tick(now, _, _) => Exhausted(n.y.ep, now) != {}
       case Finish(_) => true
       case Close => true
       case _ => false
  }

  lemma OtherClosing(l: Link, x: Side, y: Side, a: Action)
    requires Enabled(l, x, y, a) && !a.Deliver? && !x.ep.closed
    ensures Apply(l, x, y, a).ep.closed <==> a.Finish? || a.Close? || (a.Tick? && Exhausted(x.ep, a.now) != {})
  {
  }

  lemma OrderedAt(l: Link, n: Net)
    requires Inv(l, n) && NetFits(n)
    ensures Ordered(n.x.sent, n.y.ep) && |n.x.sent| + 1 < UINT64
  {
  }

  lemma DeliverClosing(l: Link, y: Side, sent: seq<Data>, packet: Data, ackOk: bool, room: nat, k: nat)
    requires Ordered(sent, y.ep) && !y.ep.closed && 1 <= k <= |sent| && |sent| + 1 < UINT64
    requires l.inc.read(packet) == Payload(k, sent[k - 1])
    ensures AfterDeliver(l, y, packet, ackOk, room).ep.closed <==> !ackOk || room < Unblocked(y.ep, k)
  {
    AcceptExact(sent, y.ep, k, room);
  }

  lemma ClosingAct(l: Link, x: Side, y: Side, s: Step)
    requires Ordered(x.sent, y.ep) && |x.sent| + 1 < UINT64 && !y.ep.closed && !s.left
    requires s.action.Deliver? && Genuine(x.sent, l.out.read(s.action.packet))
    ensures AfterDeliver(Flip(l), y, s.action.packet, s.action.ackOk, s.action.room).ep.closed <==> Closing(l, Net(x, y), s)
  {
    if Delivered(l, s).Some? {
      DeliverClosing(Flip(l), y, x.sent, s.action.packet, s.action.ackOk, s.action.room, Delivered(l, s).value);
    }
  }

  lemma ClosingDeliver(l: Link, n: Net, s: Step)
    requires LinkOk(l) && Inv(l, n) && NetFits(n) && Can(l, n, s) && !n.y.ep.closed && !s.left && s.action.Deliver?
    ensures AfterDeliver(Flip(l), n.y, s.action.packet, s.action.ackOk, s.action.room).ep.closed <==> Closing(l, n, s)
  {
    OrderedAt(l, n);
    DeliveredIs(l, n.x, n.y, s.action.packet);
    ClosingAct(l, n.x, n.y, s);
  }

  /** An open receiver is closed by exactly these steps. */
  lemma ClosesExactly(l: Link, n: Net, s: Step)
    requires LinkOk(l) && Inv(l, n) && NetFits(n) && Can(l, n, s) && !n.y.ep.closed
    ensures Do(l, n, s).y.ep.closed <==> Closing(l, n, s)
  {
    if !s.left {
      if s.action.Deliver? {
        ClosingDeliver(l, n, s);
      } else {
        OtherClosing(Flip(l), n.y, n.x, s.action);
      }
    }
  }

  ghost predicate NeverCloses(l: Link, n: Net, steps: seq<Step>)
    requires Runs(l, n, steps)
    decreases |steps|
  {
    steps == [] || (!Closing(l, n, steps[0]) && NeverCloses(l, Do(l, n, steps[0]), steps[1..]))
  }

  lemma {:induction false} YClosedStays(l: Link, n: Net, steps: seq<Step>)
    requires Runs(l, n, steps) && n.y.ep.closed
    ensures After(l, n, steps).y.ep.closed
    decreases |steps|
  {
    if steps != [] {
      ClosedStays(l, n, steps[0]);
      YClosedStays(l, Do(l, n, steps[0]), steps[1..]);
    }
  }

  lemma {:induction false} OpenExactly(l: Link, n: Net, steps: seq<Step>)
    requires LinkOk(l) && Inv(l, n) && Runs(l, n, steps) && NetFits(After(l, n, steps)) && !n.y.ep.closed
    ensures !After(l, n, steps).y.ep.closed <==> NeverCloses(l, n, steps)
    decreases |steps|
  {
    if steps != [] {
      var m := Do(l, n, steps[0]);
      RunGrows(l, n, steps);
      RunGrows(l, m, steps[1..]);
      ClosesExactly(l, n, steps[0]);
      if m.y.ep.closed {
        YClosedStays(l, m, steps[1..]);
      } else {
        StepKeeps(l, n, steps[0]);
        OpenExactly(l, m, steps[1..]);
      }
    }
  }

  /** In every run a receiver is open at the end if and only if no step was one of those that close it. */
  lemma StaysOpenExactly(l: Link, steps: seq<Step>)
    requires Run(l, steps)
    ensures !End(l, steps).y.ep.closed <==> NeverCloses(l, INITIAL, steps)
  {
    InitialInv(l);
    OpenExactly(l, INITIAL, steps);
  }

  // ----- everything that arrives is published -----

  /** Some step delivers payload `k` to `y` while it is at most 4096 ahead of the expected number. */
  ghost predicate Gets(l: Link, n: Net, steps: seq<Step>, k: nat)
    requires Runs(l, n, steps)
    decreases |steps|
  {
    steps != [] && (|| (Delivered(l, steps[0]) == Some(k) && k <= n.y.ep.expected + MAX_REORDER)
                    || Gets(l, Do(l, n, steps[0]), steps[1..], k))
  }

  lemma DeliverKept(l: Link, y: Side, sent: seq<Data>, packet: Data, ackOk: bool, room: nat, k: nat, j: nat)
    requires Ordered(sent, y.ep) && 1 <= k <= |sent| && |sent| + 1 < UINT64 && l.inc.read(packet) == Payload(k, sent[k - 1])
    requires Kept(y.ep, j) || (j == k && k <= y.ep.expected + MAX_REORDER)
    ensures var e := AfterDeliver(l, y, packet, ackOk, room).ep; !e.closed ==> Kept(e, j)
  {
    AcceptOrdered(sent, y.ep, k, room);
  }

  lemma KeptAct(l: Link, x: Side, y: Side, s: Step, k: nat)
    requires Ordered(x.sent, y.ep) && |x.sent| + 1 < UINT64 && !s.left
    requires s.action.Deliver? && Genuine(x.sent, l.out.read(s.action.packet))
    requires Kept(y.ep, k) || (Delivered(l, s) == Some(k) && k <= y.ep.expected + MAX_REORDER)
    ensures var e := AfterDeliver(Flip(l), y, s.action.packet, s.action.ackOk, s.action.room).ep; !e.closed ==> Kept(e, k)
  {
    if Delivered(l, s).Some? {
      DeliverKept(Flip(l), y, x.sent, s.action.packet, s.action.ackOk, s.action.room, Delivered(l, s).value, k);
    }
  }

  lemma KeptDeliver(l: Link, n: Net, s: Step, k: nat)
    requires LinkOk(l) && Inv(l, n) && NetFits(n) && Can(l, n, s) && !s.left && s.action.Deliver?
    requires Kept(n.y.ep, k) || (Delivered(l, s) == Some(k) && k <= n.y.ep.expected + MAX_REORDER)
    ensures var e := AfterDeliver(Flip(l), n.y, s.action.packet, s.action.ackOk, s.action.room).ep; !e.closed ==> Kept(e, k)
  {
    OrderedAt(l, n);
    DeliveredIs(l, n.x, n.y, s.action.packet);
    KeptAct(l, n.x, n.y, s, k);
  }

  lemma KeptOther(l: Link, y: Side, x: Side, a: Action, k: nat)
    requires Enabled(l, y, x, a) && !a.Deliver? && Kept(y.ep, k)
    ensures Kept(Apply(l, y, x, a).ep, k)
  {
    OtherActions(l, y, x, a);
  }

  lemma KeptStep(l: Link, n: Net, s: Step, k: nat)
    requires LinkOk(l) && Inv(l, n) && NetFits(n) && Can(l, n, s) && !Do(l, n, s).y.ep.closed
    requires Kept(n.y.ep, k) || (Delivered(l, s) == Some(k) && k <= n.y.ep.expected + MAX_REORDER)
    ensures Kept(Do(l, n, s).y.ep, k)
  {
    if !s.left {
      if s.action.Deliver? {
        KeptDeliver(l, n, s, k);
      } else {
        KeptOther(Flip(l), n.y, n.x, s.action, k);
      }
    }
  }

  lemma {:induction false} GetsKept(l: Link, n: Net, steps: seq<Step>, k: nat)
    requires LinkOk(l) && Inv(l, n) && Runs(l, n, steps) && NetFits(After(l, n, steps)) && !After(l, n, steps).y.ep.closed
    requires Kept(n.y.ep, k) || Gets(l, n, steps, k)
    ensures Kept(After(l, n, steps).y.ep, k)
    decreases |steps|
  {
    if steps != [] {
      var m := Do(l, n, steps[0]);
      RunGrows(l, n, steps);
      RunGrows(l, m, steps[1..]);
      if m.y.ep.closed { YClosedStays(l, m, steps[1..]); }
      StepKeeps(l, n, steps[0]);
      if Kept(n.y.ep, k) || !Gets(l, m, steps[1..], k) { KeptStep(l, n, steps[0], k); }
      GetsKept(l, m, steps[1..], k);
    }
  }

  /** In every run whose steps do not close the receiver, once it got every number up to `m` inside its window, in any
      order and with any repetition, it has published the first `m` payloads; all of them if `m` were sent. */
  lemma EverythingPublished(l: Link, steps: seq<Step>, m: nat)
    requires Run(l, steps) && NeverCloses(l, INITIAL, steps)
    requires forall k | 1 <= k <= m :: Gets(l, INITIAL, steps, k)
    ensures var n := End(l, steps);
            m <= |n.x.sent| && n.x.sent[..m] <= n.y.ep.published && (m == |n.x.sent| ==> n.y.ep.published == n.x.sent)
  {
    StaysOpenExactly(l, steps);
    InitialInv(l);
    ReachedPairs(l, steps);
    var n := End(l, steps);
    forall k | 1 <= k <= m ensures Kept(n.y.ep, k) { GetsKept(l, INITIAL, steps, k); }
    assert !Kept(n.y.ep, n.y.ep.expected);
  }
}
