/**
 A failed Send takes a token back whether or not its entry was still pending. This module builds the run in which the
 entry was acknowledged first, so that the token of another Send goes.
 */
module UdpOverRelease {
  import opened UdpProtocol
  import opened UdpInvariant
  import opened UdpTheorems
  import opened UdpLoss

  lemma Next(l: Link, before: seq<Step>, next: Step) returns (steps: seq<Step>)
    requires Runs(l, INITIAL, before) && Can(l, End(l, before), next)
    ensures Runs(l, INITIAL, steps) && End(l, steps) == Do(l, End(l, before), next)
  {
    Extended(l, INITIAL, before, next);
    steps := before + [next];
  }

  /** `x` holds one token for packet 1, which is entered and was retransmitted before its first write. */
  lemma Resent(l: Link) returns (steps: seq<Step>)
    ensures Runs(l, INITIAL, steps)
    ensures var n := End(l, steps);
            && n.x.ep == FRESH.(sendSeq := 1, slots := 1, pending := map[1 := Pending(l.out.data(1, []), 350, 1)])
            && n.x.sending == map[0 := Inserted(1, l.out.data(1, []))]
            && l.out.data(1, []) in n.x.wire && |n.x.sent| == 1 && !n.x.overReleased && n.y == START
  {
    steps := Next(l, [], Step(true, Acquire(0, [])));
    steps := Next(l, steps, Step(true, Seal(0)));
    steps := Next(l, steps, Step(true, Insert(0, 0)));
    var e := End(l, steps).x.ep;
    assert e.pending == map[1 := Pending(l.out.data(1, []), 0, 0)];
    assert Due(e, 350) == {1} && Exhausted(e, 350) == {};
    steps := Next(l, steps, Step(true, Tick(350, {1}, {1})));
  }

  /** Packet 1 is delivered and acknowledged, and its token taken, while its Send has not written yet. */
  lemma Acknowledged(l: Link) returns (steps: seq<Step>)
    requires LinkOk(l)
    ensures Runs(l, INITIAL, steps)
    ensures var n := End(l, steps);
            && n.x.ep == FRESH.(sendSeq := 1) && n.x.sending == map[0 := Inserted(1, l.out.data(1, []))]
            && |n.x.sent| == 1 && !n.x.overReleased && n.y.sent == []
  {
    steps := Resent(l);
    var n := End(l, steps);
    steps := Next(l, steps, Step(false, Deliver(l.out.data(1, []), true, 1)));
    steps := Next(l, steps, Step(true, Deliver(l.inc.ack(1), true, 1)));
    assert n.x.ep.pending - {1} == map[];
    steps := Next(l, steps, Step(true, TakeAcked));
  }

  /** The write of packet 1 then fails with no token left. It waits, takes the token of the next Send, and leaves that
      Send without one in a session that is still open. */
  lemma TokenOfAnotherSend(l: Link) returns (steps: seq<Step>)
    requires LinkOk(l)
    ensures Run(l, steps)
    ensures var x := End(l, steps).x;
            !x.ep.closed && x.ep.slots == 0 && Waiting(x.sending) == {1} && !ConservedAt(x)
  {
    steps := Acknowledged(l);
    steps := Next(l, steps, Step(true, Write(0, false)));
    assert End(l, steps).x.sending[0] == Failing(1, false) && End(l, steps).x.ep.pending == map[];
    steps := Next(l, steps, Step(true, Acquire(1, [])));
    steps := Next(l, steps, Step(true, TakeBack(0)));
  }
}
