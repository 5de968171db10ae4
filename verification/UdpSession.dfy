/** The session object of the UDP carrier, method by method, against the step system's functions. */
module UdpSessions {
  import opened Bytes
  import opened UdpWire
  import opened UdpProtocol

  /** What one undisturbed Send does: number `k` and its packet enter the pending map; a failed write takes the
      entry and the token back and closes the session. */
  function AfterSending(e: Endpoint, packet: Data, now: int, writeOk: bool): Endpoint {
    var k := NextNumber(e);
    if writeOk then
      e.(sendSeq := k, slots := e.slots + 1, pending := e.pending[k := Pending(packet, now, 0)])
    else
      e.(sendSeq := k, pending := e.pending - {k}, closed := true)
  }

  /** The side with a token taken, a number sealed and the packet entered, without interruption. */
  function Entered(l: Link, x: Side, w: nat, payload: Data, now: int): Side {
    var x1 := x.(ep := x.ep.(slots := x.ep.slots + 1), sending := x.sending[w := Holding(payload)]);
    AfterInsert(AfterSeal(l, x1, w), w, now)
  }

  /** The write step, and after a failed write the steps that take the token back and close. */
  function Written(x: Side, w: nat, ok: bool): Side
    requires w in x.sending && x.sending[w].Inserted? && x.ep.slots > 0
  {
    if ok then AfterWrite(x, w, true) else AfterFinish(AfterTakeBack(AfterWrite(x, w, false), w), w)
  }

  lemma SendStages(l: Link, x: Side, w: nat, payload: Data, now: int)
    requires w !in x.sending
    ensures var k := NextNumber(x.ep);
            var packet := l.out.data(k, payload);
            var x3 := Entered(l, x, w, payload, now);
            && x3.sending == x.sending[w := Inserted(k, packet)] && x3.ep == AfterSending(x.ep, packet, now, true)
            && x3.wire == x.wire && x3.overReleased == x.overReleased
  {
    var k := NextNumber(x.ep);
    var packet := l.out.data(k, payload);
    assert x.sending[w := Holding(payload)][w := Sealed(k, packet)][w := Inserted(k, packet)] == x.sending[w := Inserted(k, packet)];
  }

  lemma WrittenIs(x: Side, w: nat, ok: bool)
    requires w in x.sending && x.sending[w].Inserted? && x.ep.slots > 0
    ensures var x', k := Written(x, w, ok), x.sending[w].seqNo;
            && x'.sending == x.sending - {w}
            && x'.ep == (if ok then x.ep else x.ep.(pending := x.ep.pending - {k}, slots := x.ep.slots - 1, closed := true))
            && x'.wire == (if ok then x.wire + {x.sending[w].packet} else x.wire)
            && x'.overReleased == (x.overReleased || (!ok && k !in x.ep.pending))
  {
  }

  /** An undisturbed Send is the steps of the step system taken without interruption: four when the write succeeds, six
      when it fails. */
  lemma SendIsItsSteps(l: Link, x: Side, w: nat, payload: Data, now: int, writeOk: bool)
    requires w !in x.sending
    ensures var packet := l.out.data(NextNumber(x.ep), payload);
            var x3 := Entered(l, x, w, payload, now);
            && w in x3.sending && x3.sending[w].Inserted? && x3.ep.slots > 0
            && var x5 := Written(x3, w, writeOk);
               && x5.ep == AfterSending(x.ep, packet, now, writeOk)
               && x5.sending == x.sending && x5.overReleased == x.overReleased
               && x5.wire == if writeOk then x.wire + {packet} else x.wire
  {
    SendStages(l, x, w, payload, now);
    var k := NextNumber(x.ep);
    var packet := l.out.data(k, payload);
    WrittenIs(Entered(l, x, w, payload, now), w, writeOk);
    assert x.sending[w := Inserted(k, packet)] - {w} == x.sending;
    assert x.ep.pending[k := Pending(packet, now, 0)] - {k} == x.ep.pending - {k};
  }

  ghost function Elements(order: seq<nat>): set<nat> {
    set k | k in order
  }

  ghost predicate NoRepeats(order: seq<nat>) {
    forall i, j | 0 <= i < j < |order| :: order[i] != order[j]
  }

  ghost function Packets(pending: map<nat, Pending>, order: seq<nat>): seq<Data>
    requires Elements(order) <= pending.Keys
  {
    seq(|order|, i requires 0 <= i < |order| => assert order[i] in Elements(order); pending[order[i]].packet)
  }

  /** A write that fails closes the session. */
  function WrittenOut(e: Endpoint, all: bool): Endpoint {
    e.(closed := e.closed || !all)
  }

  class UdpSession {
    const sid: nat
    const out: Direction
    const inc: Direction
    var sendSeq: nat
    var pending: map<nat, Pending>
    var slots: nat
    var releasing: bool
    var expected: nat
    var reorder: map<nat, Data>
    var published: seq<Data>
    var closed: bool
    var wire: seq<Data>

    function View(): Endpoint
      reads this
    {
      Endpoint(sendSeq, pending, slots, releasing, expected, reorder, published, closed)
    }

    constructor (sid: nat, out: Direction, inc: Direction)
      ensures View() == FRESH && wire == []
      ensures this.sid == sid && this.out == out && this.inc == inc
    {
      this.sid, this.out, this.inc := sid, out, inc;
      sendSeq, pending, slots, releasing := 0, map[], 0, false;
      expected, reorder, published := 1, map[], [];
      closed, wire := false, [];
    }

    /** Refused without effect when closed, when the payload exceeds 1400 bytes or when no token comes free. */
    method Send(payload: Data, now: int, writeOk: bool) returns (ok: bool)
      modifies this
      ensures var e := old(View());
              var packet := DataPacket(out, sid, NextNumber(e), payload);
              if e.closed || |payload| > MAX_PLAINTEXT || e.slots >= MAX_PENDING then
                !ok && View() == e && wire == old(wire)
              else
                && ok == writeOk
                && View() == AfterSending(e, packet, now, writeOk)
                && wire == if writeOk then old(wire) + [packet] else old(wire)
    {
      if closed || |payload| > MAX_PLAINTEXT || slots >= MAX_PENDING {
        return false;
      }
      slots := slots + 1;
      sendSeq := (sendSeq + 1) % UINT64;
      var packet := DataPacket(out, sid, sendSeq, payload);
      pending := pending[sendSeq := Pending(packet, now, 0)];
      if writeOk {
        wire := wire + [packet];
        return true;
      }
      pending := pending - {sendSeq};
      slots := slots - 1;
      closed := true;
      return false;
    }

    /** Drops what is old or too far ahead, holds what is early, publishes what is due and everything it unblocks. */
    method AcceptOrdered(k: nat, payload: Data, room: nat) returns (ok: bool)
      modifies `expected, `reorder, `published
      ensures Accept(old(View()), k, payload, room) == if ok then View() else View().(closed := true)
    {
      if k < expected || k - expected > MAX_REORDER {
        return true;
      }
      if k > expected {
        if k !in reorder {
          reorder := reorder[k := payload];
        }
        return true;
      }
      if room == 0 {
        return false;
      }
      published := published + [payload];
      expected := (expected + 1) % UINT64;
      var left: nat := room - 1;
      ghost var start := View();
      while expected in reorder
        invariant Drain(View(), left) == Drain(start, room - 1)
        decreases reorder.Keys
      {
        var next := reorder[expected];
        reorder := reorder - {expected};
        if left == 0 {
          return false;
        }
        published := published + [next];
        expected := (expected + 1) % UINT64;
        left := left - 1;
      }
      return true;
    }

    /** The packet loop handles one packet. The token of an acknowledged entry is taken at once if there is one;
        otherwise the loop waits for it and handles nothing more. */
    method HandlePacket(packet: Data, ackOk: bool, room: nat)
      requires !releasing
      modifies this
      ensures var m := Classify(inc, sid, packet);
              var e := Receive(old(View()), m, ackOk, room);
              && View() == (if e.releasing && e.slots > 0 then Released(e) else e)
              && wire == if m.Payload? && ackOk then old(wire) + [AckPacket(out, sid, m.seqNo)] else old(wire)
    {
      match Classify(inc, sid, packet) {
        case Junk =>
        case Ack(k) =>
          if k in pending {
            pending := pending - {k};
            releasing := true;
            if slots > 0 {
              slots, releasing := slots - 1, false;
            }
          }
        case Payload(k, p) =>
          if !ackOk {
            closed := true;
            return;
          }
          wire := wire + [AckPacket(out, sid, k)];
          var ok := AcceptOrdered(k, p, room);
          if !ok {
            closed := true;
          }
      }
    }

    /** One pass over the pending map in some order; the ghost result names the collected entries in that order. */
    method CollectDue(now: int) returns (resend: seq<Data>, ghost order: seq<nat>)
      requires !closed
      modifies `pending, `closed
      ensures var e, bumped := old(View()), Elements(order);
              && View() == Ticked(e, now, bumped) && NoRepeats(order) && bumped <= e.pending.Keys
              && resend == Packets(e.pending, order)
              && TickChoice(e, now, bumped, if closed then {} else bumped)
    {
      ghost var e := View();
      order, resend := [], [];
      var todo := pending.Keys;
      while todo != {}
        invariant todo <= e.pending.Keys && Elements(order) !! todo && NoRepeats(order)
        invariant Elements(order) <= Due(e, now) - Exhausted(e, now)
        invariant Exhausted(e, now) <= todo && forall k | k in Due(e, now) :: k in Elements(order) || k in todo
        invariant View() == e.(pending := Bump(e.pending, Elements(order), now))
        invariant resend == Packets(e.pending, order)
        decreases todo
      {
        var k :| k in todo;
        todo := todo - {k};
        var item := pending[k];
        assert item == e.pending[k];
        if now - item.last >= RETRANSMIT_AFTER {
          if item.retries >= MAX_RETRIES {
            closed := true;
            assert k in Exhausted(e, now);
            return;
          }
          pending := pending[k := Pending(item.packet, now, item.retries + 1)];
          assert Elements(order + [k]) == Elements(order) + {k};
          assert pending == Bump(e.pending, Elements(order) + {k}, now);
          order, resend := order + [k], resend + [item.packet];
        }
      }
      assert Elements(order) == Due(e, now);
    }

    /** Nothing once closed. Otherwise counts a retry for every due entry and writes its packet again; closes when an
        entry has no retry left or a write fails (`room` writes succeed). The ghost results name the entries counted
        and, in order, those written. */
    method RetransmitTick(now: int, room: nat) returns (ghost bumped: set<nat>, ghost written: seq<nat>)
      modifies this
      ensures old(closed) ==> View() == old(View()) && wire == old(wire)
      ensures !old(closed) ==>
                && TickChoice(old(View()), now, bumped, Elements(written)) && NoRepeats(written)
                && View() == WrittenOut(Ticked(old(View()), now, bumped), Elements(written) == bumped)
                && wire == old(wire) + Packets(old(pending), written)
    {
      bumped, written := {}, [];
      if closed {
        return;
      }
      ghost var e := View();
      var resend, order := CollectDue(now);
      bumped, written := Elements(order), [];
      if closed {
        return;
      }
      var i := 0;
      while i < |resend|
        invariant i <= |resend| && written == order[..i]
        invariant View() == e.(pending := Bump(e.pending, bumped, now))
        invariant wire == old(wire) + resend[..i]
      {
        if i == room {
          closed := true;
          assert order[i] !in Elements(written);
          return;
        }
        wire := wire + [resend[i]];
        written := written + [order[i]];
        i := i + 1;
      }
      assert written == order && resend[..i] == resend;
    }
  }
}
