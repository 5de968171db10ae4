/**
 The receiver acknowledges a payload before it tests the reorder window, and the sender may have 8192 packets
 pending against a window of 4096. This module builds the run in which that loses a payload.
 */
module UdpLoss {
  import opened Bytes
  import opened UdpWire
  import opened UdpProtocol
  import opened UdpDelivery
  import opened UdpTheorems

  lemma {:induction false} Joined(l: Link, n: Net, s: seq<Step>, t: seq<Step>)
    requires Runs(l, n, s) && Runs(l, After(l, n, s), t)
    ensures Runs(l, n, s + t) && After(l, n, s + t) == After(l, After(l, n, s), t)
    decreases |s|
  {
    if s == [] {
      assert s + t == t;
    } else {
      Joined(l, Do(l, n, s[0]), s[1..], t);
      assert (s + t)[0] == s[0] && (s + t)[1..] == s[1..] + t;
    }
  }

  lemma Extended(l: Link, n: Net, s: seq<Step>, next: Step)
    requires Runs(l, n, s) && Can(l, After(l, n, s), next)
    ensures Runs(l, n, s + [next]) && After(l, n, s + [next]) == Do(l, After(l, n, s), next)
  {
    var m := After(l, n, s);
    assert Runs(l, Do(l, m, next), [next][1..]);
    assert Runs(l, m, [next]);
    assert After(l, m, [next]) == After(l, Do(l, m, next), [next][1..]);
    Joined(l, n, s, [next]);
  }

  /** Every packet of `x` so far is empty, pending and on the wire. */
  ghost predicate AllPending(l: Link, x: Side, n: nat) {
    && x.sending == map[] && |x.sent| == n == x.ep.sendSeq == x.ep.slots
    && !x.ep.closed && !x.ep.releasing
    && (forall k | 1 <= k <= n :: k in x.ep.pending)
    && (forall k: nat | 1 <= k <= n :: l.out.data(k, []) in x.wire)
  }

  const SEND: seq<Step> :=
    [Step(true, Acquire(0, [])), Step(true, Seal(0)), Step(true, Insert(0, 0)), Step(true, Write(0, true))]

  /** The side after one undisturbed Send of an empty payload under number `k`. */
  ghost function AfterSend(l: Link, x: Side, k: nat): Side {
    var packet := l.out.data(k, []);
    x.(ep := x.ep.(sendSeq := k, slots := x.ep.slots + 1, pending := x.ep.pending[k := Pending(packet, 0, 0)]),
       sending := map[], wire := x.wire + {packet}, sent := x.sent + [[]], nonces := x.nonces + [NonceFor(k)],
       transmits := x.transmits[k := Times(x.transmits, k) + 1], stamps := x.stamps[k := Log(x.stamps, k) + [0]])
  }

  /** The side with packet `k` entered but not yet written. */
  ghost predicate IsEntry(l: Link, x: Side, k: nat, x3: Side) {
    var packet := l.out.data(k, []);
    && x3.ep == x.ep.(sendSeq := k, slots := x.ep.slots + 1, pending := x.ep.pending[k := Pending(packet, 0, 0)])
    && x3.sending == map[0 := Inserted(k, packet)] && x3.sent == x.sent + [[]] && x3.nonces == x.nonces + [NonceFor(k)]
    && x3.wire == x.wire && x3.acked == x.acked && x3.transmits == x.transmits
    && x3.stamps == x.stamps[k := Log(x.stamps, k) + [0]]
    && x3.beyond == x.beyond && x3.overReleased == x.overReleased
  }

  lemma SendStates(l: Link, x: Side, n: nat)
    requires x.sending == map[] && x.ep.sendSeq == n && x.ep.slots < MAX_PENDING && n + 1 < UINT64
    ensures var x1 := x.(ep := x.ep.(slots := x.ep.slots + 1), sending := x.sending[0 := Holding([])]);
            var x2 := AfterSeal(l, x1, 0);
            x2.sending[0].Sealed? && IsEntry(l, x, n + 1, AfterInsert(x2, 0, 0))
  {
  }

  lemma EntryWritten(l: Link, x: Side, k: nat, x3: Side)
    requires IsEntry(l, x, k, x3)
    ensures AfterWrite(x3, 0, true) == AfterSend(l, x, k)
  {
    assert x3.sending - {0} == map[];
  }

  lemma Four(l: Link, m: Net, a: Step, b: Step, c: Step, d: Step)
    requires Can(l, m, a) && Can(l, Do(l, m, a), b) && Can(l, Do(l, Do(l, m, a), b), c)
    requires Can(l, Do(l, Do(l, Do(l, m, a), b), c), d)
    ensures Runs(l, m, [a, b, c, d]) && After(l, m, [a, b, c, d]) == Do(l, Do(l, Do(l, Do(l, m, a), b), c), d)
  {
    Extended(l, m, [], a);
    Extended(l, m, [] + [a], b);
    Extended(l, m, [] + [a] + [b], c);
    Extended(l, m, [] + [a] + [b] + [c], d);
    assert [a, b, c, d] == [] + [a] + [b] + [c] + [d];
  }

  lemma SendEmpty(l: Link, m: Net, n: nat)
    requires m.x.sending == map[] && m.x.ep.sendSeq == n && m.x.ep.slots < MAX_PENDING && n + 1 < UINT64
    ensures Runs(l, m, SEND) && After(l, m, SEND) == Net(AfterSend(l, m.x, n + 1), m.y)
  {
    SendStates(l, m.x, n);
    var x1 := m.x.(ep := m.x.ep.(slots := m.x.ep.slots + 1), sending := m.x.sending[0 := Holding([])]);
    EntryWritten(l, m.x, n + 1, AfterInsert(AfterSeal(l, x1, 0), 0, 0));
    Four(l, m, SEND[0], SEND[1], SEND[2], SEND[3]);
  }

  lemma SendPending(l: Link, x: Side, n: nat)
    requires AllPending(l, x, n)
    ensures AllPending(l, AfterSend(l, x, n + 1), n + 1)
  {
  }

  lemma {:induction false} SendAll(l: Link, n: nat) returns (steps: seq<Step>)
    requires n <= MAX_PENDING
    ensures Runs(l, INITIAL, steps) && End(l, steps).y == START && AllPending(l, End(l, steps).x, n)
  {
    if n == 0 {
      steps := [];
    } else {
      var before := SendAll(l, n - 1);
      SendPending(l, End(l, before).x, n - 1);
      SendEmpty(l, End(l, before), n - 1);
      Joined(l, INITIAL, before, SEND);
      steps := before + SEND;
    }
  }

  /** `y` has received and acknowledged 2..j while packet 1 is delayed. */
  ghost predicate Gap(l: Link, y: Side, j: nat) {
    && y.ep.expected == 1 && !y.ep.closed && !y.ep.releasing && y.sent == []
    && (forall k | k in y.ep.reorder :: k <= 1 + MAX_REORDER)
    && (forall k: nat | 2 <= k <= j :: l.inc.ack(k) in y.wire)
  }

  lemma {:induction false} DeliverGap(l: Link, n: nat, j: nat) returns (steps: seq<Step>)
    requires LinkOk(l) && 1 <= j <= n <= MAX_PENDING
    ensures Runs(l, INITIAL, steps) && AllPending(l, End(l, steps).x, n) && Gap(l, End(l, steps).y, j)
    decreases j
  {
    if j == 1 {
      steps := SendAll(l, n);
    } else {
      var before := DeliverGap(l, n, j - 1);
      var next := Step(false, Deliver(l.out.data(j, []), true, 1));
      Extended(l, INITIAL, before, next);
      steps := before + [next];
    }
  }

  /** A run with both ends open, no send under way and no token owed, in which number 4098 is acknowledged and
      forgotten by the sender although the receiver neither published nor holds it. */
  lemma AcknowledgedAndLost(l: Link) returns (steps: seq<Step>)
    requires LinkOk(l)
    ensures Run(l, steps)
    ensures var n := End(l, steps);
            && !n.x.ep.closed && !n.y.ep.closed && !n.x.ep.releasing && n.x.sending == map[]
            && |n.x.sent| == 4098 && 4098 !in n.x.ep.pending && !Kept(n.y.ep, 4098)
  {
    var before := DeliverGap(l, 4098, 4098);
    var last := Step(true, Deliver(l.inc.ack(4098), true, 0));
    Extended(l, INITIAL, before, last);
    var acked := before + [last];
    Extended(l, INITIAL, acked, Step(true, TakeAcked));
    steps := acked + [Step(true, TakeAcked)];
  }
}
