/**
 How a node numbers its UDP datagrams: every flow object has a counter of its own, and a flow that was removed and is made
 anew under its identifier starts at 1 again. Keys of datagrams come again exactly then.
 */
module DatagramNumbers {
  import opened Fragments
  import opened Reassembly

  /** A flow object, from its making on: the identifier it was made under and its counter. */
  datatype Flow = Flow(id: nat, seqNo: nat)

  /** A numbered datagram with the flow object that numbered it. */
  datatype Sent = Sent(key: Key, flow: nat)

  /** Every flow object ever made, the table of those in use, and every datagram numbered. */
  datatype Numbers = Numbers(flows: seq<Flow>, table: map<nat, nat>, sent: seq<Sent>)

  /** A flow is made when its identifier is not in use. A removed one may still number what it had read before. */
  datatype Op = Make(id: nat) | Remove(id: nat) | Number(flow: nat)

  predicate CanDo(s: Numbers, op: Op) {
    match op
    case Make(id) => id !in s.table
    case Remove(id) => true
    case Number(f) => f < |s.flows|
  }

  function Performed(s: Numbers, op: Op): Numbers
    requires CanDo(s, op)
  {
    match op
    case Make(id) => s.(flows := s.flows + [Flow(id, 0)], table := s.table[id := |s.flows|])
    case Remove(id) => s.(table := s.table - {id})
    case Number(f) =>
      var n := s.flows[f].seqNo + 1;
      s.(flows := s.flows[f := Flow(s.flows[f].id, n)], sent := s.sent + [Sent(Key(s.flows[f].id, n), f)])
  }

  ghost predicate Works(s: Numbers, ops: seq<Op>)
    decreases |ops|
  {
    ops == [] || (CanDo(s, ops[0]) && Works(Performed(s, ops[0]), ops[1..]))
  }

  ghost function Worked(s: Numbers, ops: seq<Op>): Numbers
    requires Works(s, ops)
    decreases |ops|
  {
    if ops == [] then s else Worked(Performed(s, ops[0]), ops[1..])
  }

  const NONE: Numbers := Numbers([], map[], [])

  // ----- what every operation keeps -----

  ghost predicate SentOk(flows: seq<Flow>, d: Sent) {
    d.flow < |flows| && d.key.flow == flows[d.flow].id && 1 <= d.key.datagram <= flows[d.flow].seqNo
  }

  /** Flow object `f` has numbered its first datagram 1. */
  ghost predicate Started(sent: seq<Sent>, f: nat) {
    exists d :: 0 <= d < |sent| && sent[d].flow == f && sent[d].key.datagram == 1
  }

  ghost predicate Rising(sent: seq<Sent>) {
    forall d, e | 0 <= d < e < |sent| && sent[d].flow == sent[e].flow :: sent[d].key.datagram < sent[e].key.datagram
  }

  ghost predicate NumbersOk(s: Numbers) {
    && (forall d | 0 <= d < |s.sent| :: SentOk(s.flows, s.sent[d]))
    && Rising(s.sent)
    && (forall f | 0 <= f < |s.flows| && s.flows[f].seqNo > 0 :: Started(s.sent, f))
  }

  lemma StartedStays(sent: seq<Sent>, more: Sent, f: nat)
    requires Started(sent, f) || (more.flow == f && more.key.datagram == 1)
    ensures Started(sent + [more], f)
  {
    if Started(sent, f) {
      var d :| 0 <= d < |sent| && sent[d].flow == f && sent[d].key.datagram == 1;
      assert (sent + [more])[d] == sent[d];
    } else {
      assert (sent + [more])[|sent|] == more;
    }
  }

  lemma OpKeeps(s: Numbers, op: Op)
    requires NumbersOk(s) && CanDo(s, op)
    ensures NumbersOk(Performed(s, op))
  {
    var s' := Performed(s, op);
    if op.Number? {
      var f, last := op.flow, s'.sent[|s.sent|];
      forall d | 0 <= d < |s'.sent| ensures SentOk(s'.flows, s'.sent[d]) {
        if d < |s.sent| { assert SentOk(s.flows, s.sent[d]); }
      }
      forall d | 0 <= d < |s.sent| && s.sent[d].flow == f ensures s.sent[d].key.datagram < last.key.datagram {
        assert SentOk(s.flows, s.sent[d]);
      }
      forall g | 0 <= g < |s'.flows| && s'.flows[g].seqNo > 0 ensures Started(s'.sent, g) {
        StartedStays(s.sent, last, g);
      }
    } else {
      forall d | 0 <= d < |s'.sent| ensures SentOk(s'.flows, s'.sent[d]) { assert SentOk(s.flows, s.sent[d]); }
    }
  }

  lemma {:induction false} WorkKeeps(s: Numbers, ops: seq<Op>)
    requires NumbersOk(s) && Works(s, ops)
    ensures NumbersOk(Worked(s, ops))
    decreases |ops|
  {
    if ops != [] {
      OpKeeps(s, ops[0]);
      WorkKeeps(Performed(s, ops[0]), ops[1..]);
    }
  }

  /** Two datagrams have the same key. */
  ghost predicate SharedKey(sent: seq<Sent>) {
    exists d, e :: 0 <= d < e < |sent| && sent[d].key == sent[e].key
  }

  /** Two datagrams were numbered under one identifier by different flow objects. */
  ghost predicate MadeAnew(sent: seq<Sent>) {
    exists d, e :: 0 <= d < |sent| && 0 <= e < |sent| && sent[d].key.flow == sent[e].key.flow && sent[d].flow != sent[e].flow
  }

  /** In every run two datagrams share a key if and only if two flow objects of one identifier have numbered datagrams. */
  lemma SharedKeyExactly(ops: seq<Op>)
    requires Works(NONE, ops)
    ensures SharedKey(Worked(NONE, ops).sent) <==> MadeAnew(Worked(NONE, ops).sent)
  {
    WorkKeeps(NONE, ops);
    var s := Worked(NONE, ops);
    if SharedKey(s.sent) {
      var d, e :| 0 <= d < e < |s.sent| && s.sent[d].key == s.sent[e].key;
      assert s.sent[d].flow != s.sent[e].flow;
    }
    if MadeAnew(s.sent) { FirstShared(s); }
  }

  lemma FirstShared(s: Numbers)
    requires NumbersOk(s) && MadeAnew(s.sent)
    ensures SharedKey(s.sent)
  {
    var d, e :| 0 <= d < |s.sent| && 0 <= e < |s.sent| && s.sent[d].key.flow == s.sent[e].key.flow && s.sent[d].flow != s.sent[e].flow;
    assert SentOk(s.flows, s.sent[d]) && SentOk(s.flows, s.sent[e]);
    assert Started(s.sent, s.sent[d].flow) && Started(s.sent, s.sent[e].flow);
    var a :| 0 <= a < |s.sent| && s.sent[a].flow == s.sent[d].flow && s.sent[a].key.datagram == 1;
    var b :| 0 <= b < |s.sent| && s.sent[b].flow == s.sent[e].flow && s.sent[b].key.datagram == 1;
    assert SentOk(s.flows, s.sent[a]) && SentOk(s.flows, s.sent[b]);
    assert s.sent[a].key == s.sent[b].key;
    if a < b { assert s.sent[a].key == s.sent[b].key; } else { assert s.sent[b].key == s.sent[a].key; }
  }

  // ----- flows that are never removed -----

  ghost predicate OneFlow(s: Numbers, id: nat) {
    forall f | 0 <= f < |s.flows| && s.flows[f].id == id :: id in s.table && s.table[id] == f
  }

  lemma {:induction false} NeverRemoved(s: Numbers, ops: seq<Op>, id: nat)
    requires Works(s, ops) && OneFlow(s, id) && forall i | 0 <= i < |ops| :: ops[i] != Remove(id)
    ensures OneFlow(Worked(s, ops), id)
    decreases |ops|
  {
    if ops != [] {
      assert ops[0] != Remove(id);
      NeverRemoved(Performed(s, ops[0]), ops[1..], id);
    }
  }

  /** The keys of a flow that was never removed do not come again. */
  lemma OwnKey(ops: seq<Op>, d: nat, e: nat)
    requires Works(NONE, ops)
    requires var sent := Worked(NONE, ops).sent;
             d < |sent| && e < |sent| && d != e && forall i | 0 <= i < |ops| :: ops[i] != Remove(sent[d].key.flow)
    ensures Worked(NONE, ops).sent[d].key != Worked(NONE, ops).sent[e].key
  {
    WorkKeeps(NONE, ops);
    var s := Worked(NONE, ops);
    NeverRemoved(NONE, ops, s.sent[d].key.flow);
    assert SentOk(s.flows, s.sent[d]) && SentOk(s.flows, s.sent[e]);
  }

  /** The datagrams `g` were numbered as in `sent`. */
  ghost predicate NumberedAs(g: Grams, sent: seq<Sent>) {
    forall i | i in g :: i < |sent| && g[i].key == sent[i].key
  }

  /** So the datagrams of a flow that was never removed are never mixed with others, in any run of the reassembler: each
      is delivered, as it was sent, if and only if all its fragments were processed and none of it was dropped. */
  lemma NeverRemovedNeverMixed(ops: seq<Op>, g: Grams, steps: seq<Step>, i: nat)
    requires Works(NONE, ops) && NumberedAs(g, Worked(NONE, ops).sent) && Runs(g, EMPTY, steps)
    requires i in g && forall j | 0 <= j < |ops| :: ops[j] != Remove(g[i].key.flow)
    ensures var s := After(g, EMPTY, steps);
            && DeliveredOk(g, s.delivered, g[i].key)
            && (Reassembly.Done(s, i) <==> AllIn(g[i], s, i) && i !in s.dropped)
  {
    forall j | j in g && j != i ensures g[j].key != g[i].key { OwnKey(ops, i, j); }
    OwnKeyUnmixed(g, EMPTY, steps, i);
    OnlyOriginals(g, steps, g[i].key);
    DeliveredExactly(g, steps, i);
  }
}
