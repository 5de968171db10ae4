/** What every step of the UDP carrier keeps of one side: numbers, pending entries, slots and transmissions. */
module UdpInvariant {
  import opened Bytes
  import opened UdpWire
  import opened UdpProtocol

  type Entries = map<nat, Pending>
  type Sends = map<nat, Stage>

  /** `p` is the packet sealed under number `k` for the k-th payload. */
  ghost predicate SealedAs(l: Link, sent: seq<Data>, p: Data, k: nat) {
    1 <= k <= |sent| && p == l.out.data(k, sent[k - 1])
  }

  ghost predicate AckAs(l: Link, acked: set<nat>, p: Data, k: nat) {
    k in acked && p == l.out.ack(k)
  }

  ghost predicate Numbered(sendSeq: nat, sent: seq<Data>, nonces: seq<Data>) {
    && sendSeq == |sent| == |nonces|
    && (forall i | 0 <= i < |sent| :: |sent[i]| <= MAX_PLAINTEXT)
    && (forall i | 0 <= i < |nonces| :: nonces[i] == NonceFor(i + 1))
  }

  ghost predicate StageOk(l: Link, sent: seq<Data>, s: Stage) {
    match s
    case Holding(p) => |p| <= MAX_PLAINTEXT
    case Sealed(k, p) => SealedAs(l, sent, p, k)
    case Inserted(k, p) => SealedAs(l, sent, p, k)
    case Failing(k, _) => 1 <= k <= |sent|
    case Ending(k, _) => 1 <= k <= |sent|
  }

  ghost predicate SendsOk(l: Link, sent: seq<Data>, sending: Sends) {
    forall w | w in sending :: StageOk(l, sent, sending[w])
  }

  /** No two running sends have the same number. */
  ghost predicate Distinct(sending: Sends) {
    forall v, w | v in sending && w in sending && v != w && !sending[v].Holding? && !sending[w].Holding? ::
      sending[v].seqNo != sending[w].seqNo
  }

  /** A number not yet entered in the pending map is not there, and its packet was never transmitted. */
  ghost predicate Unstarted(sending: Sends, pending: Entries, transmits: map<nat, nat>) {
    forall w | w in sending && sending[w].Sealed? :: sending[w].seqNo !in pending && sending[w].seqNo !in transmits
  }

  ghost predicate PendingOk(l: Link, sent: seq<Data>, pending: Entries) {
    forall k | k in pending :: SealedAs(l, sent, pending[k].packet, k) && pending[k].retries <= MAX_RETRIES
  }

  ghost predicate OnWire(l: Link, sent: seq<Data>, acked: set<nat>, p: Data) {
    (exists k :: SealedAs(l, sent, p, k)) || (exists k :: AckAs(l, acked, p, k))
  }

  ghost predicate WireOk(l: Link, sent: seq<Data>, acked: set<nat>, wire: set<Data>) {
    forall p | p in wire :: OnWire(l, sent, acked, p)
  }

  /** A send that accounts for a token without an entry in the pending map. */
  predicate HasToken(s: Stage) {
    s.Holding? || s.Sealed? || (s.Failing? && s.had)
  }

  function Waiting(sending: Sends): set<nat> {
    set w | w in sending && HasToken(sending[w])
  }

  ghost predicate Conserved(slots: nat, pending: Entries, sending: Sends, releasing: bool) {
    slots == |pending| + |Waiting(sending)| + if releasing then 1 else 0
  }

  ghost predicate SlotsOk(slots: nat, pending: Entries, sending: Sends, releasing: bool, overReleased: bool) {
    slots <= MAX_PENDING && (!overReleased ==> Conserved(slots, pending, sending, releasing))
  }

  /** A failed send has taken back a token that was released already, and is about to close the session. */
  ghost predicate Overdrawn(sending: Sends) {
    exists w :: w in sending && sending[w].Ending? && !sending[w].had
  }

  /** Tokens are only ever wrong in a session that is closed or about to be. */
  ghost predicate OverOk(overReleased: bool, closed: bool, sending: Sends) {
    overReleased ==> closed || Overdrawn(sending)
  }

  /** A send that has yet to write its packet for the first time. */
  predicate Unwritten(s: Stage) {
    s.Sealed? || s.Inserted?
  }

  /** A running send still owes the first transmission of packet `k`. */
  ghost predicate Owes(sending: Sends, k: nat) {
    exists w :: w in sending && Unwritten(sending[w]) && sending[w].seqNo == k
  }

  /** Transmissions made or owed never exceed one plus the retries counted, at most 19 in all. */
  ghost predicate WithinBudget(pending: Entries, sending: Sends, transmits: map<nat, nat>, k: nat) {
    Times(transmits, k) + (if Owes(sending, k) then 1 else 0)
      <= if k in pending then 1 + pending[k].retries else 1 + MAX_RETRIES
  }

  ghost predicate BudgetOk(n: nat, pending: Entries, sending: Sends, transmits: map<nat, nat>) {
    && (forall k | k in transmits :: 1 <= k <= n)
    && (forall k | 1 <= k <= n :: WithinBudget(pending, sending, transmits, k))
  }

  ghost predicate Local(l: Link, x: Side) {
    && Numbered(x.ep.sendSeq, x.sent, x.nonces)
    && SendsOk(l, x.sent, x.sending)
    && Distinct(x.sending)
    && Unstarted(x.sending, x.ep.pending, x.transmits)
    && PendingOk(l, x.sent, x.ep.pending)
    && WireOk(l, x.sent, x.acked, x.wire)
    && SlotsOk(x.ep.slots, x.ep.pending, x.sending, x.ep.releasing, x.overReleased)
    && OverOk(x.overReleased, x.ep.closed, x.sending)
    && BudgetOk(|x.sent|, x.ep.pending, x.sending, x.transmits)
  }

  /** Fewer than 2^64 payloads were numbered, so the sender's 64-bit counter has not wrapped. */
  ghost predicate Counts(x: Side) {
    |x.sent| < UINT64
  }

  /** Fewer than 2^64 - 1 payloads were numbered, so the peer's counter of expected numbers has not wrapped either. */
  ghost predicate Fits(x: Side) {
    |x.sent| + 1 < UINT64
  }

  // ----- cardinalities -----

  lemma Removed<T>(m: map<nat, T>, k: nat)
    ensures |m - {k}| == |m| - (if k in m then 1 else 0)
  {
    assert (m - {k}).Keys == m.Keys - {k};
    assert |m - {k}| == |(m - {k}).Keys| && |m| == |m.Keys|;
  }

  lemma Added<T>(m: map<nat, T>, k: nat, v: T)
    requires k !in m
    ensures |m[k := v]| == |m| + 1
  {
    assert m[k := v].Keys == m.Keys + {k};
    assert |m[k := v]| == |m[k := v].Keys| && |m| == |m.Keys|;
  }

  lemma SameKeys<T>(m: map<nat, T>, n: map<nat, T>)
    requires m.Keys == n.Keys
    ensures |m| == |n|
  {
    assert |m| == |m.Keys| && |n| == |n.Keys|;
  }

  // ----- transmissions owed -----

  lemma SameOwed(sending: Sends, w: nat, s: Stage)
    requires s.Holding? && w !in sending
    ensures forall k :: Owes(sending[w := s], k) == Owes(sending, k)
  {
    var after := sending[w := s];
    forall k ensures Owes(after, k) == Owes(sending, k) {
      if Owes(sending, k) {
        var v :| v in sending && Unwritten(sending[v]) && sending[v].seqNo == k;
        assert v in after && after[v] == sending[v];
      }
    }
  }

  lemma MovedOwed(sending: Sends, w: nat, s: Stage)
    requires w in sending && Unwritten(s) && Unwritten(sending[w]) && s.seqNo == sending[w].seqNo
    ensures forall k :: Owes(sending[w := s], k) == Owes(sending, k)
  {
    var after := sending[w := s];
    forall k ensures Owes(after, k) == Owes(sending, k) {
      if Owes(sending, k) {
        var v :| v in sending && Unwritten(sending[v]) && sending[v].seqNo == k;
        assert v in after && after[v].seqNo == k;
      }
      if Owes(after, k) {
        var v :| v in after && Unwritten(after[v]) && after[v].seqNo == k;
        assert v in sending && sending[v].seqNo == k;
      }
    }
  }

  lemma SealedOwed(sending: Sends, w: nat, s: Stage)
    requires w in sending && sending[w].Holding? && s.Sealed?
    ensures forall k :: Owes(sending[w := s], k) == (Owes(sending, k) || k == s.seqNo)
  {
    var after := sending[w := s];
    forall k ensures Owes(after, k) == (Owes(sending, k) || k == s.seqNo) {
      if Owes(sending, k) {
        var v :| v in sending && Unwritten(sending[v]) && sending[v].seqNo == k;
        assert v in after && after[v] == sending[v];
      }
      if k == s.seqNo { assert w in after && after[w].seqNo == k; }
    }
  }

  lemma PaidOwed(sending: Sends, w: nat, after: Sends)
    requires w in sending && sending[w].Inserted? && Distinct(sending)
    requires after == sending - {w} || (w in after && after == sending[w := after[w]] && !Unwritten(after[w]))
    ensures forall k :: Owes(after, k) == (Owes(sending, k) && k != sending[w].seqNo)
  {
    forall k ensures Owes(after, k) == (Owes(sending, k) && k != sending[w].seqNo) {
      if Owes(sending, k) && k != sending[w].seqNo {
        var v :| v in sending && Unwritten(sending[v]) && sending[v].seqNo == k;
        assert v in after && after[v] == sending[v];
      }
    }
  }

  lemma OverKeeps(over: bool, closed: bool, sending: Sends, w: nat, s: Stage)
    requires OverOk(over, closed, sending) && (w in sending ==> !sending[w].Ending?)
    ensures OverOk(over, closed, sending[w := s]) && OverOk(over, closed, sending - {w})
  {
    if v :| v in sending && sending[v].Ending? && !sending[v].had {
      assert v in sending[w := s] && sending[w := s][v] == sending[v];
      assert v in sending - {w} && (sending - {w})[v] == sending[v];
    }
  }

  // ----- one lemma per action -----

  lemma SameBudget(n: nat, pending: Entries, sending: Sends, after: Sends, transmits: map<nat, nat>)
    requires BudgetOk(n, pending, sending, transmits) && forall k :: Owes(after, k) == Owes(sending, k)
    ensures BudgetOk(n, pending, after, transmits)
  {
    forall k | 1 <= k <= n ensures WithinBudget(pending, after, transmits, k) {
      assert WithinBudget(pending, sending, transmits, k);
    }
  }

  lemma AcquireSlots(slots: nat, pending: Entries, sending: Sends, releasing: bool, over: bool, w: nat, p: Data)
    requires SlotsOk(slots, pending, sending, releasing, over) && slots < MAX_PENDING && w !in sending
    ensures SlotsOk(slots + 1, pending, sending[w := Holding(p)], releasing, over)
  {
    assert Waiting(sending[w := Holding(p)]) == Waiting(sending) + {w};
  }

  lemma AcquireKeeps(l: Link, x: Side, y: Side, w: nat, p: Data)
    requires Local(l, x) && Enabled(l, x, y, Acquire(w, p))
    ensures Local(l, Apply(l, x, y, Acquire(w, p)))
  {
    var after := x.sending[w := Holding(p)];
    AcquireSlots(x.ep.slots, x.ep.pending, x.sending, x.ep.releasing, x.overReleased, w, p);
    OverKeeps(x.overReleased, x.ep.closed, x.sending, w, Holding(p));
    SameOwed(x.sending, w, Holding(p));
    SameBudget(|x.sent|, x.ep.pending, x.sending, after, x.transmits);
  }

  lemma SealGrows(l: Link, x: Side, q: Data)
    requires SendsOk(l, x.sent, x.sending) && PendingOk(l, x.sent, x.ep.pending) && WireOk(l, x.sent, x.acked, x.wire)
    ensures var sent := x.sent + [q];
            SendsOk(l, sent, x.sending) && PendingOk(l, sent, x.ep.pending) && WireOk(l, sent, x.acked, x.wire)
  {
    var sent := x.sent + [q];
    forall p, k | SealedAs(l, x.sent, p, k) ensures SealedAs(l, sent, p, k) { }
    forall w | w in x.sending ensures StageOk(l, sent, x.sending[w]) {
      assert StageOk(l, x.sent, x.sending[w]);
    }
    forall p | p in x.wire ensures OnWire(l, sent, x.acked, p) {
      assert OnWire(l, x.sent, x.acked, p);
    }
  }

  lemma SealBudget(n: nat, pending: Entries, sending: Sends, transmits: map<nat, nat>, w: nat, s: Stage)
    requires BudgetOk(n, pending, sending, transmits) && w in sending && sending[w].Holding?
    requires s.Sealed? && s.seqNo == n + 1 && n + 1 !in pending && !Owes(sending, n + 1)
    ensures BudgetOk(n + 1, pending, sending[w := s], transmits)
  {
    SealedOwed(sending, w, s);
    var after := sending[w := s];
    forall k | 1 <= k <= n + 1 ensures WithinBudget(pending, after, transmits, k) {
      if k <= n { assert WithinBudget(pending, sending, transmits, k); }
    }
  }

  lemma NumbersUsed(l: Link, x: Side)
    requires Local(l, x)
    ensures forall w | w in x.sending && !x.sending[w].Holding? :: x.sending[w].seqNo <= |x.sent|
    ensures forall k | k in x.ep.pending :: 1 <= k <= |x.sent|
  {
    forall w | w in x.sending && !x.sending[w].Holding? ensures x.sending[w].seqNo <= |x.sent| {
      assert StageOk(l, x.sent, x.sending[w]);
    }
    forall k | k in x.ep.pending ensures 1 <= k <= |x.sent| {
      assert SealedAs(l, x.sent, x.ep.pending[k].packet, k);
    }
  }

  lemma SealNumbered(l: Link, x: Side, w: nat)
    requires Numbered(x.ep.sendSeq, x.sent, x.nonces) && w in x.sending && x.sending[w].Holding? && Counts(AfterSeal(l, x, w))
    requires |x.sending[w].payload| <= MAX_PLAINTEXT
    ensures var x' := AfterSeal(l, x, w); Numbered(x'.ep.sendSeq, x'.sent, x'.nonces) && NextNumber(x.ep) == |x.sent| + 1
  {
    assert NextNumber(x.ep) == |x.sent| + 1;
  }

  lemma SealSends(l: Link, x: Side, w: nat)
    requires Local(l, x) && w in x.sending && x.sending[w].Holding? && Counts(AfterSeal(l, x, w))
    ensures var x' := AfterSeal(l, x, w);
            SendsOk(l, x'.sent, x'.sending) && PendingOk(l, x'.sent, x.ep.pending) && WireOk(l, x'.sent, x.acked, x.wire)
    ensures var x' := AfterSeal(l, x, w);
            Numbered(x'.ep.sendSeq, x'.sent, x'.nonces)
  {
    var q := x.sending[w].payload;
    assert StageOk(l, x.sent, x.sending[w]);
    SealNumbered(l, x, w);
    SealGrows(l, x, q);
    SealedStage(l, x.sent, x.sending, w, q);
  }

  lemma SealedStage(l: Link, sent: seq<Data>, sending: Sends, w: nat, q: Data)
    requires SendsOk(l, sent + [q], sending)
    ensures SendsOk(l, sent + [q], sending[w := Sealed(|sent| + 1, l.out.data(|sent| + 1, q))])
  {
    var k := |sent| + 1;
    assert SealedAs(l, sent + [q], l.out.data(k, q), k);
  }

  lemma SealKeeps(l: Link, x: Side, w: nat)
    requires Local(l, x) && w in x.sending && x.sending[w].Holding? && Counts(AfterSeal(l, x, w))
    ensures Local(l, AfterSeal(l, x, w))
  {
    var x' := AfterSeal(l, x, w);
    var s := x'.sending[w];
    SealSends(l, x, w);
    NumbersUsed(l, x);
    assert !Owes(x.sending, |x'.sent|);
    SealBudget(|x.sent|, x.ep.pending, x.sending, x.transmits, w, s);
    OverKeeps(x.overReleased, x.ep.closed, x.sending, w, s);
    assert Waiting(x'.sending) == Waiting(x.sending);
  }

  lemma InsertSlots(slots: nat, pending: Entries, sending: Sends, releasing: bool, over: bool, w: nat, d: Pending)
    requires SlotsOk(slots, pending, sending, releasing, over) && w in sending && sending[w].Sealed? && sending[w].seqNo !in pending
    ensures var s := sending[w];
            SlotsOk(slots, pending[s.seqNo := d], sending[w := Inserted(s.seqNo, s.packet)], releasing, over)
  {
    var s := sending[w];
    Added(pending, s.seqNo, d);
    assert Waiting(sending) == Waiting(sending[w := Inserted(s.seqNo, s.packet)]) + {w};
  }

  lemma InsertBudget(n: nat, pending: Entries, sending: Sends, transmits: map<nat, nat>, w: nat, d: Pending)
    requires BudgetOk(n, pending, sending, transmits) && w in sending && sending[w].Sealed?
    requires sending[w].seqNo !in transmits
    ensures var s := sending[w];
            BudgetOk(n, pending[s.seqNo := d], sending[w := Inserted(s.seqNo, s.packet)], transmits)
  {
    var s := sending[w];
    var entered, after := pending[s.seqNo := d], sending[w := Inserted(s.seqNo, s.packet)];
    MovedOwed(sending, w, Inserted(s.seqNo, s.packet));
    forall k | 1 <= k <= n ensures WithinBudget(entered, after, transmits, k) {
      assert WithinBudget(pending, sending, transmits, k);
    }
  }

  lemma InsertKeeps(l: Link, x: Side, w: nat, now: int)
    requires Local(l, x) && w in x.sending && x.sending[w].Sealed?
    ensures Local(l, AfterInsert(x, w, now))
  {
    var k0, packet := x.sending[w].seqNo, x.sending[w].packet;
    var after := x.sending[w := Inserted(k0, packet)];
    assert StageOk(l, x.sent, x.sending[w]);
    assert SendsOk(l, x.sent, after) by {
      forall v | v in after ensures StageOk(l, x.sent, after[v]) { assert StageOk(l, x.sent, x.sending[v]); }
    }
    InsertSlots(x.ep.slots, x.ep.pending, x.sending, x.ep.releasing, x.overReleased, w, Pending(packet, now, 0));
    OverKeeps(x.overReleased, x.ep.closed, x.sending, w, Inserted(k0, packet));
    InsertBudget(|x.sent|, x.ep.pending, x.sending, x.transmits, w, Pending(packet, now, 0));
  }

  /** A send that wrote its packet has made the transmission it owed. */
  lemma PaidBudget(n: nat, pending: Entries, sending: Sends, transmits: map<nat, nat>, w: nat)
    requires BudgetOk(n, pending, sending, transmits) && Distinct(sending) && w in sending && sending[w].Inserted?
    requires 1 <= sending[w].seqNo <= n
    ensures var k := sending[w].seqNo;
            BudgetOk(n, pending, sending - {w}, transmits[k := Times(transmits, k) + 1])
  {
    var k0 := sending[w].seqNo;
    var after, made := sending - {w}, transmits[k0 := Times(transmits, k0) + 1];
    PaidOwed(sending, w, after);
    assert Owes(sending, k0);
    forall k | 1 <= k <= n ensures WithinBudget(pending, after, made, k) {
      assert WithinBudget(pending, sending, transmits, k);
    }
  }

  /** Dropping an entry, or a send that failed to write, only loosens the budget. */
  lemma LooserBudget(n: nat, pending: Entries, sending: Sends, transmits: map<nat, nat>, k0: nat, after: Sends)
    requires BudgetOk(n, pending, sending, transmits) && forall k | k in pending :: pending[k].retries <= MAX_RETRIES
    requires forall k :: Owes(after, k) ==> Owes(sending, k)
    ensures BudgetOk(n, pending - {k0}, after, transmits)
  {
    forall k | 1 <= k <= n ensures WithinBudget(pending - {k0}, after, transmits, k) {
      assert WithinBudget(pending, sending, transmits, k);
    }
  }

  lemma WriteSends(l: Link, x: Side, w: nat)
    requires Local(l, x) && w in x.sending && x.sending[w].Inserted?
    ensures SendsOk(l, x.sent, x.sending - {w}) && Waiting(x.sending - {w}) == Waiting(x.sending)
    ensures Distinct(x.sending - {w}) && 1 <= x.sending[w].seqNo <= |x.sent|
    ensures WireOk(l, x.sent, x.acked, x.wire + {x.sending[w].packet})
  {
    var after := x.sending - {w};
    forall v | v in after ensures StageOk(l, x.sent, after[v]) { assert StageOk(l, x.sent, x.sending[v]); }
    assert SealedAs(l, x.sent, x.sending[w].packet, x.sending[w].seqNo) by {
      assert StageOk(l, x.sent, x.sending[w]);
    }
  }

  lemma PaidUnstarted(sending: Sends, pending: Entries, transmits: map<nat, nat>, w: nat, n: nat)
    requires Unstarted(sending, pending, transmits) && Distinct(sending) && w in sending && sending[w].Inserted?
    ensures Unstarted(sending - {w}, pending, transmits[sending[w].seqNo := n])
  {
  }

  lemma WrittenKeeps(l: Link, x: Side, w: nat)
    requires Local(l, x) && w in x.sending && x.sending[w].Inserted?
    ensures Local(l, AfterWrite(x, w, true))
  {
    var k0 := x.sending[w].seqNo;
    WriteSends(l, x, w);
    OverKeeps(x.overReleased, x.ep.closed, x.sending, w, x.sending[w]);
    PaidBudget(|x.sent|, x.ep.pending, x.sending, x.transmits, w);
    PaidUnstarted(x.sending, x.ep.pending, x.transmits, w, Times(x.transmits, k0) + 1);
  }

  lemma FailSlots(slots: nat, pending: Entries, sending: Sends, releasing: bool, w: nat)
    requires w in sending && sending[w].Inserted? && Conserved(slots, pending, sending, releasing)
    ensures var k := sending[w].seqNo;
            Conserved(slots, pending - {k}, sending[w := Failing(k, k in pending)], releasing)
  {
    var k := sending[w].seqNo;
    Removed(pending, k);
    var after := sending[w := Failing(k, k in pending)];
    if k in pending {
      assert Waiting(after) == Waiting(sending) + {w};
    } else {
      assert Waiting(after) == Waiting(sending);
    }
  }

  lemma WriteFailKeeps(l: Link, x: Side, w: nat)
    requires Local(l, x) && w in x.sending && x.sending[w].Inserted?
    ensures Local(l, AfterWrite(x, w, false))
  {
    var k0, x' := x.sending[w].seqNo, AfterWrite(x, w, false);
    StagesKeep(l, x, w, x'.sending[w]);
    if !x.overReleased { FailSlots(x.ep.slots, x.ep.pending, x.sending, x.ep.releasing, w); }
    OverKeeps(x.overReleased, x.ep.closed, x.sending, w, x'.sending[w]);
    PaidOwed(x.sending, w, x'.sending);
    LooserBudget(|x.sent|, x.ep.pending, x.sending, x.transmits, k0, x'.sending);
  }

  /** A send moves on without changing its number. */
  lemma StagesKeep(l: Link, x: Side, w: nat, s: Stage)
    requires Local(l, x) && w in x.sending && !x.sending[w].Holding? && (s.Failing? || s.Ending?)
    requires s.seqNo == x.sending[w].seqNo
    ensures SendsOk(l, x.sent, x.sending[w := s]) && Distinct(x.sending[w := s])
  {
    var after := x.sending[w := s];
    forall v | v in after ensures StageOk(l, x.sent, after[v]) { assert StageOk(l, x.sent, x.sending[v]); }
  }

  lemma TakeBackSlots(slots: nat, pending: Entries, sending: Sends, releasing: bool, w: nat)
    requires w in sending && sending[w].Failing? && slots > 0 && Conserved(slots, pending, sending, releasing)
    ensures var s := sending[w];
            Conserved(slots - 1, pending, sending[w := Ending(s.seqNo, s.had)], releasing) <==> s.had
  {
    var s := sending[w];
    var after := sending[w := Ending(s.seqNo, s.had)];
    assert Waiting(sending) == Waiting(after) + if s.had then {w} else {};
  }

  lemma StoppedOwed(sending: Sends, w: nat, after: Sends)
    requires w in sending && !Unwritten(sending[w])
    requires after == sending - {w} || (w in after && after == sending[w := after[w]] && !Unwritten(after[w]))
    ensures forall k :: Owes(after, k) == Owes(sending, k)
  {
    forall k ensures Owes(after, k) == Owes(sending, k) {
      if Owes(sending, k) {
        var v :| v in sending && Unwritten(sending[v]) && sending[v].seqNo == k;
        assert v in after && after[v] == sending[v];
      }
    }
  }

  lemma TakeBackKeeps(l: Link, x: Side, w: nat)
    requires Local(l, x) && w in x.sending && x.sending[w].Failing? && x.ep.slots > 0
    ensures Local(l, AfterTakeBack(x, w))
  {
    var x' := AfterTakeBack(x, w);
    StagesKeep(l, x, w, x'.sending[w]);
    if !x.overReleased { TakeBackSlots(x.ep.slots, x.ep.pending, x.sending, x.ep.releasing, w); }
    OverKeeps(x.overReleased, x.ep.closed, x.sending, w, x'.sending[w]);
    if !x.sending[w].had { assert x'.sending[w].Ending? && !x'.sending[w].had; }
    StoppedOwed(x.sending, w, x'.sending);
    SameBudget(|x.sent|, x.ep.pending, x.sending, x'.sending, x.transmits);
  }

  lemma FinishKeeps(l: Link, x: Side, w: nat)
    requires Local(l, x) && w in x.sending && x.sending[w].Ending?
    ensures Local(l, AfterFinish(x, w))
  {
    var after := x.sending - {w};
    forall v | v in after ensures StageOk(l, x.sent, after[v]) { assert StageOk(l, x.sent, x.sending[v]); }
    assert Waiting(after) == Waiting(x.sending);
    StoppedOwed(x.sending, w, after);
    SameBudget(|x.sent|, x.ep.pending, x.sending, after, x.transmits);
  }

  lemma TickEntries(l: Link, x: Side, now: int, bumped: set<nat>, written: set<nat>)
    requires Local(l, x) && TickChoice(x.ep, now, bumped, written)
    ensures var x' := AfterTick(x, now, bumped, written);
            && PendingOk(l, x.sent, x'.ep.pending)
            && SlotsOk(x.ep.slots, x'.ep.pending, x.sending, x.ep.releasing, x.overReleased)
            && WireOk(l, x.sent, x.acked, x'.wire)
  {
    var x' := AfterTick(x, now, bumped, written);
    var pending := Bump(x.ep.pending, bumped, now);
    SameKeys(pending, x.ep.pending);
    forall k | k in pending
      ensures SealedAs(l, x.sent, pending[k].packet, k) && pending[k].retries <= MAX_RETRIES
    {
      assert SealedAs(l, x.sent, x.ep.pending[k].packet, k);
      assert k in bumped ==> k !in Exhausted(x.ep, now);
    }
    forall q | q in x'.wire ensures OnWire(l, x.sent, x.acked, q) {
      if q !in x.wire {
        var k :| k in written && q == x.ep.pending[k].packet;
        assert SealedAs(l, x.sent, q, k);
      }
    }
  }

  lemma TickBudget(n: nat, e: Endpoint, sending: Sends, transmits: map<nat, nat>, now: int, bumped: set<nat>, written: set<nat>)
    requires BudgetOk(n, e.pending, sending, transmits) && TickChoice(e, now, bumped, written)
    requires forall k | k in e.pending :: 1 <= k <= n
    ensures BudgetOk(n, Bump(e.pending, bumped, now), sending, Repeated(transmits, written))
  {
    forall k | 1 <= k <= n ensures WithinBudget(Bump(e.pending, bumped, now), sending, Repeated(transmits, written), k) {
      assert WithinBudget(e.pending, sending, transmits, k);
    }
  }

  lemma TickKeeps(l: Link, x: Side, now: int, bumped: set<nat>, written: set<nat>)
    requires Local(l, x) && TickChoice(x.ep, now, bumped, written)
    ensures Local(l, AfterTick(x, now, bumped, written))
  {
    TickEntries(l, x, now, bumped, written);
    NumbersUsed(l, x);
    TickBudget(|x.sent|, x.ep, x.sending, x.transmits, now, bumped, written);
    assert Unstarted(x.sending, Bump(x.ep.pending, bumped, now), Repeated(x.transmits, written));
  }

  /** Receiving data never touches the sender half. */
  lemma DrainSender(e: Endpoint, room: nat)
    ensures var d := Drain(e, room);
            && d.sendSeq == e.sendSeq && d.pending == e.pending && d.slots == e.slots && d.releasing == e.releasing
            && (e.closed ==> d.closed)
    decreases e.reorder.Keys
  {
  }

  lemma AcceptSender(e: Endpoint, k: nat, p: Data, room: nat)
    ensures var d := Accept(e, k, p, room);
            && d.sendSeq == e.sendSeq && d.pending == e.pending && d.slots == e.slots && d.releasing == e.releasing
            && (e.closed ==> d.closed)
  {
    if k == e.expected && room > 0 {
      DrainSender(e.(published := e.published + [p], expected := (e.expected + 1) % UINT64), room - 1);
    }
  }

  lemma AckKeeps(l: Link, x: Side, k0: nat)
    requires Local(l, x) && !x.ep.releasing
    ensures Local(l, x.(ep := Acked(x.ep, k0)))
  {
    if k0 in x.ep.pending {
      Removed(x.ep.pending, k0);
      LooserBudget(|x.sent|, x.ep.pending, x.sending, x.transmits, k0, x.sending);
    }
  }

  lemma DeliverKeeps(l: Link, x: Side, packet: Data, ackOk: bool, room: nat)
    requires Local(l, x) && !x.ep.releasing
    ensures Local(l, AfterDeliver(l, x, packet, ackOk, room))
  {
    match l.inc.read(packet)
    case Junk =>
    case Ack(k0) =>
      AckKeeps(l, x, k0);
    case Payload(k0, p) =>
      AcceptSender(x.ep, k0, p, room);
      var acked, wire := x.acked + {k0}, x.wire + {l.out.ack(k0)};
      forall q | q in wire ensures OnWire(l, x.sent, acked, q) {
        if q in x.wire {
          assert OnWire(l, x.sent, x.acked, q);
          if k :| AckAs(l, x.acked, q, k) { assert AckAs(l, acked, q, k); }
        } else {
          assert AckAs(l, acked, q, k0);
        }
      }
  }

  lemma LocalStep(l: Link, x: Side, y: Side, a: Action)
    requires Local(l, x) && Enabled(l, x, y, a) && Counts(Apply(l, x, y, a))
    ensures Local(l, Apply(l, x, y, a))
  {
    match a
    case Acquire(w, p) => AcquireKeeps(l, x, y, w, p);
    case Seal(w) => SealKeeps(l, x, w);
    case Insert(w, now) => InsertKeeps(l, x, w, now);
    case Write(w, ok) => if ok { WrittenKeeps(l, x, w); } else { WriteFailKeeps(l, x, w); }
    case TakeBack(w) => TakeBackKeeps(l, x, w);
    case Finish(w) => FinishKeeps(l, x, w);
    case Deliver(packet, ackOk, room) => DeliverKeeps(l, x, packet, ackOk, room);
    case TakeAcked =>
    case Tick(now, bumped, written) => TickKeeps(l, x, now, bumped, written);
    case Close =>
  }
}
