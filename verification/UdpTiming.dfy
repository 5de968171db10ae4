/** When packets of the UDP carrier are retransmitted, by the times at which they were entered and counted. */
module UdpTiming {
  import opened UdpProtocol
  import opened UdpInvariant
  import opened UdpDelivery
  import opened UdpTheorems

  /** Successive times are at least 350 ms apart. */
  ghost predicate Spaced(times: seq<int>) {
    forall i, j | 0 <= i < j < |times| :: times[j] - times[i] >= RETRANSMIT_AFTER * (j - i)
  }

  ghost predicate EntryTimed(stamps: map<nat, seq<int>>, k: nat, d: Pending) {
    k in stamps && |stamps[k]| == d.retries + 1 && stamps[k][d.retries] == d.last
  }

  ghost predicate StampsOk(n: nat, stamps: map<nat, seq<int>>) {
    forall k | k in stamps :: 1 <= k <= n && Spaced(stamps[k])
  }

  ghost predicate EntriesTimed(pending: Entries, stamps: map<nat, seq<int>>) {
    forall k | k in pending :: EntryTimed(stamps, k, pending[k])
  }

  ghost predicate NotStamped(sending: Sends, stamps: map<nat, seq<int>>) {
    forall w | w in sending && sending[w].Sealed? :: sending[w].seqNo !in stamps
  }

  ghost predicate Timed(x: Side) {
    StampsOk(|x.sent|, x.stamps) && EntriesTimed(x.ep.pending, x.stamps) && NotStamped(x.sending, x.stamps)
  }

  lemma OneLater(times: seq<int>, now: int)
    requires Spaced(times) && (times != [] ==> now - times[|times| - 1] >= RETRANSMIT_AFTER)
    ensures Spaced(times + [now])
  {
    var after := times + [now];
    forall i, j | 0 <= i < j < |after| ensures after[j] - after[i] >= RETRANSMIT_AFTER * (j - i) {
      if j == |times| && i < j - 1 { assert times[j - 1] - times[i] >= RETRANSMIT_AFTER * (j - 1 - i); }
    }
  }

  lemma InsertTimed(l: Link, x: Side, w: nat, now: int)
    requires Local(l, x) && Timed(x) && w in x.sending && x.sending[w].Sealed?
    ensures Timed(AfterInsert(x, w, now))
  {
    var k := x.sending[w].seqNo;
    assert StageOk(l, x.sent, x.sending[w]);
    OneLater([], now);
    assert Log(x.stamps, k) + [now] == [] + [now];
  }

  lemma TickTimed(x: Side, now: int, bumped: set<nat>, written: set<nat>)
    requires Timed(x) && TickChoice(x.ep, now, bumped, written)
    ensures Timed(AfterTick(x, now, bumped, written))
  {
    var stamps, pending := Stamped(x.stamps, bumped, now), Bump(x.ep.pending, bumped, now);
    forall k | k in bumped ensures k in x.ep.pending && k in x.stamps && Spaced(x.stamps[k] + [now]) {
      assert EntryTimed(x.stamps, k, x.ep.pending[k]);
      OneLater(x.stamps[k], now);
    }
    forall k | k in stamps ensures 1 <= k <= |x.sent| && Spaced(stamps[k]) {
      assert k in x.stamps;
      if k !in bumped { assert stamps[k] == x.stamps[k]; }
    }
    forall k | k in pending ensures EntryTimed(stamps, k, pending[k]) {
      assert EntryTimed(x.stamps, k, x.ep.pending[k]);
      if k !in bumped { assert stamps[k] == x.stamps[k]; }
    }
  }

  lemma SealTimed(x: Side, x': Side, w: nat)
    requires Timed(x) && x'.stamps == x.stamps && x'.ep.pending == x.ep.pending && |x'.sent| == |x.sent| + 1
    requires w in x'.sending && x'.sending == x.sending[w := x'.sending[w]]
    requires x'.sending[w].Sealed? && x'.sending[w].seqNo == |x.sent| + 1
    ensures Timed(x')
  {
    forall k | k in x'.stamps ensures 1 <= k <= |x'.sent| && Spaced(x'.stamps[k]) { }
  }

  /** No entry is added, none is changed, nothing is stamped and nothing is sealed. */
  ghost predicate Untimed(x: Side, x': Side) {
    && x'.stamps == x.stamps && x'.sent == x.sent
    && (forall k | k in x'.ep.pending :: k in x.ep.pending && x'.ep.pending[k] == x.ep.pending[k])
    && (forall w | w in x'.sending && x'.sending[w].Sealed? :: w in x.sending && x'.sending[w] == x.sending[w])
  }

  lemma OtherTimed(l: Link, x: Side, y: Side, a: Action)
    requires Enabled(l, x, y, a) && !a.Seal? && !a.Insert? && !a.Tick?
    ensures Untimed(x, Apply(l, x, y, a))
  {
    if a.Deliver? { DeliverClosed(x.ep, l.inc.read(a.packet), a.ackOk, a.room); }
  }

  lemma UntimedKeeps(x: Side, x': Side)
    requires Timed(x) && Untimed(x, x')
    ensures Timed(x')
  {
    forall k | k in x'.ep.pending ensures EntryTimed(x'.stamps, k, x'.ep.pending[k]) {
      assert EntryTimed(x.stamps, k, x.ep.pending[k]);
    }
  }

  lemma SealIsTimed(l: Link, x: Side, w: nat)
    requires Local(l, x) && Timed(x) && w in x.sending && x.sending[w].Holding? && Counts(AfterSeal(l, x, w))
    ensures Timed(AfterSeal(l, x, w))
  {
    assert NextNumber(x.ep) == |x.sent| + 1;
    SealTimed(x, AfterSeal(l, x, w), w);
  }

  lemma TimedStep(l: Link, x: Side, y: Side, a: Action)
    requires Local(l, x) && Timed(x) && Enabled(l, x, y, a) && Counts(Apply(l, x, y, a))
    ensures Timed(Apply(l, x, y, a))
  {
    match a
    case Seal(w) =>
      SealIsTimed(l, x, w);
    case Insert(w, now) => InsertTimed(l, x, w, now);
    case Tick(now, bumped, written) => TickTimed(x, now, bumped, written);
    case _ =>
      OtherTimed(l, x, y, a);
      UntimedKeeps(x, Apply(l, x, y, a));
  }

  lemma {:induction false} TimedRun(l: Link, n: Net, steps: seq<Step>)
    requires Local(l, n.x) && Timed(n.x) && Runs(l, n, steps) && Counts(After(l, n, steps).x)
    ensures Timed(After(l, n, steps).x)
    decreases |steps|
  {
    if steps != [] {
      var s := steps[0];
      RunGrows(l, Do(l, n, s), steps[1..]);
      if s.left {
        LocalStep(l, n.x, n.y, s.action);
        TimedStep(l, n.x, n.y, s.action);
      }
      TimedRun(l, Do(l, n, s), steps[1..]);
    }
  }

  lemma TimedReached(l: Link, steps: seq<Step>)
    requires Counted(l, steps)
    ensures Local(l, End(l, steps).x) && Timed(End(l, steps).x)
  {
    LocalReached(l, steps);
    InitialInv(l);
    TimedRun(l, INITIAL, steps);
  }

  /** In every run, the times at which a packet was entered and retransmitted are at least 350 ms apart. */
  lemma RetransmissionsSpaced(l: Link, steps: seq<Step>, k: nat)
    requires Counted(l, steps)
    ensures Spaced(Log(End(l, steps).x.stamps, k))
  {
    TimedReached(l, steps);
  }

  /** The pending packet was entered and then counted 18 times, the last time at least 350 ms ago. */
  ghost predicate SpentAt(x: Side, k: nat, now: int) {
    k in x.ep.pending && |Log(x.stamps, k)| == MAX_RETRIES + 1 && now - Log(x.stamps, k)[MAX_RETRIES] >= RETRANSMIT_AFTER
  }

  lemma ExhaustedIs(x: Side, k: nat, now: int)
    requires k in x.ep.pending && EntryTimed(x.stamps, k, x.ep.pending[k]) && x.ep.pending[k].retries <= MAX_RETRIES
    ensures k in Exhausted(x.ep, now) <==> SpentAt(x, k, now)
    ensures k in Due(x.ep, now) <==> now - Last(Log(x.stamps, k)) >= RETRANSMIT_AFTER
  {
  }

  lemma TickCloses(x: Side, now: int, bumped: set<nat>)
    requires EntriesTimed(x.ep.pending, x.stamps) && !x.ep.closed
    requires forall k | k in x.ep.pending :: x.ep.pending[k].retries <= MAX_RETRIES
    ensures Ticked(x.ep, now, bumped).closed <==> exists k :: SpentAt(x, k, now)
  {
    forall k | k in x.ep.pending ensures k in Exhausted(x.ep, now) <==> SpentAt(x, k, now) {
      assert EntryTimed(x.stamps, k, x.ep.pending[k]);
      ExhaustedIs(x, k, now);
    }
    if Exhausted(x.ep, now) != {} {
      var k :| k in Exhausted(x.ep, now);
      assert SpentAt(x, k, now);
    }
  }

  lemma TickStamps(x: Side, now: int, bumped: set<nat>, k: nat)
    requires k in x.ep.pending && EntryTimed(x.stamps, k, x.ep.pending[k]) && x.ep.pending[k].retries <= MAX_RETRIES
    requires bumped == Due(x.ep, now)
    ensures Log(Stamped(x.stamps, bumped, now), k)
            == Log(x.stamps, k) + if now - Last(Log(x.stamps, k)) >= RETRANSMIT_AFTER then [now] else []
  {
    ExhaustedIs(x, k, now);
  }

  /** In every run, a tick closes the session if and only if some pending packet is spent; otherwise it retransmits exactly
      the pending packets that were entered or last retransmitted at least 350 ms ago. */
  lemma TickExact(l: Link, steps: seq<Step>, now: int, bumped: set<nat>, written: set<nat>)
    requires Counted(l, steps) && Can(l, End(l, steps), Step(true, Tick(now, bumped, written)))
    ensures var x := End(l, steps).x;
            var x' := AfterTick(x, now, bumped, written);
            && (x'.ep.closed <==> exists k :: SpentAt(x, k, now))
            && (!x'.ep.closed ==> forall k | k in x.ep.pending ::
                  Log(x.stamps, k) != [] &&
                  Log(x'.stamps, k) == Log(x.stamps, k) + if now - Last(Log(x.stamps, k)) >= RETRANSMIT_AFTER then [now] else [])
  {
    TimedReached(l, steps);
    var x := End(l, steps).x;
    forall k | k in x.ep.pending ensures x.ep.pending[k].retries <= MAX_RETRIES && EntryTimed(x.stamps, k, x.ep.pending[k]) { }
    TickCloses(x, now, bumped);
    if Exhausted(x.ep, now) == {} {
      forall k | k in x.ep.pending
        ensures Log(Stamped(x.stamps, bumped, now), k)
                == Log(x.stamps, k) + if now - Last(Log(x.stamps, k)) >= RETRANSMIT_AFTER then [now] else []
      {
        TickStamps(x, now, bumped, k);
      }
    }
  }

  function Last(times: seq<int>): int
    requires times != []
  {
    times[|times| - 1]
  }
}
