/** Every run of the reassembler over the fragments of any datagrams, several of which may share a flow and number. */
module Reassembly {
  import opened Bytes
  import opened Fragments

  /** A datagram as it was sent. Numbers of a reply flow start anew when the flow is made anew, so a key may come again. */
  datatype Gram = Gram(key: Key, name: Data, data: Data)

  type Grams = g: map<nat, Gram> | forall i | i in g :: |g[i].data| <= MAX_DATAGRAM
    witness map[]

  /** What was handed over when the assembly begun by datagram `index` was complete. */
  datatype Delivery = Delivery(index: nat, name: Data, data: Data)

  /** The reassembler with its history: which datagram began each assembly, the fragments processed, what was delivered,
      and the datagrams of which an assembly was removed or a fragment ignored. */
  datatype State = State(table: Table, owner: map<Key, nat>, processed: set<(nat, nat)>, delivered: seq<Delivery>,
                         dropped: set<nat>)

  datatype Step = Process(index: nat, part: nat, now: int) | Sweep(now: int)

  /** Any fragment may come next, each at most once. */
  predicate Can(g: Grams, s: State, step: Step) {
    match step
    case Process(i, part, now) => i in g && part < Parts(|g[i].data|) && (i, part) !in s.processed
    case Sweep(now) => true
  }

  /** The datagram whose assembly a fragment of `i` meets, or begins. */
  function Meets(g: Grams, s: State, i: nat): nat
    requires i in g
  {
    var k := g[i].key;
    if k in s.table && k in s.owner then s.owner[k] else i
  }

  /** The datagrams that lose a fragment or their assembly when a fragment of `i` comes. */
  function Losers(g: Grams, s: State, i: nat): set<nat>
    requires i in g
  {
    var k, who := g[i].key, Meets(g, s, i);
    if k !in s.table then (if |s.table| >= MAX_ASSEMBLIES then {i} else {})
    else if who == i then {}
    else if s.table[k].total != Parts(|g[i].data|) then {i, who}
    else {i}
  }

  function NewOwner(owner: map<Key, nat>, t: Table, k: Key, who: nat): map<Key, nat> {
    if k in t then owner[k := who] else owner - {k}
  }

  function AfterFed(g: Grams, s: State, i: nat, part: nat, fed: Fed): State
    requires i in g
  {
    var k, who := g[i].key, Meets(g, s, i);
    State(fed.table, NewOwner(s.owner, fed.table, k, who), s.processed + {(i, part)},
          match fed.out case None => s.delivered case Some(d) => s.delivered + [Delivery(who, d.0, d.1)],
          s.dropped + Losers(g, s, i))
  }

  function Do(g: Grams, s: State, step: Step): State
    requires Can(g, s, step)
  {
    match step
    case Process(i, part, now) =>
      AfterFed(g, s, i, part, Feed(s.table, Fragment(g[i].key, g[i].name, g[i].data, part), now))
    case Sweep(now) =>
      var kept := Swept(s.table, now);
      State(kept, map k | k in s.owner && k in kept :: s.owner[k], s.processed, s.delivered,
            s.dropped + set k | k in s.owner && k in s.table && k !in kept :: s.owner[k])
  }

  /** The fragment would enter, or name, the assembly of another datagram that has its key and as many parts. */
  predicate Mixes(g: Grams, s: State, step: Step) {
    && step.Process? && step.index in g && g[step.index].key in s.table && Meets(g, s, step.index) != step.index
    && var a := s.table[g[step.index].key];
       && a.total == Parts(|g[step.index].data|) && step.part < |a.chunks|
       && (a.chunks[step.part] == [] || (a.name == [] && g[step.index].name != []))
  }

  predicate MixesAt(g: Grams, s: State, step: Step, k: Key) {
    Mixes(g, s, step) && g[step.index].key == k
  }

  ghost predicate Runs(g: Grams, s: State, steps: seq<Step>)
    decreases |steps|
  {
    steps == [] || (Can(g, s, steps[0]) && Runs(g, Do(g, s, steps[0]), steps[1..]))
  }

  ghost function After(g: Grams, s: State, steps: seq<Step>): State
    requires Runs(g, s, steps)
    decreases |steps|
  {
    if steps == [] then s else After(g, Do(g, s, steps[0]), steps[1..])
  }

  /** No fragment of the run mixes two datagrams under key `k`. */
  ghost predicate Unmixed(g: Grams, s: State, steps: seq<Step>, k: Key)
    requires Runs(g, s, steps)
    decreases |steps|
  {
    steps == [] || (!MixesAt(g, s, steps[0], k) && Unmixed(g, Do(g, s, steps[0]), steps[1..], k))
  }

  const EMPTY: State := State(map[], map[], {}, [], {})

  // ----- pieces -----

  /** The bytes before piece `n`. */
  ghost function Upto(data: Data, n: nat): nat {
    if n * PIECE <= |data| then n * PIECE else |data|
  }

  lemma {:induction false} JoinPieces(data: Data, chunks: seq<Data>)
    requires |chunks| <= Parts(|data|) && forall p | 0 <= p < |chunks| :: chunks[p] == Piece(data, p)
    ensures Flatten(chunks) == data[..Upto(data, |chunks|)]
  {
    if chunks != [] {
      var n := |chunks| - 1;
      JoinPieces(data, chunks[..n]);
      PieceStart(|data|, n);
      assert chunks[n] == Piece(data, n);
      assert data[..n * PIECE] + data[n * PIECE..Upto(data, n + 1)] == data[..Upto(data, n + 1)];
    }
  }

  lemma WholeJoin(data: Data, chunks: seq<Data>)
    requires |chunks| == Parts(|data|) && forall p | 0 <= p < |chunks| :: chunks[p] == Piece(data, p)
    ensures Flatten(chunks) == data
  {
    JoinPieces(data, chunks);
    assert Upto(data, |chunks|) == |data|;
    assert data[..|data|] == data;
  }

  ghost function Filled(chunks: seq<Data>): set<nat> {
    set p | 0 <= p < |chunks| && chunks[p] != []
  }

  lemma {:induction false} FilledAll(chunks: seq<Data>)
    ensures |Filled(chunks)| <= |chunks|
    ensures |Filled(chunks)| == |chunks| <==> forall p | 0 <= p < |chunks| :: chunks[p] != []
  {
    if chunks != [] {
      var n := |chunks| - 1;
      var init := chunks[..n];
      FilledAll(init);
      assert Filled(chunks) == Filled(init) + (if chunks[n] != [] then {n} else {});
    }
  }

  lemma FilledMore(chunks: seq<Data>, part: nat, body: Data)
    requires part < |chunks| && chunks[part] == [] && body != []
    ensures Filled(chunks[part := body]) == Filled(chunks) + {part}
    ensures |Filled(chunks[part := body])| == |Filled(chunks)| + 1
  {
    assert Filled(chunks[part := body]) == Filled(chunks) + {part};
  }

  /** A fragment's message is read back as its part number, count and piece. */
  lemma FragmentReads(t: Table, gram: Gram, part: nat, now: int)
    requires |gram.data| <= MAX_DATAGRAM && part < Parts(|gram.data|)
    ensures Parts(|gram.data|) <= 55
    ensures Feed(t, Fragment(gram.key, gram.name, gram.data, part), now) ==
            Store(t, gram.key, gram.name, part, Parts(|gram.data|), Piece(gram.data, part), now)
  {
    Powers();
    var total := Parts(|gram.data|);
    var a, b, c := PutUint(part, 2), PutUint(total, 2), Piece(gram.data, part);
    GetPut(part, 2);
    GetPut(total, 2);
    assert (a + b + c)[..2] == a && (a + b + c)[2..4] == b && (a + b + c)[4..] == c;
  }

  // ----- what every step keeps -----

  ghost predicate Owns(s: State, k: Key, i: nat) {
    k in s.table && k in s.owner && s.owner[k] == i
  }

  ghost predicate Done(s: State, i: nat) {
    exists d :: 0 <= d < |s.delivered| && s.delivered[d].index == i
  }

  ghost predicate AllIn(g: Gram, s: State, i: nat) {
    forall p | 0 <= p < Parts(|g.data|) :: (i, p) in s.processed
  }

  /** An unfinished assembly holds true pieces, counts them, and misses at least one. */
  ghost predicate AssemblyOk(g: Gram, a: Assembly) {
    && a.name == g.name && a.total == Parts(|g.data|) == |a.chunks| && a.total > 1
    && a.received == |Filled(a.chunks)| && 0 < a.received < a.total
    && (forall p | 0 <= p < |a.chunks| && a.chunks[p] != [] :: a.chunks[p] == Piece(g.data, p))
  }

  ghost predicate Held(g: Gram, s: State, i: nat, p: nat) {
    Owns(s, g.key, i) && p in Filled(s.table[g.key].chunks)
  }

  /** A processed fragment that is not held. */
  ghost predicate LostAt(g: Gram, s: State, i: nat, p: nat) {
    p < Parts(|g.data|) && (i, p) in s.processed && !Held(g, s, i, p)
  }

  ghost predicate Lost(g: Gram, s: State, i: nat) {
    exists p :: LostAt(g, s, i, p)
  }

  ghost predicate GramOk(g: Gram, s: State, i: nat) {
    && (Owns(s, g.key, i) ==> AssemblyOk(g, s.table[g.key]))
    && (forall p: nat | Held(g, s, i, p) :: (i, p) in s.processed)
    && (Done(s, i) ==> AllIn(g, s, i) && i !in s.dropped && !Owns(s, g.key, i))
    && (i in s.dropped ==> Lost(g, s, i))
    && (i !in s.dropped && !Done(s, i) ==> forall p: nat :: !LostAt(g, s, i, p))
  }

  /** The delivery was begun by a datagram with key `k`. */
  ghost predicate Under(g: Grams, d: Delivery, k: Key) {
    d.index in g && g[d.index].key == k
  }

  /** Under key `k` only originals, each at most once. */
  ghost predicate DeliveredOk(g: Grams, delivered: seq<Delivery>, k: Key) {
    && (forall d | 0 <= d < |delivered| :: delivered[d].index in g)
    && (forall d | 0 <= d < |delivered| && Under(g, delivered[d], k) ::
          delivered[d].name == g[delivered[d].index].name && delivered[d].data == g[delivered[d].index].data)
    && (forall d, e | 0 <= d < e < |delivered| && Under(g, delivered[d], k) :: delivered[d].index != delivered[e].index)
  }

  /** Every assembly was begun by a datagram that has its key. */
  ghost predicate Owners(g: Grams, t: Table, owner: map<Key, nat>) {
    owner.Keys == t.Keys && forall k | k in owner :: owner[k] in g && g[owner[k]].key == k
  }

  ghost predicate OwnersOk(g: Grams, s: State) {
    Owners(g, s.table, s.owner)
  }

  ghost predicate GramsOk(g: Grams, s: State, k: Key) {
    forall i | i in g && g[i].key == k :: GramOk(g[i], s, i)
  }

  ghost predicate Inv(g: Grams, s: State, k: Key) {
    OwnersOk(g, s) && DeliveredOk(g, s.delivered, k) && GramsOk(g, s, k)
  }

  /** Only the assembly of `k` changes. */
  ghost predicate OnlyAt(t: Table, t': Table, k: Key) {
    forall j | j != k :: (j in t' <==> j in t) && (j in t ==> t'[j] == t[j])
  }

  function Stored(g: Gram, t: Table, part: nat, now: int): Fed
    requires part < Parts(|g.data|)
  {
    Store(t, g.key, g.name, part, Parts(|g.data|), Piece(g.data, part), now)
  }

  lemma StoredOnlyAt(g: Gram, t: Table, part: nat, now: int)
    requires part < Parts(|g.data|)
    ensures OnlyAt(t, Stored(g, t, part, now).table, g.key)
  {
  }

  lemma DoIs(g: Grams, s: State, i: nat, part: nat, now: int)
    requires Can(g, s, Process(i, part, now))
    ensures Do(g, s, Process(i, part, now)) == AfterFed(g, s, i, part, Stored(g[i], s.table, part, now))
    ensures OnlyAt(s.table, Stored(g[i], s.table, part, now).table, g[i].key)
  {
    FragmentReads(s.table, g[i], part, now);
    StoredOnlyAt(g[i], s.table, part, now);
  }

  lemma NewOwners(g: Grams, t: Table, t': Table, owner: map<Key, nat>, k: Key, who: nat)
    requires Owners(g, t, owner) && who in g && g[who].key == k && OnlyAt(t, t', k)
    ensures Owners(g, t', NewOwner(owner, t', k, who))
  {
    var owner' := NewOwner(owner, t', k, who);
    forall j ensures j in owner' <==> j in t' { assert j in owner <==> j in t; }
  }

  lemma OwnersFed(g: Grams, s: State, i: nat, part: nat, fed: Fed)
    requires OwnersOk(g, s) && i in g && OnlyAt(s.table, fed.table, g[i].key)
    ensures OwnersOk(g, AfterFed(g, s, i, part, fed))
  {
    NewOwners(g, s.table, fed.table, s.owner, g[i].key, Meets(g, s, i));
  }

  lemma OwnersStep(g: Grams, s: State, step: Step)
    requires OwnersOk(g, s) && Can(g, s, step)
    ensures OwnersOk(g, Do(g, s, step))
  {
    if step.Process? {
      DoIs(g, s, step.index, step.part, step.now);
      OwnersFed(g, s, step.index, step.part, Stored(g[step.index], s.table, step.part, step.now));
    }
  }

  /** An assembly before the part arrives, fresh or under way. */
  ghost predicate Ready(g: Gram, a: Assembly, part: nat) {
    && a.name == g.name && a.total == Parts(|g.data|) == |a.chunks| && part < a.total && a.chunks[part] == []
    && a.received == |Filled(a.chunks)|
    && (forall p | 0 <= p < |a.chunks| && a.chunks[p] != [] :: a.chunks[p] == Piece(g.data, p))
  }

  lemma PartMore(g: Gram, a: Assembly, part: nat)
    requires Ready(g, a, part) && a.total > 1
    ensures var b := WithPart(a, g.name, part, Piece(g.data, part));
            && b.name == g.name && b.received == |Filled(b.chunks)| && Filled(b.chunks) == Filled(a.chunks) + {part}
            && (forall p | 0 <= p < |b.chunks| && b.chunks[p] != [] :: b.chunks[p] == Piece(g.data, p))
  {
    FilledMore(a.chunks, part, Piece(g.data, part));
  }

  lemma PartLast(g: Gram, a: Assembly, part: nat)
    requires Ready(g, a, part) && a.received + 1 == a.total
    ensures var b := WithPart(a, g.name, part, Piece(g.data, part));
            b.received == b.total && b.name == g.name && Flatten(b.chunks) == g.data
  {
    var b := WithPart(a, g.name, part, Piece(g.data, part));
    if a.total > 1 {
      PartMore(g, a, part);
      FilledAll(b.chunks);
    }
    WholeJoin(g.data, b.chunks);
  }

  lemma StartReady(g: Gram, part: nat, now: int)
    requires part < Parts(|g.data|)
    ensures var a := Assembly(now, g.name, Parts(|g.data|), 0, seq(Parts(|g.data|), _ => []));
            Ready(g, a, part) && Filled(a.chunks) == {}
  {
    var a := Assembly(now, g.name, Parts(|g.data|), 0, seq(Parts(|g.data|), _ => []));
    assert Filled(a.chunks) == {};
  }

  /** A new true part completes the datagram, or extends its assembly, or starts one, or finds no room. */
  ghost predicate TrueFed(g: Gram, t: Table, part: nat, fed: Fed) {
    var k := g.key;
    var had := if k in t then Filled(t[k].chunks) else {};
    if k !in t && |t| >= MAX_ASSEMBLIES then fed == Fed(t, None)
    else if |had| + 1 == Parts(|g.data|) then fed == Fed(t - {k}, Some((g.name, g.data)))
    else
      && fed.out == None && k in fed.table && fed.table == t[k := fed.table[k]]
      && AssemblyOk(g, fed.table[k]) && Filled(fed.table[k].chunks) == had + {part}
  }

  lemma StoreTrue(g: Gram, t: Table, part: nat, now: int)
    requires |g.data| <= MAX_DATAGRAM && part < Parts(|g.data|)
    requires g.key in t ==> AssemblyOk(g, t[g.key]) && t[g.key].chunks[part] == []
    ensures TrueFed(g, t, part, Stored(g, t, part, now))
  {
    var total, k := Parts(|g.data|), g.key;
    var a := if k in t then t[k] else Assembly(now, g.name, total, 0, seq(total, _ => []));
    if k !in t { StartReady(g, part, now); }
    if a.received + 1 == total {
      PartLast(g, a, part);
    } else {
      FilledAll(a.chunks);
      PartMore(g, a, part);
      FilledAll(a.chunks[part := Piece(g.data, part)]);
    }
  }

  /** What leaves datagram `i` alone: it owns the same assembly or none, and nothing was recorded of it. */
  lemma OtherGram(g: Gram, s: State, s': State, i: nat, other: nat)
    requires GramOk(g, s, i) && i != other
    requires Owns(s', g.key, i) <==> Owns(s, g.key, i)
    requires Owns(s, g.key, i) ==> s'.table[g.key] == s.table[g.key]
    requires forall p: nat :: (i, p) in s'.processed <==> (i, p) in s.processed
    requires i in s'.dropped <==> i in s.dropped
    requires s'.delivered == s.delivered || (|s'.delivered| == |s.delivered| + 1 && s'.delivered[..|s.delivered|] == s.delivered
             && s'.delivered[|s.delivered|].index == other)
    ensures GramOk(g, s', i)
  {
    assert forall p: nat :: Held(g, s', i, p) == Held(g, s, i, p);
    assert forall p: nat :: LostAt(g, s', i, p) == LostAt(g, s, i, p);
    assert Done(s', i) == Done(s, i) by {
      if Done(s, i) {
        var d :| 0 <= d < |s.delivered| && s.delivered[d].index == i;
        assert s'.delivered[d] == s.delivered[d];
      }
      if Done(s', i) {
        var d :| 0 <= d < |s'.delivered| && s'.delivered[d].index == i;
        assert d < |s.delivered| ==> s'.delivered[d] == s.delivered[d];
      }
    }
    if i in s.dropped {
      var p :| LostAt(g, s, i, p);
      assert LostAt(g, s', i, p);
    }
  }

  /** A fragment that was not processed yet is not held, and its datagram is not delivered. */
  lemma NewPart(g: Gram, s: State, i: nat, part: nat)
    requires GramOk(g, s, i) && part < Parts(|g.data|) && (i, part) !in s.processed
    ensures !Done(s, i) && (Owns(s, g.key, i) ==> s.table[g.key].chunks[part] == [])
  {
    assert !AllIn(g, s, i);
    assert !Held(g, s, i, part);
  }

  /** After a part of `i` was ignored, or its assembly extended or begun. */
  lemma OwnHeld(g: Gram, s: State, s': State, i: nat, part: nat, ignored: bool)
    requires GramOk(g, s, i) && part < Parts(|g.data|) && (i, part) !in s.processed
    requires s'.processed == s.processed + {(i, part)} && s'.delivered == s.delivered
    requires ignored ==> !Owns(s, g.key, i) && !Owns(s', g.key, i) && i in s'.dropped
    requires !ignored ==> Owns(s', g.key, i) && AssemblyOk(g, s'.table[g.key]) && s'.dropped == s.dropped
                          && Filled(s'.table[g.key].chunks) == (if Owns(s, g.key, i) then Filled(s.table[g.key].chunks) else {}) + {part}
    ensures GramOk(g, s', i)
  {
    NewPart(g, s, i, part);
    assert !Done(s', i);
    forall p: nat ensures Held(g, s', i, p) == (Held(g, s, i, p) || (!ignored && p == part)) { }
    if ignored {
      assert LostAt(g, s', i, part);
    } else {
      forall p: nat ensures LostAt(g, s', i, p) == LostAt(g, s, i, p) { }
      if i in s'.dropped {
        var p :| LostAt(g, s, i, p);
        assert LostAt(g, s', i, p);
      }
    }
  }

  /** After the last part arrived. */
  lemma OwnDone(g: Gram, s: State, s': State, i: nat, part: nat)
    requires GramOk(g, s, i) && part < Parts(|g.data|) && (i, part) !in s.processed
    requires s'.processed == s.processed + {(i, part)} && s'.dropped == s.dropped && !Owns(s', g.key, i)
    requires s'.delivered == s.delivered + [Delivery(i, g.name, g.data)]
    requires |if Owns(s, g.key, i) then Filled(s.table[g.key].chunks) else {}| + 1 == Parts(|g.data|)
    ensures GramOk(g, s', i)
  {
    NewPart(g, s, i, part);
    assert s'.delivered[|s.delivered|].index == i;
    forall p | 0 <= p < Parts(|g.data|) ensures p == part || Held(g, s, i, p) {
      if Owns(s, g.key, i) {
        var b := s.table[g.key].chunks[part := [0]];
        FilledMore(s.table[g.key].chunks, part, [0]);
        FilledAll(b);
        assert b[p] != [];
      }
    }
    assert !Lost(g, s, i);
  }

  // ----- a fragment that meets its own assembly, or none -----

  /** What the step does that is not about datagram `i` itself. */
  ghost predicate Beside(g: Gram, s: State, s': State, i: nat, part: nat) {
    && s'.processed == s.processed + {(i, part)} && OnlyAt(s.table, s'.table, g.key)
    && s'.owner == NewOwner(s.owner, s'.table, g.key, i) && (g.key in s.owner ==> s.owner[g.key] == i)
    && (s'.delivered == s.delivered || s'.delivered == s.delivered + [Delivery(i, g.name, g.data)])
    && (s'.dropped == s.dropped || s'.dropped == s.dropped + {i})
  }

  /** What the step does with the table, the deliveries and the losses. */
  ghost predicate Took(g: Gram, s: State, s': State, i: nat, fed: Fed) {
    && s'.table == fed.table
    && s'.delivered == (match fed.out case None => s.delivered case Some(d) => s.delivered + [Delivery(i, d.0, d.1)])
    && s'.dropped == if g.key !in s.table && |s.table| >= MAX_ASSEMBLIES then s.dropped + {i} else s.dropped
  }

  lemma FedTook(g: Grams, s: State, i: nat, part: nat, fed: Fed)
    requires OwnersOk(g, s) && i in g && Meets(g, s, i) == i
    ensures Took(g[i], s, AfterFed(g, s, i, part, fed), i, fed)
  {
    assert s.dropped + {} == s.dropped;
  }

  lemma TrueOut(g: Gram, t: Table, part: nat, fed: Fed)
    requires TrueFed(g, t, part, fed)
    ensures fed.out == None || fed.out == Some((g.name, g.data))
  {
  }

  lemma FedBeside(g: Grams, s: State, i: nat, part: nat, fed: Fed)
    requires OwnersOk(g, s) && i in g && Meets(g, s, i) == i && OnlyAt(s.table, fed.table, g[i].key)
    requires fed.out == None || fed.out == Some((g[i].name, g[i].data))
    ensures Beside(g[i], s, AfterFed(g, s, i, part, fed), i, part)
  {
    assert Losers(g, s, i) == {} || Losers(g, s, i) == {i};
    assert s.dropped + {} == s.dropped;
  }

  lemma OtherKept(g: Gram, s: State, s': State, j: nat, h: Gram, i: nat, part: nat)
    requires GramOk(g, s, j) && j != i && Beside(h, s, s', i, part)
    ensures GramOk(g, s', j)
  {
    assert Owns(s', g.key, j) <==> Owns(s, g.key, j);
    OtherGram(g, s, s', j, i);
  }

  lemma ProcessOwn(g: Gram, s: State, s': State, i: nat, part: nat, fed: Fed)
    requires GramOk(g, s, i) && TrueFed(g, s.table, part, fed) && Beside(g, s, s', i, part) && s.owner.Keys == s.table.Keys
    requires part < Parts(|g.data|) && (i, part) !in s.processed && Took(g, s, s', i, fed)
    ensures GramOk(g, s', i)
  {
    NewPart(g, s, i, part);
    var had := if g.key in s.table then Filled(s.table[g.key].chunks) else {};
    if g.key !in s.table && |s.table| >= MAX_ASSEMBLIES {
      OwnHeld(g, s, s', i, part, true);
    } else if |had| + 1 == Parts(|g.data|) {
      OwnDone(g, s, s', i, part);
    } else {
      OwnHeld(g, s, s', i, part, false);
    }
  }

  lemma DeliveryKeeps(g: Grams, s: State, s': State, i: nat)
    requires i in g && DeliveredOk(g, s.delivered, g[i].key) && !Done(s, i)
    requires s'.delivered == s.delivered || s'.delivered == s.delivered + [Delivery(i, g[i].name, g[i].data)]
    ensures DeliveredOk(g, s'.delivered, g[i].key)
  {
  }

  lemma OwnGrams(g: Grams, s: State, s': State, i: nat, part: nat)
    requires i in g && Beside(g[i], s, s', i, part) && GramOk(g[i], s', i) && GramsOk(g, s, g[i].key)
    ensures GramsOk(g, s', g[i].key)
  {
    forall j | j in g && g[j].key == g[i].key ensures GramOk(g[j], s', j) {
      if j != i { OtherKept(g[j], s, s', j, g[i], i, part); }
    }
  }

  lemma OwnGram(g: Grams, s: State, i: nat, part: nat, fed: Fed)
    requires OwnersOk(g, s) && i in g && GramOk(g[i], s, i) && Meets(g, s, i) == i
    requires part < Parts(|g[i].data|) && (i, part) !in s.processed
    requires TrueFed(g[i], s.table, part, fed) && OnlyAt(s.table, fed.table, g[i].key)
    ensures var s' := AfterFed(g, s, i, part, fed); GramOk(g[i], s', i) && Beside(g[i], s, s', i, part)
  {
    TrueOut(g[i], s.table, part, fed);
    FedBeside(g, s, i, part, fed);
    FedTook(g, s, i, part, fed);
    ProcessOwn(g[i], s, AfterFed(g, s, i, part, fed), i, part, fed);
  }

  lemma BesideKeeps(g: Grams, s: State, s': State, i: nat, part: nat)
    requires i in g && Inv(g, s, g[i].key) && OwnersOk(g, s') && Beside(g[i], s, s', i, part) && GramOk(g[i], s', i)
    requires part < Parts(|g[i].data|) && (i, part) !in s.processed
    ensures Inv(g, s', g[i].key)
  {
    OwnGrams(g, s, s', i, part);
    assert !Done(s, i) by { NewPart(g[i], s, i, part); }
    DeliveryKeeps(g, s, s', i);
  }

  lemma OwnFed(g: Grams, s: State, i: nat, part: nat, fed: Fed)
    requires i in g && Inv(g, s, g[i].key) && Meets(g, s, i) == i && part < Parts(|g[i].data|) && (i, part) !in s.processed
    requires TrueFed(g[i], s.table, part, fed) && OnlyAt(s.table, fed.table, g[i].key)
    ensures Inv(g, AfterFed(g, s, i, part, fed), g[i].key)
  {
    OwnersFed(g, s, i, part, fed);
    OwnGram(g, s, i, part, fed);
    BesideKeeps(g, s, AfterFed(g, s, i, part, fed), i, part);
  }

  lemma OwnKeeps(g: Grams, s: State, i: nat, part: nat, now: int)
    requires Can(g, s, Process(i, part, now)) && Inv(g, s, g[i].key) && Meets(g, s, i) == i
    ensures Inv(g, AfterFed(g, s, i, part, Stored(g[i], s.table, part, now)), g[i].key)
  {
    assert GramOk(g[i], s, i);
    NewPart(g[i], s, i, part);
    StoreTrue(g[i], s.table, part, now);
    StoredOnlyAt(g[i], s.table, part, now);
    OwnFed(g, s, i, part, Stored(g[i], s.table, part, now));
  }

  // ----- a fragment that meets the assembly of another datagram -----

  /** A fragment that does not mix leaves the other assembly as it is, or removes it when the counts differ. */
  lemma ForeignStore(own: Gram, g: Gram, t: Table, part: nat, now: int)
    requires g.key in t && AssemblyOk(own, t[g.key]) && part < Parts(|g.data|)
    requires t[g.key].total == Parts(|g.data|) ==> t[g.key].chunks[part] != [] && (t[g.key].name != [] || g.name == [])
    ensures Stored(g, t, part, now) == Fed(if t[g.key].total == Parts(|g.data|) then t else t - {g.key}, None)
  {
    if t[g.key].total == Parts(|g.data|) { assert t[g.key := t[g.key]] == t; }
  }

  lemma OwnerLoses(g: Gram, s: State, s': State, i: nat)
    requires GramOk(g, s, i) && Owns(s, g.key, i) && !Owns(s', g.key, i) && i in s'.dropped
    requires s'.delivered == s.delivered && forall p: nat :: (i, p) in s.processed ==> (i, p) in s'.processed
    ensures GramOk(g, s', i)
  {
    var p :| p in Filled(s.table[g.key].chunks);
    assert Held(g, s, i, p);
    assert LostAt(g, s', i, p);
    assert Done(s', i) == Done(s, i);
  }

  lemma ForeignKeeps(g: Grams, s: State, i: nat, part: nat, now: int)
    requires Can(g, s, Process(i, part, now)) && Inv(g, s, g[i].key) && Meets(g, s, i) != i && !Mixes(g, s, Process(i, part, now))
    ensures Inv(g, AfterFed(g, s, i, part, Stored(g[i], s.table, part, now)), g[i].key)
  {
    var k, who := g[i].key, Meets(g, s, i);
    assert Owns(s, k, who) && g[who].key == k && GramOk(g[who], s, who);
    ForeignStore(g[who], g[i], s.table, part, now);
    ForeignFed(g, s, i, part, who, Stored(g[i], s.table, part, now));
  }

  lemma ForeignFed(g: Grams, s: State, i: nat, part: nat, who: nat, fed: Fed)
    requires i in g && Inv(g, s, g[i].key) && part < Parts(|g[i].data|) && (i, part) !in s.processed
    requires Meets(g, s, i) == who != i && Owns(s, g[i].key, who)
    requires fed == Fed(if s.table[g[i].key].total == Parts(|g[i].data|) then s.table else s.table - {g[i].key}, None)
    ensures Inv(g, AfterFed(g, s, i, part, fed), g[i].key)
  {
    var s' := AfterFed(g, s, i, part, fed);
    OwnersFed(g, s, i, part, fed);
    assert s.owner[g[i].key := who] == s.owner;
    ForeignGrams(g, s, s', i, part, who);
  }

  lemma ForeignGrams(g: Grams, s: State, s': State, i: nat, part: nat, who: nat)
    requires OwnersOk(g, s) && i in g && who in g && i != who && Owns(s, g[i].key, who) && g[who].key == g[i].key
    requires GramsOk(g, s, g[i].key)
    requires part < Parts(|g[i].data|) && (i, part) !in s.processed
    requires s'.processed == s.processed + {(i, part)} && s'.delivered == s.delivered
    requires || (s'.table == s.table && s'.owner == s.owner && s'.dropped == s.dropped + {i})
             || (s'.table == s.table - {g[i].key} && s'.owner == s.owner - {g[i].key} && s'.dropped == s.dropped + {i, who})
    ensures GramsOk(g, s', g[i].key)
  {
    forall j | j in g && g[j].key == g[i].key ensures GramOk(g[j], s', j) {
      if j == i {
        OwnHeld(g[i], s, s', i, part, true);
      } else if j == who && s'.table != s.table {
        OwnerLoses(g[who], s, s', who);
      } else {
        OtherGram(g[j], s, s', j, i);
      }
    }
  }

  /** A part of another datagram with as many parts leaves an assembly true to the one that began it if and only if it
      brings no name to a nameless one, and the part is there already or the two pieces are the same. */
  lemma ForeignPartExact(own: Gram, other: Gram, a: Assembly, part: nat)
    requires AssemblyOk(own, a) && Parts(|other.data|) == a.total && part < a.total
    ensures var b := WithPart(a, other.name, part, Piece(other.data, part));
            (&& b.name == own.name
             && (forall p | 0 <= p < |b.chunks| && b.chunks[p] != [] :: b.chunks[p] == Piece(own.data, p)))
            <==> (&& (a.name != [] || other.name == [])
                  && (a.chunks[part] != [] || Piece(other.data, part) == Piece(own.data, part)))
  {
    var b := WithPart(a, other.name, part, Piece(other.data, part));
    assert b.chunks[part] != [];
    assert forall p | 0 <= p < |b.chunks| && p != part :: b.chunks[p] == a.chunks[p];
  }

  // ----- expiry -----

  lemma SweepGram(g: Gram, s: State, s': State, i: nat)
    requires GramOk(g, s, i) && s'.processed == s.processed && s'.delivered == s.delivered
    requires Owns(s', g.key, i) ==> Owns(s, g.key, i) && s'.table[g.key] == s.table[g.key]
    requires i in s'.dropped <==> i in s.dropped || (Owns(s, g.key, i) && !Owns(s', g.key, i))
    ensures GramOk(g, s', i)
  {
    if Owns(s, g.key, i) && !Owns(s', g.key, i) {
      OwnerLoses(g, s, s', i);
    } else {
      OtherGram(g, s, s', i, i + 1);
    }
  }

  lemma SweepKeeps(g: Grams, s: State, now: int, k: Key)
    requires Inv(g, s, k)
    ensures Inv(g, Do(g, s, Sweep(now)), k)
  {
    var s' := Do(g, s, Sweep(now));
    OwnersStep(g, s, Sweep(now));
    forall i | i in g && g[i].key == k ensures GramOk(g[i], s', i) { SweepGram(g[i], s, s', i); }
  }

  // ----- a fragment under another key -----

  /** What a fragment under another key leaves alone. */
  ghost predicate Elsewhere(s: State, s': State, k: Key, i: nat, who: nat) {
    && (k in s'.table <==> k in s.table) && (k in s.table ==> s'.table[k] == s.table[k])
    && (k in s'.owner <==> k in s.owner) && (k in s.owner ==> s'.owner[k] == s.owner[k])
    && (forall j, p: nat | j != i :: (j, p) in s'.processed <==> (j, p) in s.processed)
    && (forall j | j != i && j != who :: j in s'.dropped <==> j in s.dropped)
    && (s'.delivered == s.delivered || (|s'.delivered| == |s.delivered| + 1 && s'.delivered[..|s.delivered|] == s.delivered
        && s'.delivered[|s.delivered|].index == who))
  }

  lemma LosersAre(g: Grams, s: State, i: nat)
    requires i in g
    ensures Losers(g, s, i) <= {i, Meets(g, s, i)}
  {
  }

  lemma FedElsewhere(g: Grams, s: State, i: nat, part: nat, fed: Fed, k: Key)
    requires i in g && g[i].key != k && OnlyAt(s.table, fed.table, g[i].key)
    ensures Elsewhere(s, AfterFed(g, s, i, part, fed), k, i, Meets(g, s, i))
  {
    var s', who := AfterFed(g, s, i, part, fed), Meets(g, s, i);
    LosersAre(g, s, i);
    assert forall j | j != i && j != who :: j in s'.dropped <==> j in s.dropped;
    assert s'.owner == NewOwner(s.owner, fed.table, g[i].key, who) && s'.table == fed.table;
    assert s'.processed == s.processed + {(i, part)};
    assert s'.delivered == s.delivered || s'.delivered == s.delivered + [s'.delivered[|s.delivered|]];
  }

  lemma ElsewhereKeeps(g: Grams, s: State, s': State, k: Key, i: nat, who: nat)
    requires Inv(g, s, k) && OwnersOk(g, s') && Elsewhere(s, s', k, i, who)
    requires i in g && who in g && g[i].key != k && g[who].key != k
    ensures Inv(g, s', k)
  {
    forall j | j in g && g[j].key == k ensures GramOk(g[j], s', j) { OtherGram(g[j], s, s', j, who); }
    DeliveredElsewhere(g, s.delivered, s'.delivered, k, who);
  }

  lemma DeliveredElsewhere(g: Grams, a: seq<Delivery>, b: seq<Delivery>, k: Key, who: nat)
    requires DeliveredOk(g, a, k) && who in g && g[who].key != k
    requires b == a || (|b| == |a| + 1 && b[..|a|] == a && b[|a|].index == who)
    ensures DeliveredOk(g, b, k)
  {
    assert forall d | 0 <= d < |a| :: b[d] == a[d] by { assert b != a ==> forall d | 0 <= d < |a| :: b[..|a|][d] == b[d]; }
  }

  lemma OtherKeyKeeps(g: Grams, s: State, i: nat, part: nat, now: int, k: Key)
    requires Inv(g, s, k) && Can(g, s, Process(i, part, now)) && g[i].key != k
    ensures Inv(g, Do(g, s, Process(i, part, now)), k)
  {
    var fed := Stored(g[i], s.table, part, now);
    DoIs(g, s, i, part, now);
    OwnersFed(g, s, i, part, fed);
    FedElsewhere(g, s, i, part, fed, k);
    ElsewhereKeeps(g, s, AfterFed(g, s, i, part, fed), k, i, Meets(g, s, i));
  }

  // ----- every step -----

  /** Every expiry and every fragment, also a mixing one under another key, keeps the datagrams under `k` true, unless it
      mixes two of them. */
  lemma StepKeeps(g: Grams, s: State, step: Step, k: Key)
    requires Inv(g, s, k) && Can(g, s, step) && !MixesAt(g, s, step, k)
    ensures Inv(g, Do(g, s, step), k)
  {
    match step
    case Process(i, part, now) =>
      if g[i].key != k {
        OtherKeyKeeps(g, s, i, part, now, k);
      } else {
        DoIs(g, s, i, part, now);
        if Meets(g, s, i) == i { OwnKeeps(g, s, i, part, now); } else { ForeignKeeps(g, s, i, part, now); }
      }
    case Sweep(now) => SweepKeeps(g, s, now, k);
  }

  lemma {:induction false} RunKeeps(g: Grams, s: State, steps: seq<Step>, k: Key)
    requires Inv(g, s, k) && Runs(g, s, steps) && Unmixed(g, s, steps, k)
    ensures Inv(g, After(g, s, steps), k)
    decreases |steps|
  {
    if steps != [] {
      StepKeeps(g, s, steps[0], k);
      RunKeeps(g, Do(g, s, steps[0]), steps[1..], k);
    }
  }

  lemma EmptyInv(g: Grams, k: Key)
    ensures Inv(g, EMPTY, k)
  {
  }

  // ----- what holds in every run -----

  /** Whatever the order, the interleaving, the expiries, the refusals and what is mixed elsewhere: if no fragment mixes
      two datagrams under key `k`, only originals are delivered under it, by their own name, each at most once. */
  lemma OnlyOriginals(g: Grams, steps: seq<Step>, k: Key)
    requires Runs(g, EMPTY, steps) && Unmixed(g, EMPTY, steps, k)
    ensures DeliveredOk(g, After(g, EMPTY, steps).delivered, k)
  {
    EmptyInv(g, k);
    RunKeeps(g, EMPTY, steps, k);
  }

  /** A datagram still being assembled, with nothing dropped, has a fragment that was not processed. */
  lemma Misses(g: Gram, s: State, i: nat)
    requires GramOk(g, s, i) && Owns(s, g.key, i) && i !in s.dropped
    ensures !AllIn(g, s, i)
  {
    var chunks := s.table[g.key].chunks;
    FilledAll(chunks);
    var p :| 0 <= p < |chunks| && chunks[p] == [];
    assert !Held(g, s, i, p);
    assert !LostAt(g, s, i, p);
  }

  /** A datagram is delivered if and only if all its fragments were processed and none of it was dropped. */
  lemma DeliveredExactly(g: Grams, steps: seq<Step>, i: nat)
    requires Runs(g, EMPTY, steps) && i in g && Unmixed(g, EMPTY, steps, g[i].key)
    ensures var s := After(g, EMPTY, steps);
            Done(s, i) <==> AllIn(g[i], s, i) && i !in s.dropped
  {
    EmptyInv(g, g[i].key);
    RunKeeps(g, EMPTY, steps, g[i].key);
    var s := After(g, EMPTY, steps);
    assert GramOk(g[i], s, i);
    if Owns(s, g[i].key, i) && i !in s.dropped { Misses(g[i], s, i); }
    assert AllIn(g[i], s, i) && !LostAt(g[i], s, i, 0) ==> Held(g[i], s, i, 0) by {
      assert AllIn(g[i], s, i) ==> (i, 0) in s.processed;
    }
  }

  // ----- expiry by the time of the first fragment -----

  /** When the assembly that has key `k` now was begun: the time of the last fragment that found none. */
  ghost function Begun(g: Grams, s: State, steps: seq<Step>, k: Key, at: int): int
    requires Runs(g, s, steps)
    decreases |steps|
  {
    if steps == [] then at
    else
      var begins := steps[0].Process? && g[steps[0].index].key == k && k !in s.table;
      Begun(g, Do(g, s, steps[0]), steps[1..], k, if begins then steps[0].now else at)
  }

  lemma StoredCreated(g: Gram, t: Table, part: nat, now: int)
    requires part < Parts(|g.data|) && g.key in Stored(g, t, part, now).table
    ensures Stored(g, t, part, now).table[g.key].created == if g.key in t then t[g.key].created else now
  {
  }

  lemma CreatedStep(g: Grams, s: State, step: Step, k: Key)
    requires Can(g, s, step) && k in Do(g, s, step).table
    ensures var created := Do(g, s, step).table[k].created;
            if k in s.table then created == s.table[k].created
            else step.Process? && g[step.index].key == k && created == step.now
  {
    if step.Process? {
      DoIs(g, s, step.index, step.part, step.now);
      if g[step.index].key == k { StoredCreated(g[step.index], s.table, step.part, step.now); }
    }
  }

  lemma {:induction false} CreatedRun(g: Grams, s: State, steps: seq<Step>, k: Key, at: int)
    requires Runs(g, s, steps) && (k in s.table ==> s.table[k].created == at)
    ensures k in After(g, s, steps).table ==> After(g, s, steps).table[k].created == Begun(g, s, steps, k, at)
    decreases |steps|
  {
    if steps != [] {
      var s' := Do(g, s, steps[0]);
      if k in s'.table { CreatedStep(g, s, steps[0], k); }
      var begins := steps[0].Process? && g[steps[0].index].key == k && k !in s.table;
      CreatedRun(g, s', steps[1..], k, if begins then steps[0].now else at);
    }
  }

  lemma {:induction false} OwnersRun(g: Grams, s: State, steps: seq<Step>)
    requires Runs(g, s, steps) && OwnersOk(g, s)
    ensures OwnersOk(g, After(g, s, steps))
    decreases |steps|
  {
    if steps != [] {
      OwnersStep(g, s, steps[0]);
      OwnersRun(g, Do(g, s, steps[0]), steps[1..]);
    }
  }

  /** In every run a sweep keeps, as they are, exactly the assemblies whose first fragment came within the last 30 seconds,
      and the datagrams it drops are exactly those that began the others. */
  lemma SweepExact(g: Grams, steps: seq<Step>, now: int, k: Key)
    requires Runs(g, EMPTY, steps)
    ensures var s := After(g, EMPTY, steps);
            var s', late := Do(g, s, Sweep(now)), now - Begun(g, EMPTY, steps, k, 0) > LIFETIME;
            && (k in s'.table <==> k in s.table && !late) && (k in s'.table ==> s'.table[k] == s.table[k])
            && (forall i | i in g && g[i].key == k && i !in s.dropped :: i in s'.dropped <==> Owns(s, k, i) && late)
  {
    CreatedRun(g, EMPTY, steps, k, 0);
    OwnersRun(g, EMPTY, steps);
  }

  // ----- keys -----

  /** A datagram that shares its flow and number with no other is never mixed. */
  lemma {:induction false} OwnKeyUnmixed(g: Grams, s: State, steps: seq<Step>, i: nat)
    requires i in g && forall j | j in g && j != i :: g[j].key != g[i].key
    requires OwnersOk(g, s) && Runs(g, s, steps)
    ensures Unmixed(g, s, steps, g[i].key)
    decreases |steps|
  {
    if steps != [] {
      OwnersStep(g, s, steps[0]);
      OwnKeyUnmixed(g, Do(g, s, steps[0]), steps[1..], i);
    }
  }

  /** Two datagrams of two parts under one key: the first part of one and the second of the other make a datagram that is
      delivered although, if both pieces differ, nobody sent it. */
  lemma MixedDelivery(key: Key, a: Data, b: Data)
    requires PIECE < |a| <= 2 * PIECE && PIECE < |b| <= 2 * PIECE
    ensures var g: Grams := map[0 := Gram(key, [], a), 1 := Gram(key, [], b)];
            var steps := [Process(0, 0, 0), Process(1, 1, 0)];
            && Runs(g, EMPTY, steps)
            && After(g, EMPTY, steps).delivered == [Delivery(0, [], a[..PIECE] + b[PIECE..])]
    ensures a[..PIECE] != b[..PIECE] && a[PIECE..] != b[PIECE..] ==> a[..PIECE] + b[PIECE..] != a && a[..PIECE] + b[PIECE..] != b
  {
    var g: Grams := map[0 := Gram(key, [], a), 1 := Gram(key, [], b)];
    var first, second := Process(0, 0, 0), Process(1, 1, 0);
    var s := MixFirst(g, key);
    MixSecond(g, s, key);
    TwoSteps(g, first, second);
    assert (a[..PIECE] + b[PIECE..])[..PIECE] == a[..PIECE] && (a[..PIECE] + b[PIECE..])[PIECE..] == b[PIECE..];
  }

  lemma MixFirst(g: Grams, key: Key) returns (s: State)
    requires 0 in g && g[0].key == key && PIECE < |g[0].data| <= 2 * PIECE
    ensures Can(g, EMPTY, Process(0, 0, 0)) && s == Do(g, EMPTY, Process(0, 0, 0))
    ensures s.table == HalfOf(g[0]) && s.owner == map[key := 0] && s.delivered == [] && s.processed == {(0, 0)}
  {
    FirstOfTwo(g[0]);
    DoIs(g, EMPTY, 0, 0, 0);
    s := Do(g, EMPTY, Process(0, 0, 0));
  }

  lemma MixSecond(g: Grams, s: State, key: Key)
    requires 0 in g && 1 in g && g[0].key == g[1].key == key && g[0].name == g[1].name
    requires PIECE < |g[0].data| <= 2 * PIECE && PIECE < |g[1].data| <= 2 * PIECE
    requires s.table == HalfOf(g[0]) && s.owner == map[key := 0] && s.delivered == [] && s.processed == {(0, 0)}
    ensures Can(g, s, Process(1, 1, 0))
    ensures Do(g, s, Process(1, 1, 0)).delivered == [Delivery(0, g[0].name, g[0].data[..PIECE] + g[1].data[PIECE..])]
  {
    SecondOfTwo(g[0], g[1]);
    DoIs(g, s, 1, 1, 0);
  }

  /** The table after the first of two parts. */
  function HalfOf(g: Gram): Table
    requires |g.data| >= PIECE
  {
    map[g.key := Assembly(0, g.name, 2, 1, [g.data[..PIECE], []])]
  }

  lemma FirstOfTwo(g: Gram)
    requires PIECE < |g.data| <= 2 * PIECE
    ensures Stored(g, map[], 0, 0) == Fed(HalfOf(g), None)
  {
    var none: seq<Data> := seq(2, _ => []);
    assert none == [[], []] && none[0 := g.data[..PIECE]] == [g.data[..PIECE], []];
  }

  lemma SecondOfTwo(g: Gram, h: Gram)
    requires PIECE < |g.data| <= 2 * PIECE && PIECE < |h.data| <= 2 * PIECE && g.key == h.key && g.name == h.name
    ensures Stored(h, HalfOf(g), 1, 0) == Fed(map[], Some((g.name, g.data[..PIECE] + h.data[PIECE..])))
  {
    assert [g.data[..PIECE], []][1 := h.data[PIECE..]] == [g.data[..PIECE], h.data[PIECE..]];
    Two(g.data[..PIECE], h.data[PIECE..]);
    assert HalfOf(g)[g.key := Assembly(0, g.name, 2, 2, [g.data[..PIECE], h.data[PIECE..]])] - {g.key} == map[];
    assert HalfOf(g) - {g.key} == map[];
    assert Piece(h.data, 1) == h.data[PIECE..];
  }

  lemma Two(a: Data, b: Data)
    ensures Flatten([a, b]) == a + b
  {
    assert [a, b][..1] == [a] && [a][..0] == [];
    assert Flatten([a]) == Flatten([]) + a;
  }

  lemma TwoSteps(g: Grams, first: Step, second: Step)
    requires Can(g, EMPTY, first) && Can(g, Do(g, EMPTY, first), second)
    ensures Runs(g, EMPTY, [first, second]) && After(g, EMPTY, [first, second]) == Do(g, Do(g, EMPTY, first), second)
  {
    var s := Do(g, EMPTY, first);
    assert [first, second][1..] == [second] && [second][1..] == [];
    assert Runs(g, Do(g, s, second), []);
    assert Runs(g, s, [second]) && After(g, s, [second]) == Do(g, s, second);
  }
}
