/** Cutting a UDP datagram into messages and putting it together again. */
module Fragments {
  import opened Bytes
  import opened Messages

  const PIECE: nat := 1200
  const MAX_DATAGRAM: nat := 65507
  const MAX_TOTAL: nat := 128
  const MAX_ASSEMBLIES: nat := 4096
  const LIFETIME: int := 30_000

  datatype Key = Key(flow: nat, datagram: nat)

  /** An unfinished datagram. A chunk that is empty has not arrived: a copied empty slice is nil. */
  datatype Assembly = Assembly(created: int, name: Data, total: nat, received: nat, chunks: seq<Data>)

  type Table = t: map<Key, Assembly> | forall k | k in t :: |t[k].chunks| == t[k].total
    witness map[]

  datatype Fed = Fed(table: Table, out: Option<(Data, Data)>)

  // ----- the sender -----

  function Parts(n: nat): (t: nat)
    ensures t >= 1 && (t - 1) * PIECE <= n <= t * PIECE && (t > 1 ==> (t - 1) * PIECE < n)
  {
    if n == 0 then 1 else (n + PIECE - 1) / PIECE
  }

  function Piece(data: Data, part: nat): (p: Data)
    requires part < Parts(|data|)
    ensures Parts(|data|) > 1 ==> p != []
  {
    PieceStart(|data|, part);
    data[part * PIECE..if part * PIECE + PIECE > |data| then |data| else part * PIECE + PIECE]
  }

  lemma PieceStart(n: nat, part: nat)
    requires part < Parts(n)
    ensures part * PIECE <= n && (Parts(n) > 1 ==> part * PIECE < n)
  {
    assert part * PIECE <= (Parts(n) - 1) * PIECE;
  }

  function Fragment(k: Key, name: Data, data: Data, part: nat): Message
    requires part < Parts(|data|)
  {
    Message(0, TYPE_UDP_DATA, k.flow, k.datagram, name, [],
            PutUint(part, 2) + PutUint(Parts(|data|), 2) + Piece(data, part))
  }

  function FragmentsUpTo(k: Key, name: Data, data: Data, n: nat): seq<Message>
    requires n <= Parts(|data|)
  {
    seq(n, i requires 0 <= i < n => Fragment(k, name, data, i))
  }

  /** A datagram of up to 65507 bytes becomes all its fragments in order, or those sent before a send fails; at most 55. */
  method SendDatagram(k: Key, name: Data, data: Data, room: nat) returns (ok: bool, out: seq<Message>)
    ensures |data| > MAX_DATAGRAM ==> !ok && out == []
    ensures |data| <= MAX_DATAGRAM ==>
              && Parts(|data|) <= 55 && ok == (room >= Parts(|data|))
              && out == FragmentsUpTo(k, name, data, if ok then Parts(|data|) else room)
  {
    out := [];
    if |data| > MAX_DATAGRAM {
      return false, [];
    }
    var total := (|data| + PIECE - 1) / PIECE;
    if total == 0 {
      total := 1;
    }
    assert total == Parts(|data|);
    var part := 0;
    while part < total
      invariant 0 <= part <= total && part <= room
      invariant out == FragmentsUpTo(k, name, data, part)
    {
      if part == room {
        return false, out;
      }
      PieceStart(|data|, part);
      var start := part * PIECE;
      var end := start + PIECE;
      if end > |data| {
        end := |data|;
      }
      var payload := PutUint(part, 2) + PutUint(total, 2) + data[start..end];
      out := out + [Message(0, TYPE_UDP_DATA, k.flow, k.datagram, name, [], payload)];
      part := part + 1;
    }
    ok := true;
  }

  // ----- the receiver -----

  /** The assembly after `part` arrived: it takes a name if it has none, and the body and a count if the part is new. */
  function WithPart(a: Assembly, name: Data, part: nat, body: Data): (b: Assembly)
    requires part < |a.chunks|
    ensures |b.chunks| == |a.chunks| && b.total == a.total && b.created == a.created
  {
    var named := if a.name == [] then a.(name := name) else a;
    if a.chunks[part] == [] then named.(chunks := a.chunks[part := body], received := a.received + 1) else named
  }

  /** One part arrives: start or find the assembly, store the part if new, deliver when the count is full. */
  function Store(t: Table, k: Key, name: Data, part: nat, total: nat, body: Data, now: int): Fed
    requires part < total
  {
    if k !in t && |t| >= MAX_ASSEMBLIES then Fed(t, None)
    else
      var a := if k in t then t[k] else Assembly(now, name, total, 0, seq(total, _ => []));
      if a.total != total then Fed(t - {k}, None)
      else
        var b := WithPart(a, name, part, body);
        if b.received != b.total then Fed(t[k := b], None)
        else
          var data := Flatten(b.chunks);
          Fed(t - {k}, if |data| > MAX_DATAGRAM then None else Some((b.name, data)))
  }

  function Feed(t: Table, m: Message, now: int): Fed {
    if |m.payload| < 4 then Fed(t, None)
    else
      var part, total := GetUint(m.payload[..2]), GetUint(m.payload[2..4]);
      if total < 1 || total > MAX_TOTAL || part >= total then Fed(t, None)
      else Store(t, Key(m.connID, m.seqNo), m.name, part, total, m.payload[4..], now)
  }

  /** Assemblies older than 30 seconds go. */
  function Swept(t: Table, now: int): Table {
    map k | k in t && now - t[k].created <= LIFETIME :: t[k]
  }

  // ----- bounds, whatever the peer sends -----

  datatype Input = Chunk(m: Message, now: int) | Clock(now: int)

  function Took(t: Table, i: Input): Fed {
    match i
    case Chunk(m, now) => Feed(t, m, now)
    case Clock(now) => Fed(Swept(t, now), None)
  }

  function TookAll(t: Table, inputs: seq<Input>): Table
    decreases |inputs|
  {
    if inputs == [] then t else TookAll(Took(t, inputs[0]).table, inputs[1..])
  }

  ghost predicate Bounded(t: Table) {
    |t| <= MAX_ASSEMBLIES && forall k | k in t :: 1 <= t[k].total <= MAX_TOTAL
  }

  lemma PutBounded(t: Table, k: Key, a: Assembly)
    requires Bounded(t) && (k in t || |t| < MAX_ASSEMBLIES) && 1 <= a.total <= MAX_TOTAL && |a.chunks| == a.total
    ensures Bounded(t[k := a])
  {
    assert t[k := a].Keys == t.Keys + {k};
    assert |t| == |t.Keys| && |t[k := a]| == |t[k := a].Keys|;
    if k in t { assert t.Keys + {k} == t.Keys; }
  }

  lemma DropBounded(t: Table, k: Key)
    requires Bounded(t)
    ensures Bounded(t - {k})
  {
    Fewer((t - {k}).Keys, t.Keys);
    assert |t| == |t.Keys| && |t - {k}| == |(t - {k}).Keys|;
  }

  /** A stored part changes at most its own assembly. */
  lemma StoreCases(t: Table, k: Key, name: Data, part: nat, total: nat, body: Data, now: int)
    requires part < total
    ensures var fed := Store(t, k, name, part, total, body, now);
            && (fed.out.Some? ==> |fed.out.value.1| <= MAX_DATAGRAM)
            && (|| fed.table == t || fed.table == t - {k}
                || (&& (k in t || |t| < MAX_ASSEMBLIES) && k in fed.table
                    && fed.table == t[k := fed.table[k]] && fed.table[k].total == total))
  {
  }

  lemma StoreBounded(t: Table, k: Key, name: Data, part: nat, total: nat, body: Data, now: int)
    requires Bounded(t) && part < total <= MAX_TOTAL
    ensures var fed := Store(t, k, name, part, total, body, now);
            Bounded(fed.table) && (fed.out.Some? ==> |fed.out.value.1| <= MAX_DATAGRAM)
  {
    StoreCases(t, k, name, part, total, body, now);
    var after := Store(t, k, name, part, total, body, now).table;
    if after == t - {k} {
      DropBounded(t, k);
    } else if after != t {
      PutBounded(t, k, after[k]);
    }
  }

  lemma SweptBounded(t: Table, now: int)
    requires Bounded(t)
    ensures Bounded(Swept(t, now))
  {
    Fewer(Swept(t, now).Keys, t.Keys);
    assert |t| == |t.Keys| && |Swept(t, now)| == |Swept(t, now).Keys|;
  }

  lemma TookBounded(t: Table, i: Input)
    requires Bounded(t)
    ensures Bounded(Took(t, i).table) && (Took(t, i).out.Some? ==> |Took(t, i).out.value.1| <= MAX_DATAGRAM)
  {
    match i
    case Chunk(m, now) =>
      if |m.payload| >= 4 {
        var part, total := GetUint(m.payload[..2]), GetUint(m.payload[2..4]);
        if 1 <= total <= MAX_TOTAL && part < total {
          StoreBounded(t, Key(m.connID, m.seqNo), m.name, part, total, m.payload[4..], now);
        }
      }
    case Clock(now) => SweptBounded(t, now);
  }

  /** Whatever messages come, well formed or not, and whenever: at most 4096 datagrams of at most 128 parts are under way,
      and what the next input delivers has at most 65507 bytes. */
  lemma {:induction false} AlwaysBounded(t: Table, inputs: seq<Input>, next: Input)
    requires Bounded(t)
    ensures Bounded(TookAll(t, inputs))
    ensures var out := Took(TookAll(t, inputs), next).out; out.Some? ==> |out.value.1| <= MAX_DATAGRAM
    decreases |inputs|
  {
    if inputs == [] {
      TookBounded(t, next);
    } else {
      TookBounded(t, inputs[0]);
      AlwaysBounded(Took(t, inputs[0]).table, inputs[1..], next);
    }
  }

  class Reassembler {
    var table: Table

    constructor ()
      ensures table == map[]
    {
      table := map[];
    }

    method HandleChunk(m: Message, now: int) returns (out: Option<(Data, Data)>)
      modifies this
      ensures Fed(table, out) == Feed(old(table), m, now)
    {
      if |m.payload| < 4 {
        return None;
      }
      var part, total := GetUint(m.payload[..2]), GetUint(m.payload[2..4]);
      if total < 1 || total > MAX_TOTAL || part >= total {
        return None;
      }
      out := StoreChunk(Key(m.connID, m.seqNo), m.name, part, total, m.payload[4..], now);
    }

    method StoreChunk(k: Key, name: Data, part: nat, total: nat, body: Data, now: int) returns (out: Option<(Data, Data)>)
      requires part < total
      modifies this
      ensures Fed(table, out) == Store(old(table), k, name, part, total, body, now)
    {
      var a := Assembly(now, name, total, 0, seq(total, _ => []));
      if k in table {
        a := table[k];
      } else if |table| >= MAX_ASSEMBLIES {
        return None;
      }
      if a.total != total {
        table := table - {k};
        return None;
      }
      a := WithPart(a, name, part, body);
      if a.received != a.total {
        table := table[k := a];
        return None;
      }
      table := table - {k};
      var data := JoinAll(a.chunks);
      return if |data| > MAX_DATAGRAM then None else Some((a.name, data));
    }

    method Cleanup(now: int)
      modifies this
      ensures table == Swept(old(table), now)
    {
      var todo := table.Keys;
      while todo != {}
        invariant todo <= old(table).Keys
        invariant table == map k | k in old(table) && (k in todo || now - old(table)[k].created <= LIFETIME) :: old(table)[k]
        decreases todo
      {
        var k :| k in todo;
        todo := todo - {k};
        if now - table[k].created > LIFETIME {
          table := table - {k};
        }
      }
    }
  }

  method JoinAll(chunks: seq<Data>) returns (data: Data)
    ensures data == Flatten(chunks)
  {
    data := [];
    for i := 0 to |chunks|
      invariant data == Flatten(chunks[..i])
    {
      assert chunks[..i + 1][..i] == chunks[..i];
      data := data + chunks[i];
    }
    assert chunks[..|chunks|] == chunks;
  }
}
