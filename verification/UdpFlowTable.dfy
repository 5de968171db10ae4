/** The table of UDP clients at the entry node: identifiers by client key and clients by identifier. */
module UdpFlowTable {
  import opened Bytes

  const MAX_FLOWS: nat := 65536
  const IDLE: int := 120_000
  const ATTEMPTS: nat := 10

  datatype Client = Client(forward: string, network: string, addr: string)

  datatype Flow = Flow(client: Client, service: string, last: int)

  datatype Tables = Tables(entry: map<nat, Flow>, keys: map<string, nat>)

  function KeyOf(c: Client): string {
    c.forward + "|" + c.network + "|" + c.addr
  }

  /** Forward names follow the identifier pattern and network names are "udp" and the like: neither has a bar. */
  predicate Plain(c: Client) {
    '|' !in c.forward && '|' !in c.network
  }

  lemma {:induction false} FirstBar(a: string, s: string, b: string, t: string)
    requires '|' !in a && '|' !in b && a + "|" + s == b + "|" + t
    ensures a == b && s == t
  {
    var u := a + "|" + s;
    assert u[|a|] == '|' && u[|b|] == '|';
    assert a == u[..|a|] && b == u[..|b|];
    assert s == u[|a| + 1..] && t == u[|b| + 1..];
  }

  /** Different clients have different keys. */
  lemma KeyInjective(c: Client, d: Client)
    requires Plain(c) && Plain(d) && KeyOf(c) == KeyOf(d)
    ensures c == d
  {
    assert KeyOf(c) == c.forward + "|" + (c.network + "|" + c.addr);
    assert KeyOf(d) == d.forward + "|" + (d.network + "|" + d.addr);
    FirstBar(c.forward, c.network + "|" + c.addr, d.forward, d.network + "|" + d.addr);
    FirstBar(c.network, c.addr, d.network, d.addr);
  }

  /** The keys map one to one onto the identifiers in use, and each identifier is its own client's. */
  ghost predicate Bijective(t: Tables) {
    && (forall k | k in t.keys :: t.keys[k] in t.entry && k == KeyOf(t.entry[t.keys[k]].client))
    && (forall id | id in t.entry ::
          Plain(t.entry[id].client) && KeyOf(t.entry[id].client) in t.keys && t.keys[KeyOf(t.entry[id].client)] == id)
  }

  ghost predicate Good(t: Tables) {
    Bijective(t) && |t.entry| <= MAX_FLOWS
  }

  /** Two clients in the table never share an identifier. */
  lemma ClientsApart(t: Tables, c: Client, d: Client)
    requires Good(t) && Plain(c) && Plain(d) && c != d && KeyOf(c) in t.keys && KeyOf(d) in t.keys
    ensures t.keys[KeyOf(c)] != t.keys[KeyOf(d)]
  {
    if KeyOf(c) == KeyOf(d) { KeyInjective(c, d); }
  }

  // ----- the operations on values -----

  datatype Op =
    | Get(client: Client, service: string, now: int, ids: seq<nat>)
    | Reply(id: nat, now: int)
    | Sweep(now: int)
    | Clear

  /** The first of the first ten draws that is not in use; none means that all of them were. */
  function Pick(entry: map<nat, Flow>, ids: seq<nat>, from: nat): (r: Option<nat>)
    ensures r.Some? ==> exists i :: from <= i < |ids| && i < ATTEMPTS && r.value == ids[i] && ids[i] !in entry
                                    && forall j | from <= j < i :: ids[j] in entry
    ensures r.None? <==> forall i | from <= i < |ids| && i < ATTEMPTS :: ids[i] in entry
    decreases |ids| - from
  {
    if from >= |ids| || from >= ATTEMPTS then None
    else if ids[from] !in entry then Some(ids[from])
    else Pick(entry, ids, from + 1)
  }

  function Chosen(t: Tables, c: Client, ids: seq<nat>): Option<nat> {
    if KeyOf(c) in t.keys && t.keys[KeyOf(c)] in t.entry then Some(t.keys[KeyOf(c)])
    else if |t.entry| >= MAX_FLOWS then None
    else Pick(t.entry, ids, 0)
  }

  function Apply(t: Tables, op: Op): Tables {
    match op
    case Get(c, service, now, ids) =>
      if KeyOf(c) in t.keys && t.keys[KeyOf(c)] in t.entry then
        var id := t.keys[KeyOf(c)];
        t.(entry := t.entry[id := t.entry[id].(last := now)])
      else
        var chosen := Chosen(t, c, ids);
        if chosen.None? then t
        else Tables(t.entry[chosen.value := Flow(c, service, now)], t.keys[KeyOf(c) := chosen.value])
    case Reply(id, now) =>
      if id in t.entry then t.(entry := t.entry[id := t.entry[id].(last := now)]) else t
    case Sweep(now) =>
      Tables(map id | id in t.entry && now - t.entry[id].last <= IDLE :: t.entry[id],
             map k | k in t.keys && !(t.keys[k] in t.entry && now - t.entry[t.keys[k]].last > IDLE) :: t.keys[k])
    case Clear =>
      Tables(map[], map[])
  }

  ghost predicate OpOk(op: Op) {
    op.Get? ==> Plain(op.client)
  }

  lemma TouchKeeps(t: Tables, id: nat, now: int)
    requires Good(t) && id in t.entry
    ensures Good(t.(entry := t.entry[id := t.entry[id].(last := now)]))
  {
    var touched := t.entry[id := t.entry[id].(last := now)];
    assert touched.Keys == t.entry.Keys;
    assert |touched| == |touched.Keys| && |t.entry| == |t.entry.Keys|;
  }

  lemma NewBijective(t: Tables, id: nat, f: Flow, key: string)
    requires Bijective(t) && id !in t.entry && Plain(f.client) && key == KeyOf(f.client) && key !in t.keys
    ensures Bijective(Tables(t.entry[id := f], t.keys[key := id]))
  {
    var t' := Tables(t.entry[id := f], t.keys[key := id]);
    forall k | k in t'.keys ensures t'.keys[k] in t'.entry && k == KeyOf(t'.entry[t'.keys[k]].client) {
      if k != key { assert t.keys[k] != id; }
    }
    forall j | j in t'.entry
      ensures Plain(t'.entry[j].client) && KeyOf(t'.entry[j].client) in t'.keys && t'.keys[KeyOf(t'.entry[j].client)] == j
    {
      if j != id { assert KeyOf(t.entry[j].client) != key; }
    }
  }

  lemma NewKeeps(t: Tables, id: nat, f: Flow)
    requires Good(t) && id !in t.entry && Plain(f.client) && KeyOf(f.client) !in t.keys && |t.entry| < MAX_FLOWS
    ensures Good(Tables(t.entry[id := f], t.keys[KeyOf(f.client) := id]))
  {
    NewBijective(t, id, f, KeyOf(f.client));
    var more := t.entry[id := f];
    assert more.Keys == t.entry.Keys + {id};
    assert |more| == |more.Keys| && |t.entry| == |t.entry.Keys|;
  }

  lemma GetKeeps(t: Tables, op: Op)
    requires Good(t) && OpOk(op) && op.Get?
    ensures Good(Apply(t, op))
  {
    var key := KeyOf(op.client);
    if key in t.keys {
      TouchKeeps(t, t.keys[key], op.now);
    } else if Chosen(t, op.client, op.ids).Some? {
      NewKeeps(t, Chosen(t, op.client, op.ids).value, Flow(op.client, op.service, op.now));
    }
  }

  lemma SweepKeeps(t: Tables, now: int)
    requires Good(t)
    ensures Good(Apply(t, Sweep(now)))
  {
    var t' := Apply(t, Sweep(now));
    assert t'.entry.Keys <= t.entry.Keys;
    Fewer(t'.entry.Keys, t.entry.Keys);
    assert |t'.entry| == |t'.entry.Keys| && |t.entry| == |t.entry.Keys|;
  }

  lemma StepKeeps(t: Tables, op: Op)
    requires Good(t) && OpOk(op)
    ensures Good(Apply(t, op))
  {
    match op
    case Get(_, _, _, _) => GetKeeps(t, op);
    case Reply(id, now) => if id in t.entry { TouchKeeps(t, id, now); }
    case Sweep(now) => SweepKeeps(t, now);
    case Clear =>
  }

  function ApplyAll(t: Tables, ops: seq<Op>): Tables
    decreases |ops|
  {
    if ops == [] then t else ApplyAll(Apply(t, ops[0]), ops[1..])
  }

  /** Every sequence of lookups, cleanups and closes keeps the two maps a bijection of at most 65536 clients. */
  lemma {:induction false} AlwaysBijective(t: Tables, ops: seq<Op>)
    requires Good(t) && forall i | 0 <= i < |ops| :: OpOk(ops[i])
    ensures Good(ApplyAll(t, ops))
    decreases |ops|
  {
    if ops != [] {
      StepKeeps(t, ops[0]);
      AlwaysBijective(Apply(t, ops[0]), ops[1..]);
    }
  }

  /** A lookup finds or makes the client's identifier if and only if the client is known or there is room and one of the
      first ten draws is not in use, and then the identifier is that client's. */
  lemma LookupExact(t: Tables, c: Client, service: string, now: int, ids: seq<nat>)
    requires Good(t) && Plain(c)
    ensures var r, t' := Chosen(t, c, ids), Apply(t, Get(c, service, now, ids));
            && (r.Some? <==> KeyOf(c) in t.keys ||
                             (|t.entry| < MAX_FLOWS && exists i :: 0 <= i < |ids| && i < ATTEMPTS && ids[i] !in t.entry))
            && (r.Some? ==> KeyOf(c) in t'.keys && t'.keys[KeyOf(c)] == r.value && r.value in t'.entry && t'.entry[r.value].client == c)
            && (KeyOf(c) in t.keys ==> r == Some(t.keys[KeyOf(c)]))
            && (r.None? ==> t' == t)
  {
    if KeyOf(c) in t.keys { KeyInjective(c, t.entry[t.keys[KeyOf(c)]].client); }
  }

  // ----- activity, by the lookups and replies of the run -----

  /** The client with this key and identifier is looked up or replied to. */
  predicate Uses(op: Op, key: string, id: nat) {
    (op.Get? && KeyOf(op.client) == key) || (op.Reply? && op.id == id)
  }

  /** The time of the last such use, `last` if there is none. */
  function LastUse(ops: seq<Op>, key: string, id: nat, last: int): int
    decreases |ops|
  {
    if ops == [] then last else LastUse(ops[1..], key, id, if Uses(ops[0], key, id) then ops[0].now else last)
  }

  /** Every cleanup comes at most two minutes after the last use before it, and the table is not closed. */
  predicate StaysActive(ops: seq<Op>, key: string, id: nat, last: int)
    decreases |ops|
  {
    ops == [] ||
    (&& !ops[0].Clear?
     && (ops[0].Sweep? ==> ops[0].now - last <= IDLE)
     && StaysActive(ops[1..], key, id, if Uses(ops[0], key, id) then ops[0].now else last))
  }

  /** The client has this identifier and was last used then. */
  ghost predicate UsedAt(t: Tables, key: string, id: nat, last: int) {
    key in t.keys && t.keys[key] == id && id in t.entry && t.entry[id].last == last
  }

  lemma UseStep(t: Tables, op: Op, key: string, id: nat, last: int)
    requires Good(t) && OpOk(op) && UsedAt(t, key, id, last) && !op.Clear? && (op.Sweep? ==> op.now - last <= IDLE)
    ensures UsedAt(Apply(t, op), key, id, if Uses(op, key, id) then op.now else last)
  {
  }

  /** An active client keeps its identifier whatever the other clients do, and is known by its last use. */
  lemma {:induction false} ActiveRun(t: Tables, ops: seq<Op>, key: string, id: nat, last: int)
    requires Good(t) && (forall i | 0 <= i < |ops| :: OpOk(ops[i])) && UsedAt(t, key, id, last) && StaysActive(ops, key, id, last)
    ensures UsedAt(ApplyAll(t, ops), key, id, LastUse(ops, key, id, last)) && Good(ApplyAll(t, ops))
    decreases |ops|
  {
    if ops != [] {
      StepKeeps(t, ops[0]);
      UseStep(t, ops[0], key, id, last);
      ActiveRun(Apply(t, ops[0]), ops[1..], key, id, if Uses(ops[0], key, id) then ops[0].now else last);
    }
  }

  /** A client that was looked up, and then looked up or replied to within the two minutes before every cleanup, keeps the
      identifier it got; and the next cleanup removes it if and only if its last use is more than two minutes ago. */
  lemma ActiveKeepsIdentifier(t: Tables, c: Client, service: string, now: int, ids: seq<nat>, ops: seq<Op>, later: int)
    requires Good(t) && Plain(c) && Chosen(t, c, ids).Some? && forall i | 0 <= i < |ops| :: OpOk(ops[i])
    requires StaysActive(ops, KeyOf(c), Chosen(t, c, ids).value, now)
    ensures var key, id := KeyOf(c), Chosen(t, c, ids).value;
            var t' := ApplyAll(Apply(t, Get(c, service, now, ids)), ops);
            && key in t'.keys && t'.keys[key] == id
            && (key in Apply(t', Sweep(later)).keys <==> later - LastUse(ops, key, id, now) <= IDLE)
  {
    LookupExact(t, c, service, now, ids);
    StepKeeps(t, Get(c, service, now, ids));
    ActiveRun(Apply(t, Get(c, service, now, ids)), ops, KeyOf(c), Chosen(t, c, ids).value, now);
  }

  // ----- the object -----

  class FlowTable {
    var entry: map<nat, Flow>
    var keys: map<string, nat>
    var closed: bool

    function View(): Tables
      reads this
    {
      Tables(entry, keys)
    }

    constructor ()
      ensures View() == Tables(map[], map[]) && !closed
    {
      entry, keys, closed := map[], map[], false;
    }

    /** The client's identifier, an unused one of ten random draws (`ids`, shorter when the generator fails), or none. */
    method GetEntryFlow(c: Client, service: string, now: int, ids: seq<nat>) returns (r: Option<nat>)
      modifies `entry, `keys
      ensures closed ==> r == None && View() == old(View())
      ensures !closed ==> r == Chosen(old(View()), c, ids) && View() == Apply(old(View()), Get(c, service, now, ids))
    {
      if closed {
        return None;
      }
      var key := KeyOf(c);
      if key in keys && keys[key] in entry {
        var id := keys[key];
        entry := entry[id := entry[id].(last := now)];
        return Some(id);
      }
      if |entry| >= MAX_FLOWS {
        return None;
      }
      var attempt := 0;
      while attempt < ATTEMPTS
        invariant attempt <= ATTEMPTS && View() == old(View())
        invariant Pick(entry, ids, 0) == Pick(entry, ids, attempt)
      {
        if attempt >= |ids| {
          return None;
        }
        var id := ids[attempt];
        if id !in entry {
          entry, keys := entry[id := Flow(c, service, now)], keys[key := id];
          return Some(id);
        }
        attempt := attempt + 1;
      }
      return None;
    }

    /** A datagram for `id` comes back through the tunnel: the client it goes to counts as active. */
    method HandleReply(id: nat, now: int) returns (client: Option<Client>)
      modifies `entry
      ensures View() == Apply(old(View()), Reply(id, now))
      ensures client == if id in old(entry) then Some(old(entry)[id].client) else None
    {
      if id !in entry {
        return None;
      }
      entry := entry[id := entry[id].(last := now)];
      return Some(entry[id].client);
    }

    /** Removes idle flows and, in an inner pass, every key that names one. */
    method Cleanup(now: int)
      modifies `entry, `keys
      ensures View() == Apply(old(View()), Sweep(now))
    {
      ghost var e, ks := entry, keys;
      var todo := entry.Keys;
      while todo != {}
        invariant todo <= e.Keys
        invariant entry == map id | id in e && (id in todo || now - e[id].last <= IDLE) :: e[id]
        invariant keys == map k | k in ks && !(ks[k] in e.Keys - todo && now - e[ks[k]].last > IDLE) :: ks[k]
        decreases todo
      {
        var id :| id in todo;
        todo := todo - {id};
        if now - entry[id].last > IDLE {
          entry := entry - {id};
          RemoveKeysOf(id);
        }
      }
    }

    method RemoveKeysOf(id: nat)
      modifies `keys
      ensures keys == map k | k in old(keys) && old(keys)[k] != id :: old(keys)[k]
    {
      ghost var ks := keys;
      var todo := keys.Keys;
      while todo != {}
        invariant todo <= ks.Keys
        invariant keys == map k | k in ks && (k in todo || ks[k] != id) :: ks[k]
        decreases todo
      {
        var k :| k in todo;
        todo := todo - {k};
        if keys[k] == id {
          keys := keys - {k};
        }
      }
    }

    method Close()
      modifies this
      ensures closed && View() == Apply(old(View()), Clear)
    {
      closed, entry, keys := true, map[], map[];
    }
  }
}
