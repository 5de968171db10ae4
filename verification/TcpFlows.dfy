/**
 TCP flows between two nodes: open, status, data and close messages over carriers that may lose, repeat, delay and
 reorder them (a failover sends a message a second time), local connections that take bytes in pieces and may fail,
 and the goroutines of both nodes in every interleaving. Flow identifiers are fresh.
 */
module TcpFlows {
  import opened Bytes
  import opened Writers
  import opened OrderedFlow

  datatype Msg = Open(id: nat) | Status(id: nat, good: bool) | Chunk(id: nat, seqNo: nat, payload: Data) | Shut(id: nat)

  /** One end of a flow, from installation on. `live` while the node's connection table has it. The opener waits for
      `ready` and gives up when that takes too long or the node stops; the acceptor owes a status; `pumping` while its
      read loop may send; `read` is what the loop read. A stopping node drops its flows. */
  datatype Flow = Flow(
    opener: bool, live: bool, waiting: bool, ready: Option<bool>, owesStatus: bool, pumping: bool,
    rx: Receiver, read: seq<Data>)

  /** A node: every flow it ever installed and the messages it has sent. */
  datatype Node = Node(flows: map<nat, Flow>, wire: set<Msg>)

  /** A flow as its opener and as its acceptor install it. */
  function Opener(room: nat, waiting: bool): Flow {
    Flow(true, true, waiting, None, false, false, Fresh(room), [])
  }

  function Acceptor(room: nat): Flow {
    Flow(false, true, false, None, true, false, Fresh(room), [])
  }

  datatype Action =
    | OpenLocal(id: nat, room: nat, ok: bool)
    | RefuseOpen(id: nat)
    | AcceptOpen(id: nat, room: nat)
    | SendStatus(id: nat, ok: bool)
    | HandleStatus(id: nat, good: bool)
    | Wake(id: nat)
    | GiveUp(id: nat, notify: bool)
    | Pump(id: nat, chunk: Data)
    | PumpEnd(id: nat)
    | HandleChunk(id: nat, seqNo: nat, payload: Data)
    | HandleShut(id: nat)
    | Drop(id: nat)

  predicate Live(x: Node, id: nat) {
    id in x.flows && x.flows[id].live
  }

  /** `x` may do `a` while the peer is `y`; any message of the peer may arrive at any time, again and again. */
  ghost predicate Enabled(x: Node, y: Node, a: Action) {
    match a
    case OpenLocal(id, room, ok) => id !in x.flows && id !in y.flows
    case RefuseOpen(id) => Open(id) in y.wire
    case AcceptOpen(id, room) => Open(id) in y.wire
    case SendStatus(id, ok) => id in x.flows && x.flows[id].owesStatus
    case HandleStatus(id, good) => Status(id, good) in y.wire
    case Wake(id) => id in x.flows && x.flows[id].waiting && x.flows[id].ready.Some?
    case GiveUp(id, notify) => id in x.flows && x.flows[id].waiting
    case Pump(id, chunk) => id in x.flows && x.flows[id].pumping && 0 < |chunk| <= CHUNK
    case PumpEnd(id) => id in x.flows && x.flows[id].pumping
    case HandleChunk(id, k, p) => Chunk(id, k, p) in y.wire
    case HandleShut(id) => Shut(id) in y.wire
    case Drop(id) => true
  }

  function Set(x: Node, id: nat, f: Flow): Node {
    x.(flows := x.flows[id := f])
  }

  function Say(x: Node, m: Msg): Node {
    x.(wire := x.wire + {m})
  }

  /** closeTCP: a live flow leaves the table, and the peer is told if asked for. */
  function Shutdown(x: Node, id: nat, notify: bool): Node {
    if !Live(x, id) then x
    else
      var closed := Set(x, id, x.flows[id].(live := false));
      if notify then Say(closed, Shut(id)) else closed
  }

  /** A send that reports an error may still have been delivered, so its message counts as sent. */
  function Apply(x: Node, y: Node, a: Action): Node
    requires Enabled(x, y, a)
  {
    match a
    case OpenLocal(id, room, ok) =>
      var begun := Say(Set(x, id, Opener(room, ok)), Open(id));
      if ok then begun else Shutdown(begun, id, false)
    case RefuseOpen(id) =>
      Say(x, Status(id, false))
    case AcceptOpen(id, room) =>
      if Live(x, id) then x else Set(x, id, Acceptor(room))
    case SendStatus(id, ok) =>
      var f := x.flows[id].(owesStatus := false, pumping := ok);
      var told := Say(Set(x, id, f), Status(id, true));
      if ok then told else Shutdown(told, id, false)
    case HandleStatus(id, good) =>
      if Live(x, id) && x.flows[id].opener && x.flows[id].ready.None?
      then Set(x, id, x.flows[id].(ready := Some(good))) else x
    case Wake(id) =>
      var good := x.flows[id].ready == Some(true);
      var woken := Set(x, id, x.flows[id].(waiting := false, pumping := good));
      if good then woken else Shutdown(woken, id, false)
    case GiveUp(id, notify) =>
      Shutdown(Set(x, id, x.flows[id].(waiting := false)), id, notify)
    case Pump(id, chunk) =>
      var f := x.flows[id];
      Say(Set(x, id, f.(read := f.read + [chunk])), Chunk(id, |f.read| + 1, chunk))
    case PumpEnd(id) =>
      Shutdown(Set(x, id, x.flows[id].(pumping := false)), id, true)
    case HandleChunk(id, k, p) =>
      if !Live(x, id) then Say(x, Shut(id))
      else
        var o := Arrive(x.flows[id].rx, k, p);
        var fed := Set(x, id, x.flows[id].(rx := o.rx));
        if o.ok then fed else Shutdown(fed, id, true)
    case HandleShut(id) =>
      Shutdown(x, id, false)
    case Drop(id) =>
      Shutdown(x, id, false)
  }

  datatype Pair = Pair(x: Node, y: Node)

  datatype Step = Step(left: bool, action: Action)

  ghost predicate Can(n: Pair, s: Step) {
    if s.left then Enabled(n.x, n.y, s.action) else Enabled(n.y, n.x, s.action)
  }

  ghost function Do(n: Pair, s: Step): Pair
    requires Can(n, s)
  {
    if s.left then n.(x := Apply(n.x, n.y, s.action)) else n.(y := Apply(n.y, n.x, s.action))
  }

  ghost predicate Runs(n: Pair, steps: seq<Step>)
    decreases |steps|
  {
    steps == [] || (Can(n, steps[0]) && Runs(Do(n, steps[0]), steps[1..]))
  }

  ghost function After(n: Pair, steps: seq<Step>): Pair
    requires Runs(n, steps)
    decreases |steps|
  {
    if steps == [] then n else After(Do(n, steps[0]), steps[1..])
  }

  const IDLE: Node := Node(map[], {})
  const INITIAL: Pair := Pair(IDLE, IDLE)

  // ----- roles: what holds in every run -----

  /** What a message says of the flows: an open request comes from an opener, a good status from an acceptor, and data
      only goes to a node that has installed the flow. */
  ghost predicate Known(x: Node, y: Node, m: Msg) {
    match m
    case Open(id) => id in x.flows && x.flows[id].opener
    case Status(id, good) => good ==> id in x.flows && !x.flows[id].opener
    case Chunk(id, k, p) => id in x.flows && id in y.flows && p != []
    case Shut(id) => true
  }

  /** An end of a flow at `x`: data only flows once the peer has the flow, and the two ends have different roles. */
  ghost predicate RoleOk(x: Node, y: Node, id: nat)
    requires id in x.flows
  {
    var f := x.flows[id];
    && (!f.opener ==> Open(id) in y.wire)
    && (f.owesStatus ==> !f.opener)
    && (f.waiting ==> f.opener)
    && (f.ready == Some(true) ==> Status(id, true) in y.wire)
    && (f.pumping || f.read != [] ==> id in y.flows)
    && (id in y.flows ==> f.opener != y.flows[id].opener)
  }

  ghost predicate Roles(x: Node, y: Node) {
    && (forall m | m in x.wire :: Known(x, y, m))
    && (forall id | id in x.flows :: RoleOk(x, y, id))
  }

  ghost predicate RolesBoth(x: Node, y: Node) {
    Roles(x, y) && Roles(y, x)
  }

  /** Flows and messages are only added, and roles stay. */
  ghost predicate Extends(x: Node, x': Node) {
    && x.wire <= x'.wire
    && (forall id | id in x.flows :: id in x'.flows && x'.flows[id].opener == x.flows[id].opener)
  }

  /** Only flow `id` changes. */
  ghost predicate Only(x: Node, x': Node, id: nat) {
    forall j | j in x'.flows && j != id :: j in x.flows && x'.flows[j] == x.flows[j]
  }

  lemma OwnRoles(x: Node, x': Node, y: Node, id: nat)
    requires Roles(x, y) && Extends(x, x') && Only(x, x', id)
    requires forall m | m in x'.wire && m !in x.wire :: Known(x', y, m)
    requires id in x'.flows ==> RoleOk(x', y, id)
    ensures Roles(x', y)
  {
    forall m | m in x'.wire ensures Known(x', y, m) { assert m in x.wire ==> Known(x, y, m); }
    forall j | j in x'.flows ensures RoleOk(x', y, j) { assert j != id ==> RoleOk(x, y, j); }
  }

  lemma PeerRoles(x: Node, x': Node, y: Node, id: nat)
    requires Roles(y, x) && Extends(x, x') && Only(x, x', id)
    requires id in x'.flows && id in y.flows ==> x'.flows[id].opener != y.flows[id].opener
    ensures Roles(y, x')
  {
    forall m | m in y.wire ensures Known(y, x', m) { assert Known(y, x, m); }
    forall j | j in y.flows ensures RoleOk(y, x', j) { assert RoleOk(y, x, j); }
  }

  /** An installed flow changes without changing its role, and `x` may say something known. */
  lemma FlowRoles(x: Node, y: Node, id: nat, f: Flow, said: set<Msg>)
    requires RolesBoth(x, y) && id in x.flows && f.opener == x.flows[id].opener
    requires var x' := Node(x.flows[id := f], x.wire + said); RoleOk(x', y, id) && forall m | m in said :: Known(x', y, m)
    ensures RolesBoth(Node(x.flows[id := f], x.wire + said), y)
  {
    var x' := Node(x.flows[id := f], x.wire + said);
    OwnRoles(x, x', y, id);
    PeerRoles(x, x', y, id);
  }

  lemma SetRoles(x: Node, y: Node, id: nat, f: Flow)
    requires RolesBoth(x, y) && id in x.flows && f.opener == x.flows[id].opener && RoleOk(Set(x, id, f), y, id)
    ensures RolesBoth(Set(x, id, f), y)
  {
    assert Set(x, id, f) == Node(x.flows[id := f], x.wire + {});
    FlowRoles(x, y, id, f, {});
  }

  lemma SayRoles(x: Node, y: Node, m: Msg)
    requires RolesBoth(x, y) && Known(x, y, m)
    ensures RolesBoth(Say(x, m), y)
  {
    var x' := Say(x, m);
    forall k | k in x'.wire ensures Known(x', y, k) { assert k != m ==> Known(x, y, k); }
    forall id | id in x'.flows ensures RoleOk(x', y, id) { assert RoleOk(x, y, id); }
    forall k | k in y.wire ensures Known(y, x', k) { assert Known(y, x, k); }
    forall id | id in y.flows ensures RoleOk(y, x', id) { assert RoleOk(y, x, id); }
  }

  lemma ShutdownRoles(x: Node, y: Node, id: nat, notify: bool)
    requires RolesBoth(x, y)
    ensures RolesBoth(Shutdown(x, id, notify), y)
  {
    if Live(x, id) {
      assert RoleOk(x, y, id);
      SetRoles(x, y, id, x.flows[id].(live := false));
      SayRoles(Set(x, id, x.flows[id].(live := false)), y, Shut(id));
    }
  }

  lemma OpenRoles(x: Node, y: Node, id: nat, room: nat, waiting: bool)
    requires RolesBoth(x, y) && id !in x.flows && id !in y.flows
    ensures RolesBoth(Say(Set(x, id, Opener(room, waiting)), Open(id)), y)
  {
    var x' := Say(Set(x, id, Opener(room, waiting)), Open(id));
    OwnRoles(x, x', y, id);
    PeerRoles(x, x', y, id);
  }

  /** An open request comes from the peer's own flow, so whatever the acceptor has under that identifier is its end. */
  lemma AcceptorSide(x: Node, y: Node, id: nat)
    requires RolesBoth(x, y) && Open(id) in y.wire
    ensures id in y.flows && y.flows[id].opener && (id in x.flows ==> !x.flows[id].opener)
    ensures id !in x.flows ==> y.flows[id].read == [] && forall k: nat, p: Data :: Chunk(id, k, p) !in x.wire && Chunk(id, k, p) !in y.wire
  {
    assert Known(y, x, Open(id));
    assert RoleOk(y, x, id);
    if id in x.flows { assert RoleOk(x, y, id); }
    forall k: nat, p: Data | id !in x.flows ensures Chunk(id, k, p) !in x.wire && Chunk(id, k, p) !in y.wire {
      assert Chunk(id, k, p) in x.wire ==> Known(x, y, Chunk(id, k, p));
      assert Chunk(id, k, p) in y.wire ==> Known(y, x, Chunk(id, k, p));
    }
  }

  lemma AcceptRoles(x: Node, y: Node, id: nat, room: nat)
    requires RolesBoth(x, y) && Open(id) in y.wire
    ensures RolesBoth(Set(x, id, Acceptor(room)), y)
  {
    var x' := Set(x, id, Acceptor(room));
    AcceptorSide(x, y, id);
    OwnRoles(x, x', y, id);
    PeerRoles(x, x', y, id);
  }

  lemma StatusRoles(x: Node, y: Node, id: nat, ok: bool)
    requires RolesBoth(x, y) && Enabled(x, y, SendStatus(id, ok))
    ensures RolesBoth(Apply(x, y, SendStatus(id, ok)), y)
  {
    var f := x.flows[id].(owesStatus := false, pumping := ok);
    assert RoleOk(x, y, id);
    assert Known(y, x, Open(id));
    FlowRoles(x, y, id, f, {Status(id, true)});
    ShutdownRoles(Say(Set(x, id, f), Status(id, true)), y, id, false);
  }

  lemma WakeRoles(x: Node, y: Node, id: nat)
    requires RolesBoth(x, y) && Enabled(x, y, Wake(id))
    ensures RolesBoth(Apply(x, y, Wake(id)), y)
  {
    var good := x.flows[id].ready == Some(true);
    var f := x.flows[id].(waiting := false, pumping := good);
    assert RoleOk(x, y, id);
    if good { assert Known(y, x, Status(id, true)); }
    SetRoles(x, y, id, f);
    ShutdownRoles(Set(x, id, f), y, id, false);
  }

  lemma StopRoles(x: Node, y: Node, id: nat, f: Flow, notify: bool)
    requires RolesBoth(x, y) && id in x.flows
    requires f == x.flows[id].(waiting := false) || f == x.flows[id].(pumping := false) || f == x.flows[id].(rx := f.rx)
    ensures RolesBoth(Shutdown(Set(x, id, f), id, notify), y) && RolesBoth(Set(x, id, f), y)
  {
    assert RoleOk(x, y, id);
    SetRoles(x, y, id, f);
    ShutdownRoles(Set(x, id, f), y, id, notify);
  }

  lemma PumpRoles(x: Node, y: Node, id: nat, chunk: Data)
    requires RolesBoth(x, y) && Enabled(x, y, Pump(id, chunk))
    ensures RolesBoth(Apply(x, y, Pump(id, chunk)), y)
  {
    var f := x.flows[id];
    assert RoleOk(x, y, id);
    FlowRoles(x, y, id, f.(read := f.read + [chunk]), {Chunk(id, |f.read| + 1, chunk)});
  }

  /** Every action keeps the roles, whatever is repeated. */
  lemma RolesStep(x: Node, y: Node, a: Action)
    requires RolesBoth(x, y) && Enabled(x, y, a)
    ensures RolesBoth(Apply(x, y, a), y)
  {
    match a
    case OpenLocal(id, room, ok) =>
      OpenRoles(x, y, id, room, ok);
      ShutdownRoles(Say(Set(x, id, Opener(room, ok)), Open(id)), y, id, false);
    case RefuseOpen(id) => SayRoles(x, y, Status(id, false));
    case AcceptOpen(id, room) => AcceptRoles(x, y, id, room);
    case SendStatus(id, ok) => StatusRoles(x, y, id, ok);
    case HandleStatus(id, good) =>
      if Live(x, id) && x.flows[id].opener && x.flows[id].ready.None? {
        assert RoleOk(x, y, id);
        SetRoles(x, y, id, x.flows[id].(ready := Some(good)));
      }
    case Wake(id) => WakeRoles(x, y, id);
    case GiveUp(id, notify) => StopRoles(x, y, id, x.flows[id].(waiting := false), notify);
    case Pump(id, chunk) => PumpRoles(x, y, id, chunk);
    case PumpEnd(id) => StopRoles(x, y, id, x.flows[id].(pumping := false), true);
    case HandleChunk(id, k, p) =>
      if Live(x, id) {
        StopRoles(x, y, id, x.flows[id].(rx := Arrive(x.flows[id].rx, k, p).rx), true);
      } else {
        SayRoles(x, y, Shut(id));
      }
    case HandleShut(id) => ShutdownRoles(x, y, id, false);
    case Drop(id) => ShutdownRoles(x, y, id, false);
  }

  lemma {:induction false} RolesRun(n: Pair, steps: seq<Step>)
    requires RolesBoth(n.x, n.y) && Runs(n, steps)
    ensures RolesBoth(After(n, steps).x, After(n, steps).y)
    decreases |steps|
  {
    if steps != [] {
      var s := steps[0];
      if s.left { RolesStep(n.x, n.y, s.action); } else { RolesStep(n.y, n.x, s.action); }
      RolesRun(Do(n, s), steps[1..]);
    }
  }

  /** In every run, a chunk that finds no live flow at its receiver finds one the receiver has already closed: nobody
      sends data before the other node has installed its end. */
  lemma NoEarlyData(steps: seq<Step>, id: nat, k: nat, p: Data)
    requires Runs(INITIAL, steps)
    ensures var n := After(INITIAL, steps);
            && (Chunk(id, k, p) in n.x.wire ==> id in n.y.flows)
            && (Chunk(id, k, p) in n.y.wire ==> id in n.x.flows)
  {
    RolesRun(INITIAL, steps);
    var n := After(INITIAL, steps);
    if Chunk(id, k, p) in n.x.wire { assert Known(n.x, n.y, Chunk(id, k, p)); }
    if Chunk(id, k, p) in n.y.wire { assert Known(n.y, n.x, Chunk(id, k, p)); }
  }

  // ----- bytes of one flow: what holds unless that flow is accepted again -----

  /** What the peer's read loop has read for flow `id`. */
  function ReadAt(y: Node, id: nat): seq<Data> {
    if id in y.flows then y.flows[id].read else []
  }

  /** The connection of flow `id` may still take bytes. */
  predicate Takes(y: Node, id: nat) {
    Live(y, id) && y.flows[id].rx.sink.room > 0
  }

  predicate IsOpener(x: Node, id: nat) {
    id in x.flows && x.flows[id].opener
  }

  /** A chunk on the wire that the peer may still write is a chunk read, under its number. */
  ghost predicate ChunkOk(x: Node, y: Node, m: Msg) {
    m.Chunk? && (IsOpener(x, m.id) || Takes(y, m.id)) ==>
      1 <= m.seqNo <= |ReadAt(x, m.id)| && m.payload == ReadAt(x, m.id)[m.seqNo - 1]
  }

  /** The k-th chunk read for flow `id`, if there is one, is not empty and was sent under its number. */
  ghost predicate SaidAt(x: Node, id: nat, k: nat) {
    1 <= k <= |ReadAt(x, id)| ==> Chunk(id, k, ReadAt(x, id)[k - 1]) in x.wire && ReadAt(x, id)[k - 1] != []
  }

  ghost predicate Chunks(x: Node, y: Node, id: nat) {
    && (forall m | m in x.wire && m.id == id :: ChunkOk(x, y, m))
    && (forall k: nat :: SaidAt(x, id, k))
  }

  ghost predicate RxOk(f: Flow, read: seq<Data>) {
    && f.rx.sink.written <= Flatten(read)
    && (f.live ==> InPlace(read, f.rx))
    && (f.live && f.rx.sink.room > 0 ==> Settled(read, f.rx))
  }

  /** The bytes written at `x` are a prefix of the bytes read at `y`, and a flow that takes more is in step. */
  ghost predicate Received(x: Node, y: Node, id: nat) {
    id in x.flows ==> RxOk(x.flows[id], ReadAt(y, id))
  }

  ghost predicate InStream(x: Node, y: Node, id: nat) {
    Chunks(x, y, id) && Chunks(y, x, id) && Received(x, y, id) && Received(y, x, id)
  }

  ghost predicate Inv(x: Node, y: Node, id: nat) {
    RolesBoth(x, y) && InStream(x, y, id)
  }

  /** An accepted request installs its flow over one that was closed. */
  predicate Reopens(x: Node, a: Action) {
    a.AcceptOpen? && a.id in x.flows && !x.flows[a.id].live
  }

  /** An accepted request installs its flow over one that was closed after it had read something, while the opener has
      written some of that or may still write it. */
  predicate Mixes(x: Node, y: Node, a: Action) {
    && Reopens(x, a) && x.flows[a.id].read != []
    && a.id in y.flows && (y.flows[a.id].rx.sink.written != [] || Takes(y, a.id))
  }

  // ----- actions of other flows -----

  /** Flow `id` and its messages are as before. */
  ghost predicate Apart(x: Node, x': Node, id: nat) {
    && (id in x'.flows <==> id in x.flows) && (id in x.flows ==> x'.flows[id] == x.flows[id])
    && (forall m: Msg | m.id == id :: m in x'.wire <==> m in x.wire)
  }

  lemma OtherFlow(x: Node, y: Node, a: Action, id: nat)
    requires Enabled(x, y, a) && a.id != id
    ensures Apart(x, Apply(x, y, a), id)
  {
  }

  lemma ApartKeeps(x: Node, x': Node, y: Node, id: nat)
    requires InStream(x, y, id) && Apart(x, x', id)
    ensures InStream(x', y, id)
  {
    forall m | m in x'.wire && m.id == id ensures ChunkOk(x', y, m) { assert ChunkOk(x, y, m); }
    forall m | m in y.wire && m.id == id ensures ChunkOk(y, x', m) { assert ChunkOk(y, x, m); }
    forall k: nat ensures SaidAt(x', id, k) { assert SaidAt(x, id, k); }
  }

  // ----- actions of the flow -----

  /** Nothing was read anew, so the chunks and the peer's bytes are as before. */
  lemma SameReads(x: Node, x': Node, y: Node, id: nat)
    requires Chunks(x, y, id) && Received(y, x, id) && ReadAt(x', id) == ReadAt(x, id)
    requires IsOpener(x', id) ==> IsOpener(x, id) || forall m | m in x.wire && m.id == id :: !m.Chunk?
    requires x.wire <= x'.wire && forall m | m in x'.wire && m !in x.wire :: !m.Chunk?
    ensures Chunks(x', y, id) && Received(y, x', id)
  {
    forall m | m in x'.wire && m.id == id ensures ChunkOk(x', y, m) { assert m in x.wire ==> ChunkOk(x, y, m); }
    forall k: nat ensures SaidAt(x', id, k) { assert SaidAt(x, id, k); }
  }

  /** A connection that takes more than before belongs to an acceptor or to a flow of which no chunk was sent. */
  lemma PeerChunks(x: Node, x': Node, y: Node, id: nat)
    requires Chunks(y, x, id)
    requires Takes(x', id) ==> Takes(x, id) || IsOpener(y, id) || forall m | m in y.wire && m.id == id :: !m.Chunk?
    ensures Chunks(y, x', id)
  {
    forall m | m in y.wire && m.id == id ensures ChunkOk(y, x', m) { assert ChunkOk(y, x, m); }
  }

  /** An action that reads nothing, says no chunk and leaves what the flow has received alone. */
  ghost predicate Calm(x: Node, x': Node, id: nat) {
    && x.wire <= x'.wire && (forall m | m in x'.wire && m !in x.wire :: !m.Chunk?)
    && (id in x'.flows <==> id in x.flows) && (id in x.flows ==> CalmFlow(x.flows[id], x'.flows[id]))
  }

  ghost predicate CalmFlow(f: Flow, f': Flow) {
    f'.opener == f.opener && f'.read == f.read && f'.rx == f.rx && (f'.live ==> f.live)
  }

  lemma CalmBytes(x: Node, x': Node, y: Node, id: nat)
    requires InStream(x, y, id) && Calm(x, x', id)
    ensures InStream(x', y, id)
  {
    SameReads(x, x', y, id);
    PeerChunks(x, x', y, id);
  }

  lemma CalmActions(x: Node, y: Node, a: Action)
    requires Enabled(x, y, a) && !a.Pump? && !a.HandleChunk? && !a.AcceptOpen? && !a.OpenLocal?
    ensures Calm(x, Apply(x, y, a), a.id)
  {
  }

  /** A connection that has received nothing is in step with whatever was read. */
  lemma FreshUnder(read: seq<Data>, room: nat)
    ensures Settled(read, Fresh(room)) && Fresh(room).sink.written <= Flatten(read)
  {
    assert read[..0] == [];
  }

  /** A flow that one node does not have has no chunks. */
  lemma NoChunks(x: Node, y: Node, id: nat)
    requires Roles(x, y) && (id !in x.flows || id !in y.flows)
    ensures forall m | m in x.wire && m.id == id :: !m.Chunk?
  {
    forall m | m in x.wire && m.id == id ensures !m.Chunk? { assert Known(x, y, m); }
  }

  lemma OpenBytes(x: Node, y: Node, id: nat, room: nat, waiting: bool)
    requires Inv(x, y, id) && id !in x.flows && id !in y.flows
    ensures InStream(Say(Set(x, id, Opener(room, waiting)), Open(id)), y, id)
  {
    var x' := Say(Set(x, id, Opener(room, waiting)), Open(id));
    NoChunks(x, y, id);
    NoChunks(y, x, id);
    SameReads(x, x', y, id);
    PeerChunks(x, x', y, id);
    FreshUnder(ReadAt(y, id), room);
  }

  lemma OpenLocalBytes(x: Node, y: Node, id: nat, room: nat, ok: bool)
    requires Inv(x, y, id) && Enabled(x, y, OpenLocal(id, room, ok))
    ensures InStream(Apply(x, y, OpenLocal(id, room, ok)), y, id)
  {
    var begun := Say(Set(x, id, Opener(room, ok)), Open(id));
    OpenBytes(x, y, id, room, ok);
    CalmBytes(begun, Shutdown(begun, id, false), y, id);
  }

  lemma GrownRx(read: seq<Data>, more: Data, f: Flow)
    requires RxOk(f, read)
    ensures RxOk(f, read + [more])
  {
    FlattenPrefix(read + [more], |read|);
    assert (read + [more])[..|read|] == read;
    if f.live { assert (read + [more])[..f.rx.expected - 1] == read[..f.rx.expected - 1]; }
    if f.live && f.rx.sink.room > 0 { SettledGrows(read, more, f.rx); }
  }

  lemma PumpBytes(x: Node, y: Node, id: nat, chunk: Data)
    requires InStream(x, y, id) && Enabled(x, y, Pump(id, chunk))
    ensures InStream(Apply(x, y, Pump(id, chunk)), y, id)
  {
    var x' := Apply(x, y, Pump(id, chunk));
    assert ReadAt(x', id) == ReadAt(x, id) + [chunk];
    forall m | m in x'.wire && m.id == id ensures ChunkOk(x', y, m) { assert m in x.wire ==> ChunkOk(x, y, m); }
    forall k: nat ensures SaidAt(x', id, k) { assert SaidAt(x, id, k); }
    PeerChunks(x, x', y, id);
    if id in y.flows { GrownRx(ReadAt(x, id), chunk, y.flows[id]); }
  }

  /** A connection that takes nothing more keeps what it has, and fails on the due chunk. */
  lemma FullArrive(r: Receiver, k: nat, p: Data)
    requires r.sink.room == 0 && p != []
    ensures var o := Arrive(r, k, p);
            && o.rx.sink == r.sink && o.rx.expected == r.expected && (o.ok ==> k != r.expected)
            && (o.ok && r.expected !in r.reorder ==> r.expected !in o.rx.reorder)
  {
    assert Put(r.sink, p) == r.sink;
  }

  /** A receiver that takes more and gets a true chunk. */
  lemma TakingRx(f: Flow, read: seq<Data>, k: nat)
    requires RxOk(f, read) && f.live && f.rx.sink.room > 0 && 1 <= k <= |read|
    ensures var o := Arrive(f.rx, k, read[k - 1]);
            (o.ok ==> RxOk(f.(rx := o.rx), read)) && RxOk(f.(rx := o.rx, live := false), read)
  {
    ArriveInStep(read, f.rx, k);
  }

  /** A receiver that takes nothing more and gets any chunk. */
  lemma FullRx(f: Flow, read: seq<Data>, k: nat, p: Data)
    requires RxOk(f, read) && f.live && f.rx.sink.room == 0 && p != []
    ensures var o := Arrive(f.rx, k, p);
            (o.ok ==> RxOk(f.(rx := o.rx), read)) && RxOk(f.(rx := o.rx, live := false), read)
  {
    FullArrive(f.rx, k, p);
  }

  lemma FedRx(x: Node, y: Node, id: nat, k: nat, p: Data)
    requires Received(x, y, id) && Chunks(y, x, id) && Live(x, id) && Chunk(id, k, p) in y.wire && p != []
    ensures var f, o := x.flows[id], Arrive(x.flows[id].rx, k, p);
            (o.ok ==> RxOk(f.(rx := o.rx), ReadAt(y, id))) && RxOk(f.(rx := o.rx, live := false), ReadAt(y, id))
  {
    if Takes(x, id) {
      assert ChunkOk(y, x, Chunk(id, k, p));
      TakingRx(x.flows[id], ReadAt(y, id), k);
    } else {
      FullRx(x.flows[id], ReadAt(y, id), k, p);
    }
  }

  lemma {:induction false} DrainTakes(r: Receiver)
    ensures Drain(r).rx.sink.room <= r.sink.room && |r.sink.written| <= |Drain(r).rx.sink.written|
    decreases r.reorder.Keys
  {
    if r.expected in r.reorder && Fits(r.sink, r.reorder[r.expected]) {
      DrainTakes(Receiver(r.expected + 1, r.reorder - {r.expected}, Put(r.sink, r.reorder[r.expected])));
    }
  }

  lemma ArriveTakes(r: Receiver, k: nat, p: Data)
    ensures Arrive(r, k, p).rx.sink.room <= r.sink.room
  {
    if k == r.expected && Fits(r.sink, p) { DrainTakes(r.(sink := Put(r.sink, p), expected := k + 1)); }
  }

  lemma FedFlow(x: Node, y: Node, id: nat, o: Outcome)
    requires InStream(x, y, id) && Live(x, id) && o.rx.sink.room <= x.flows[id].rx.sink.room
    requires o.ok ==> RxOk(x.flows[id].(rx := o.rx), ReadAt(y, id))
    requires RxOk(x.flows[id].(rx := o.rx, live := false), ReadAt(y, id))
    ensures var fed := Set(x, id, x.flows[id].(rx := o.rx));
            InStream(if o.ok then fed else Shutdown(fed, id, true), y, id)
  {
    var fed := Set(x, id, x.flows[id].(rx := o.rx));
    var x' := if o.ok then fed else Shutdown(fed, id, true);
    SameReads(x, x', y, id);
    PeerChunks(x, x', y, id);
  }

  lemma ChunkBytes(x: Node, y: Node, id: nat, k: nat, p: Data)
    requires Inv(x, y, id) && Enabled(x, y, HandleChunk(id, k, p))
    ensures InStream(Apply(x, y, HandleChunk(id, k, p)), y, id)
  {
    if Live(x, id) {
      assert Known(y, x, Chunk(id, k, p));
      FedRx(x, y, id, k, p);
      ArriveTakes(x.flows[id].rx, k, p);
      FedFlow(x, y, id, Arrive(x.flows[id].rx, k, p));
    } else {
      CalmBytes(x, Say(x, Shut(id)), y, id);
    }
  }

  /** Installing over nothing, over a closed flow that had read nothing, or for an opener that has written nothing and
      will not write. */
  lemma InstallBytes(x: Node, y: Node, id: nat, room: nat)
    requires Inv(x, y, id) && Open(id) in y.wire
    requires id in y.flows && (ReadAt(x, id) == [] || (y.flows[id].rx.sink.written == [] && !Takes(y, id)))
    ensures InStream(Set(x, id, Acceptor(room)), y, id)
  {
    var x' := Set(x, id, Acceptor(room));
    AcceptorSide(x, y, id);
    if id !in x.flows { NoChunks(x, y, id); }
    forall m | m in x'.wire && m.id == id ensures ChunkOk(x', y, m) { assert ChunkOk(x, y, m); }
    PeerChunks(x, x', y, id);
    FreshUnder(ReadAt(y, id), room);
    if y.flows[id].live && ReadAt(x, id) != [] { StillFresh(x, y, id); }
  }

  /** An opener that has written nothing is in place whatever the other connection reads. */
  lemma StillFresh(x: Node, y: Node, id: nat)
    requires Chunks(x, y, id) && Received(y, x, id) && Live(y, id) && y.flows[id].rx.sink.written == []
    ensures InPlace([], y.flows[id].rx)
  {
    var read := ReadAt(x, id);
    forall k | 0 <= k < |read| ensures read[k] != [] { assert SaidAt(x, id, k + 1); }
    NothingYet(read, y.flows[id].rx);
  }

  lemma AcceptBytes(x: Node, y: Node, id: nat, room: nat)
    requires Inv(x, y, id) && Enabled(x, y, AcceptOpen(id, room)) && !Mixes(x, y, AcceptOpen(id, room))
    ensures InStream(Apply(x, y, AcceptOpen(id, room)), y, id)
  {
    AcceptorSide(x, y, id);
    if !Live(x, id) { InstallBytes(x, y, id, room); }
  }

  lemma OwnFlow(x: Node, y: Node, a: Action)
    requires Inv(x, y, a.id) && Enabled(x, y, a) && !Mixes(x, y, a)
    ensures InStream(Apply(x, y, a), y, a.id)
  {
    if a.Pump? {
      PumpBytes(x, y, a.id, a.chunk);
    } else if a.HandleChunk? {
      ChunkBytes(x, y, a.id, a.seqNo, a.payload);
    } else if a.AcceptOpen? {
      AcceptBytes(x, y, a.id, a.room);
    } else if a.OpenLocal? {
      OpenLocalBytes(x, y, a.id, a.room, a.ok);
    } else {
      CalmActions(x, y, a);
      CalmBytes(x, Apply(x, y, a), y, a.id);
    }
  }

  /** The action mixes two connections of flow `id`. */
  predicate MixesFlow(x: Node, y: Node, a: Action, id: nat) {
    a.id == id && Mixes(x, y, a)
  }

  /** Every action keeps the roles, and the bytes of a flow unless it mixes two connections of that flow. */
  lemma ActKeeps(x: Node, y: Node, a: Action, id: nat)
    requires Inv(x, y, id) && Enabled(x, y, a) && !MixesFlow(x, y, a, id)
    ensures Inv(Apply(x, y, a), y, id)
  {
    RolesStep(x, y, a);
    assert InStream(Apply(x, y, a), y, id) by {
      if a.id == id {
        OwnFlow(x, y, a);
      } else {
        OtherFlow(x, y, a, id);
        ApartKeeps(x, Apply(x, y, a), y, id);
      }
    }
  }

  predicate MixesAt(n: Pair, s: Step, id: nat) {
    if s.left then MixesFlow(n.x, n.y, s.action, id) else MixesFlow(n.y, n.x, s.action, id)
  }

  /** No step of the run mixes two connections of flow `id`. */
  ghost predicate Unmixed(n: Pair, steps: seq<Step>, id: nat)
    requires Runs(n, steps)
    decreases |steps|
  {
    steps == [] || (!MixesAt(n, steps[0], id) && Unmixed(Do(n, steps[0]), steps[1..], id))
  }

  lemma {:induction false} RunKeeps(n: Pair, steps: seq<Step>, id: nat)
    requires Inv(n.x, n.y, id) && Runs(n, steps) && Unmixed(n, steps, id)
    ensures Inv(After(n, steps).x, After(n, steps).y, id)
    decreases |steps|
  {
    if steps != [] {
      var s := steps[0];
      if s.left { ActKeeps(n.x, n.y, s.action, id); } else { ActKeeps(n.y, n.x, s.action, id); }
      RunKeeps(Do(n, s), steps[1..], id);
    }
  }

  /** The bytes written to either connection of the flow are a prefix of the bytes read from the other. */
  ghost predicate Prefixes(x: Node, y: Node, id: nat) {
    && (id in x.flows ==> x.flows[id].rx.sink.written <= Flatten(ReadAt(y, id)))
    && (id in y.flows ==> y.flows[id].rx.sink.written <= Flatten(ReadAt(x, id)))
  }

  /** For every flow, whatever happens to the others: as long as no step mixes two of its connections, the bytes written
      to the local connection are a prefix of the bytes read at the other node. */
  lemma BytesArePrefix(steps: seq<Step>, id: nat)
    requires Runs(INITIAL, steps) && Unmixed(INITIAL, steps, id)
    ensures Prefixes(After(INITIAL, steps).x, After(INITIAL, steps).y, id)
  {
    RunKeeps(INITIAL, steps, id);
  }

  /** Accepting a request over a closed flow keeps the opener's bytes a prefix if and only if the opener has written
      nothing, and keeps the whole invariant if and only if it does not mix two connections. */
  lemma ReopenExact(x: Node, y: Node, id: nat, room: nat)
    requires Inv(x, y, id) && Enabled(x, y, AcceptOpen(id, room)) && Reopens(x, AcceptOpen(id, room))
    ensures var x' := Apply(x, y, AcceptOpen(id, room));
            && id in y.flows
            && (y.flows[id].rx.sink.written <= Flatten(ReadAt(x', id)) <==> y.flows[id].rx.sink.written == [])
            && (Inv(x', y, id) <==> !Mixes(x, y, AcceptOpen(id, room)))
  {
    var x' := Apply(x, y, AcceptOpen(id, room));
    AcceptorSide(x, y, id);
    if !Mixes(x, y, AcceptOpen(id, room)) {
      ActKeeps(x, y, AcceptOpen(id, room), id);
    } else {
      var m := Chunk(id, 1, ReadAt(x, id)[0]);
      assert SaidAt(x, id, 1);
      assert m in x'.wire;
      if Takes(y, id) { assert !ChunkOk(x', y, m); } else { assert !RxOk(y.flows[id], ReadAt(x', id)); }
    }
  }

  /** After a step that mixes two connections the prefix is lost at once, or when the opener takes the first chunk of
      the old one. */
  lemma MixingBreaks(x: Node, y: Node, id: nat, room: nat)
    requires Inv(x, y, id) && Enabled(x, y, AcceptOpen(id, room)) && Mixes(x, y, AcceptOpen(id, room))
    ensures var x' := Apply(x, y, AcceptOpen(id, room));
            var h := HandleChunk(id, 1, ReadAt(x, id)[0]);
            || !(y.flows[id].rx.sink.written <= Flatten(ReadAt(x', id)))
            || (Enabled(y, x', h) && id in Apply(y, x', h).flows
                && !(Apply(y, x', h).flows[id].rx.sink.written <= Flatten(ReadAt(x', id))))
  {
    var x' := Apply(x, y, AcceptOpen(id, room));
    var read, rx := ReadAt(x, id), y.flows[id].rx;
    if rx.sink.written == [] {
      assert SaidAt(x, id, 1);
      forall k | 0 <= k < |read| ensures read[k] != [] { assert SaidAt(x, id, k + 1); }
      NothingYet(read, rx);
      FirstBytes(rx, read[0]);
    }
  }

  lemma EmptyPrefix(chunks: seq<Data>, n: nat)
    requires n <= |chunks| && forall k | 0 <= k < |chunks| :: chunks[k] != []
    ensures Flatten(chunks[..n]) == [] <==> n == 0
  {
    if n > 0 { FlattenNext(chunks, n - 1); }
  }

  /** An opener in place that has written nothing waits for chunk 1. */
  lemma NothingYet(read: seq<Data>, r: Receiver)
    requires InPlace(read, r) && r.sink.written == [] && forall k | 0 <= k < |read| :: read[k] != []
    ensures r.expected == 1
  {
    EmptyPrefix(read, r.expected - 1);
  }

  lemma FirstBytes(r: Receiver, chunk: Data)
    requires r.expected == 1 && r.sink.room > 0 && chunk != []
    ensures Arrive(r, 1, chunk).rx.sink.written != []
  {
    if Fits(r.sink, chunk) { DrainTakes(r.(sink := Put(r.sink, chunk), expected := 2)); }
  }

  // ----- every chunk handled is written -----

  /** A new connection takes the place of what the flow had. */
  predicate Installs(x: Node, a: Action, id: nat) {
    a.id == id && (a.OpenLocal? || (a.AcceptOpen? && !Live(x, id)))
  }

  /** The chunks of flow `id` that its present connection was given while live, after one more action. */
  function NextHandled(x: Node, a: Action, id: nat, handled: set<nat>): set<nat> {
    if Installs(x, a, id) then {}
    else if a.HandleChunk? && a.id == id && Live(x, id) then handled + {a.seqNo}
    else handled
  }

  /** A live flow has written or holds what it was given. */
  ghost predicate Kept(x: Node, id: nat, handled: set<nat>) {
    Live(x, id) ==> forall k | k in handled :: Has(x.flows[id].rx, k)
  }

  lemma KeptStep(x: Node, y: Node, a: Action, id: nat, handled: set<nat>)
    requires Enabled(x, y, a) && Kept(x, id, handled)
    ensures Kept(Apply(x, y, a), id, NextHandled(x, a, id, handled))
  {
    if a.id != id {
      OtherFlow(x, y, a, id);
    } else if a.HandleChunk? && Live(x, id) {
      var o := Arrive(x.flows[id].rx, a.seqNo, a.payload);
      if o.ok { ArriveHas(x.flows[id].rx, a.seqNo, a.payload); }
    } else if !a.Pump? && !a.AcceptOpen? && !a.OpenLocal? && !a.HandleChunk? {
      CalmActions(x, y, a);
    }
  }

  function Actor(n: Pair, left: bool): Node {
    if left then n.x else n.y
  }

  /** What the present connection of flow `id` at one node was given in the course of a run. */
  ghost function HandledIn(n: Pair, steps: seq<Step>, left: bool, id: nat, handled: set<nat>): set<nat>
    requires Runs(n, steps)
    decreases |steps|
  {
    if steps == [] then handled
    else
      var s := steps[0];
      HandledIn(Do(n, s), steps[1..], left, id,
                if s.left == left then NextHandled(Actor(n, left), s.action, id, handled) else handled)
  }

  lemma {:induction false} KeptRun(n: Pair, steps: seq<Step>, left: bool, id: nat, handled: set<nat>)
    requires Runs(n, steps) && Kept(Actor(n, left), id, handled)
    ensures Kept(Actor(After(n, steps), left), id, HandledIn(n, steps, left, id, handled))
    decreases |steps|
  {
    if steps != [] {
      var s := steps[0];
      if s.left == left { KeptStep(Actor(n, left), Actor(n, !left), s.action, id, handled); }
      KeptRun(Do(n, s), steps[1..], left, id,
              if s.left == left then NextHandled(Actor(n, left), s.action, id, handled) else handled);
    }
  }

  /** In every run that does not mix the flow, a live flow whose connection was given every chunk that the other end has
      read, in any order and with any repetition, has written all the bytes read there. */
  lemma AllBytesArrive(steps: seq<Step>, left: bool, id: nat)
    requires Runs(INITIAL, steps) && Unmixed(INITIAL, steps, id)
    requires var n := After(INITIAL, steps);
             && Live(Actor(n, left), id)
             && forall k | 1 <= k <= |ReadAt(Actor(n, !left), id)| :: k in HandledIn(INITIAL, steps, left, id, {})
    ensures var n := After(INITIAL, steps);
            Actor(n, left).flows[id].rx.sink.written == Flatten(ReadAt(Actor(n, !left), id))
  {
    RunKeeps(INITIAL, steps, id);
    KeptRun(INITIAL, steps, left, id, {});
    var n := After(INITIAL, steps);
    AllWritten(ReadAt(Actor(n, !left), id), Actor(n, left).flows[id].rx);
  }

  /** A chunk is never swallowed: after it was handled it is written or held by a live flow, or the peer was told that
      the flow is closed. */
  lemma ChunkAnswered(x: Node, y: Node, id: nat, k: nat, p: Data)
    requires Enabled(x, y, HandleChunk(id, k, p))
    ensures var x' := Apply(x, y, HandleChunk(id, k, p));
            if Live(x', id) then Has(x'.flows[id].rx, k) else Shut(id) in x'.wire
  {
    if Live(x, id) && Arrive(x.flows[id].rx, k, p).ok { ArriveHas(x.flows[id].rx, k, p); }
  }

  // ----- every live flow has somebody to end it -----

  /** The opener waits for the status, the acceptor is about to send it, or the read loop runs. */
  predicate Served(f: Flow) {
    f.live ==> f.waiting || f.owesStatus || f.pumping
  }

  lemma ServedStep(x: Node, y: Node, a: Action, id: nat)
    requires Enabled(x, y, a) && (id in x.flows ==> Served(x.flows[id]))
    ensures var x' := Apply(x, y, a); id in x'.flows ==> Served(x'.flows[id])
  {
    if a.id != id { OtherFlow(x, y, a, id); }
  }

  /** In every run each live flow is waited for, about to be answered, or read from, so there is always a goroutine that
      can end it. */
  lemma {:induction false} AlwaysServed(n: Pair, steps: seq<Step>, id: nat)
    requires Runs(n, steps) && (id in n.x.flows ==> Served(n.x.flows[id])) && (id in n.y.flows ==> Served(n.y.flows[id]))
    ensures var m := After(n, steps);
            (id in m.x.flows ==> Served(m.x.flows[id])) && (id in m.y.flows ==> Served(m.y.flows[id]))
    decreases |steps|
  {
    if steps != [] {
      var s := steps[0];
      if s.left { ServedStep(n.x, n.y, s.action, id); } else { ServedStep(n.y, n.x, s.action, id); }
      AlwaysServed(Do(n, s), steps[1..], id);
    }
  }

  /** When a read loop ends, its flow is closed and the peer, which still has it, will be told and close it too. */
  lemma EndsAreTold(n: Pair, id: nat)
    requires Can(n, Step(true, PumpEnd(id))) && Live(n.x, id)
    ensures var m := Do(n, Step(true, PumpEnd(id)));
            && !Live(m.x, id) && m.y == n.y && Can(m, Step(false, HandleShut(id)))
            && !Live(Do(m, Step(false, HandleShut(id))).y, id)
  {
  }

  /** When a request is refused, its opener, if it still waits, can be told, and closes. */
  lemma RefusalsAreTold(n: Pair, id: nat)
    requires Can(n, Step(false, RefuseOpen(id))) && Live(n.x, id)
    requires n.x.flows[id].opener && n.x.flows[id].waiting && n.x.flows[id].ready == None
    ensures var m1 := Do(n, Step(false, RefuseOpen(id)));
            m1.x == n.x && Can(m1, Step(true, HandleStatus(id, false))) &&
            var m2 := Do(m1, Step(true, HandleStatus(id, false)));
            Can(m2, Step(true, Wake(id))) && !Live(Do(m2, Step(true, Wake(id))).x, id)
  {
  }

  // ----- closed flows -----

  lemma ClosedStep(x: Node, y: Node, a: Action, id: nat)
    requires Enabled(x, y, a) && id in x.flows && !x.flows[id].live && !(Reopens(x, a) && a.id == id)
    ensures var x' := Apply(x, y, a); id in x'.flows && !x'.flows[id].live && x'.flows[id].rx == x.flows[id].rx
  {
  }

  /** No step of the run accepts the request of flow `id` at `x` while its flow there is closed. */
  ghost predicate NotReopened(n: Pair, steps: seq<Step>, id: nat)
    requires Runs(n, steps)
    decreases |steps|
  {
    steps == [] ||
    (!(steps[0].left && Reopens(n.x, steps[0].action) && steps[0].action.id == id) && NotReopened(Do(n, steps[0]), steps[1..], id))
  }

  /** A flow that left the table and is not accepted again never comes back, and nothing more is written to its connection. */
  lemma {:induction false} StaysClosed(n: Pair, steps: seq<Step>, id: nat)
    requires Runs(n, steps) && NotReopened(n, steps, id) && id in n.x.flows && !n.x.flows[id].live
    ensures var m := After(n, steps);
            id in m.x.flows && !m.x.flows[id].live && m.x.flows[id].rx == n.x.flows[id].rx
    decreases |steps|
  {
    if steps != [] {
      var s := steps[0];
      if s.left { ClosedStep(n.x, n.y, s.action, id); }
      StaysClosed(Do(n, s), steps[1..], id);
    }
  }

  /** A flow whose close message was handled, and that is not accepted again, stays closed. */
  lemma ShutIsHeeded(n: Pair, steps: seq<Step>, id: nat)
    requires Can(n, Step(true, HandleShut(id))) && Runs(Do(n, Step(true, HandleShut(id))), steps)
    requires id in n.x.flows && NotReopened(Do(n, Step(true, HandleShut(id))), steps, id)
    ensures !Live(After(Do(n, Step(true, HandleShut(id))), steps).x, id)
  {
    StaysClosed(Do(n, Step(true, HandleShut(id))), steps, id);
  }

  /** Only an acceptor's flow can be accepted again: an opener's flow that left the table never comes back in any run. */
  lemma OpenersStayClosed(x: Node, y: Node, a: Action)
    requires RolesBoth(x, y) && Enabled(x, y, a) && Reopens(x, a)
    ensures !x.flows[a.id].opener
  {
    AcceptorSide(x, y, a.id);
  }
}
