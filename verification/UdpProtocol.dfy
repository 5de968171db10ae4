/**
 The reliable ordered UDP carrier as a step system: two sessions, each with a sender half (numbers, pending map,
 counting slots, retransmission) and a receiver half (expected number, reorder map), and a network that may lose,
 repeat, delay and reorder every datagram and inject any bytes that do not authenticate.
 */
module UdpProtocol {
  import opened Bytes
  import opened UdpWire

  const MAX_REORDER: nat := 4096
  const MAX_PENDING: nat := 8192
  const MAX_RETRIES: nat := 18
  const RETRANSMIT_AFTER: int := 350

  datatype Pending = Pending(packet: Data, last: int, retries: nat)

  /** The fields of one session that its methods update. `published` is everything ever put on the receive channel;
      `releasing` while the packet loop has removed an acknowledged entry and not yet taken its token. */
  datatype Endpoint = Endpoint(
    sendSeq: nat, pending: map<nat, Pending>, slots: nat, releasing: bool,
    expected: nat, reorder: map<nat, Data>, published: seq<Data>, closed: bool)

  const FRESH: Endpoint := Endpoint(0, map[], 0, false, 1, map[], [], false)

  // ----- one session -----

  function NextNumber(e: Endpoint): nat {
    (e.sendSeq + 1) % UINT64
  }

  function Acked(e: Endpoint, k: nat): Endpoint {
    if k in e.pending then e.(pending := e.pending - {k}, releasing := true) else e
  }

  /** Taking the token of an acknowledged entry. A taker that finds the channel empty waits and takes the next one. */
  function Released(e: Endpoint): Endpoint
    requires e.slots > 0
  {
    e.(slots := e.slots - 1, releasing := false)
  }

  /** Publishing held payloads while the next number is present; `room` more publications succeed, the next fails. */
  function Drain(e: Endpoint, room: nat): Endpoint
    decreases e.reorder.Keys
  {
    if e.expected !in e.reorder then e
    else
      var held := e.(reorder := e.reorder - {e.expected});
      if room == 0 then held.(closed := true)
      else Drain(held.(published := e.published + [e.reorder[e.expected]],
                       expected := (e.expected + 1) % UINT64), room - 1)
  }

  function Accept(e: Endpoint, k: nat, payload: Data, room: nat): Endpoint {
    if k < e.expected || k - e.expected > MAX_REORDER then e
    else if k > e.expected then
      if k in e.reorder then e else e.(reorder := e.reorder[k := payload])
    else if room == 0 then e.(closed := true)
    else Drain(e.(published := e.published + [payload], expected := (e.expected + 1) % UINT64), room - 1)
  }

  function Receive(e: Endpoint, m: Incoming, ackOk: bool, room: nat): Endpoint {
    match m
    case Junk => e
    case Ack(k) => Acked(e, k)
    case Payload(k, p) => if ackOk then Accept(e, k, p, room) else e.(closed := true)
  }

  function Due(e: Endpoint, now: int): set<nat> {
    set k | k in e.pending && now - e.pending[k].last >= RETRANSMIT_AFTER
  }

  function Exhausted(e: Endpoint, now: int): set<nat> {
    set k | k in Due(e, now) && e.pending[k].retries >= MAX_RETRIES
  }

  function Bump(p: map<nat, Pending>, bumped: set<nat>, now: int): map<nat, Pending> {
    map k | k in p :: if k in bumped then Pending(p[k].packet, now, p[k].retries + 1) else p[k]
  }

  /** A retransmit tick: `bumped` entries were counted before the pass ended, `written` of them will reach the wire.
      The visiting order of the pending map is arbitrary, so a pass that meets an exhausted entry may have counted
      any of the others and writes nothing. The writes follow the pass one by one, with other steps in between; a
      packet counts as on the wire from the pass on, since the network may hold it back, and a write that fails later
      closes the session by a step of its own. */
  ghost predicate TickChoice(e: Endpoint, now: int, bumped: set<nat>, written: set<nat>) {
    if Exhausted(e, now) == {} then bumped == Due(e, now) && written <= bumped
    else bumped <= Due(e, now) - Exhausted(e, now) && written == {}
  }

  function Ticked(e: Endpoint, now: int, bumped: set<nat>): Endpoint {
    e.(pending := Bump(e.pending, bumped, now), closed := e.closed || Exhausted(e, now) != {})
  }

  // ----- two sessions and the network -----

  /** Where one call of Send stands: it holds a token, has its number and sealed packet, or is in the pending map. After
      a failed write it has deleted its entry (`had` tells whether there still was one) and waits for a token to take
      back, and then it has the token and is about to close the session. */
  datatype Stage =
    | Holding(payload: Data)
    | Sealed(seqNo: nat, packet: Data)
    | Inserted(seqNo: nat, packet: Data)
    | Failing(seqNo: nat, had: bool)
    | Ending(seqNo: nat, had: bool)

  /** One session with its running sends and what history remembers of it: the datagrams it put on the wire, the
      payloads it numbered, the nonces it sealed under, the numbers it acknowledged, how often each packet was
      transmitted, when it was entered and when it was counted for retransmission, the numbers it acknowledged while they
      lay beyond its reorder window, and whether a failed Send took a token back for an entry that was acknowledged
      already. */
  datatype Side = Side(
    ep: Endpoint, sending: map<nat, Stage>,
    wire: set<Data>, sent: seq<Data>, nonces: seq<Data>, acked: set<nat>, transmits: map<nat, nat>,
    stamps: map<nat, seq<int>>, beyond: set<nat>, overReleased: bool)

  const START: Side := Side(FRESH, map[], {}, [], [], {}, map[], map[], {}, false)

  /** The packets of the two directions, seen from one side. */
  datatype Link = Link(out: Codec, inc: Codec)

  ghost predicate LinkOk(l: Link) {
    CodecOk(l.out) && CodecOk(l.inc)
  }

  function Flip(l: Link): Link {
    Link(l.inc, l.out)
  }

  datatype Action =
    | Acquire(who: nat, data: Data)
    | Seal(who: nat)
    | Insert(who: nat, now: int)
    | Write(who: nat, ok: bool)
    | TakeBack(who: nat)
    | Finish(who: nat)
    | Deliver(packet: Data, ackOk: bool, room: nat)
    | TakeAcked
    | Tick(now: int, bumped: set<nat>, written: set<nat>)
    | Close

  function Log(stamps: map<nat, seq<int>>, k: nat): seq<int> {
    if k in stamps then stamps[k] else []
  }

  function Times(transmits: map<nat, nat>, k: nat): nat {
    if k in transmits then transmits[k] else 0
  }

  /** `x` may do `a` while the peer is `y`. Any datagram may be delivered at any time, any number of times, unless
      it authenticates under the peer's keys without the peer ever having sent it, or the packet loop is still waiting
      for a token. */
  ghost predicate Enabled(l: Link, x: Side, y: Side, a: Action) {
    match a
    case Acquire(w, p) => w !in x.sending && |p| <= MAX_PLAINTEXT && x.ep.slots < MAX_PENDING
    case Seal(w) => w in x.sending && x.sending[w].Holding?
    case Insert(w, now) => w in x.sending && x.sending[w].Sealed?
    case Write(w, ok) => w in x.sending && x.sending[w].Inserted?
    case TakeBack(w) => w in x.sending && x.sending[w].Failing? && x.ep.slots > 0
    case Finish(w) => w in x.sending && x.sending[w].Ending?
    case Deliver(packet, ackOk, room) => !x.ep.releasing && (l.inc.read(packet).Junk? || packet in y.wire)
    case TakeAcked => x.ep.releasing && x.ep.slots > 0
    case Tick(now, bumped, written) => !x.ep.closed && TickChoice(x.ep, now, bumped, written)
    case Close => true
  }

  function AfterSeal(l: Link, x: Side, w: nat): Side
    requires w in x.sending && x.sending[w].Holding?
  {
    var k, p := NextNumber(x.ep), x.sending[w].payload;
    x.(ep := x.ep.(sendSeq := k), sending := x.sending[w := Sealed(k, l.out.data(k, p))],
       sent := x.sent + [p], nonces := x.nonces + [NonceFor(k)])
  }

  function AfterInsert(x: Side, w: nat, now: int): Side
    requires w in x.sending && x.sending[w].Sealed?
  {
    var k, packet := x.sending[w].seqNo, x.sending[w].packet;
    x.(ep := x.ep.(pending := x.ep.pending[k := Pending(packet, now, 0)]),
       sending := x.sending[w := Inserted(k, packet)], stamps := x.stamps[k := Log(x.stamps, k) + [now]])
  }

  function AfterWrite(x: Side, w: nat, ok: bool): Side
    requires w in x.sending && x.sending[w].Inserted?
  {
    var k, packet := x.sending[w].seqNo, x.sending[w].packet;
    if ok then
      x.(sending := x.sending - {w}, wire := x.wire + {packet}, transmits := x.transmits[k := Times(x.transmits, k) + 1])
    else
      x.(sending := x.sending[w := Failing(k, k in x.ep.pending)], ep := x.ep.(pending := x.ep.pending - {k}))
  }

  function AfterTakeBack(x: Side, w: nat): Side
    requires w in x.sending && x.sending[w].Failing? && x.ep.slots > 0
  {
    var s := x.sending[w];
    x.(sending := x.sending[w := Ending(s.seqNo, s.had)], ep := x.ep.(slots := x.ep.slots - 1),
       overReleased := x.overReleased || !s.had)
  }

  function AfterFinish(x: Side, w: nat): Side {
    x.(sending := x.sending - {w}, ep := x.ep.(closed := true))
  }

  function AfterDeliver(l: Link, x: Side, packet: Data, ackOk: bool, room: nat): Side {
    var m := l.inc.read(packet);
    var got := x.(ep := Receive(x.ep, m, ackOk, room));
    if m.Payload? && ackOk then
      got.(wire := x.wire + {l.out.ack(m.seqNo)}, acked := x.acked + {m.seqNo},
           beyond := if m.seqNo > x.ep.expected + MAX_REORDER then x.beyond + {m.seqNo} else x.beyond)
    else got
  }

  function Repeated(transmits: map<nat, nat>, written: set<nat>): map<nat, nat> {
    map k | k in transmits.Keys + written :: Times(transmits, k) + (if k in written then 1 else 0)
  }

  function Stamped(stamps: map<nat, seq<int>>, bumped: set<nat>, now: int): map<nat, seq<int>> {
    map k | k in stamps.Keys + bumped :: Log(stamps, k) + if k in bumped then [now] else []
  }

  function AfterTick(x: Side, now: int, bumped: set<nat>, written: set<nat>): Side
    requires written <= x.ep.pending.Keys
  {
    x.(ep := Ticked(x.ep, now, bumped),
       wire := x.wire + (set k | k in written :: x.ep.pending[k].packet),
       transmits := Repeated(x.transmits, written), stamps := Stamped(x.stamps, bumped, now))
  }

  ghost function Apply(l: Link, x: Side, y: Side, a: Action): Side
    requires Enabled(l, x, y, a)
  {
    match a
    case Acquire(w, p) => x.(ep := x.ep.(slots := x.ep.slots + 1), sending := x.sending[w := Holding(p)])
    case Seal(w) => AfterSeal(l, x, w)
    case Insert(w, now) => AfterInsert(x, w, now)
    case Write(w, ok) => AfterWrite(x, w, ok)
    case TakeBack(w) => AfterTakeBack(x, w)
    case Finish(w) => AfterFinish(x, w)
    case Deliver(packet, ackOk, room) => AfterDeliver(l, x, packet, ackOk, room)
    case TakeAcked => x.(ep := Released(x.ep))
    case Tick(now, bumped, written) => AfterTick(x, now, bumped, written)
    case Close => x.(ep := x.ep.(closed := true))
  }

  datatype Net = Net(x: Side, y: Side)

  /** A step names the acting side (`left` is `x`) and its action. */
  datatype Step = Step(left: bool, action: Action)

  ghost predicate Can(l: Link, n: Net, s: Step) {
    if s.left then Enabled(l, n.x, n.y, s.action) else Enabled(Flip(l), n.y, n.x, s.action)
  }

  ghost function Do(l: Link, n: Net, s: Step): Net
    requires Can(l, n, s)
  {
    if s.left then n.(x := Apply(l, n.x, n.y, s.action)) else n.(y := Apply(Flip(l), n.y, n.x, s.action))
  }

  /** `steps` can be taken one after the other from `n`. */
  ghost predicate Runs(l: Link, n: Net, steps: seq<Step>)
    decreases |steps|
  {
    steps == [] || (Can(l, n, steps[0]) && Runs(l, Do(l, n, steps[0]), steps[1..]))
  }

  ghost function After(l: Link, n: Net, steps: seq<Step>): Net
    requires Runs(l, n, steps)
    decreases |steps|
  {
    if steps == [] then n else After(l, Do(l, n, steps[0]), steps[1..])
  }

  const INITIAL: Net := Net(START, START)
}
