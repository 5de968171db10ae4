/**
 TCP flows behind the duplicate window: every open request has its own message identifier, a node handles an arriving
 message only if its window does not refuse the identifier, and an open request is then served by a goroutine of its own.
 */
module TcpWindow {
  import opened TcpFlows
  import DuplicateFilter

  /** A goroutine serving the open request of flow `id`, which was the `pos`-th message accepted. */
  datatype Job = Job(id: nat, pos: nat)

  /** A node with the identifiers of its own open requests, the identifiers it accepted, and the jobs under way and done. */
  datatype End = End(node: Node, names: map<nat, nat>, accepted: seq<nat>, jobs: set<Job>, served: set<Job>)

  datatype World = World(x: End, y: End)

  datatype Act =
    | Plain(action: Action)
    | Begin(action: Action, name: nat)
    | Get(action: Action, name: nat)
    | GetOpen(id: nat)
    | GetOther(name: nat)
    | Serve(job: Job, action: Action)

  predicate Serves(a: Action) {
    a.RefuseOpen? || a.AcceptOpen?
  }

  predicate Receives(a: Action) {
    a.HandleStatus? || a.HandleChunk? || a.HandleShut?
  }

  /** A copy of a message may arrive at any time and again; an identifier belongs to one message. Messages that do not
      concern TCP flows only take their place in the window. */
  ghost predicate CanAct(e: End, p: End, act: Act) {
    match act
    case Plain(a) => !Serves(a) && !Receives(a) && !a.OpenLocal? && Enabled(e.node, p.node, a)
    case Begin(a, name) => a.OpenLocal? && Enabled(e.node, p.node, a) && name != 0 && name !in e.names.Values
    case Get(a, name) => Receives(a) && Enabled(e.node, p.node, a) && name !in p.names.Values
    case GetOpen(id) => Open(id) in p.node.wire && id in p.names
    case GetOther(name) => name !in p.names.Values
    case Serve(job, a) => job in e.jobs && Serves(a) && a.id == job.id && Enabled(e.node, p.node, a)
  }

  ghost function Acted(window: nat, e: End, p: End, act: Act): End
    requires CanAct(e, p, act)
  {
    match act
    case Plain(a) => e.(node := Apply(e.node, p.node, a))
    case Begin(a, name) => e.(node := Apply(e.node, p.node, a), names := e.names[a.id := name])
    case Get(a, name) =>
      if DuplicateFilter.Refused(e.accepted, window, name) then e
      else e.(node := Apply(e.node, p.node, a), accepted := e.accepted + [name])
    case GetOpen(id) =>
      if DuplicateFilter.Refused(e.accepted, window, p.names[id]) then e
      else e.(accepted := e.accepted + [p.names[id]], jobs := e.jobs + {Job(id, |e.accepted|)})
    case GetOther(name) =>
      if DuplicateFilter.Refused(e.accepted, window, name) then e else e.(accepted := e.accepted + [name])
    case Serve(job, a) =>
      e.(node := Apply(e.node, p.node, a), jobs := e.jobs - {job}, served := e.served + {job})
  }

  /** A step names the acting node (`left` is `x`) and what it does. */
  datatype Turn = Turn(left: bool, act: Act)

  ghost predicate CanTurn(w: World, t: Turn) {
    if t.left then CanAct(w.x, w.y, t.act) else CanAct(w.y, w.x, t.act)
  }

  ghost function Turned(window: nat, w: World, t: Turn): World
    requires CanTurn(w, t)
  {
    if t.left then w.(x := Acted(window, w.x, w.y, t.act)) else w.(y := Acted(window, w.y, w.x, t.act))
  }

  ghost predicate Plays(window: nat, w: World, turns: seq<Turn>)
    decreases |turns|
  {
    turns == [] || (CanTurn(w, turns[0]) && Plays(window, Turned(window, w, turns[0]), turns[1..]))
  }

  ghost function Played(window: nat, w: World, turns: seq<Turn>): World
    requires Plays(window, w, turns)
    decreases |turns|
  {
    if turns == [] then w else Played(window, Turned(window, w, turns[0]), turns[1..])
  }

  const NEW_END: End := End(IDLE, map[], [], {}, {})
  const NEW_WORLD: World := World(NEW_END, NEW_END)

  // ----- what every turn keeps -----

  /** A job stands for one acceptance of its request. */
  ghost predicate JobOk(e: End, p: End, j: Job) {
    j.pos < |e.accepted| && j.id in p.names && e.accepted[j.pos] == p.names[j.id]
  }

  ghost predicate ServedFor(served: set<Job>, id: nat) {
    exists j :: j in served && j.id == id
  }

  ghost predicate JobsOk(e: End, p: End) {
    && (forall j | j in e.jobs :: JobOk(e, p, j))
    && (forall j | j in e.served :: JobOk(e, p, j))
    && e.jobs !! e.served
  }

  /** A flow that was accepted was accepted by a job that is done. */
  ghost predicate AcceptedByJob(node: Node, served: set<Job>) {
    forall id | id in node.flows && !node.flows[id].opener :: ServedFor(served, id)
  }

  ghost predicate EndOk(window: nat, e: End, p: End) {
    JobsOk(e, p) && AcceptedByJob(e.node, e.served) && DuplicateFilter.Apart(e.accepted, window) && e.names.Keys <= e.node.flows.Keys
  }

  ghost predicate WorldOk(window: nat, x: End, y: End) {
    RolesBoth(x.node, y.node) && EndOk(window, x, y) && EndOk(window, y, x)
  }

  lemma SameAcceptors(x: Node, y: Node, a: Action, id: nat)
    requires Enabled(x, y, a) && !(a.AcceptOpen? && a.id == id)
    ensures var x' := Apply(x, y, a);
            (id in x'.flows && !x'.flows[id].opener <==> id in x.flows && !x.flows[id].opener) && (id in x.flows ==> id in x'.flows)
  {
  }

  lemma NodeKeeps(x: Node, y: Node, a: Action, served: set<Job>)
    requires Enabled(x, y, a) && AcceptedByJob(x, served) && (a.AcceptOpen? ==> ServedFor(served, a.id))
    ensures AcceptedByJob(Apply(x, y, a), served) && x.flows.Keys <= Apply(x, y, a).flows.Keys
  {
    var x' := Apply(x, y, a);
    forall id | id in x'.flows && !x'.flows[id].opener ensures ServedFor(served, id) {
      if !(a.AcceptOpen? && a.id == id) { SameAcceptors(x, y, a, id); }
    }
    forall id | id in x.flows ensures id in x'.flows {
      if !(a.AcceptOpen? && a.id == id) { SameAcceptors(x, y, a, id); }
    }
  }

  lemma ServedMore(served: set<Job>, job: Job, node: Node)
    requires AcceptedByJob(node, served)
    ensures AcceptedByJob(node, served + {job}) && ServedFor(served + {job}, job.id)
  {
    forall id | id in node.flows && !node.flows[id].opener ensures ServedFor(served + {job}, id) {
      var j :| j in served && j.id == id;
      assert j in served + {job};
    }
    assert job in served + {job};
  }

  lemma AcceptedMore(e: End, p: End, name: nat)
    requires JobsOk(e, p)
    ensures JobsOk(e.(accepted := e.accepted + [name]), p)
  {
    var e' := e.(accepted := e.accepted + [name]);
    forall j | j in e'.jobs ensures JobOk(e', p, j) { assert JobOk(e, p, j); }
    forall j | j in e'.served ensures JobOk(e', p, j) { assert JobOk(e, p, j); }
  }

  /** The actor's own side. */
  lemma OwnKeeps(window: nat, e: End, p: End, act: Act)
    requires EndOk(window, e, p) && CanAct(e, p, act)
    ensures EndOk(window, Acted(window, e, p, act), p)
  {
    match act
    case Plain(a) => NodeKeeps(e.node, p.node, a, e.served);
    case Begin(a, name) =>
      NodeKeeps(e.node, p.node, a, e.served);
      assert a.id in Apply(e.node, p.node, a).flows;
    case Get(a, name) =>
      if !DuplicateFilter.Refused(e.accepted, window, name) {
        NodeKeeps(e.node, p.node, a, e.served);
        DuplicateFilter.ApartMore(e.accepted, window, name);
        AcceptedMore(e, p, name);
      }
    case GetOpen(id) =>
      if !DuplicateFilter.Refused(e.accepted, window, p.names[id]) {
        DuplicateFilter.ApartMore(e.accepted, window, p.names[id]);
        AcceptedMore(e, p, p.names[id]);
        assert forall j | j in e.served :: JobOk(e, p, j);
      }
    case GetOther(name) =>
      if !DuplicateFilter.Refused(e.accepted, window, name) {
        DuplicateFilter.ApartMore(e.accepted, window, name);
        AcceptedMore(e, p, name);
      }
    case Serve(job, a) =>
      ServedMore(e.served, job, e.node);
      NodeKeeps(e.node, p.node, a, e.served + {job});
  }

  /** The peer's side: only a new name could matter to it. */
  lemma PeerKeeps(window: nat, e: End, p: End, act: Act)
    requires EndOk(window, p, e) && CanAct(e, p, act) && e.names.Keys <= e.node.flows.Keys
    ensures EndOk(window, p, Acted(window, e, p, act))
  {
    var e' := Acted(window, e, p, act);
    forall j | j in p.jobs ensures JobOk(p, e', j) { assert JobOk(p, e, j); }
    forall j | j in p.served ensures JobOk(p, e', j) { assert JobOk(p, e, j); }
  }

  lemma ActKeepsRoles(window: nat, e: End, p: End, act: Act)
    requires RolesBoth(e.node, p.node) && CanAct(e, p, act)
    ensures RolesBoth(Acted(window, e, p, act).node, p.node)
  {
    if !act.GetOpen? && !act.GetOther? { RolesStep(e.node, p.node, act.action); }
  }

  /** Every turn keeps the jobs accounted for and the accepted identifiers apart. */
  lemma TurnKeeps(window: nat, w: World, t: Turn)
    requires WorldOk(window, w.x, w.y) && CanTurn(w, t)
    ensures WorldOk(window, Turned(window, w, t).x, Turned(window, w, t).y)
  {
    if t.left {
      ActKeepsRoles(window, w.x, w.y, t.act);
      OwnKeeps(window, w.x, w.y, t.act);
      PeerKeeps(window, w.x, w.y, t.act);
    } else {
      ActKeepsRoles(window, w.y, w.x, t.act);
      OwnKeeps(window, w.y, w.x, t.act);
      PeerKeeps(window, w.y, w.x, t.act);
    }
  }

  lemma {:induction false} PlayKeeps(window: nat, w: World, turns: seq<Turn>)
    requires WorldOk(window, w.x, w.y) && Plays(window, w, turns)
    ensures WorldOk(window, Played(window, w, turns).x, Played(window, w, turns).y)
    decreases |turns|
  {
    if turns != [] {
      TurnKeeps(window, w, turns[0]);
      PlayKeeps(window, Turned(window, w, turns[0]), turns[1..]);
    }
  }

  // ----- when a flow can be accepted again -----

  /** Identifier `name` was accepted twice, more than a whole window apart. */
  ghost predicate TwiceBeyond(accepted: seq<nat>, window: nat, name: nat) {
    exists i, j :: 0 <= i < j < |accepted| && accepted[i] == name && accepted[j] == name && j - i > window
  }

  lemma JobsFarApart(window: nat, e: End, p: End, j: Job, k: Job)
    requires DuplicateFilter.Apart(e.accepted, window) && JobOk(e, p, j) && JobOk(e, p, k) && j != k && j.id == k.id
    ensures TwiceBeyond(e.accepted, window, p.names[j.id])
  {
    var lo, hi := if j.pos < k.pos then j.pos else k.pos, if j.pos < k.pos then k.pos else j.pos;
    assert e.accepted[lo] == p.names[j.id] && e.accepted[hi] == p.names[j.id] && lo < hi;
    assert hi - lo > window;
  }

  /** In every run, a request is accepted over a closed flow only after its copies were accepted twice, with at least a
      whole window of other messages accepted in between. */
  lemma ReopenNeedsWindow(window: nat, turns: seq<Turn>, job: Job, a: Action)
    requires Plays(window, NEW_WORLD, turns)
    requires var w := Played(window, NEW_WORLD, turns); CanAct(w.x, w.y, Serve(job, a)) && Reopens(w.x.node, a)
    ensures var w := Played(window, NEW_WORLD, turns);
            job.id in w.y.names && TwiceBeyond(w.x.accepted, window, w.y.names[job.id])
  {
    PlayKeeps(window, NEW_WORLD, turns);
    var w := Played(window, NEW_WORLD, turns);
    ServedBefore(window, w.x, w.y, job, a);
  }

  lemma ServedBefore(window: nat, e: End, p: End, job: Job, a: Action)
    requires WorldOk(window, e, p) && CanAct(e, p, Serve(job, a)) && Reopens(e.node, a)
    ensures job.id in p.names && TwiceBeyond(e.accepted, window, p.names[job.id])
  {
    OpenersStayClosed(e.node, p.node, a);
    assert ServedFor(e.served, job.id);
    var k :| k in e.served && k.id == job.id;
    JobsFarApart(window, e, p, job, k);
  }

  /** The request of flow `id` was not accepted twice by `e`. */
  ghost predicate AcceptedOnce(window: nat, e: End, p: End, id: nat) {
    id in p.names ==> !TwiceBeyond(e.accepted, window, p.names[id])
  }

  lemma TwiceStays(a: seq<nat>, b: seq<nat>, window: nat, name: nat)
    requires a <= b && TwiceBeyond(a, window, name)
    ensures TwiceBeyond(b, window, name)
  {
    var i, j :| 0 <= i < j < |a| && a[i] == name && a[j] == name && j - i > window;
    assert b[i] == name && b[j] == name;
  }

  /** Accepting goes on and names stay. */
  lemma ActGrows(window: nat, e: End, p: End, act: Act)
    requires CanAct(e, p, act) && e.names.Keys <= e.node.flows.Keys
    ensures var e' := Acted(window, e, p, act);
            e.accepted <= e'.accepted && forall id | id in e.names :: id in e'.names && e'.names[id] == e.names[id]
  {
  }

  lemma OnceStep(window: nat, w: World, t: Turn, id: nat)
    requires WorldOk(window, w.x, w.y) && CanTurn(w, t)
    requires var v := Turned(window, w, t); AcceptedOnce(window, v.x, v.y, id) && AcceptedOnce(window, v.y, v.x, id)
    ensures AcceptedOnce(window, w.x, w.y, id) && AcceptedOnce(window, w.y, w.x, id)
  {
    var v := Turned(window, w, t);
    if t.left { ActGrows(window, w.x, w.y, t.act); } else { ActGrows(window, w.y, w.x, t.act); }
    if id in w.y.names && TwiceBeyond(w.x.accepted, window, w.y.names[id]) {
      TwiceStays(w.x.accepted, v.x.accepted, window, w.y.names[id]);
    }
    if id in w.x.names && TwiceBeyond(w.y.accepted, window, w.x.names[id]) {
      TwiceStays(w.y.accepted, v.y.accepted, window, w.x.names[id]);
    }
  }

  lemma {:induction false} OnceBefore(window: nat, w: World, turns: seq<Turn>, id: nat)
    requires WorldOk(window, w.x, w.y) && Plays(window, w, turns)
    requires var v := Played(window, w, turns); AcceptedOnce(window, v.x, v.y, id) && AcceptedOnce(window, v.y, v.x, id)
    ensures AcceptedOnce(window, w.x, w.y, id) && AcceptedOnce(window, w.y, w.x, id)
    decreases |turns|
  {
    if turns != [] {
      TurnKeeps(window, w, turns[0]);
      OnceBefore(window, Turned(window, w, turns[0]), turns[1..], id);
      OnceStep(window, w, turns[0], id);
    }
  }

  lemma ActKeepsBytes(window: nat, e: End, p: End, act: Act, id: nat)
    requires WorldOk(window, e, p) && Inv(e.node, p.node, id) && CanAct(e, p, act) && AcceptedOnce(window, e, p, id)
    ensures Inv(Acted(window, e, p, act).node, p.node, id)
  {
    if !act.GetOpen? && !act.GetOther? {
      if act.Serve? && Reopens(e.node, act.action) { ServedBefore(window, e, p, act.job, act.action); }
      ActKeeps(e.node, p.node, act.action, id);
    }
  }

  lemma InvSame(x: Node, y: Node, id: nat)
    requires Inv(x, y, id)
    ensures Inv(y, x, id)
  {
  }

  lemma {:induction false} PlayKeepsBytes(window: nat, w: World, turns: seq<Turn>, id: nat)
    requires WorldOk(window, w.x, w.y) && Inv(w.x.node, w.y.node, id) && Plays(window, w, turns)
    requires var v := Played(window, w, turns); AcceptedOnce(window, v.x, v.y, id) && AcceptedOnce(window, v.y, v.x, id)
    ensures var v := Played(window, w, turns); Inv(v.x.node, v.y.node, id)
    decreases |turns|
  {
    if turns != [] {
      var t := turns[0];
      OnceBefore(window, w, turns, id);
      TurnKeeps(window, w, t);
      if t.left {
        ActKeepsBytes(window, w.x, w.y, t.act, id);
      } else {
        InvSame(w.x.node, w.y.node, id);
        ActKeepsBytes(window, w.y, w.x, t.act, id);
      }
      PlayKeepsBytes(window, Turned(window, w, t), turns[1..], id);
    }
  }

  /** With the duplicate window in place, unless a node accepted the request of the flow twice, more than a whole window
      apart, the bytes written are a prefix of the bytes read, whatever else was accepted how often. */
  lemma FilteredPrefix(window: nat, turns: seq<Turn>, id: nat)
    requires Plays(window, NEW_WORLD, turns)
    requires var w := Played(window, NEW_WORLD, turns);
             AcceptedOnce(window, w.x, w.y, id) && AcceptedOnce(window, w.y, w.x, id)
    ensures var w := Played(window, NEW_WORLD, turns); Prefixes(w.x.node, w.y.node, id)
  {
    PlayKeepsBytes(window, NEW_WORLD, turns, id);
  }

  /** In particular for every flow while each node has accepted at most one message more than the window holds. */
  lemma SmallPrefix(window: nat, turns: seq<Turn>, id: nat)
    requires Plays(window, NEW_WORLD, turns)
    requires var w := Played(window, NEW_WORLD, turns); |w.x.accepted| <= window + 1 && |w.y.accepted| <= window + 1
    ensures var w := Played(window, NEW_WORLD, turns); Prefixes(w.x.node, w.y.node, id)
  {
    FilteredPrefix(window, turns, id);
  }
}
