/** The transport manager: one registered session per carrier kind, replacement, removal and failover. */
module Managers {
  import opened Bytes

  datatype Kind = Tcp | Udp

  datatype Mode = OnlyTcp | OnlyUdp | Both

  // ----- the sessions a manager was given, in every interleaving -----

  /** The registered sessions, every session ever given with its kind, those that are closed, those some goroutine has
      yet to close after leaving the lock, and how far the shutdown has come. */
  datatype State = State(sessions: map<Kind, nat>, given: map<nat, Kind>, closed: set<nat>, owed: set<nat>,
                         cancelled: bool, swept: bool)

  datatype Step =
    | Add(session: nat, kind: Kind)
    | Remove(session: nat)
    | CloseOwed(session: nat)
    | Ends(session: nat)
    | Cancel
    | SweepAll

  predicate Registered(s: State, session: nat) {
    session in s.given && s.given[session] in s.sessions && s.sessions[s.given[session]] == session
  }

  ghost predicate Can(s: State, step: Step) {
    match step
    case Add(x, k) => x in s.given ==> s.given[x] == k
    case Remove(x) => x in s.given
    case CloseOwed(x) => x in s.owed
    case Ends(x) => true
    case Cancel => true
    case SweepAll => s.cancelled
  }

  function Do(s: State, step: Step): State
    requires Can(s, step)
  {
    match step
    case Add(x, k) =>
      var known := s.(given := s.given[x := k]);
      if s.cancelled then known.(owed := s.owed + {x})
      else known.(sessions := s.sessions[k := x],
                  owed := if k in s.sessions && s.sessions[k] != x then s.owed + {s.sessions[k]} else s.owed)
    case Remove(x) =>
      s.(sessions := if Registered(s, x) then s.sessions - {s.given[x]} else s.sessions, owed := s.owed + {x})
    case CloseOwed(x) => s.(closed := s.closed + {x}, owed := s.owed - {x})
    case Ends(x) => s.(closed := s.closed + {x})
    case Cancel => s.(cancelled := true)
    case SweepAll => s.(sessions := map[], closed := s.closed + s.sessions.Values, swept := true)
  }

  ghost predicate Runs(s: State, steps: seq<Step>)
    decreases |steps|
  {
    steps == [] || (Can(s, steps[0]) && Runs(Do(s, steps[0]), steps[1..]))
  }

  ghost function After(s: State, steps: seq<Step>): State
    requires Runs(s, steps)
    decreases |steps|
  {
    if steps == [] then s else After(Do(s, steps[0]), steps[1..])
  }

  const START: State := State(map[], map[], {}, {}, false, false)

  ghost predicate Inv(s: State) {
    && (forall x | x in s.given :: Registered(s, x) || x in s.closed || x in s.owed)
    && (forall k | k in s.sessions :: s.sessions[k] in s.given && s.given[s.sessions[k]] == k)
    && (s.swept ==> s.cancelled && s.sessions == map[])
  }

  /** A step keeps the books; once cancelled it registers nothing new. */
  lemma StepKeeps(s: State, step: Step)
    requires Inv(s) && Can(s, step)
    ensures Inv(Do(s, step))
    ensures s.cancelled ==> forall k | k in Do(s, step).sessions :: k in s.sessions && Do(s, step).sessions[k] == s.sessions[k]
  {
    var s' := Do(s, step);
    match step
    case Add(x, k) =>
      forall y | y in s'.given ensures Registered(s', y) || y in s'.closed || y in s'.owed {
        if y != x { assert Registered(s, y) || y in s.closed || y in s.owed; }
      }
    case Remove(x) =>
    case CloseOwed(x) =>
    case Ends(x) =>
    case Cancel =>
    case SweepAll =>
      forall y | Registered(s, y) ensures y in s'.closed {
        assert s.given[y] in s.sessions.Keys;
      }
  }

  lemma {:induction false} RunKeeps(s: State, steps: seq<Step>)
    requires Inv(s) && Runs(s, steps)
    ensures Inv(After(s, steps))
    decreases |steps|
  {
    if steps != [] {
      StepKeeps(s, steps[0]);
      RunKeeps(Do(s, steps[0]), steps[1..]);
    }
  }

  /** In every run each session ever given is the registered one of its kind or closed, save those a goroutine is about
      to close. */
  lemma RegisteredOrClosed(steps: seq<Step>, session: nat)
    requires Runs(START, steps) && session in After(START, steps).given
    ensures var s := After(START, steps);
            Registered(s, session) || session in s.closed || session in s.owed
  {
    RunKeeps(START, steps);
  }

  /** From any state the closes that are owed can all be made, and then every session ever given is registered or closed. */
  lemma {:induction false} OwedAreClosed(s: State) returns (steps: seq<Step>)
    requires Inv(s)
    ensures (forall i | 0 <= i < |steps| :: steps[i].CloseOwed?) && Runs(s, steps)
    ensures var e := After(s, steps);
            && e.sessions == s.sessions && e.given == s.given && e.owed == {}
            && forall x | x in e.given :: Registered(e, x) || x in e.closed
    decreases s.owed
  {
    if s.owed == {} {
      steps := [];
    } else {
      var x :| x in s.owed;
      StepKeeps(s, CloseOwed(x));
      var rest := OwedAreClosed(Do(s, CloseOwed(x)));
      steps := [CloseOwed(x)] + rest;
      assert steps[1..] == rest;
    }
  }

  /** After cancellation whatever is still registered was registered before, and after the sweep nothing is. */
  lemma {:induction false} NothingAfterCancel(s: State, steps: seq<Step>)
    requires Inv(s) && s.cancelled && Runs(s, steps)
    ensures var e := After(s, steps);
            && (forall k | k in e.sessions :: k in s.sessions && e.sessions[k] == s.sessions[k])
            && (e.swept ==> e.sessions == map[])
    decreases |steps|
  {
    if steps != [] {
      StepKeeps(s, steps[0]);
      NothingAfterCancel(Do(s, steps[0]), steps[1..]);
    }
  }

  /** Removing a session that was replaced never evicts the one that replaced it. */
  lemma StaleRemoval(steps: seq<Step>, stale: nat)
    requires Runs(START, steps) && Can(After(START, steps), Remove(stale))
    ensures var s := After(START, steps);
            forall k | k in s.sessions && s.sessions[k] != stale ::
              k in Do(s, Remove(stale)).sessions && Do(s, Remove(stale)).sessions[k] == s.sessions[k]
  {
    RunKeeps(START, steps);
  }

  // ----- the object -----

  /** A carrier session: what it accepted for sending, and whether it is closed. Sending may fail at any time. */
  class Carrier {
    const kind: Kind
    var accepted: seq<Data>
    var closed: bool

    constructor (kind: Kind)
      ensures this.kind == kind && accepted == [] && !closed
    {
      this.kind, accepted, closed := kind, [], false;
    }

    method Send(data: Data) returns (ok: bool)
      modifies this
      ensures accepted == if ok then old(accepted) + [data] else old(accepted)
      ensures old(closed) ==> closed && !ok
      ensures ok ==> !closed
    {
      ok := *;
      if closed {
        ok := false;
      }
      if ok {
        accepted := accepted + [data];
      } else if * {
        closed := true;
      }
    }

    method Close()
      modifies `closed
      ensures closed
    {
      closed := true;
    }
  }

  datatype Outcome = Sent | Failed | NoSession

  class Manager {
    const mode: Mode
    const prefer: Kind
    var sessions: map<Kind, Carrier>
    var cancelled: bool
    ghost var given: set<Carrier>

    /** Every session given is the registered one of its kind or closed. */
    ghost predicate Valid()
      reads this, given
    {
      && (forall k | k in sessions :: sessions[k] in given && sessions[k].kind == k)
      && (forall c | c in given :: c.closed || (c.kind in sessions && sessions[c.kind] == c))
    }

    constructor (mode: Mode, prefer: Kind)
      ensures Valid() && this.mode == mode && this.prefer == prefer
      ensures sessions == map[] && given == {} && !cancelled
    {
      this.mode, this.prefer, sessions, cancelled, given := mode, prefer, map[], false, {};
    }

    function Order(): seq<Kind> {
      if mode == Both then [prefer, if prefer == Udp then Tcp else Udp] else [prefer]
    }

    /** Registers the session and closes the one it replaces; after cancellation the session is closed instead. */
    method AddSession(c: Carrier)
      requires Valid()
      modifies this, given, c
      ensures Valid() && given == old(given) + {c} && cancelled == old(cancelled)
      ensures sessions == if old(cancelled) then old(sessions) else old(sessions)[c.kind := c]
      ensures forall d | d in given :: d.accepted == old(d.accepted)
      ensures old(cancelled) ==> c.closed
      ensures !old(cancelled) && c.kind in old(sessions) && old(sessions)[c.kind] != c ==> old(sessions)[c.kind].closed
      ensures forall d | d in old(given) && d != c && !(c.kind in old(sessions) && old(sessions)[c.kind] == d) :: d.closed == old(d.closed)
    {
      given := given + {c};
      if cancelled {
        c.Close();
        return;
      }
      if c.kind in sessions {
        var previous := sessions[c.kind];
        sessions := sessions[c.kind := c];
        if previous != c {
          previous.Close();
        }
      } else {
        sessions := sessions[c.kind := c];
      }
    }

    /** Unregisters the session only if it is still the registered one, and closes it either way. */
    method RemoveSession(kind: Kind, c: Carrier)
      requires Valid() && c in given && c.kind == kind
      modifies `sessions, c`closed
      ensures Valid() && c.closed
      ensures sessions == if kind in old(sessions) && old(sessions)[kind] == c then old(sessions) - {kind} else old(sessions)
    {
      if kind in sessions && sessions[kind] == c {
        sessions := sessions - {kind};
      }
      c.Close();
    }

    /** In mode both either carrier serves, otherwise only the preferred one. */
    predicate Usable(k: Kind) {
      k == prefer || mode == Both
    }

    /** Offers the message to the registered sessions in preference order: the preferred carrier gets it if it works, the
        other one only in mode both and after the preferred one failed and was removed. Success means that exactly the session at
        `pos` took it, once, after every session before it failed, was unregistered and closed; failure means that
        all failed. Sessions not tried stay as they are. */
    method Send(data: Data) returns (r: Outcome, pos: nat)
      requires Valid()
      modifies `sessions, given
      ensures Valid() && pos <= |Order()|
      ensures r.Sent? <==> pos < |Order()|
      ensures r.Sent? ==> Order()[pos] in old(sessions)
      ensures forall c | c in given ::
                c.accepted == if r.Sent? && c == old(sessions)[Order()[pos]] then old(c.accepted) + [data] else old(c.accepted)
      ensures forall i | 0 <= i < pos :: Order()[i] !in sessions && (Order()[i] in old(sessions) ==> old(sessions)[Order()[i]].closed)
      ensures forall k | k in old(sessions) && k !in Order()[..pos] :: k in sessions && sessions[k] == old(sessions)[k]
      ensures forall c | c in given && c.accepted != old(c.accepted) ::
                && c.kind in old(sessions) && old(sessions)[c.kind] == c
                && (c.kind == prefer ||
                    (mode == Both && prefer !in sessions && (prefer in old(sessions) ==> old(sessions)[prefer].closed)))
      ensures r.Sent? <==> exists c :: c in given && c.accepted == old(c.accepted) + [data]
      ensures r.NoSession? <==> forall k | Usable(k) :: k !in old(sessions)
      ensures r.Failed? ==> forall k | Usable(k) :: k !in sessions && (k in old(sessions) ==> old(sessions)[k].closed)
    {
      var order := Order();
      r := NoSession;
      pos := 0;
      while pos < |order|
        invariant Valid() && pos <= |order| && !r.Sent?
        invariant sessions.Keys <= old(sessions).Keys && forall k | k in sessions :: sessions[k] == old(sessions)[k]
        invariant forall k | k in old(sessions) && k !in order[..pos] :: k in sessions
        invariant forall c | c in given :: c.accepted == old(c.accepted)
        invariant forall i | 0 <= i < pos :: order[i] !in sessions && (order[i] in old(sessions) ==> old(sessions)[order[i]].closed)
        invariant r.NoSession? <==> forall i | 0 <= i < pos :: order[i] !in old(sessions)
      {
        var kind := order[pos];
        assert kind !in order[..pos];
        if kind in sessions {
          var session := sessions[kind];
          var ok := session.Send(data);
          if ok {
            r := Sent;
            assert pos == 0 ==> kind == prefer;
            assert pos == 1 ==> order[0] == prefer;
            assert session in given && session.accepted == old(session.accepted) + [data];
            return;
          }
          r := Failed;
          RemoveSession(kind, session);
        }
        pos := pos + 1;
      }
      forall k | Usable(k) ensures k in order {
        assert order[0] == prefer;
        if k != prefer { assert order[1] == k; }
      }
    }

    /** Cancels, closes every registered session and empties the table. */
    method Close()
      requires Valid()
      modifies `sessions, `cancelled, given
      ensures Valid() && cancelled && sessions == map[]
      ensures forall c | c in given :: c.closed && c.accepted == old(c.accepted)
    {
      cancelled := true;
      var todo := sessions.Keys;
      while todo != {}
        invariant todo <= sessions.Keys && sessions == old(sessions) && cancelled
        invariant forall c | c in given :: c.closed || (c.kind in sessions && sessions[c.kind] == c && c.kind in todo)
        invariant forall c | c in given :: c.accepted == old(c.accepted)
        decreases todo
      {
        var k :| k in todo;
        todo := todo - {k};
        sessions[k].Close();
      }
      sessions := map[];
    }
  }
}
