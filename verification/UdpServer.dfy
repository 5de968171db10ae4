/**
 The UDP server's session tables: sessions by identifier, the remote each was opened from, and the confirmed session
 of each remote. One read loop registers sessions; every session has its own confirmation and cleanup goroutines.
 */
module UdpServer {
  import opened Bytes

  const MAX_SESSIONS: nat := 64

  /** A session object is named by a number of its own, so that an identifier drawn twice would show. */
  datatype Tables = Tables(sessions: map<nat, nat>, remotes: map<nat, string>, byRemote: map<string, nat>)

  /** `sessions` and `remotes` have the same identifiers, and every confirmed session is registered for that remote. */
  ghost predicate Agree(t: Tables) {
    && t.sessions.Keys == t.remotes.Keys
    && (forall r | r in t.byRemote :: t.byRemote[r] in t.remotes && t.remotes[t.byRemote[r]] == r)
  }

  function Registered(t: Tables, sid: nat, obj: nat, remote: string): Tables {
    t.(sessions := t.sessions[sid := obj], remotes := t.remotes[sid := remote])
  }

  predicate Holds(t: Tables, sid: nat, obj: nat) {
    sid in t.sessions && t.sessions[sid] == obj
  }

  /** The object of the remote's earlier confirmed session, to be closed. */
  function Superseded(t: Tables, sid: nat, remote: string): set<nat> {
    if remote in t.byRemote && t.byRemote[remote] != 0 && t.byRemote[remote] != sid && t.byRemote[remote] in t.sessions
    then {t.sessions[t.byRemote[remote]]} else {}
  }

  function Confirmed(t: Tables, sid: nat, remote: string): Tables {
    t.(byRemote := t.byRemote[remote := sid])
  }

  function Removed(t: Tables, sid: nat, remote: string): Tables {
    Tables(t.sessions - {sid}, t.remotes - {sid},
           if remote in t.byRemote && t.byRemote[remote] == sid then t.byRemote - {remote} else t.byRemote)
  }

  const NO_TABLES: Tables := Tables(map[], map[], map[])

  /** Registering any identifier, even one in use, keeps the tables in agreement if and only if no other remote's
      confirmed session has that identifier. */
  lemma RegisterExact(t: Tables, sid: nat, obj: nat, remote: string)
    requires Agree(t)
    ensures Agree(Registered(t, sid, obj, remote)) <==> forall r | r in t.byRemote && t.byRemote[r] == sid :: r == remote
  {
    var t' := Registered(t, sid, obj, remote);
    if r :| r in t.byRemote && t.byRemote[r] == sid && r != remote {
      assert t'.remotes[t'.byRemote[r]] != r;
    }
  }

  // ----- the steps -----

  /** A goroutine serving one session. */
  datatype Job = Job(sid: nat, obj: nat, remote: string)

  datatype Reader = Idle | Checked(remote: string)

  /** The tables with the read loop's position, the cleanup and confirmation goroutines, and history: the objects that
      are closed, the identifiers drawn, and the identifiers whose welcome could not be written. */
  datatype State = State(tables: Tables, reader: Reader, cleaning: set<Job>, confirming: set<Job>,
                         closed: set<nat>, drawn: set<nat>, unwelcomed: set<nat>)

  datatype Step =
    | Check(remote: string)
    | Register(sid: nat, obj: nat, welcomed: bool)
    | Confirm(job: Job, ok: bool)
    | CleanUp(job: Job)
    | SessionEnds(obj: nat)
    | CloseServer

  ghost predicate Can(s: State, step: Step) {
    match step
    case Check(remote) => s.reader.Idle?
    case Register(sid, obj, welcomed) => s.reader.Checked? && sid !in s.drawn && sid != 0
    case Confirm(j, ok) => j in s.confirming
    case CleanUp(j) => j in s.cleaning && j.obj in s.closed
    case SessionEnds(obj) => true
    case CloseServer => true
  }

  function AfterRegister(s: State, sid: nat, obj: nat, welcomed: bool): State
    requires s.reader.Checked?
  {
    var job := Job(sid, obj, s.reader.remote);
    State(Registered(s.tables, sid, obj, s.reader.remote), Idle,
          if welcomed then s.cleaning + {job} else s.cleaning,
          if welcomed then s.confirming + {job} else s.confirming,
          if welcomed then s.closed else s.closed + {obj},
          s.drawn + {sid},
          if welcomed then s.unwelcomed else s.unwelcomed + {sid})
  }

  function AfterConfirm(s: State, j: Job, ok: bool): State {
    var done := s.(confirming := s.confirming - {j});
    if !ok || !Holds(s.tables, j.sid, j.obj) then done.(closed := s.closed + {j.obj})
    else done.(tables := Confirmed(s.tables, j.sid, j.remote), closed := s.closed + Superseded(s.tables, j.sid, j.remote))
  }

  function AfterCleanUp(s: State, j: Job): State {
    var done := s.(cleaning := s.cleaning - {j});
    if Holds(s.tables, j.sid, j.obj) then done.(tables := Removed(s.tables, j.sid, j.remote)) else done
  }

  function Do(s: State, step: Step): State
    requires Can(s, step)
  {
    match step
    case Check(remote) => if |s.tables.sessions| >= MAX_SESSIONS then s else s.(reader := Checked(remote))
    case Register(sid, obj, welcomed) => AfterRegister(s, sid, obj, welcomed)
    case Confirm(j, ok) => AfterConfirm(s, j, ok)
    case CleanUp(j) => AfterCleanUp(s, j)
    case SessionEnds(obj) => s.(closed := s.closed + {obj})
    case CloseServer => s.(tables := NO_TABLES, closed := s.closed + s.tables.sessions.Values)
  }

  ghost predicate Runs(s: State, steps: seq<Step>)
    decreases |steps|
  {
    steps == [] || (Can(s, steps[0]) && Runs(Do(s, steps[0]), steps[1..]))
  }

  ghost function After(s: State, steps: seq<Step>): State
    requires Runs(s, steps)
    decreases |steps|
  {
    if steps == [] then s else After(Do(s, steps[0]), steps[1..])
  }

  const START: State := State(NO_TABLES, Idle, {}, {}, {}, {}, {})

  // ----- what every step keeps -----

  /** A goroutine whose identifier is still in the tables finds its own object and remote there. */
  ghost predicate JobOk(t: Tables, drawn: set<nat>, j: Job) {
    j.sid in drawn && (j.sid in t.sessions ==> t.sessions[j.sid] == j.obj && j.sid in t.remotes && t.remotes[j.sid] == j.remote)
  }

  ghost predicate JobsOk(s: State) {
    && s.tables.sessions.Keys <= s.drawn
    && (forall j | j in s.cleaning :: JobOk(s.tables, s.drawn, j))
    && (forall j | j in s.confirming :: JobOk(s.tables, s.drawn, j))
  }

  ghost predicate RoomOk(s: State) {
    |s.tables.sessions| + (if s.reader.Checked? then 1 else 0) <= MAX_SESSIONS
  }

  ghost predicate UnwelcomedOk(s: State) {
    && s.unwelcomed <= s.drawn
    && (forall j | j in s.cleaning :: j.sid !in s.unwelcomed)
    && (forall sid | sid in s.unwelcomed && sid in s.tables.sessions :: s.tables.sessions[sid] in s.closed)
  }

  /** Every registered session was never welcomed or still has its cleanup goroutine. */
  ghost predicate Tended(s: State) {
    forall sid | sid in s.tables.sessions && sid in s.tables.remotes ::
      sid in s.unwelcomed || Job(sid, s.tables.sessions[sid], s.tables.remotes[sid]) in s.cleaning
  }

  ghost predicate Inv(s: State) {
    Agree(s.tables) && JobsOk(s) && RoomOk(s) && UnwelcomedOk(s) && Tended(s)
  }

  lemma TendedStep(s: State, step: Step)
    requires Agree(s.tables) && JobsOk(s) && Tended(s) && Can(s, step)
    ensures Tended(Do(s, step))
  {
  }

  lemma Counted(m: map<nat, nat>, sid: nat, obj: nat)
    ensures |m[sid := obj]| <= |m| + 1 && |m - {sid}| <= |m|
  {
    assert m[sid := obj].Keys == m.Keys + {sid};
    assert (m - {sid}).Keys == m.Keys - {sid};
    assert |m| == |m.Keys| && |m[sid := obj]| == |m[sid := obj].Keys| && |m - {sid}| == |(m - {sid}).Keys|;
  }

  lemma RegisterTables(t: Tables, drawn: set<nat>, jobs: set<Job>, sid: nat, obj: nat, remote: string)
    requires Agree(t) && t.sessions.Keys <= drawn && sid !in drawn && forall j | j in jobs :: JobOk(t, drawn, j)
    ensures var t' := Registered(t, sid, obj, remote);
            && Agree(t') && t'.sessions.Keys <= drawn + {sid}
            && forall j | j in jobs + {Job(sid, obj, remote)} :: JobOk(t', drawn + {sid}, j)
  {
    var t' := Registered(t, sid, obj, remote);
    assert forall r | r in t.byRemote :: t.byRemote[r] in t.remotes && t.byRemote[r] != sid;
  }

  lemma RegisterUnwelcomed(s: State, sid: nat, obj: nat, welcomed: bool)
    requires JobsOk(s) && UnwelcomedOk(s) && s.reader.Checked? && sid !in s.drawn
    ensures UnwelcomedOk(AfterRegister(s, sid, obj, welcomed))
  {
    assert forall j | j in s.cleaning :: j.sid != sid;
  }

  lemma RegisterKeeps(s: State, sid: nat, obj: nat, welcomed: bool)
    requires Inv(s) && Can(s, Register(sid, obj, welcomed))
    ensures Agree(AfterRegister(s, sid, obj, welcomed).tables) && JobsOk(AfterRegister(s, sid, obj, welcomed))
    ensures RoomOk(AfterRegister(s, sid, obj, welcomed)) && UnwelcomedOk(AfterRegister(s, sid, obj, welcomed))
  {
    RegisterTables(s.tables, s.drawn, s.cleaning, sid, obj, s.reader.remote);
    RegisterTables(s.tables, s.drawn, s.confirming, sid, obj, s.reader.remote);
    RegisterUnwelcomed(s, sid, obj, welcomed);
    Counted(s.tables.sessions, sid, obj);
  }

  lemma ConfirmKeeps(s: State, j: Job, ok: bool)
    requires Inv(s) && j in s.confirming
    ensures var s' := AfterConfirm(s, j, ok); Agree(s'.tables) && JobsOk(s') && RoomOk(s') && UnwelcomedOk(s')
  {
    assert JobOk(s.tables, s.drawn, j);
  }

  lemma CleanUpKeeps(s: State, j: Job)
    requires Inv(s) && j in s.cleaning
    ensures var s' := AfterCleanUp(s, j); Agree(s'.tables) && JobsOk(s') && RoomOk(s') && UnwelcomedOk(s')
  {
    assert JobOk(s.tables, s.drawn, j);
    Counted(s.tables.sessions, j.sid, 0);
    if Holds(s.tables, j.sid, j.obj) {
      var t := Removed(s.tables, j.sid, j.remote);
      assert t.sessions.Keys == t.remotes.Keys;
      forall r | r in t.byRemote ensures t.byRemote[r] in t.remotes && t.remotes[t.byRemote[r]] == r {
        assert s.tables.remotes[s.tables.byRemote[r]] == r;
      }
    }
  }

  lemma StepKeeps(s: State, step: Step)
    requires Inv(s) && Can(s, step)
    ensures Inv(Do(s, step))
  {
    TendedStep(s, step);
    match step
    case Check(remote) =>
    case Register(sid, obj, welcomed) => RegisterKeeps(s, sid, obj, welcomed);
    case Confirm(j, ok) => ConfirmKeeps(s, j, ok);
    case CleanUp(j) => CleanUpKeeps(s, j);
    case SessionEnds(obj) =>
    case CloseServer =>
  }

  lemma {:induction false} RunKeeps(s: State, steps: seq<Step>)
    requires Inv(s) && Runs(s, steps)
    ensures Inv(After(s, steps))
    decreases |steps|
  {
    if steps != [] {
      StepKeeps(s, steps[0]);
      RunKeeps(Do(s, steps[0]), steps[1..]);
    }
  }

  /** In every reachable state the three maps agree and hold at most 64 sessions. */
  lemma AlwaysAgree(steps: seq<Step>)
    requires Runs(START, steps)
    ensures var t := After(START, steps).tables; Agree(t) && |t.sessions| <= MAX_SESSIONS
  {
    RunKeeps(START, steps);
  }

  // ----- at most one session of a remote -----

  predicate Confirms(s: State, step: Step) {
    step.Confirm? && step.ok && Holds(s.tables, step.job.sid, step.job.obj)
  }

  /** The sessions that were confirmed in the course of a run. */
  ghost function ConfirmedIn(s: State, steps: seq<Step>, before: set<Job>): set<Job>
    requires Runs(s, steps)
    decreases |steps|
  {
    if steps == [] then before
    else ConfirmedIn(Do(s, steps[0]), steps[1..], if Confirms(s, steps[0]) then before + {steps[0].job} else before)
  }

  /** The session is its remote's own. */
  predicate Current(t: Tables, j: Job) {
    j.remote in t.byRemote && t.byRemote[j.remote] == j.sid && Holds(t, j.sid, j.obj)
  }

  ghost predicate CurrentOrClosed(s: State, confirmed: set<Job>) {
    0 !in s.drawn && forall j | j in confirmed :: Current(s.tables, j) || j.obj in s.closed
  }

  lemma ConfirmedStep(s: State, step: Step, confirmed: set<Job>)
    requires Inv(s) && Can(s, step) && CurrentOrClosed(s, confirmed)
    ensures CurrentOrClosed(Do(s, step), if Confirms(s, step) then confirmed + {step.job} else confirmed)
  {
    var s' := Do(s, step);
    forall j | j in confirmed ensures Current(s'.tables, j) || j.obj in s'.closed {
      if Current(s.tables, j) {
        assert j.sid in s.tables.sessions && j.sid in s.drawn;
        if step.CloseServer? { assert s.tables.sessions[j.sid] in s.tables.sessions.Values; }
      }
    }
    if Confirms(s, step) { assert JobOk(s.tables, s.drawn, step.job); }
  }

  lemma {:induction false} ConfirmedRun(s: State, steps: seq<Step>, confirmed: set<Job>)
    requires Inv(s) && Runs(s, steps) && CurrentOrClosed(s, confirmed)
    ensures CurrentOrClosed(After(s, steps), ConfirmedIn(s, steps, confirmed))
    decreases |steps|
  {
    if steps != [] {
      StepKeeps(s, steps[0]);
      ConfirmedStep(s, steps[0], confirmed);
      ConfirmedRun(Do(s, steps[0]), steps[1..], if Confirms(s, steps[0]) then confirmed + {steps[0].job} else confirmed);
    }
  }

  /** In every run, a session that was ever confirmed is still its remote's own or is closed: a newer session of the same
      remote, a cleanup and the end of the server all close it. */
  lemma SupersededAreClosed(steps: seq<Step>, j: Job)
    requires Runs(START, steps) && j in ConfirmedIn(START, steps, {})
    ensures Current(After(START, steps).tables, j) || j.obj in After(START, steps).closed
  {
    ConfirmedRun(START, steps, {});
  }

  // ----- sessions that never leave -----

  /** Some cleanup step takes session `sid` out of the table. */
  ghost predicate CanLeave(s: State, sid: nat) {
    exists j :: Can(s, CleanUp(j)) && sid !in AfterCleanUp(s, j).tables.sessions
  }

  /** In every run, a closed session that is registered can be cleaned up if and only if its welcome was written. */
  lemma CleanedUpExactly(steps: seq<Step>, sid: nat)
    requires Runs(START, steps)
    requires var s := After(START, steps); sid in s.tables.sessions && s.tables.sessions[sid] in s.closed
    ensures CanLeave(After(START, steps), sid) <==> sid !in After(START, steps).unwelcomed
  {
    RunKeeps(START, steps);
    var s := After(START, steps);
    if sid !in s.unwelcomed {
      var j := Job(sid, s.tables.sessions[sid], s.tables.remotes[sid]);
      assert j in s.cleaning;
      assert Can(s, CleanUp(j)) && sid !in AfterCleanUp(s, j).tables.sessions;
    } else {
      forall j | Can(s, CleanUp(j)) ensures sid in AfterCleanUp(s, j).tables.sessions {
        assert j.sid != sid;
      }
    }
  }

  /** Hellos are answered and every welcome fails. */
  ghost predicate AllFailed(s: State, n: nat) {
    && s.reader.Idle? && s.drawn == s.unwelcomed == s.tables.sessions.Keys && |s.unwelcomed| == n
    && forall sid | sid in s.drawn :: 1 <= sid <= n
  }

  lemma {:induction false} Ends(s: State, steps: seq<Step>, step: Step)
    requires Runs(s, steps) && Can(After(s, steps), step)
    ensures Runs(s, steps + [step]) && After(s, steps + [step]) == Do(After(s, steps), step)
    decreases |steps|
  {
    if steps == [] {
      assert Runs(Do(s, step), [step][1..]);
      assert steps + [step] == [step];
    } else {
      Ends(Do(s, steps[0]), steps[1..], step);
      assert (steps + [step])[1..] == steps[1..] + [step];
    }
  }

  lemma {:induction false} FailWelcomes(n: nat, remote: string) returns (steps: seq<Step>)
    requires n <= MAX_SESSIONS
    ensures Runs(START, steps) && AllFailed(After(START, steps), n)
    ensures forall i | 0 <= i < |steps| :: !steps[i].CloseServer?
  {
    if n == 0 {
      steps := [];
    } else {
      var before := FailWelcomes(n - 1, remote);
      var s := After(START, before);
      assert |s.tables.sessions| == |s.tables.sessions.Keys|;
      Ends(START, before, Check(remote));
      var checked := before + [Check(remote)];
      assert n !in s.drawn;
      Ends(START, checked, Register(n, n, false));
      steps := checked + [Register(n, n, false)];
      var e := After(START, steps);
      assert e.tables.sessions.Keys == s.tables.sessions.Keys + {n};
    }
  }

  /** A run of 64 failed welcomes, after which no hello is served, however long the server runs. */
  lemma ServerFills(remote: string) returns (steps: seq<Step>)
    ensures Runs(START, steps)
    ensures forall more: seq<Step>, r: string |
              && Runs(After(START, steps), more) && (forall i | 0 <= i < |more| :: !more[i].CloseServer?)
              && After(After(START, steps), more).reader.Idle? ::
              Do(After(After(START, steps), more), Check(r)) == After(After(START, steps), more)
  {
    steps := FailWelcomes(MAX_SESSIONS, remote);
    RunKeeps(START, steps);
    var s := After(START, steps);
    assert s.unwelcomed * s.tables.sessions.Keys == s.unwelcomed;
    forall more: seq<Step>, r: string |
      Runs(s, more) && (forall i | 0 <= i < |more| :: !more[i].CloseServer?) && After(s, more).reader.Idle?
      ensures Do(After(s, more), Check(r)) == After(s, more)
    {
      FailedWelcomesFillTable(s, more, r);
    }
  }

  lemma UnwelcomedStep(s: State, step: Step)
    requires Inv(s) && Can(s, step) && !step.CloseServer?
    ensures s.unwelcomed * s.tables.sessions.Keys <= Do(s, step).unwelcomed * Do(s, step).tables.sessions.Keys
  {
  }

  /** Until the server closes, sessions whose welcome could not be written stay in the table although they are closed:
      their cleanup goroutine was never started. Every other registered session has its goroutine. */
  lemma {:induction false} UnwelcomedStay(s: State, steps: seq<Step>)
    requires Inv(s) && Runs(s, steps) && forall i | 0 <= i < |steps| :: !steps[i].CloseServer?
    ensures var e := After(s, steps);
            && Tended(e) && s.unwelcomed * s.tables.sessions.Keys <= e.unwelcomed * e.tables.sessions.Keys
            && forall sid | sid in s.unwelcomed && sid in s.tables.sessions :: sid in e.tables.sessions && e.tables.sessions[sid] in e.closed
    decreases |steps|
  {
    if steps != [] {
      assert !steps[0].CloseServer?;
      StepKeeps(s, steps[0]);
      UnwelcomedStep(s, steps[0]);
      UnwelcomedStay(Do(s, steps[0]), steps[1..]);
    }
  }

  /** After 64 failed welcomes no later hello is served, however long the server runs. */
  lemma FailedWelcomesFillTable(s: State, steps: seq<Step>, remote: string)
    requires Inv(s) && Runs(s, steps) && forall i | 0 <= i < |steps| :: !steps[i].CloseServer?
    requires |s.unwelcomed * s.tables.sessions.Keys| >= MAX_SESSIONS && After(s, steps).reader.Idle?
    ensures Do(After(s, steps), Check(remote)) == After(s, steps)
  {
    var e := After(s, steps);
    UnwelcomedStay(s, steps);
    Fewer(s.unwelcomed * s.tables.sessions.Keys, e.tables.sessions.Keys);
    assert |e.tables.sessions| == |e.tables.sessions.Keys|;
  }

  // ----- the object -----

  class Server {
    var sessions: map<nat, nat>
    var sessionRemote: map<nat, string>
    var byRemote: map<string, nat>
    var closedSessions: set<nat>
    var closed: bool

    function View(): Tables
      reads this
    {
      Tables(sessions, sessionRemote, byRemote)
    }

    constructor ()
      ensures View() == NO_TABLES && closedSessions == {} && !closed
    {
      sessions, sessionRemote, byRemote, closedSessions, closed := map[], map[], map[], {}, false;
    }

    method AddSession(sid: nat, obj: nat, remote: string)
      modifies `sessions, `sessionRemote
      ensures View() == Registered(old(View()), sid, obj, remote)
    {
      sessions := sessions[sid := obj];
      sessionRemote := sessionRemote[sid := remote];
    }

    /** After key confirmation: the session becomes its remote's own and the earlier one is closed, unless the
        session was removed meanwhile, which closes it instead. */
    method ConfirmSession(j: Job)
      modifies `byRemote, `closedSessions
      ensures var t := old(View());
              if Holds(t, j.sid, j.obj) then
                View() == Confirmed(t, j.sid, j.remote) && closedSessions == old(closedSessions) + Superseded(t, j.sid, j.remote)
              else
                View() == t && closedSessions == old(closedSessions) + {j.obj}
    {
      if j.sid !in sessions || sessions[j.sid] != j.obj {
        closedSessions := closedSessions + {j.obj};
        return;
      }
      if j.remote in byRemote {
        var oldID := byRemote[j.remote];
        if oldID != 0 && oldID != j.sid && oldID in sessions {
          closedSessions := closedSessions + {sessions[oldID]};
        }
      }
      byRemote := byRemote[j.remote := j.sid];
    }

    method RemoveSession(j: Job)
      modifies `sessions, `sessionRemote, `byRemote
      ensures View() == if Holds(old(View()), j.sid, j.obj) then Removed(old(View()), j.sid, j.remote) else old(View())
    {
      if j.sid in sessions && sessions[j.sid] == j.obj {
        sessions := sessions - {j.sid};
        sessionRemote := sessionRemote - {j.sid};
        if j.remote in byRemote && byRemote[j.remote] == j.sid {
          byRemote := byRemote - {j.remote};
        }
      }
    }

    /** Closes every session once and empties the tables; a second call does nothing. */
    method Close()
      modifies this
      ensures closed
      ensures old(closed) ==> View() == old(View()) && closedSessions == old(closedSessions)
      ensures !old(closed) ==> View() == NO_TABLES && closedSessions == old(closedSessions) + old(sessions).Values
    {
      if closed {
        return;
      }
      closed := true;
      var todo := sessions.Keys;
      while todo != {}
        invariant todo <= sessions.Keys && sessions == old(sessions) && closed
        invariant closedSessions == old(closedSessions) + set sid | sid in sessions.Keys - todo :: sessions[sid]
        decreases todo
      {
        var sid :| sid in todo;
        todo := todo - {sid};
        closedSessions := closedSessions + {sessions[sid]};
        assert (sessions.Keys - todo) == (sessions.Keys - (todo + {sid})) + {sid};
      }
      assert (set sid | sid in sessions.Keys - todo :: sessions[sid]) == sessions.Values;
      sessions, sessionRemote, byRemote := map[], map[], map[];
    }

    /** The session that gets a packet: the identified one, if it was opened from the packet's remote. */
    method Route(sid: nat, remote: string) returns (obj: Option<nat>)
      ensures obj.Some? <==> sid in sessions && sid in sessionRemote && sessionRemote[sid] == remote
      ensures obj.Some? ==> obj.value == sessions[sid]
    {
      if sid in sessions && sid in sessionRemote && sessionRemote[sid] == remote {
        return Some(sessions[sid]);
      }
      return None;
    }
  }
}
