/**
 Why the duplicate window must not forget an open request: the acceptor would dial again and number its chunks from 1 anew,
 and the opener would mix the two connections. For every window length this module builds the run in which the copy of a
 request comes just when the window has forgotten it.
 */
module TcpReopen {
  import opened Bytes
  import opened Writers
  import opened OrderedFlow
  import opened TcpFlows
  import opened TcpWindow

  lemma {:induction false} Extended(window: nat, w: World, turns: seq<Turn>, next: Turn)
    requires Plays(window, w, turns) && CanTurn(Played(window, w, turns), next)
    ensures Plays(window, w, turns + [next])
    ensures Played(window, w, turns + [next]) == Turned(window, Played(window, w, turns), next)
    decreases |turns|
  {
    if turns == [] {
      assert Plays(window, Turned(window, w, next), [next][1..]);
      assert turns + [next] == [next];
    } else {
      Extended(window, Turned(window, w, turns[0]), turns[1..], next);
      assert (turns + [next])[1..] == turns[1..] + [next];
    }
  }

  lemma Next(window: nat, before: seq<Turn>, next: Turn) returns (turns: seq<Turn>)
    requires Plays(window, NEW_WORLD, before) && CanTurn(Played(window, NEW_WORLD, before), next)
    ensures Plays(window, NEW_WORLD, turns)
    ensures Played(window, NEW_WORLD, turns) == Turned(window, Played(window, NEW_WORLD, before), next)
  {
    Extended(window, NEW_WORLD, before, next);
    turns := before + [next];
  }

  ghost function At(window: nat, turns: seq<Turn>): World
    requires Plays(window, NEW_WORLD, turns)
  {
    Played(window, NEW_WORLD, turns)
  }

  /** The acceptor's end of the flow while it serves. */
  function Serving(pumping: bool, read: seq<Data>): Flow {
    Flow(false, true, false, None, !pumping, pumping, Fresh(9), read)
  }

  /** The opener has asked for flow 7 under message identifier 1 and has received `accepted` messages. */
  ghost predicate Asked(x: End, accepted: seq<nat>, rx: Receiver) {
    && x.names == map[7 := 1] && x.accepted == accepted && Open(7) in x.node.wire
    && 7 in x.node.flows && x.node.flows[7] == Opener(9, true).(rx := rx)
  }

  /** The acceptor takes the request from its window, dials, tells so, and reads one chunk. */
  lemma Served(window: nat, before: seq<Turn>, chunk: Data) returns (turns: seq<Turn>)
    requires Plays(window, NEW_WORLD, before) && 0 < |chunk| <= CHUNK
    requires var w := At(window, before);
             && 7 in w.x.names && w.x.names[7] == 1 && Open(7) in w.x.node.wire && !Live(w.y.node, 7)
             && !DuplicateFilter.Refused(w.y.accepted, window, 1) && w.y.names == map[]
    ensures Plays(window, NEW_WORLD, turns)
    ensures var w, v := At(window, before), At(window, turns);
            && v.x == w.x && v.y.names == map[] && v.y.accepted == w.y.accepted + [1]
            && 7 in v.y.node.flows && v.y.node.flows[7] == Serving(true, [chunk])
            && w.y.node.wire <= v.y.node.wire && Chunk(7, 1, chunk) in v.y.node.wire
  {
    var job := Job(7, |At(window, before).y.accepted|);
    turns := Next(window, before, Turn(false, GetOpen(7)));
    turns := Next(window, turns, Turn(false, Serve(job, AcceptOpen(7, 9))));
    assert At(window, turns).y.node.flows[7] == Serving(false, []);
    turns := Next(window, turns, Turn(false, Plain(SendStatus(7, true))));
    assert At(window, turns).y.node.flows[7] == Serving(true, []);
    turns := Next(window, turns, Turn(false, Plain(Pump(7, chunk))));
  }

  lemma FirstChunk()
    ensures Arrive(Fresh(9), 1, [1]) == Outcome(Receiver(2, map[], Sink([1], 8)), true)
  {
  }

  lemma Asking(window: nat) returns (turns: seq<Turn>)
    ensures Plays(window, NEW_WORLD, turns)
    ensures Asked(At(window, turns).x, [], Fresh(9)) && At(window, turns).y == NEW_END
  {
    turns := Next(window, [], Turn(true, Begin(OpenLocal(7, 9, true), 1)));
  }

  /** The opener receives chunk 1 of the first connection, which then closes. */
  lemma FirstConnection(window: nat) returns (turns: seq<Turn>)
    ensures Plays(window, NEW_WORLD, turns)
    ensures var w := At(window, turns);
            && Asked(w.x, [1], Receiver(2, map[], Sink([1], 8)))
            && w.y.names == map[] && w.y.accepted == [1] && !Live(w.y.node, 7)
  {
    turns := Asking(window);
    turns := Served(window, turns, [1]);
    FirstChunk();
    turns := Next(window, turns, Turn(true, Get(HandleChunk(7, 1, [1]), 1)));
    turns := Next(window, turns, Turn(false, Plain(PumpEnd(7))));
  }

  /** The first `n` identifiers from 2 on. */
  function Others(n: nat): (names: seq<nat>)
    ensures |names| == n && forall i | 0 <= i < n :: names[i] == i + 2
  {
    seq(n, i => i + 2)
  }

  /** The acceptor then accepts `n` other messages. */
  lemma {:induction false} Forgetting(window: nat, n: nat) returns (turns: seq<Turn>)
    ensures Plays(window, NEW_WORLD, turns)
    ensures var w := At(window, turns);
            && Asked(w.x, [1], Receiver(2, map[], Sink([1], 8)))
            && w.y.names == map[] && w.y.accepted == [1] + Others(n) && !Live(w.y.node, 7)
  {
    if n == 0 {
      turns := FirstConnection(window);
      assert [1] + Others(0) == [1];
    } else {
      turns := Forgetting(window, n - 1);
      var accepted := At(window, turns).y.accepted;
      assert n + 1 !in accepted;
      turns := Next(window, turns, Turn(false, GetOther(n + 1)));
      assert accepted + [n + 1] == [1] + Others(n);
    }
  }

  lemma Forgotten(window: nat)
    ensures !DuplicateFilter.Refused([1] + Others(window), window, 1)
  {
    assert DuplicateFilter.LastN([1] + Others(window), window) == Others(window);
  }

  lemma SecondChunk()
    ensures Arrive(Receiver(2, map[], Sink([1], 8)), 2, [3]) == Outcome(Receiver(3, map[], Sink([1, 3], 7)), true)
  {
  }

  lemma Flat()
    ensures Flatten([[2], [3]]) == [2, 3]
  {
    assert [[2], [3]][..1] == [[2]];
    assert Flatten([[2]]) == Flatten([]) + [2];
  }

  /** For every window: the request is accepted, served and closed, then as many other messages are accepted as the window
      holds, and then the copy of the request. Its second connection is mixed with the first: the opener has written what
      is not a prefix of what was read, and one message more than `SmallPrefix` allows was accepted. */
  lemma RepeatedOpenMixes(window: nat) returns (turns: seq<Turn>)
    ensures Plays(window, NEW_WORLD, turns)
    ensures var w := At(window, turns);
            !Prefixes(w.x.node, w.y.node, 7) && |w.y.accepted| == window + 2 && |w.x.accepted| == 2
  {
    turns := Forgetting(window, window);
    Forgotten(window);
    turns := Served(window, turns, [2]);
    turns := Next(window, turns, Turn(false, Plain(Pump(7, [3]))));
    assert At(window, turns).y.node.flows[7].read == [[2], [3]];
    SecondChunk();
    turns := Next(window, turns, Turn(true, Get(HandleChunk(7, 2, [3]), 2)));
    Flat();
    var w := At(window, turns);
    assert w.x.node.flows[7].rx.sink.written[0] == 1 && Flatten(ReadAt(w.y.node, 7))[0] == 2;
  }
}
