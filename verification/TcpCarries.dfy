/** That TCP flows work: for any bytes in both directions there is a run that opens a flow and carries all of them. */
module TcpCarries {
  import opened Bytes
  import opened Writers
  import opened OrderedFlow
  import opened TcpFlows

  lemma {:induction false} Extended(n: Pair, steps: seq<Step>, next: Step)
    requires Runs(n, steps) && Can(After(n, steps), next)
    ensures Runs(n, steps + [next]) && After(n, steps + [next]) == Do(After(n, steps), next)
    decreases |steps|
  {
    if steps == [] {
      assert Runs(Do(n, next), [next][1..]);
      assert steps + [next] == [next];
    } else {
      Extended(Do(n, steps[0]), steps[1..], next);
      assert (steps + [next])[1..] == steps[1..] + [next];
    }
  }

  lemma Next(before: seq<Step>, next: Step) returns (steps: seq<Step>)
    requires Runs(INITIAL, before) && Can(After(INITIAL, before), next)
    ensures Runs(INITIAL, steps) && After(INITIAL, steps) == Do(After(INITIAL, before), next)
  {
    Extended(INITIAL, before, next);
    steps := before + [next];
  }

  /** The flow that has received `got` in order, with room for `room` more bytes. */
  function Caught(got: seq<Data>, room: nat): Receiver {
    Receiver(|got| + 1, map[], Sink(Flatten(got), room))
  }

  /** Flow `id` at `x` is up, has read `read`, and has received `got`. */
  ghost predicate Up(x: Node, id: nat, opener: bool, read: seq<Data>, got: seq<Data>, room: nat) {
    && id in x.flows
    && var f := x.flows[id];
       f.opener == opener && f.live && f.pumping && !f.waiting && !f.owesStatus && f.read == read && f.rx == Caught(got, room)
  }

  /** Open, accept, tell and wake. */
  lemma Opens(id: nat, roomX: nat, roomY: nat) returns (steps: seq<Step>)
    ensures Runs(INITIAL, steps)
    ensures var n := After(INITIAL, steps); Up(n.x, id, true, [], [], roomX) && Up(n.y, id, false, [], [], roomY)
  {
    steps := Next([], Step(true, OpenLocal(id, roomX, true)));
    assert After(INITIAL, steps).x.flows[id] == Opener(roomX, true);
    steps := Next(steps, Step(false, AcceptOpen(id, roomY)));
    assert After(INITIAL, steps).y.flows[id] == Acceptor(roomY);
    steps := Next(steps, Step(false, SendStatus(id, true)));
    steps := Next(steps, Step(true, HandleStatus(id, true)));
    assert After(INITIAL, steps).x.flows[id].ready == Some(true);
    steps := Next(steps, Step(true, Wake(id)));
  }

  lemma Catches(got: seq<Data>, room: nat, chunk: Data)
    requires |chunk| <= room
    ensures Arrive(Caught(got, room), |got| + 1, chunk) == Outcome(Caught(got + [chunk], room - |chunk|), true)
  {
    assert (got + [chunk])[..|got|] == got;
    assert chunk[..|chunk|] == chunk;
  }

  /** One chunk goes from one end to the other. */
  lemma Carries(before: seq<Step>, left: bool, id: nat, chunk: Data, up: seq<Data>, down: seq<Data>, room: nat, other: nat)
      returns (steps: seq<Step>)
    requires Runs(INITIAL, before) && 0 < |chunk| <= CHUNK && |chunk| <= room
    requires var n := After(INITIAL, before);
             Up(Actor(n, left), id, left, up, down, other) && Up(Actor(n, !left), id, !left, down, up, room)
    ensures Runs(INITIAL, steps)
    ensures var n := After(INITIAL, steps);
            && Up(Actor(n, left), id, left, up + [chunk], down, other)
            && Up(Actor(n, !left), id, !left, down, up + [chunk], room - |chunk|)
  {
    Catches(up, room, chunk);
    steps := Next(before, Step(left, Pump(id, chunk)));
    steps := Next(steps, Step(!left, HandleChunk(id, |up| + 1, chunk)));
  }

  ghost predicate Readable(chunks: seq<Data>) {
    forall i | 0 <= i < |chunks| :: 0 < |chunks[i]| <= CHUNK
  }

  lemma FlattenMore(chunks: seq<Data>, chunk: Data)
    ensures |Flatten(chunks + [chunk])| == |Flatten(chunks)| + |chunk|
  {
    assert (chunks + [chunk])[..|chunks|] == chunks;
  }

  /** All chunks of one end go to the other, one after the other. */
  lemma {:induction false} CarriesAll(before: seq<Step>, left: bool, id: nat, chunks: seq<Data>, down: seq<Data>, room: nat, other: nat)
      returns (steps: seq<Step>)
    requires Runs(INITIAL, before) && Readable(chunks) && |Flatten(chunks)| <= room
    requires var n := After(INITIAL, before);
             Up(Actor(n, left), id, left, [], down, other) && Up(Actor(n, !left), id, !left, down, [], room)
    ensures Runs(INITIAL, steps)
    ensures var n := After(INITIAL, steps);
            && Up(Actor(n, left), id, left, chunks, down, other)
            && Up(Actor(n, !left), id, !left, down, chunks, room - |Flatten(chunks)|)
    decreases |chunks|
  {
    if chunks == [] {
      steps := before;
    } else {
      var init, last := chunks[..|chunks| - 1], chunks[|chunks| - 1];
      FlattenMore(init, last);
      assert chunks == init + [last];
      var done := CarriesAll(before, left, id, init, down, room, other);
      steps := Carries(done, left, id, last, init, down, room - |Flatten(init)|, other);
    }
  }

  /** For any chunks to be read at the two ends there is a run that opens the flow and ends with both ends up and each
      having written every byte read at the other. */
  lemma EverythingCarried(id: nat, up: seq<Data>, down: seq<Data>) returns (steps: seq<Step>)
    requires Readable(up) && Readable(down)
    ensures Runs(INITIAL, steps)
    ensures var n := After(INITIAL, steps);
            && Live(n.x, id) && Live(n.y, id) && n.x.flows[id].read == up && n.y.flows[id].read == down
            && n.x.flows[id].rx.sink.written == Flatten(down) && n.y.flows[id].rx.sink.written == Flatten(up)
  {
    steps := Opens(id, |Flatten(down)|, |Flatten(up)|);
    steps := CarriesAll(steps, true, id, up, [], |Flatten(up)|, |Flatten(down)|);
    steps := CarriesAll(steps, false, id, down, up, |Flatten(down)|, 0);
  }
}
