/** Connections that take bytes in pieces and may fail, and the loop that writes a whole buffer to one. */
module Writers {
  import opened Bytes

  /** What a connection has taken so far and how many more bytes it will take before it fails. */
  datatype Sink = Sink(written: Data, room: nat)

  function Taken(s: Sink, data: Data): nat {
    if |data| <= s.room then |data| else s.room
  }

  function Put(s: Sink, data: Data): Sink {
    Sink(s.written + data[..Taken(s, data)], s.room - Taken(s, data))
  }

  predicate Fits(s: Sink, data: Data) {
    |data| <= s.room
  }

  class Conn {
    var written: Data
    var room: nat

    function View(): Sink
      reads this
    {
      Sink(written, room)
    }

    constructor (room: nat)
      ensures View() == Sink([], room)
    {
      written, this.room := [], room;
    }

    /** One call of Write takes some bytes, at least one unless the connection has failed. */
    method Write(data: Data) returns (n: nat, ok: bool)
      requires |data| > 0
      modifies this
      ensures n <= |data| && n <= old(room) && View() == Sink(old(written) + data[..n], old(room) - n)
      ensures ok <==> old(room) > 0
      ensures ok ==> n > 0
      ensures !ok ==> n == 0
    {
      if room == 0 {
        return 0, false;
      }
      n :| 1 <= n <= |data| && n <= room;
      written, room := written + data[..n], room - n;
      ok := true;
    }

    method Close()
      modifies `room
      ensures room == 0
    {
      room := 0;
    }

    /** However the connection cuts the writes, it ends up with the whole buffer, or with the part it could take. */
    method WriteAll(data: Data) returns (ok: bool)
      modifies this
      ensures ok <==> Fits(old(View()), data)
      ensures View() == Put(old(View()), data)
    {
      var rest, done := data, 0;
      while |rest| > 0
        invariant 0 <= done <= |data| && rest == data[done..]
        invariant written == old(written) + data[..done] && room + done == old(room)
        decreases |rest|
      {
        var n, accepted := Write(rest);
        if !accepted {
          return false;
        }
        assert data[done..][..n] == data[done..done + n];
        assert data[..done] + data[done..done + n] == data[..done + n];
        rest, done := rest[n..], done + n;
      }
      return true;
    }
  }
}
