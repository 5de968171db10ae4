/** The duplicate window of the application: a ring of the last accepted identifiers and a set of those in it. */
module DuplicateFilter {

  /** The last `n` of `s`, or all of it. */
  function LastN(s: seq<nat>, n: nat): seq<nat> {
    if |s| <= n then s else s[|s| - n..]
  }

  predicate Refused(accepted: seq<nat>, n: nat, id: nat) {
    id == 0 || id in LastN(accepted, n)
  }

  /** What a window of `n` accepts of the first `i` of `ids`, in order. */
  function Accepted(ids: seq<nat>, n: nat, i: nat): seq<nat>
    requires i <= |ids|
  {
    if i == 0 then []
    else
      var before := Accepted(ids, n, i - 1);
      if Refused(before, n, ids[i - 1]) then before else before + [ids[i - 1]]
  }

  /** The simple filter the ring implements: the answer to the i-th identifier. */
  predicate Answer(ids: seq<nat>, n: nat, i: nat)
    requires i < |ids|
  {
    Refused(Accepted(ids, n, i), n, ids[i])
  }

  /** The first `i` answers. */
  function Answers(ids: seq<nat>, n: nat, i: nat): seq<bool>
    requires i <= |ids|
  {
    if i == 0 then [] else Answers(ids, n, i - 1) + [Answer(ids, n, i - 1)]
  }

  lemma {:induction false} AnswersAre(ids: seq<nat>, n: nat, m: nat, i: nat)
    requires i < m <= |ids|
    ensures |Answers(ids, n, m)| == m && Answers(ids, n, m)[i] == Answer(ids, n, i)
    decreases m
  {
    if m > 1 { AnswersAre(ids, n, m - 1, if i < m - 1 then i else 0); }
  }

  /** No identifier occurs twice within `n` positions. */
  ghost predicate Apart(a: seq<nat>, n: nat) {
    forall i, j | 0 <= i < j < |a| && j - i <= n :: a[i] != a[j]
  }

  lemma ApartMore(a: seq<nat>, n: nat, id: nat)
    requires Apart(a, n) && !Refused(a, n, id)
    ensures Apart(a + [id], n)
  {
    var b := a + [id];
    forall i, j | 0 <= i < j < |b| && j - i <= n ensures b[i] != b[j] {
      if j == |a| {
        var last := LastN(a, n);
        assert a[i] == last[i - (|a| - |last|)];
      }
    }
  }

  /** Zero is never accepted, and no identifier is accepted twice within `n` acceptances. */
  lemma {:induction false} NoRepeatWithin(ids: seq<nat>, n: nat, m: nat)
    requires m <= |ids|
    ensures 0 !in Accepted(ids, n, m) && Apart(Accepted(ids, n, m), n)
    decreases m
  {
    if m > 0 {
      NoRepeatWithin(ids, n, m - 1);
      if !Answer(ids, n, m - 1) { ApartMore(Accepted(ids, n, m - 1), n, ids[m - 1]); }
    }
  }

  lemma {:induction false} AcceptedCame(ids: seq<nat>, n: nat, m: nat)
    requires m <= |ids|
    ensures forall id | id in Accepted(ids, n, m) :: id in ids[..m]
    decreases m
  {
    if m > 0 {
      AcceptedCame(ids, n, m - 1);
      assert ids[..m] == ids[..m - 1] + [ids[m - 1]];
    }
  }

  /** Whatever comes for the first time, and is not zero, is new. */
  lemma FirstIsNew(ids: seq<nat>, n: nat, i: nat)
    requires i < |ids| && ids[i] != 0 && ids[i] !in ids[..i]
    ensures !Answer(ids, n, i)
  {
    AcceptedCame(ids, n, i);
    var a := Accepted(ids, n, i);
    assert forall q | 0 <= q < |LastN(a, n)| :: LastN(a, n)[q] in a;
  }

  /** While at most `n` identifiers were accepted in all, every answer "new" is given at most once per identifier. */
  lemma NewAtMostOnce(ids: seq<nat>, n: nat, i: nat, j: nat)
    requires i < j < |ids| && ids[i] == ids[j] && |Accepted(ids, n, j)| <= n
    ensures Answer(ids, n, j)
  {
    if ids[i] != 0 {
      AcceptedHas(ids, n, i, j);
    }
  }

  lemma {:induction false} AcceptedHas(ids: seq<nat>, n: nat, i: nat, j: nat)
    requires i < j <= |ids| && ids[i] != 0
    ensures ids[i] in Accepted(ids, n, j)
    decreases j
  {
    if i < j - 1 {
      AcceptedHas(ids, n, i, j - 1);
    }
  }

  /** Position `i` accepts its identifier and no position between `i` and `j` accepts it again. */
  ghost predicate LastAcceptedAt(ids: seq<nat>, n: nat, i: nat, j: nat)
    requires i < j <= |ids|
  {
    !Answer(ids, n, i) && forall k {:trigger Answer(ids, n, k)} | i < k < j && ids[k] == ids[i] :: Answer(ids, n, k)
  }

  /** From position `p` on `a` has `id` there and nowhere else. */
  ghost predicate OnlyFrom(a: seq<nat>, p: nat, id: nat) {
    p < |a| && a[p] == id && forall q | p < q < |a| :: a[q] != id
  }

  lemma Longer(a: seq<nat>, b: seq<nat>, p: nat, id: nat, next: nat)
    requires OnlyFrom(a, p, id) && (b == a || (next != id && b == a + [next]))
    ensures OnlyFrom(b, p, id)
  {
  }

  lemma Begun(a: seq<nat>, b: seq<nat>, id: nat)
    requires b == a + [id]
    ensures OnlyFrom(b, |a|, id)
  {
  }

  lemma OneMore(ids: seq<nat>, n: nat, i: nat)
    requires i < |ids|
    ensures Accepted(ids, n, i + 1) == if Answer(ids, n, i) then Accepted(ids, n, i) else Accepted(ids, n, i) + [ids[i]]
  {
  }

  lemma SinceStep(ids: seq<nat>, n: nat, k: nat, p: nat, id: nat)
    requires k < |ids| && OnlyFrom(Accepted(ids, n, k), p, id) && (ids[k] == id ==> Answer(ids, n, k))
    ensures OnlyFrom(Accepted(ids, n, k + 1), p, id)
  {
    OneMore(ids, n, k);
    Longer(Accepted(ids, n, k), Accepted(ids, n, k + 1), p, id, ids[k]);
  }

  /** What is accepted from `i` on: the identifier at `i` first, and not again before `j`. */
  lemma {:induction false} AcceptedSince(ids: seq<nat>, n: nat, i: nat, j: nat, p: nat)
    requires i < j <= |ids| && LastAcceptedAt(ids, n, i, j) && p == |Accepted(ids, n, i)|
    ensures OnlyFrom(Accepted(ids, n, j), p, ids[i])
    decreases j
  {
    if i < j - 1 {
      AcceptedSince(ids, n, i, j - 1, p);
      SinceStep(ids, n, j - 1, p, ids[i]);
    } else {
      OneMore(ids, n, i);
      Begun(Accepted(ids, n, i), Accepted(ids, n, j), ids[i]);
    }
  }

  lemma InLast(a: seq<nat>, n: nat, p: nat, id: nat)
    requires OnlyFrom(a, p, id)
    ensures id in LastN(a, n) <==> |a| - p <= n
  {
    var last := LastN(a, n);
    var skip := |a| - |last|;
    if p >= skip { assert last[p - skip] == id; }
    forall q | 0 <= q < |last| && last[q] == id ensures p >= skip { assert a[skip + q] == id; }
  }

  /** A copy of an accepted identifier is refused if and only if at most `n` identifiers, its own included, were
      accepted since it was. */
  lemma CopyRefusedExactly(ids: seq<nat>, n: nat, i: nat, j: nat)
    requires i < j < |ids| && ids[i] == ids[j] && LastAcceptedAt(ids, n, i, j)
    ensures Answer(ids, n, j) <==> |Accepted(ids, n, j)| - |Accepted(ids, n, i)| <= n
  {
    AcceptedSince(ids, n, i, j, |Accepted(ids, n, i)|);
    InLast(Accepted(ids, n, j), n, |Accepted(ids, n, i)|, ids[i]);
  }

  /** The ring read from the oldest slot on: the last `n` accepted identifiers after `n` zeros. */
  ghost function Window(accepted: seq<nat>, n: nat): seq<nat> {
    (seq(n, _ => 0) + accepted)[|accepted|..]
  }

  ghost function NonZero(w: seq<nat>): set<nat> {
    set x | x in w && x != 0
  }

  lemma WindowHas(accepted: seq<nat>, n: nat, id: nat)
    requires id != 0
    ensures id in NonZero(Window(accepted, n)) <==> id in LastN(accepted, n)
  {
    var padded := seq(n, _ => 0) + accepted;
    var w, last := Window(accepted, n), LastN(accepted, n);
    var skip := |w| - |last|;
    assert forall i | 0 <= i < |last| :: w[skip + i] == last[i];
    assert forall i | 0 <= i < skip :: w[i] == 0;
    if id in last {
      var i :| 0 <= i < |last| && last[i] == id;
      assert w[skip + i] == id;
    }
    if id in w {
      var i :| 0 <= i < |w| && w[i] == id;
      assert last[i - skip] == id;
    }
  }

  ghost predicate Distinct(w: seq<nat>) {
    forall i, j | 0 <= i < j < |w| && w[i] != 0 :: w[i] != w[j]
  }

  lemma WindowShifts(accepted: seq<nat>, n: nat, id: nat)
    requires n > 0
    ensures Window(accepted + [id], n) == Window(accepted, n)[1..] + [id]
  {
  }

  lemma ShiftSet(w: seq<nat>, id: nat)
    requires |w| > 0 && id != 0 && Distinct(w) && id !in w
    ensures Distinct(w[1..] + [id])
    ensures NonZero(w[1..] + [id]) == NonZero(w) - (if w[0] == 0 then {} else {w[0]}) + {id}
  {
    var v := w[1..] + [id];
    assert v[|v| - 1] == id;
    forall x | x in NonZero(w) && x != w[0] ensures x in NonZero(v) {
      var i :| 0 <= i < |w| && w[i] == x;
      assert v[i - 1] == x;
    }
  }

  /** Overwriting the oldest slot and moving on drops the head of the ring and appends. */
  lemma Rotated(before: seq<nat>, after: seq<nat>, k: nat, id: nat)
    requires k < |before| && after == before[k := id]
    ensures var next := if k + 1 == |before| then 0 else k + 1;
            after[next..] + after[..next] == (before[k..] + before[..k])[1..] + [id]
  {
  }

  class Filter {
    const ring: array<nat>
    var seen: set<nat>
    var next: nat
    ghost var accepted: seq<nat>

    /** The ring holds the last accepted identifiers, each once, and the set holds exactly the non-zero ones of it. */
    ghost predicate Valid()
      reads this, ring
    {
      && next < ring.Length
      && ring[next..] + ring[..next] == Window(accepted, ring.Length)
      && Distinct(Window(accepted, ring.Length))
      && seen == NonZero(Window(accepted, ring.Length))
    }

    constructor (n: nat)
      requires n > 0
      ensures Valid() && fresh(ring) && ring.Length == n && accepted == []
    {
      ring := new nat[n](_ => 0);
      seen, next, accepted := {}, 0, [];
      new;
      assert ring[next..] + ring[..next] == Window([], n);
    }

    /** True exactly for zero and the last N accepted identifiers; anything else is accepted. */
    method IsDuplicate(id: nat) returns (dup: bool)
      requires Valid()
      modifies this, ring
      ensures Valid()
      ensures dup <==> Refused(old(accepted), ring.Length, id)
      ensures accepted == if dup then old(accepted) else old(accepted) + [id]
    {
      if id == 0 {
        return true;
      }
      ghost var n, w := ring.Length, Window(accepted, ring.Length);
      WindowHas(accepted, n, id);
      if id in seen {
        return true;
      }
      WindowShifts(accepted, n, id);
      ShiftSet(w, id);
      ghost var before, k := ring[..], next;
      var oldest := ring[next];
      assert oldest == w[0];
      if oldest != 0 {
        seen := seen - {oldest};
      }
      ring[next] := id;
      next := next + 1;
      if next == ring.Length {
        next := 0;
      }
      seen := seen + {id};
      accepted := accepted + [id];
      Rotated(before, ring[..], k, id);
      return false;
    }
  }

  /** Every call sequence on every ring length answers as the simple filter does. */
  method AnswerAll(ids: seq<nat>, n: nat) returns (answers: seq<bool>)
    requires n > 0
    ensures answers == Answers(ids, n, |ids|)
  {
    var f := new Filter(n);
    answers := [];
    for i := 0 to |ids|
      invariant f.Valid() && fresh(f) && fresh(f.ring) && f.ring.Length == n
      invariant f.accepted == Accepted(ids, n, i)
      invariant answers == Answers(ids, n, i)
    {
      var dup := f.IsDuplicate(ids[i]);
      answers := answers + [dup];
    }
  }
}
