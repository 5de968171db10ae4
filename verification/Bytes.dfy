/** Bytes, optional values, the big-endian integers every wire format of the tunnel is built from, chunks and set sizes. */
module Bytes {
  type Byte = b: int | 0 <= b < 256
  type Data = seq<Byte>

  datatype Option<+T> = None | Some(value: T)

  const UINT16: nat := 0x1_0000
  const UINT32: nat := 0x1_0000_0000
  const UINT64: nat := 0x1_0000_0000_0000_0000

  ghost function Pow256(n: nat): nat {
    if n == 0 then 1 else 256 * Pow256(n - 1)
  }

  lemma Powers()
    ensures Pow256(2) == UINT16 && Pow256(4) == UINT32 && Pow256(8) == UINT64
  {
    assert Pow256(4) == 0x1_0000_0000;
    assert Pow256(6) == 0x1_0000_0000_0000;
  }

  /** The low `n` bytes of `v`, most significant first; higher bytes are cut off as a Go conversion does. */
  function PutUint(v: nat, n: nat): (r: Data)
    ensures |r| == n
  {
    if n == 0 then [] else PutUint(v / 256, n - 1) + [v % 256]
  }

  function GetUint(s: Data): (v: nat)
    ensures v < Pow256(|s|)
  {
    if |s| == 0 then 0 else GetUint(s[..|s| - 1]) * 256 + s[|s| - 1]
  }

  lemma {:induction false} GetPut(v: nat, n: nat)
    requires v < Pow256(n)
    ensures GetUint(PutUint(v, n)) == v
  {
    if n > 0 {
      GetPut(v / 256, n - 1);
      assert PutUint(v, n)[..n - 1] == PutUint(v / 256, n - 1);
    }
  }

  lemma {:induction false} PutGet(s: Data)
    ensures PutUint(GetUint(s), |s|) == s
  {
    if |s| > 0 {
      PutGet(s[..|s| - 1]);
      assert s == s[..|s| - 1] + [s[|s| - 1]];
    }
  }

  /** Two numbers below 256^n with the same n-byte encoding are the same number. */
  lemma PutInjective(v: nat, w: nat, n: nat)
    requires v < Pow256(n) && w < Pow256(n)
    requires PutUint(v, n) == PutUint(w, n)
    ensures v == w
  {
    GetPut(v, n);
    GetPut(w, n);
  }

  lemma Middle(pre: Data, field: Data, post: Data)
    ensures (pre + field + post)[|pre|..|pre| + |field|] == field
  {
  }

  /** The bytes of a sequence of chunks. */
  function Flatten(chunks: seq<Data>): Data {
    if chunks == [] then [] else Flatten(chunks[..|chunks| - 1]) + chunks[|chunks| - 1]
  }

  lemma Fewer<T>(a: set<T>, b: set<T>)
    requires a <= b
    ensures |a| <= |b|
  {
    assert b == a + (b - a);
  }

  /** Numbers from a range of `n`. */
  lemma {:induction false} Range(keys: set<nat>, from: nat, n: nat)
    requires forall k | k in keys :: from <= k < from + n
    ensures |keys| <= n
    decreases n
  {
    if n > 0 {
      var last := from + n - 1;
      Range(keys - {last}, from, n - 1);
      assert keys <= (keys - {last}) + {last};
      Fewer(keys, (keys - {last}) + {last});
    }
  }
}
