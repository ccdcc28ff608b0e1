/** Little-endian integers and fixed layouts, the two building blocks of every record in the source. */
module Bytes {
  import opened Machine

  /** 256 to the power `n`. */
  function Pow256(n: nat): (p: nat)
    ensures p > 0
  {
    if n == 0 then 1 else 256 * Pow256(n - 1)
  }

  /** The `n` low-order bytes of `v`, least significant first: `to_le_bytes`. */
  function Le(v: nat, n: nat): (s: seq<u8>)
    ensures |s| == n
  {
    if n == 0 then [] else [v % 256] + Le(v / 256, n - 1)
  }

  /** The number a little-endian byte string stands for: `from_le_bytes`. */
  function FromLe(s: seq<u8>): (v: nat)
    ensures v < Pow256(|s|)
  {
    if s == [] then 0 else s[0] + 256 * FromLe(s[1..])
  }

  lemma {:induction false} LeRoundTrip(v: nat, n: nat)
    requires v < Pow256(n)
    ensures FromLe(Le(v, n)) == v
  {
    if n > 0 {
      LeRoundTrip(v / 256, n - 1);
      assert Le(v, n)[1..] == Le(v / 256, n - 1);
    }
  }

  lemma {:induction false} LeOfFromLe(s: seq<u8>)
    ensures Le(FromLe(s), |s|) == s
  {
    if s != [] {
      LeOfFromLe(s[1..]);
      assert FromLe(s) % 256 == s[0] && FromLe(s) / 256 == FromLe(s[1..]);
    }
  }

  lemma Widths()
    ensures Pow256(2) == 0x1_0000
    ensures Pow256(4) == 0x1_0000_0000
    ensures Pow256(8) == U64_MAX + 1
    ensures Pow256(16) == U128_MAX + 1
  {
    PowSplit(8, 8);
    PowSplit(4, 4);
    PowSplit(2, 2);
  }

  lemma {:induction false} PowSplit(a: nat, b: nat)
    ensures Pow256(a + b) == Pow256(a) * Pow256(b)
  {
    if a > 0 {
      PowSplit(a - 1, b);
      assert 256 * (Pow256(a - 1) * Pow256(b)) == (256 * Pow256(a - 1)) * Pow256(b);
    }
  }

  function Le32(v: u32): seq<u8> { Le(v, 4) }

  function Le64(v: u64): seq<u8> { Le(v, 8) }

  function Le128(v: u128): seq<u8> { Le(v, 16) }

  function To32(s: seq<u8>): u32
    requires |s| == 4
  {
    Widths(); FromLe(s)
  }

  function To64(s: seq<u8>): u64
    requires |s| == 8
  {
    Widths(); FromLe(s)
  }

  function To128(s: seq<u8>): u128
    requires |s| == 16
  {
    Widths(); FromLe(s)
  }

  lemma Le32RoundTrip(v: u32)
    ensures To32(Le32(v)) == v
  {
    Widths(); LeRoundTrip(v, 4);
  }

  lemma Le64RoundTrip(v: u64)
    ensures To64(Le64(v)) == v
  {
    Widths(); LeRoundTrip(v, 8);
  }

  lemma Le128RoundTrip(v: u128)
    ensures To128(Le128(v)) == v
  {
    Widths(); LeRoundTrip(v, 16);
  }

  function Zeros(n: nat): (s: seq<u8>)
    ensures |s| == n
  {
    seq(n, _ => 0)
  }

  /** Fields written one after another, as a `Writer` does. */
  function Concat(fields: seq<seq<u8>>): seq<u8> {
    if fields == [] then [] else fields[0] + Concat(fields[1..])
  }

  function Total(lens: seq<nat>): nat {
    if lens == [] then 0 else lens[0] + Total(lens[1..])
  }

  /** Fields of the given lengths read one after another, as a `Reader` does. */
  function Split(lens: seq<nat>, s: seq<u8>): (fields: seq<seq<u8>>)
    requires Total(lens) <= |s|
    ensures |fields| == |lens|
    ensures forall i :: 0 <= i < |lens| ==> |fields[i]| == lens[i]
  {
    if lens == [] then [] else [s[..lens[0]]] + Split(lens[1..], s[lens[0]..])
  }

  predicate Fits(fields: seq<seq<u8>>, lens: seq<nat>) {
    |fields| == |lens| && forall i :: 0 <= i < |lens| ==> |fields[i]| == lens[i]
  }

  /** Reading a layout back from what was written gives the fields, whatever follows them. */
  lemma {:induction false} SplitConcat(fields: seq<seq<u8>>, lens: seq<nat>, rest: seq<u8>)
    requires Fits(fields, lens)
    ensures |Concat(fields)| == Total(lens)
    ensures Split(lens, Concat(fields) + rest) == fields
  {
    if lens != [] {
      SplitConcat(fields[1..], lens[1..], rest);
      var s := Concat(fields) + rest;
      assert s[..lens[0]] == fields[0];
      assert s[lens[0]..] == Concat(fields[1..]) + rest;
    }
  }

  /** Writing the fields of a layout back gives the bytes they were read from. */
  lemma {:induction false} ConcatSplit(lens: seq<nat>, s: seq<u8>)
    requires Total(lens) <= |s|
    ensures Concat(Split(lens, s)) == s[..Total(lens)]
  {
    if lens != [] {
      ConcatSplit(lens[1..], s[lens[0]..]);
      assert Split(lens, s)[1..] == Split(lens[1..], s[lens[0]..]);
      assert s[..lens[0]] + s[lens[0]..][..Total(lens[1..])] == s[..Total(lens)];
    }
  }
}
