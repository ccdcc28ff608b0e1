/** The cursor reader and buffer writer under every decoder and encoder (q-codec: lib.rs). */
module Codec {
  import opened Machine
  import opened Bytes
  import opened Facts

  /** The next `n` bytes and what follows them. */
  function Take(s: seq<u8>, n: nat): Result<(seq<u8>, seq<u8>), CodecError> {
    if n <= |s| then Ok((s[..n], s[n..])) else Err(ShortInput)
  }

  /** The next little-endian number of `n` bytes. */
  function TakeLe(s: seq<u8>, n: nat): Result<(nat, seq<u8>), CodecError> {
    if n <= |s| then Ok((FromLe(s[..n]), s[n..])) else Err(ShortInput)
  }

  /** The next bytes under a length prefix of `n` bytes. */
  function TakeBytes(s: seq<u8>, n: nat): Result<(seq<u8>, seq<u8>), CodecError> {
    var len := TakeLe(s, n);
    if len.Err? then Err(len.error) else Take(len.value.1, len.value.0)
  }

  lemma TakeConcat(a: seq<u8>, rest: seq<u8>)
    ensures Take(a + rest, |a|) == Ok((a, rest))
  {}

  lemma TakeLeConcat(v: nat, n: nat, rest: seq<u8>)
    requires v < Pow256(n)
    ensures TakeLe(Le(v, n) + rest, n) == Ok((v, rest))
  {
    LeRoundTrip(v, n);
    assert (Le(v, n) + rest)[..n] == Le(v, n);
  }

  lemma TakeBytesConcat(a: seq<u8>, n: nat, rest: seq<u8>)
    requires |a| < Pow256(n)
    ensures TakeBytes(Le(|a|, n) + a + rest, n) == Ok((a, rest))
  {
    TakeLeConcat(|a|, n, a + rest);
    TakeConcat(a, rest);
    assert Le(|a|, n) + a + rest == Le(|a|, n) + (a + rest);
  }

  lemma Halves(s: seq<u8>, n: nat)
    requires n <= |s|
    ensures s == s[..n] + s[n..]
  {}

  /** What was read, written again, is what was there. */
  lemma TakeLeInverse(s: seq<u8>, n: nat)
    requires TakeLe(s, n).Ok?
    ensures s == Le(TakeLe(s, n).value.0, n) + TakeLe(s, n).value.1 && TakeLe(s, n).value.0 < Pow256(n)
  {
    var a := s[..n];
    assert |a| == n;
    LeOfFromLe(a);
    Halves(s, n);
  }

  lemma TakeBytesInverse(s: seq<u8>, n: nat)
    requires TakeBytes(s, n).Ok?
    ensures var (a, rest) := TakeBytes(s, n).value; |a| < Pow256(n) && s == Le(|a|, n) + a + rest
  {
    TakeLeInverse(s, n);
  }

  class Reader {
    const buf: seq<u8>
    var pos: nat

    ghost predicate Valid()
      reads this
    {
      pos <= |buf|
    }

    ghost function Rest(): seq<u8>
      requires Valid()
      reads this
    {
      buf[pos..]
    }

    constructor (buf: seq<u8>)
      ensures this.buf == buf && Valid() && Rest() == buf
    {
      this.buf := buf;
      pos := 0;
    }

    method Fixed(n: nat) returns (r: Result<seq<u8>, CodecError>)
      requires Valid()
      modifies this
      ensures Valid()
      ensures match Take(old(Rest()), n)
        case Ok(p) => r == Ok(p.0) && Rest() == p.1
        case Err(e) => r == Err(e) && pos == old(pos)
    {
      var end := pos + n;
      if end > |buf| {
        return Err(ShortInput);
      }
      assert buf[pos..][..n] == buf[pos..end] && buf[pos..][n..] == buf[end..];
      r := Ok(buf[pos..end]);
      pos := end;
    }

    method Number(n: nat) returns (r: Result<nat, CodecError>)
      requires Valid()
      modifies this
      ensures Valid()
      ensures r.Ok? ==> r.value < Pow256(n)
      ensures match TakeLe(old(Rest()), n)
        case Ok(p) => r == Ok(p.0) && Rest() == p.1
        case Err(e) => r == Err(e) && pos == old(pos)
    {
      var bytes := Fixed(n);
      r := if bytes.Ok? then Ok(FromLe(bytes.value)) else Err(bytes.error);
    }

    method Prefixed(n: nat) returns (r: Result<seq<u8>, CodecError>)
      requires Valid()
      modifies this
      ensures Valid()
      ensures match TakeBytes(old(Rest()), n)
        case Ok(p) => r == Ok(p.0) && Rest() == p.1
        case Err(e) => r == Err(e)
    {
      var len := Number(n);
      if len.Err? {
        return Err(len.error);
      }
      r := Fixed(len.value);
    }

    method Remaining() returns (n: nat)
      requires Valid()
      ensures n == |Rest()|
    {
      n := |buf| - pos;
    }
  }
}
