/** Bridge facts: the 138-byte encoding, its decoder and the attestation preimage (q-codec: lib.rs). */
module Facts {
  import opened Machine
  import opened Bytes

  const FACT_VERSION: u8 := 1
  const FACT_ENCODED_LEN: nat := 138
  const ATTEST_DOMAIN: seq<u8> :=
    [81, 85, 65, 78, 84, 79, 86, 65, 47, 81, 45, 79, 82, 65, 67, 76, 69, 47, 65, 84, 84, 69, 83, 84, 47, 118, 49]

  datatype CodecError =
    | ShortInput | TrailingBytes | UnknownTag | BadVersion | ZeroAmount | ZeroAsset | ZeroRecipient | ZeroSourceRef
    | ZeroChain | LengthMismatch

  datatype Direction = Deposit | ExitAck

  datatype BridgeFact = BridgeFact(
    version: u8, sourceChain: u32, destChain: u32, routeId: u32, direction: Direction, nonce: u64,
    sourceRef: Bytes32, asset: Bytes16, amount: u128, recipient: Bytes32,
    finalityDepth: u32, observedHeight: u64, expiryHeight: u64)
  {
    predicate IsZero() {
      sourceChain == 0 && destChain == 0 && routeId == 0 && direction == Deposit && nonce == 0 && sourceRef == ZERO32
      && asset == ZERO16 && amount == 0 && recipient == ZERO32 && finalityDepth == 0 && observedHeight == 0
      && expiryHeight == 0
    }

    function Validate(): Result<(), CodecError> {
      if version != FACT_VERSION then Err(BadVersion)
      else if sourceChain == 0 || destChain == 0 then Err(ZeroChain)
      else if amount == 0 then Err(ZeroAmount)
      else if asset == ZERO16 then Err(ZeroAsset)
      else if recipient == ZERO32 then Err(ZeroRecipient)
      else if sourceRef == ZERO32 then Err(ZeroSourceRef)
      else Ok(())
    }
  }

  function DirectionTag(d: Direction): u8 {
    if d == Deposit then 0 else 1
  }

  // The fact in four runs of fields.
  const FACT_A: seq<nat> := [1, 4, 4, 4]
  const FACT_B: seq<nat> := [1, 8]
  const FACT_C: seq<nat> := [32, 16, 16, 32]
  const FACT_D: seq<nat> := [4, 8, 8]

  lemma Totals()
    ensures Total(FACT_A) == 13 && Total(FACT_B) == 9 && Total(FACT_C) == 96 && Total(FACT_D) == 20
  {}

  function FieldsA(f: BridgeFact): seq<seq<u8>> {
    [[f.version], Le32(f.sourceChain), Le32(f.destChain), Le32(f.routeId)]
  }

  function FieldsB(f: BridgeFact): seq<seq<u8>> {
    [[DirectionTag(f.direction)], Le64(f.nonce)]
  }

  function FieldsC(f: BridgeFact): seq<seq<u8>> {
    [f.sourceRef, f.asset, Le128(f.amount), f.recipient]
  }

  function FieldsD(f: BridgeFact): seq<seq<u8>> {
    [Le32(f.finalityDepth), Le64(f.observedHeight), Le64(f.expiryHeight)]
  }

  /** `BridgeFact::encode`. */
  function Encode(f: BridgeFact): seq<u8> {
    Concat(FieldsA(f)) + Concat(FieldsB(f)) + Concat(FieldsC(f)) + Concat(FieldsD(f))
  }

  function PartA(s: seq<u8>): (u8, u32, u32, u32)
    requires |s| == 13
  {
    Totals();
    var p := Split(FACT_A, s);
    (p[0][0], To32(p[1]), To32(p[2]), To32(p[3]))
  }

  function PartB(s: seq<u8>): (Direction, u64)
    requires |s| == 9
  {
    Totals();
    var p := Split(FACT_B, s);
    (if p[0][0] == 0 then Deposit else ExitAck, To64(p[1]))
  }

  function PartC(s: seq<u8>): (Bytes32, Bytes16, u128, Bytes32)
    requires |s| == 96
  {
    Totals();
    var p := Split(FACT_C, s);
    (p[0], p[1], To128(p[2]), p[3])
  }

  function PartD(s: seq<u8>): (u32, u64, u64)
    requires |s| == 20
  {
    Totals();
    var p := Split(FACT_D, s);
    (To32(p[0]), To64(p[1]), To64(p[2]))
  }

  /** The fact laid out in 138 bytes with a known direction tag. */
  function FactOf(s: seq<u8>): BridgeFact
    requires |s| == FACT_ENCODED_LEN && s[13] <= 1
  {
    var a, b, c, d := PartA(s[..13]), PartB(s[13..22]), PartC(s[22..118]), PartD(s[118..]);
    BridgeFact(a.0, a.1, a.2, a.3, b.0, b.1, c.0, c.1, c.2, c.3, d.0, d.1, d.2)
  }

  /** `BridgeFact::decode`: the errors come in the order the reader meets them. */
  function Decode(s: seq<u8>): Result<BridgeFact, CodecError> {
    if |s| < 1 then Err(ShortInput)
    else if s[0] != FACT_VERSION then Err(BadVersion)
    else if |s| < 14 then Err(ShortInput)
    else if s[13] > 1 then Err(UnknownTag)
    else if |s| < FACT_ENCODED_LEN then Err(ShortInput)
    else if |s| > FACT_ENCODED_LEN then Err(TrailingBytes)
    else Ok(FactOf(s))
  }

  lemma PartARoundTrip(f: BridgeFact)
    ensures var s := Concat(FieldsA(f));
      |s| == 13 && s[0] == f.version && PartA(s) == (f.version, f.sourceChain, f.destChain, f.routeId)
  {
    var p := FieldsA(f);
    Totals();
    SplitConcat(p, FACT_A, []);
    assert Concat(p) + [] == Concat(p);
    assert Concat(p)[0] == p[0][0];
    Le32RoundTrip(f.sourceChain); Le32RoundTrip(f.destChain); Le32RoundTrip(f.routeId);
  }

  lemma PartBRoundTrip(f: BridgeFact)
    ensures var s := Concat(FieldsB(f));
      |s| == 9 && s[0] == DirectionTag(f.direction) && PartB(s) == (f.direction, f.nonce)
  {
    var p := FieldsB(f);
    Totals();
    SplitConcat(p, FACT_B, []);
    assert Concat(p) + [] == Concat(p);
    assert Concat(p)[0] == p[0][0];
    Le64RoundTrip(f.nonce);
  }

  lemma PartCRoundTrip(f: BridgeFact)
    ensures |Concat(FieldsC(f))| == 96 && PartC(Concat(FieldsC(f))) == (f.sourceRef, f.asset, f.amount, f.recipient)
  {
    Totals();
    SplitConcat(FieldsC(f), FACT_C, []);
    assert Concat(FieldsC(f)) + [] == Concat(FieldsC(f));
    Le128RoundTrip(f.amount);
  }

  lemma PartDRoundTrip(f: BridgeFact)
    ensures |Concat(FieldsD(f))| == 20
    ensures PartD(Concat(FieldsD(f))) == (f.finalityDepth, f.observedHeight, f.expiryHeight)
  {
    Totals();
    SplitConcat(FieldsD(f), FACT_D, []);
    assert Concat(FieldsD(f)) + [] == Concat(FieldsD(f));
    Le32RoundTrip(f.finalityDepth); Le64RoundTrip(f.observedHeight); Le64RoundTrip(f.expiryHeight);
  }

  lemma FourParts(a: seq<u8>, b: seq<u8>, c: seq<u8>, d: seq<u8>)
    requires |a| == 13 && |b| == 9 && |c| == 96
    ensures var s := a + b + c + d; s[..13] == a && s[13..22] == b && s[22..118] == c && s[118..] == d
  {}

  /** Every fact is read back from its encoding, field for field; it decodes when its version is the known one. */
  lemma FactRoundTrip(f: BridgeFact)
    ensures |Encode(f)| == FACT_ENCODED_LEN && Encode(f)[13] <= 1 && Encode(f)[0] == f.version
    ensures FactOf(Encode(f)) == f
    ensures Decode(Encode(f)) == if f.version == FACT_VERSION then Ok(f) else Err(BadVersion)
  {
    PartARoundTrip(f);
    PartBRoundTrip(f);
    PartCRoundTrip(f);
    PartDRoundTrip(f);
    FourParts(Concat(FieldsA(f)), Concat(FieldsB(f)), Concat(FieldsC(f)), Concat(FieldsD(f)));
    assert Encode(f)[13] == Encode(f)[13..22][0];
  }

  lemma PartAInverse(f: BridgeFact, s: seq<u8>)
    requires |s| == 13 && PartA(s) == (f.version, f.sourceChain, f.destChain, f.routeId)
    ensures Concat(FieldsA(f)) == s
  {
    Totals();
    var p := Split(FACT_A, s);
    ConcatSplit(FACT_A, s);
    LeOfFromLe(p[1]); LeOfFromLe(p[2]); LeOfFromLe(p[3]);
    assert p[0] == [f.version];
    assert FieldsA(f) == p;
    assert s[..13] == s;
  }

  lemma PartBInverse(f: BridgeFact, s: seq<u8>)
    requires |s| == 9 && s[0] <= 1 && PartB(s) == (f.direction, f.nonce)
    ensures Concat(FieldsB(f)) == s
  {
    Totals();
    var p := Split(FACT_B, s);
    ConcatSplit(FACT_B, s);
    LeOfFromLe(p[1]);
    assert p[0] == s[..1] == [DirectionTag(f.direction)];
    assert FieldsB(f) == p;
    assert s[..9] == s;
  }

  lemma PartCInverse(f: BridgeFact, s: seq<u8>)
    requires |s| == 96 && PartC(s) == (f.sourceRef, f.asset, f.amount, f.recipient)
    ensures Concat(FieldsC(f)) == s
  {
    Totals();
    var p := Split(FACT_C, s);
    ConcatSplit(FACT_C, s);
    LeOfFromLe(p[2]);
    assert FieldsC(f) == p;
    assert s[..96] == s;
  }

  lemma PartDInverse(f: BridgeFact, s: seq<u8>)
    requires |s| == 20 && PartD(s) == (f.finalityDepth, f.observedHeight, f.expiryHeight)
    ensures Concat(FieldsD(f)) == s
  {
    Totals();
    var p := Split(FACT_D, s);
    ConcatSplit(FACT_D, s);
    LeOfFromLe(p[0]); LeOfFromLe(p[1]); LeOfFromLe(p[2]);
    assert FieldsD(f) == p;
    assert s[..20] == s;
  }

  /** The encoding is canonical: a decoded fact encodes to the very bytes it came from. */
  lemma FactCanonical(s: seq<u8>)
    requires |s| == FACT_ENCODED_LEN && s[13] <= 1
    ensures Encode(FactOf(s)) == s
  {
    var f := FactOf(s);
    PartAInverse(f, s[..13]);
    PartBInverse(f, s[13..22]);
    PartCInverse(f, s[22..118]);
    PartDInverse(f, s[118..]);
    FourSlices(s);
  }

  lemma FourSlices(s: seq<u8>)
    requires |s| == FACT_ENCODED_LEN
    ensures s == s[..13] + s[13..22] + s[22..118] + s[118..]
  {}

  /** `attest_preimage`: what an operator signs. */
  function Preimage(f: BridgeFact, destChainId: u64): seq<u8> {
    ATTEST_DOMAIN + Encode(f) + Le64(destChainId)
  }

  lemma Slices(a: seq<u8>, b: seq<u8>, c: seq<u8>)
    ensures (a + b + c)[|a|..|a| + |b|] == b && (a + b + c)[|a| + |b|..] == c
  {}

  /** No two different (fact, destination) pairs share a preimage. */
  lemma PreimageInjective(f: BridgeFact, x: u64, g: BridgeFact, y: u64)
    requires Preimage(f, x) == Preimage(g, y)
    ensures f == g && x == y
  {
    FactRoundTrip(f);
    FactRoundTrip(g);
    Slices(ATTEST_DOMAIN, Encode(f), Le64(x));
    Slices(ATTEST_DOMAIN, Encode(g), Le64(y));
    Le64RoundTrip(x);
    Le64RoundTrip(y);
  }

  function AttestContext(era: Bytes32): seq<u8> {
    ATTEST_DOMAIN + era
  }
}
