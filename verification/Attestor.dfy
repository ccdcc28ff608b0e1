/** What an operator observes and signs: locks, corridors, translation and divergence digests
    (q-attestor: watcher.rs, translator.rs, operator.rs). */
module Attestor {
  import opened Machine
  import opened Bytes
  import opened Facts

  const MESSAGE_TTL_BLOCKS: nat := 7_200

  /** A hash into 32 bytes. Nothing is assumed of it. */
  type Hash = seq<u8> -> Bytes32

  /** A source chain and a reference on it. */
  datatype Key = Key(chain: u32, ref: Bytes32)

  datatype ObservedLock = ObservedLock(
    sourceChain: u32, sourceRef: Bytes32, asset: Bytes16, amount: u128, recipient: Bytes32, observedHeight: u64,
    confirmations: u32)

  function KeyOf(lock: ObservedLock): Key {
    Key(lock.sourceChain, lock.sourceRef)
  }

  datatype CorridorContext = CorridorContext(
    sourceChain: u32, destChain: u32, destChainId: u64, routeId: u32, requiredConfirmations: u32, era: Bytes32)

  /** `expiry_deadline`: the end of the next whole message window. */
  function ExpiryDeadline(destHeight: u64): u64 {
    Min((destHeight / MESSAGE_TTL_BLOCKS + 2) * MESSAGE_TTL_BLOCKS, U64_MAX)
  }

  /** `translate`. */
  function Translate(lock: ObservedLock, ctx: CorridorContext, destHeight: u64): BridgeFact {
    BridgeFact(FACT_VERSION, lock.sourceChain, ctx.destChain, ctx.routeId, Deposit, To64(lock.sourceRef[..8]),
               lock.sourceRef, lock.asset, lock.amount, lock.recipient, ctx.requiredConfirmations,
               lock.observedHeight, ExpiryDeadline(destHeight))
  }

  /** The part of an observation two honest signatures over one reference must share. */
  datatype Substance = Substance(
    key: Key, asset: Bytes16, amount: u128, recipient: Bytes32, observedHeight: u64, destChain: u32, routeId: u32)

  function SubstanceOf(lock: ObservedLock, ctx: CorridorContext): Substance {
    Substance(KeyOf(lock), lock.asset, lock.amount, lock.recipient, lock.observedHeight, ctx.destChain, ctx.routeId)
  }

  function FactSubstance(f: BridgeFact): Substance {
    Substance(Key(f.sourceChain, f.sourceRef), f.asset, f.amount, f.recipient, f.observedHeight, f.destChain, f.routeId)
  }

  function DigestHead(s: Substance): seq<seq<u8>> {
    [Le32(s.key.chain), s.key.ref, s.asset, Le128(s.amount)]
  }

  function DigestTail(s: Substance): seq<seq<u8>> {
    [s.recipient, Le64(s.observedHeight), Le32(s.destChain), Le32(s.routeId)]
  }

  /** The bytes `divergence_digest` hashes. */
  function DigestPreimage(s: Substance): seq<u8> {
    Concat(DigestHead(s)) + Concat(DigestTail(s))
  }

  function Digest(h: Hash, s: Substance): Bytes32 {
    h(DigestPreimage(s))
  }

  lemma DigestHeadInjective(s: Substance, t: Substance)
    requires Concat(DigestHead(s)) == Concat(DigestHead(t))
    ensures s.key == t.key && s.asset == t.asset && s.amount == t.amount
  {
    var a, b := DigestHead(s), DigestHead(t);
    SplitConcat(a, [4, 32, 16, 16], []);
    SplitConcat(b, [4, 32, 16, 16], []);
    assert a == b;
    assert a[0] == b[0] && a[1] == b[1] && a[2] == b[2] && a[3] == b[3];
    Le32RoundTrip(s.key.chain); Le32RoundTrip(t.key.chain);
    Le128RoundTrip(s.amount); Le128RoundTrip(t.amount);
  }

  lemma DigestTailInjective(s: Substance, t: Substance)
    requires Concat(DigestTail(s)) == Concat(DigestTail(t))
    ensures s.recipient == t.recipient && s.observedHeight == t.observedHeight
    ensures s.destChain == t.destChain && s.routeId == t.routeId
  {
    var a, b := DigestTail(s), DigestTail(t);
    SplitConcat(a, [32, 8, 4, 4], []);
    SplitConcat(b, [32, 8, 4, 4], []);
    assert a == b;
    assert a[0] == b[0] && a[1] == b[1] && a[2] == b[2] && a[3] == b[3];
    Le64RoundTrip(s.observedHeight); Le64RoundTrip(t.observedHeight);
    Le32RoundTrip(s.destChain); Le32RoundTrip(t.destChain);
    Le32RoundTrip(s.routeId); Le32RoundTrip(t.routeId);
  }

  lemma HeadLength(s: Substance)
    ensures |Concat(DigestHead(s))| == 68
  {
    assert Total([4, 32, 16, 16]) == 68;
    SplitConcat(DigestHead(s), [4, 32, 16, 16], []);
  }

  /** The digest commits to every field of the substance: no two share the bytes that are hashed. */
  lemma DigestPreimageInjective(s: Substance, t: Substance)
    requires DigestPreimage(s) == DigestPreimage(t)
    ensures s == t
  {
    HeadLength(s);
    HeadLength(t);
    assert Concat(DigestHead(s)) == DigestPreimage(s)[..68] && Concat(DigestHead(t)) == DigestPreimage(t)[..68];
    assert Concat(DigestTail(s)) == DigestPreimage(s)[68..] && Concat(DigestTail(t)) == DigestPreimage(t)[68..];
    DigestHeadInjective(s, t);
    DigestTailInjective(s, t);
  }

  /** The next window's end does not fit 64 bits. */
  predicate Saturates(destHeight: u64) {
    (destHeight / MESSAGE_TTL_BLOCKS + 2) * MESSAGE_TTL_BLOCKS > U64_MAX
  }

  /** The deadline is the end of a window, more than one and at most two windows ahead, or the last height there is when
      that window's end does not fit; two heights share a deadline exactly when they share a window, or both are that far
      up. */
  lemma DeadlineWindow(destHeight: u64, other: u64)
    ensures !Saturates(destHeight) ==>
      && destHeight + MESSAGE_TTL_BLOCKS < ExpiryDeadline(destHeight) <= destHeight + 2 * MESSAGE_TTL_BLOCKS
      && ExpiryDeadline(destHeight) % MESSAGE_TTL_BLOCKS == 0
    ensures Saturates(destHeight) ==> ExpiryDeadline(destHeight) == U64_MAX < destHeight + 2 * MESSAGE_TTL_BLOCKS
    ensures ExpiryDeadline(destHeight) == ExpiryDeadline(other)
       <==> destHeight / MESSAGE_TTL_BLOCKS == other / MESSAGE_TTL_BLOCKS || (Saturates(destHeight) && Saturates(other))
  {}

  /** A translated fact carries the observation it was made from, a version that decodes and a later deadline. */
  lemma TranslateFaithful(lock: ObservedLock, ctx: CorridorContext, destHeight: u64)
    ensures FactSubstance(Translate(lock, ctx, destHeight)) == SubstanceOf(lock, ctx)
    ensures destHeight <= ExpiryDeadline(destHeight)
    ensures destHeight < U64_MAX ==> destHeight < ExpiryDeadline(destHeight) <= destHeight + 2 * MESSAGE_TTL_BLOCKS
    ensures Decode(Encode(Translate(lock, ctx, destHeight))) == Ok(Translate(lock, ctx, destHeight))
  {
    FactRoundTrip(Translate(lock, ctx, destHeight));
  }
}
