/** The registered operators and the counting of their signatures (q-gateway: operators.rs, gateway.rs). */
module Quorum {
  import opened Machine
  import opened Airlock

  /** The length of an ML-DSA-65 signature. */
  const SIGNATURE_BYTES: nat := 3309

  type PublicKey = seq<u8>

  /** Signature verification: key, message, signature, context. Nothing is assumed of it. */
  type Verify = (PublicKey, seq<u8>, seq<u8>, seq<u8>) -> bool

  type Keys = map<u32, PublicKey>

  /** No key is held under two ids. */
  predicate DistinctKeys(keys: Keys) {
    forall a, b :: a in keys && b in keys && keys[a] == keys[b] ==> a == b
  }

  /** `supermajority_floor`: more than two thirds, and at least two. */
  function SupermajorityFloor(size: nat): nat {
    Max(Min(2 * size, U64_MAX) / 3 + 1, 2)
  }

  predicate ValidSig(verify: Verify, keys: Keys, message: seq<u8>, context: seq<u8>, s: SignerSig) {
    && s.operatorId in keys && |s.signature| == SIGNATURE_BYTES
    && verify(keys[s.operatorId], message, s.signature, context)
  }

  /** The operators with a valid signature in the list, in any order and however often. */
  function Signers(verify: Verify, keys: Keys, message: seq<u8>, context: seq<u8>, sigs: seq<SignerSig>): set<u32> {
    set s | s in sigs && ValidSig(verify, keys, message, context, s) :: s.operatorId
  }

  /** `verify_quorum`. */
  function QuorumOf(verify: Verify, keys: Keys, message: seq<u8>, context: seq<u8>, sigs: seq<SignerSig>): set<u32> {
    if |sigs| > |keys| then {} else Signers(verify, keys, message, context, sigs)
  }

  /** The signatures required of a corridor with its own quorum, or of one without. */
  function Required(threshold: nat, quorum: nat, size: nat): nat {
    Max(if quorum > 0 then quorum else threshold, SupermajorityFloor(size))
  }

  datatype QuorumError = ThinQuorum | BelowThreshold

  /** The quorum check of an attested deposit. */
  function CheckQuorum(verify: Verify, keys: Keys, threshold: nat, quorum: nat, message: seq<u8>, context: seq<u8>,
                       sigs: seq<SignerSig>): Result<(), QuorumError>
  {
    var required := Required(threshold, quorum, |keys|);
    if required == 0 || required > |keys| then Err(ThinQuorum)
    else if |QuorumOf(verify, keys, message, context, sigs)| < required then Err(BelowThreshold)
    else Ok(())
  }

  // ---------------------------------------------------------------- the loop

  lemma SignersStep(verify: Verify, keys: Keys, message: seq<u8>, context: seq<u8>, sigs: seq<SignerSig>, i: nat)
    requires i < |sigs|
    ensures Signers(verify, keys, message, context, sigs[..i + 1])
         == Signers(verify, keys, message, context, sigs[..i])
            + (if ValidSig(verify, keys, message, context, sigs[i]) then {sigs[i].operatorId} else {})
  {
    assert sigs[..i + 1] == sigs[..i] + [sigs[i]];
  }

  /** Accepted signatures: valid ones from the list, one for each id of `distinct`. */
  predicate Accepted(verify: Verify, keys: Keys, message: seq<u8>, context: seq<u8>, sigs: seq<SignerSig>,
                     accepted: seq<SignerSig>, distinct: set<u32>)
  {
    && (forall i :: 0 <= i < |accepted| ==>
          accepted[i] in sigs && accepted[i].operatorId in distinct
          && ValidSig(verify, keys, message, context, accepted[i]))
    && Ids(accepted) == distinct && Distinct(accepted)
  }

  lemma AcceptOne(verify: Verify, keys: Keys, message: seq<u8>, context: seq<u8>, sigs: seq<SignerSig>, s: SignerSig,
                  accepted: seq<SignerSig>, distinct: set<u32>)
    requires Accepted(verify, keys, message, context, sigs, accepted, distinct)
    requires s in sigs && s.operatorId !in distinct && ValidSig(verify, keys, message, context, s)
    ensures Accepted(verify, keys, message, context, sigs, accepted + [s], distinct + {s.operatorId})
  {
    assert Ids(accepted + [s]) == Ids(accepted) + {s.operatorId};
  }

  /** `verified_quorum`: duplicates, repeats, strangers and bad signatures are skipped; what is left is one valid
      signature for each operator that has one. */
  method VerifiedQuorum(verify: Verify, keys: Keys, message: seq<u8>, context: seq<u8>, sigs: seq<SignerSig>)
    returns (accepted: seq<SignerSig>)
    ensures Accepted(verify, keys, message, context, sigs, accepted, QuorumOf(verify, keys, message, context, sigs))
  {
    if |sigs| > |keys| {
      return [];
    }
    accepted := [];
    var distinct: set<u32> := {};
    var attempted: set<(u32, seq<u8>)> := {};
    for i := 0 to |sigs|
      invariant distinct == Signers(verify, keys, message, context, sigs[..i])
      invariant Accepted(verify, keys, message, context, sigs, accepted, distinct)
      invariant forall s: SignerSig :: (s.operatorId, s.signature) in attempted && s.operatorId !in distinct ==>
        !ValidSig(verify, keys, message, context, s)
    {
      var s := sigs[i];
      SignersStep(verify, keys, message, context, sigs, i);
      if s.operatorId !in distinct && (s.operatorId, s.signature) !in attempted {
        attempted := attempted + {(s.operatorId, s.signature)};
        if ValidSig(verify, keys, message, context, s) {
          AcceptOne(verify, keys, message, context, sigs, s, accepted, distinct);
          distinct := distinct + {s.operatorId};
          accepted := accepted + [s];
        }
      }
    }
    assert sigs[..|sigs|] == sigs;
  }

  // ---------------------------------------------------------------- the set of operators

  class OperatorSet {
    var pubkeys: Keys
    var threshold: nat

    ghost predicate Valid()
      reads this
    {
      DistinctKeys(pubkeys)
    }

    constructor (threshold: nat)
      ensures Valid() && pubkeys == map[] && this.threshold == threshold
    {
      pubkeys := map[];
      this.threshold := threshold;
    }

    /** A key held under another id is refused; an operator may change its own. */
    method Register(id: u32, key: PublicKey) returns (ok: bool)
      requires Valid()
      modifies this`pubkeys
      ensures Valid()
      ensures ok <==> forall other :: other in old(pubkeys) && other != id ==> old(pubkeys)[other] != key
      ensures pubkeys == if ok then old(pubkeys)[id := key] else old(pubkeys)
    {
      if exists other :: other in pubkeys && other != id && pubkeys[other] == key {
        return false;
      }
      pubkeys := pubkeys[id := key];
      return true;
    }

    method SetThreshold(threshold: nat)
      modifies this`threshold
      ensures this.threshold >= SupermajorityFloor(|pubkeys|) && this.threshold >= threshold
      ensures this.threshold == threshold || this.threshold == SupermajorityFloor(|pubkeys|)
    {
      this.threshold := Max(threshold, SupermajorityFloor(|pubkeys|));
    }
  }

  // ---------------------------------------------------------------- quorum intersection

  lemma {:induction false} FewIds(ids: set<u32>, n: nat)
    requires forall id :: id in ids ==> id < n
    ensures |ids| <= n
  {
    if n == 0 {
      assert ids == {};
    } else {
      FewIds(ids - {n - 1}, n - 1);
    }
  }

  /** The floor is more than two thirds of any set of operators: ids are 32-bit, so nothing saturates. */
  lemma FloorAboveTwoThirds(keys: Keys)
    ensures 3 * SupermajorityFloor(|keys|) > 2 * |keys|
  {
    FewIds(keys.Keys, 0x1_0000_0000);
    assert |keys| == |keys.Keys|;
  }

  /** Two quorums share more than a third of the operators. */
  lemma QuorumsIntersect(ids: set<u32>, a: set<u32>, b: set<u32>)
    requires a <= ids && b <= ids && 3 * |a| > 2 * |ids| && 3 * |b| > 2 * |ids|
    ensures 3 * |a * b| > |ids|
  {
    assert a + b <= ids;
    Subset(a + b, ids);
    assert |a + b| == |a| + |b| - |a * b|;
  }

  lemma {:induction false} Subset(a: set<u32>, b: set<u32>)
    requires a <= b
    ensures |a| <= |b|
  {
    assert b == a + (b - a);
    assert |b| == |a| + |b - a|;
  }

  /** Each key stands for one id, so the ids under a set of keys are no more than the keys. */
  lemma {:induction false} IdsUnderKeys(keys: Keys, ids: set<u32>, bad: set<PublicKey>)
    requires DistinctKeys(keys) && forall id :: id in ids ==> id in keys && keys[id] in bad
    ensures |ids| <= |bad|
  {
    if ids != {} {
      var id :| id in ids;
      IdsUnderKeys(keys, ids - {id}, bad - {keys[id]});
    }
  }

  /** With at most a third of the operators under bad keys, any two quorums share an operator under a good one. */
  lemma SharedGoodSigner(keys: Keys, bad: set<PublicKey>, a: set<u32>, b: set<u32>) returns (id: u32)
    requires DistinctKeys(keys) && 3 * |bad| <= |keys| && a <= keys.Keys && b <= keys.Keys
    requires |a| >= SupermajorityFloor(|keys|) && |b| >= SupermajorityFloor(|keys|)
    ensures id in a && id in b && id in keys && keys[id] !in bad
  {
    FloorAboveTwoThirds(keys);
    assert |keys| == |keys.Keys|;
    QuorumsIntersect(keys.Keys, a, b);
    var faulty := set i | i in a * b && keys[i] in bad;
    IdsUnderKeys(keys, faulty, bad);
    if a * b <= faulty {
      Subset(a * b, faulty);
      assert false;
    }
    id :| id in a * b && id !in faulty;
  }
}
