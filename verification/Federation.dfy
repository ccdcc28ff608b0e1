/** Agreement: the operators' runs and the gateway's counting together (q-attestor: operator.rs, translator.rs;
    q-gateway: operators.rs, gateway.rs). */
module Federation {
  import opened Machine
  import opened Facts
  import opened Attestor
  import opened Operator
  import opened OperatorRuns
  import opened OperatorTheorems
  import opened Airlock
  import opened Quorum

  /** An operator that follows the protocol: its files and encodings, and everything that has happened to it. */
  datatype Follower = Follower(env: Env, run: seq<Event>)

  ghost predicate Honest(h: Hash, f: Follower) {
    && f.env.h == h && Sane(f.env) && Legal(f.env, f.run)
    && NoCollision(f.env.store, After(f.env, f.run).written)
  }

  /** The message and context a released signature was made over. */
  predicate Signed(r: Release, message: seq<u8>, context: seq<u8>) {
    && message == Preimage(Translate(r.lock, r.ctx, r.height), r.ctx.destChainId)
    && context == AttestContext(r.ctx.era)
  }

  /** A signature that verifies under a follower's key was released by that follower. */
  ghost predicate Unforgeable(verify: Verify, key: PublicKey, f: Follower)
    requires Lists(f.env.order)
  {
    forall message, sig, context :: verify(key, message, sig, context) ==>
      exists r :: r in After(f.env, f.run).released && Signed(r, message, context)
  }

  /** Registered keys, the keys that may do anything, and the followers behind all the others. */
  datatype Federated = Federated(keys: Keys, bad: set<PublicKey>, followers: map<PublicKey, Follower>)

  ghost predicate Wellformed(h: Hash, verify: Verify, fed: Federated) {
    && DistinctKeys(fed.keys) && 3 * |fed.bad| <= |fed.keys|
    && forall id :: id in fed.keys && fed.keys[id] !in fed.bad ==>
         && fed.keys[id] in fed.followers && Honest(h, fed.followers[fed.keys[id]])
         && Unforgeable(verify, fed.keys[id], fed.followers[fed.keys[id]])
  }

  /** No follower has forgotten the reference. */
  ghost predicate Remembered(h: Hash, fed: Federated, k: Key) {
    forall key :: key in fed.followers && Honest(h, fed.followers[key]) ==>
      k !in After(fed.followers[key].env, fed.followers[key].run).pruned
  }

  /** An envelope and the gateway settings it was checked under. */
  datatype Submission = Submission(
    fact: BridgeFact, sigs: seq<SignerSig>, threshold: nat, quorum: nat, destChainId: u64, era: Bytes32)

  predicate Clears(verify: Verify, keys: Keys, s: Submission) {
    CheckQuorum(verify, keys, s.threshold, s.quorum, Preimage(s.fact, s.destChainId), AttestContext(s.era), s.sigs).Ok?
  }

  function SignersOf(verify: Verify, keys: Keys, s: Submission): set<u32> {
    Signers(verify, keys, Preimage(s.fact, s.destChainId), AttestContext(s.era), s.sigs)
  }

  /** Clearing takes a supermajority of registered operators, each with a valid signature. */
  lemma ClearsBySupermajority(verify: Verify, keys: Keys, s: Submission)
    requires Clears(verify, keys, s)
    ensures SignersOf(verify, keys, s) <= keys.Keys && |SignersOf(verify, keys, s)| >= SupermajorityFloor(|keys|)
  {}

  /** Behind a good signer of a cleared submission is a release of exactly the submitted fact. */
  lemma SignerReleased(h: Hash, verify: Verify, fed: Federated, s: Submission, id: u32) returns (r: Release)
    requires Wellformed(h, verify, fed) && id in SignersOf(verify, fed.keys, s) && id in fed.keys
    requires fed.keys[id] !in fed.bad
    ensures var f := fed.followers[fed.keys[id]];
      r in After(f.env, f.run).released && s.fact == Translate(r.lock, r.ctx, r.height)
  {
    var f := fed.followers[fed.keys[id]];
    var message, context := Preimage(s.fact, s.destChainId), AttestContext(s.era);
    var g :| g in s.sigs && ValidSig(verify, fed.keys, message, context, g) && g.operatorId == id;
    r :| r in After(f.env, f.run).released && Signed(r, message, context);
    PreimageInjective(s.fact, s.destChainId, Translate(r.lock, r.ctx, r.height), r.ctx.destChainId);
  }

  /** One follower's two releases about one reference carry one substance. */
  lemma FollowerAgrees(h: Hash, f: Follower, q: Release, r: Release, x: BridgeFact, y: BridgeFact)
    requires Honest(h, f) && q in After(f.env, f.run).released && r in After(f.env, f.run).released
    requires x == Translate(q.lock, q.ctx, q.height) && y == Translate(r.lock, r.ctx, r.height)
    requires FactSubstance(x).key == FactSubstance(y).key && FactSubstance(x).key !in After(f.env, f.run).pruned
    requires var a, b := DigestPreimage(FactSubstance(x)), DigestPreimage(FactSubstance(y)); h(a) == h(b) ==> a == b
    ensures FactSubstance(x) == FactSubstance(y)
  {
    TranslateFaithful(q.lock, q.ctx, q.height);
    TranslateFaithful(r.lock, r.ctx, r.height);
    OneStoryPerReference(f.env, f.run, q, r);
    StorySubstance(h, q, r);
  }

  /** Federation agreement. With at most a third of the registered operators under keys that may do anything, two
      envelopes about one (chain, reference) that both clear the quorum check, whenever and under whatever gateway
      settings, carry the same asset, amount, recipient, observed height, destination and route, while the
      followers have not forgotten the reference and the two digests do not collide. */
  lemma Agreement(h: Hash, verify: Verify, fed: Federated, s: Submission, t: Submission)
    requires Wellformed(h, verify, fed) && Clears(verify, fed.keys, s) && Clears(verify, fed.keys, t)
    requires FactSubstance(s.fact).key == FactSubstance(t.fact).key
    requires Remembered(h, fed, FactSubstance(s.fact).key)
    requires var a, b := DigestPreimage(FactSubstance(s.fact)), DigestPreimage(FactSubstance(t.fact));
      h(a) == h(b) ==> a == b
    ensures FactSubstance(s.fact) == FactSubstance(t.fact)
  {
    ClearsBySupermajority(verify, fed.keys, s);
    ClearsBySupermajority(verify, fed.keys, t);
    var id := SharedGoodSigner(fed.keys, fed.bad, SignersOf(verify, fed.keys, s), SignersOf(verify, fed.keys, t));
    var q := SignerReleased(h, verify, fed, s, id);
    var r := SignerReleased(h, verify, fed, t, id);
    FollowerAgrees(h, fed.followers[fed.keys[id]], q, r, s.fact, t.fact);
  }
}
