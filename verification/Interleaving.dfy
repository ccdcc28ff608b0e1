/** Concurrent deposits, rotations and administration as interleaved lock sections
    (q-qbridge: endpoints.rs; q-runtime: http.rs; q-federated: admission.rs, trustless.rs). */
module Interleaving {
  import opened Machine
  import opened Facts
  import opened Attestor
  import opened Airlock
  import opened Quorum
  import opened GatewayState
  import opened GatewayBooks
  import opened GatewayRuns
  import opened Snapshot
  import opened Restart
  import opened Resuming

  /** A light client's trusted state, an update to it, and the material of a deposit proof. */
  type Trust = seq<u8>
  type Update = seq<u8>
  type Material = seq<u8>

  const ETHEREUM: u32 := 2

  datatype Corridor = Corridor(chain: u32, proofBacked: bool, depth: u32)

  /** What a proof verifier says a deposit was. */
  datatype Proven = Proven(ref: Bytes32, asset: Asset, amount: u128, recipient: Bytes32, depth: u32)

  /** The verifiers and tables outside this model, and the anchors that never change. Nothing is assumed of them. */
  datatype Outside = Outside(
    verify: Verify, prove: (u32, Trust, Material) -> Option<Proven>, rotate: (Trust, Update) -> Option<Trust>,
    admissible: (BridgeFact, seq<SignerSig>) -> bool, independent: (u32, set<u32>) -> bool, fixed: map<u32, Trust>)

  datatype Deposit =
    | Federated(corridor: Corridor, fact: BridgeFact, sigs: seq<SignerSig>)
    | ProofBacked(corridor: Corridor, fact: BridgeFact, material: Material)

  /** A request between two of its lock sections. */
  datatype Thread =
    | Prepared(deposit: Deposit, trust: Trust)
    | Verified(deposit: Deposit, trust: Trust, proven: Option<Proven>)
    | Reading(before: Trust, update: Update)
    | Rotated(before: Trust, update: Update, after: Trust)

  /** A commit and the gateway it was checked against; an installed store and what it replaced. */
  datatype Commit = Commit(pre: Gate, key: Key, asset: Asset, amount: u128, deposit: Deposit, trust: Trust, proven: Option<Proven>)

  datatype Install = Install(before: Trust, update: Update, after: Trust)

  datatype System = System(
    world: World, store: Option<Trust>, threads: map<nat, Thread>, commits: seq<Commit>, installs: seq<Install>,
    held: set<Trust>)

  datatype Event =
    | Prepare(id: nat, deposit: Deposit)
    | VerifyProof(id: nat)
    | CommitDeposit(id: nat, saved: Saved, durable: bool)
    | ReadStore(id: nat, update: Update)
    | RotateStore(id: nat)
    | InstallStore(id: nat)
    | Operate(op: Op, saved: Saved, durable: bool)

  // ---------------------------------------------------------------- prepare and verify

  function TrustFor(out: Outside, s: System, chain: u32): Option<Trust> {
    if chain == ETHEREUM then s.store else if chain in out.fixed then Some(out.fixed[chain]) else None
  }

  predicate RightDestination(g: Gate, f: BridgeFact) {
    g.config.destChainId != 0 && f.destChain == g.config.chainId
  }

  /** `prepare_deposit`, under the read lock: the trusted state is copied out. None is a refusal. */
  ghost function PrepareDeposit(out: Outside, s: System, d: Deposit): Option<Thread> {
    var g := s.world.gate;
    match d
    case Federated(corridor, fact, sigs) =>
      if CheckDeposit(out.verify, g.config, g.guard, fact, sigs).Some? then None else Some(Prepared(d, []))
    case ProofBacked(corridor, fact, _) =>
      var trust := TrustFor(out, s, corridor.chain);
      if trust.None? || !RightDestination(g, fact)
         || CheckTrustless(g, fact.asset, FactKey(fact), fact.amount).Some? then None
      else Some(Prepared(d, trust.value))
  }

  /** `verify_prepared`, under no lock. */
  function VerifyPrepared(out: Outside, t: Thread): Option<Thread>
    requires t.Prepared?
  {
    match t.deposit
    case Federated(_, _, _) => Some(Verified(t.deposit, t.trust, None))
    case ProofBacked(corridor, _, material) =>
      var proven := out.prove(corridor.chain, t.trust, material);
      if proven.None? then None else Some(Verified(t.deposit, t.trust, proven))
  }

  // ---------------------------------------------------------------- commit

  /** The match of a proven deposit against the fact submitted with it. */
  predicate Matches(corridor: Corridor, p: Proven, f: BridgeFact) {
    && corridor.proofBacked && f.sourceChain == corridor.chain && f.version == FACT_VERSION && f.direction == Deposit
    && f.sourceRef == p.ref && f.amount == p.amount && f.recipient == p.recipient && f.asset == p.asset
    && p.depth >= corridor.depth
  }

  /** The signers `admit` asks the source registry about: one signature at a time. */
  function Attesting(verify: Verify, c: Config, f: BridgeFact, sigs: seq<SignerSig>): set<u32> {
    set s | s in sigs
            && QuorumOf(verify, c.keys, Preimage(f, c.destChainId), AttestContext(c.era), [s]) != {} :: s.operatorId
  }

  /** They are the signers the quorum counts. */
  lemma AttestingIsSigners(verify: Verify, c: Config, f: BridgeFact, sigs: seq<SignerSig>)
    ensures Attesting(verify, c, f, sigs) == Signers(verify, c.keys, Preimage(f, c.destChainId), AttestContext(c.era), sigs)
  {
    var m, x := Preimage(f, c.destChainId), AttestContext(c.era);
    forall s | s in sigs ensures QuorumOf(verify, c.keys, m, x, [s]) != {} <==> ValidSig(verify, c.keys, m, x, s) {
      OneSigner(verify, c.keys, m, x, s);
    }
  }

  lemma OneSigner(verify: Verify, keys: Keys, m: seq<u8>, x: seq<u8>, s: SignerSig)
    ensures QuorumOf(verify, keys, m, x, [s]) != {} <==> ValidSig(verify, keys, m, x, s)
  {
    if ValidSig(verify, keys, m, x, s) {
      assert s.operatorId in keys.Keys && |keys| == |keys.Keys| > 0;
      assert s in [s] && s.operatorId in Signers(verify, keys, m, x, [s]);
    }
  }

  /** The gateway call a verified deposit comes down to; None when it is refused before the gateway. */
  function CallOf(out: Outside, g: Gate, t: Thread): Option<Op>
    requires t.Verified?
  {
    match t.deposit
    case Federated(corridor, fact, sigs) =>
      if out.admissible(fact, sigs) && !corridor.proofBacked && corridor.chain == fact.sourceChain
         && out.independent(corridor.chain, Attesting(out.verify, g.config, fact, sigs))
      then Some(ProcessDeposit(fact, sigs)) else None
    case ProofBacked(corridor, fact, _) =>
      if t.proven.Some? && Matches(corridor, t.proven.value, fact) && RightDestination(g, fact)
      then Some(AdmitTrustless(t.proven.value.asset, Key(corridor.chain, t.proven.value.ref), t.proven.value.amount))
      else None
  }

  function KeyOfOp(op: Op): Key
    requires op.AdmitTrustless? || op.ProcessDeposit?
  {
    if op.AdmitTrustless? then op.key else FactKey(op.fact)
  }

  function CommitOf(g: Gate, t: Thread, op: Op): Commit
    requires t.Verified? && (op.AdmitTrustless? || op.ProcessDeposit?)
  {
    var (asset, amount) := if op.AdmitTrustless? then (op.asset, op.amount) else (op.fact.asset, op.fact.amount);
    Commit(g, KeyOfOp(op), asset, amount, t.deposit, t.trust, t.proven)
  }

  /** A change to the gateway under the write lock: kept when it was saved, rolled back from the snapshot when not. */
  ghost function UnderLock(out: Outside, w: World, op: Op, saved: Saved, durable: bool): World {
    var next := Step(out.verify, w, op);
    if durable then next else Reverted(out.verify, w, op, saved)
  }

  /** `commit_deposit` and the saving after it. */
  ghost function CommitStep(out: Outside, s: System, id: nat, saved: Saved, durable: bool): System
    requires id in s.threads && s.threads[id].Verified?
  {
    var t, g := s.threads[id], s.world.gate;
    var rest := s.(threads := s.threads - {id});
    var call := CallOf(out, g, t);
    if call.None? || !Admits(out.verify, g, call.value) then rest
    else
      rest.(world := UnderLock(out, s.world, call.value, saved, durable),
            commits := if durable then s.commits + [CommitOf(g, t, call.value)] else s.commits)
  }

  // ---------------------------------------------------------------- rotation

  /** `install_ethereum_rotation`: only over the store that was rotated. */
  function InstallStep(s: System, id: nat): System
    requires id in s.threads && s.threads[id].Rotated?
  {
    var t := s.threads[id];
    var rest := s.(threads := s.threads - {id});
    if s.store != Some(t.before) then rest
    else
      rest.(store := Some(t.after), held := s.held + {t.after},
            installs := s.installs + [Install(t.before, t.update, t.after)])
  }

  // ---------------------------------------------------------------- steps

  ghost function Next(out: Outside, s: System, e: Event): System {
    match e
    case Prepare(id, d) =>
      var t := PrepareDeposit(out, s, d);
      if id in s.threads || t.None? then s else s.(threads := s.threads[id := t.value])
    case VerifyProof(id) =>
      if id !in s.threads || !s.threads[id].Prepared? then s
      else
        var t := VerifyPrepared(out, s.threads[id]);
        s.(threads := if t.None? then s.threads - {id} else s.threads[id := t.value])
    case CommitDeposit(id, saved, durable) =>
      if id !in s.threads || !s.threads[id].Verified? then s else CommitStep(out, s, id, saved, durable)
    case ReadStore(id, update) =>
      if id in s.threads || s.store.None? then s else s.(threads := s.threads[id := Reading(s.store.value, update)])
    case RotateStore(id) =>
      if id !in s.threads || !s.threads[id].Reading? then s
      else
        var t := s.threads[id];
        var after := out.rotate(t.before, t.update);
        s.(threads := if after.None? then s.threads - {id} else s.threads[id := Rotated(t.before, t.update, after.value)])
    case InstallStore(id) => if id !in s.threads || !s.threads[id].Rotated? then s else InstallStep(s, id)
    case Operate(op, saved, durable) => s.(world := UnderLock(out, s.world, op, saved, durable))
  }

  /** A snapshot is taken of the gateway as it is, and only commits admit deposits. Anything else may be called: pauses,
      freezes, exits, epochs, reports, pools installed by request, caps, figures. */
  predicate Allowed(s: System, e: Event) {
    match e
    case CommitDeposit(_, saved, _) => Snaps(saved, s.world.gate)
    case Operate(op, saved, _) => Snaps(saved, s.world.gate) && !op.AdmitTrustless? && !op.ProcessDeposit?
    case _ => true
  }

  ghost function Run(out: Outside, start: System, run: seq<Event>): System {
    if run == [] then start else Next(out, Run(out, start, run[..|run| - 1]), run[|run| - 1])
  }

  ghost predicate Legal(out: Outside, start: System, run: seq<Event>) {
    forall i :: 0 <= i < |run| ==> Allowed(Run(out, start, run[..i]), run[i])
  }

  predicate Initial(s: System) {
    && s.threads == map[] && s.commits == [] && s.installs == []
    && s.held == if s.store.Some? then {s.store.value} else {}
  }

  // ---------------------------------------------------------------- the invariant

  /** A trusted state that was in place. */
  predicate WasTrusted(out: Outside, held: set<Trust>, chain: u32, trust: Trust) {
    if chain == ETHEREUM then trust in held else chain in out.fixed && out.fixed[chain] == trust
  }

  predicate GoodThread(out: Outside, held: set<Trust>, t: Thread) {
    match t
    case Prepared(d, trust) => d.ProofBacked? ==> WasTrusted(out, held, d.corridor.chain, trust)
    case Verified(d, trust, proven) =>
      d.ProofBacked? ==> WasTrusted(out, held, d.corridor.chain, trust)
                         && proven == out.prove(d.corridor.chain, trust, d.material)
    case Reading(before, _) => before in held
    case Rotated(before, update, after) => out.rotate(before, update) == Some(after)
  }

  /** What every commit rests on: all gateway guards at that moment, and a quorum or a proof under a trusted state. */
  ghost predicate GoodCommit(out: Outside, held: set<Trust>, c: Commit) {
    match c.deposit
    case Federated(_, fact, sigs) =>
      && CheckMint(out.verify, c.pre, fact, sigs).None?
      && c.key == FactKey(fact) && c.asset == fact.asset && c.amount == fact.amount
    case ProofBacked(corridor, fact, material) =>
      && CheckTrustless(c.pre, c.asset, c.key, c.amount).None? && WasTrusted(out, held, corridor.chain, c.trust)
      && c.proven.Some? && out.prove(corridor.chain, c.trust, material) == c.proven
      && Matches(corridor, c.proven.value, fact)
      && c.key == FactKey(fact) && c.asset == fact.asset && c.amount == fact.amount
  }

  predicate OncePerKey(commits: seq<Commit>, used: set<Key>) {
    && (forall i :: 0 <= i < |commits| ==> commits[i].key in used)
    && (forall i, j :: 0 <= i < j < |commits| ==> commits[i].key != commits[j].key)
  }

  /** Each install rotates what the one before it left. */
  predicate Chain(out: Outside, installs: seq<Install>, store: Option<Trust>) {
    && (forall i :: 0 <= i < |installs| ==> out.rotate(installs[i].before, installs[i].update) == Some(installs[i].after))
    && (forall i :: 0 < i < |installs| ==> installs[i].before == installs[i - 1].after)
    && (installs != [] ==> store == Some(installs[|installs| - 1].after))
  }

  ghost predicate Safe(out: Outside, s: System) {
    && Sound(s.world) && OncePerKey(s.commits, s.world.gate.books.usedRefs)
    && (forall i :: 0 <= i < |s.commits| ==> GoodCommit(out, s.held, s.commits[i]))
    && (forall id :: id in s.threads ==> GoodThread(out, s.held, s.threads[id]))
    && Chain(out, s.installs, s.store) && (s.store.Some? ==> s.store.value in s.held)
  }

  // ---------------------------------------------------------------- every step is safe

  lemma LockKeeps(out: Outside, w: World, op: Op, saved: Saved, durable: bool)
    requires Sound(w) && Snaps(saved, w.gate)
    ensures var x := UnderLock(out, w, op, saved, durable);
      Sound(x) && w.gate.books.usedRefs <= x.gate.books.usedRefs
  {
    if durable {
      StepSound(out.verify, w, op);
      RefsGrow(out.verify, w, op);
    } else {
      RolledBack(out.verify, w, op, saved);
    }
  }

  lemma OnceMore(commits: seq<Commit>, c: Commit, used: set<Key>, more: set<Key>)
    requires OncePerKey(commits, used) && used <= more && c.key !in used && c.key in more
    ensures OncePerKey(commits + [c], more)
  {}

  lemma OnceStill(commits: seq<Commit>, used: set<Key>, more: set<Key>)
    requires OncePerKey(commits, used) && used <= more
    ensures OncePerKey(commits, more)
  {}

  /** A call the gateway admits marks a fresh key. */
  lemma AdmitsFresh(verify: Verify, w: World, op: Op)
    requires (op.AdmitTrustless? || op.ProcessDeposit?) && Admits(verify, w.gate, op)
    ensures KeyOfOp(op) !in w.gate.books.usedRefs && KeyOfOp(op) in Step(verify, w, op).gate.books.usedRefs
  {}

  /** What a verified thread commits is good. */
  lemma CommitGood(out: Outside, g: Gate, t: Thread, held: set<Trust>)
    requires t.Verified? && GoodThread(out, held, t) && CallOf(out, g, t).Some? && Admits(out.verify, g, CallOf(out, g, t).value)
    ensures var op := CallOf(out, g, t).value;
      && (op.AdmitTrustless? || op.ProcessDeposit?)
      && GoodCommit(out, held, CommitOf(g, t, op))
  {}

  /** The commits after an admitted call: one more when it was saved, the same when it was rolled back. */
  lemma CommitsOnce(out: Outside, w: World, commits: seq<Commit>, c: Commit, op: Op, saved: Saved, durable: bool)
    requires Sound(w) && Snaps(saved, w.gate) && OncePerKey(commits, w.gate.books.usedRefs)
    requires (op.AdmitTrustless? || op.ProcessDeposit?) && Admits(out.verify, w.gate, op) && c.key == KeyOfOp(op)
    ensures OncePerKey(if durable then commits + [c] else commits,
                       UnderLock(out, w, op, saved, durable).gate.books.usedRefs)
  {
    LockKeeps(out, w, op, saved, durable);
    var used, more := w.gate.books.usedRefs, UnderLock(out, w, op, saved, durable).gate.books.usedRefs;
    if durable {
      AdmitsFresh(out.verify, w, op);
      OnceMore(commits, c, used, more);
    } else {
      OnceStill(commits, used, more);
    }
  }

  lemma SafeWith(out: Outside, s: System, w: World, id: nat, commits: seq<Commit>)
    requires Safe(out, s) && Sound(w) && OncePerKey(commits, w.gate.books.usedRefs)
    requires forall i :: 0 <= i < |commits| ==> GoodCommit(out, s.held, commits[i])
    ensures Safe(out, s.(threads := s.threads - {id}).(world := w, commits := commits))
  {}

  lemma AfterCommit(out: Outside, s: System, id: nat, c: Commit, op: Op, saved: Saved, durable: bool)
    requires Safe(out, s) && Snaps(saved, s.world.gate) && (op.AdmitTrustless? || op.ProcessDeposit?)
    requires Admits(out.verify, s.world.gate, op) && c.key == KeyOfOp(op) && GoodCommit(out, s.held, c)
    ensures Safe(out, Committed(out, s, id, c, op, saved, durable))
  {
    CommitsOnce(out, s.world, s.commits, c, op, saved, durable);
    LockKeeps(out, s.world, op, saved, durable);
    SafeWith(out, s, UnderLock(out, s.world, op, saved, durable), id, if durable then s.commits + [c] else s.commits);
  }

  lemma Refused(out: Outside, s: System, id: nat)
    requires Safe(out, s)
    ensures Safe(out, s.(threads := s.threads - {id}))
  {}

  /** What a commit section does, its call spelled out. */
  lemma CommitShape(out: Outside, s: System, id: nat, saved: Saved, durable: bool)
    requires id in s.threads && s.threads[id].Verified?
    ensures var call, rest := CallOf(out, s.world.gate, s.threads[id]), s.(threads := s.threads - {id});
      CommitStep(out, s, id, saved, durable)
      == if call.None? || !Admits(out.verify, s.world.gate, call.value) then rest
         else Committed(out, s, id, CommitOf(s.world.gate, s.threads[id], call.value), call.value, saved, durable)
  {}

  ghost function Committed(out: Outside, s: System, id: nat, c: Commit, op: Op, saved: Saved, durable: bool): System {
    s.(threads := s.threads - {id}).(world := UnderLock(out, s.world, op, saved, durable),
                                     commits := if durable then s.commits + [c] else s.commits)
  }

  lemma CommitSafe(out: Outside, s: System, id: nat, saved: Saved, durable: bool)
    requires Safe(out, s) && Snaps(saved, s.world.gate) && id in s.threads && s.threads[id].Verified?
    ensures Safe(out, CommitStep(out, s, id, saved, durable))
  {
    var t, g := s.threads[id], s.world.gate;
    var call := CallOf(out, g, t);
    CommitShape(out, s, id, saved, durable);
    if call.Some? && Admits(out.verify, g, call.value) {
      CommitGood(out, g, t, s.held);
      AfterCommit(out, s, id, CommitOf(g, t, call.value), call.value, saved, durable);
    } else {
      Refused(out, s, id);
    }
  }

  lemma HeldThread(out: Outside, small: set<Trust>, big: set<Trust>, t: Thread)
    requires GoodThread(out, small, t) && small <= big
    ensures GoodThread(out, big, t)
  {}

  lemma HeldCommit(out: Outside, small: set<Trust>, big: set<Trust>, c: Commit)
    requires GoodCommit(out, small, c) && small <= big
    ensures GoodCommit(out, big, c)
  {}

  lemma LongerChain(out: Outside, installs: seq<Install>, store: Option<Trust>, i: Install)
    requires Chain(out, installs, store) && store == Some(i.before) && out.rotate(i.before, i.update) == Some(i.after)
    ensures Chain(out, installs + [i], Some(i.after))
  {}

  lemma InstallSafe(out: Outside, s: System, id: nat)
    requires Safe(out, s) && id in s.threads && s.threads[id].Rotated?
    ensures Safe(out, InstallStep(s, id))
  {
    var t := s.threads[id];
    if s.store == Some(t.before) {
      LongerChain(out, s.installs, s.store, Install(t.before, t.update, t.after));
      var held := s.held + {t.after};
      forall i | 0 <= i < |s.commits| ensures GoodCommit(out, held, s.commits[i]) {
        HeldCommit(out, s.held, held, s.commits[i]);
      }
      forall x | x in s.threads - {id} ensures GoodThread(out, held, s.threads[x]) {
        HeldThread(out, s.held, held, s.threads[x]);
      }
    }
  }

  lemma PreparedGood(out: Outside, s: System, d: Deposit)
    requires (s.store.Some? ==> s.store.value in s.held) && PrepareDeposit(out, s, d).Some?
    ensures GoodThread(out, s.held, PrepareDeposit(out, s, d).value)
  {}

  lemma PrepareSafe(out: Outside, s: System, id: nat, d: Deposit)
    requires Safe(out, s)
    ensures Safe(out, Next(out, s, Prepare(id, d)))
  {
    if id !in s.threads && PrepareDeposit(out, s, d).Some? {
      PreparedGood(out, s, d);
    }
  }

  lemma OperateSafe(out: Outside, s: System, op: Op, saved: Saved, durable: bool)
    requires Safe(out, s) && Snaps(saved, s.world.gate)
    ensures Safe(out, s.(world := UnderLock(out, s.world, op, saved, durable)))
  {
    LockKeeps(out, s.world, op, saved, durable);
    OnceStill(s.commits, s.world.gate.books.usedRefs, UnderLock(out, s.world, op, saved, durable).gate.books.usedRefs);
  }

  lemma ThreadSafe(out: Outside, s: System, e: Event)
    requires Safe(out, s) && (e.VerifyProof? || e.ReadStore? || e.RotateStore?)
    ensures Safe(out, Next(out, s, e))
  {}

  lemma NextSafe(out: Outside, s: System, e: Event)
    requires Safe(out, s) && Allowed(s, e)
    ensures Safe(out, Next(out, s, e))
  {
    match e
    case Prepare(id, d) =>
      PrepareSafe(out, s, id, d);
    case CommitDeposit(id, saved, durable) =>
      if id in s.threads && s.threads[id].Verified? {
        CommitSafe(out, s, id, saved, durable);
      }
    case InstallStore(id) =>
      if id in s.threads && s.threads[id].Rotated? {
        InstallSafe(out, s, id);
      }
    case Operate(op, saved, durable) =>
      OperateSafe(out, s, op, saved, durable);
    case _ => ThreadSafe(out, s, e);
  }

  lemma LegalBefore(out: Outside, start: System, run: seq<Event>)
    requires Legal(out, start, run) && run != []
    ensures Legal(out, start, run[..|run| - 1])
  {
    var n := |run| - 1;
    forall i | 0 <= i < n ensures Allowed(Run(out, start, run[..n][..i]), run[..n][i]) {
      assert run[..n][..i] == run[..i];
    }
  }

  /** Any interleaving of prepare, verify and commit sections with rotations, pauses, freezes, epochs and failed saves is
      safe: each (chain, reference) commits at most once; every commit passed every gateway guard at the moment it was
      committed and rests on a quorum or on a proof under a state that was trusted; and every installed light client
      store is the rotation of exactly the store it replaced. */
  lemma {:induction false} InterleavingSafe(out: Outside, start: System, run: seq<Event>)
    requires Initial(start) && Sound(start.world) && Legal(out, start, run)
    ensures Safe(out, Run(out, start, run))
  {
    if run != [] {
      var n := |run| - 1;
      LegalBefore(out, start, run);
      InterleavingSafe(out, start, run[..n]);
      NextSafe(out, Run(out, start, run[..n]), run[n]);
    }
  }

  // ---------------------------------------------------------------- the breaker under interleaving

  /** What the caller of a kept operation must see, at that moment, for the reserve breaker. */
  ghost predicate Cautious(s: System, e: Event) {
    e.Operate? && e.durable ==> KeepsBreaker(s.world.gate, e.op)
  }

  lemma LockBreaker(out: Outside, w: World, op: Op, saved: Saved, durable: bool)
    requires Sound(w) && BreakerOk(w.gate) && Snaps(saved, w.gate)
    ensures BreakerOk(UnderLock(out, w, op, saved, durable).gate) <==> (durable ==> KeepsBreaker(w.gate, op))
  {
    if durable {
      StepBreaker(out.verify, w, op);
    } else {
      RolledBack(out.verify, w, op, saved);
    }
  }

  lemma NextBreaker(out: Outside, s: System, e: Event)
    requires Safe(out, s) && Allowed(s, e) && BreakerOk(s.world.gate)
    ensures BreakerOk(Next(out, s, e).world.gate) <==> Cautious(s, e)
  {
    if e.Operate? {
      LockBreaker(out, s.world, e.op, e.saved, e.durable);
    } else if e.CommitDeposit? && e.id in s.threads && s.threads[e.id].Verified? {
      CommitBreaker(out, s, e.id, e.saved, e.durable);
    }
  }

  lemma CommitBreaker(out: Outside, s: System, id: nat, saved: Saved, durable: bool)
    requires Sound(s.world) && BreakerOk(s.world.gate) && Snaps(saved, s.world.gate)
    requires id in s.threads && s.threads[id].Verified?
    ensures BreakerOk(CommitStep(out, s, id, saved, durable).world.gate)
  {
    var call := CallOf(out, s.world.gate, s.threads[id]);
    if call.Some? && Admits(out.verify, s.world.gate, call.value) {
      LockBreaker(out, s.world, call.value, saved, durable);
    }
  }

  /** Over any interleaving the reserve breaker holds at every moment exactly when, at every operation kept, the caller saw
      what it must: for a pool installed by request, that the gateway is paused, or the asset has a figure, or no supply. */
  lemma BreakerInterleaved(out: Outside, start: System, run: seq<Event>)
    requires Initial(start) && Sound(start.world) && BreakerOk(start.world.gate) && Legal(out, start, run)
    ensures (forall i :: 0 <= i <= |run| ==> BreakerOk(Run(out, start, run[..i]).world.gate))
       <==> forall i :: 0 <= i < |run| ==> Cautious(Run(out, start, run[..i]), run[i])
  {
    forall i | 0 <= i < |run|
      ensures Run(out, start, run[..i + 1]) == Next(out, Run(out, start, run[..i]), run[i])
      ensures Safe(out, Run(out, start, run[..i]))
    {
      assert run[..i + 1][..i] == run[..i];
      LegalUpTo(out, start, run, i);
      InterleavingSafe(out, start, run[..i]);
    }
    if forall i :: 0 <= i < |run| ==> Cautious(Run(out, start, run[..i]), run[i]) {
      BreakerUpTo(out, start, run, |run|);
    } else {
      var i :| 0 <= i < |run| && !Cautious(Run(out, start, run[..i]), run[i]);
      if BreakerOk(Run(out, start, run[..i]).world.gate) {
        NextBreaker(out, Run(out, start, run[..i]), run[i]);
        assert !BreakerOk(Run(out, start, run[..i + 1]).world.gate);
      }
    }
  }

  lemma LegalUpTo(out: Outside, start: System, run: seq<Event>, k: nat)
    requires Legal(out, start, run) && k <= |run|
    ensures Legal(out, start, run[..k])
  {
    forall i | 0 <= i < k ensures Allowed(Run(out, start, run[..k][..i]), run[..k][i]) {
      assert run[..k][..i] == run[..i];
    }
  }

  lemma {:induction false} BreakerUpTo(out: Outside, start: System, run: seq<Event>, k: nat)
    requires k <= |run| && BreakerOk(start.world.gate) && Legal(out, start, run)
    requires forall i :: 0 <= i < |run| ==> Cautious(Run(out, start, run[..i]), run[i])
    requires forall i :: 0 <= i < |run| ==> Safe(out, Run(out, start, run[..i]))
    requires forall i :: 0 <= i < |run| ==> Run(out, start, run[..i + 1]) == Next(out, Run(out, start, run[..i]), run[i])
    ensures forall i :: 0 <= i <= k ==> BreakerOk(Run(out, start, run[..i]).world.gate)
  {
    if k == 0 {
      assert run[..0] == [];
    } else {
      BreakerUpTo(out, start, run, k - 1);
      NextBreaker(out, Run(out, start, run[..k - 1]), run[k - 1]);
    }
  }
}
