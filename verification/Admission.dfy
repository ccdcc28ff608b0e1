/** What the gateway's calls require, said without the order of their checks, and what signed calls cannot do twice
    (q-gateway: gateway.rs). */
module Admission {
  import opened Machine
  import opened Facts
  import opened Attestor
  import opened Airlock
  import opened Quorum
  import opened GatewayState
  import opened GatewayBooks
  import opened GatewayGuards
  import opened GatewayRuns
  import Resuming

  // ---------------------------------------------------------------- when a mint is allowed

  /** Nothing stops deposits from a chain: no pause, no freeze of either kind, an open corridor. */
  predicate Open(g: Guard, chain: u32) {
    && !g.globalPause
    && (g.frozenUntil <= g.height || g.liftedFreeze == g.frozenUntil) && g.depositFrozenUntil <= g.height
    && chain in g.corridors && g.corridors[chain].active && chain !in g.pausedSources
  }

  /** The true supply with the amount added is within the asset's cap, and the epoch's total within its cap. */
  ghost predicate Room(l: Limits, b: Books, a: Asset, amount: u128) {
    a in l.cap && Supply(b, a) + amount <= l.cap[a] && b.epochMinted + amount <= l.epochCap
  }

  /** The reserve report is recent, its figure covers the mint, and the asset's epoch cap has room. */
  ghost predicate Covered(l: Limits, b: Books, r: Reserve, height: u64, a: Asset, amount: u128) {
    && (r.maxAge.Some? ==> a in r.reportedAt && height <= r.reportedAt[a] + r.maxAge.value)
    && (a in r.escrowed ==> Supply(b, a) + amount <= r.escrowed[a])
    && (a in l.assetEpochCap ==> Get(b.assetEpoch, a) + amount <= l.assetEpochCap[a])
  }

  /** A fact this gateway may act on. */
  predicate Actionable(c: Config, g: Guard, f: BridgeFact) {
    && f.version == FACT_VERSION && f.sourceChain != 0 && f.amount > 0 && f.asset != ZERO16 && f.recipient != ZERO32
    && f.sourceRef != ZERO32 && f.direction == Deposit && c.destChainId != 0
    && f.destChain == c.chainId && c.chainId != 0 && g.height <= f.expiryHeight
    && f.sourceChain in g.corridors && f.finalityDepth >= g.corridors[f.sourceChain].depth
  }

  /** As many operators signed as the corridor asks, and never fewer than the supermajority. */
  predicate Supported(verify: Verify, c: Config, g: Guard, f: BridgeFact, sigs: seq<SignerSig>)
    requires f.sourceChain in g.corridors
  {
    var n := Required(c.threshold, g.corridors[f.sourceChain].quorum, |c.keys|);
    |sigs| <= |c.keys| && n <= |c.keys|
    && n <= |Signers(verify, c.keys, Preimage(f, c.destChainId), AttestContext(c.era), sigs)|
  }

  lemma RoomExactly(l: Limits, b: Books, a: Asset, amount: u128)
    requires Supply(b, a) <= U128_MAX
    ensures Caps(l, b, a, amount).None? <==> Room(l, b, a, amount)
  {
    FigureExact(b, a);
  }

  lemma CoveredExactly(l: Limits, b: Books, r: Reserve, height: u64, a: Asset, amount: u128)
    requires Supply(b, a) <= U128_MAX
    ensures Charge(l, b, r, height, a, amount).None? <==> Covered(l, b, r, height, a, amount)
  {
    FigureExact(b, a);
  }

  /** Admission by proof goes ahead exactly when the chain is open, the reference unused, and there is room and cover. */
  lemma TrustlessExactly(w: World, a: Asset, key: Key, amount: u128)
    requires Sound(w)
    ensures CheckTrustless(w.gate, a, key, amount).None? <==>
      var g := w.gate;
      && Open(g.guard, key.chain) && key !in g.books.usedRefs && Room(g.limits, g.books, a, amount)
      && Covered(g.limits, g.books, g.reserve, g.guard.height, a, amount)
  {
    assert Supply(w.gate.books, a) <= U128_MAX;
    RoomExactly(w.gate.limits, w.gate.books, a, amount);
    CoveredExactly(w.gate.limits, w.gate.books, w.gate.reserve, w.gate.guard.height, a, amount);
  }

  lemma FactExactly(c: Config, g: Guard, f: BridgeFact)
    ensures c.destChainId != 0 && CheckFact(c, g, f).None? && CheckCorridor(g, f).None? <==>
      Actionable(c, g, f) && g.corridors[f.sourceChain].active && f.sourceChain !in g.pausedSources
  {}

  lemma QuorumExactly(verify: Verify, c: Config, g: Guard, f: BridgeFact, sigs: seq<SignerSig>)
    requires f.sourceChain in g.corridors
    ensures CheckQuorum(verify, c.keys, c.threshold, g.corridors[f.sourceChain].quorum,
                        Preimage(f, c.destChainId), AttestContext(c.era), sigs).Ok?
       <==> Supported(verify, c, g, f, sigs)
  {
    var n := Required(c.threshold, g.corridors[f.sourceChain].quorum, |c.keys|);
    assert n >= 2;
    if |sigs| > |c.keys| {
      assert |QuorumOf(verify, c.keys, Preimage(f, c.destChainId), AttestContext(c.era), sigs)| == 0;
    }
  }

  lemma DepositExactly(verify: Verify, c: Config, g: Guard, f: BridgeFact, sigs: seq<SignerSig>)
    ensures CheckDeposit(verify, c, g, f, sigs).None? <==>
      Open(g, f.sourceChain) && Actionable(c, g, f) && Supported(verify, c, g, f, sigs)
  {
    FactExactly(c, g, f);
    if f.sourceChain in g.corridors {
      QuorumExactly(verify, c, g, f, sigs);
    }
  }

  /** Admission by quorum goes ahead exactly when the chain is open, the fact actionable and supported, the reference
      unused, and there is room and cover. */
  lemma MintExactly(verify: Verify, w: World, f: BridgeFact, sigs: seq<SignerSig>)
    requires Sound(w)
    ensures CheckMint(verify, w.gate, f, sigs).None? <==>
      var g := w.gate;
      && Open(g.guard, f.sourceChain) && Actionable(g.config, g.guard, f) && Supported(verify, g.config, g.guard, f, sigs)
      && FactKey(f) !in g.books.usedRefs && Room(g.limits, g.books, f.asset, f.amount)
      && Covered(g.limits, g.books, g.reserve, g.guard.height, f.asset, f.amount)
  {
    assert Supply(w.gate.books, f.asset) <= U128_MAX;
    DepositExactly(verify, w.gate.config, w.gate.guard, f, sigs);
    RoomExactly(w.gate.limits, w.gate.books, f.asset, f.amount);
    CoveredExactly(w.gate.limits, w.gate.books, w.gate.reserve, w.gate.guard.height, f.asset, f.amount);
  }

  // ---------------------------------------------------------------- exits wait

  /** What a step may do to tickets: one new, locked until the delay has passed; or one fewer; the others untouched. */
  ghost predicate TicketsMove(w: World, x: World, op: Op) {
    var was, now := w.gate.books.pending, x.gate.books.pending;
    && (forall id :: id in was && id in now ==> was[id] == now[id])
    && (forall id :: id in now && id !in was ==>
          op.RequestExit? && now[id].amount == op.amount && now[id].asset == op.asset && now[id].destination == op.destination
          && now[id].unlockHeight == SatAdd64(w.gate.guard.height, w.gate.limits.exitDelay))
    && (forall id :: id in was && id !in now ==>
          || (op == CancelExit(id))
          || (op == FinalizeExit(id) && was[id].unlockHeight <= w.gate.guard.height && !w.gate.guard.globalPause
              && !IsFrozen(w.gate.guard)))
  }

  lemma ExitTickets(verify: Verify, w: World, op: Op)
    requires Sound(w) && (op.RequestExit? || op.FinalizeExit? || op.CancelExit?)
    ensures TicketsMove(w, Step(verify, w, op), op)
  {}

  lemma OthersTickets(verify: Verify, w: World, op: Op)
    requires !op.RequestExit? && !op.FinalizeExit? && !op.CancelExit?
    ensures Step(verify, w, op).gate.books.pending == w.gate.books.pending
  {}

  lemma StepTickets(verify: Verify, w: World, op: Op)
    requires Sound(w)
    ensures TicketsMove(w, Step(verify, w, op), op)
  {
    if op.RequestExit? || op.FinalizeExit? || op.CancelExit? {
      ExitTickets(verify, w, op);
    } else {
      OthersTickets(verify, w, op);
    }
  }

  /** A ticket pending across a run is the same ticket at its end. */
  lemma {:induction false} TicketsFixed(verify: Verify, start: World, run: seq<Op>, id: u64)
    requires Sound(start) && id in start.gate.books.pending
    requires forall i :: 0 <= i <= |run| ==> id in After(verify, start, run[..i]).gate.books.pending
    ensures Sound(After(verify, start, run))
    ensures id in After(verify, start, run).gate.books.pending
    ensures After(verify, start, run).gate.books.pending[id] == start.gate.books.pending[id]
  {
    assert run[..|run|] == run;
    if run != [] {
      var n := |run| - 1;
      forall i | 0 <= i <= n ensures id in After(verify, start, run[..n][..i]).gate.books.pending {
        assert run[..n][..i] == run[..i];
      }
      TicketsFixed(verify, start, run[..n], id);
      StepSound(verify, After(verify, start, run[..n]), run[n]);
      StepTickets(verify, After(verify, start, run[..n]), run[n]);
    }
  }

  // ---------------------------------------------------------------- freezes

  /** An accepted emergency freeze leaves the gateway frozen exactly when it outlasts the last one or that one has not
      been lifted: a shorter freeze after a lift changes nothing. */
  lemma FreezeTakesExactly(verify: Verify, c: Config, g: Guard, until: u64, sigs: seq<SignerSig>)
    requires CheckFreeze(verify, c, g, until, sigs).None?
    ensures IsFrozen(EmergencyFreeze(g, until)) <==> until > g.frozenUntil || g.liftedFreeze != g.frozenUntil
    ensures IsFrozen(EmergencyFreeze(g, until)) ==> FreezeHorizon(EmergencyFreeze(g, until)) >= until
  {}

  /** Frozen until 200 at height 100, lifted, then frozen until 150: every call is accepted and nothing is frozen. */
  const SHORT: seq<Op> :=
    [GuardOp(Height(100)), GuardOp(Freeze(200, Resuming.BothSign())), GuardOp(Lift(Resuming.BothSign())),
     GuardOp(Freeze(150, Resuming.BothSign()))]

  /** The guard at height 100 with a freeze until 200, lifted or not. */
  function FrozenWorld(lifted: u64): World {
    var w := Fresh(Resuming.PAIR, 1000);
    WithGuard(w, w.gate.guard.(height := 100, frozenUntil := 200, liftedFreeze := lifted))
  }

  lemma FreezeStep(w: World)
    requires w == WithGuard(FrozenWorld(0), FrozenWorld(0).gate.guard.(frozenUntil := 0))
    ensures Step(Resuming.TRUSTING, w, SHORT[1]) == FrozenWorld(0)
  {
    Resuming.BothCount(HeightMessage(Resuming.PAIR, 200), FREEZE_DOMAIN);
  }

  lemma LiftStep()
    ensures Step(Resuming.TRUSTING, FrozenWorld(0), SHORT[2]) == FrozenWorld(200)
  {
    Resuming.BothCount(HeightMessage(Resuming.PAIR, 200), LIFT_DOMAIN);
  }

  lemma HeightStep()
    ensures var start := Fresh(Resuming.PAIR, 1000);
      Step(Resuming.TRUSTING, start, SHORT[0]) == WithGuard(FrozenWorld(0), FrozenWorld(0).gate.guard.(frozenUntil := 0))
  {}

  lemma ThreeSteps(verify: Verify, start: World, a: Op, b: Op, c: Op)
    ensures After(verify, start, [a, b, c]) == Step(verify, Step(verify, Step(verify, start, a), b), c)
  {
    Stepwise(verify, start, [], a);
    Stepwise(verify, start, [a], b);
    Stepwise(verify, start, [a, b], c);
    assert [] + [a] == [a] && [a] + [b] == [a, b] && [a, b] + [c] == [a, b, c];
  }

  lemma FrozenThenLifted()
    ensures After(Resuming.TRUSTING, Fresh(Resuming.PAIR, 1000), SHORT[..3]) == FrozenWorld(200)
  {
    var start, verify := Fresh(Resuming.PAIR, 1000), Resuming.TRUSTING;
    assert SHORT[..3] == [SHORT[0], SHORT[1], SHORT[2]];
    ThreeSteps(verify, start, SHORT[0], SHORT[1], SHORT[2]);
    HeightStep();
    FreezeStep(Step(verify, start, SHORT[0]));
    LiftStep();
  }

  /** The last freeze is accepted, and the gateway is not frozen after it. */
  lemma ShortFreeze()
    ensures var w := After(Resuming.TRUSTING, Fresh(Resuming.PAIR, 1000), SHORT[..3]);
      && CheckFreeze(Resuming.TRUSTING, w.gate.config, w.gate.guard, 150, Resuming.BothSign()).None?
      && !IsFrozen(After(Resuming.TRUSTING, Fresh(Resuming.PAIR, 1000), SHORT).gate.guard)
  {
    FrozenThenLifted();
    Resuming.BothCount(HeightMessage(Resuming.PAIR, 150), FREEZE_DOMAIN);
    assert SHORT[..|SHORT| - 1] == SHORT[..3];
  }

  // ---------------------------------------------------------------- signed calls are not replayed

  /** The heights up to which signed resumes and reports are spent. */
  ghost predicate Spent(g: Gate, x: Gate) {
    && g.guard.globalResumedAt <= x.guard.globalResumedAt
    && (forall c :: c in g.guard.resumedAt ==> c in x.guard.resumedAt && g.guard.resumedAt[c] <= x.guard.resumedAt[c])
    && (forall a :: a in g.reserve.reportedAt ==>
          a in x.reserve.reportedAt && g.reserve.reportedAt[a] <= x.reserve.reportedAt[a])
  }

  lemma ChangedSpends(refused: bool, g: Guard, change: GuardChange)
    requires change.Resume? && !refused ==> AfterResume(g, change.chain, change.at)
    ensures var x := Changed(refused, g, change);
      && x.globalResumedAt == g.globalResumedAt
      && forall c :: c in g.resumedAt ==> c in x.resumedAt && g.resumedAt[c] <= x.resumedAt[c]
  {}

  lemma ResumeChecked(verify: Verify, c: Config, g: Guard, change: GuardChange)
    requires change.Resume? && CheckChange(verify, c, g, change).None?
    ensures AfterResume(g, change.chain, change.at)
  {}

  lemma StepSpends(verify: Verify, w: World, op: Op)
    ensures Spent(w.gate, Step(verify, w, op).gate)
  {
    if op.GuardOp? {
      var refused := CheckChange(verify, w.gate.config, w.gate.guard, op.change).Some?;
      if op.change.Resume? && !refused {
        ResumeChecked(verify, w.gate.config, w.gate.guard, op.change);
      }
      ChangedSpends(refused, w.gate.guard, op.change);
    } else {
      OthersSpend(verify, w, op);
    }
  }

  lemma OthersSpend(verify: Verify, w: World, op: Op)
    requires !op.GuardOp?
    ensures Spent(w.gate, Step(verify, w, op).gate)
  {}

  lemma {:induction false} RunSpends(verify: Verify, start: World, run: seq<Op>)
    ensures Spent(start.gate, After(verify, start, run).gate)
  {
    if run != [] {
      RunSpends(verify, start, run[..|run| - 1]);
      StepSpends(verify, After(verify, start, run[..|run| - 1]), run[|run| - 1]);
    }
  }

  /** Once a source was resumed by a message of some height, no reorg report or resume of that height or below is
      accepted for it again, whatever happens in between and whoever signs. */
  lemma ResumeNotReplayed(verify: Verify, w: World, chain: u32, at: u64, sigs: seq<SignerSig>, run: seq<Op>, again: u64, depth: u32, more: seq<SignerSig>)
    requires CheckResume(verify, w.gate.config, w.gate.guard, chain, at, sigs).None? && again <= at
    ensures var g := After(verify, Step(verify, w, GuardOp(Resume(chain, at, sigs))), run).gate;
      && CheckResume(verify, g.config, g.guard, chain, again, more).Some?
      && CheckReorg(verify, g.config, g.guard, chain, depth, again, more).Some?
  {
    RunSpends(verify, Step(verify, w, GuardOp(Resume(chain, at, sigs))), run);
  }

  /** The same for resuming the whole gateway. */
  lemma GlobalResumeNotReplayed(verify: Verify, w: World, at: u64, sigs: seq<SignerSig>, run: seq<Op>, again: u64, more: seq<SignerSig>)
    requires CheckResumeAll(verify, w.gate, at, sigs).None? && again <= at
    ensures CheckResumeAll(verify, After(verify, Step(verify, w, ResumeAllOp(at, sigs)), run).gate, again, more).Some?
  {
    RunSpends(verify, Step(verify, w, ResumeAllOp(at, sigs)), run);
  }

  /** And for reserve reports of one asset: each must be later than the last. */
  lemma ReportNotReplayed(verify: Verify, w: World, a: Asset, escrowed: u128, at: u64, sigs: seq<SignerSig>, run: seq<Op>, figure: u128, again: u64, more: seq<SignerSig>)
    requires CheckReserve(verify, w.gate, a, escrowed, at, sigs).None? && again <= at
    ensures CheckReserve(verify, After(verify, Step(verify, w, AttestReserveOp(a, escrowed, at, sigs)), run).gate, a, figure, again, more).Some?
  {
    RunSpends(verify, Step(verify, w, AttestReserveOp(a, escrowed, at, sigs)), run);
  }
}
