/** Restarting the gateway from its snapshot (q-gateway: gateway.rs). */
module Restart {
  import opened Machine
  import opened Attestor
  import opened Airlock
  import opened Quorum
  import opened Sections
  import opened Snapshot
  import opened GatewayState
  import opened GatewayBooks
  import opened GatewayGuards
  import opened GatewayRuns

  // ---------------------------------------------------------------- what a snapshot holds

  function ConfigOf(c: SavedCorridor): CorridorConfig {
    CorridorConfig(c.depth, c.quorum, c.tier, c.active)
  }

  function CorridorMap(cs: seq<SavedCorridor>): map<u32, CorridorConfig> {
    if cs == [] then map[] else CorridorMap(cs[..|cs| - 1])[cs[|cs| - 1].chain := ConfigOf(cs[|cs| - 1])]
  }

  function TicketMap(ts: seq<Ticket>): map<u64, Ticket> {
    if ts == [] then map[] else TicketMap(ts[..|ts| - 1])[ts[|ts| - 1].exitId := ts[|ts| - 1]]
  }

  predicate ListsTickets(ts: seq<Ticket>, m: map<u64, Ticket>) {
    && (forall t :: t in ts ==> t.exitId in m && m[t.exitId] == t)
    && (forall id :: id in m ==> m[id] in ts && m[id].exitId == id)
  }

  predicate ListsCorridors(cs: seq<SavedCorridor>, m: map<u32, CorridorConfig>) {
    && (forall c :: c in cs ==> c.chain in m && m[c.chain] == ConfigOf(c))
    && (forall chain :: chain in m ==> exists c :: c in cs && c.chain == chain)
  }

  lemma {:induction false} TicketsOf(ts: seq<Ticket>, m: map<u64, Ticket>)
    requires forall t :: t in ts ==> t.exitId in m && m[t.exitId] == t
    ensures forall id :: id in TicketMap(ts) ==> id in m && TicketMap(ts)[id] == m[id]
    ensures forall t :: t in ts ==> t.exitId in TicketMap(ts)
  {
    if ts != [] {
      var n := |ts| - 1;
      TicketsOf(ts[..n], m);
      assert ts == ts[..n] + [ts[n]];
    }
  }

  lemma TicketsListed(ts: seq<Ticket>, m: map<u64, Ticket>)
    requires ListsTickets(ts, m)
    ensures TicketMap(ts) == m
  {
    TicketsOf(ts, m);
    assert forall id :: id in m ==> m[id] in ts && m[id].exitId == id;
  }

  lemma {:induction false} CorridorsOf(cs: seq<SavedCorridor>, m: map<u32, CorridorConfig>)
    requires forall c :: c in cs ==> c.chain in m && m[c.chain] == ConfigOf(c)
    ensures forall chain :: chain in CorridorMap(cs) ==> chain in m && CorridorMap(cs)[chain] == m[chain]
    ensures forall c :: c in cs ==> c.chain in CorridorMap(cs)
  {
    if cs != [] {
      var n := |cs| - 1;
      CorridorsOf(cs[..n], m);
      assert cs == cs[..n] + [cs[n]];
    }
  }

  lemma CorridorsListed(cs: seq<SavedCorridor>, m: map<u32, CorridorConfig>)
    requires ListsCorridors(cs, m)
    ensures CorridorMap(cs) == m
  {
    CorridorsOf(cs, m);
    forall chain | chain in m ensures chain in CorridorMap(cs) {
      var c :| c in cs && c.chain == chain;
    }
  }

  predicate ListsBooks(s: Saved, b: Books) {
    && ToSet(s.refs) == b.usedRefs && ListsMap(s.minted, b.minted) && s.epoch == b.epoch
    && ListsMap(s.assetEpoch, b.assetEpoch) && s.nextExit == b.nextExit && ListsTickets(s.tickets, b.pending)
    && s.head.epochMinted == b.epochMinted
  }

  predicate ListsGuard(s: Saved, g: Guard) {
    && s.head.pause == g.globalPause && s.head.height == g.height && s.head.frozenUntil == g.frozenUntil
    && s.head.liftedFreeze == g.liftedFreeze && s.head.depositFrozenUntil == g.depositFrozenUntil
    && ToSet(s.paused) == g.pausedSources && ListsMap(s.cursor, g.cursor) && ListsCorridors(s.corridors, g.corridors)
    && ListsMap(s.resumed, g.resumedAt) && ListsMap(s.watchdog, g.watchdogLast)
    && s.tail == Tail(g.globalPausedAt, g.globalResumedAt, g.auditSeq, g.auditHead)
  }

  /** A snapshot taken of a gateway: its persisted fields, each collection listed in some order. */
  predicate Snaps(s: Saved, g: Gate) {
    && ListsBooks(s, g.books) && ListsGuard(s, g.guard)
    && ListsMap(s.escrowed, g.reserve.escrowed) && ListsMap(s.reported, g.reserve.reportedAt)
  }

  // ---------------------------------------------------------------- rehydration

  function Merge(current: CorridorConfig, saved: CorridorConfig): CorridorConfig {
    CorridorConfig(Max(current.depth, saved.depth), Max(current.quorum, saved.quorum), Max(current.tier, saved.tier),
                   current.active && saved.active)
  }

  function MergeAll(current: map<u32, CorridorConfig>, saved: map<u32, CorridorConfig>): map<u32, CorridorConfig> {
    map c | c in current :: if c in saved then Merge(current[c], saved[c]) else current[c]
  }

  function RehydratedBooks(s: Saved): Books {
    var refs := ToSet(s.refs);
    Books(ToMap(s.minted), TicketMap(s.tickets), s.nextExit, refs, set k | k in refs :: k.ref, s.epoch,
          s.head.epochMinted, ToMap(s.assetEpoch))
  }

  function RehydratedGuard(g: Guard, s: Saved): Guard {
    var paused := ToSet(s.paused);
    Guard(s.head.pause, s.tail.globalPausedAt, s.tail.globalResumedAt, Max(g.height, s.head.height), s.head.frozenUntil,
          s.head.liftedFreeze, s.head.depositFrozenUntil, paused, map c | c in paused :: s.head.height,
          ToMap(s.resumed), ToMap(s.watchdog), MergeAll(g.corridors, CorridorMap(s.corridors)), ToMap(s.cursor),
          s.tail.auditSeq, s.tail.auditHead)
  }

  /** `rehydrate_guard` on a decoded snapshot. */
  function Rehydrate(g: Gate, s: Saved): Gate {
    g.(books := RehydratedBooks(s), guard := RehydratedGuard(g.guard, s),
       reserve := g.reserve.(escrowed := ToMap(s.escrowed), reportedAt := ToMap(s.reported)))
  }

  /** Rehydrating twice is rehydrating once. */
  lemma RehydrateTwice(g: Gate, s: Saved)
    ensures Rehydrate(Rehydrate(g, s), s) == Rehydrate(g, s)
  {
    MergeTwice(g.guard.corridors, CorridorMap(s.corridors));
  }

  lemma MergeTwice(current: map<u32, CorridorConfig>, saved: map<u32, CorridorConfig>)
    ensures MergeAll(MergeAll(current, saved), saved) == MergeAll(current, saved)
  {}

  predicate NoLooser(a: CorridorConfig, b: CorridorConfig) {
    a.depth >= b.depth && a.quorum >= b.quorum && a.tier >= b.tier && (a.active ==> b.active)
  }

  /** No snapshot, however it came about, relaxes a configured corridor, opens one, or relaxes a saved one. */
  lemma NeverRelaxes(g: Gate, s: Saved, chain: u32)
    requires chain in g.guard.corridors
    ensures Rehydrate(g, s).guard.corridors.Keys == g.guard.corridors.Keys
    ensures NoLooser(Rehydrate(g, s).guard.corridors[chain], g.guard.corridors[chain])
    ensures chain in CorridorMap(s.corridors) ==>
      NoLooser(Rehydrate(g, s).guard.corridors[chain], CorridorMap(s.corridors)[chain])
  {}

  // ---------------------------------------------------------------- restart refinement

  lemma BooksRestored(s: Saved, b: Books)
    requires ListsBooks(s, b) && RefsOk(b)
    ensures RehydratedBooks(s) == b
  {
    MapOfListing(s.minted, b.minted);
    MapOfListing(s.assetEpoch, b.assetEpoch);
    TicketsListed(s.tickets, b.pending);
  }

  lemma GuardRestored(s: Saved, f: Guard, g: Guard)
    requires ListsGuard(s, g) && f.height <= g.height
    ensures RehydratedGuard(f, s)
         == g.(pausedSince := RehydratedGuard(f, s).pausedSince, corridors := MergeAll(f.corridors, g.corridors))
    ensures RehydratedGuard(f, s).pausedSince == map c | c in g.pausedSources :: g.height
  {
    MapOfListing(s.cursor, g.cursor);
    MapOfListing(s.resumed, g.resumedAt);
    MapOfListing(s.watchdog, g.watchdogLast);
    CorridorsListed(s.corridors, g.corridors);
  }

  /** The corridors come back as they were exactly when the same ones are registered, none stricter than saved. */
  lemma CorridorsRestored(current: map<u32, CorridorConfig>, saved: map<u32, CorridorConfig>)
    ensures MergeAll(current, saved) == saved
       <==> current.Keys == saved.Keys && forall c :: c in current ==> NoLooser(saved[c], current[c])
  {
    var merged := MergeAll(current, saved);
    assert merged.Keys == current.Keys;
    if merged == saved {
      forall c | c in current ensures NoLooser(saved[c], current[c]) {
        assert merged[c] == Merge(current[c], saved[c]);
      }
    } else if current.Keys == saved.Keys {
      var c :| c in current && merged[c] != saved[c];
    }
  }

  /** The same gateway but for when each paused source was paused. */
  predicate Alike(a: Gate, b: Gate) {
    a == b.(guard := b.guard.(pausedSince := a.guard.pausedSince))
  }

  /** A gateway freshly configured as the old one was. */
  predicate Configured(f: Gate, g: Gate) {
    && f.config == g.config && f.limits == g.limits && f.reserve.maxAge == g.reserve.maxAge
    && f.guard.height <= g.guard.height && f.guard.corridors.Keys == g.guard.corridors.Keys
    && forall c :: c in f.guard.corridors ==> NoLooser(g.guard.corridors[c], f.guard.corridors[c])
  }

  /** Rehydrating a freshly configured gateway from a snapshot gives the gateway the snapshot was taken of. */
  lemma Restored(f: Gate, g: Gate, s: Saved)
    requires Snaps(s, g) && Configured(f, g) && RefsOk(g.books)
    ensures Alike(Rehydrate(f, s), g)
    ensures Rehydrate(f, s).guard.pausedSince == map c | c in g.guard.pausedSources :: g.guard.height
  {
    BooksRestored(s, g.books);
    GuardRestored(s, f.guard, g.guard);
    CorridorsRestored(f.guard.corridors, g.guard.corridors);
    MapOfListing(s.escrowed, g.reserve.escrowed);
    MapOfListing(s.reported, g.reserve.reportedAt);
  }

  /** From bytes: what was encoded decodes, and rehydrating with it gives the gateway back. */
  lemma RestartFromBytes(f: Gate, g: Gate, s: Saved)
    requires Snaps(s, g) && CountsFit(s) && Configured(f, g) && RefsOk(g.books)
    ensures DecodeGuard(EncodeGuard(s)).Ok? && Alike(Rehydrate(f, DecodeGuard(EncodeGuard(s)).value), g)
  {
    GuardRoundTrip(s);
    Restored(f, g, s);
  }

  // ---------------------------------------------------------------- the same answers ever after

  /** Alike gateways answer every admission alike. */
  lemma SameTrustless(a: Gate, b: Gate, asset: Asset, key: Key, amount: u128)
    requires Alike(a, b)
    ensures CheckTrustless(a, asset, key, amount) == CheckTrustless(b, asset, key, amount)
  {}

  lemma SameDeposit(verify: Verify, c: Config, a: Guard, b: Guard, f: Facts.BridgeFact, sigs: seq<SignerSig>)
    requires a == b.(pausedSince := a.pausedSince)
    ensures CheckDeposit(verify, c, a, f, sigs) == CheckDeposit(verify, c, b, f, sigs)
  {
    assert CheckFact(c, a, f) == CheckFact(c, b, f);
    assert CheckCorridor(a, f) == CheckCorridor(b, f);
  }

  lemma SameMint(verify: Verify, a: Gate, b: Gate, f: Facts.BridgeFact, sigs: seq<SignerSig>)
    requires Alike(a, b)
    ensures CheckMint(verify, a, f, sigs) == CheckMint(verify, b, f, sigs)
  {
    SameDeposit(verify, a.config, a.guard, b.guard, f, sigs);
  }

  predicate IsResume(op: Op) {
    op.GuardOp? && op.change.Resume?
  }

  /** No check but the one before resuming reads when a source was paused. */
  lemma FreezesAlike(verify: Verify, c: Config, a: Guard, b: Guard, until: u64, sig: SignerSig, sigs: seq<SignerSig>)
    requires a == b.(pausedSince := a.pausedSince)
    ensures CheckWatchdog(verify, c, a, until, sig) == CheckWatchdog(verify, c, b, until, sig)
    ensures CheckFreeze(verify, c, a, until, sigs) == CheckFreeze(verify, c, b, until, sigs)
    ensures CheckLift(verify, c, a, sigs) == CheckLift(verify, c, b, sigs)
  {}

  lemma ReorgAlike(verify: Verify, c: Config, a: Guard, b: Guard, chain: u32, depth: u32, at: u64, sigs: seq<SignerSig>)
    requires a == b.(pausedSince := a.pausedSince)
    ensures CheckReorg(verify, c, a, chain, depth, at, sigs) == CheckReorg(verify, c, b, chain, depth, at, sigs)
  {}

  lemma CheckAlike(verify: Verify, c: Config, a: Guard, b: Guard, change: GuardChange)
    requires a == b.(pausedSince := a.pausedSince) && !change.Resume?
    ensures CheckChange(verify, c, a, change) == CheckChange(verify, c, b, change)
  {
    match change
    case Watchdog(until, sig) => FreezesAlike(verify, c, a, b, until, sig, []);
    case Freeze(until, sigs) => FreezesAlike(verify, c, a, b, until, SignerSig(0, []), sigs);
    case Lift(sigs) => FreezesAlike(verify, c, a, b, 0, SignerSig(0, []), sigs);
    case Reorg(chain, depth, at, sigs) => ReorgAlike(verify, c, a, b, chain, depth, at, sigs);
    case _ =>
  }

  lemma SourceAlike(refused: bool, a: Guard, b: Guard, change: GuardChange)
    requires a == b.(pausedSince := a.pausedSince) && (change.Reorg? || change.PauseSource? || change.UnpauseSourceOp?)
    ensures var x, y := Changed(refused, a, change), Changed(refused, b, change); x == y.(pausedSince := x.pausedSince)
  {
    var x, y := Changed(refused, a, change), Changed(refused, b, change);
    assert x.pausedSources == y.pausedSources;
  }

  lemma ChangedAlike(refused: bool, a: Guard, b: Guard, change: GuardChange)
    requires a == b.(pausedSince := a.pausedSince) && !change.Resume?
    ensures var x, y := Changed(refused, a, change), Changed(refused, b, change); x == y.(pausedSince := x.pausedSince)
  {
    match change
    case Pause => assert PauseAll(a) == PauseAll(b).(pausedSince := a.pausedSince);
    case Height(to) => assert AdvanceTo(a, to) == AdvanceTo(b, to).(pausedSince := a.pausedSince);
    case Watchdog(until, sig) =>
      assert WatchdogFreeze(a, until, sig.operatorId)
          == WatchdogFreeze(b, until, sig.operatorId).(pausedSince := a.pausedSince);
    case Freeze(until, _) => assert EmergencyFreeze(a, until) == EmergencyFreeze(b, until).(pausedSince := a.pausedSince);
    case Lift(_) =>
    case Reorg(_, _, _, _) => SourceAlike(refused, a, b, change);
    case PauseSource(_) => SourceAlike(refused, a, b, change);
    case UnpauseSourceOp(_) => SourceAlike(refused, a, b, change);
    case Corridor(_, _) =>
  }

  lemma GuardAlike(verify: Verify, c: Config, a: Guard, b: Guard, change: GuardChange)
    requires a == b.(pausedSince := a.pausedSince) && !change.Resume?
    ensures var x, y := ChangeGuard(verify, c, a, change), ChangeGuard(verify, c, b, change);
      x == y.(pausedSince := x.pausedSince)
  {
    CheckAlike(verify, c, a, b, change);
    ChangedAlike(CheckChange(verify, c, a, change).Some?, a, b, change);
  }

  lemma AdmissionAlike(verify: Verify, a: World, b: World, op: Op)
    requires Alike(a.gate, b.gate) && a.history == b.history && (op.AdmitTrustless? || op.ProcessDeposit?)
    ensures Alike(Step(verify, a, op).gate, Step(verify, b, op).gate)
    ensures Step(verify, a, op).history == Step(verify, b, op).history
  {
    if op.AdmitTrustless? {
      SameTrustless(a.gate, b.gate, op.asset, op.key, op.amount);
    } else {
      SameMint(verify, a.gate, b.gate, op.fact, op.sigs);
    }
  }

  lemma ExitAlike(verify: Verify, a: World, b: World, op: Op)
    requires Alike(a.gate, b.gate) && a.history == b.history && (op.RequestExit? || op.FinalizeExit? || op.CancelExit?)
    ensures Alike(Step(verify, a, op).gate, Step(verify, b, op).gate)
    ensures Step(verify, a, op).history == Step(verify, b, op).history
  {}

  lemma ReserveAlike(verify: Verify, a: World, b: World, op: Op)
    requires Alike(a.gate, b.gate) && a.history == b.history && (op.AttestReserveOp? || op.ResumeAllOp?)
    ensures Alike(Step(verify, a, op).gate, Step(verify, b, op).gate)
    ensures Step(verify, a, op).history == Step(verify, b, op).history
  {
    if op.AttestReserveOp? {
      assert CheckReserve(verify, a.gate, op.asset, op.escrowed, op.at, op.sigs)
          == CheckReserve(verify, b.gate, op.asset, op.escrowed, op.at, op.sigs);
    } else {
      assert CheckResumeAll(verify, a.gate, op.at, op.sigs) == CheckResumeAll(verify, b.gate, op.at, op.sigs);
    }
  }

  lemma SetterAlike(verify: Verify, a: World, b: World, op: Op)
    requires Alike(a.gate, b.gate) && a.history == b.history
    requires op.AdvanceEpochTo? || op.RegisterCap? || op.RegisterEpochCap? || op.RequireReports? || op.SetExitDelay? || op.SetEscrow?
          || op.UnpauseAll?
    ensures Alike(Step(verify, a, op).gate, Step(verify, b, op).gate)
    ensures Step(verify, a, op).history == Step(verify, b, op).history
  {}

  lemma PoolAlike(verify: Verify, a: World, b: World, op: Op)
    requires Alike(a.gate, b.gate) && a.history == b.history && op.InstallPool?
    ensures Alike(Step(verify, a, op).gate, Step(verify, b, op).gate)
    ensures Step(verify, a, op).history == Step(verify, b, op).history
  {
    CorridorAlike(a.gate.guard, b.gate.guard, op.chain, op.depth);
  }

  lemma CorridorAlike(a: Guard, b: Guard, chain: u32, depth: u32)
    requires a == b.(pausedSince := a.pausedSince)
    ensures RegisterCorridor(a, chain, depth) == RegisterCorridor(b, chain, depth).(pausedSince := a.pausedSince)
  {}

  lemma StepAlike(verify: Verify, a: World, b: World, op: Op)
    requires Alike(a.gate, b.gate) && a.history == b.history && !IsResume(op)
    ensures Alike(Step(verify, a, op).gate, Step(verify, b, op).gate)
    ensures Step(verify, a, op).history == Step(verify, b, op).history
  {
    if op.AdmitTrustless? || op.ProcessDeposit? {
      AdmissionAlike(verify, a, b, op);
    } else if op.RequestExit? || op.FinalizeExit? || op.CancelExit? {
      ExitAlike(verify, a, b, op);
    } else if op.AttestReserveOp? || op.ResumeAllOp? {
      ReserveAlike(verify, a, b, op);
    } else if op.GuardOp? {
      GuardAlike(verify, a.gate.config, a.gate.guard, b.gate.guard, op.change);
    } else if op.InstallPool? {
      PoolAlike(verify, a, b, op);
    } else {
      SetterAlike(verify, a, b, op);
    }
  }

  /** Supplies, caps and the breaker survive a restart. */
  lemma RestartSound(f: Gate, g: Gate, h: History, s: Saved)
    requires Snaps(s, g) && Configured(f, g) && Sound(World(g, h)) && BreakerOk(g)
    ensures Sound(World(Rehydrate(f, s), h)) && BreakerOk(Rehydrate(f, s))
  {
    Restored(f, g, s);
  }
}
