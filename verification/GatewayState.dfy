/** The gateway's state and its money operations (q-gateway: gateway.rs). */
module GatewayState {
  import opened Machine
  import opened Sums
  import opened Facts
  import opened Attestor
  import opened Quorum

  type Asset = Bytes16

  const MAX_PENDING_EXITS: nat := 65_536
  const RESUME_WINDOW: nat := 600
  const RESUME_SKEW: nat := 16
  const RESERVE_MAX_AGE: nat := 18_000
  const WATCHDOG_MAX_WINDOW: nat := 7_200
  const WATCHDOG_COOLDOWN: nat := 57_600
  const EMERGENCY_FREEZE_MAX_WINDOW: nat := 3_024_000
  const BASE_TIER: u8 := 1

  datatype GatewayError =
    | GlobalPause | Frozen(until: u64) | WrongDestination | WrongDirection | ProveNothing | InvalidFact(why: CodecError)
    | MessageExpired | CorridorNotOpen(chain: u32) | CorridorInactive(chain: u32) | SourcePaused(chain: u32)
    | InsufficientFinality | QuorumRefused(error: QuorumError) | AssetNotRegistered | AssetCapExceeded
    | EpochCapExceeded | ReplayedReference | ReserveStale(asset: Asset) | EscrowExceeded
    | ExitQueueFull | ExitExceedsMinted | IdsExhausted | UnknownExit(id: u64) | ExitNotReady
    | ReserveReportsNotRequired | ReserveReportOutOfWindow | ReserveReportReplayed
    | NotGloballyPaused | ResumeOutOfWindow | ReserveShortfall
    | WatchdogWithoutClock | WatchdogExpired | WatchdogWindowTooWide | WatchdogCooldown
    | FreezeWindowTooWide | FreezeInPast | NotFrozen | NotPaused(chain: u32)

  datatype Ticket = Ticket(exitId: u64, asset: Asset, amount: u128, destination: Bytes32, unlockHeight: u64)

  datatype CorridorConfig = CorridorConfig(depth: u32, quorum: nat, tier: u8, active: bool)

  /** Who the gateway is and whom it trusts. */
  datatype Config = Config(chainId: u32, destChainId: u64, era: Bytes32, keys: Keys, threshold: nat)

  datatype Limits = Limits(cap: map<Asset, u128>, epochCap: u128, assetEpochCap: map<Asset, u128>, exitDelay: u64)

  /** What has been minted, what is leaving, and what has been used. */
  datatype Books = Books(
    minted: map<Asset, u128>, pending: map<u64, Ticket>, nextExit: u64, usedRefs: set<Key>, refsAnyChain: set<Bytes32>,
    epoch: u64, epochMinted: u128, assetEpoch: map<Asset, u128>)

  datatype Reserve = Reserve(escrowed: map<Asset, u128>, maxAge: Option<u64>, reportedAt: map<Asset, u64>)

  datatype Guard = Guard(
    globalPause: bool, globalPausedAt: u64, globalResumedAt: u64, height: u64, frozenUntil: u64, liftedFreeze: u64,
    depositFrozenUntil: u64, pausedSources: set<u32>, pausedSince: map<u32, u64>, resumedAt: map<u32, u64>,
    watchdogLast: map<u32, u64>, corridors: map<u32, CorridorConfig>, cursor: map<u32, u64>, auditSeq: u64,
    auditHead: Bytes32)

  datatype Gate = Gate(config: Config, limits: Limits, books: Books, reserve: Reserve, guard: Guard)

  // ---------------------------------------------------------------- supply

  function Get<K>(m: map<K, nat>, k: K): nat {
    if k in m then m[k] else 0
  }

  ghost function PendingAmounts(pending: map<u64, Ticket>, a: Asset): map<u64, nat> {
    map id | id in pending :: if pending[id].asset == a then pending[id].amount else 0
  }

  /** What tickets of one asset hold together. */
  ghost function PendingOf(pending: map<u64, Ticket>, a: Asset): nat {
    MapSum(PendingAmounts(pending, a))
  }

  /** What an asset has outstanding: minted and not leaving, or leaving. */
  ghost function Supply(b: Books, a: Asset): nat {
    Get(b.minted, a) + PendingOf(b.pending, a)
  }

  /** The source's figure for the supply: two saturating sums. */
  ghost function SupplyFigure(b: Books, a: Asset): nat {
    SatAdd128(Get(b.minted, a), Min(PendingOf(b.pending, a), U128_MAX))
  }

  // ---------------------------------------------------------------- admission

  predicate ReserveFresh(r: Reserve, height: u64, a: Asset) {
    r.maxAge.None? || (a in r.reportedAt && height <= SatAdd64(r.reportedAt[a], r.maxAge.value))
  }

  /** `charge_asset_escrow` and `charge_asset_epoch`. */
  ghost function Charge(l: Limits, b: Books, r: Reserve, height: u64, a: Asset, amount: u128): Option<GatewayError> {
    if !ReserveFresh(r, height, a) then Some(ReserveStale(a))
    else if a in r.escrowed && SupplyFigure(b, a) + amount > r.escrowed[a] then Some(EscrowExceeded)
    else if a in l.assetEpochCap && Get(b.assetEpoch, a) + amount > l.assetEpochCap[a] then Some(EpochCapExceeded)
    else None
  }

  /** The cap checks both admission paths make. A sum past u128 is past every cap. */
  ghost function Caps(l: Limits, b: Books, a: Asset, amount: u128): Option<GatewayError> {
    if a !in l.cap then Some(AssetNotRegistered)
    else if SupplyFigure(b, a) + amount > l.cap[a] then Some(AssetCapExceeded)
    else if b.epochMinted + amount > l.epochCap then Some(EpochCapExceeded)
    else None
  }

  function FreezeHorizon(g: Guard): u64 {
    if g.liftedFreeze == g.frozenUntil then 0 else g.frozenUntil
  }

  function MintFreezeHorizon(g: Guard): u64 {
    Max(FreezeHorizon(g), g.depositFrozenUntil)
  }

  predicate IsFrozen(g: Guard) {
    g.height < FreezeHorizon(g)
  }

  /** `precheck_trustless`: no error when admission may go ahead. */
  ghost function CheckTrustless(g: Gate, a: Asset, key: Key, amount: u128): Option<GatewayError> {
    if g.guard.globalPause then Some(GlobalPause)
    else if g.guard.height < MintFreezeHorizon(g.guard) then Some(Frozen(MintFreezeHorizon(g.guard)))
    else if key.chain in g.guard.pausedSources then Some(SourcePaused(key.chain))
    else if key.chain !in g.guard.corridors then Some(CorridorNotOpen(key.chain))
    else if !g.guard.corridors[key.chain].active then Some(CorridorInactive(key.chain))
    else if key in g.books.usedRefs then Some(ReplayedReference)
    else
      var caps := Caps(g.limits, g.books, a, amount);
      if caps.Some? then caps else Charge(g.limits, g.books, g.reserve, g.guard.height, a, amount)
  }

  function FactKey(f: BridgeFact): Key {
    Key(f.sourceChain, f.sourceRef)
  }

  /** The checks of `precheck_deposit` on the fact alone. */
  function CheckFact(c: Config, g: Guard, f: BridgeFact): Option<GatewayError> {
    if f.IsZero() then Some(ProveNothing)
    else if f.Validate().Err? then Some(InvalidFact(f.Validate().error))
    else if f.direction != Deposit then Some(WrongDirection)
    else if f.destChain != c.chainId then Some(WrongDestination)
    else if g.height > f.expiryHeight then Some(MessageExpired)
    else None
  }

  /** The corridor checks of `precheck_deposit`. */
  function CheckCorridor(g: Guard, f: BridgeFact): Option<GatewayError> {
    if f.sourceChain !in g.corridors then Some(CorridorNotOpen(f.sourceChain))
    else if !g.corridors[f.sourceChain].active then Some(CorridorInactive(f.sourceChain))
    else if f.sourceChain in g.pausedSources then Some(SourcePaused(f.sourceChain))
    else if f.finalityDepth < g.corridors[f.sourceChain].depth then Some(InsufficientFinality)
    else None
  }

  /** `precheck_deposit`. */
  function CheckDeposit(verify: Verify, c: Config, g: Guard, f: BridgeFact, sigs: seq<Airlock.SignerSig>):
    Option<GatewayError>
  {
    if g.globalPause then Some(GlobalPause)
    else if g.height < MintFreezeHorizon(g) then Some(Frozen(MintFreezeHorizon(g)))
    else if c.destChainId == 0 then Some(WrongDestination)
    else
      var fact, corridor := CheckFact(c, g, f), CheckCorridor(g, f);
      if fact.Some? then fact
      else if corridor.Some? then corridor
      else
        var q := CheckQuorum(verify, c.keys, c.threshold, g.corridors[f.sourceChain].quorum,
                             Preimage(f, c.destChainId), AttestContext(c.era), sigs);
        if q.Err? then Some(QuorumRefused(q.error)) else None
  }

  /** `process_deposit`, up to the mint. */
  ghost function CheckMint(verify: Verify, g: Gate, f: BridgeFact, sigs: seq<Airlock.SignerSig>): Option<GatewayError> {
    var early := CheckDeposit(verify, g.config, g.guard, f, sigs);
    if early.Some? then early
    else
      var caps := Caps(g.limits, g.books, f.asset, f.amount);
      if caps.Some? then caps
      else if FactKey(f) in g.books.usedRefs then Some(ReplayedReference)
      else Charge(g.limits, g.books, g.reserve, g.guard.height, f.asset, f.amount)
  }

  /** The writes of both admission paths. */
  function Mint(b: Books, key: Key, a: Asset, amount: u128): Books {
    b.(usedRefs := b.usedRefs + {key}, refsAnyChain := b.refsAnyChain + {key.ref},
       minted := b.minted[a := SatAdd128(Get(b.minted, a), amount)],
       epochMinted := SatAdd128(b.epochMinted, amount),
       assetEpoch := b.assetEpoch[a := SatAdd128(Get(b.assetEpoch, a), amount)])
  }

  // ---------------------------------------------------------------- exits

  function CheckRequest(b: Books, a: Asset, amount: u128): Option<GatewayError> {
    if amount == 0 then Some(InvalidFact(ZeroAmount))
    else if |b.pending| >= MAX_PENDING_EXITS then Some(ExitQueueFull)
    else if amount > Get(b.minted, a) then Some(ExitExceedsMinted)
    else if b.nextExit == U64_MAX then Some(IdsExhausted) // the checked increment panics
    else None
  }

  function NewTicket(b: Books, a: Asset, amount: u128, destination: Bytes32, unlock: u64): Ticket {
    Ticket(b.nextExit, a, amount, destination, unlock)
  }

  /** `request_exit`: minted becomes pending. */
  function Request(b: Books, t: Ticket): Books
    requires t.amount <= Get(b.minted, t.asset) && b.nextExit < U64_MAX
  {
    b.(minted := b.minted[t.asset := Get(b.minted, t.asset) - t.amount], nextExit := b.nextExit + 1,
       pending := b.pending[b.nextExit := t])
  }

  function CheckFinalize(g: Guard, b: Books, id: u64): Option<GatewayError> {
    if g.globalPause then Some(GlobalPause)
    else if IsFrozen(g) then Some(Frozen(g.frozenUntil))
    else if id !in b.pending then Some(UnknownExit(id))
    else if g.height < b.pending[id].unlockHeight then Some(ExitNotReady)
    else None
  }

  /** `finalize_exit`: pending leaves for good. */
  function Finalize(b: Books, id: u64): Books {
    b.(pending := b.pending - {id})
  }

  /** `cancel_exit`: pending becomes minted again. */
  function Cancel(b: Books, id: u64): Books
    requires id in b.pending
  {
    var t := b.pending[id];
    b.(pending := b.pending - {id}, minted := b.minted[t.asset := SatAdd128(Get(b.minted, t.asset), t.amount)])
  }

  /** `advance_epoch_to`. */
  function AdvanceEpoch(b: Books, epoch: u64): Books {
    if epoch > b.epoch then b.(epoch := epoch, epochMinted := 0, assetEpoch := map[]) else b
  }
}
