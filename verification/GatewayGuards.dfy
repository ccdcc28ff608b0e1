/** The gateway's guards: pauses, freezes, reserve reports and the watchdog (q-gateway: gateway.rs). */
module GatewayGuards {
  import opened Machine
  import opened Bytes
  import opened Airlock
  import opened Quorum
  import opened GatewayState

  // Signing domains, as bytes: QUANTOVA/Q-ORACLE/<name>/v1.
  const REORG_DOMAIN: seq<u8> :=
    [81, 85, 65, 78, 84, 79, 86, 65, 47, 81, 45, 79, 82, 65, 67, 76, 69, 47, 82, 69, 79, 82, 71, 47, 118, 49]
  const RESUME_DOMAIN: seq<u8> :=
    [81, 85, 65, 78, 84, 79, 86, 65, 47, 81, 45, 79, 82, 65, 67, 76, 69, 47, 82, 69, 83, 85, 77, 69, 47, 118, 49]
  const FREEZE_DOMAIN: seq<u8> :=
    [81, 85, 65, 78, 84, 79, 86, 65, 47, 81, 45, 79, 82, 65, 67, 76, 69, 47, 70, 82, 69, 69, 90, 69, 47, 118, 49]
  const WATCHDOG_DOMAIN: seq<u8> :=
    [81, 85, 65, 78, 84, 79, 86, 65, 47, 81, 45, 79, 82, 65, 67, 76, 69, 47, 87, 65, 84, 67, 72, 68, 79, 71, 47, 118, 49]
  const RESERVE_DOMAIN: seq<u8> :=
    [81, 85, 65, 78, 84, 79, 86, 65, 47, 81, 45, 79, 82, 65, 67, 76, 69, 47, 82, 69, 83, 69, 82, 86, 69, 47, 118, 49]
  const UNPAUSE_DOMAIN: seq<u8> :=
    [81, 85, 65, 78, 84, 79, 86, 65, 47, 81, 45, 79, 82, 65, 67, 76, 69, 47, 85, 78, 80, 65, 85, 83, 69, 47, 118, 49]
  const LIFT_DOMAIN: seq<u8> :=
    [81, 85, 65, 78, 84, 79, 86, 65, 47, 81, 45, 79, 82, 65, 67, 76, 69, 47, 76, 73, 70, 84, 47, 118, 49]

  function Tail(c: Config): seq<u8> {
    Le64(c.destChainId) + c.era
  }

  function ReorgMessage(c: Config, chain: u32, depth: u32, at: u64): seq<u8> {
    Le32(chain) + Le32(depth) + Le64(at) + Tail(c)
  }

  function ResumeMessage(c: Config, chain: u32, at: u64): seq<u8> {
    Le32(chain) + Le64(at) + Tail(c)
  }

  function ReserveMessage(c: Config, a: Asset, escrowed: u128, at: u64): seq<u8> {
    a + Le128(escrowed) + Le64(at) + Tail(c)
  }

  /** The unpause, freeze, watchdog and lift messages: one height. Their domains tell them apart. */
  function HeightMessage(c: Config, height: u64): seq<u8> {
    Le64(height) + Tail(c)
  }

  /** `quorum_met`. */
  predicate QuorumMet(verify: Verify, c: Config, message: seq<u8>, domain: seq<u8>, sigs: seq<SignerSig>) {
    |QuorumOf(verify, c.keys, message, domain, sigs)| >= Max(c.threshold, SupermajorityFloor(|c.keys|))
  }

  const TOO_FEW: GatewayError := QuorumRefused(BelowThreshold)

  // ---------------------------------------------------------------- height, pause and resume

  function AdvanceTo(g: Guard, height: u64): Guard {
    if height > g.height then g.(height := height) else g
  }

  function PauseAll(g: Guard): Guard {
    g.(globalPause := true, globalPausedAt := if g.globalPause then g.globalPausedAt else g.height)
  }

  /** Whether a signed height is neither far in the future nor stale. */
  predicate InWindow(g: Guard, at: u64) {
    at <= SatAdd64(g.height, RESUME_SKEW) && g.height <= SatAdd64(at, RESUME_WINDOW)
  }

  /** `short_reserve`: some minted asset has more outstanding than it has in escrow. */
  ghost predicate Short(b: Books, r: Reserve) {
    exists a :: a in b.minted && SupplyFigure(b, a) > Get(r.escrowed, a)
  }

  /** `check_unpause`. */
  ghost function CheckResumeAll(verify: Verify, g: Gate, at: u64, sigs: seq<SignerSig>): Option<GatewayError> {
    if !g.guard.globalPause then Some(NotGloballyPaused)
    else if at < g.guard.globalPausedAt || at <= g.guard.globalResumedAt || !InWindow(g.guard, at) then
      Some(ResumeOutOfWindow)
    else if Short(g.books, g.reserve) then Some(ReserveShortfall)
    else if !QuorumMet(verify, g.config, HeightMessage(g.config, at), UNPAUSE_DOMAIN, sigs) then Some(TOO_FEW)
    else None
  }

  function ResumeAll(g: Guard, at: u64): Guard {
    g.(globalPause := false, globalResumedAt := at)
  }

  // ---------------------------------------------------------------- reserve reports

  /** `check_reserve`. */
  function CheckReserve(verify: Verify, g: Gate, a: Asset, escrowed: u128, at: u64, sigs: seq<SignerSig>):
    Option<GatewayError>
  {
    if g.reserve.maxAge.None? then Some(ReserveReportsNotRequired)
    else if a !in g.limits.cap then Some(AssetNotRegistered)
    else if g.guard.height == 0 || at > SatAdd64(g.guard.height, RESUME_SKEW)
            || g.guard.height > SatAdd64(at, g.reserve.maxAge.value) then Some(ReserveReportOutOfWindow)
    else if a in g.reserve.reportedAt && at <= g.reserve.reportedAt[a] then Some(ReserveReportReplayed)
    else if !QuorumMet(verify, g.config, ReserveMessage(g.config, a, escrowed, at), RESERVE_DOMAIN, sigs) then
      Some(TOO_FEW)
    else None
  }

  /** `attest_reserve`: a report below the supply trips the pause. */
  ghost function AttestReserve(g: Gate, a: Asset, escrowed: u128, at: u64): Gate {
    g.(reserve := g.reserve.(escrowed := g.reserve.escrowed[a := escrowed], reportedAt := g.reserve.reportedAt[a := at]),
       guard := if SupplyFigure(g.books, a) > escrowed then PauseAll(g.guard) else g.guard)
  }

  // ---------------------------------------------------------------- freezes

  /** The operator of a valid watchdog signature. */
  predicate WatchdogSigned(verify: Verify, c: Config, until: u64, sig: SignerSig) {
    QuorumOf(verify, c.keys, HeightMessage(c, until), WATCHDOG_DOMAIN, [sig]) != {}
  }

  predicate Cooling(g: Guard, operator: u32) {
    operator in g.watchdogLast && g.height < SatAdd64(g.watchdogLast[operator], WATCHDOG_COOLDOWN)
  }

  predicate TooSoon(g: Guard) {
    g.depositFrozenUntil > 0 && g.height < SatAdd64(g.depositFrozenUntil, WATCHDOG_MAX_WINDOW)
  }

  function CheckWatchdog(verify: Verify, c: Config, g: Guard, until: u64, sig: SignerSig): Option<GatewayError> {
    if g.height == 0 then Some(WatchdogWithoutClock)
    else if until <= g.height then Some(WatchdogExpired)
    else if until > SatAdd64(g.height, WATCHDOG_MAX_WINDOW) then Some(WatchdogWindowTooWide)
    else if !WatchdogSigned(verify, c, until, sig) then Some(TOO_FEW)
    else if Cooling(g, sig.operatorId) || TooSoon(g) then Some(WatchdogCooldown)
    else None
  }

  /** `watchdog_freeze`, with its last test as written. */
  function WatchdogFreeze(g: Guard, until: u64, operator: u32): Guard {
    g.(watchdogLast := g.watchdogLast[operator := g.height],
       depositFrozenUntil := if until > g.depositFrozenUntil then until else g.depositFrozenUntil)
  }

  function CheckFreeze(verify: Verify, c: Config, g: Guard, until: u64, sigs: seq<SignerSig>): Option<GatewayError> {
    if until > SatAdd64(g.height, EMERGENCY_FREEZE_MAX_WINDOW) then Some(FreezeWindowTooWide)
    else if until <= g.height then Some(FreezeInPast)
    else if !QuorumMet(verify, c, HeightMessage(c, until), FREEZE_DOMAIN, sigs) then Some(TOO_FEW)
    else None
  }

  function EmergencyFreeze(g: Guard, until: u64): Guard {
    if until > g.frozenUntil then g.(frozenUntil := until, liftedFreeze := 0) else g
  }

  function CheckLift(verify: Verify, c: Config, g: Guard, sigs: seq<SignerSig>): Option<GatewayError> {
    if !IsFrozen(g) then Some(NotFrozen)
    else if !QuorumMet(verify, c, HeightMessage(c, g.frozenUntil), LIFT_DOMAIN, sigs) then Some(TOO_FEW)
    else None
  }

  // ---------------------------------------------------------------- source pauses

  /** `pause_source_direct`: no record of when. */
  function PauseSourceDirect(g: Guard, chain: u32): Guard {
    g.(pausedSources := g.pausedSources + {chain})
  }

  /** `unpause_source`. */
  function UnpauseSource(g: Guard, chain: u32): Guard {
    g.(pausedSources := g.pausedSources - {chain}, pausedSince := g.pausedSince - {chain})
  }

  /** When a paused source counts as paused from: its record, or the present height when there is none. */
  function SinceOf(g: Guard, chain: u32): u64 {
    if chain in g.pausedSince then g.pausedSince[chain] else g.height
  }

  predicate AfterResume(g: Guard, chain: u32, at: u64) {
    chain in g.resumedAt ==> at > g.resumedAt[chain]
  }

  function CheckReorg(verify: Verify, c: Config, g: Guard, chain: u32, depth: u32, at: u64, sigs: seq<SignerSig>):
    Option<GatewayError>
  {
    if !InWindow(g, at) || !AfterResume(g, chain, at) then Some(ResumeOutOfWindow)
    else if !QuorumMet(verify, c, ReorgMessage(c, chain, depth, at), REORG_DOMAIN, sigs) then Some(TOO_FEW)
    else None
  }

  function ReportReorg(g: Guard, chain: u32): Guard {
    g.(pausedSources := g.pausedSources + {chain},
       pausedSince := if chain in g.pausedSince then g.pausedSince else g.pausedSince[chain := g.height])
  }

  function CheckResume(verify: Verify, c: Config, g: Guard, chain: u32, at: u64, sigs: seq<SignerSig>):
    Option<GatewayError>
  {
    if chain !in g.pausedSources then Some(NotPaused(chain))
    else if at < SinceOf(g, chain) || !InWindow(g, at) || !AfterResume(g, chain, at) then Some(ResumeOutOfWindow)
    else if !QuorumMet(verify, c, ResumeMessage(c, chain, at), RESUME_DOMAIN, sigs) then Some(TOO_FEW)
    else None
  }

  function ResumeSource(g: Guard, chain: u32, at: u64): Guard {
    g.(pausedSources := g.pausedSources - {chain}, pausedSince := g.pausedSince - {chain},
       resumedAt := g.resumedAt[chain := at])
  }
}
