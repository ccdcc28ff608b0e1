/** The gateway as an object whose calls refine the gateway's steps (q-gateway: gateway.rs). */
module GatewayService {
  import opened Machine
  import opened Facts
  import opened Attestor
  import opened Airlock
  import opened Quorum
  import opened GatewayState
  import opened GatewayBooks
  import opened GatewayGuards
  import opened Snapshot
  import opened Restart
  import opened Sections

  /** One turn of a saturating sum over tickets, in any order. */
  lemma SumTurn(rest: map<u64, Ticket>, id: u64, a: Asset, acc: nat)
    requires id in rest && acc <= U128_MAX
    ensures var v := if rest[id].asset == a then SatAdd128(acc, rest[id].amount) else acc;
      Min(v + PendingOf(rest - {id}, a), U128_MAX) == Min(acc + PendingOf(rest, a), U128_MAX)
  {
    PendingRemove(rest, id, a);
  }

  /** `pending_exit_of`. */
  method PendingExitOf(pending: map<u64, Ticket>, a: Asset) returns (n: u128)
    ensures n == Min(PendingOf(pending, a), U128_MAX)
  {
    n := 0;
    var rest := pending;
    while rest != map[]
      invariant Min(n + PendingOf(rest, a), U128_MAX) == Min(PendingOf(pending, a), U128_MAX)
      decreases |rest|
    {
      var id :| id in rest;
      SumTurn(rest, id, a, n);
      if rest[id].asset == a {
        n := SatAdd128(n, rest[id].amount);
      }
      rest := rest - {id};
    }
    AllZero(PendingAmounts(rest, a));
  }

  class Gateway {
    const config: Config
    const epochCap: u128
    var perAssetCap: map<Asset, u128>
    var perAssetEpochCap: map<Asset, u128>
    var exitDelay: u64
    var minted: map<Asset, u128>
    var pending: map<u64, Ticket>
    var nextExitId: u64
    var usedRefs: set<Key>
    var refsAnyChain: set<Bytes32>
    var currentEpoch: u64
    var epochMinted: u128
    var assetEpochMinted: map<Asset, u128>
    var escrowed: map<Asset, u128>
    var reserveMaxAge: Option<u64>
    var reserveReportedAt: map<Asset, u64>
    /** Height, pauses, freezes and corridors. */
    var guard: Guard

    ghost function TheBooks(): Books
      reads this
    {
      Books(minted, pending, nextExitId, usedRefs, refsAnyChain, currentEpoch, epochMinted, assetEpochMinted)
    }

    ghost function TheLimits(): Limits
      reads this
    {
      Limits(perAssetCap, epochCap, perAssetEpochCap, exitDelay)
    }

    ghost function TheReserve(): Reserve
      reads this
    {
      Reserve(escrowed, reserveMaxAge, reserveReportedAt)
    }

    ghost function Abstract(): Gate
      reads this
    {
      Gate(config, TheLimits(), TheBooks(), TheReserve(), guard)
    }

    /** The source's figure for an asset's supply. */
    method Outstanding(a: Asset) returns (n: u128)
      ensures n == SupplyFigure(TheBooks(), a)
    {
      var leaving := PendingExitOf(pending, a);
      n := SatAdd128(if a in minted then minted[a] else 0, leaving);
    }

    method CheckCharge(a: Asset, amount: u128) returns (e: Option<GatewayError>)
      ensures e == Charge(TheLimits(), TheBooks(), TheReserve(), guard.height, a, amount)
    {
      if reserveMaxAge.Some?
         && !(a in reserveReportedAt && guard.height <= SatAdd64(reserveReportedAt[a], reserveMaxAge.value)) {
        return Some(ReserveStale(a));
      }
      if a in escrowed {
        var supply := Outstanding(a);
        if supply + amount > escrowed[a] {
          return Some(EscrowExceeded);
        }
      }
      if a in perAssetEpochCap {
        var sofar := if a in assetEpochMinted then assetEpochMinted[a] else 0;
        if sofar + amount > perAssetEpochCap[a] {
          return Some(EpochCapExceeded);
        }
      }
      return None;
    }

    method CheckCaps(a: Asset, amount: u128) returns (e: Option<GatewayError>)
      ensures e == Caps(TheLimits(), TheBooks(), a, amount)
    {
      if a !in perAssetCap {
        return Some(AssetNotRegistered);
      }
      var supply := Outstanding(a);
      if supply + amount > perAssetCap[a] {
        return Some(AssetCapExceeded);
      }
      return if epochMinted + amount > epochCap then Some(EpochCapExceeded) else None;
    }

    /** `precheck_trustless`. */
    method PrecheckTrustless(a: Asset, key: Key, amount: u128) returns (e: Option<GatewayError>)
      ensures e == CheckTrustless(Abstract(), a, key, amount)
    {
      if guard.globalPause {
        return Some(GlobalPause);
      }
      if guard.height < MintFreezeHorizon(guard) {
        return Some(Frozen(MintFreezeHorizon(guard)));
      }
      if key.chain in guard.pausedSources {
        return Some(SourcePaused(key.chain));
      }
      if key.chain !in guard.corridors {
        return Some(CorridorNotOpen(key.chain));
      }
      if !guard.corridors[key.chain].active {
        return Some(CorridorInactive(key.chain));
      }
      if key in usedRefs {
        return Some(ReplayedReference);
      }
      e := CheckCaps(a, amount);
      if e.None? {
        e := CheckCharge(a, amount);
      }
    }

    method RecordMint(key: Key, a: Asset, amount: u128)
      modifies this`usedRefs, this`refsAnyChain, this`minted, this`epochMinted, this`assetEpochMinted
      ensures TheBooks() == Mint(old(TheBooks()), key, a, amount)
    {
      usedRefs := usedRefs + {key};
      refsAnyChain := refsAnyChain + {key.ref};
      minted := minted[a := SatAdd128(Get(minted, a), amount)];
      epochMinted := SatAdd128(epochMinted, amount);
      assetEpochMinted := assetEpochMinted[a := SatAdd128(Get(assetEpochMinted, a), amount)];
    }

    /** `admit_trustless`: refused without a trace, or one mint. */
    method AdmitTrustless(a: Asset, key: Key, amount: u128) returns (e: Option<GatewayError>)
      modifies this
      ensures e == CheckTrustless(old(Abstract()), a, key, amount)
      ensures Abstract() == if e.Some? then old(Abstract())
                            else old(Abstract()).(books := Mint(old(TheBooks()), key, a, amount))
    {
      e := PrecheckTrustless(a, key, amount);
      if e.None? {
        RecordMint(key, a, amount);
      }
    }

    /** `process_deposit`, past the checks on the envelope. */
    method CheckMoney(a: Asset, key: Key, amount: u128) returns (e: Option<GatewayError>)
      ensures var caps := Caps(TheLimits(), TheBooks(), a, amount);
        e == if caps.Some? then caps else if key in usedRefs then Some(ReplayedReference)
             else Charge(TheLimits(), TheBooks(), TheReserve(), guard.height, a, amount)
    {
      e := CheckCaps(a, amount);
      if e.Some? {
        return;
      }
      if key in usedRefs {
        return Some(ReplayedReference);
      }
      e := CheckCharge(a, amount);
    }

    /** `process_deposit`. */
    method ProcessDeposit(verify: Verify, f: BridgeFact, sigs: seq<SignerSig>) returns (e: Option<GatewayError>)
      modifies this
      ensures e == CheckMint(verify, old(Abstract()), f, sigs)
      ensures Abstract() == if e.Some? then old(Abstract())
                            else old(Abstract()).(books := Mint(old(TheBooks()), FactKey(f), f.asset, f.amount))
    {
      e := CheckDeposit(verify, config, guard, f, sigs);
      if e.Some? {
        return;
      }
      e := CheckMoney(f.asset, FactKey(f), f.amount);
      if e.None? {
        RecordMint(FactKey(f), f.asset, f.amount);
      }
    }

    /** `request_exit`. */
    method RequestExit(a: Asset, amount: u128, destination: Bytes32) returns (r: Result<Ticket, GatewayError>)
      modifies this
      ensures var b := old(TheBooks()); var e := CheckRequest(b, a, amount);
        if e.Some? then r == Err(e.value) && Abstract() == old(Abstract())
        else
          var t := NewTicket(b, a, amount, destination, SatAdd64(guard.height, exitDelay));
          r == Ok(t) && Abstract() == old(Abstract()).(books := Request(b, t))
    {
      if amount == 0 {
        return Err(InvalidFact(ZeroAmount));
      }
      if |pending| >= MAX_PENDING_EXITS {
        return Err(ExitQueueFull);
      }
      var held := if a in minted then minted[a] else 0;
      if amount > held {
        return Err(ExitExceedsMinted);
      }
      if nextExitId == U64_MAX {
        return Err(IdsExhausted);
      }
      minted := minted[a := held - amount];
      var ticket := Ticket(nextExitId, a, amount, destination, SatAdd64(guard.height, exitDelay));
      pending := pending[nextExitId := ticket];
      nextExitId := nextExitId + 1;
      return Ok(ticket);
    }

    /** `finalize_exit`. */
    method FinalizeExit(id: u64) returns (r: Result<Ticket, GatewayError>)
      modifies this
      ensures var b := old(TheBooks()); var e := CheckFinalize(guard, b, id);
        if e.Some? then r == Err(e.value) && Abstract() == old(Abstract())
        else r == Ok(b.pending[id]) && Abstract() == old(Abstract()).(books := Finalize(b, id))
    {
      if guard.globalPause {
        return Err(GlobalPause);
      }
      if IsFrozen(guard) {
        return Err(Frozen(guard.frozenUntil));
      }
      if id !in pending {
        return Err(UnknownExit(id));
      }
      var ticket := pending[id];
      if guard.height < ticket.unlockHeight {
        return Err(ExitNotReady);
      }
      pending := pending - {id};
      return Ok(ticket);
    }

    /** `cancel_exit`. */
    method CancelExit(id: u64) returns (r: Result<Ticket, GatewayError>)
      modifies this
      ensures var b := old(TheBooks());
        if id !in b.pending then r == Err(UnknownExit(id)) && Abstract() == old(Abstract())
        else r == Ok(b.pending[id]) && Abstract() == old(Abstract()).(books := Cancel(b, id))
    {
      if id !in pending {
        return Err(UnknownExit(id));
      }
      var ticket := pending[id];
      pending := pending - {id};
      minted := minted[ticket.asset := SatAdd128(Get(minted, ticket.asset), ticket.amount)];
      return Ok(ticket);
    }

    /** `advance_epoch_to`. */
    method AdvanceEpochTo(epoch: u64)
      modifies this
      ensures Abstract() == old(Abstract()).(books := AdvanceEpoch(old(TheBooks()), epoch))
    {
      if epoch > currentEpoch {
        currentEpoch := epoch;
        epochMinted := 0;
        assetEpochMinted := map[];
      }
    }

    /** `attest_reserve`: Ok(true) when the report tripped the pause. */
    method AttestReserve(verify: Verify, a: Asset, figure: u128, at: u64, sigs: seq<SignerSig>)
      returns (r: Result<bool, GatewayError>)
      modifies this
      ensures var g := old(Abstract()); var e := CheckReserve(verify, g, a, figure, at, sigs);
        if e.Some? then r == Err(e.value) && Abstract() == g
        else r == Ok(SupplyFigure(g.books, a) > figure) && Abstract() == GatewayGuards.AttestReserve(g, a, figure, at)
    {
      var e := ReserveErrors(verify, a, figure, at, sigs);
      if e.Some? {
        return Err(e.value);
      }
      escrowed := escrowed[a := figure];
      reserveReportedAt := reserveReportedAt[a := at];
      var supply := Outstanding(a);
      if supply > figure {
        guard := GatewayGuards.PauseAll(guard);
      }
      return Ok(supply > figure);
    }

    method ReserveErrors(verify: Verify, a: Asset, figure: u128, at: u64, sigs: seq<SignerSig>)
      returns (e: Option<GatewayError>)
      ensures e == CheckReserve(verify, Abstract(), a, figure, at, sigs)
    {
      if reserveMaxAge.None? {
        return Some(ReserveReportsNotRequired);
      }
      if a !in perAssetCap {
        return Some(AssetNotRegistered);
      }
      if guard.height == 0 || at > SatAdd64(guard.height, RESUME_SKEW)
         || guard.height > SatAdd64(at, reserveMaxAge.value) {
        return Some(ReserveReportOutOfWindow);
      }
      if a in reserveReportedAt && at <= reserveReportedAt[a] {
        return Some(ReserveReportReplayed);
      }
      return if QuorumMet(verify, config, ReserveMessage(config, a, figure, at), RESERVE_DOMAIN, sigs) then None
             else Some(TOO_FEW);
    }

    /** `short_reserve`. */
    method ShortReserve() returns (found: bool)
      ensures found <==> Short(TheBooks(), TheReserve())
    {
      var rest := minted.Keys;
      while rest != {}
        invariant rest <= minted.Keys
        invariant forall a :: a in minted && SupplyFigure(TheBooks(), a) > Get(escrowed, a) ==> a in rest
        decreases rest
      {
        var a :| a in rest;
        var supply := Outstanding(a);
        if supply > (if a in escrowed then escrowed[a] else 0) {
          return true;
        }
        rest := rest - {a};
      }
      return false;
    }

    /** `resume_all`. */
    method ResumeAll(verify: Verify, at: u64, sigs: seq<SignerSig>) returns (e: Option<GatewayError>)
      modifies this
      ensures e == CheckResumeAll(verify, old(Abstract()), at, sigs)
      ensures Abstract() == if e.Some? then old(Abstract())
                            else old(Abstract()).(guard := GatewayGuards.ResumeAll(old(guard), at))
    {
      if !guard.globalPause {
        return Some(NotGloballyPaused);
      }
      if at < guard.globalPausedAt || at <= guard.globalResumedAt || !InWindow(guard, at) {
        return Some(ResumeOutOfWindow);
      }
      var short := ShortReserve();
      if short {
        return Some(ReserveShortfall);
      }
      if !QuorumMet(verify, config, HeightMessage(config, at), UNPAUSE_DOMAIN, sigs) {
        return Some(TOO_FEW);
      }
      guard := guard.(globalPause := false, globalResumedAt := at);
      return None;
    }

    /** `watchdog_freeze`. */
    method Watchdog(verify: Verify, until: u64, sig: SignerSig) returns (e: Option<GatewayError>)
      modifies this`guard
      ensures e == CheckWatchdog(verify, config, old(guard), until, sig)
      ensures guard == if e.Some? then old(guard) else WatchdogFreeze(old(guard), until, sig.operatorId)
    {
      if guard.height == 0 {
        return Some(WatchdogWithoutClock);
      }
      if until <= guard.height {
        return Some(WatchdogExpired);
      }
      if until > SatAdd64(guard.height, WATCHDOG_MAX_WINDOW) {
        return Some(WatchdogWindowTooWide);
      }
      if !WatchdogSigned(verify, config, until, sig) {
        return Some(TOO_FEW);
      }
      if Cooling(guard, sig.operatorId) || TooSoon(guard) {
        return Some(GatewayError.WatchdogCooldown);
      }
      guard := guard.(watchdogLast := guard.watchdogLast[sig.operatorId := guard.height]);
      if until > guard.depositFrozenUntil {
        guard := guard.(depositFrozenUntil := until);
      }
      return None;
    }

    method RestoreBooks(s: Saved)
      modifies this`usedRefs, this`refsAnyChain, this`minted, this`pending, this`currentEpoch, this`epochMinted,
        this`assetEpochMinted, this`nextExitId
      ensures TheBooks() == RehydratedBooks(s)
    {
      usedRefs := ToSet(s.refs);
      refsAnyChain := set k | k in usedRefs :: k.ref;
      minted, pending := ToMap(s.minted), TicketMap(s.tickets);
      currentEpoch, epochMinted, assetEpochMinted := s.epoch, s.head.epochMinted, ToMap(s.assetEpoch);
      nextExitId := s.nextExit;
    }

    /** The writes of `rehydrate_guard`. */
    method Restore(s: Saved)
      modifies this
      ensures Abstract() == Rehydrate(old(Abstract()), s)
    {
      RestoreBooks(s);
      escrowed, reserveReportedAt := ToMap(s.escrowed), ToMap(s.reported);
      guard := RehydratedGuard(guard, s);
    }

    /** `rehydrate_guard`: a bad snapshot changes nothing. */
    method RehydrateGuard(bytes: seq<u8>) returns (r: Result<(), CodecError>)
      modifies this
      ensures match DecodeGuard(bytes)
        case Ok(s) => r == Ok(()) && Abstract() == Rehydrate(old(Abstract()), s)
        case Err(e) => r == Err(e) && Abstract() == old(Abstract())
    {
      var decoded := DecodeGuard(bytes);
      if decoded.Err? {
        return Err(decoded.error);
      }
      Restore(decoded.value);
      return Ok(());
    }
  }
}
