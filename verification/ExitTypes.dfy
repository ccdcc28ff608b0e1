/** Records of the exit desk and its journal (q-exits: exits.rs, journal.rs, payout.rs, errors.rs). */
module ExitTypes {
  import opened Machine

  const BPS_DEN: nat := 10_000
  const EXIT_STATEMENT_VERSION: u8 := 1
  const PAYOUT_VERSION: u8 := 1
  const MAX_DEAD_LETTERS: nat := 65_536
  const MAX_JOURNAL_ENTRIES: nat := 8_000_000
  const MAX_LEDGER_ENTRIES: nat := 4_000_000

  // Payloads that only describe an error to an operator are dropped.
  datatype ExitError =
    | UnsafeParams | BadVersion | ZeroAmount | ZeroAsset | ZeroBeneficiary | ZeroBurnRef | ZeroCorridor
    | ReplayedExit | UnknownVault | ThinVault | UnknownExit | NotPending | WindowOpen
    | PayoutMismatch | PayoutUnproven | ReplayedPayout | WrongDestination | UnservedAsset
    | AmountAboveCeiling | Overflow | InvalidArtifact | HeaderDecode | HeaderMismatch | HeightMismatch
    | NotFinalized | BadInclusion | NotABurnLeaf | LeafDecode | BurnRefUnbound | PersistFailed | LedgerFull

  datatype ExitStatement = ExitStatement(
    version: u8, corridor: u32, asset: Bytes16, amount: u128, holder: Bytes32,
    destination: Bytes32, burnRef: Bytes32, finalizedHeight: u64)
  {
    function Validate(): Result<(), ExitError> {
      if version != EXIT_STATEMENT_VERSION then Err(BadVersion)
      else if corridor == 0 then Err(ZeroCorridor)
      else if amount == 0 then Err(ZeroAmount)
      else if asset == ZERO16 then Err(ZeroAsset)
      else if holder == ZERO32 then Err(ZeroBeneficiary)
      else if destination == ZERO32 then Err(ZeroBeneficiary)
      else if burnRef == ZERO32 then Err(ZeroBurnRef)
      else Ok(())
    }
  }

  datatype DeskConfig = DeskConfig(
    corridor: u32, bridgeDestChain: u32, secureBps: u32, premiumBps: u32,
    window: u64, grace: u64, assets: seq<Bytes16>, maxAmount: u128)
  {
    /** The parameter check of `ExitDesk::assemble`. */
    predicate Safe() {
      corridor != 0 && bridgeDestChain != 0 && secureBps > BPS_DEN && BPS_DEN <= premiumBps <= secureBps
    }

    /** `required_collateral`: amount times secure_bps over 10000, in checked u128 arithmetic. */
    function Required(amount: u128): Result<u128, ExitError> {
      if amount * secureBps > U128_MAX then Err(Overflow) else Ok(amount * secureBps / BPS_DEN)
    }

    /** `user_premium`. */
    function Premium(amount: u128): Result<u128, ExitError> {
      if amount * premiumBps > U128_MAX then Err(Overflow) else Ok(amount * premiumBps / BPS_DEN)
    }
  }

  datatype ExitState = Pending | Settled | Slashed

  datatype Exit = Exit(
    statement: ExitStatement, vaultId: u32, locked: u128, issuedAt: u64, deadline: u64, state: ExitState)

  /** What a verified burn proof says; `verify` itself is the proof verifier's business. */
  datatype AuthenticatedBurn = AuthenticatedBurn(
    asset: Bytes16, holder: Bytes32, destination: Bytes32, amount: u128, burnRef: Bytes32,
    destChain: u64, finalizedHeight: u64)

  /** A burn proof as the desk sees it: the verdict of `verify` and the unverified claims. */
  datatype BurnProof = BurnProof(
    verdict: Result<AuthenticatedBurn, ExitError>, height: u64, leafDigest: Bytes32, claimedRef: Option<Bytes32>)

  datatype PayoutAttestation = PayoutAttestation(
    version: u8, corridor: u32, asset: Bytes16, amount: u128, beneficiary: Bytes32,
    burnRef: Bytes32, foreignRef: Bytes32, proofHeight: u64)
  {
    function Validate(): Result<(), ExitError> {
      if version != PAYOUT_VERSION then Err(BadVersion)
      else if corridor == 0 then Err(ZeroCorridor)
      else if amount == 0 then Err(ZeroAmount)
      else if asset == ZERO16 then Err(ZeroAsset)
      else if beneficiary == ZERO32 then Err(ZeroBeneficiary)
      else if burnRef == ZERO32 then Err(ZeroBurnRef)
      else Ok(())
    }

    predicate Covers(s: ExitStatement) {
      corridor == s.corridor && asset == s.asset && amount == s.amount
      && beneficiary == s.destination && burnRef == s.burnRef
    }
  }

  /** A payout watcher's corridor and its answer for the statement at hand. */
  datatype Watcher = Watcher(corridor: u32, answer: Option<PayoutAttestation>)

  datatype DeadReason =
    | Unproven | Malformed | WrongDestinationReason | UnservedAssetReason | AboveCeiling | UnknownVaultReason | Refused

  function ReasonOf(e: ExitError): DeadReason {
    match e
    case HeaderDecode | HeaderMismatch | HeightMismatch | NotFinalized | BadInclusion => Unproven
    case LeafDecode | NotABurnLeaf | BadVersion | ZeroAmount | ZeroAsset | ZeroBeneficiary | ZeroBurnRef
       | ZeroCorridor | InvalidArtifact => Malformed
    case WrongDestination => WrongDestinationReason
    case UnservedAsset => UnservedAssetReason
    case AmountAboveCeiling => AboveCeiling
    case UnknownVault => UnknownVaultReason
    case _ => Refused
  }

  datatype DeadLetter = DeadLetter(
    height: u64, leafDigest: Bytes32, burnRef: Bytes32, reason: DeadReason, recordedAt: u64)

  datatype JournaledExit = JournaledExit(
    version: u8, corridor: u32, asset: Bytes16, amount: u128, holder: Bytes32, destination: Bytes32,
    burnRef: Bytes32, finalizedHeight: u64, vaultId: u32, locked: u128, issuedAt: u64, deadline: u64)

  datatype Event =
    | Opened(index: u32, exit: JournaledExit)
    | SettledBy(index: u32, foreignRef: Bytes32)
    | SlashedAt(index: u32)
    | Lettered(index: u32, letter: DeadLetter)

  /** The live exit an `Open` record stands for. */
  function ExitOf(j: JournaledExit): Exit {
    Exit(ExitStatement(j.version, j.corridor, j.asset, j.amount, j.holder, j.destination, j.burnRef, j.finalizedHeight),
         j.vaultId, j.locked, j.issuedAt, j.deadline, Pending)
  }
}
