# Q-Oracle, modelled and proved in Dafny

Q-Oracle is the off-chain half of a bridge. Operators watch foreign chains and sign what they see; a gateway counts
their signatures, or checks proofs, and admits mints under caps, pauses and freezes; an exit desk pays burns out against
vault collateral and journals every step. This project models those parts and proves what they promise over whole runs:
with storage that fails, processes that crash between two writes and restart, signers and sources that do not answer,
and requests that interleave.

`dafny verify dfyconfig.toml` checks everything.

## How the model is built

Each component is a set of functions on values (the specification of one call), lemmas over every run of those
functions, and, where the program changes state in place, a class or a method with loops whose `ensures` ties it to the
specification.

| part | files |
|---|---|
| fixed-width integers, sums, bytes, readers | `Machine`, `Sums`, `Bytes`, `Codec` |
| facts and envelopes | `Facts`, `Airlock` |
| operators and their divergence journal | `Attestor`, `DivergenceImage`, `Operator`, `OperatorRuns`, `OperatorTheorems`, `OperatorRestart`, `OperatorService` |
| quorum counting and federation agreement | `Quorum`, `Federation` |
| gateway | `GatewayState`, `GatewayBooks`, `GatewayGuards`, `GatewayRuns`, `GatewayCaps`, `Admission`, `Watchdog`, `GatewayService` |
| gateway snapshot and restart | `Sections`, `Snapshot`, `Restart`, `Resuming`, `Lives` |
| clock and interleaved requests | `Clocks`, `ClockService`, `Interleaving` |
| exit desk, vaults, journal | `ExitTypes`, `Vaults`, `Desk`, `DeskAccounts`, `DeskRuns`, `DeskExact`, `DeskTheorems`, `TornSlash`, `DeskService`, `JournalCodec`, `JournalFile`, `JournalStore` |
| burn feed | `Feed`, `FeedService` |
| audit log, JSON | `Audit`, `JsonText`, `JsonParser` |

What stands outside is a parameter and nothing is assumed of it beyond what a lemma says in its `requires`:

- Hashes, keyed tags and signature verification are function parameters. No lemma takes a hash into 32 bytes to be
  injective (none is). Where a result rests on a hash, it asks only that the values in play do not collide: the saved
  journal images of one operator, or the two digests compared. Unforgeability is stated for followers' keys only: a
  signature that verifies was released.
- Storage faults, crashes, clocks, chain answers, payout watchers and proof verifiers are arguments of each step.
- Ordered maps are finite maps; where the source's iteration order reaches a file, the model allows any order.

Integers keep the source's width: `saturating_add` is `SatAdd64`/`SatAdd128`, `checked_add` is a test, `as u32` is
`Truncate32` or the low four bytes. The release profile checks overflow, so `+= 1` past the end of a counter is a panic;
the model has it as a refused call (`IdsExhausted`).

## What was found on the way

Where the code does not keep a promise on every input, the model has the exact condition, proved in both directions, and an
input that fails. Restarts, caps, the breaker, resuming, the seized reserve and failed saves are lifted to whole runs; the
other bullets are about one call.

- An operator can start again after a save exactly when nothing was written and it could before, or the records are within
  the limit and the anchor was written too, or names what the saver stood on, or the very image written
  (`OperatorRestart.SaveLoadsExactly`; over runs `BootRefusedExactly`). So in a running operator a save torn between its
  two writes loads exactly when the anchor is in step with memory, or late on the same image (`TornWhileRunning`), and one
  torn while starting loads exactly when it started from the anchored journal (`TornBootExactly`). One torn save is enough
  after an anchor write that failed late (`TornAfterLate`); two torn in one life still load (`TornTwiceInOneLife`).
- A slash that is due and journaled leaves the desk torn exactly when the seized reserve overflows
  (`DeskTheorems.SlashTearsOnlyOnOverflow`). With the vaults registered first, replay rebuilds the live desk at every moment
  of a run exactly when every slash written, stray ones included, kept the reserve held and handed out within u128
  (`DeskExact.ReplayRebuildsExactly`); a desk where it does not is reached, and its journal no longer replays
  (`TornSlash.SlashTears`). Taking the seized reserve is not journaled, so it is back after a restart, and counts.
- Every supply is within its current cap at every moment of a run exactly when every cap registered covered the supply at
  that moment (`GatewayCaps.WithinCapsExactly`, failing input `LoweredCap`); the highest cap ever registered always
  bounds it.
- The reserve breaker holds at every moment exactly when each unchecked setter, direct unpause and pool installation finds
  the gateway paused or the figures covering (`GatewayRuns.BreakerExactly`, `Interleaving.BreakerInterleaved`,
  `Lives.LivesBreaker`; failing inputs `GatewayCaps.ShortFigure` and `ShortUnpause`). A pool created by request while an
  asset has supply and no figure is such a call.
- After a restart a paused source counts as paused from the snapshot's height. For a pause that was recorded, resuming gets
  stricter, never looser; a source paused directly has no record, and once the height has moved the restarted gateway
  accepts a resume the old one refuses (`Resuming.RestartResumeExactly`, `Lives.ResumeOverLives`, failing input `DirectPauseLooser`). The two stay
  alike exactly as long as every resume is answered alike (`RestartRefines`).
- A rollback after a failed save gives the gateway back, but for the ages of pauses, exactly when the call registered no new
  cap or report age, moved no height and left no corridor stricter, closed or new (`Resuming.RollbackExactly`); books,
  figures and the pause always come back (`RolledBack`).
- A save that fails only in the sync of its directory is rolled back in memory and stays on disk. What a life has used is on
  disk when it ends, and nothing more, exactly unless the snapshot there is of an admission that was rolled back
  (`Lives.UsedIsSaved`, failing input `LandedAdmission`).
- A restart under another configuration is sound exactly when the new epoch cap covers what the epoch had minted
  (`Lives.LivesSound`); conservation, caps and references hold under any.
- The order of signatures leaves the encoding alone exactly when entries with one id carry one signature
  (`Airlock.OrderIgnoredExactly`).
- Appending to a new audit log can report an error after the records landed, exactly when the directory sync fails
  (`Audit.AuditLog.RecordAdmin`).
- The default list of burn heights reads the head a second time; it is complete for every chain exactly when that second
  reading is past the cursor (`Feed.DefaultComplete`); otherwise a drive passes a burn without taking it
  (`DefaultSkips`, `DefaultLoses`).
- An emergency freeze shorter than one that was lifted is accepted and freezes nothing (`Admission.FreezeTakesExactly`, failing
  input `ShortFreeze`).
- The repository's README says an epoch steps forward by one; the code moves to the epoch the chain reports
  (`crates/q-gateway/src/gateway.rs:574-581`). The model follows the code; the mint-rate bound does not depend on it.

## Model

| member | source | states |
|---|---|---|
| Facts.FactRoundTrip | crates/q-codec/src/lib.rs:241-293 | every fact is read back field for field from its 138 bytes; it decodes exactly when its version is known |
| Facts.FactCanonical | crates/q-codec/src/lib.rs:259-293 | any 138 bytes with a known direction tag are the encoding of the fact they hold |
| Facts.PreimageInjective | crates/q-codec/src/lib.rs:310-316 | no two (fact, destination) pairs share what operators sign |
| Codec.TakeLeInverse | crates/q-codec/src/lib.rs:141-180 | a number read and written again is the bytes that were there |
| Codec.Reader.Fixed | crates/q-codec/src/lib.rs:141-185 | reading past the end is refused and moves nothing; otherwise the next bytes and the rest |
| Codec.Reader.Number | crates/q-codec/src/lib.rs:156-178 | little-endian numbers read in place |
| Codec.Reader.Prefixed | crates/q-codec/src/lib.rs:201-217 | length-prefixed bytes read in place |
| Airlock.EncodeOfParse | crates/q-airlock/src/lib.rs:75-125 | canonical: whatever bytes parse are what the artifact encodes to, and only well-formed artifacts parse |
| Airlock.ParseOfEncode | crates/q-airlock/src/lib.rs:49-125 | every well-formed artifact of either kind parses back from its encoding |
| Airlock.AttestationRoundTrip | crates/q-airlock/src/lib.rs:49-115 | an attestation comes back, signatures in id order, if and only if its version is known and its ids are distinct, non-empty and countable |
| Airlock.OrderIgnoredExactly | crates/q-airlock/src/lib.rs:50-62 | the order signatures arrived in does not change the encoding if and only if entries with one id carry one signature (or one is too long to encode) |
| Airlock.WriteAttestation | crates/q-airlock/src/lib.rs:49-63 | the sorting and writing loop computes that encoding, or panics on a signature too long for its prefix |
| Airlock.ReadSigs | crates/q-airlock/src/lib.rs:98-111 | the reader loop with its last-id check is the recursive parse |
| Airlock.ReadAttestation | crates/q-airlock/src/lib.rs:85-115 | the whole parse over a moving reader, errors in order |
| Attestor.TranslateFaithful | crates/q-attestor/src/translator.rs:14-38 | a translated fact carries the observation, decodes, and its deadline is ahead by at most two message windows |
| Attestor.DeadlineWindow | crates/q-attestor/src/translator.rs:14-18 | deadlines are ends of windows, more than one and at most two ahead, equal if and only if the heights share a window; where the sum would pass u64 they saturate |
| Attestor.DigestPreimageInjective | crates/q-attestor/src/operator.rs:47-58 | the divergence digest commits to chain, reference, asset, amount, recipient, height, destination and route |
| DivergenceImage.ImageRoundTrip | crates/q-attestor/src/operator.rs:201-253 | a saved image reads back with its head, and one over the record limit is refused |
| DivergenceImage.AnchorRoundTrip | crates/q-attestor/src/operator.rs:255-275 | anchors read back |
| DivergenceImage.WriteImage | crates/q-attestor/src/operator.rs:201-219 | the record loop of `encode` |
| DivergenceImage.ReadRecords | crates/q-attestor/src/operator.rs:237-246 | the chunk loop of `decode` |
| Operator.DivergenceStoreFaithful | crates/q-attestor/src/operator.rs:201-275 | the files the operator writes satisfy what its runs assume of encodings |
| Operator.RestoreSigned | crates/q-attestor/src/operator.rs:416-443 | of the signed deadlines, those of remembered references come back |
| Operator.RestoreOfExport | crates/q-attestor/src/operator.rs:416-443 | restoring what was exported gives back every sighting, whatever the order |
| Operator.ForgetsOnce | crates/q-attestor/src/operator.rs:399-414 | what pruning forgets is determined: the oldest expired beyond the limit |
| Operator.ForgottenWasExpired | crates/q-attestor/src/operator.rs:399-414 | a forgotten reference was expired while more than 16384 expired ones were held |
| OperatorRuns.LoadCovers | crates/q-attestor/src/operator.rs:288-332 | at any point, a load that succeeds returns every released signature not forgotten |
| OperatorRuns.SaveKeeps | crates/q-attestor/src/operator.rs:334-347 | whatever the two writes do, files and saved images stay a chain that forgets nothing |
| OperatorRuns.RunKeeps | crates/q-attestor/src/operator.rs:351-516 | the invariant over every run of boots, crashes, observations, failed writes and replaced journals |
| OperatorTheorems.OneStoryPerReference | crates/q-attestor/src/operator.rs:445-516 | one operator never releases signatures over two digests for one (chain, reference) it has not forgotten, over all runs |
| OperatorTheorems.TwoStoriesMeanForgotten | crates/q-attestor/src/operator.rs:399-516 | two stories mean the reference was forgotten at some step, expired, with too many expired ones held |
| OperatorTheorems.LoadRemembers | crates/q-attestor/src/operator.rs:288-332 | every successful load in every run returns every released, unforgotten reference with its digest |
| OperatorTheorems.StorySubstance | crates/q-attestor/src/operator.rs:47-58 | equal digests that do not collide are one substance |
| OperatorTheorems.HaltedSignsNothing | crates/q-attestor/src/operator.rs:450-452 | a halted operator releases nothing more and stays halted until it is stopped |
| OperatorTheorems.SignsOnlyFinal | crates/q-attestor/src/operator.rs:445-516 | over every run, whatever was released was signed at some step by a running operator, for a configured corridor, with enough confirmations, over a deadline not signed yet, in agreement with what it remembered |
| OperatorTheorems.ConflictSilences | crates/q-attestor/src/operator.rs:450-476 | after a conflicting observation nothing more is released, however the run goes on, until the operator is stopped |
| OperatorRestart.SaveLoadsExactly | crates/q-attestor/src/operator.rs:288-347 | from any memory, on any disk, whatever the two writes do: exactly when the disk loads after a save |
| OperatorRestart.BootRefusedExactly | crates/q-attestor/src/operator.rs:288-371 | over every run, a start is refused if and only if the last save that reached the journal, or the last replacement or deletion of it, is one that does not load |
| OperatorRestart.ReplacedRefused | crates/q-attestor/src/operator.rs:299-328 | over every run, a journal put back is refused as rolled back if and only if its sequence is below the anchor, a deleted one as missing if and only if there is an anchor |
| OperatorRestart.RunningIsAnchored | crates/q-attestor/src/operator.rs:334-371 | in every run the anchor of a running operator names what its memory stands on, or one image on top of it |
| OperatorRestart.TornWhileRunning | crates/q-attestor/src/operator.rs:312-347 | a save torn in a running operator loads if and only if the records are within the limit and the anchor is in step or late on the same image |
| OperatorRestart.TornBootExactly | crates/q-attestor/src/operator.rs:312-371 | a save torn while starting loads if and only if the start was from the anchored journal, within the limit |
| OperatorRestart.TornAfterLate | crates/q-attestor/src/operator.rs:312-347 | the failing input: one torn save after an anchor write that failed late is refused |
| OperatorRestart.TornTwiceInOneLife | crates/q-attestor/src/operator.rs:312-347 | two saves torn in one life load |
| OperatorService.ChooseForgotten | crates/q-attestor/src/operator.rs:401-413 | collecting, sorting and cutting picks exactly the oldest expired beyond the limit |
| OperatorService.ExportRecords | crates/q-attestor/src/operator.rs:416-433 | the export loop |
| OperatorService.DivergenceJournal.Load | crates/q-attestor/src/operator.rs:288-332 | the load in place, with each refusal |
| OperatorService.DivergenceJournal.Save | crates/q-attestor/src/operator.rs:334-347 | journal then anchor, sequence and head moved only when both were written |
| OperatorService.AttestingOperator.Boot | crates/q-attestor/src/operator.rs:351-371 | load, restore and save again |
| OperatorService.AttestingOperator.PruneExpired | crates/q-attestor/src/operator.rs:399-414 | pruning in place |
| OperatorService.AttestingOperator.ObserveAndSign | crates/q-attestor/src/operator.rs:445-516 | the call in place is the step of the runs, undo on failure included |
| Quorum.VerifiedQuorum | crates/q-gateway/src/operators.rs:138-173 | the loop keeps one valid signature for each operator that has one, and no others; too long a list counts for nothing |
| Quorum.OperatorSet.Register | crates/q-gateway/src/operators.rs:22-32 | refused if and only if another id holds the key; keys stay distinct |
| Quorum.OperatorSet.SetThreshold | crates/q-gateway/src/operators.rs:50-52 | never below the supermajority floor |
| Quorum.FloorAboveTwoThirds | crates/q-gateway/src/gateway.rs:32-35 | the floor is more than two thirds of any set of 32-bit ids: nothing saturates |
| Quorum.QuorumsIntersect | crates/q-gateway/src/gateway.rs:32-35 | two quorums share more than a third of the operators |
| Quorum.SharedGoodSigner | crates/q-gateway/src/operators.rs:22-32 | with at most a third under bad keys, two quorums share an operator under a good key |
| Federation.ClearsBySupermajority | crates/q-gateway/src/gateway.rs:1195-1221 | clearing the quorum check takes a supermajority of registered operators with valid signatures |
| Federation.Agreement | crates/q-gateway/src/gateway.rs:1195-1221 | two envelopes for one (chain, reference) that both clear carry the same asset, amount, recipient, height, destination and route |
| GatewayBooks.MintKeeps | crates/q-gateway/src/gateway.rs:1091-1145 | an admission within its caps keeps conservation, caps, epoch sum and references, and none of its saturating sums saturates |
| GatewayBooks.RequestKeeps | crates/q-gateway/src/gateway.rs:991-1024 | a request keeps all of it and issues an id never issued before |
| GatewayBooks.FinalizeKeeps | crates/q-gateway/src/gateway.rs:1026-1049 | a finalized exit leaves the supply for good |
| GatewayBooks.CancelKeeps | crates/q-gateway/src/gateway.rs:1051-1061 | a cancelled exit goes back to minted, without saturating |
| GatewayBooks.EpochKeeps | crates/q-gateway/src/gateway.rs:574-581 | a new epoch starts from zero on every asset |
| GatewayRuns.RunSound | crates/q-gateway/src/gateway.rs:991-1303 | over every run: minted + pending = admitted - finalized per asset, within the highest cap ever registered; epoch total = sum over assets, within the epoch cap; references and their projection agree; exit ids fresh |
| GatewayCaps.StepWithin | crates/q-gateway/src/gateway.rs:311-313 | one call leaves every supply within its current cap if and only if a cap it registers covers the supply figure |
| GatewayCaps.WithinCapsExactly | crates/q-gateway/src/gateway.rs:1091-1110 | over every run, every supply is within its current cap at every moment if and only if every cap registered covered the supply at that moment |
| GatewayCaps.CapsNotLowered | crates/q-gateway/src/gateway.rs:1091-1110 | while caps are not lowered, every supply is within its current cap over every run |
| GatewayCaps.LoweredCap | crates/q-gateway/src/gateway.rs:311-313 | the failing input: 100 admitted under a cap then lowered to 50 |
| GatewayRuns.AdmittedOnce | crates/q-gateway/src/gateway.rs:1088-1145 | an admission on either path uses a reference never used before, and marks it |
| GatewayRuns.AttestBacked | crates/q-gateway/src/gateway.rs:408-430 | a reserve report keeps the breaker: backed, or paused |
| GatewayRuns.ResumeBacked | crates/q-gateway/src/gateway.rs:534-540 | no shortfall over minted assets covers every escrow figure |
| GatewayRuns.RunBreaker | crates/q-gateway/src/gateway.rs:408-549 | not paused implies every asset with an escrow figure is within it, kept by every run whose callers see what they must |
| GatewayRuns.SetEscrowExactly | crates/q-gateway/src/gateway.rs:319-321 | the setter keeps the breaker if and only if the gateway is paused or the figure set covers the supply figure |
| GatewayRuns.UnpauseExactly | crates/q-gateway/src/gateway.rs:551-554 | unpausing directly keeps it if and only if no asset that the search for a short reserve finds has an escrow figure |
| GatewayRuns.InstallPoolExactly | crates/q-federated/src/pools.rs:298-305 | installing a pool keeps it if and only if paused, a figure is there already, or there is no supply |
| GatewayRuns.StepBreaker | crates/q-gateway/src/gateway.rs:311-554 | every other call keeps it: one condition a caller can check, for every operation, in both directions |
| GatewayRuns.BreakerExactly | crates/q-gateway/src/gateway.rs:408-554 | the breaker holds at every moment of a run if and only if that condition held at every call |
| GatewayCaps.ShortFigure | crates/q-federated/src/pools.rs:298-305 | the failing inputs: a figure set below the supply; a pool installed for an asset with supply and no figure |
| GatewayCaps.ShortUnpause | crates/q-gateway/src/gateway.rs:551-554 | the failing input: a short figure set under a pause, then a direct unpause |
| Watchdog.LaterThanCurrent | crates/q-gateway/src/gateway.rs:927-944 | the last test of a watchdog freeze is always true; spacing and cooldown hold in exact arithmetic |
| Watchdog.RunWatched | crates/q-gateway/src/gateway.rs:896-946 | accepted alarms are at most a window long, a window apart, and eight windows apart for one operator, over every run |
| Watchdog.FrozenAtMost | crates/q-gateway/src/gateway.rs:896-946 | spaced alarms freeze at most (H + W)/2 of the first H heights |
| Lives.WatchdogBound | crates/q-gateway/src/gateway.rs:896-946 | so much and no more, over any number of lives with saved, rolled back and unsaved calls, each taken up from the snapshot on disk under any configuration |
| Lives.LivesSound | crates/q-gateway/src/gateway.rs:991-1424 | conservation and caps over any such lives; every life is taken up sound if and only if each epoch cap configured covers what the epoch had minted |
| Lives.NeverAgain | crates/q-gateway/src/gateway.rs:1088-1424 | a reference admitted in any life is refused on both paths at every moment of every later one |
| Lives.LivesBreaker | crates/q-gateway/src/gateway.rs:408-1424 | the reserve breaker holds at every moment of all lives if and only if its condition held at every call not rolled back, and at one that landed where the life ended |
| Lives.UsedIsSaved | crates/q-runtime/src/persist.rs:273-299 | what a life has used is on disk when it ends; nothing more is, if and only if the snapshot there is not of an admission rolled back |
| Lives.LandedAdmission | crates/q-runtime/src/watch.rs:146-164 | the failing input: a save that fails after its rename leaves the reference on disk and not in memory |
| Lives.LiveSound | crates/q-runtime/src/http.rs:816-957 | a life taken up sound stays sound, in memory and on disk, whatever is saved, rolled back or not saved |
| Lives.ResumeOverLives | crates/q-gateway/src/gateway.rs:556-1424 | at any moment of any life, exactly which resumes a restart makes looser or stricter |
| Admission.TrustlessExactly | crates/q-gateway/src/gateway.rs:1063-1127 | in every sound state, admission by proof goes ahead if and only if the chain is open, the reference unused, and the true supply, epoch and escrow have room |
| Admission.MintExactly | crates/q-gateway/src/gateway.rs:1148-1287 | admission by quorum goes ahead if and only if, besides, the fact is actionable and enough operators signed |
| Admission.StepTickets | crates/q-gateway/src/gateway.rs:991-1061 | tickets never change; a new one is locked for the delay; one is finalized only unlocked, unpaused and unfrozen |
| Admission.TicketsFixed | crates/q-gateway/src/gateway.rs:991-1061 | a ticket pending across a run is the same ticket at its end |
| Admission.FreezeTakesExactly | crates/q-gateway/src/gateway.rs:853-882 | an accepted freeze leaves the gateway frozen if and only if it outlasts the last one or that one was not lifted |
| Admission.ShortFreeze | crates/q-gateway/src/gateway.rs:853-892 | the failing input, a run: frozen until 200, lifted, an accepted freeze until 150, and nothing is frozen |
| Admission.ResumeNotReplayed | crates/q-gateway/src/gateway.rs:638-793 | after a resume, no reorg report or resume of that height or below is accepted, in any later state |
| Admission.GlobalResumeNotReplayed | crates/q-gateway/src/gateway.rs:508-549 | nor a resume of the whole gateway |
| Admission.ReportNotReplayed | crates/q-gateway/src/gateway.rs:367-430 | nor a reserve report of one asset |
| GatewayService.PendingExitOf | crates/q-gateway/src/gateway.rs:489-494 | the saturating fold is the true sum, cut at u128 |
| GatewayService.Gateway.AdmitTrustless | crates/q-gateway/src/gateway.rs:1063-1146 | admission by proof in place |
| GatewayService.Gateway.ProcessDeposit | crates/q-gateway/src/gateway.rs:1148-1303 | admission by quorum in place, checks in the source's order |
| GatewayService.Gateway.RequestExit | crates/q-gateway/src/gateway.rs:991-1024 | request in place |
| GatewayService.Gateway.FinalizeExit | crates/q-gateway/src/gateway.rs:1026-1049 | finalize in place |
| GatewayService.Gateway.CancelExit | crates/q-gateway/src/gateway.rs:1051-1061 | cancel in place |
| GatewayService.Gateway.AdvanceEpochTo | crates/q-gateway/src/gateway.rs:574-581 | epoch change in place |
| GatewayService.Gateway.AttestReserve | crates/q-gateway/src/gateway.rs:367-430 | reserve report in place, true when it tripped the pause |
| GatewayService.Gateway.ShortReserve | crates/q-gateway/src/gateway.rs:534-540 | the search finds a shortfall if and only if there is one |
| GatewayService.Gateway.ResumeAll | crates/q-gateway/src/gateway.rs:508-549 | resume by quorum in place |
| GatewayService.Gateway.Watchdog | crates/q-gateway/src/gateway.rs:896-946 | watchdog freeze in place |
| GatewayService.Gateway.RehydrateGuard | crates/q-gateway/src/gateway.rs:1383-1424 | a bad snapshot changes nothing; a good one is installed whole |
| Sections.SectionRoundTrip | crates/q-gateway/src/gateway.rs:1453-1459 | a counted list passes its bound and reads back, whatever follows |
| Sections.WriteSection | crates/q-gateway/src/gateway.rs:1314-1318 | the write loop of a counted list |
| Sections.ReadSection | crates/q-gateway/src/gateway.rs:1478-1484 | the bounded read loop of a counted list |
| Snapshot.GuardRoundTrip | crates/q-gateway/src/gateway.rs:1305-1624 | decoding an encoded snapshot recovers every persisted field, for any listing order |
| Restart.RehydrateTwice | crates/q-gateway/src/gateway.rs:1383-1424 | rehydrating is idempotent |
| Restart.NeverRelaxes | crates/q-gateway/src/gateway.rs:1414-1422 | no snapshot relaxes a corridor's depth, quorum, tier or closed flag, nor opens one |
| Restart.CorridorsRestored | crates/q-gateway/src/gateway.rs:1414-1422 | corridors come back as saved if and only if the same are registered and none is stricter |
| Restart.RestartFromBytes | crates/q-gateway/src/gateway.rs:1305-1424 | a freshly configured gateway rehydrated from the bytes is the old one, but for when pauses began |
| Restart.SameTrustless | crates/q-gateway/src/gateway.rs:1063-1127 | it answers every admission by proof alike |
| Restart.SameMint | crates/q-gateway/src/gateway.rs:1148-1303 | it answers every admission by quorum alike |
| Restart.RestartSound | crates/q-gateway/src/gateway.rs:1383-1424 | supplies, caps and the breaker survive a restart |
| Resuming.ResumeTellsApart | crates/q-gateway/src/gateway.rs:760-793 | two guards that differ in the ages of pauses answer a resume differently if and only if it is signed for a height between the two ages |
| Resuming.RestartRefines | crates/q-gateway/src/gateway.rs:1383-1424 | a restarted gateway and the old one stay alike over every run if and only if every resume in it is answered alike |
| Resuming.RestartResumeExactly | crates/q-gateway/src/gateway.rs:760-1424 | for a gateway any run of a new one has reached, a restart, and any run answered alike after it: exactly which resumes only the restarted gateway accepts, and exactly which only the old one does |
| Resuming.RestartNoLooser | crates/q-gateway/src/gateway.rs:556-785 | for a recorded pause, or while the height has not moved, a restart makes resuming no looser |
| Resuming.DirectPauseLooser | crates/q-gateway/src/gateway.rs:556-793 | the failing input, from a new gateway: a source paused directly, a snapshot, a restart, and the height moved on in both |
| Resuming.RollbackExactly | crates/q-runtime/src/http.rs:880-957 | a call whose save failed is undone, but for ages of pauses, if and only if it wrote nothing the snapshot cannot take back |
| Resuming.RolledBack | crates/q-runtime/src/http.rs:880-957 | whatever the call, the rollback gives back books, escrow figures and the pause, and the gateway stays sound |
| Clocks.BoundedHead | crates/q-runtime/src/clock.rs:102-113 | never above the report, nor above the origin plus elapsed seconds at the rate plus slack |
| Clocks.FirstBootBounded | crates/q-runtime/src/clock.rs:145-184 | a first boot takes no height past the expected one and the slack, and no epoch past the expected one |
| Clocks.MintRate | crates/q-runtime/src/clock.rs:141-189 | in one clock life, any span admits at most (span / gap + 2) epoch caps |
| Clocks.HeightRate | crates/q-runtime/src/clock.rs:141-189 | the height never falls and stays within origin, rate and slack, however many answers are taken |
| ClockService.ChainClock.Tick | crates/q-runtime/src/clock.rs:141-189 | the tick in place on clock and gateway |
| Interleaving.AttestingIsSigners | crates/q-federated/src/admission.rs:52-57 | the signers asked about one by one are those the quorum counts |
| Interleaving.CommitGood | crates/q-qbridge/src/endpoints.rs:682-709 | a verified deposit commits only what its quorum or proof says, past every guard of that moment |
| Interleaving.InstallSafe | crates/q-qbridge/src/endpoints.rs:466-475 | a store is installed only over the one it was rotated from |
| Interleaving.InterleavingSafe | crates/q-runtime/src/http.rs:851-935 | any interleaving is safe: each reference commits once, every commit is good, installed stores form one chain of rotations |
| Interleaving.BreakerInterleaved | crates/q-qbridge/src/endpoints.rs:317-329 | over any interleaving, pools created by request included, the breaker holds at every moment if and only if each operation kept meets its condition |
| Vaults.VaultBook.RegisterVault | crates/q-exits/src/vault.rs:26-33 | registering in place, saturating, collateral already locked untouched |
| Vaults.VaultBook.LockAnyVault | crates/q-exits/src/vault.rs:47-64 | the tightest vault that covers the amount, or the source's error |
| Vaults.LockTotal | crates/q-exits/src/vault.rs:66-84 | locking moves collateral inside the book |
| Vaults.SeizeTotal | crates/q-exits/src/vault.rs:101-111 | seizing takes it out |
| DeskAccounts.ReplayBalances | crates/q-exits/src/exits.rs:204-270 | in every desk a journal rebuilds, locked is what pending exits lock and free + locked + slashed is what was registered |
| DeskAccounts.ReplayRefsDistinct | crates/q-exits/src/exits.rs:204-270 | no reference of an accepted journal repeats |
| DeskAccounts.ReplayClosesOnce | crates/q-exits/src/exits.rs:204-270 | no accepted journal closes an exit twice |
| DeskRuns.ReplayRebuildsLiveDesk | crates/q-exits/src/exits.rs:204-270 | over every run with failing appends, late registrations and restarts whose pledged collateral fits u128, replaying the journal rebuilds the live desk |
| DeskExact.StepRebuilds | crates/q-exits/src/exits.rs:204-562 | one operation leaves a desk its journal rebuilds if and only if a slash it writes fits the reserve; otherwise the next start that finds the record is refused |
| DeskExact.ReplayRebuildsExactly | crates/q-runtime/src/boot.rs:138-146 | with vaults registered first, whatever they pledge: replay rebuilds the live desk at every moment of a run if and only if every slash written, stray ones included, kept the reserve held and handed out within u128 |
| DeskRuns.RebootRebuilds | crates/q-exits/src/exits.rs:204-270 | a restart succeeds and yields the live desk, plus the stray record if it had reached the disk |
| DeskTheorems.CollateralConserved | crates/q-exits/src/exits.rs:396-562 | collateral is conserved per vault and in total over every run |
| DeskTheorems.ExitsBacked | crates/q-exits/src/exits.rs:292-304 | each exit locks at least its amount and at least the premium |
| DeskTheorems.ErrorsChangeNothing | crates/q-exits/src/exits.rs:396-562 | in every reachable desk, an operation that errs has changed nothing |
| DeskTheorems.SlashTearsOnlyOnOverflow | crates/q-exits/src/exits.rs:529-562 | a due, journaled slash errs if and only if the reserve overflows |
| TornSlash.SlashTears | crates/q-exits/src/exits.rs:529-562 | a run reaches such a desk: the slash fails, the collateral is in neither vault nor reserve, and the next start is refused |
| DeskTheorems.ReferencesUsedOnce | crates/q-exits/src/exits.rs:396-506 | one exit per burn and per payout over whole runs, restarts included |
| DeskTheorems.ExitsAreBurns | crates/q-exits/src/exits.rs:396-467 | over every run, restarts and stray records included, every exit on the desk is a verified burn presented to it, with its terms and full collateral |
| DeskTheorems.DecisionsStand | crates/q-exits/src/exits.rs:340-353 | a decision once given never changes |
| DeskTheorems.SlashNeverEarly | crates/q-exits/src/exits.rs:327-338 | a slash comes strictly after deadline plus grace, in exact arithmetic |
| DeskTheorems.SettledAsAttested | crates/q-exits/src/exits.rs:469-506 | a settled exit was pending and a payout covering it was attested under a fresh reference |
| DeskTheorems.AskedFirst | crates/q-exits/src/exits.rs:508-527 | an overdue exit is slashed only after every watcher's answer showed no payout |
| DeskService.ExitDesk.OpenExit | crates/q-exits/src/exits.rs:396-467 | opening in place, collateral and reference given back when the journal refuses |
| DeskService.ExitDesk.Settle | crates/q-exits/src/exits.rs:469-506 | settling in place |
| DeskService.ExitDesk.Slash | crates/q-exits/src/exits.rs:529-546 | slashing in place |
| DeskService.ExitDesk.CloseOverdue | crates/q-exits/src/exits.rs:508-527 | every watcher is asked before the vault is slashed |
| DeskService.ExitDesk.WriteDeadLetter | crates/q-exits/src/exits.rs:355-384 | one dead letter per leaf |
| DeskService.ExitDesk.Reconstruct | crates/q-exits/src/exits.rs:204-270 | the replay loop in place |
| DeskService.ExitDesk.Record | crates/q-exits/src/ledger.rs:94-103 | the ledger's idempotent, bounded record |
| JournalCodec.BodyRoundTrip | crates/q-exits/src/journal.rs:146-270 | every event is read back from its frame body |
| JournalFile.JournalFormatFaithful | crates/q-exits/src/journal.rs:146-270 | the frame bodies satisfy what the journal's chain assumes of them |
| JournalFile.LoadImage | crates/q-exits/src/journal.rs:272-299 | a file loads as exactly the events its header counts, whatever follows |
| JournalFile.TornFrameRecovers | crates/q-exits/src/journal.rs:378-405 | any prefix of a new frame leaves exactly the old events |
| JournalFile.HeaderCommits | crates/q-exits/src/journal.rs:378-405 | the header over the whole frame commits the new event |
| JournalStore.ReplayStore.AppendFrame | crates/q-exits/src/store.rs:91-109 | a torn tail is cut, then the frame written byte by byte |
| JournalStore.TracesRecover | crates/q-exits/src/journal.rs:378-405 | every content the file passes through recovers to the old events, or those and the new one |
| JournalStore.LoadFrames | crates/q-exits/src/journal.rs:272-299 | the chain-checking load loop |
| JournalStore.CompactImage | crates/q-exits/src/journal.rs:362-374 | compaction rebuilds the file from the events |
| JournalStore.PersistentJournal.Append | crates/q-exits/src/journal.rs:378-405 | append with repair and poisoning: while not poisoned the file decodes to the events in memory |
| JournalStore.Open | crates/q-exits/src/journal.rs:339-360 | reopening after any crash yields the old events or the old and the new, compaction included |
| Feed.PollTakes | crates/q-exits/src/watch.rs:95-136 | a poll takes every burn of the heights it moves past; when it fails there were none |
| Feed.DefaultComplete | crates/q-exits/src/watch.rs:30-34 | the default height list is complete for every chain if and only if its own head is past the cursor |
| Feed.DefaultSkips | crates/q-exits/src/watch.rs:30-136 | with the second reading at or below the cursor, the poll moves past a burn without taking it |
| Feed.DefaultLoses | crates/q-exits/src/feed.rs:78-121 | the failing input: a drive on a new desk after which a burn is neither taken, pending nor decided |
| Feed.AllAccounted | crates/q-exits/src/feed.rs:92-120 | each drive accounts for every proof it took |
| Feed.NoBurnLost | crates/q-exits/src/feed.rs:78-151 | over any run with source errors, storage failures and restarts that drop the pending list, every burn from where the feed began up to the scanned height is consumed, pending or a dead letter |
| Feed.DecidedForGood | crates/q-runtime/src/boot.rs:173-185 | a burn consumed or dead-lettered at any moment stays so through every later event, restarts included |
| FeedService.BurnWatcher.Poll | crates/q-exits/src/watch.rs:95-136 | the poll in place: retain, sort, dedup and scan |
| FeedService.BurnFeed.Drive | crates/q-exits/src/feed.rs:78-121 | the drive in place on feed and desk |
| Audit.EntryWritten | crates/q-runtime/src/persist.rs:76-98 | an accepted entry is the encoding of one, under its number and link |
| Audit.AuditCodingFaithful | crates/q-runtime/src/persist.rs:41-98 | entries read back, and whatever reads is an entry |
| Audit.AcceptedExactly | crates/q-runtime/src/persist.rs:59-114 | accepted if and only if empty under anchor zero, or a header and an unbroken chain through the anchor |
| Audit.LaterLogOpens | crates/q-runtime/src/persist.rs:59-114 | a log with more completed appends opens against any earlier anchor |
| Audit.CutLogRefused | crates/q-runtime/src/persist.rs:108-112 | a log cut before the anchor is refused |
| Audit.Verify | crates/q-runtime/src/persist.rs:59-114 | the verifying loop |
| Audit.AuditLog.RecordAdmin | crates/q-runtime/src/persist.rs:159-217 | all records land chained on, or the log is as it was; an error after they landed if and only if the file was new and its directory sync failed; a file changed behind it is refused |
| JsonText.ParseOfRender | crates/q-runtime/src/json.rs:25-337 | a printed value parses to itself if and only if its keys are distinct and it is within the depth and node budgets |
| JsonText.ParseRenderParse | crates/q-runtime/src/json.rs:126-337 | printing what was parsed and parsing again changes nothing |
| JsonText.ValueWithin | crates/q-runtime/src/json.rs:168-251 | whatever parses is within the budgets and used them exactly |
| JsonText.StringReads | crates/q-runtime/src/json.rs:106-290 | every string reads back from its escaped form |
| JsonParser.ParseText | crates/q-runtime/src/json.rs:126-140 | the parser object computes the recursive parse, and terminates |
| JsonParser.Parser.Value | crates/q-runtime/src/json.rs:168-196 | position, depth and node count move as the recursive parse says |
| JsonParser.Write | crates/q-runtime/src/json.rs:25-55 | the printer's recursion and loops append exactly the rendered text |
| JsonParser.WriteStr | crates/q-runtime/src/json.rs:106-120 | the character loop appends exactly the escaped string |

## Left out

- Light clients and proof verifiers, ML-DSA, SHA3 and the keyed state tag: parameters, as said above.
- Real files, sockets, locks and threads: files with crash points, atomic lock sections, instants as inputs. The in-place overwrite of the journal header is taken as atomic; the sync after it may fail. File locks are the assumption that one process runs per journal.
- Diagnostic payloads and wording of errors: which error is returned is modelled, the figures inside it are not; the JSON parser's errors are one failure.
- Administrative record queue and guard revision of the gateway, batch cursor and governance tier votes: a corridor may change to anything at any time in the runs, which covers them for the properties proved; the snapshot keeps the fields.
- Pool tables, corridor tables and proof-tier matching in `prepare_deposit`: a deposit arrives with its corridor; source declarations and correlation are an arbitrary predicate.
- Null journal and persistent replay ledger: the service uses the persistent journal and the memory ledger.
- PKCS#11 and other signer backends: the signer's answer is an input.
- HTTP parsing, rate limiters, RPC client, environment and anchor-file parsing, hexadecimal helpers of the JSON module: plumbing with easy claims.
- Bitcoin output matching in the payout watcher: its answer is arbitrary and the desk checks it.
- Feed.NoBurnLost: assumes that a block whose events match its header holds the chain's burns and that each has an inclusion proof; authenticity is the proof verifier's business when the exit is opened.
- Interleaving.InterleavingSafe: admissions reach the gateway only through commits; that is how requests are served, and other callers of the admission methods are not interleaved.
- Federation.Agreement: operators that register or leave between the two submissions are not modelled; both clear against one set of keys.
