/** The exit desk's operations and its replay, as functions on the desk (q-exits: exits.rs). */
module Desk {
  import opened Machine
  import opened ExitTypes
  import opened Vaults

  datatype Desk = Desk(
    vaults: Book, exits: seq<Exit>, dead: seq<DeadLetter>, consumed: set<Bytes32>, seized: nat)

  /** The journal as the desk sees it. `stray` is the event whose write failed beyond repair: the journal is
      poisoned, and the event may or may not be on disk. */
  datatype Journal = Journal(events: seq<Event>, stray: Option<Event>)

  datatype Live = Live(desk: Desk, journal: Journal)

  /** What the storage does with one append: the record lands, or it fails and compaction repairs the file or not. */
  datatype Fault = Fault(stored: bool, healed: bool)

  const EMPTY: Desk := Desk(map[], [], [], {}, 0)

  function Append(j: Journal, e: Event, f: Fault): (Journal, Result<(), ExitError>) {
    if j.stray.Some? then (j, Err(PersistFailed))
    else if |j.events| >= MAX_JOURNAL_ENTRIES then (j, Err(LedgerFull))
    else if f.stored then (j.(events := j.events + [e]), Ok(()))
    else (if f.healed then j else j.(stray := Some(e)), Err(PersistFailed))
  }

  /** `MemoryLedger::record`. */
  function Record(c: set<Bytes32>, r: Bytes32): Result<set<Bytes32>, ExitError> {
    if r in c then Ok(c) else if |c| >= MAX_LEDGER_ENTRIES then Err(LedgerFull) else Ok(c + {r})
  }

  /** Every check `open_exit` makes before it touches anything: the statement and the collateral it needs. */
  function Admissible(cfg: DeskConfig, chainId: u64, d: Desk, p: BurnProof): Result<(ExitStatement, u128), ExitError> {
    if p.verdict.Err? then Err(p.verdict.error)
    else
      var b := p.verdict.value;
      var s := ExitStatement(EXIT_STATEMENT_VERSION, cfg.corridor, b.asset, b.amount, b.holder, b.destination,
                             b.burnRef, b.finalizedHeight);
      if b.destChain != chainId then Err(WrongDestination)
      else if b.asset !in cfg.assets then Err(UnservedAsset)
      else if cfg.maxAmount > 0 && b.amount > cfg.maxAmount then Err(AmountAboveCeiling)
      else if s.Validate().Err? then Err(s.Validate().error)
      else if s.burnRef in d.consumed then Err(ReplayedExit)
      else if cfg.Required(s.amount).Err? then Err(Overflow)
      else Ok((s, cfg.Required(s.amount).value))
  }

  function OpenRecord(cfg: DeskConfig, d: Desk, s: ExitStatement, vaultId: u32, locked: u128, now: u64): Event {
    Opened(Truncate32(|d.exits|),
           JournaledExit(s.version, s.corridor, s.asset, s.amount, s.holder, s.destination, s.burnRef,
                         s.finalizedHeight, vaultId, locked, now, SatAdd64(now, cfg.window)))
  }

  ghost function OpenExit(cfg: DeskConfig, chainId: u64, l: Live, p: BurnProof, now: u64, f: Fault)
    : (Live, Result<nat, ExitError>)
  {
    var d := l.desk;
    var ok := Admissible(cfg, chainId, d, p);
    if ok.Err? then (l, Err(ok.error))
    else
      var (s, need) := ok.value;
      var reserve := LockAny(d.vaults, need);
      if reserve.Err? then (l, Err(reserve.error))
      else if |d.consumed| >= MAX_LEDGER_ENTRIES then (l, Err(LedgerFull))
      else
        var (vaultId, book) := reserve.value;
        var e := OpenRecord(cfg, d, s, vaultId, need, now);
        var (j, stored) := Append(l.journal, e, f);
        if stored.Err? then (l.(journal := j), Err(stored.error))
        else
          (Live(d.(vaults := book, consumed := d.consumed + {s.burnRef}, exits := d.exits + [ExitOf(e.exit)]), j),
           Ok(|d.exits|))
  }

  /** Every check `settle` makes before it touches anything: the foreign reference it will consume. */
  function Payable(cfg: DeskConfig, d: Desk, i: nat, w: Watcher): Result<Bytes32, ExitError> {
    if i >= |d.exits| then Err(UnknownExit)
    else if d.exits[i].state != Pending then Err(NotPending)
    else if w.corridor != cfg.corridor then Err(PayoutMismatch)
    else if w.answer.None? then Err(PayoutUnproven)
    else if w.answer.value.Validate().Err? then Err(w.answer.value.Validate().error)
    else if !w.answer.value.Covers(d.exits[i].statement) then Err(PayoutMismatch)
    else if w.answer.value.foreignRef in d.consumed then Err(ReplayedPayout)
    else if |d.consumed| >= MAX_LEDGER_ENTRIES then Err(LedgerFull)
    else Ok(w.answer.value.foreignRef)
  }

  function SetState(exits: seq<Exit>, i: nat, st: ExitState): seq<Exit>
    requires i < |exits|
  {
    exits[i := exits[i].(state := st)]
  }

  /** What `settle` changes once its record is stored. */
  function PayOut(d: Desk, i: nat, foreignRef: Bytes32): (Desk, Result<u128, ExitError>)
    requires i < |d.exits|
  {
    var d1 := d.(exits := SetState(d.exits, i, Settled), consumed := d.consumed + {foreignRef});
    var book := Release(d.vaults, d.exits[i].vaultId, d.exits[i].locked);
    if book.Err? then (d1, Err(book.error)) else (d1.(vaults := book.value), Ok(d.exits[i].locked))
  }

  function Settle(cfg: DeskConfig, l: Live, i: nat, w: Watcher, f: Fault): (Live, Result<u128, ExitError>) {
    var d := l.desk;
    var ok := Payable(cfg, d, i, w);
    if ok.Err? then (l, Err(ok.error))
    else
      var (j, stored) := Append(l.journal, SettledBy(Truncate32(i), ok.value), f);
      if stored.Err? then (l.(journal := j), Err(stored.error))
      else
        var (d1, r) := PayOut(d, i, ok.value);
        (Live(d1, j), r)
  }

  /** `apply_slash`: the vault loses the locked collateral, then the reserve gains it, in checked arithmetic. */
  function ApplySlash(d: Desk, i: nat): (Desk, Result<u128, ExitError>)
    requires i < |d.exits|
  {
    var x := d.exits[i];
    var book := Seize(d.vaults, x.vaultId, x.locked);
    if book.Err? then (d, Err(book.error))
    else if d.seized + x.locked > U128_MAX then (d.(vaults := book.value), Err(Overflow))
    else (d.(vaults := book.value, seized := d.seized + x.locked), Ok(x.locked))
  }

  function SlashOpensAt(cfg: DeskConfig, x: Exit): u64 {
    SatAdd64(x.deadline, cfg.grace)
  }

  /** Every check `slash` makes before it journals. */
  function Slashable(cfg: DeskConfig, d: Desk, i: nat, now: u64): Result<(), ExitError> {
    if i >= |d.exits| then Err(UnknownExit)
    else if d.exits[i].state != Pending then Err(NotPending)
    else if now <= SlashOpensAt(cfg, d.exits[i]) then Err(WindowOpen)
    else if cfg.Premium(d.exits[i].statement.amount).Err? then Err(Overflow)
    else Ok(())
  }

  function Slash(cfg: DeskConfig, l: Live, i: nat, now: u64, f: Fault): (Live, Result<u128, ExitError>) {
    var d := l.desk;
    var ok := Slashable(cfg, d, i, now);
    if ok.Err? then (l, Err(ok.error))
    else
      var (j, stored) := Append(l.journal, SlashedAt(Truncate32(i)), f);
      if stored.Err? then (l.(journal := j), Err(stored.error))
      else
        var (d1, r) := ApplySlash(d.(exits := SetState(d.exits, i, Slashed)), i);
        (Live(d1, j), r)
  }

  predicate ProvesNoPayout(e: ExitError) {
    e in {PayoutUnproven, PayoutMismatch, ReplayedPayout, BadVersion, ZeroCorridor, ZeroAmount, ZeroAsset,
          ZeroBeneficiary, ZeroBurnRef}
  }

  datatype Outcome = SettleOutcome | SlashOutcome

  /** `close_overdue`: every watcher is asked before the vault is slashed. */
  function CloseOverdue(cfg: DeskConfig, l: Live, i: nat, ws: seq<(Watcher, Fault)>, now: u64, f: Fault)
    : (Live, Result<Outcome, ExitError>)
  {
    if i >= |l.desk.exits| then (l, Err(UnknownExit))
    else if l.desk.exits[i].state != Pending then (l, Err(NotPending))
    else AskThenSlash(cfg, l, i, ws, now, f)
  }

  function AskThenSlash(cfg: DeskConfig, l: Live, i: nat, ws: seq<(Watcher, Fault)>, now: u64, f: Fault)
    : (Live, Result<Outcome, ExitError>)
  {
    if ws == [] then
      var (l1, r) := Slash(cfg, l, i, now, f);
      (l1, if r.Ok? then Ok(SlashOutcome) else Err(r.error))
    else
      var (l1, r) := Settle(cfg, l, i, ws[0].0, ws[0].1);
      if r.Ok? then (l1, Ok(SettleOutcome))
      else if ProvesNoPayout(r.error) then AskThenSlash(cfg, l1, i, ws[1..], now, f)
      else (l1, Err(r.error))
  }

  function LetterOf(p: BurnProof, e: ExitError, now: u64): DeadLetter {
    DeadLetter(p.height, p.leafDigest, if p.claimedRef.Some? then p.claimedRef.value else ZERO32, ReasonOf(e), now)
  }

  predicate Lists(dead: seq<DeadLetter>, x: DeadLetter) {
    exists i :: 0 <= i < |dead| && dead[i].height == x.height && dead[i].leafDigest == x.leafDigest
  }

  function WriteDeadLetter(l: Live, p: BurnProof, e: ExitError, now: u64, f: Fault): (Live, Result<(), ExitError>) {
    var x := LetterOf(p, e, now);
    var d := l.desk;
    if Lists(d.dead, x) then (l, Ok(()))
    else if |d.dead| >= MAX_DEAD_LETTERS then (l, Err(LedgerFull))
    else
      var (j, stored) := Append(l.journal, Lettered(Truncate32(|d.dead|), x), f);
      if stored.Err? then (l.(journal := j), Err(stored.error))
      else (Live(d.(dead := d.dead + [x]), j), Ok(()))
  }

  /** One record of `reconstruct`. */
  function Apply(d: Desk, e: Event): Result<Desk, ExitError> {
    match e
    case Opened(index, x) =>
      if index != |d.exits| || x.burnRef in d.consumed then Err(PersistFailed)
      else
        var book := Lock(d.vaults, x.vaultId, x.locked);
        var refs := Record(d.consumed, x.burnRef);
        if book.Err? then Err(book.error)
        else if refs.Err? then Err(refs.error)
        else Ok(d.(vaults := book.value, consumed := refs.value, exits := d.exits + [ExitOf(x)]))
    case SettledBy(index, foreignRef) =>
      if foreignRef in d.consumed || index >= |d.exits| || d.exits[index].state != Pending then Err(PersistFailed)
      else
        var refs := Record(d.consumed, foreignRef);
        var book := Release(d.vaults, d.exits[index].vaultId, d.exits[index].locked);
        if refs.Err? then Err(refs.error)
        else if book.Err? then Err(book.error)
        else Ok(d.(vaults := book.value, consumed := refs.value, exits := SetState(d.exits, index, Settled)))
    case SlashedAt(index) =>
      if index >= |d.exits| || d.exits[index].state != Pending then Err(PersistFailed)
      else
        var (d1, r) := ApplySlash(d.(exits := SetState(d.exits, index, Slashed)), index);
        if r.Err? then Err(r.error) else Ok(d1)
    case Lettered(index, letter) =>
      if index != |d.dead| then Err(PersistFailed) else Ok(d.(dead := d.dead + [letter]))
  }

  /** `reconstruct`: the records applied in order, stopping at the first refusal. */
  function Replay(d: Desk, events: seq<Event>): Result<Desk, ExitError> {
    if events == [] then Ok(d)
    else
      var r := Replay(d, events[..|events| - 1]);
      if r.Err? then r else Apply(r.value, events[|events| - 1])
  }

  lemma ReplayAppend(d: Desk, events: seq<Event>, e: Event)
    ensures Replay(d, events + [e]) ==
            if Replay(d, events).Err? then Replay(d, events) else Apply(Replay(d, events).value, e)
  {
    assert (events + [e])[..|events|] == events;
  }
}
