/** The exit desk as an object: fields changed in place, rollbacks written out (q-exits: exits.rs). */
module DeskService {
  import opened Machine
  import opened ExitTypes
  import opened Vaults
  import opened JournalStore
  import D = Desk

  class ExitDesk {
    const cfg: DeskConfig
    const chainId: u64
    const vaults: VaultBook
    const journal: PersistentJournal
    var exits: seq<Exit>
    var dead: seq<DeadLetter>
    var consumed: set<Bytes32>
    var seized: u128

    ghost predicate Valid()
      reads this, journal, journal.store
    {
      journal.Valid()
    }

    ghost function Desk(): D.Desk
      reads this, vaults
    {
      D.Desk(vaults.vaults, exits, dead, consumed, seized)
    }

    ghost function View(): D.Live
      reads this, vaults, journal
    {
      D.Live(Desk(), journal.View())
    }

    /** `assemble`: a fresh desk over an open journal, refused on unsafe parameters. */
    constructor (cfg: DeskConfig, chainId: u64, journal: PersistentJournal)
      requires journal.Valid()
      ensures Valid() && Desk() == D.EMPTY && this.journal == journal && this.cfg == cfg && this.chainId == chainId
      ensures fresh(vaults)
    {
      this.cfg := cfg;
      this.chainId := chainId;
      this.journal := journal;
      this.vaults := new VaultBook();
      this.exits := [];
      this.dead := [];
      this.consumed := {};
      this.seized := 0;
    }

    method Record(r: Bytes32) returns (ok: Result<(), ExitError>)
      modifies this`consumed
      ensures match D.Record(old(consumed), r)
        case Ok(c) => ok == Ok(()) && consumed == c
        case Err(e) => ok == Err(e) && consumed == old(consumed)
    {
      if r in consumed {
        return Ok(());
      }
      if |consumed| >= MAX_LEDGER_ENTRIES {
        return Err(LedgerFull);
      }
      consumed := consumed + {r};
      ok := Ok(());
    }

    /** The collateral and the burn reference of a new exit, both taken or neither. */
    method Take(burnRef: Bytes32, need: u128) returns (r: Result<u32, ExitError>)
      requires burnRef !in consumed
      modifies this`consumed, vaults
      ensures r.Err? ==> vaults.vaults == old(vaults.vaults) && consumed == old(consumed)
      ensures var any := LockAny(old(vaults.vaults), need);
        if any.Err? then r == Err(any.error)
        else if |old(consumed)| >= MAX_LEDGER_ENTRIES then r == Err(LedgerFull)
        else r == Ok(any.value.0) && vaults.vaults == any.value.1 && consumed == old(consumed) + {burnRef}
    {
      var chosen := vaults.LockAnyVault(need);
      if chosen.Err? {
        return Err(chosen.error);
      }
      var recorded := Record(burnRef);
      if recorded.Err? {
        var undone := vaults.ReleaseVault(chosen.value, need);
        assert vaults.vaults == old(vaults.vaults);
        return Err(recorded.error);
      }
      r := Ok(chosen.value);
    }

    /** The rollback of `Take`: it restores the book and the ledger exactly. */
    method GiveBack(burnRef: Bytes32, vaultId: u32, need: u128, ghost book: Book, ghost refs: set<Bytes32>)
      requires burnRef !in refs && consumed == refs + {burnRef} && Lock(book, vaultId, need) == Ok(vaults.vaults)
      modifies this`consumed, vaults
      ensures vaults.vaults == book && consumed == refs
    {
      consumed := consumed - {burnRef};
      var undone := vaults.ReleaseVault(vaultId, need);
    }

    /** `open_exit`: collateral and the reference are taken first and given back when the journal refuses. */
    method OpenExit(proof: BurnProof, now: u64, fault: StoreFault) returns (r: Result<nat, ExitError>)
      requires Valid()
      modifies this, vaults, journal, journal.store
      ensures Valid()
      ensures (View(), r) == D.OpenExit(cfg, chainId, old(View()), proof, now, fault.Seen())
    {
      var ok := D.Admissible(cfg, chainId, D.Desk(vaults.vaults, exits, dead, consumed, seized), proof);
      if ok.Err? {
        return Err(ok.error);
      }
      var statement, need := ok.value.0, ok.value.1;
      var taken := Take(statement.burnRef, need);
      if taken.Err? {
        return Err(taken.error);
      }
      var e := D.OpenRecord(cfg, D.Desk(vaults.vaults, exits, dead, consumed, seized), statement, taken.value, need, now);
      var stored := journal.Append(e, fault);
      if stored.Err? {
        GiveBack(statement.burnRef, taken.value, need, old(vaults.vaults), old(consumed));
        return Err(stored.error);
      }
      exits := exits + [ExitOf(e.exit)];
      r := Ok(|exits| - 1);
    }

    /** The checks of `settle` before it records anything: the foreign reference to consume. */
    method CheckPayout(i: nat, watcher: Watcher) returns (r: Result<Bytes32, ExitError>)
      ensures var p := D.Payable(cfg, Desk(), i, watcher);
        if r.Err? then p == Err(r.error)
        else i < |exits| && r.value !in consumed
             && p == if |consumed| >= MAX_LEDGER_ENTRIES then Err(LedgerFull) else Ok(r.value)
    {
      if i >= |exits| {
        return Err(UnknownExit);
      }
      if exits[i].state != Pending {
        return Err(NotPending);
      }
      if watcher.corridor != cfg.corridor {
        return Err(PayoutMismatch);
      }
      if watcher.answer.None? {
        return Err(PayoutUnproven);
      }
      var attestation := watcher.answer.value;
      if attestation.Validate().Err? {
        return Err(attestation.Validate().error);
      }
      if !attestation.Covers(exits[i].statement) {
        return Err(PayoutMismatch);
      }
      if attestation.foreignRef in consumed {
        return Err(ReplayedPayout);
      }
      return Ok(attestation.foreignRef);
    }

    /** `settle`. */
    method Settle(i: nat, watcher: Watcher, fault: StoreFault) returns (r: Result<u128, ExitError>)
      requires Valid()
      modifies this, vaults, journal, journal.store
      ensures Valid()
      ensures (View(), r) == D.Settle(cfg, old(View()), i, watcher, fault.Seen())
    {
      var payout := CheckPayout(i, watcher);
      if payout.Err? {
        return Err(payout.error);
      }
      SettlesBy(cfg, View(), i, watcher, payout.value, fault.Seen());
      r := SettleWith(i, payout.value, fault);
    }

    /** `settle` past its checks. */
    method SettleWith(i: nat, foreignRef: Bytes32, fault: StoreFault) returns (r: Result<u128, ExitError>)
      requires Valid() && i < |exits| && foreignRef !in consumed
      modifies this, vaults, journal, journal.store
      ensures Valid()
      ensures (View(), r) == SettleBy(old(View()), i, foreignRef, fault.Seen())
    {
      var stored := RecordSettlement(i, foreignRef, fault);
      if stored.Err? {
        return Err(stored.error);
      }
      r := PayOut(i, old(consumed), foreignRef);
    }

    /** The foreign reference is consumed and the settlement journaled, both or neither. */
    method RecordSettlement(i: nat, foreignRef: Bytes32, fault: StoreFault) returns (r: Result<(), ExitError>)
      requires Valid() && foreignRef !in consumed
      modifies this`consumed, journal, journal.store
      ensures Valid()
      ensures if |old(consumed)| >= MAX_LEDGER_ENTRIES
        then r == Err(LedgerFull) && journal.View() == old(journal.View())
        else (journal.View(), r) == D.Append(old(journal.View()), SettledBy(Truncate32(i), foreignRef), fault.Seen())
      ensures consumed == if r.Ok? then old(consumed) + {foreignRef} else old(consumed)
    {
      var recorded := Record(foreignRef);
      if recorded.Err? {
        return Err(recorded.error);
      }
      r := journal.Append(SettledBy(Truncate32(i), foreignRef), fault);
      if r.Err? {
        consumed := consumed - {foreignRef};
      }
    }

    /** The exit is marked settled, then its collateral released. */
    method PayOut(i: nat, ghost before: set<Bytes32>, ghost foreignRef: Bytes32) returns (r: Result<u128, ExitError>)
      requires i < |exits| && consumed == before + {foreignRef}
      modifies this`exits, vaults
      ensures (Desk(), r) == D.PayOut(old(Desk()).(consumed := before), i, foreignRef)
    {
      var vaultId, locked := exits[i].vaultId, exits[i].locked;
      exits := D.SetState(exits, i, Settled);
      var released := vaults.ReleaseVault(vaultId, locked);
      r := if released.Ok? then Ok(locked) else Err(released.error);
    }

    /** `apply_slash`. */
    method ApplySlash(i: nat) returns (r: Result<u128, ExitError>)
      requires i < |exits|
      modifies this`seized, vaults
      ensures (Desk(), r) == D.ApplySlash(old(Desk()), i)
    {
      var vaultId, locked := exits[i].vaultId, exits[i].locked;
      var taken := vaults.SeizeVault(vaultId, locked);
      if taken.Err? {
        return Err(taken.error);
      }
      if seized + locked > U128_MAX {
        return Err(Overflow);
      }
      seized := seized + locked;
      r := Ok(locked);
    }

    /** `slash`. */
    method Slash(i: nat, now: u64, fault: StoreFault) returns (r: Result<u128, ExitError>)
      requires Valid()
      modifies this, vaults, journal, journal.store
      ensures Valid()
      ensures (View(), r) == D.Slash(cfg, old(View()), i, now, fault.Seen())
    {
      if i >= |exits| {
        return Err(UnknownExit);
      }
      if exits[i].state != Pending {
        return Err(NotPending);
      }
      if now <= D.SlashOpensAt(cfg, exits[i]) {
        return Err(WindowOpen);
      }
      if cfg.Premium(exits[i].statement.amount).Err? {
        return Err(Overflow);
      }
      var stored := journal.Append(SlashedAt(Truncate32(i)), fault);
      if stored.Err? {
        return Err(stored.error);
      }
      exits := D.SetState(exits, i, Slashed);
      r := ApplySlash(i);
    }

    /** `close_overdue`: the loop over the watchers, then the slash. */
    method CloseOverdue(i: nat, watchers: seq<(Watcher, StoreFault)>, now: u64, fault: StoreFault)
      returns (r: Result<D.Outcome, ExitError>)
      requires Valid()
      modifies this, vaults, journal, journal.store
      ensures Valid()
      ensures (View(), r) == D.CloseOverdue(cfg, old(View()), i, Answers(watchers), now, fault.Seen())
    {
      if i >= |exits| {
        return Err(UnknownExit);
      }
      if exits[i].state != Pending {
        return Err(NotPending);
      }
      var n := 0;
      ghost var start := View();
      assert watchers[0..] == watchers;
      while n < |watchers|
        invariant n <= |watchers| && Valid()
        invariant D.AskThenSlash(cfg, start, i, Answers(watchers), now, fault.Seen())
               == D.AskThenSlash(cfg, View(), i, Answers(watchers[n..]), now, fault.Seen())
      {
        assert watchers[n..][1..] == watchers[n + 1..];
        var settled := Settle(i, watchers[n].0, watchers[n].1);
        if settled.Ok? {
          return Ok(D.SettleOutcome);
        }
        if !D.ProvesNoPayout(settled.error) {
          return Err(settled.error);
        }
        n := n + 1;
      }
      var slashed := Slash(i, now, fault);
      r := if slashed.Ok? then Ok(D.SlashOutcome) else Err(slashed.error);
    }

    /** The scan for a letter already held for the same leaf. */
    method Listed(letter: DeadLetter) returns (found: bool)
      ensures found == D.Lists(dead, letter)
    {
      var k := 0;
      while k < |dead|
        invariant k <= |dead|
        invariant forall j :: 0 <= j < k ==> dead[j].height != letter.height || dead[j].leafDigest != letter.leafDigest
      {
        if dead[k].height == letter.height && dead[k].leafDigest == letter.leafDigest {
          return true;
        }
        k := k + 1;
      }
      found := false;
    }

    /** `dead_letter`. */
    method WriteDeadLetter(proof: BurnProof, error: ExitError, now: u64, fault: StoreFault)
      returns (r: Result<(), ExitError>)
      requires Valid()
      modifies this, vaults, journal, journal.store
      ensures Valid()
      ensures (View(), r) == D.WriteDeadLetter(old(View()), proof, error, now, fault.Seen())
    {
      var letter := D.LetterOf(proof, error, now);
      var listed := Listed(letter);
      if listed {
        return Ok(());
      }
      if |dead| >= MAX_DEAD_LETTERS {
        return Err(LedgerFull);
      }
      var stored := journal.Append(Lettered(Truncate32(|dead|), letter), fault);
      if stored.Err? {
        return Err(stored.error);
      }
      dead := dead + [letter];
      r := Ok(());
    }

    /** One record of `reconstruct`, applied in place. */
    method ApplyRecord(e: Event) returns (r: Result<(), ExitError>)
      modifies this, vaults
      ensures match D.Apply(old(Desk()), e) case Ok(d) => r == Ok(()) && Desk() == d case Err(x) => r == Err(x)
    {
      match e
      case Opened(index, x) =>
        if index != |exits| || x.burnRef in consumed {
          return Err(PersistFailed);
        }
        var locked := vaults.LockVault(x.vaultId, x.locked);
        if locked.Err? {
          return Err(locked.error);
        }
        r := Record(x.burnRef);
        if r.Err? {
          return;
        }
        exits := exits + [ExitOf(x)];
      case SettledBy(index, foreignRef) =>
        if foreignRef in consumed || index >= |exits| || exits[index].state != Pending {
          return Err(PersistFailed);
        }
        var vaultId, locked := exits[index].vaultId, exits[index].locked;
        exits := D.SetState(exits, index, Settled);
        r := Record(foreignRef);
        if r.Err? {
          return;
        }
        var released := vaults.ReleaseVault(vaultId, locked);
        r := if released.Ok? then Ok(()) else Err(released.error);
      case SlashedAt(index) =>
        if index >= |exits| || exits[index].state != Pending {
          return Err(PersistFailed);
        }
        exits := D.SetState(exits, index, Slashed);
        var slashed := ApplySlash(index);
        r := if slashed.Ok? then Ok(()) else Err(slashed.error);
      case Lettered(index, letter) =>
        if index != |dead| {
          return Err(PersistFailed);
        }
        dead := dead + [letter];
        r := Ok(());
    }

    /** The loop of `reconstruct`. */
    method ReplayEvents(events: seq<Event>) returns (r: Result<(), ExitError>)
      modifies this, vaults
      ensures match D.Replay(old(Desk()), events) case Ok(d) => r == Ok(()) && Desk() == d case Err(x) => r == Err(x)
    {
      var k := 0;
      while k < |events|
        invariant k <= |events|
        invariant D.Replay(old(Desk()), events[..k]) == Ok(Desk())
      {
        D.ReplayAppend(old(Desk()), events[..k], events[k]);
        assert events[..k + 1] == events[..k] + [events[k]];
        r := ApplyRecord(events[k]);
        if r.Err? {
          ReplayStops(old(Desk()), events, k + 1);
          return;
        }
        k := k + 1;
      }
      assert events[..k] == events;
      r := Ok(());
    }

    /** `reconstruct`: the journal's records, applied to this desk; the journal is only read. */
    method Reconstruct() returns (r: Result<(), ExitError>)
      requires Valid()
      modifies this, vaults
      ensures Valid() && journal.View() == old(journal.View())
      ensures match D.Replay(old(Desk()), journal.events)
        case Ok(d) => r == Ok(()) && Desk() == d
        case Err(x) => r == Err(x)
    {
      r := ReplayEvents(journal.events);
    }
  }

  /** The desk's `settle` once the payout is known to be good. */
  ghost function SettleBy(l: D.Live, i: nat, foreignRef: Bytes32, f: D.Fault): (D.Live, Result<u128, ExitError>)
    requires i < |l.desk.exits|
  {
    if |l.desk.consumed| >= MAX_LEDGER_ENTRIES then (l, Err(LedgerFull))
    else
      var (j, stored) := D.Append(l.journal, SettledBy(Truncate32(i), foreignRef), f);
      if stored.Err? then (l.(journal := j), Err(stored.error))
      else
        var (d1, r) := D.PayOut(l.desk, i, foreignRef);
        (D.Live(d1, j), r)
  }

  lemma SettlesBy(cfg: DeskConfig, l: D.Live, i: nat, w: Watcher, foreignRef: Bytes32, f: D.Fault)
    requires i < |l.desk.exits|
    requires D.Payable(cfg, l.desk, i, w)
          == if |l.desk.consumed| >= MAX_LEDGER_ENTRIES then Err(LedgerFull) else Ok(foreignRef)
    ensures D.Settle(cfg, l, i, w, f) == SettleBy(l, i, foreignRef, f)
  {}

  function Answers(ws: seq<(Watcher, StoreFault)>): seq<(Watcher, D.Fault)> {
    if ws == [] then [] else [(ws[0].0, ws[0].1.Seen())] + Answers(ws[1..])
  }

  /** The first refused record decides the result. */
  lemma {:induction false} ReplayStops(d: D.Desk, events: seq<Event>, k: nat)
    requires k <= |events| && D.Replay(d, events[..k]).Err?
    ensures D.Replay(d, events) == D.Replay(d, events[..k])
    decreases |events|
  {
    var n := |events| - 1;
    if k <= n {
      assert events[..n][..k] == events[..k];
      ReplayStops(d, events[..n], k);
    } else {
      assert events[..k] == events;
    }
  }
}
