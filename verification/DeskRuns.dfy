/** Whole runs of the exit desk with failing storage, crashes and restarts. */
module DeskRuns {
  import opened Machine
  import opened Sums
  import opened ExitTypes
  import opened Vaults
  import opened Desk
  import opened DeskAccounts

  datatype Op =
    | Register(id: u32, collateral: u128)
    | Open(proof: BurnProof, now: u64, f: Fault)
    | SettleExit(i: nat, w: Watcher, f: Fault)
    | SlashExit(i: nat, now: u64, f: Fault)
    | Close(i: nat, ws: seq<(Watcher, Fault)>, now: u64, f: Fault)
    | Letter(proof: BurnProof, error: ExitError, now: u64, f: Fault)
    | TakeReserve
    | Restart(landed: bool)

  /** The service: the live desk, the vault registrations so far, and the reserve handed out since the last start. */
  datatype System = System(live: Live, regs: seq<(u32, u128)>, taken: nat)

  const START: System := System(Live(EMPTY, Journal([], None)), [], 0)

  function RegisterAll(regs: seq<(u32, u128)>): Book {
    if regs == [] then map[]
    else Vaults.Register(RegisterAll(regs[..|regs| - 1]), regs[|regs| - 1].0, regs[|regs| - 1].1)
  }

  function RegTotal(regs: seq<(u32, u128)>): nat {
    if regs == [] then 0 else RegTotal(regs[..|regs| - 1]) + regs[|regs| - 1].1
  }

  /** The records a restart reads back: a stray record may have reached the disk. */
  function OnDisk(j: Journal, landed: bool): seq<Event> {
    if landed && j.stray.Some? then j.events + [j.stray.value] else j.events
  }

  /** A restart configures a fresh desk, registers its vaults and replays the journal. */
  function Reboot(s: System, landed: bool): Result<System, ExitError> {
    var events := OnDisk(s.live.journal, landed);
    var d := Replay(Registered(RegisterAll(s.regs)), events);
    if d.Err? then Err(d.error) else Ok(System(Live(d.value, Journal(events, None)), s.regs, 0))
  }

  ghost function Step(cfg: DeskConfig, chain: u64, s: System, op: Op): Result<System, ExitError> {
    match op
    case Register(id, c) =>
      Ok(s.(live := s.live.(desk := s.live.desk.(vaults := Vaults.Register(s.live.desk.vaults, id, c))),
            regs := s.regs + [(id, c)]))
    case Open(p, now, f) => Ok(s.(live := OpenExit(cfg, chain, s.live, p, now, f).0))
    case SettleExit(i, w, f) => Ok(s.(live := Settle(cfg, s.live, i, w, f).0))
    case SlashExit(i, now, f) => Ok(s.(live := Slash(cfg, s.live, i, now, f).0))
    case Close(i, ws, now, f) => Ok(s.(live := CloseOverdue(cfg, s.live, i, ws, now, f).0))
    case Letter(p, e, now, f) => Ok(s.(live := WriteDeadLetter(s.live, p, e, now, f).0))
    case TakeReserve => Ok(s.(live := s.live.(desk := s.live.desk.(seized := 0)), taken := s.taken + s.live.desk.seized))
    case Restart(landed) => Reboot(s, landed)
  }

  ghost function Run(cfg: DeskConfig, chain: u64, ops: seq<Op>): Result<System, ExitError> {
    if ops == [] then Ok(START)
    else
      var r := Run(cfg, chain, ops[..|ops| - 1]);
      if r.Err? then r else Step(cfg, chain, r.value, ops[|ops| - 1])
  }

  /** All collateral the run registers. */
  function Pledged(ops: seq<Op>): nat {
    if ops == [] then 0
    else Pledged(ops[..|ops| - 1]) + (match ops[|ops| - 1] case Register(_, c) => c case _ => 0)
  }

  // ---------------------------------------------------------------- the invariant

  /** The live desk with the handed-out reserve put back: what the journal alone can know. */
  function Rebuilt(s: System): Desk {
    s.live.desk.(seized := s.live.desk.seized + s.taken)
  }

  predicate Priced(cfg: DeskConfig, exits: seq<Exit>) {
    forall i :: 0 <= i < |exits| ==> cfg.Required(exits[i].statement.amount) == Ok(exits[i].locked)
  }

  predicate PricedRecord(cfg: DeskConfig, e: Event) {
    e.Opened? ==> cfg.Required(e.exit.amount) == Ok(e.exit.locked)
  }

  /** Replaying the journal rebuilds the live desk, and a stray record would replay too. */
  predicate Rebuilds(cfg: DeskConfig, s: System) {
    && |s.live.journal.events| <= MAX_JOURNAL_ENTRIES
    && Replay(Registered(RegisterAll(s.regs)), s.live.journal.events) == Ok(Rebuilt(s))
    && Priced(cfg, s.live.desk.exits)
    && StraySound(cfg, s)
  }

  /** And all pledged collateral fits u128. */
  predicate Sound(cfg: DeskConfig, s: System) {
    RegTotal(s.regs) <= U128_MAX && Rebuilds(cfg, s)
  }

  predicate StraySound(cfg: DeskConfig, s: System) {
    s.live.journal.stray.Some? ==>
      && |s.live.journal.events| < MAX_JOURNAL_ENTRIES
      && Apply(Rebuilt(s), s.live.journal.stray.value).Ok?
      && PricedRecord(cfg, s.live.journal.stray.value)
  }

  lemma {:induction false} RegisterAllTotal(regs: seq<(u32, u128)>)
    requires RegTotal(regs) <= U128_MAX
    ensures AllFree(RegisterAll(regs)) && BookTotal(RegisterAll(regs)) == RegTotal(regs)
  {
    if regs != [] {
      var n := |regs| - 1;
      RegisterAllTotal(regs[..n]);
      RegisterTotal(RegisterAll(regs[..n]), regs[n].0, regs[n].1);
    }
  }

  lemma ApplyCounts(d: Desk, e: Event)
    requires Apply(d, e).Ok?
    ensures |Apply(d, e).value.exits| + |Apply(d, e).value.dead| <= |d.exits| + |d.dead| + 1
  {}

  lemma {:induction false} ReplayCounts(b: Book, events: seq<Event>)
    requires Replay(Registered(b), events).Ok?
    ensures |Replay(Registered(b), events).value.exits| + |Replay(Registered(b), events).value.dead| <= |events|
  {
    if events != [] {
      var n := |events| - 1;
      ReplayCounts(b, events[..n]);
      ApplyCounts(Replay(Registered(b), events[..n]).value, events[n]);
    }
  }

  lemma {:induction false} RegisterAllFree(regs: seq<(u32, u128)>)
    ensures AllFree(RegisterAll(regs))
  {
    if regs != [] {
      RegisterAllFree(regs[..|regs| - 1]);
    }
  }

  /** Every pending exit's collateral can be released, and seized from its vault, without overflow. */
  lemma Payout(cfg: DeskConfig, s: System, i: nat)
    requires Rebuilds(cfg, s) && i < |s.live.desk.exits| && s.live.desk.exits[i].state == Pending
    ensures var x := s.live.desk.exits[i];
      && x.vaultId in s.live.desk.vaults
      && x.locked <= s.live.desk.vaults[x.vaultId].locked
      && s.live.desk.vaults[x.vaultId].free + x.locked <= U128_MAX
  {
    var b := RegisterAll(s.regs);
    RegisterAllFree(s.regs);
    ReplayBalances(b, s.live.journal.events);
    PendingIsLocked(b, Rebuilt(s), i);
  }

  /** When all pledged collateral fits u128, so does the reserve with the exit's collateral added. */
  lemma ReserveFits(cfg: DeskConfig, s: System, i: nat)
    requires Sound(cfg, s) && i < |s.live.desk.exits| && s.live.desk.exits[i].state == Pending
    ensures SlashFits(s, i)
  {
    Payout(cfg, s, i);
    var b := RegisterAll(s.regs);
    RegisterAllTotal(s.regs);
    ReplayBalances(b, s.live.journal.events);
    var h: map<u32, nat> := Holdings(s.live.desk.vaults);
    MapSumMember(h, s.live.desk.exits[i].vaultId);
  }

  /** The reserve handed out and the one held, with the exit's collateral added, fit u128. */
  predicate SlashFits(s: System, i: nat)
    requires i < |s.live.desk.exits|
  {
    s.live.desk.seized + s.taken + s.live.desk.exits[i].locked <= U128_MAX
  }

  // ---------------------------------------------------------------- each record the desk writes replays

  lemma OpenReplays(cfg: DeskConfig, chain: u64, d: Desk, p: BurnProof, now: u64, seized: nat)
    requires |d.exits| < MAX_JOURNAL_ENTRIES && |d.consumed| < MAX_LEDGER_ENTRIES
    requires Admissible(cfg, chain, d, p).Ok?
    requires LockAny(d.vaults, Admissible(cfg, chain, d, p).value.1).Ok?
    ensures var (st, need) := Admissible(cfg, chain, d, p).value;
            var (v, book) := LockAny(d.vaults, need).value;
            var e := OpenRecord(cfg, d, st, v, need, now);
            && Apply(d.(seized := seized), e)
               == Ok(d.(seized := seized, vaults := book, consumed := d.consumed + {st.burnRef}, exits := d.exits + [ExitOf(e.exit)]))
            && PricedRecord(cfg, e)
  {}

  lemma SettleReplays(d: Desk, i: nat, r: Bytes32, seized: nat)
    requires i < |d.exits| < MAX_JOURNAL_ENTRIES + 1 && d.exits[i].state == Pending
    requires r !in d.consumed && |d.consumed| < MAX_LEDGER_ENTRIES
    requires Release(d.vaults, d.exits[i].vaultId, d.exits[i].locked).Ok?
    ensures Apply(d.(seized := seized), SettledBy(Truncate32(i), r))
         == Ok(d.(seized := seized, vaults := Release(d.vaults, d.exits[i].vaultId, d.exits[i].locked).value,
                  exits := SetState(d.exits, i, Settled), consumed := d.consumed + {r}))
  {}

  lemma SlashReplays(d: Desk, i: nat, seized: nat)
    requires i < |d.exits| < MAX_JOURNAL_ENTRIES + 1 && d.exits[i].state == Pending
    requires Seize(d.vaults, d.exits[i].vaultId, d.exits[i].locked).Ok?
    requires seized + d.exits[i].locked <= U128_MAX
    ensures Apply(d.(seized := seized), SlashedAt(Truncate32(i)))
         == Ok(d.(seized := seized + d.exits[i].locked, exits := SetState(d.exits, i, Slashed),
                  vaults := Seize(d.vaults, d.exits[i].vaultId, d.exits[i].locked).value))
  {}

  /** Journaling a record that replays keeps the system sound, whatever the storage does. */
  lemma JournalStep(cfg: DeskConfig, s: System, e: Event, f: Fault, d1: Desk)
    requires Rebuilds(cfg, s) && PricedRecord(cfg, e) && Priced(cfg, d1.exits)
    requires Apply(Rebuilt(s), e) == Ok(d1.(seized := d1.seized + s.taken))
    ensures var (j, r) := Append(s.live.journal, e, f);
            Rebuilds(cfg, s.(live := Live(if r.Ok? then d1 else s.live.desk, j)))
  {
    var (j, r) := Append(s.live.journal, e, f);
    if r.Ok? {
      StoredStep(cfg, s, e, d1);
    } else {
      FailedStep(cfg, s, e, j);
    }
  }

  lemma StoredStep(cfg: DeskConfig, s: System, e: Event, d1: Desk)
    requires Rebuilds(cfg, s) && s.live.journal.stray.None? && |s.live.journal.events| < MAX_JOURNAL_ENTRIES
    requires Priced(cfg, d1.exits) && Apply(Rebuilt(s), e) == Ok(d1.(seized := d1.seized + s.taken))
    ensures Rebuilds(cfg, s.(live := Live(d1, Journal(s.live.journal.events + [e], None))))
  {
    var t := s.(live := Live(d1, Journal(s.live.journal.events + [e], None)));
    var d2 := d1.(seized := d1.seized + s.taken);
    ReplayOneMore(Registered(RegisterAll(s.regs)), s.live.journal.events, e, Rebuilt(s), d2);
    assert Rebuilt(t) == d2;
  }

  lemma ReplayOneMore(base: Desk, events: seq<Event>, e: Event, d0: Desk, d1: Desk)
    requires Replay(base, events) == Ok(d0) && Apply(d0, e) == Ok(d1)
    ensures Replay(base, events + [e]) == Ok(d1)
  {
    ReplayAppend(base, events, e);
  }

  lemma FailedStep(cfg: DeskConfig, s: System, e: Event, j: Journal)
    requires Rebuilds(cfg, s) && PricedRecord(cfg, e) && Apply(Rebuilt(s), e).Ok?
    requires j == s.live.journal
          || (j == s.live.journal.(stray := Some(e)) && |j.events| < MAX_JOURNAL_ENTRIES)
    ensures Rebuilds(cfg, s.(live := Live(s.live.desk, j)))
  {
    assert Rebuilt(s.(live := Live(s.live.desk, j))) == Rebuilt(s);
  }

  lemma RebuiltCounts(cfg: DeskConfig, s: System)
    requires Rebuilds(cfg, s)
    ensures |s.live.desk.exits| <= |s.live.journal.events| && |s.live.desk.dead| <= |s.live.journal.events|
  {
    ReplayCounts(RegisterAll(s.regs), s.live.journal.events);
  }

  lemma OpenRebuilds(cfg: DeskConfig, chain: u64, s: System, p: BurnProof, now: u64, f: Fault)
    requires Rebuilds(cfg, s)
    ensures Rebuilds(cfg, s.(live := OpenExit(cfg, chain, s.live, p, now, f).0))
  {
    var d := s.live.desk;
    RebuiltCounts(cfg, s);
    var full := |s.live.journal.events| >= MAX_JOURNAL_ENTRIES;
    if Admissible(cfg, chain, d, p).Ok? && LockAny(d.vaults, Admissible(cfg, chain, d, p).value.1).Ok?
       && |d.consumed| < MAX_LEDGER_ENTRIES && !full {
      OpenReplays(cfg, chain, d, p, now, d.seized + s.taken);
      var (st, need) := Admissible(cfg, chain, d, p).value;
      var (v, book) := LockAny(d.vaults, need).value;
      var e := OpenRecord(cfg, d, st, v, need, now);
      JournalStep(cfg, s, e, f,
        d.(vaults := book, consumed := d.consumed + {st.burnRef}, exits := d.exits + [ExitOf(e.exit)]));
    }
  }

  lemma SettleRebuilds(cfg: DeskConfig, s: System, i: nat, w: Watcher, f: Fault)
    requires Rebuilds(cfg, s)
    ensures Rebuilds(cfg, s.(live := Settle(cfg, s.live, i, w, f).0))
    ensures Settle(cfg, s.live, i, w, f).1.Err? ==> Settle(cfg, s.live, i, w, f).0.desk == s.live.desk
  {
    var d := s.live.desk;
    if Payable(cfg, d, i, w).Ok? {
      RebuiltCounts(cfg, s);
      Payout(cfg, s, i);
      SettleReplays(d, i, Payable(cfg, d, i, w).value, d.seized + s.taken);
      JournalStep(cfg, s, SettledBy(Truncate32(i), Payable(cfg, d, i, w).value), f,
        d.(vaults := Release(d.vaults, d.exits[i].vaultId, d.exits[i].locked).value,
           exits := SetState(d.exits, i, Settled), consumed := d.consumed + {Payable(cfg, d, i, w).value}));
    }
  }

  /** The journal takes a record, at once or as a stray one that a restart may find. */
  predicate Writes(j: Journal, f: Fault) {
    j.stray.None? && |j.events| < MAX_JOURNAL_ENTRIES && (f.stored || !f.healed)
  }

  /** A slash that is written fits the reserve. */
  predicate SlashKept(cfg: DeskConfig, s: System, i: nat, now: u64, f: Fault) {
    Slashable(cfg, s.live.desk, i, now).Ok? && Writes(s.live.journal, f) ==> SlashFits(s, i)
  }

  lemma SlashRebuilds(cfg: DeskConfig, s: System, i: nat, now: u64, f: Fault)
    requires Rebuilds(cfg, s) && SlashKept(cfg, s, i, now, f)
    ensures Rebuilds(cfg, s.(live := Slash(cfg, s.live, i, now, f).0))
    ensures Slash(cfg, s.live, i, now, f).1.Err? ==> Slash(cfg, s.live, i, now, f).0.desk == s.live.desk
  {
    var d := s.live.desk;
    if Slashable(cfg, d, i, now).Ok? && Writes(s.live.journal, f) {
      RebuiltCounts(cfg, s);
      Payout(cfg, s, i);
      SlashReplays(d, i, d.seized + s.taken);
      SlashShape(cfg, s.live, i, now, f);
      JournalStep(cfg, s, SlashedAt(Truncate32(i)), f, Seized(d, i));
    }
  }

  lemma SoundSlashKept(cfg: DeskConfig, s: System, i: nat, now: u64, f: Fault)
    requires Sound(cfg, s)
    ensures SlashKept(cfg, s, i, now, f)
  {
    if Slashable(cfg, s.live.desk, i, now).Ok? {
      ReserveFits(cfg, s, i);
    }
  }

  /** The desk once exit `i` is slashed. */
  function Seized(d: Desk, i: nat): Desk
    requires i < |d.exits| && Seize(d.vaults, d.exits[i].vaultId, d.exits[i].locked).Ok?
  {
    d.(seized := d.seized + d.exits[i].locked, exits := SetState(d.exits, i, Slashed),
       vaults := Seize(d.vaults, d.exits[i].vaultId, d.exits[i].locked).value)
  }

  lemma SlashShape(cfg: DeskConfig, l: Live, i: nat, now: u64, f: Fault)
    requires Slashable(cfg, l.desk, i, now).Ok? && l.desk.seized + l.desk.exits[i].locked <= U128_MAX
    requires Seize(l.desk.vaults, l.desk.exits[i].vaultId, l.desk.exits[i].locked).Ok?
    ensures var (j, r) := Append(l.journal, SlashedAt(Truncate32(i)), f);
      Slash(cfg, l, i, now, f).0 == Live(if r.Ok? then Seized(l.desk, i) else l.desk, j)
  {}

  /** No watcher's answer is a payout. */
  predicate NonePaid(cfg: DeskConfig, d: Desk, i: nat, ws: seq<(Watcher, Fault)>) {
    forall k :: 0 <= k < |ws| ==> Payable(cfg, d, i, ws[k].0).Err? && ProvesNoPayout(Payable(cfg, d, i, ws[k].0).error)
  }

  /** A slash that comes of asking fits the reserve. */
  predicate AskKept(cfg: DeskConfig, s: System, i: nat, ws: seq<(Watcher, Fault)>, now: u64, f: Fault) {
    NonePaid(cfg, s.live.desk, i, ws) ==> SlashKept(cfg, s, i, now, f)
  }

  lemma NonePaidCons(cfg: DeskConfig, d: Desk, i: nat, ws: seq<(Watcher, Fault)>)
    requires ws != []
    ensures NonePaid(cfg, d, i, ws)
       <==> Payable(cfg, d, i, ws[0].0).Err? && ProvesNoPayout(Payable(cfg, d, i, ws[0].0).error) && NonePaid(cfg, d, i, ws[1..])
  {
    if NonePaid(cfg, d, i, ws[1..]) && Payable(cfg, d, i, ws[0].0).Err? && ProvesNoPayout(Payable(cfg, d, i, ws[0].0).error) {
      forall k | 0 <= k < |ws| ensures Payable(cfg, d, i, ws[k].0).Err? && ProvesNoPayout(Payable(cfg, d, i, ws[k].0).error) {
        assert k > 0 ==> ws[k] == ws[1..][k - 1];
      }
    }
    if NonePaid(cfg, d, i, ws) {
      forall k | 0 <= k < |ws| - 1 ensures Payable(cfg, d, i, ws[1..][k].0).Err? && ProvesNoPayout(Payable(cfg, d, i, ws[1..][k].0).error) {
        assert ws[1..][k] == ws[k + 1];
      }
    }
  }

  /** A watcher is passed over exactly when its answer is no payout, and then nothing has changed. */
  lemma PassedOver(cfg: DeskConfig, s: System, i: nat, w: Watcher, f: Fault)
    requires Rebuilds(cfg, s)
    ensures var (l, r) := Settle(cfg, s.live, i, w, f); var p := Payable(cfg, s.live.desk, i, w);
      && (r.Err? && ProvesNoPayout(r.error) <==> p.Err? && ProvesNoPayout(p.error))
      && (p.Err? ==> l == s.live)
  {
    var p := Payable(cfg, s.live.desk, i, w);
    if p.Ok? {
      Payout(cfg, s, i);
    }
  }

  lemma {:induction false} AskRebuilds(cfg: DeskConfig, s: System, i: nat, ws: seq<(Watcher, Fault)>, now: u64, f: Fault)
    requires Rebuilds(cfg, s) && AskKept(cfg, s, i, ws, now, f)
    ensures Rebuilds(cfg, s.(live := AskThenSlash(cfg, s.live, i, ws, now, f).0))
    ensures AskThenSlash(cfg, s.live, i, ws, now, f).1.Err? ==> AskThenSlash(cfg, s.live, i, ws, now, f).0.desk == s.live.desk
    decreases |ws|
  {
    if ws == [] {
      SlashRebuilds(cfg, s, i, now, f);
    } else {
      SettleRebuilds(cfg, s, i, ws[0].0, ws[0].1);
      PassedOver(cfg, s, i, ws[0].0, ws[0].1);
      NonePaidCons(cfg, s.live.desk, i, ws);
      var p := Payable(cfg, s.live.desk, i, ws[0].0);
      if p.Err? && ProvesNoPayout(p.error) {
        assert s == s.(live := s.live);
        AskRebuilds(cfg, s, i, ws[1..], now, f);
      }
    }
  }

  lemma LetterRebuilds(cfg: DeskConfig, s: System, p: BurnProof, e: ExitError, now: u64, f: Fault)
    requires Rebuilds(cfg, s)
    ensures Rebuilds(cfg, s.(live := WriteDeadLetter(s.live, p, e, now, f).0))
  {
    var d := s.live.desk;
    var x := LetterOf(p, e, now);
    if |d.dead| < MAX_DEAD_LETTERS {
      JournalStep(cfg, s, Lettered(Truncate32(|d.dead|), x), f, d.(dead := d.dead + [x]));
    }
  }

  // ---------------------------------------------------------------- registering a vault commutes with replay

  predicate Roomy(b: Book, id: u32, c: u128) {
    id in b ==> b[id].free + b[id].locked + c <= U128_MAX
  }

  lemma BookCredit(b: Book, v: u32, amount: u128, id: u32, c: u128)
    requires Roomy(b, id, c)
    ensures var b1 := Vaults.Register(b, id, c);
      && (Lock(b, v, amount).Ok? ==> Lock(b1, v, amount) == Ok(Vaults.Register(Lock(b, v, amount).value, id, c)))
      && (Release(b, v, amount).Ok? ==> Release(b1, v, amount) == Ok(Vaults.Register(Release(b, v, amount).value, id, c)))
      && (Seize(b, v, amount).Ok? ==> Seize(b1, v, amount) == Ok(Vaults.Register(Seize(b, v, amount).value, id, c)))
  {
    var b1 := Vaults.Register(b, id, c);
    if Lock(b, v, amount).Ok? {
      assert Lock(b1, v, amount).value == Vaults.Register(Lock(b, v, amount).value, id, c);
    }
    if Release(b, v, amount).Ok? {
      assert Release(b1, v, amount).value == Vaults.Register(Release(b, v, amount).value, id, c);
    }
    if Seize(b, v, amount).Ok? {
      assert Seize(b1, v, amount).value == Vaults.Register(Seize(b, v, amount).value, id, c);
    }
  }

  function Credit(d: Desk, id: u32, c: u128): Desk {
    d.(vaults := Vaults.Register(d.vaults, id, c))
  }

  lemma ApplyCredit(d: Desk, e: Event, id: u32, c: u128)
    requires Apply(d, e).Ok? && Roomy(d.vaults, id, c)
    ensures Apply(Credit(d, id, c), e) == Ok(Credit(Apply(d, e).value, id, c))
  {
    match e
    case Opened(_, x) => BookCredit(d.vaults, x.vaultId, x.locked, id, c);
    case SettledBy(i, _) => BookCredit(d.vaults, d.exits[i].vaultId, d.exits[i].locked, id, c);
    case SlashedAt(i) => BookCredit(d.vaults, d.exits[i].vaultId, d.exits[i].locked, id, c);
    case Lettered(_, _) =>
  }

  lemma RoomFromTotal(b: Book, d: Desk, id: u32, c: u128)
    requires Conserved(b, d) && BookTotal(b) + c <= U128_MAX
    ensures Roomy(d.vaults, id, c)
  {
    var h: map<u32, nat> := Holdings(d.vaults);
    if id in d.vaults {
      MapSumMember(h, id);
    }
  }

  /** Registering collateral late or early leads to the same desk: the journal replays to the credited desk. */
  lemma {:induction false} ReplayCredit(b: Book, events: seq<Event>, id: u32, c: u128)
    requires AllFree(b) && Replay(Registered(b), events).Ok? && BookTotal(b) + c <= U128_MAX
    ensures Replay(Registered(Vaults.Register(b, id, c)), events) == Ok(Credit(Replay(Registered(b), events).value, id, c))
  {
    if events == [] {
    } else {
      var n := |events| - 1;
      ReplayCredit(b, events[..n], id, c);
      ReplayBalances(b, events[..n]);
      var d := Replay(Registered(b), events[..n]).value;
      RoomFromTotal(b, d, id, c);
      ApplyCredit(d, events[n], id, c);
    }
  }

  lemma RegisterKeepsSound(cfg: DeskConfig, chain: u64, s: System, id: u32, c: u128)
    requires Sound(cfg, s) && RegTotal(s.regs) + c <= U128_MAX
    ensures Sound(cfg, Step(cfg, chain, s, Op.Register(id, c)).value)
  {
    var s1 := Step(cfg, chain, s, Op.Register(id, c)).value;
    var b := RegisterAll(s.regs);
    RegisterAllTotal(s.regs);
    assert s1.regs[..|s.regs|] == s.regs;
    ReplayCredit(b, s.live.journal.events, id, c);
    assert Rebuilt(s1) == Credit(Rebuilt(s), id, c);
    if s.live.journal.stray.Some? {
      ReplayBalances(b, s.live.journal.events);
      RoomFromTotal(b, Rebuilt(s), id, c);
      ApplyCredit(Rebuilt(s), s.live.journal.stray.value, id, c);
    }
  }

  lemma ApplyKeepsPriced(cfg: DeskConfig, d: Desk, e: Event)
    requires Priced(cfg, d.exits) && PricedRecord(cfg, e) && Apply(d, e).Ok?
    ensures Priced(cfg, Apply(d, e).value.exits)
  {
    var d1 := Apply(d, e).value;
    forall i | 0 <= i < |d1.exits| ensures cfg.Required(d1.exits[i].statement.amount) == Ok(d1.exits[i].locked) {
      if i < |d.exits| {
        assert cfg.Required(d.exits[i].statement.amount) == Ok(d.exits[i].locked);
      }
    }
  }

  /** A restart never fails, and rebuilds the live desk or, when the stray record reached the disk, the live desk with
      that one record applied. The reserve handed out before the restart is back in the seized reserve. */
  lemma RebootRebuilds(cfg: DeskConfig, s: System, landed: bool)
    requires Rebuilds(cfg, s)
    ensures Reboot(s, landed).Ok? && Rebuilds(cfg, Reboot(s, landed).value)
    ensures Ok(Reboot(s, landed).value.live.desk)
         == if landed && s.live.journal.stray.Some? then Apply(Rebuilt(s), s.live.journal.stray.value) else Ok(Rebuilt(s))
  {
    if landed && s.live.journal.stray.Some? {
      ReplayAppend(Registered(RegisterAll(s.regs)), s.live.journal.events, s.live.journal.stray.value);
      ApplyKeepsPriced(cfg, Rebuilt(s), s.live.journal.stray.value);
    }
    var s1 := Reboot(s, landed).value;
    assert Rebuilt(s1) == s1.live.desk;
  }

  lemma StepKeepsSound(cfg: DeskConfig, chain: u64, s: System, op: Op)
    requires Sound(cfg, s) && (op.Register? ==> RegTotal(s.regs) + op.collateral <= U128_MAX)
    ensures Step(cfg, chain, s, op).Ok? && Sound(cfg, Step(cfg, chain, s, op).value)
  {
    match op
    case Register(id, c) => RegisterKeepsSound(cfg, chain, s, id, c);
    case Open(p, now, f) => OpenRebuilds(cfg, chain, s, p, now, f);
    case SettleExit(i, w, f) => SettleRebuilds(cfg, s, i, w, f);
    case SlashExit(i, now, f) =>
      SoundSlashKept(cfg, s, i, now, f);
      SlashRebuilds(cfg, s, i, now, f);
    case Close(i, ws, now, f) =>
      SoundSlashKept(cfg, s, i, now, f);
      AskRebuilds(cfg, s, i, ws, now, f);
    case Letter(p, e, now, f) => LetterRebuilds(cfg, s, p, e, now, f);
    case TakeReserve => assert Rebuilt(Step(cfg, chain, s, op).value) == Rebuilt(s);
    case Restart(landed) => RebootRebuilds(cfg, s, landed);
  }

  lemma StepRegs(cfg: DeskConfig, chain: u64, s: System, op: Op)
    requires Step(cfg, chain, s, op).Ok?
    ensures RegTotal(Step(cfg, chain, s, op).value.regs)
         == RegTotal(s.regs) + (match op case Register(_, c) => c case _ => 0)
  {
    if op.Register? {
      assert (s.regs + [(op.id, op.collateral)])[..|s.regs|] == s.regs;
    }
  }

  /** Replay refines the live desk: along every run of opens, settles, slashes, letters, registrations, storage
      faults and restarts, no restart is refused and replaying the journal rebuilds the live desk. */
  lemma {:induction false} ReplayRebuildsLiveDesk(cfg: DeskConfig, chain: u64, ops: seq<Op>)
    requires Pledged(ops) <= U128_MAX
    ensures Run(cfg, chain, ops).Ok? && Sound(cfg, Run(cfg, chain, ops).value)
    ensures RegTotal(Run(cfg, chain, ops).value.regs) == Pledged(ops)
  {
    if ops == [] {
      assert Replay(Registered(RegisterAll([])), []) == Ok(EMPTY);
    } else {
      var n := |ops| - 1;
      ReplayRebuildsLiveDesk(cfg, chain, ops[..n]);
      StepKeepsSound(cfg, chain, Run(cfg, chain, ops[..n]).value, ops[n]);
      StepRegs(cfg, chain, Run(cfg, chain, ops[..n]).value, ops[n]);
    }
  }
}
