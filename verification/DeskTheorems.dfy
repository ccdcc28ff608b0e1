/** What every reachable exit desk guarantees, across storage faults and restarts. */
module DeskTheorems {
  import opened Machine
  import opened Sums
  import opened ExitTypes
  import opened Vaults
  import opened Desk
  import opened DeskAccounts
  import opened DeskRuns

  /** Collateral conservation over runs: per vault, locked is what pending exits lock, and free + locked + slashed is
      what was registered; over all vaults, nothing but the seized reserve ever leaves the book. */
  lemma CollateralConserved(cfg: DeskConfig, chain: u64, ops: seq<Op>)
    requires Pledged(ops) <= U128_MAX
    ensures Run(cfg, chain, ops).Ok?
    ensures var s := Run(cfg, chain, ops).value;
      && Balanced(RegisterAll(s.regs), s.live.desk)
      && BookTotal(s.live.desk.vaults) + s.live.desk.seized + s.taken == Pledged(ops)
  {
    ReplayRebuildsLiveDesk(cfg, chain, ops);
    var s := Run(cfg, chain, ops).value;
    RegisterAllTotal(s.regs);
    ReplayBalances(RegisterAll(s.regs), s.live.journal.events);
    assert Balanced(RegisterAll(s.regs), Rebuilt(s));
  }

  lemma RatioCovers(amount: nat, low: nat, high: nat)
    requires BPS_DEN <= low <= high
    ensures amount <= amount * low / BPS_DEN <= amount * high / BPS_DEN && amount * low <= amount * high
  {
    Times(amount, BPS_DEN, low);
    Times(amount, low, high);
    Quotients(amount, amount * low, amount * high);
  }

  lemma Times(a: nat, b: nat, c: nat)
    requires b <= c
    ensures a * b <= a * c
  {}

  lemma Quotients(a: nat, x: nat, y: nat)
    requires a * BPS_DEN <= x <= y
    ensures a <= x / BPS_DEN <= y / BPS_DEN
  {}

  lemma PriceCovers(cfg: DeskConfig, amount: u128, locked: u128)
    requires cfg.Safe() && cfg.Required(amount) == Ok(locked)
    ensures amount <= locked && cfg.Premium(amount).Ok? && cfg.Premium(amount).value <= locked
  {
    RatioCovers(amount, cfg.premiumBps, cfg.secureBps);
  }

  /** Each exit locks at least its amount and at least the premium due to the holder. */
  lemma ExitsBacked(cfg: DeskConfig, chain: u64, ops: seq<Op>, i: nat)
    requires cfg.Safe() && Pledged(ops) <= U128_MAX
    requires Run(cfg, chain, ops).Ok? && i < |Run(cfg, chain, ops).value.live.desk.exits|
    ensures var x := Run(cfg, chain, ops).value.live.desk.exits[i];
      && x.statement.amount <= x.locked
      && cfg.Premium(x.statement.amount).Ok? && cfg.Premium(x.statement.amount).value <= x.locked
  {
    ReplayRebuildsLiveDesk(cfg, chain, ops);
    var x := Run(cfg, chain, ops).value.live.desk.exits[i];
    PriceCovers(cfg, x.statement.amount, x.locked);
  }

  /** All or nothing: in every reachable desk, an operation that reports an error has left the desk as it was. */
  lemma ErrorsChangeNothing(cfg: DeskConfig, chain: u64, ops: seq<Op>, op: Op)
    requires Pledged(ops) <= U128_MAX && Run(cfg, chain, ops).Ok?
    ensures var l := Run(cfg, chain, ops).value.live;
      match op
      case Open(p, now, f) =>
        OpenExit(cfg, chain, l, p, now, f).1.Err? ==> OpenExit(cfg, chain, l, p, now, f).0.desk == l.desk
      case SettleExit(i, w, f) => Settle(cfg, l, i, w, f).1.Err? ==> Settle(cfg, l, i, w, f).0.desk == l.desk
      case SlashExit(i, now, f) => Slash(cfg, l, i, now, f).1.Err? ==> Slash(cfg, l, i, now, f).0.desk == l.desk
      case Close(i, ws, now, f) =>
        CloseOverdue(cfg, l, i, ws, now, f).1.Err? ==> CloseOverdue(cfg, l, i, ws, now, f).0.desk == l.desk
      case Letter(p, e, now, f) =>
        WriteDeadLetter(l, p, e, now, f).1.Err? ==> WriteDeadLetter(l, p, e, now, f).0.desk == l.desk
      case _ => true
  {
    ReplayRebuildsLiveDesk(cfg, chain, ops);
    var s := Run(cfg, chain, ops).value;
    match op
    case SettleExit(i, w, f) => SettleRebuilds(cfg, s, i, w, f);
    case SlashExit(i, now, f) =>
      SoundSlashKept(cfg, s, i, now, f);
      SlashRebuilds(cfg, s, i, now, f);
    case Close(i, ws, now, f) =>
      SoundSlashKept(cfg, s, i, now, f);
      AskRebuilds(cfg, s, i, ws, now, f);
    case _ =>
  }

  /** Why the collateral must fit u128. A slash that is due and journaled fails exactly when the seized reserve would
      pass u128. It then leaves the exit slashed and its collateral in neither the vault nor the reserve, and its
      record makes every later replay fail. */
  lemma SlashTearsOnlyOnOverflow(b: Book, cfg: DeskConfig, l: Live, i: nat, now: u64, f: Fault)
    requires Balanced(b, l.desk) && |l.desk.exits| <= MAX_JOURNAL_ENTRIES
    requires Slashable(cfg, l.desk, i, now).Ok? && Append(l.journal, SlashedAt(Truncate32(i)), f).1.Ok?
    ensures var (l1, r) := Slash(cfg, l, i, now, f);
      && (r.Err? <==> l.desk.seized + l.desk.exits[i].locked > U128_MAX)
      && (r.Err? ==> l1.desk.exits[i].state == Slashed && l1.desk.seized == l.desk.seized
                     && BookTotal(l1.desk.vaults) + l.desk.exits[i].locked == BookTotal(l.desk.vaults)
                     && Apply(l.desk, SlashedAt(Truncate32(i))) == Err(Overflow))
  {
    PendingIsLocked(b, l.desk, i);
    SeizeTotal(l.desk.vaults, l.desk.exits[i].vaultId, l.desk.exits[i].locked);
  }

  /** One exit per burn and per payout over whole runs: no reference occurs twice in the journal, and the consumed set
      is exactly the references it holds. */
  lemma ReferencesUsedOnce(cfg: DeskConfig, chain: u64, ops: seq<Op>)
    requires Pledged(ops) <= U128_MAX
    ensures Run(cfg, chain, ops).Ok?
    ensures var l := Run(cfg, chain, ops).value.live;
      && l.desk.consumed == AllRefs(l.journal.events)
      && forall i, j :: 0 <= i < j < |l.journal.events| ==> RefsOf(l.journal.events[i]) !! RefsOf(l.journal.events[j])
  {
    ReplayRebuildsLiveDesk(cfg, chain, ops);
    var s := Run(cfg, chain, ops).value;
    ReplayRefsDistinct(RegisterAll(s.regs), s.live.journal.events);
  }

  // ---------------------------------------------------------------- decisions

  /** `decision`: what the desk tells the chain about exit `i`. */
  function Decision(cfg: DeskConfig, d: Desk, i: nat): Option<(Outcome, ExitStatement, u32)> {
    if i >= |d.exits| || d.exits[i].state == Pending then None
    else Some((if d.exits[i].state == Settled then Outcome.SettleOutcome else Outcome.SlashOutcome,
               d.exits[i].statement, cfg.bridgeDestChain))
  }

  /** `after` follows `before`: exits are only added, their terms never change, and a closed exit stays as it is. */
  predicate Follows(before: seq<Exit>, after: seq<Exit>) {
    && |before| <= |after|
    && forall i :: 0 <= i < |before| ==> Same(before[i], after[i])
  }

  predicate Same(x: Exit, y: Exit) {
    if x.state == Pending then y.(state := Pending) == x else y == x
  }

  lemma FollowsClose(exits: seq<Exit>, i: nat, to: ExitState)
    requires i < |exits| && exits[i].state == Pending
    ensures Follows(exits, SetState(exits, i, to))
  {}

  lemma FollowsTransitive(a: seq<Exit>, b: seq<Exit>, c: seq<Exit>)
    requires Follows(a, b) && Follows(b, c)
    ensures Follows(a, c)
  {
    forall i | 0 <= i < |a| ensures Same(a[i], c[i]) {
      assert Same(a[i], b[i]) && Same(b[i], c[i]);
    }
  }

  lemma ApplyFollows(d: Desk, e: Event)
    requires Apply(d, e).Ok?
    ensures Follows(d.exits, Apply(d, e).value.exits)
  {
    match e
    case SettledBy(i, _) => FollowsClose(d.exits, i, Settled);
    case SlashedAt(i) => FollowsClose(d.exits, i, Slashed);
    case _ =>
  }

  lemma SettleFollows(cfg: DeskConfig, l: Live, i: nat, w: Watcher, f: Fault)
    ensures Follows(l.desk.exits, Settle(cfg, l, i, w, f).0.desk.exits)
  {
    if Payable(cfg, l.desk, i, w).Ok? {
      FollowsClose(l.desk.exits, i, Settled);
    }
  }

  lemma SlashFollows(cfg: DeskConfig, l: Live, i: nat, now: u64, f: Fault)
    ensures Follows(l.desk.exits, Slash(cfg, l, i, now, f).0.desk.exits)
  {
    if Slashable(cfg, l.desk, i, now).Ok? {
      FollowsClose(l.desk.exits, i, Slashed);
    }
  }

  lemma {:induction false} AskFollows(cfg: DeskConfig, l: Live, i: nat, ws: seq<(Watcher, Fault)>, now: u64, f: Fault)
    ensures Follows(l.desk.exits, AskThenSlash(cfg, l, i, ws, now, f).0.desk.exits)
    decreases |ws|
  {
    if ws == [] {
      SlashFollows(cfg, l, i, now, f);
    } else {
      var l1 := Settle(cfg, l, i, ws[0].0, ws[0].1).0;
      SettleFollows(cfg, l, i, ws[0].0, ws[0].1);
      AskFollows(cfg, l1, i, ws[1..], now, f);
      FollowsTransitive(l.desk.exits, l1.desk.exits, AskThenSlash(cfg, l1, i, ws[1..], now, f).0.desk.exits);
    }
  }

  lemma StepFollows(cfg: DeskConfig, chain: u64, s: System, op: Op)
    requires Sound(cfg, s) && Step(cfg, chain, s, op).Ok?
    ensures Follows(s.live.desk.exits, Step(cfg, chain, s, op).value.live.desk.exits)
  {
    match op
    case SettleExit(i, w, f) => SettleFollows(cfg, s.live, i, w, f);
    case SlashExit(i, now, f) => SlashFollows(cfg, s.live, i, now, f);
    case Close(i, ws, now, f) => AskFollows(cfg, s.live, i, ws, now, f);
    case Restart(landed) =>
      RebootRebuilds(cfg, s, landed);
      if landed && s.live.journal.stray.Some? {
        ApplyFollows(Rebuilt(s), s.live.journal.stray.value);
      }
    case _ =>
  }

  lemma {:induction false} ExitsFollow(cfg: DeskConfig, chain: u64, ops: seq<Op>, more: seq<Op>)
    requires Pledged(ops + more) <= U128_MAX
    ensures Run(cfg, chain, ops).Ok? && Run(cfg, chain, ops + more).Ok?
    ensures Follows(Run(cfg, chain, ops).value.live.desk.exits, Run(cfg, chain, ops + more).value.live.desk.exits)
    decreases |more|
  {
    if more == [] {
      assert ops + more == ops;
      ReplayRebuildsLiveDesk(cfg, chain, ops);
    } else {
      var n := |more| - 1;
      var mid := ops + more[..n];
      assert (ops + more)[..|ops| + n] == mid;
      ExitsFollow(cfg, chain, ops, more[..n]);
      ReplayRebuildsLiveDesk(cfg, chain, mid);
      ReplayRebuildsLiveDesk(cfg, chain, ops + more);
      StepFollows(cfg, chain, Run(cfg, chain, mid).value, more[n]);
      FollowsTransitive(Run(cfg, chain, ops).value.live.desk.exits, Run(cfg, chain, mid).value.live.desk.exits,
                        Run(cfg, chain, ops + more).value.live.desk.exits);
    }
  }

  /** A decision once given never changes, however the run goes on, restarts included. */
  lemma DecisionsStand(cfg: DeskConfig, chain: u64, ops: seq<Op>, more: seq<Op>, i: nat)
    requires Pledged(ops + more) <= U128_MAX
    ensures Run(cfg, chain, ops).Ok? && Run(cfg, chain, ops + more).Ok?
    ensures Decision(cfg, Run(cfg, chain, ops).value.live.desk, i).Some? ==>
            Decision(cfg, Run(cfg, chain, ops + more).value.live.desk, i) == Decision(cfg, Run(cfg, chain, ops).value.live.desk, i)
  {
    ExitsFollow(cfg, chain, ops, more);
    var a, b := Run(cfg, chain, ops).value.live.desk.exits, Run(cfg, chain, ops + more).value.live.desk.exits;
    assert i < |a| ==> Same(a[i], b[i]);
  }

  // ---------------------------------------------------------------- slashing is never early

  predicate Turns(before: seq<Exit>, after: seq<Exit>, i: nat) {
    i < |before| && i < |after| && before[i].state == Pending && after[i].state == Slashed
  }

  /** The time an operation presents, if it may slash exit `i`. */
  predicate SlashesAfterGrace(cfg: DeskConfig, x: Exit, op: Op, i: nat) {
    (op.SlashExit? || op.Close?) && op.i == i && op.now > x.deadline + cfg.grace
  }

  lemma SlashAfterGrace(cfg: DeskConfig, l: Live, i: nat, now: u64, f: Fault, k: nat)
    ensures Turns(l.desk.exits, Slash(cfg, l, i, now, f).0.desk.exits, k) ==>
            k == i && now > l.desk.exits[k].deadline + cfg.grace
    ensures Slash(cfg, l, i, now, f).0.journal.stray == l.journal.stray
         || (i < |l.desk.exits| && now > l.desk.exits[i].deadline + cfg.grace)
  {}

  lemma {:induction false} AskAfterGrace(cfg: DeskConfig, l: Live, i: nat, ws: seq<(Watcher, Fault)>, now: u64, f: Fault, k: nat)
    ensures Turns(l.desk.exits, AskThenSlash(cfg, l, i, ws, now, f).0.desk.exits, k) ==>
            k == i && now > l.desk.exits[k].deadline + cfg.grace
    decreases |ws|
  {
    if ws == [] {
      SlashAfterGrace(cfg, l, i, now, f, k);
    } else {
      var l1 := Settle(cfg, l, i, ws[0].0, ws[0].1).0;
      SettleFollows(cfg, l, i, ws[0].0, ws[0].1);
      assert k < |l.desk.exits| && l.desk.exits[k].state == Pending ==>
             Same(l.desk.exits[k], l1.desk.exits[k]) && l1.desk.exits[k].state != Slashed;
      AskAfterGrace(cfg, l1, i, ws[1..], now, f, k);
      AskFollows(cfg, l1, i, ws[1..], now, f);
      assert k < |l1.desk.exits| ==> Same(l1.desk.exits[k], AskThenSlash(cfg, l1, i, ws[1..], now, f).0.desk.exits[k]);
    }
  }

  /** A slash happens only strictly after deadline plus grace, in exact arithmetic: the one other way an exit turns
      Slashed is a restart that finds the slash record whose write had failed. */
  lemma SlashNeverEarly(cfg: DeskConfig, chain: u64, s: System, op: Op, k: nat)
    requires Sound(cfg, s) && Step(cfg, chain, s, op).Ok?
    requires Turns(s.live.desk.exits, Step(cfg, chain, s, op).value.live.desk.exits, k)
    ensures SlashesAfterGrace(cfg, s.live.desk.exits[k], op, k)
         || (op == Restart(true) && StraySlash(s.live.journal, k))
  {
    if op.Restart? {
      RestartTurns(cfg, s, op.landed, k);
    } else {
      StepTurns(cfg, chain, s, op, k);
    }
  }

  /** The record whose write had failed is the slash of exit `k`. */
  predicate StraySlash(j: Journal, k: nat) {
    j.stray.Some? && j.stray.value.SlashedAt? && j.stray.value.index == k
  }

  lemma StepTurns(cfg: DeskConfig, chain: u64, s: System, op: Op, k: nat)
    requires !op.Restart? && Step(cfg, chain, s, op).Ok?
    requires Turns(s.live.desk.exits, Step(cfg, chain, s, op).value.live.desk.exits, k)
    ensures SlashesAfterGrace(cfg, s.live.desk.exits[k], op, k)
  {
    match op
    case SlashExit(i, now, f) => SlashAfterGrace(cfg, s.live, i, now, f, k);
    case Close(i, ws, now, f) => AskAfterGrace(cfg, s.live, i, ws, now, f, k);
    case _ =>
  }

  lemma RestartTurns(cfg: DeskConfig, s: System, landed: bool, k: nat)
    requires Sound(cfg, s) && Reboot(s, landed).Ok?
    requires Turns(s.live.desk.exits, Reboot(s, landed).value.live.desk.exits, k)
    ensures landed && StraySlash(s.live.journal, k)
  {
    RebootRebuilds(cfg, s, landed);
  }

  // ---------------------------------------------------------------- what is opened, settled and slashed

  /** The exit is what was burned: asset, amount, parties, reference and height of the verified burn, for a served asset
      and this chain, under the ceiling, with its full collateral locked, due after the window. */
  predicate Burned(cfg: DeskConfig, chainId: u64, p: BurnProof, now: u64, x: Exit) {
    && p.verdict.Ok?
    && var b := p.verdict.value;
    && x.statement.asset == b.asset && x.statement.amount == b.amount && x.statement.holder == b.holder
    && x.statement.destination == b.destination && x.statement.burnRef == b.burnRef
    && x.statement.finalizedHeight == b.finalizedHeight && x.statement.corridor == cfg.corridor
    && x.issuedAt == now && x.deadline == SatAdd64(now, cfg.window)
    && b.destChain == chainId && b.asset in cfg.assets && (cfg.maxAmount > 0 ==> b.amount <= cfg.maxAmount)
    && cfg.Required(b.amount) == Ok(x.locked)
  }

  predicate BurnedIn(cfg: DeskConfig, chainId: u64, ops: seq<Op>, x: Exit) {
    exists k :: 0 <= k < |ops| && ops[k].Open? && Burned(cfg, chainId, ops[k].proof, ops[k].now, x)
  }

  /** Every exit on the desk, and a stray record of one, is a burn that was presented. */
  predicate AllBurned(cfg: DeskConfig, chainId: u64, ops: seq<Op>, l: Live) {
    && (forall i :: 0 <= i < |l.desk.exits| ==> BurnedIn(cfg, chainId, ops, l.desk.exits[i]))
    && (l.journal.stray.Some? && l.journal.stray.value.Opened? ==> BurnedIn(cfg, chainId, ops, ExitOf(l.journal.stray.value.exit)))
  }

  lemma BurnedMore(cfg: DeskConfig, chainId: u64, ops: seq<Op>, n: nat, x: Exit, y: Exit)
    requires n <= |ops| && BurnedIn(cfg, chainId, ops[..n], x) && y.(state := x.state) == x
    ensures BurnedIn(cfg, chainId, ops, y)
  {
    var k :| 0 <= k < n && ops[..n][k].Open? && Burned(cfg, chainId, ops[..n][k].proof, ops[..n][k].now, x);
    assert ops[k].Open? && Burned(cfg, chainId, ops[k].proof, ops[k].now, y);
  }

  /** What an operation may add: nothing, or what was burned. */
  predicate AddsBurned(cfg: DeskConfig, chainId: u64, op: Op, l: Live, m: Live) {
    && |l.desk.exits| <= |m.desk.exits| && Follows(l.desk.exits, m.desk.exits)
    && (forall i :: |l.desk.exits| <= i < |m.desk.exits| ==> op.Open? && Burned(cfg, chainId, op.proof, op.now, m.desk.exits[i]))
    && (m.journal.stray.Some? && m.journal.stray.value.Opened? ==>
          || m.journal.stray == l.journal.stray
          || (op.Open? && Burned(cfg, chainId, op.proof, op.now, ExitOf(m.journal.stray.value.exit))))
  }

  lemma OpenAdds(cfg: DeskConfig, chainId: u64, l: Live, p: BurnProof, now: u64, f: Fault)
    ensures AddsBurned(cfg, chainId, Open(p, now, f), l, OpenExit(cfg, chainId, l, p, now, f).0)
  {
    var ok := Admissible(cfg, chainId, l.desk, p);
    if ok.Ok? && LockAny(l.desk.vaults, ok.value.1).Ok? {
      var e := OpenRecord(cfg, l.desk, ok.value.0, LockAny(l.desk.vaults, ok.value.1).value.0, ok.value.1, now);
      assert Burned(cfg, chainId, p, now, ExitOf(e.exit));
    }
  }

  lemma {:induction false} AskAdds(cfg: DeskConfig, l: Live, i: nat, ws: seq<(Watcher, Fault)>, now: u64, f: Fault)
    ensures var m := AskThenSlash(cfg, l, i, ws, now, f).0;
      && |m.desk.exits| == |l.desk.exits|
      && (m.journal.stray == l.journal.stray || (m.journal.stray.Some? && !m.journal.stray.value.Opened?))
    decreases |ws|
  {
    if ws != [] {
      AskAdds(cfg, Settle(cfg, l, i, ws[0].0, ws[0].1).0, i, ws[1..], now, f);
    }
  }

  lemma StepAdds(cfg: DeskConfig, chainId: u64, s: System, op: Op)
    requires !op.Restart? && Sound(cfg, s) && Step(cfg, chainId, s, op).Ok?
    ensures AddsBurned(cfg, chainId, op, s.live, Step(cfg, chainId, s, op).value.live)
  {
    StepFollows(cfg, chainId, s, op);
    match op
    case Open(p, now, f) => OpenAdds(cfg, chainId, s.live, p, now, f);
    case Close(i, ws, now, f) => AskAdds(cfg, s.live, i, ws, now, f);
    case _ =>
  }

  lemma AddedBurned(cfg: DeskConfig, chainId: u64, ops: seq<Op>, l: Live, m: Live)
    requires ops != [] && AllBurned(cfg, chainId, ops[..|ops| - 1], l) && AddsBurned(cfg, chainId, ops[|ops| - 1], l, m)
    ensures AllBurned(cfg, chainId, ops, m)
  {
    var n := |ops| - 1;
    forall i | 0 <= i < |m.desk.exits| ensures BurnedIn(cfg, chainId, ops, m.desk.exits[i]) {
      if i < |l.desk.exits| {
        assert Same(l.desk.exits[i], m.desk.exits[i]);
        BurnedMore(cfg, chainId, ops, n, l.desk.exits[i], m.desk.exits[i]);
      }
    }
    if m.journal.stray.Some? && m.journal.stray.value.Opened? && m.journal.stray == l.journal.stray {
      BurnedMore(cfg, chainId, ops, n, ExitOf(l.journal.stray.value.exit), ExitOf(m.journal.stray.value.exit));
    }
  }

  lemma RestartBurned(cfg: DeskConfig, chainId: u64, ops: seq<Op>, s: System, landed: bool)
    requires ops != [] && Sound(cfg, s) && AllBurned(cfg, chainId, ops[..|ops| - 1], s.live)
    ensures Reboot(s, landed).Ok? && AllBurned(cfg, chainId, ops, Reboot(s, landed).value.live)
  {
    RebootRebuilds(cfg, s, landed);
    var n, a, b := |ops| - 1, s.live.desk.exits, Reboot(s, landed).value.live.desk.exits;
    StepFollows(cfg, chainId, s, Restart(landed));
    forall i | 0 <= i < |b| ensures BurnedIn(cfg, chainId, ops, b[i]) {
      if i < |a| {
        assert Same(a[i], b[i]);
        BurnedMore(cfg, chainId, ops, n, a[i], b[i]);
      } else {
        BurnedMore(cfg, chainId, ops, n, ExitOf(s.live.journal.stray.value.exit), b[i]);
      }
    }
  }

  /** Over every run every exit on the desk is a verified burn presented to it, with that burn's terms and its full
      collateral, restarts and stray records included. */
  lemma {:induction false} ExitsAreBurns(cfg: DeskConfig, chainId: u64, ops: seq<Op>)
    requires Pledged(ops) <= U128_MAX
    ensures Run(cfg, chainId, ops).Ok? && AllBurned(cfg, chainId, ops, Run(cfg, chainId, ops).value.live)
  {
    ReplayRebuildsLiveDesk(cfg, chainId, ops);
    if ops != [] {
      var n := |ops| - 1;
      ExitsAreBurns(cfg, chainId, ops[..n]);
      ReplayRebuildsLiveDesk(cfg, chainId, ops[..n]);
      var s := Run(cfg, chainId, ops[..n]).value;
      if ops[n].Restart? {
        RestartBurned(cfg, chainId, ops, s, ops[n].landed);
      } else {
        StepAdds(cfg, chainId, s, ops[n]);
        AddedBurned(cfg, chainId, ops, s.live, Run(cfg, chainId, ops).value.live);
      }
    }
  }

  /** A settled exit was pending, and the watcher attested a payout that covers it, under a foreign reference never used
      before; that reference is then used. */
  lemma SettledAsAttested(cfg: DeskConfig, l: Live, i: nat, w: Watcher, f: Fault)
    requires Settle(cfg, l, i, w, f).1.Ok?
    ensures i < |l.desk.exits| && l.desk.exits[i].state == Pending
    ensures w.corridor == cfg.corridor && w.answer.Some? && w.answer.value.Covers(l.desk.exits[i].statement)
    ensures var (k, r) := Settle(cfg, l, i, w, f); var ref := w.answer.value.foreignRef;
      && ref !in l.desk.consumed && k.desk.consumed == l.desk.consumed + {ref}
      && k.desk.exits == SetState(l.desk.exits, i, Settled) && r.value == l.desk.exits[i].locked
  {}

  /** An overdue exit is slashed only when every watcher was asked and each answer showed there was no payout. */
  lemma {:induction false} AskedFirst(cfg: DeskConfig, l: Live, i: nat, ws: seq<(Watcher, Fault)>, now: u64, f: Fault, k: nat)
    requires CloseOverdue(cfg, l, i, ws, now, f).1 == Ok(SlashOutcome) && k < |ws|
    ensures Payable(cfg, l.desk, i, ws[k].0).Err? && ProvesNoPayout(Payable(cfg, l.desk, i, ws[k].0).error)
    decreases |ws|
  {
    NoPayoutNoChange(cfg, l, i, ws[0].0, ws[0].1);
    if k > 0 {
      AskedFirst(cfg, l, i, ws[1..], now, f, k - 1);
    }
  }

  /** An answer that shows there was no payout leaves desk and journal as they were. */
  lemma NoPayoutNoChange(cfg: DeskConfig, l: Live, i: nat, w: Watcher, f: Fault)
    requires Settle(cfg, l, i, w, f).1.Err? && ProvesNoPayout(Settle(cfg, l, i, w, f).1.error)
    ensures Settle(cfg, l, i, w, f).0 == l
    ensures Payable(cfg, l.desk, i, w).Err? && ProvesNoPayout(Payable(cfg, l.desk, i, w).error)
  {}
}
