/** Exactly when the exit desk can be rebuilt from its journal, whatever collateral was pledged (q-exits: exits.rs;
    q-runtime: boot.rs). */
module DeskExact {
  import opened Machine
  import opened ExitTypes
  import opened Vaults
  import opened Desk
  import opened DeskAccounts
  import opened DeskRuns

  /** What must hold before an operation: a slash that it writes fits the reserve, with what was handed out. */
  predicate StepFits(cfg: DeskConfig, s: System, op: Op) {
    match op
    case SlashExit(i, now, f) => SlashKept(cfg, s, i, now, f)
    case Close(i, ws, now, f) => AskKept(cfg, s, i, ws, now, f)
    case _ => true
  }

  /** The next start that finds the last record is refused. */
  predicate Refused(s: System) {
    Reboot(s, true).Err?
  }

  lemma SlashOverflows(cfg: DeskConfig, s: System, i: nat)
    requires Rebuilds(cfg, s) && i < |s.live.desk.exits| && s.live.desk.exits[i].state == Pending && !SlashFits(s, i)
    ensures Apply(Rebuilt(s), SlashedAt(Truncate32(i))) == Err(Overflow)
  {
    RebuiltCounts(cfg, s);
    Payout(cfg, s, i);
  }

  lemma WrittenRefused(cfg: DeskConfig, s: System, e: Event, t: System)
    requires Rebuilds(cfg, s) && s.live.journal.stray.None? && Apply(Rebuilt(s), e).Err? && t.regs == s.regs
    requires t.live.journal == s.live.journal.(events := s.live.journal.events + [e])
          || t.live.journal == s.live.journal.(stray := Some(e))
    ensures Refused(t)
  {
    ReplayAppend(Registered(RegisterAll(s.regs)), s.live.journal.events, e);
  }

  lemma RefusedNotRebuilt(cfg: DeskConfig, s: System)
    requires Refused(s)
    ensures !Rebuilds(cfg, s)
  {
    if Rebuilds(cfg, s) {
      RebootRebuilds(cfg, s, true);
    }
  }

  lemma SlashRefused(cfg: DeskConfig, s: System, i: nat, now: u64, f: Fault)
    requires Rebuilds(cfg, s) && !SlashKept(cfg, s, i, now, f)
    ensures Refused(s.(live := Slash(cfg, s.live, i, now, f).0))
  {
    SlashOverflows(cfg, s, i);
    WrittenRefused(cfg, s, SlashedAt(Truncate32(i)), s.(live := Slash(cfg, s.live, i, now, f).0));
  }

  lemma {:induction false} AskRefused(cfg: DeskConfig, s: System, i: nat, ws: seq<(Watcher, Fault)>, now: u64, f: Fault)
    requires Rebuilds(cfg, s) && !AskKept(cfg, s, i, ws, now, f)
    ensures Refused(s.(live := AskThenSlash(cfg, s.live, i, ws, now, f).0))
    decreases |ws|
  {
    if ws == [] {
      SlashRefused(cfg, s, i, now, f);
    } else {
      PassedOver(cfg, s, i, ws[0].0, ws[0].1);
      NonePaidCons(cfg, s.live.desk, i, ws);
      AskRefused(cfg, s, i, ws[1..], now, f);
    }
  }

  /** One operation leaves a desk that its journal rebuilds exactly when a slash it writes fits the reserve; otherwise the
      next start that finds the record is refused. */
  lemma StepRebuilds(cfg: DeskConfig, chain: u64, s: System, op: Op)
    requires Rebuilds(cfg, s) && !op.Register?
    ensures Step(cfg, chain, s, op).Ok?
    ensures StepFits(cfg, s, op) ==> Rebuilds(cfg, Step(cfg, chain, s, op).value)
    ensures !StepFits(cfg, s, op) ==> Refused(Step(cfg, chain, s, op).value)
  {
    match op
    case Open(p, now, f) => OpenRebuilds(cfg, chain, s, p, now, f);
    case SettleExit(i, w, f) => SettleRebuilds(cfg, s, i, w, f);
    case SlashExit(i, now, f) => SlashExact(cfg, s, i, now, f);
    case Close(i, ws, now, f) => CloseExact(cfg, s, i, ws, now, f);
    case Letter(p, e, now, f) => LetterRebuilds(cfg, s, p, e, now, f);
    case TakeReserve => assert Rebuilt(Step(cfg, chain, s, op).value) == Rebuilt(s);
    case Restart(landed) => RebootRebuilds(cfg, s, landed);
  }

  lemma SlashExact(cfg: DeskConfig, s: System, i: nat, now: u64, f: Fault)
    requires Rebuilds(cfg, s)
    ensures var t := s.(live := Slash(cfg, s.live, i, now, f).0);
      if SlashKept(cfg, s, i, now, f) then Rebuilds(cfg, t) else Refused(t)
  {
    if SlashKept(cfg, s, i, now, f) {
      SlashRebuilds(cfg, s, i, now, f);
    } else {
      SlashRefused(cfg, s, i, now, f);
    }
  }

  lemma CloseExact(cfg: DeskConfig, s: System, i: nat, ws: seq<(Watcher, Fault)>, now: u64, f: Fault)
    requires Rebuilds(cfg, s)
    ensures var t := s.(live := CloseOverdue(cfg, s.live, i, ws, now, f).0);
      if AskKept(cfg, s, i, ws, now, f) then Rebuilds(cfg, t) else Refused(t)
  {
    if AskKept(cfg, s, i, ws, now, f) {
      AskRebuilds(cfg, s, i, ws, now, f);
    } else {
      AskRefused(cfg, s, i, ws, now, f);
    }
  }

  // ---------------------------------------------------------------- whole runs

  /** Vaults are registered before anything else, as a service does when it starts. */
  predicate RegistersFirst(ops: seq<Op>) {
    forall i, j :: 0 <= i < j < |ops| && ops[j].Register? ==> ops[i].Register?
  }

  /** At every moment of the run replaying the journal rebuilds the live desk. */
  ghost predicate AlwaysRebuilds(cfg: DeskConfig, chain: u64, ops: seq<Op>) {
    && (ops != [] ==> AlwaysRebuilds(cfg, chain, ops[..|ops| - 1]))
    && Run(cfg, chain, ops).Ok? && Rebuilds(cfg, Run(cfg, chain, ops).value)
  }

  /** Every slash written in the run fitted the reserve. */
  ghost predicate AlwaysFits(cfg: DeskConfig, chain: u64, ops: seq<Op>) {
    ops != [] ==>
      var n := |ops| - 1;
      && AlwaysFits(cfg, chain, ops[..n])
      && (Run(cfg, chain, ops[..n]).Ok? ==> StepFits(cfg, Run(cfg, chain, ops[..n]).value, ops[n]))
  }

  function Configured(regs: seq<(u32, u128)>): System {
    System(Live(Registered(RegisterAll(regs)), Journal([], None)), regs, 0)
  }

  lemma {:induction false} OnlyRegistered(cfg: DeskConfig, chain: u64, ops: seq<Op>)
    requires forall i :: 0 <= i < |ops| ==> ops[i].Register?
    ensures Run(cfg, chain, ops).Ok? && Run(cfg, chain, ops).value == Configured(Run(cfg, chain, ops).value.regs)
  {
    if ops != [] {
      var n := |ops| - 1;
      OnlyRegistered(cfg, chain, ops[..n]);
      var regs := Run(cfg, chain, ops[..n]).value.regs;
      assert (regs + [(ops[n].id, ops[n].collateral)])[..|regs|] == regs;
    }
  }

  lemma ConfiguredRebuilds(cfg: DeskConfig, regs: seq<(u32, u128)>)
    ensures Rebuilds(cfg, Configured(regs))
  {}

  /** With the vaults registered first, and whatever collateral they pledge: replaying the journal rebuilds the live desk
      at every moment of a run, across storage faults and restarts, exactly when every slash that was written, stray ones
      included, kept the reserve held and handed out within u128. */
  lemma {:induction false} ReplayRebuildsExactly(cfg: DeskConfig, chain: u64, ops: seq<Op>)
    requires RegistersFirst(ops)
    ensures AlwaysRebuilds(cfg, chain, ops) <==> AlwaysFits(cfg, chain, ops)
  {
    if ops == [] {
      OnlyRegistered(cfg, chain, ops);
      ConfiguredRebuilds(cfg, []);
    } else {
      var n := |ops| - 1;
      ReplayRebuildsExactly(cfg, chain, ops[..n]);
      if ops[n].Register? {
        OnlyRegistered(cfg, chain, ops);
        ConfiguredRebuilds(cfg, Run(cfg, chain, ops).value.regs);
      } else if AlwaysRebuilds(cfg, chain, ops[..n]) {
        StepRebuilds(cfg, chain, Run(cfg, chain, ops[..n]).value, ops[n]);
        if !StepFits(cfg, Run(cfg, chain, ops[..n]).value, ops[n]) {
          RefusedNotRebuilt(cfg, Run(cfg, chain, ops).value);
        }
      }
    }
  }
}
