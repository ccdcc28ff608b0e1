/** A reachable desk at which a due slash tears: collateral pledged past u128, and exits opened and slashed until the
    seized reserve overflows (q-exits: exits.rs). */
module TornSlash {
  import opened Machine
  import opened Bytes
  import opened ExitTypes
  import opened Vaults
  import opened Desk
  import opened DeskAccounts
  import opened DeskRuns

  /** An amount, the collateral an exit of it locks at 200%, and how many of those fit u128. */
  const AMOUNT: u128 := 17_014_118_346_046_923_173_168_730_371_588_410
  const LOCKED: u128 := 34_028_236_692_093_846_346_337_460_743_176_820
  const FITTING: nat := 10_000

  const ASSET: Bytes16 := [1] + ZERO16[1..]
  const SOMEONE: Bytes32 := [1] + ZERO32[1..]
  const CHAIN: u64 := 1
  const CFG: DeskConfig := DeskConfig(1, 1, 20_000, 10_000, 0, 0, [ASSET], 0)
  const GOOD: Fault := Fault(true, false)

  lemma Prices()
    ensures CFG.Safe() && CFG.Required(AMOUNT) == Ok(LOCKED) && CFG.Premium(AMOUNT).Ok?
    ensures FITTING * LOCKED <= U128_MAX < (FITTING + 1) * LOCKED
  {}

  /** A different burn reference for each round. */
  function RefOf(j: nat): Bytes32 {
    Le(j, 31) + [1]
  }

  function Refs(k: nat): set<Bytes32> {
    if k == 0 then {} else Refs(k - 1) + {RefOf(k - 1)}
  }

  lemma RefInjective(i: nat, j: nat)
    requires i < 0x1_0000 && j < 0x1_0000 && RefOf(i) == RefOf(j)
    ensures i == j
  {
    Widths();
    PowSplit(2, 29);
    assert Pow256(31) >= Pow256(2) by {
      Times(Pow256(2), Pow256(29));
    }
    assert RefOf(i)[..31] == Le(i, 31) && RefOf(j)[..31] == Le(j, 31);
    LeRoundTrip(i, 31);
    LeRoundTrip(j, 31);
  }

  lemma Times(a: nat, b: nat)
    requires b > 0
    ensures a <= a * b
  {}

  lemma {:induction false} RefsBelow(k: nat, j: nat)
    requires k <= j < 0x1_0000
    ensures RefOf(j) !in Refs(k) && |Refs(k)| <= k
  {
    if k > 0 {
      RefsBelow(k - 1, j);
      if RefOf(j) == RefOf(k - 1) {
        RefInjective(j, k - 1);
      }
    }
  }

  function Burn(j: nat): AuthenticatedBurn {
    AuthenticatedBurn(ASSET, SOMEONE, SOMEONE, AMOUNT, RefOf(j), CHAIN, 0)
  }

  function Proof(j: nat): BurnProof {
    BurnProof(Ok(Burn(j)), 0, ZERO32, None)
  }

  function Statement(j: nat): ExitStatement {
    ExitStatement(EXIT_STATEMENT_VERSION, 1, ASSET, AMOUNT, SOMEONE, SOMEONE, RefOf(j), 0)
  }

  lemma Admitted(d: Desk, j: nat)
    requires j < 0x1_0000 && RefOf(j) !in d.consumed
    ensures Admissible(CFG, CHAIN, d, Proof(j)) == Ok((Statement(j), LOCKED))
  {
    Prices();
    assert ASSET[0] == 1 && SOMEONE[0] == 1 && RefOf(j)[31] == 1;
    assert ZERO16[0] == 0 && ZERO32[0] == 0 && ZERO32[31] == 0;
    assert CFG.assets[0] == ASSET;
  }

  function Terms(k: nat, v: u32): JournaledExit {
    JournaledExit(EXIT_STATEMENT_VERSION, 1, ASSET, AMOUNT, SOMEONE, SOMEONE, RefOf(k), 0, v, LOCKED, 0, 0)
  }

  /** The desk before round `k`: `k` exits opened and slashed, their collateral in the reserve, and a journal that replays
      to it from vaults `base`. */
  predicate Before(base: Book, l: Live, k: nat) {
    && k <= FITTING + 1 && |l.desk.exits| == k && l.desk.consumed == Refs(k) && l.desk.seized == k * LOCKED
    && l.journal.stray.None? && |l.journal.events| == 2 * k && Replay(Registered(base), l.journal.events) == Ok(l.desk)
  }

  function OpenedDesk(d: Desk, k: nat, v: u32, book: Book): Desk {
    d.(vaults := book, consumed := d.consumed + {RefOf(k)}, exits := d.exits + [ExitOf(Terms(k, v))])
  }

  function OpenedLive(l: Live, k: nat, v: u32, book: Book): Live
    requires k < 0x1_0000
  {
    Live(OpenedDesk(l.desk, k, v, book), Journal(l.journal.events + [Opened(k, Terms(k, v))], None))
  }

  lemma Chosen(b: Book, v: u32)
    requires TightestFit(b, LOCKED, v) && Lock(b, v, LOCKED).Ok?
    ensures LockAny(b, LOCKED) == Ok((v, Lock(b, v, LOCKED).value))
  {
    var id: u32 :| TightestFit(b, LOCKED, id) && LockAny(b, LOCKED) == Ok((id, Lock(b, id, LOCKED).value));
    TightestFitUnique(b, LOCKED, id, v);
  }

  /** An open whose checks pass, whose vault is chosen and whose record is stored. */
  lemma OpenShape(cfg: DeskConfig, chain: u64, l: Live, p: BurnProof, now: u64, f: Fault, s: ExitStatement, need: u128, v: u32, book: Book, e: Event)
    requires Admissible(cfg, chain, l.desk, p) == Ok((s, need)) && LockAny(l.desk.vaults, need) == Ok((v, book))
    requires |l.desk.consumed| < MAX_LEDGER_ENTRIES && e == OpenRecord(cfg, l.desk, s, v, need, now)
    requires l.journal.stray.None? && |l.journal.events| < MAX_JOURNAL_ENTRIES && f.stored
    ensures OpenExit(cfg, chain, l, p, now, f)
         == (Live(l.desk.(vaults := book, consumed := l.desk.consumed + {s.burnRef}, exits := l.desk.exits + [ExitOf(e.exit)]),
                  Journal(l.journal.events + [e], None)), Ok(|l.desk.exits|))
  {}

  lemma OpensRound(base: Book, l: Live, k: nat, v: u32)
    requires Before(base, l, k) && k <= FITTING && TightestFit(l.desk.vaults, LOCKED, v) && Lock(l.desk.vaults, v, LOCKED).Ok?
    ensures OpenExit(CFG, CHAIN, l, Proof(k), 0, GOOD) == (OpenedLive(l, k, v, Lock(l.desk.vaults, v, LOCKED).value), Ok(k))
  {
    RefsBelow(k, k);
    Admitted(l.desk, k);
    Chosen(l.desk.vaults, v);
    Recorded(l.desk, k, v);
    OpenShape(CFG, CHAIN, l, Proof(k), 0, GOOD, Statement(k), LOCKED, v, Lock(l.desk.vaults, v, LOCKED).value, Opened(k, Terms(k, v)));
  }

  lemma Recorded(d: Desk, k: nat, v: u32)
    requires k < 0x1_0000 && |d.exits| == k
    ensures OpenRecord(CFG, d, Statement(k), v, LOCKED, 0) == Opened(k, Terms(k, v))
  {}

  lemma OpenApplies(d: Desk, k: nat, v: u32)
    requires k < 0x1_0000 && |d.exits| == k && RefOf(k) !in d.consumed && |d.consumed| < MAX_LEDGER_ENTRIES
    requires Lock(d.vaults, v, LOCKED).Ok?
    ensures Apply(d, Opened(k, Terms(k, v))) == Ok(OpenedDesk(d, k, v, Lock(d.vaults, v, LOCKED).value))
  {}

  /** The slash of round `k` on the desk just opened. */
  lemma SlashesRound(l: Live, k: nat, v: u32)
    requires k < 0x1_0000 && |l.desk.exits| == k + 1 && l.desk.exits[k] == ExitOf(Terms(k, v))
    requires l.journal.stray.None? && |l.journal.events| < MAX_JOURNAL_ENTRIES
    requires v in l.desk.vaults && l.desk.vaults[v].locked >= LOCKED
    ensures var (m, r) := Slash(CFG, l, k, 1, GOOD);
      && m.journal == Journal(l.journal.events + [SlashedAt(k)], None)
      && m.desk.exits == SetState(l.desk.exits, k, Slashed) && m.desk.consumed == l.desk.consumed
      && Ok(m.desk.vaults) == Seize(l.desk.vaults, v, LOCKED)
      && (if l.desk.seized + LOCKED <= U128_MAX then r == Ok(LOCKED) && m.desk == Seized(l.desk, k)
          else r == Err(Overflow) && m.desk.seized == l.desk.seized)
  {
    Prices();
  }

  lemma SlashApplies(d: Desk, k: nat, v: u32)
    requires k < 0x1_0000 && |d.exits| == k + 1 && d.exits[k] == ExitOf(Terms(k, v)) && v in d.vaults && d.vaults[v].locked >= LOCKED
    ensures Apply(d, SlashedAt(k)) == if d.seized + LOCKED <= U128_MAX then Ok(Seized(d, k)) else Err(Overflow)
  {}

  // ---------------------------------------------------------------- rounds

  /** Open and slash, `k` times. */
  function Rounds(k: nat): seq<Op> {
    if k == 0 then [Register(1, U128_MAX), Register(2, LOCKED)]
    else Rounds(k - 1) + [Open(Proof(k - 1), 0, GOOD)] + [SlashExit(k - 1, 1, GOOD)]
  }

  const REGS: seq<(u32, u128)> := [(1, U128_MAX), (2, LOCKED)]
  const BASE: Book := map[1 := Vault(U128_MAX, 0), 2 := Vault(LOCKED, 0)]
  const NEW: System := System(Live(Registered(BASE), Journal([], None)), REGS, 0)

  /** The first round takes the second vault, the tightest fit; the others take the first. */
  function VaultOf(k: nat): u32 {
    if k == 0 then 2 else 1
  }

  function VaultsAt(k: nat): Book
    requires k <= FITTING + 1
  {
    Prices();
    if k == 0 then BASE else map[1 := Vault(FreeAfter(k - 1), 0), 2 := Vault(0, 0)]
  }

  function FreeAfter(k: nat): u128
    requires k <= FITTING
  {
    Prices();
    Within(k);
    U128_MAX - k * LOCKED
  }

  lemma Within(k: nat)
    requires k <= FITTING
    ensures k * LOCKED <= FITTING * LOCKED <= U128_MAX
  {}

  ghost function Then(r: Result<System, ExitError>, op: Op): Result<System, ExitError> {
    if r.Err? then r else Step(CFG, CHAIN, r.value, op)
  }

  lemma RunMore(ops: seq<Op>, op: Op)
    ensures Run(CFG, CHAIN, ops + [op]) == Then(Run(CFG, CHAIN, ops), op)
  {
    assert (ops + [op])[..|ops|] == ops;
  }

  lemma Registrations()
    ensures RegisterAll(REGS) == BASE && Run(CFG, CHAIN, Rounds(0)) == Ok(NEW)
  {
    assert REGS[..1] == [(1, U128_MAX)] && REGS[..1][..0] == [];
    var a, b := Register(1, U128_MAX), Register(2, LOCKED);
    RunMore([], a);
    assert [] + [a] == [a] && [a] + [b] == Rounds(0);
    var one := System(Live(Registered(map[1 := Vault(U128_MAX, 0)]), Journal([], None)), [(1, U128_MAX)], 0);
    assert Step(CFG, CHAIN, START, a) == Ok(one) by {
      assert START.regs + [(1, U128_MAX)] == [(1, U128_MAX)];
    }
    RunMore([a], b);
    assert one.regs + [(2, LOCKED)] == REGS;
    assert RegisterAll(REGS[..1]) == map[1 := Vault(U128_MAX, 0)];
  }

  predicate AtRound(s: System, k: nat)
  {
    k <= FITTING + 1 && s.regs == REGS && s.taken == 0 && Before(BASE, s.live, k) && s.live.desk.vaults == VaultsAt(k)
  }

  lemma VaultChosen(k: nat)
    requires k <= FITTING
    ensures TightestFit(VaultsAt(k), LOCKED, VaultOf(k)) && Lock(VaultsAt(k), VaultOf(k), LOCKED).Ok?
  {
    Prices();
    if k > 0 {
      Within(k);
      assert FreeAfter(k - 1) >= LOCKED;
    }
  }

  lemma VaultSeized(k: nat)
    requires k <= FITTING && Lock(VaultsAt(k), VaultOf(k), LOCKED).Ok?
    ensures var b := Lock(VaultsAt(k), VaultOf(k), LOCKED).value;
      b[VaultOf(k)].locked == LOCKED && Seize(b, VaultOf(k), LOCKED) == Ok(VaultsAt(k + 1))
  {
    Prices();
    var b := Lock(VaultsAt(k), VaultOf(k), LOCKED).value;
    var c := Seize(b, VaultOf(k), LOCKED).value;
    if k == 0 {
      assert FreeAfter(0) == U128_MAX;
      assert c == VaultsAt(1);
    } else {
      Within(k);
      assert FreeAfter(k - 1) - LOCKED == FreeAfter(k);
      assert c == VaultsAt(k + 1);
    }
  }

  /** The state between the two halves of round `k`. */
  predicate Midway(s: System, m: System, k: nat)
    requires k <= FITTING && Lock(s.live.desk.vaults, VaultOf(k), LOCKED).Ok?
  {
    && m.regs == REGS && m.taken == 0
    && m.live == OpenedLive(s.live, k, VaultOf(k), Lock(s.live.desk.vaults, VaultOf(k), LOCKED).value)
    && Replay(Registered(BASE), m.live.journal.events) == Ok(m.live.desk)
  }

  lemma RoundOpens(s: System, k: nat) returns (m: System)
    requires AtRound(s, k) && k <= FITTING
    ensures Lock(s.live.desk.vaults, VaultOf(k), LOCKED).Ok? && Midway(s, m, k)
    ensures Step(CFG, CHAIN, s, Open(Proof(k), 0, GOOD)) == Ok(m)
  {
    VaultChosen(k);
    OpensRound(BASE, s.live, k, VaultOf(k));
    m := s.(live := OpenExit(CFG, CHAIN, s.live, Proof(k), 0, GOOD).0);
    RefsBelow(k, k);
    OpenApplies(s.live.desk, k, VaultOf(k));
    ReplayOneMore(Registered(BASE), s.live.journal.events, Opened(k, Terms(k, VaultOf(k))), s.live.desk, m.live.desk);
  }

  lemma SeizedBefore(l: Live, m: Live, x: Live, k: nat, v: u32, book: Book)
    requires Before(BASE, l, k) && k < FITTING && m == OpenedLive(l, k, v, book)
    requires Replay(Registered(BASE), m.journal.events) == Ok(m.desk)
    requires Seize(book, v, LOCKED).Ok? && x == Live(Seized(m.desk, k), Journal(m.journal.events + [SlashedAt(k)], None))
    requires Apply(m.desk, SlashedAt(k)) == Ok(x.desk)
    ensures Before(BASE, x, k + 1) && x.desk.vaults == Seize(book, v, LOCKED).value
  {
    ReplayOneMore(Registered(BASE), m.journal.events, SlashedAt(k), m.desk, x.desk);
  }

  lemma RoundSlashes(s: System, m: System, k: nat) returns (x: System)
    requires AtRound(s, k) && k < FITTING && Lock(s.live.desk.vaults, VaultOf(k), LOCKED).Ok? && Midway(s, m, k)
    ensures Step(CFG, CHAIN, m, SlashExit(k, 1, GOOD)) == Ok(x) && AtRound(x, k + 1)
  {
    var v, book := VaultOf(k), Lock(s.live.desk.vaults, VaultOf(k), LOCKED).value;
    VaultSeized(k);
    Within(k + 1);
    SlashesRound(m.live, k, v);
    SlashApplies(m.live.desk, k, v);
    x := m.(live := Slash(CFG, m.live, k, 1, GOOD).0);
    SeizedBefore(s.live, m.live, x.live, k, v, book);
  }

  lemma NewAtRound(s: System)
    requires s == NEW
    ensures AtRound(s, 0)
  {}

  ghost function Round(r: Result<System, ExitError>, k: nat): Result<System, ExitError> {
    Then(Then(r, Open(Proof(k), 0, GOOD)), SlashExit(k, 1, GOOD))
  }

  ghost function Iterate<S>(step: (S, nat) -> S, s: S, k: nat): S {
    if k == 0 then s else step(Iterate(step, s, k - 1), k - 1)
  }

  ghost predicate Steps<S(!new)>(step: (S, nat) -> S, p: (S, nat) -> bool, k: nat) {
    forall x, i: nat :: i < k && p(x, i) ==> p(step(x, i), i + 1)
  }

  lemma {:induction false} IterateKeeps<S(!new)>(step: (S, nat) -> S, s: S, p: (S, nat) -> bool, k: nat)
    requires p(s, 0) && Steps(step, p, k)
    ensures p(Iterate(step, s, k), k)
  {
    if k > 0 {
      IterateKeeps(step, s, p, k - 1);
    }
  }

  ghost predicate At(r: Result<System, ExitError>, k: nat) {
    r.Ok? && AtRound(r.value, k)
  }

  ghost predicate Ran(r: Result<System, ExitError>, k: nat) {
    Run(CFG, CHAIN, Rounds(k)) == r
  }

  lemma RoundAt(r: Result<System, ExitError>, k: nat, next: nat)
    requires At(r, k) && k < FITTING && next == k + 1
    ensures At(Round(r, k), next)
  {
    var m := RoundOpens(r.value, k);
    var s := RoundSlashes(r.value, m, k);
  }

  lemma RoundRan(ops: seq<Op>, k: nat)
    ensures Run(CFG, CHAIN, ops + [Open(Proof(k), 0, GOOD)] + [SlashExit(k, 1, GOOD)]) == Round(Run(CFG, CHAIN, ops), k)
  {
    RunMore(ops, Open(Proof(k), 0, GOOD));
    RunMore(ops + [Open(Proof(k), 0, GOOD)], SlashExit(k, 1, GOOD));
  }

  lemma RoundsRun(k: nat) returns (s: System)
    requires k <= FITTING
    ensures Run(CFG, CHAIN, Rounds(k)) == Ok(s) && AtRound(s, k)
  {
    var r := Iterate(Round, Ok(NEW), k);
    AtRounds(k);
    RanRounds(k);
    s := r.value;
  }

  lemma RoundSteps(k: nat)
    requires k <= FITTING
    ensures Steps(Round, At, k)
  {
    forall x, i: nat | i < k && At(x, i) ensures At(Round(x, i), i + 1) {
      RoundAt(x, i, i + 1);
    }
  }

  lemma AtRounds(k: nat)
    requires k <= FITTING
    ensures At(Iterate(Round, Ok(NEW), k), k)
  {
    NewAtRound(NEW);
    RoundSteps(k);
    IterateKeeps(Round, Ok(NEW), At, k);
  }

  lemma RanRounds(k: nat)
    ensures Ran(Iterate(Round, Ok(NEW), k), k)
  {
    Registrations();
    forall x, i: nat | i < k && Ran(x, i) ensures Ran(Round(x, i), i + 1) {
      RoundRan(Rounds(i), i);
    }
    IterateKeeps(Round, Ok(NEW), Ran, k);
  }

  /** At this desk the slash of the last exit is due and is journaled and fails; the exit is left slashed, its collateral
      is in neither vault nor reserve, and the desk cannot be started again from its journal. */
  ghost predicate Tears(s: System) {
    && Slashable(CFG, s.live.desk, FITTING, 1).Ok?
    && var (l, r) := Slash(CFG, s.live, FITTING, 1, GOOD);
       && r == Err(Overflow) && l.desk.exits == SetState(s.live.desk.exits, FITTING, Slashed)
       && l.desk.seized == s.live.desk.seized && Ok(l.desk.vaults) == Seize(s.live.desk.vaults, 1, LOCKED)
       && Reboot(s.(live := l), false).Err?
  }

  /** Such a desk is reached: ten thousand exits opened and slashed without an error, and one more opened. */
  lemma SlashTears() returns (s: System)
    ensures Run(CFG, CHAIN, Rounds(FITTING) + [Open(Proof(FITTING), 0, GOOD)]) == Ok(s) && Tears(s)
  {
    var p := RoundsRun(FITTING);
    s := RoundOpens(p, FITTING);
    RunMore(Rounds(FITTING), Open(Proof(FITTING), 0, GOOD));
    LastSlash(p, s);
  }

  lemma LastSlash(p: System, s: System)
    requires AtRound(p, FITTING) && Lock(p.live.desk.vaults, 1, LOCKED).Ok? && Midway(p, s, FITTING)
    ensures Tears(s)
  {
    Prices();
    Registrations();
    VaultSeized(FITTING);
    SlashesRound(s.live, FITTING, 1);
    SlashApplies(s.live.desk, FITTING, 1);
    ReplayAppend(Registered(BASE), s.live.journal.events, SlashedAt(FITTING));
    assert Slashable(CFG, s.live.desk, FITTING, 1).Ok?;
  }
}
