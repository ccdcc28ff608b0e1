/** The supply against the caps as they stand, and the runs on which callers break what the gateway keeps
    (q-gateway: gateway.rs; q-federated: pools.rs). */
module GatewayCaps {
  import opened Machine
  import opened Attestor
  import opened Quorum
  import opened GatewayState
  import opened GatewayBooks
  import opened GatewayGuards
  import opened GatewayRuns

  /** Every registered asset's supply is within the cap it has now. */
  ghost predicate WithinCaps(w: World) {
    forall a :: a in w.gate.limits.cap ==> Supply(w.gate.books, a) <= w.gate.limits.cap[a]
  }

  /** The cap a call registers, if any. */
  function CapOf(op: Op): Option<(Asset, u128)> {
    match op
    case RegisterCap(a, cap) => Some((a, cap))
    case InstallPool(a, cap, _, _, _) => Some((a, cap))
    case _ => None
  }

  /** What a caller must see before registering a cap: the source's supply figure is within it. */
  ghost predicate CapCovers(g: Gate, op: Op) {
    CapOf(op).Some? ==> SupplyFigure(g.books, CapOf(op).value.0) <= CapOf(op).value.1
  }

  lemma AdmitWithin(w: World, key: Key, a: Asset, amount: u128)
    requires Sound(w) && WithinCaps(w) && Caps(w.gate.limits, w.gate.books, a, amount).None?
    ensures WithinCaps(Admit(w, key, a, amount))
  {
    var x := Admit(w, key, a, amount);
    FigureExact(w.gate.books, a);
    forall y: Asset ensures Supply(x.gate.books, y) == Supply(w.gate.books, y) + if y == a then amount else 0 {
      MintSupply(w.gate.books, key, a, amount, y);
    }
  }

  lemma AdmissionWithin(verify: Verify, w: World, op: Op)
    requires Sound(w) && WithinCaps(w) && (op.AdmitTrustless? || op.ProcessDeposit?)
    ensures WithinCaps(Step(verify, w, op))
  {
    if Step(verify, w, op) != w {
      if op.AdmitTrustless? {
        AdmitWithin(w, op.key, op.asset, op.amount);
      } else {
        AdmitWithin(w, FactKey(op.fact), op.fact.asset, op.fact.amount);
      }
    }
  }

  lemma RegisterWithin(verify: Verify, w: World, op: Op)
    requires Sound(w) && WithinCaps(w) && CapOf(op).Some?
    ensures WithinCaps(Step(verify, w, op)) <==> CapCovers(w.gate, op)
  {
    var (a, cap) := CapOf(op).value;
    FigureExact(w.gate.books, a);
    var x := Step(verify, w, op);
    assert x.gate.books == w.gate.books && x.gate.limits.cap == w.gate.limits.cap[a := cap];
    assert a in x.gate.limits.cap;
  }

  lemma OthersWithin(verify: Verify, w: World, op: Op)
    requires Sound(w) && WithinCaps(w) && CapOf(op).None? && !op.AdmitTrustless? && !op.ProcessDeposit?
    ensures WithinCaps(Step(verify, w, op))
  {
    if op.RequestExit? || op.FinalizeExit? || op.CancelExit? {
      ExitBacked(verify, w, op);
    } else {
      forall a: Asset ensures Supply(Step(verify, w, op).gate.books, a) == Supply(w.gate.books, a) {}
    }
  }

  /** One call leaves every supply within its current cap exactly when a cap it registers covers the supply. */
  lemma StepWithin(verify: Verify, w: World, op: Op)
    requires Sound(w) && WithinCaps(w)
    ensures WithinCaps(Step(verify, w, op)) <==> CapCovers(w.gate, op)
  {
    if CapOf(op).Some? {
      RegisterWithin(verify, w, op);
    } else if op.AdmitTrustless? || op.ProcessDeposit? {
      AdmissionWithin(verify, w, op);
    } else {
      OthersWithin(verify, w, op);
    }
  }

  /** Every cap registered in the run covered the supply at that moment. */
  ghost predicate CapsCover(verify: Verify, start: World, run: seq<Op>) {
    forall i :: 0 <= i < |run| ==> CapCovers(After(verify, start, run[..i]).gate, run[i])
  }

  lemma {:induction false} RunWithin(verify: Verify, start: World, run: seq<Op>)
    requires Sound(start) && WithinCaps(start) && CapsCover(verify, start, run)
    ensures Sound(After(verify, start, run)) && WithinCaps(After(verify, start, run))
  {
    if run != [] {
      var n := |run| - 1;
      forall i | 0 <= i < n ensures CapCovers(After(verify, start, run[..n][..i]).gate, run[..n][i]) {
        assert run[..n][..i] == run[..i];
      }
      RunWithin(verify, start, run[..n]);
      StepSound(verify, After(verify, start, run[..n]), run[n]);
      StepWithin(verify, After(verify, start, run[..n]), run[n]);
    }
  }

  /** Over every run of a new gateway, every supply is within its current cap at every moment exactly when every cap
      registered covered the supply when it was registered. */
  lemma WithinCapsExactly(verify: Verify, c: Config, epochCap: u128, run: seq<Op>)
    ensures (forall i :: 0 <= i <= |run| ==> WithinCaps(After(verify, Fresh(c, epochCap), run[..i])))
       <==> CapsCover(verify, Fresh(c, epochCap), run)
  {
    var start := Fresh(c, epochCap);
    FreshSound(c, epochCap);
    forall i | 0 <= i < |run| ensures After(verify, start, run[..i + 1]) == Step(verify, After(verify, start, run[..i]), run[i])
    {
      assert run[..i + 1][..i] == run[..i];
    }
    if CapsCover(verify, start, run) {
      forall i | 0 <= i <= |run| ensures WithinCaps(After(verify, start, run[..i])) {
        forall j | 0 <= j < i ensures CapCovers(After(verify, start, run[..i][..j]).gate, run[..i][j]) {
          assert run[..i][..j] == run[..j];
        }
        RunWithin(verify, start, run[..i]);
      }
    } else {
      var i :| 0 <= i < |run| && !CapCovers(After(verify, start, run[..i]).gate, run[i]);
      RunKeepsSound(verify, start, run[..i]);
      if WithinCaps(After(verify, start, run[..i])) {
        StepWithin(verify, After(verify, start, run[..i]), run[i]);
        assert !WithinCaps(After(verify, start, run[..i + 1]));
      }
    }
  }

  /** A cap never lowered: at least what the asset's cap was. */
  ghost predicate NeverLowered(verify: Verify, start: World, run: seq<Op>) {
    forall i :: 0 <= i < |run| && CapOf(run[i]).Some? ==>
      Get(After(verify, start, run[..i]).gate.limits.cap, CapOf(run[i]).value.0) <= CapOf(run[i]).value.1
  }

  lemma {:induction false} HighestIsCurrent(verify: Verify, c: Config, epochCap: u128, run: seq<Op>)
    requires NeverLowered(verify, Fresh(c, epochCap), run)
    ensures AtHighest(After(verify, Fresh(c, epochCap), run))
  {
    if run != [] {
      var n, start := |run| - 1, Fresh(c, epochCap);
      forall i | 0 <= i < n && CapOf(run[..n][i]).Some?
        ensures Get(After(verify, start, run[..n][..i]).gate.limits.cap, CapOf(run[i]).value.0) <= CapOf(run[i]).value.1
      {
        assert run[..n][..i] == run[..i];
      }
      HighestIsCurrent(verify, c, epochCap, run[..n]);
      StaysHighest(verify, After(verify, start, run[..n]), run[n]);
    }
  }

  /** Every cap is the highest it has been. */
  ghost predicate AtHighest(w: World) {
    forall a :: Get(w.history.highCap, a) == Get(w.gate.limits.cap, a)
  }

  lemma StaysHighest(verify: Verify, w: World, op: Op)
    requires AtHighest(w) && (CapOf(op).Some? ==> Get(w.gate.limits.cap, CapOf(op).value.0) <= CapOf(op).value.1)
    ensures AtHighest(Step(verify, w, op))
  {
    CapsMoveTogether(verify, w, op);
    var x := Step(verify, w, op);
    forall a: Asset ensures Get(x.history.highCap, a) == Get(x.gate.limits.cap, a) {
      assert Get(w.history.highCap, a) == Get(w.gate.limits.cap, a);
    }
  }

  lemma CapsMoveTogether(verify: Verify, w: World, op: Op)
    ensures var x := Step(verify, w, op);
      if CapOf(op).None? then x.history.highCap == w.history.highCap && x.gate.limits.cap == w.gate.limits.cap
      else
        var (a, cap) := CapOf(op).value;
        x.gate.limits.cap == w.gate.limits.cap[a := cap]
        && x.history.highCap == w.history.highCap[a := Max(Get(w.history.highCap, a), cap)]
  {}

  /** While caps are not lowered, every asset's supply is at or below its current cap, and an asset without a cap has
      none. */
  lemma CapsNotLowered(verify: Verify, c: Config, epochCap: u128, run: seq<Op>)
    requires NeverLowered(verify, Fresh(c, epochCap), run)
    ensures var g := After(verify, Fresh(c, epochCap), run).gate; forall a :: Supply(g.books, a) <= Get(g.limits.cap, a)
  {
    RunSound(verify, c, epochCap, run);
    HighestIsCurrent(verify, c, epochCap, run);
  }

  // ---------------------------------------------------------------- the failing inputs

  const ASSET: Asset := [1] + ZERO16[1..]
  const KEY: Key := Key(1, ZERO32)

  /** A corridor opened, a cap of 100 registered and 100 admitted. */
  const MINTED: seq<Op> :=
    [GuardOp(Corridor(1, CorridorConfig(6, 0, 1, true))), RegisterCap(ASSET, 100), AdmitTrustless(ASSET, KEY, 100)]

  function Opened(c: Config): World {
    var w := Fresh(c, 100);
    SetCap(WithGuard(w, w.gate.guard.(corridors := map[1 := CorridorConfig(6, 0, 1, true)])), ASSET, 100)
  }

  lemma OpenedAdmits(c: Config)
    ensures CheckTrustless(Opened(c).gate, ASSET, KEY, 100).None? && Supply(Opened(c).gate.books, ASSET) == 0
  {
    AllZero(PendingAmounts(map[], ASSET));
  }

  lemma CorridorOpens(verify: Verify, w: World)
    requires w.gate.guard.corridors == map[]
    ensures Step(verify, w, MINTED[0]) == WithGuard(w, w.gate.guard.(corridors := map[1 := CorridorConfig(6, 0, 1, true)]))
  {}

  lemma FirstStep(verify: Verify, c: Config)
    ensures var w := Fresh(c, 100);
      After(verify, w, [MINTED[0]]) == WithGuard(w, w.gate.guard.(corridors := map[1 := CorridorConfig(6, 0, 1, true)]))
  {
    var w, op := Fresh(c, 100), MINTED[0];
    assert [op][..0] == [] && After(verify, w, []) == w;
    CorridorOpens(verify, w);
  }

  lemma OpenedRun(verify: Verify, c: Config)
    ensures After(verify, Fresh(c, 100), [MINTED[0], MINTED[1]]) == Opened(c)
  {
    FirstStep(verify, c);
    Stepwise(verify, Fresh(c, 100), [MINTED[0]], MINTED[1]);
    assert [MINTED[0]] + [MINTED[1]] == [MINTED[0], MINTED[1]];
  }

  lemma MintedRun(verify: Verify, c: Config)
    ensures After(verify, Fresh(c, 100), MINTED) == Admit(Opened(c), KEY, ASSET, 100)
  {
    OpenedRun(verify, c);
    Stepwise(verify, Fresh(c, 100), [MINTED[0], MINTED[1]], MINTED[2]);
    assert [MINTED[0], MINTED[1]] + [MINTED[2]] == MINTED;
    OpenedAdmits(c);
  }

  /** The asset has 100 outstanding and no figure, and the gateway is not paused. */
  ghost predicate HasHundred(w: World) {
    && Sound(w) && BreakerOk(w.gate) && Supply(w.gate.books, ASSET) == 100
    && w.gate.reserve.escrowed == map[] && !w.gate.guard.globalPause
  }

  lemma MintedSupply(verify: Verify, c: Config)
    ensures HasHundred(After(verify, Fresh(c, 100), MINTED))
  {
    MintedRun(verify, c);
    OpenedAdmits(c);
    MintSupply(Opened(c).gate.books, KEY, ASSET, 100, ASSET);
    RunSound(verify, c, 100, MINTED);
  }

  lemma LowerBreaks(verify: Verify, w: World)
    requires HasHundred(w)
    ensures !WithinCaps(Step(verify, w, RegisterCap(ASSET, 50)))
  {
    var x := Step(verify, w, RegisterCap(ASSET, 50));
    assert x.gate.books == w.gate.books && ASSET in x.gate.limits.cap;
  }

  /** A cap lowered below the supply leaves the supply above it. */
  lemma LoweredCap(verify: Verify, c: Config)
    ensures !WithinCaps(After(verify, Fresh(c, 100), MINTED + [RegisterCap(ASSET, 50)]))
  {
    MintedSupply(verify, c);
    Stepwise(verify, Fresh(c, 100), MINTED, RegisterCap(ASSET, 50));
    LowerBreaks(verify, After(verify, Fresh(c, 100), MINTED));
  }

  lemma FigureBreaks(verify: Verify, w: World, op: Op)
    requires HasHundred(w) && (op == SetEscrow(ASSET, 50) || op == InstallPool(ASSET, 100, 100, 1, 6))
    ensures !BreakerOk(Step(verify, w, op).gate)
  {
    StepBreaker(verify, w, op);
    FigureExact(w.gate.books, ASSET);
  }

  /** A figure set below the supply breaks the breaker; so does a pool installed for an asset with supply and no figure. */
  lemma ShortFigure(verify: Verify, c: Config, op: Op)
    requires op == SetEscrow(ASSET, 50) || op == InstallPool(ASSET, 100, 100, 1, 6)
    ensures !BreakerOk(After(verify, Fresh(c, 100), MINTED + [op]).gate)
  {
    MintedSupply(verify, c);
    Stepwise(verify, Fresh(c, 100), MINTED, op);
    FigureBreaks(verify, After(verify, Fresh(c, 100), MINTED), op);
  }

  lemma UnpauseBreaks(verify: Verify, w: World)
    requires HasHundred(w)
    ensures var x := Step(verify, Step(verify, w, GuardOp(Pause)), SetEscrow(ASSET, 50));
      BreakerOk(x.gate) && !BreakerOk(Step(verify, x, UnpauseAll).gate)
  {
    var x := Step(verify, Step(verify, w, GuardOp(Pause)), SetEscrow(ASSET, 50));
    assert x.gate.books == w.gate.books && x.gate.guard.globalPause;
    ShortOnceUnpaused(verify, x);
  }

  lemma ShortOnceUnpaused(verify: Verify, x: World)
    requires ASSET in x.gate.reserve.escrowed && x.gate.reserve.escrowed[ASSET] == 50 && Supply(x.gate.books, ASSET) == 100
    ensures !BreakerOk(Step(verify, x, UnpauseAll).gate)
  {}

  /** Set under a pause, the same figure is harmless until the gateway is unpaused directly. */
  lemma ShortUnpause(verify: Verify, c: Config)
    ensures var run := MINTED + [GuardOp(Pause)] + [SetEscrow(ASSET, 50)];
      && BreakerOk(After(verify, Fresh(c, 100), run).gate)
      && !BreakerOk(After(verify, Fresh(c, 100), run + [UnpauseAll]).gate)
  {
    var start := Fresh(c, 100);
    MintedSupply(verify, c);
    Stepwise(verify, start, MINTED, GuardOp(Pause));
    Stepwise(verify, start, MINTED + [GuardOp(Pause)], SetEscrow(ASSET, 50));
    Stepwise(verify, start, MINTED + [GuardOp(Pause)] + [SetEscrow(ASSET, 50)], UnpauseAll);
    UnpauseBreaks(verify, After(verify, start, MINTED));
  }
}
