/** Runs of the gateway: conservation, caps and the reserve breaker over every sequence of calls
    (q-gateway: gateway.rs). */
module GatewayRuns {
  import opened Machine
  import opened Facts
  import opened Attestor
  import opened Airlock
  import opened Quorum
  import opened GatewayState
  import opened GatewayBooks
  import opened GatewayGuards

  datatype Op =
    | AdmitTrustless(asset: Asset, key: Key, amount: u128)
    | ProcessDeposit(fact: BridgeFact, sigs: seq<SignerSig>)
    | RequestExit(asset: Asset, amount: u128, destination: Bytes32)
    | FinalizeExit(id: u64)
    | CancelExit(id: u64)
    | AdvanceEpochTo(epoch: u64)
    | AttestReserveOp(asset: Asset, escrowed: u128, at: u64, sigs: seq<SignerSig>)
    | ResumeAllOp(at: u64, sigs: seq<SignerSig>)
    | GuardOp(change: GuardChange)
    | RegisterCap(asset: Asset, cap: u128)
    | RegisterEpochCap(asset: Asset, cap: u128)
    | RequireReports(maxAge: u64)
    | SetExitDelay(delay: u64)
    | SetEscrow(asset: Asset, escrowed: u128)
    | UnpauseAll
    | InstallPool(asset: Asset, cap: u128, epochCap: u128, chain: u32, depth: u32)

  /** Calls that touch the guards alone. */
  datatype GuardChange =
    | Pause
    | Height(to: u64)
    | Watchdog(until: u64, sig: SignerSig)
    | Freeze(until: u64, sigs: seq<SignerSig>)
    | Lift(sigs: seq<SignerSig>)
    | Reorg(chain: u32, depth: u32, at: u64, sigs: seq<SignerSig>)
    | Resume(chain: u32, at: u64, sigs: seq<SignerSig>)
    | PauseSource(chain: u32)
    | UnpauseSourceOp(chain: u32)
    | Corridor(chain: u32, corridor: CorridorConfig)

  function CheckChange(verify: Verify, c: Config, g: Guard, change: GuardChange): Option<GatewayError> {
    match change
    case Watchdog(until, sig) => CheckWatchdog(verify, c, g, until, sig)
    case Freeze(until, sigs) => CheckFreeze(verify, c, g, until, sigs)
    case Lift(sigs) => CheckLift(verify, c, g, sigs)
    case Reorg(chain, depth, at, sigs) => CheckReorg(verify, c, g, chain, depth, at, sigs)
    case Resume(chain, at, sigs) => CheckResume(verify, c, g, chain, at, sigs)
    case _ => None
  }

  /** The guard after a change that was not refused, or unchanged after one that was. */
  function Changed(refused: bool, g: Guard, change: GuardChange): Guard {
    if refused then g
    else
      match change
      case Pause => PauseAll(g)
      case Height(to) => AdvanceTo(g, to)
      case Watchdog(until, sig) => WatchdogFreeze(g, until, sig.operatorId)
      case Freeze(until, _) => EmergencyFreeze(g, until)
      case Lift(_) => g.(liftedFreeze := g.frozenUntil)
      case Reorg(chain, _, _, _) => ReportReorg(g, chain)
      case Resume(chain, at, _) => ResumeSource(g, chain, at)
      case PauseSource(chain) => PauseSourceDirect(g, chain)
      case UnpauseSourceOp(chain) => UnpauseSource(g, chain)
      case Corridor(chain, corridor) => g.(corridors := g.corridors[chain := corridor])
  }

  function ChangeGuard(verify: Verify, c: Config, g: Guard, change: GuardChange): Guard {
    Changed(CheckChange(verify, c, g, change).Some?, g, change)
  }

  datatype World = World(gate: Gate, history: History)

  ghost function Admit(w: World, key: Key, a: Asset, amount: u128): World {
    World(w.gate.(books := Mint(w.gate.books, key, a, amount)),
          w.history.(admitted := Plus(w.history.admitted, a, amount)))
  }

  ghost function Leave(w: World, a: Asset, amount: u128, destination: Bytes32): World
    requires CheckRequest(w.gate.books, a, amount) == None
  {
    var unlock := SatAdd64(w.gate.guard.height, w.gate.limits.exitDelay);
    var t := NewTicket(w.gate.books, a, amount, destination, unlock);
    World(w.gate.(books := Request(w.gate.books, t)), w.history.(issued := w.history.issued + {t.exitId}))
  }

  ghost function Depart(w: World, id: u64): World
    requires id in w.gate.books.pending
  {
    var t := w.gate.books.pending[id];
    World(w.gate.(books := Finalize(w.gate.books, id)),
          w.history.(finalized := Plus(w.history.finalized, t.asset, t.amount)))
  }

  function SetCap(w: World, a: Asset, cap: u128): World {
    World(w.gate.(limits := w.gate.limits.(cap := w.gate.limits.cap[a := cap])),
          w.history.(highCap := w.history.highCap[a := Max(Get(w.history.highCap, a), cap)]))
  }

  /** `register_corridor`: one already there is left as it is. */
  function RegisterCorridor(g: Guard, chain: u32, depth: u32): Guard {
    if chain in g.corridors then g
    else g.(corridors := g.corridors[chain := CorridorConfig(depth, 0, BASE_TIER, true)])
  }

  /** `install_pool`: corridor, caps, and an escrow figure of zero where there is none. */
  function PoolInstalled(w: World, a: Asset, cap: u128, epochCap: u128, chain: u32, depth: u32): World {
    var g, r := SetCap(w, a, cap), w.gate.reserve;
    g.(gate := g.gate.(
         guard := RegisterCorridor(w.gate.guard, chain, depth),
         limits := g.gate.limits.(assetEpochCap := g.gate.limits.assetEpochCap[a := epochCap]),
         reserve := if a in r.escrowed then r else r.(escrowed := r.escrowed[a := 0])))
  }

  function WithReserve(w: World, r: Reserve): World {
    w.(gate := w.gate.(reserve := r))
  }

  function WithGuard(w: World, g: Guard): World {
    w.(gate := w.gate.(guard := g))
  }

  ghost function Step(verify: Verify, w: World, op: Op): World {
    var g := w.gate;
    match op
    case AdmitTrustless(a, key, amount) => if CheckTrustless(g, a, key, amount).Some? then w else Admit(w, key, a, amount)
    case ProcessDeposit(f, sigs) =>
      if CheckMint(verify, g, f, sigs).Some? then w else Admit(w, FactKey(f), f.asset, f.amount)
    case RequestExit(a, amount, destination) =>
      if CheckRequest(g.books, a, amount).Some? then w else Leave(w, a, amount, destination)
    case FinalizeExit(id) => if CheckFinalize(g.guard, g.books, id).Some? then w else Depart(w, id)
    case CancelExit(id) => if id !in g.books.pending then w else w.(gate := g.(books := Cancel(g.books, id)))
    case AdvanceEpochTo(epoch) => w.(gate := g.(books := AdvanceEpoch(g.books, epoch)))
    case AttestReserveOp(a, escrowed, at, sigs) =>
      if CheckReserve(verify, g, a, escrowed, at, sigs).Some? then w else w.(gate := AttestReserve(g, a, escrowed, at))
    case ResumeAllOp(at, sigs) =>
      if CheckResumeAll(verify, g, at, sigs).Some? then w else WithGuard(w, ResumeAll(g.guard, at))
    case GuardOp(change) => WithGuard(w, ChangeGuard(verify, g.config, g.guard, change))
    case RegisterCap(a, cap) => SetCap(w, a, cap)
    case RegisterEpochCap(a, cap) =>
      w.(gate := g.(limits := g.limits.(assetEpochCap := g.limits.assetEpochCap[a := cap])))
    case RequireReports(maxAge) =>
      WithReserve(w, g.reserve.(maxAge := Some(Max(1, Min(maxAge, RESERVE_MAX_AGE)))))
    case SetExitDelay(delay) => w.(gate := g.(limits := g.limits.(exitDelay := delay)))
    case SetEscrow(a, escrowed) => WithReserve(w, g.reserve.(escrowed := g.reserve.escrowed[a := escrowed]))
    case UnpauseAll => WithGuard(w, g.guard.(globalPause := false))
    case InstallPool(a, cap, epochCap, chain, depth) => PoolInstalled(w, a, cap, epochCap, chain, depth)
  }

  /** The call is an admission that goes ahead. */
  ghost predicate Admits(verify: Verify, g: Gate, op: Op) {
    match op
    case AdmitTrustless(asset, key, amount) => CheckTrustless(g, asset, key, amount).None?
    case ProcessDeposit(f, sigs) => CheckMint(verify, g, f, sigs).None?
    case _ => false
  }

  /** `Gateway::new`. */
  function Fresh(c: Config, epochCap: u128): World {
    World(
      Gate(c, Limits(map[], epochCap, map[], 0), Books(map[], map[], 0, {}, {}, 0, 0, map[]), Reserve(map[], None, map[]),
           Guard(false, 0, 0, 0, 0, 0, 0, {}, map[], map[], map[], map[], map[], 0, ZERO32)),
      History(map[], map[], map[], {}))
  }

  ghost function After(verify: Verify, start: World, run: seq<Op>): World {
    if run == [] then start else Step(verify, After(verify, start, run[..|run| - 1]), run[|run| - 1])
  }

  lemma Stepwise(verify: Verify, start: World, run: seq<Op>, op: Op)
    ensures After(verify, start, run + [op]) == Step(verify, After(verify, start, run), op)
  {
    assert (run + [op])[..|run|] == run;
  }

  // ---------------------------------------------------------------- supply and caps

  ghost predicate Sound(w: World) {
    && BooksOk(w.gate.books, w.history, w.gate.limits.epochCap)
    && forall a :: a in w.gate.limits.cap ==> w.gate.limits.cap[a] <= Get(w.history.highCap, a)
  }

  lemma AdmitSound(w: World, key: Key, a: Asset, amount: u128)
    requires Sound(w) && Caps(w.gate.limits, w.gate.books, a, amount) == None
    ensures Sound(Admit(w, key, a, amount))
  {
    MintKeeps(w.gate.limits, w.gate.books, w.history, key, a, amount);
  }

  lemma ExitSound(verify: Verify, w: World, op: Op)
    requires Sound(w) && (op.RequestExit? || op.FinalizeExit? || op.CancelExit?)
    ensures Sound(Step(verify, w, op))
  {
    var b, h, cap := w.gate.books, w.history, w.gate.limits.epochCap;
    match op
    case RequestExit(a, amount, destination) =>
      if CheckRequest(b, a, amount).None? {
        var unlock := SatAdd64(w.gate.guard.height, w.gate.limits.exitDelay);
        RequestKeeps(b, h, cap, NewTicket(b, a, amount, destination, unlock));
      }
    case FinalizeExit(id) =>
      if id in b.pending {
        FinalizeKeeps(b, h, cap, id);
      }
    case CancelExit(id) =>
      if id in b.pending {
        CancelKeeps(b, h, cap, id);
      }
  }

  lemma StepSound(verify: Verify, w: World, op: Op)
    requires Sound(w)
    ensures Sound(Step(verify, w, op))
  {
    match op
    case AdmitTrustless(a, key, amount) =>
      if CheckTrustless(w.gate, a, key, amount).None? {
        AdmitSound(w, key, a, amount);
      }
    case ProcessDeposit(f, sigs) =>
      if CheckMint(verify, w.gate, f, sigs).None? {
        AdmitSound(w, FactKey(f), f.asset, f.amount);
      }
    case AdvanceEpochTo(epoch) => EpochKeeps(w.gate.books, w.history, w.gate.limits.epochCap, epoch);
    case RegisterCap(a, cap) => CapKeeps(w.gate.books, w.history, w.gate.limits.epochCap, a, cap);
    case InstallPool(a, cap, _, _, _) => CapKeeps(w.gate.books, w.history, w.gate.limits.epochCap, a, cap);
    case _ =>
      if op.RequestExit? || op.FinalizeExit? || op.CancelExit? {
        ExitSound(verify, w, op);
      }
  }

  lemma FreshSound(c: Config, epochCap: u128)
    ensures Sound(Fresh(c, epochCap))
  {
    var b := Fresh(c, epochCap).gate.books;
    forall a: Asset ensures Supply(b, a) == 0 {
      AllZero(PendingAmounts(b.pending, a));
    }
  }

  /** Over every run: per asset, minted plus pending exits is what was admitted less what was finalized, and stays at or
      below the highest cap the asset has had; the epoch total is the sum over assets and within the epoch cap. */
  lemma {:induction false} RunSound(verify: Verify, c: Config, epochCap: u128, run: seq<Op>)
    ensures Sound(After(verify, Fresh(c, epochCap), run))
  {
    if run == [] {
      FreshSound(c, epochCap);
    } else {
      RunSound(verify, c, epochCap, run[..|run| - 1]);
      StepSound(verify, After(verify, Fresh(c, epochCap), run[..|run| - 1]), run[|run| - 1]);
    }
  }

  // ---------------------------------------------------------------- references

  /** An admission on either path uses a reference that was never used before, and marks it. */
  lemma AdmittedOnce(verify: Verify, w: World, op: Op, key: Key)
    requires op.AdmitTrustless? || op.ProcessDeposit?
    requires key == if op.AdmitTrustless? then op.key else FactKey(op.fact)
    requires Step(verify, w, op) != w
    ensures key !in w.gate.books.usedRefs && key in Step(verify, w, op).gate.books.usedRefs
  {}

  /** No step forgets a used reference. */
  lemma RefsGrow(verify: Verify, w: World, op: Op)
    ensures w.gate.books.usedRefs <= Step(verify, w, op).gate.books.usedRefs
  {}

  // ---------------------------------------------------------------- the reserve breaker

  ghost predicate BreakerOk(g: Gate) {
    !g.guard.globalPause ==> Backed(g.books, g.reserve)
  }

  ghost predicate Backed(b: Books, r: Reserve) {
    forall a :: a in r.escrowed ==> Supply(b, a) <= r.escrowed[a]
  }

  lemma GuardKeepsPause(verify: Verify, c: Config, g: Guard, change: GuardChange)
    ensures ChangeGuard(verify, c, g, change).globalPause == (g.globalPause || change.Pause?)
  {}

  lemma AdmitBacked(w: World, key: Key, a: Asset, amount: u128)
    requires Sound(w) && Backed(w.gate.books, w.gate.reserve)
    requires Caps(w.gate.limits, w.gate.books, a, amount) == None
    requires Charge(w.gate.limits, w.gate.books, w.gate.reserve, w.gate.guard.height, a, amount) == None
    ensures Backed(Admit(w, key, a, amount).gate.books, w.gate.reserve)
  {
    FigureExact(w.gate.books, a);
    forall x: Asset ensures Supply(Admit(w, key, a, amount).gate.books, x)
        == Supply(w.gate.books, x) + if x == a then amount else 0
    {
      MintSupply(w.gate.books, key, a, amount, x);
    }
  }

  lemma ExitBacked(verify: Verify, w: World, op: Op)
    requires Sound(w) && (op.RequestExit? || op.FinalizeExit? || op.CancelExit?)
    ensures forall x :: Supply(Step(verify, w, op).gate.books, x) <= Supply(w.gate.books, x)
  {
    var b := w.gate.books;
    forall x: Asset ensures Supply(Step(verify, w, op).gate.books, x) <= Supply(b, x) {
      match op
      case RequestExit(a, amount, destination) =>
        if CheckRequest(b, a, amount).None? {
          var unlock := SatAdd64(w.gate.guard.height, w.gate.limits.exitDelay);
          RequestSupply(b, NewTicket(b, a, amount, destination, unlock), x);
        }
      case FinalizeExit(id) =>
        if id in b.pending {
          FinalizeSupply(b, id, x);
        }
      case CancelExit(id) =>
        if id in b.pending {
          CancelSupply(b, id, x);
        }
    }
  }

  /** Reports: the reported asset is backed or everything is paused. */
  lemma AttestBacked(w: World, a: Asset, escrowed: u128, at: u64)
    requires Sound(w) && BreakerOk(w.gate)
    ensures BreakerOk(AttestReserve(w.gate, a, escrowed, at))
  {
    FigureExact(w.gate.books, a);
  }

  /** A quorum can resume only with every escrow figure covered: an asset with a figure and nothing minted has
      nothing pending either. */
  lemma ResumeBacked(b: Books, h: History, cap: u128, r: Reserve)
    requires BooksOk(b, h, cap) && !Short(b, r)
    ensures Backed(b, r)
  {
    forall a | a in r.escrowed ensures Supply(b, a) <= r.escrowed[a] {
      FigureExact(b, a);
      if a !in b.minted {
        NothingPending(b, h, a);
      }
    }
  }

  lemma AdmissionBreaker(verify: Verify, w: World, op: Op)
    requires Sound(w) && BreakerOk(w.gate) && (op.AdmitTrustless? || op.ProcessDeposit?)
    ensures BreakerOk(Step(verify, w, op).gate)
  {
    if op.AdmitTrustless? {
      if CheckTrustless(w.gate, op.asset, op.key, op.amount).None? {
        AdmitBacked(w, op.key, op.asset, op.amount);
      }
    } else if CheckMint(verify, w.gate, op.fact, op.sigs).None? {
      AdmitBacked(w, FactKey(op.fact), op.fact.asset, op.fact.amount);
    }
  }

  lemma ReserveBreaker(verify: Verify, w: World, op: Op)
    requires Sound(w) && BreakerOk(w.gate) && (op.AttestReserveOp? || op.ResumeAllOp?)
    ensures BreakerOk(Step(verify, w, op).gate)
  {
    if op.AttestReserveOp? {
      AttestBacked(w, op.asset, op.escrowed, op.at);
    } else if CheckResumeAll(verify, w.gate, op.at, op.sigs).None? {
      ResumeBacked(w.gate.books, w.history, w.gate.limits.epochCap, w.gate.reserve);
    }
  }

  lemma ExitBreaker(verify: Verify, w: World, op: Op)
    requires Sound(w) && BreakerOk(w.gate) && (op.RequestExit? || op.FinalizeExit? || op.CancelExit?)
    ensures BreakerOk(Step(verify, w, op).gate)
  {
    ExitBacked(verify, w, op);
  }

  /** What a caller must see before each call that could break the breaker: the source's own supply figures against the
      escrow figures. Every other call keeps it by itself. */
  ghost predicate KeepsBreaker(g: Gate, op: Op) {
    match op
    case SetEscrow(a, escrowed) => g.guard.globalPause || SupplyFigure(g.books, a) <= escrowed
    case UnpauseAll => forall a :: Found(g, a) ==> a !in g.reserve.escrowed
    case InstallPool(a, _, _, _, _) => g.guard.globalPause || a in g.reserve.escrowed || SupplyFigure(g.books, a) == 0
    case _ => true
  }

  /** An asset the search for a shortfall would find. */
  ghost predicate Found(g: Gate, a: Asset) {
    a in g.books.minted && SupplyFigure(g.books, a) > Get(g.reserve.escrowed, a)
  }

  lemma SetEscrowExactly(verify: Verify, w: World, a: Asset, escrowed: u128)
    requires Sound(w) && BreakerOk(w.gate)
    ensures BreakerOk(Step(verify, w, SetEscrow(a, escrowed)).gate) <==> KeepsBreaker(w.gate, SetEscrow(a, escrowed))
  {
    FigureExact(w.gate.books, a);
    var r := Step(verify, w, SetEscrow(a, escrowed)).gate.reserve;
    assert a in r.escrowed && r.escrowed[a] == escrowed;
  }

  /** Unpausing directly keeps the breaker exactly when no asset that the search for a shortfall finds has a figure:
      assets never minted cannot be short, and assets without a figure are not held to one. */
  lemma UnpauseExactly(verify: Verify, w: World)
    requires Sound(w)
    ensures BreakerOk(Step(verify, w, UnpauseAll).gate) <==> KeepsBreaker(w.gate, UnpauseAll)
  {
    var g := w.gate;
    forall a | a in g.reserve.escrowed ensures Supply(g.books, a) <= g.reserve.escrowed[a] <==> !Found(g, a) {
      FigureExact(g.books, a);
      if a !in g.books.minted {
        NothingPending(g.books, w.history, a);
      }
    }
  }

  lemma InstallPoolExactly(verify: Verify, w: World, op: Op)
    requires Sound(w) && BreakerOk(w.gate) && op.InstallPool?
    ensures BreakerOk(Step(verify, w, op).gate) <==> KeepsBreaker(w.gate, op)
  {
    FigureExact(w.gate.books, op.asset);
    var r := Step(verify, w, op).gate.reserve;
    assert op.asset in r.escrowed;
  }

  lemma CheckedBreaker(verify: Verify, w: World, op: Op)
    requires Sound(w) && BreakerOk(w.gate) && !op.SetEscrow? && !op.UnpauseAll? && !op.InstallPool?
    ensures BreakerOk(Step(verify, w, op).gate)
  {
    if op.AdmitTrustless? || op.ProcessDeposit? {
      AdmissionBreaker(verify, w, op);
    } else if op.AttestReserveOp? || op.ResumeAllOp? {
      ReserveBreaker(verify, w, op);
    } else if op.RequestExit? || op.FinalizeExit? || op.CancelExit? {
      ExitBreaker(verify, w, op);
    } else if op.GuardOp? {
      GuardKeepsPause(verify, w.gate.config, w.gate.guard, op.change);
    }
  }

  /** One call keeps the breaker exactly when the caller saw what it must. */
  lemma StepBreaker(verify: Verify, w: World, op: Op)
    requires Sound(w) && BreakerOk(w.gate)
    ensures BreakerOk(Step(verify, w, op).gate) <==> KeepsBreaker(w.gate, op)
  {
    if op.SetEscrow? {
      SetEscrowExactly(verify, w, op.asset, op.escrowed);
    } else if op.UnpauseAll? {
      UnpauseExactly(verify, w);
    } else if op.InstallPool? {
      InstallPoolExactly(verify, w, op);
    } else {
      CheckedBreaker(verify, w, op);
    }
  }

  ghost predicate Careful(verify: Verify, start: World, run: seq<Op>) {
    forall i :: 0 <= i < |run| ==> KeepsBreaker(After(verify, start, run[..i]).gate, run[i])
  }

  lemma CarefulBefore(verify: Verify, start: World, run: seq<Op>)
    requires Careful(verify, start, run) && run != []
    ensures Careful(verify, start, run[..|run| - 1])
  {
    var n := |run| - 1;
    forall i | 0 <= i < n ensures KeepsBreaker(After(verify, start, run[..n][..i]).gate, run[..n][i]) {
      assert run[..n][..i] == run[..i];
    }
  }

  lemma {:induction false} RunKeepsSound(verify: Verify, start: World, run: seq<Op>)
    requires Sound(start)
    ensures Sound(After(verify, start, run))
  {
    if run != [] {
      RunKeepsSound(verify, start, run[..|run| - 1]);
      StepSound(verify, After(verify, start, run[..|run| - 1]), run[|run| - 1]);
    }
  }

  /** While callers see what they must, not paused implies every asset with an escrow figure is within it. */
  lemma {:induction false} RunBreaker(verify: Verify, start: World, run: seq<Op>)
    requires Sound(start) && BreakerOk(start.gate) && Careful(verify, start, run)
    ensures Sound(After(verify, start, run)) && BreakerOk(After(verify, start, run).gate)
  {
    if run != [] {
      CarefulBefore(verify, start, run);
      RunBreaker(verify, start, run[..|run| - 1]);
      StepSound(verify, After(verify, start, run[..|run| - 1]), run[|run| - 1]);
      StepBreaker(verify, After(verify, start, run[..|run| - 1]), run[|run| - 1]);
    }
  }

  /** The breaker holds at every moment of a run exactly when, at every call, the caller saw what it must. */
  lemma BreakerExactly(verify: Verify, start: World, run: seq<Op>)
    requires Sound(start) && BreakerOk(start.gate)
    ensures (forall i :: 0 <= i <= |run| ==> BreakerOk(After(verify, start, run[..i]).gate)) <==> Careful(verify, start, run)
  {
    forall i | 0 <= i < |run| ensures After(verify, start, run[..i + 1]) == Step(verify, After(verify, start, run[..i]), run[i])
    {
      assert run[..i + 1][..i] == run[..i];
    }
    if Careful(verify, start, run) {
      forall i | 0 <= i <= |run| ensures BreakerOk(After(verify, start, run[..i]).gate) {
        forall j | 0 <= j < i ensures KeepsBreaker(After(verify, start, run[..i][..j]).gate, run[..i][j]) {
          assert run[..i][..j] == run[..j];
        }
        RunBreaker(verify, start, run[..i]);
      }
    } else {
      var i :| 0 <= i < |run| && !KeepsBreaker(After(verify, start, run[..i]).gate, run[i]);
      RunKeepsSound(verify, start, run[..i]);
      if BreakerOk(After(verify, start, run[..i]).gate) {
        StepBreaker(verify, After(verify, start, run[..i]), run[i]);
        assert !BreakerOk(After(verify, start, run[..i + 1]).gate);
      }
    }
  }
}
