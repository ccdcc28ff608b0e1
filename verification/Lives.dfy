/** The gateway over many lives: calls saved, rolled back or not saved, each life ended by a restart from the snapshot on
    disk (q-gateway: gateway.rs; q-runtime: http.rs, watch.rs, persist.rs, boot.rs). */
module Lives {
  import opened Machine
  import opened Attestor
  import opened Quorum
  import opened Snapshot
  import opened Restart
  import opened Resuming
  import opened GatewayState
  import opened GatewayBooks
  import opened GatewayRuns
  import GatewayCaps
  import opened Watchdog

  /** A call whose outcome was saved; one whose save failed and was rolled back, the new snapshot on disk all the same when
      only the directory's sync failed; and one that is not saved by itself. */
  datatype Act = Kept(op: Op) | Dropped(op: Op, saved: Saved, landed: bool) | Unsaved(op: Op)

  ghost function ActStep(verify: Verify, w: World, act: Act): World {
    if act.Dropped? then Reverted(verify, w, act.op, act.saved) else Step(verify, w, act.op)
  }

  /** The gateway in memory after some acts. */
  ghost function Live(verify: Verify, w: World, acts: seq<Act>): World {
    if acts == [] then w else ActStep(verify, Live(verify, w, acts[..|acts| - 1]), acts[|acts| - 1])
  }

  predicate Lands(act: Act) {
    act.Dropped? && act.landed
  }

  /** The gateway as it is on disk: after the last act kept, or after a call rolled back whose snapshot had landed. */
  ghost function Durable(verify: Verify, w: World, acts: seq<Act>): World {
    if acts == [] then w
    else
      var n := |acts| - 1;
      if acts[n].Kept? then Live(verify, w, acts)
      else if Lands(acts[n]) then Step(verify, Live(verify, w, acts[..n]), acts[n].op)
      else Durable(verify, w, acts[..n])
  }

  /** What is served without a save: the clock, reserve reports, setters, pools. Admissions, exits and alarms are saved. */
  predicate Passing(op: Op) {
    && !op.AdmitTrustless? && !op.ProcessDeposit? && !op.RequestExit? && !op.FinalizeExit? && !op.CancelExit?
    && !(op.GuardOp? && op.change.Watchdog?)
  }

  ghost predicate FairAct(w: World, act: Act) {
    match act
    case Kept(_) => true
    case Dropped(_, saved, _) => Snaps(saved, w.gate)
    case Unsaved(op) => Passing(op)
  }

  ghost predicate FairActs(verify: Verify, w: World, acts: seq<Act>) {
    acts != [] ==>
      var n := |acts| - 1;
      FairActs(verify, w, acts[..n]) && FairAct(Live(verify, w, acts[..n]), acts[n])
  }

  /** One life: its acts, the snapshot on disk, and the gateway that takes it up, configured anew in any way. */
  datatype Life = Life(acts: seq<Act>, saved: Saved, next: Gate)

  ghost predicate FairLife(verify: Verify, w: World, life: Life) {
    FairActs(verify, w, life.acts) && Snaps(life.saved, Durable(verify, w, life.acts).gate)
  }

  /** The highest caps, once those of a new configuration count too. */
  function Raise(high: map<Asset, nat>, cap: map<Asset, u128>): map<Asset, nat> {
    map a | a in high.Keys + cap.Keys :: Max(Get(high, a), if a in cap then cap[a] else 0)
  }

  ghost function TakeUp(d: World, next: Gate, saved: Saved): World {
    World(Rehydrate(next, saved), d.history.(highCap := Raise(d.history.highCap, next.limits.cap)))
  }

  ghost function Lived(verify: Verify, start: World, lives: seq<Life>): World {
    if lives == [] then start
    else
      var n := |lives| - 1;
      TakeUp(Durable(verify, Lived(verify, start, lives[..n]), lives[n].acts), lives[n].next, lives[n].saved)
  }

  ghost predicate Fair(verify: Verify, start: World, lives: seq<Life>) {
    lives != [] ==>
      var n := |lives| - 1;
      Fair(verify, start, lives[..n]) && FairLife(verify, Lived(verify, start, lives[..n]), lives[n])
  }

  // ---------------------------------------------------------------- conservation under any epoch cap

  /** The same gateway under the highest epoch cap there is. */
  function Lax(w: World): World {
    w.(gate := w.gate.(limits := w.gate.limits.(epochCap := U128_MAX)))
  }

  /** All that `Sound` says but that the epoch's total is within the present epoch cap. */
  ghost predicate Conserves(w: World) {
    Sound(Lax(w))
  }

  /** A gateway that conserves is sound exactly when the epoch's total is within its epoch cap. */
  lemma SoundExactly(w: World)
    ensures Sound(w) <==> Conserves(w) && w.gate.books.epochMinted <= w.gate.limits.epochCap
  {}

  lemma LaxAdmits(verify: Verify, w: World, op: Op)
    requires Admits(verify, w.gate, op)
    ensures Admits(verify, Lax(w).gate, op)
  {}

  lemma LaxStep(verify: Verify, w: World, op: Op)
    requires op.AdmitTrustless? || op.ProcessDeposit? ==> Admits(verify, w.gate, op)
    ensures Step(verify, Lax(w), op) == Lax(Step(verify, w, op))
  {
    if op.AdmitTrustless? || op.ProcessDeposit? {
      LaxAdmits(verify, w, op);
    }
  }

  lemma StepConserves(verify: Verify, w: World, op: Op)
    requires Conserves(w)
    ensures Conserves(Step(verify, w, op))
  {
    if (op.AdmitTrustless? || op.ProcessDeposit?) && !Admits(verify, w.gate, op) {
      assert Step(verify, w, op) == w;
    } else {
      LaxStep(verify, w, op);
      StepSound(verify, Lax(w), op);
    }
  }

  lemma LaxReverted(verify: Verify, w: World, op: Op, saved: Saved)
    ensures Reverted(verify, Lax(w), op, saved) == Lax(Reverted(verify, w, op, saved))
  {
    if !op.AdmitTrustless? && !op.ProcessDeposit? {
      LaxStep(verify, w, op);
    }
  }

  lemma RollsBack(verify: Verify, w: World, op: Op, saved: Saved)
    requires Conserves(w) && Snaps(saved, w.gate)
    ensures var x := Reverted(verify, w, op, saved);
      && Conserves(x) && x.gate.books == w.gate.books && x.gate.reserve.escrowed == w.gate.reserve.escrowed
      && x.gate.guard.globalPause == w.gate.guard.globalPause && x.gate.limits.epochCap == w.gate.limits.epochCap
  {
    LaxReverted(verify, w, op, saved);
    RolledBack(verify, Lax(w), op, saved);
  }

  lemma BreakerAnyCap(verify: Verify, w: World, op: Op)
    requires Conserves(w) && BreakerOk(w.gate)
    ensures BreakerOk(Step(verify, w, op).gate) <==> KeepsBreaker(w.gate, op)
  {
    if (op.AdmitTrustless? || op.ProcessDeposit?) && !Admits(verify, w.gate, op) {
      assert Step(verify, w, op) == w;
    } else {
      LaxStep(verify, w, op);
      StepBreaker(verify, Lax(w), op);
      SameBreaker(w.gate, op);
    }
  }

  lemma SameBreaker(g: Gate, op: Op)
    ensures KeepsBreaker(Lax(World(g, History(map[], map[], map[], {}))).gate, op) <==> KeepsBreaker(g, op)
  {}

  // ---------------------------------------------------------------- soundness

  /** Whatever the new configuration, books, escrow figures, the pause and the watchdog's memory are those saved. */
  lemma TakesUp(d: World, next: Gate, saved: Saved)
    requires Conserves(d) && Snaps(saved, d.gate)
    ensures var x := TakeUp(d, next, saved);
      && Conserves(x) && x.gate.books == d.gate.books && x.gate.reserve.escrowed == d.gate.reserve.escrowed
      && x.gate.guard.globalPause == d.gate.guard.globalPause && x.gate.guard.watchdogLast == d.gate.guard.watchdogLast
      && x.gate.guard.depositFrozenUntil == d.gate.guard.depositFrozenUntil && d.gate.guard.height <= x.gate.guard.height
  {
    BooksRestored(saved, d.gate.books);
    Sections.MapOfListing(saved.escrowed, d.gate.reserve.escrowed);
    RehydratedShape(saved, next.guard, d.gate.guard);
    BooksUnderHigher(d.gate.books, d.history, U128_MAX, Raise(d.history.highCap, next.limits.cap));
  }

  lemma ActConserves(verify: Verify, w: World, act: Act)
    requires Conserves(w) && FairAct(w, act)
    ensures Conserves(ActStep(verify, w, act)) && w.gate.books.usedRefs <= ActStep(verify, w, act).gate.books.usedRefs
  {
    if act.Dropped? {
      RollsBack(verify, w, act.op, act.saved);
    } else {
      StepConserves(verify, w, act.op);
      RefsGrow(verify, w, act.op);
    }
  }

  /** Conservation and caps hold at every moment of a life, and of what is on disk. */
  lemma {:induction false} LiveConserves(verify: Verify, w: World, acts: seq<Act>)
    requires Conserves(w) && FairActs(verify, w, acts)
    ensures Conserves(Live(verify, w, acts)) && Conserves(Durable(verify, w, acts))
    ensures w.gate.books.usedRefs <= Live(verify, w, acts).gate.books.usedRefs
  {
    if acts != [] {
      var n := |acts| - 1;
      LiveConserves(verify, w, acts[..n]);
      ActConserves(verify, Live(verify, w, acts[..n]), acts[n]);
      StepConserves(verify, Live(verify, w, acts[..n]), acts[n].op);
    }
  }

  /** Conservation and caps hold over every sequence of lives. */
  lemma {:induction false} LivesConserve(verify: Verify, start: World, lives: seq<Life>)
    requires Conserves(start) && Fair(verify, start, lives)
    ensures Conserves(Lived(verify, start, lives))
  {
    if lives != [] {
      var n := |lives| - 1;
      LivesConserve(verify, start, lives[..n]);
      var w, life := Lived(verify, start, lives[..n]), lives[n];
      LiveConserves(verify, w, life.acts);
      TakesUp(Durable(verify, w, life.acts), life.next, life.saved);
    }
  }

  /** Every life is taken up sound. */
  ghost predicate SoundLives(verify: Verify, start: World, lives: seq<Life>) {
    Sound(Lived(verify, start, lives)) && (lives != [] ==> SoundLives(verify, start, lives[..|lives| - 1]))
  }

  /** Every epoch cap configured covers what the epoch had minted, as saved. */
  ghost predicate CoveringLives(verify: Verify, start: World, lives: seq<Life>) {
    lives != [] ==>
      var n := |lives| - 1;
      && CoveringLives(verify, start, lives[..n])
      && Durable(verify, Lived(verify, start, lives[..n]), lives[n].acts).gate.books.epochMinted <= lives[n].next.limits.epochCap
  }

  /** Every life is taken up sound exactly when every epoch cap configured covers what the epoch had minted. */
  lemma {:induction false} LivesSound(verify: Verify, start: World, lives: seq<Life>)
    requires Sound(start) && Fair(verify, start, lives)
    ensures Conserves(Lived(verify, start, lives))
    ensures SoundLives(verify, start, lives) <==> CoveringLives(verify, start, lives)
  {
    LivesConserve(verify, start, lives);
    if lives != [] {
      var n := |lives| - 1;
      LivesSound(verify, start, lives[..n]);
      var w, life := Lived(verify, start, lives[..n]), lives[n];
      LiveConserves(verify, w, life.acts);
      TakesUp(Durable(verify, w, life.acts), life.next, life.saved);
      SoundExactly(Lived(verify, start, lives));
    }
  }

  lemma ActSound(verify: Verify, w: World, act: Act)
    requires Sound(w) && FairAct(w, act)
    ensures Sound(ActStep(verify, w, act))
  {
    if act.Dropped? {
      RolledBack(verify, w, act.op, act.saved);
    } else {
      StepSound(verify, w, act.op);
    }
  }

  /** And a life taken up sound stays sound, on disk too. */
  lemma {:induction false} LiveSound(verify: Verify, w: World, acts: seq<Act>)
    requires Sound(w) && FairActs(verify, w, acts)
    ensures Sound(Live(verify, w, acts)) && Sound(Durable(verify, w, acts))
  {
    if acts != [] {
      var n := |acts| - 1;
      LiveSound(verify, w, acts[..n]);
      ActSound(verify, Live(verify, w, acts[..n]), acts[n]);
      StepSound(verify, Live(verify, w, acts[..n]), acts[n].op);
    }
  }

  // ---------------------------------------------------------------- the call that landed though it failed

  /** The call rolled back in memory that the snapshot on disk holds, and the world it was made in. */
  ghost function LastLanded(verify: Verify, w: World, acts: seq<Act>): Option<(World, Op)> {
    if acts == [] then None
    else
      var n := |acts| - 1;
      if acts[n].Kept? then None
      else if Lands(acts[n]) then Some((Live(verify, w, acts[..n]), acts[n].op))
      else LastLanded(verify, w, acts[..n])
  }

  lemma {:induction false} LandedIsDurable(verify: Verify, w: World, acts: seq<Act>)
    requires Conserves(w) && FairActs(verify, w, acts)
    ensures var l := LastLanded(verify, w, acts);
      l.Some? ==> Durable(verify, w, acts) == Step(verify, l.value.0, l.value.1) && Conserves(l.value.0)
  {
    if acts != [] {
      var n := |acts| - 1;
      LandedIsDurable(verify, w, acts[..n]);
      LiveConserves(verify, w, acts[..n]);
    }
  }

  // ---------------------------------------------------------------- the reserve breaker

  /** The breaker holds at every moment of a life. */
  ghost predicate HeldActs(verify: Verify, w: World, acts: seq<Act>) {
    BreakerOk(Live(verify, w, acts).gate) && (acts != [] ==> HeldActs(verify, w, acts[..|acts| - 1]))
  }

  /** At every call that was not rolled back, the caller saw what it must. */
  ghost predicate CarefulActs(verify: Verify, w: World, acts: seq<Act>) {
    acts != [] ==>
      var n := |acts| - 1;
      CarefulActs(verify, w, acts[..n])
      && (!acts[n].Dropped? ==> KeepsBreaker(Live(verify, w, acts[..n]).gate, acts[n].op))
  }

  /** And at the call that landed though it failed, if the life ends there. */
  ghost predicate CarefulEnd(verify: Verify, w: World, acts: seq<Act>) {
    var l := LastLanded(verify, w, acts); l.Some? ==> KeepsBreaker(l.value.0.gate, l.value.1)
  }

  ghost predicate HeldLives(verify: Verify, start: World, lives: seq<Life>) {
    BreakerOk(Lived(verify, start, lives).gate)
    && (lives != [] ==>
          var n := |lives| - 1;
          HeldLives(verify, start, lives[..n]) && HeldActs(verify, Lived(verify, start, lives[..n]), lives[n].acts))
  }

  ghost predicate CarefulLives(verify: Verify, start: World, lives: seq<Life>) {
    lives != [] ==>
      var n := |lives| - 1;
      && CarefulLives(verify, start, lives[..n])
      && CarefulActs(verify, Lived(verify, start, lives[..n]), lives[n].acts)
      && CarefulEnd(verify, Lived(verify, start, lives[..n]), lives[n].acts)
  }

  lemma ActBreaker(verify: Verify, w: World, act: Act)
    requires Conserves(w) && BreakerOk(w.gate) && FairAct(w, act)
    ensures BreakerOk(ActStep(verify, w, act).gate) <==> !act.Dropped? ==> KeepsBreaker(w.gate, act.op)
  {
    if act.Dropped? {
      RollsBack(verify, w, act.op, act.saved);
    } else {
      BreakerAnyCap(verify, w, act.op);
    }
  }

  lemma {:induction false} ActsBreaker(verify: Verify, w: World, acts: seq<Act>)
    requires Conserves(w) && BreakerOk(w.gate) && FairActs(verify, w, acts)
    ensures HeldActs(verify, w, acts) <==> CarefulActs(verify, w, acts)
  {
    if acts != [] {
      var n := |acts| - 1;
      ActsBreaker(verify, w, acts[..n]);
      if HeldActs(verify, w, acts[..n]) {
        LiveConserves(verify, w, acts[..n]);
        ActBreaker(verify, Live(verify, w, acts[..n]), acts[n]);
      }
    }
  }

  /** What is on disk keeps the breaker exactly when the call that landed, if any, kept it. */
  lemma {:induction false} DiskBreaker(verify: Verify, w: World, acts: seq<Act>)
    requires Conserves(w) && FairActs(verify, w, acts) && HeldActs(verify, w, acts)
    ensures BreakerOk(Durable(verify, w, acts).gate) <==> CarefulEnd(verify, w, acts)
  {
    if acts != [] {
      var n := |acts| - 1;
      if Lands(acts[n]) {
        LiveConserves(verify, w, acts[..n]);
        BreakerAnyCap(verify, Live(verify, w, acts[..n]), acts[n].op);
      } else if !acts[n].Kept? {
        DiskBreaker(verify, w, acts[..n]);
      }
    }
  }

  lemma LifeBreaker(verify: Verify, w: World, life: Life)
    requires Conserves(w) && BreakerOk(w.gate) && FairLife(verify, w, life)
    ensures var x := TakeUp(Durable(verify, w, life.acts), life.next, life.saved);
      HeldActs(verify, w, life.acts) && BreakerOk(x.gate)
      <==> CarefulActs(verify, w, life.acts) && CarefulEnd(verify, w, life.acts)
  {
    ActsBreaker(verify, w, life.acts);
    LiveConserves(verify, w, life.acts);
    TakesUp(Durable(verify, w, life.acts), life.next, life.saved);
    if HeldActs(verify, w, life.acts) {
      DiskBreaker(verify, w, life.acts);
    }
  }

  /** Over every sequence of lives the breaker holds at every moment exactly when the caller saw what it must at every call
      that was not rolled back, and at a call that was, if its snapshot had landed and the life ended there. */
  lemma {:induction false} LivesBreaker(verify: Verify, start: World, lives: seq<Life>)
    requires Conserves(start) && BreakerOk(start.gate) && Fair(verify, start, lives)
    ensures HeldLives(verify, start, lives) <==> CarefulLives(verify, start, lives)
  {
    if lives != [] {
      var n := |lives| - 1;
      LivesBreaker(verify, start, lives[..n]);
      if HeldLives(verify, start, lives[..n]) {
        LivesConserve(verify, start, lives[..n]);
        LifeBreaker(verify, Lived(verify, start, lives[..n]), lives[n]);
      }
    }
  }

  // ---------------------------------------------------------------- references

  lemma UnsavedUsesNone(verify: Verify, w: World, act: Act)
    requires Conserves(w) && FairAct(w, act) && !act.Kept?
    ensures ActStep(verify, w, act).gate.books.usedRefs == w.gate.books.usedRefs
  {
    if act.Dropped? {
      RollsBack(verify, w, act.op, act.saved);
    }
  }

  lemma UsesExactly(verify: Verify, w: World, op: Op)
    ensures w.gate.books.usedRefs <= Step(verify, w, op).gate.books.usedRefs
    ensures Step(verify, w, op).gate.books.usedRefs == w.gate.books.usedRefs <==> !Admits(verify, w.gate, op)
  {
    RefsGrow(verify, w, op);
    if Admits(verify, w.gate, op) {
      assert (if op.AdmitTrustless? then op.key else FactKey(op.fact)) in Step(verify, w, op).gate.books.usedRefs;
    }
  }

  /** Memory has used what it had before the call that landed. */
  lemma {:induction false} UsedBefore(verify: Verify, w: World, acts: seq<Act>)
    requires Conserves(w) && FairActs(verify, w, acts)
    ensures var l := LastLanded(verify, w, acts); var x := if l.Some? then l.value.0 else Durable(verify, w, acts);
      Live(verify, w, acts).gate.books.usedRefs == x.gate.books.usedRefs
  {
    if acts != [] && !acts[|acts| - 1].Kept? {
      var n := |acts| - 1;
      UsedBefore(verify, w, acts[..n]);
      LiveConserves(verify, w, acts[..n]);
      UnsavedUsesNone(verify, Live(verify, w, acts[..n]), acts[n]);
    }
  }

  /** What a life has used is on disk when it ends, and nothing else is, exactly unless the snapshot there is of an
      admission that was rolled back. */
  lemma UsedIsSaved(verify: Verify, w: World, acts: seq<Act>)
    requires Conserves(w) && FairActs(verify, w, acts)
    ensures Live(verify, w, acts).gate.books.usedRefs <= Durable(verify, w, acts).gate.books.usedRefs
    ensures var l := LastLanded(verify, w, acts);
      Live(verify, w, acts).gate.books.usedRefs == Durable(verify, w, acts).gate.books.usedRefs
      <==> (l.Some? ==> !Admits(verify, l.value.0.gate, l.value.1))
  {
    UsedBefore(verify, w, acts);
    LandedIsDurable(verify, w, acts);
    var l := LastLanded(verify, w, acts);
    if l.Some? {
      UsesExactly(verify, l.value.0, l.value.1);
    }
  }

  /** An admission rolled back whose snapshot had landed: its reference is on disk and not in memory. */
  lemma LandedAdmission(verify: Verify, c: Config, saved: Saved)
    requires Snaps(saved, GatewayCaps.Opened(c).gate)
    ensures var w := After(verify, GatewayRuns.Fresh(c, 100), GatewayCaps.MINTED[..2]);
      var acts := [Dropped(GatewayCaps.MINTED[2], saved, true)];
      && w == GatewayCaps.Opened(c) && FairActs(verify, w, acts)
      && GatewayCaps.KEY in Durable(verify, w, acts).gate.books.usedRefs
      && GatewayCaps.KEY !in Live(verify, w, acts).gate.books.usedRefs
  {
    GatewayCaps.OpenedRun(verify, c);
    assert GatewayCaps.MINTED[..2] == [GatewayCaps.MINTED[0], GatewayCaps.MINTED[1]];
    GatewayCaps.OpenedAdmits(c);
    var w, act := GatewayCaps.Opened(c), Dropped(GatewayCaps.MINTED[2], saved, true);
    LandedUsed(verify, w, act);
    BooksRestored(saved, w.gate.books);
  }

  lemma LandedUsed(verify: Verify, w: World, act: Act)
    requires Lands(act) && FairAct(w, act)
    ensures Live(verify, w, [act]) == Reverted(verify, w, act.op, act.saved)
    ensures Durable(verify, w, [act]) == Step(verify, w, act.op) && FairActs(verify, w, [act])
  {
    assert [act][..0] == [];
  }

  /** A reference used when a life begins, or at its end, is used when the next one takes over. */
  lemma TakenUp(verify: Verify, w: World, life: Life, key: Key)
    requires Conserves(w) && FairLife(verify, w, life)
    requires key in Live(verify, w, life.acts).gate.books.usedRefs || key in w.gate.books.usedRefs
    ensures key in Rehydrate(life.next, life.saved).books.usedRefs
  {
    LiveConserves(verify, w, life.acts);
    UsedIsSaved(verify, w, life.acts);
    TakesUp(Durable(verify, w, life.acts), life.next, life.saved);
  }

  lemma {:induction false} StaysUsed(verify: Verify, start: World, lives: seq<Life>, key: Key)
    requires Conserves(start) && Fair(verify, start, lives) && key in start.gate.books.usedRefs
    ensures key in Lived(verify, start, lives).gate.books.usedRefs
  {
    if lives != [] {
      var n := |lives| - 1;
      StaysUsed(verify, start, lives[..n], key);
      LivesConserve(verify, start, lives[..n]);
      TakenUp(verify, Lived(verify, start, lives[..n]), lives[n], key);
    }
  }

  /** A reference admitted at any moment before is refused on both paths at every moment of every later life. */
  lemma NeverAgain(verify: Verify, start: World, lives: seq<Life>, acts: seq<Act>, f: Facts.BridgeFact, sigs: seq<Airlock.SignerSig>, a: Asset, amount: u128)
    requires Conserves(start) && Fair(verify, start, lives) && FairActs(verify, Lived(verify, start, lives), acts)
    requires FactKey(f) in start.gate.books.usedRefs
    ensures var g := Live(verify, Lived(verify, start, lives), acts).gate;
      CheckTrustless(g, a, FactKey(f), amount).Some? && CheckMint(verify, g, f, sigs).Some?
  {
    var w := Lived(verify, start, lives);
    StaysUsed(verify, start, lives, FactKey(f));
    LivesConserve(verify, start, lives);
    LiveConserves(verify, w, acts);
    Refused(verify, Live(verify, w, acts).gate, f, sigs, a, amount);
  }

  lemma Refused(verify: Verify, g: Gate, f: Facts.BridgeFact, sigs: seq<Airlock.SignerSig>, a: Asset, amount: u128)
    requires FactKey(f) in g.books.usedRefs
    ensures CheckTrustless(g, a, FactKey(f), amount).Some? && CheckMint(verify, g, f, sigs).Some?
  {}

  // ---------------------------------------------------------------- the watchdog

  /** The alarms in effect in memory, of those accepted in this life. */
  ghost function ActAlarms(verify: Verify, w: World, acts: seq<Act>): seq<Alarm> {
    if acts == [] then []
    else
      var n := |acts| - 1;
      ActAlarms(verify, w, acts[..n])
      + if acts[n].Kept? then Raised(verify, Live(verify, w, acts[..n]).gate, acts[n].op) else []
  }

  /** And on disk: one more, when the snapshot there is of an alarm that was rolled back. */
  ghost function DiskAlarms(verify: Verify, w: World, acts: seq<Act>): seq<Alarm> {
    var l := LastLanded(verify, w, acts);
    ActAlarms(verify, w, acts) + if l.Some? then Raised(verify, l.value.0.gate, l.value.1) else []
  }

  /** Every alarm that was in effect, in order, over all lives. */
  ghost function LifeAlarms(verify: Verify, start: World, lives: seq<Life>): seq<Alarm> {
    if lives == [] then []
    else
      var n := |lives| - 1;
      LifeAlarms(verify, start, lives[..n]) + DiskAlarms(verify, Lived(verify, start, lives[..n]), lives[n].acts)
  }

  lemma DroppedWatched(verify: Verify, w: World, op: Op, saved: Saved, s: seq<Alarm>)
    requires Snaps(saved, w.gate) && Watched(w.gate.guard, s)
    ensures Watched(Reverted(verify, w, op, saved).gate.guard, s)
  {
    RehydratedShape(saved, Step(verify, w, op).gate.guard, w.gate.guard);
  }

  lemma ActWatched(verify: Verify, w: World, act: Act, s: seq<Alarm>)
    requires FairAct(w, act) && Watched(w.gate.guard, s)
    ensures Watched(ActStep(verify, w, act).gate.guard, s + if act.Kept? then Raised(verify, w.gate, act.op) else [])
  {
    if act.Dropped? {
      DroppedWatched(verify, w, act.op, act.saved, s);
      assert s + [] == s;
    } else {
      StepWatched(verify, w, act.op, s);
    }
  }

  lemma {:induction false} LiveWatched(verify: Verify, w: World, acts: seq<Act>, s: seq<Alarm>)
    requires FairActs(verify, w, acts) && Watched(w.gate.guard, s)
    ensures Watched(Live(verify, w, acts).gate.guard, s + ActAlarms(verify, w, acts))
  {
    if acts == [] {
      assert s + [] == s;
    } else {
      var n := |acts| - 1;
      LiveWatched(verify, w, acts[..n], s);
      var before := ActAlarms(verify, w, acts[..n]);
      ActWatched(verify, Live(verify, w, acts[..n]), acts[n], s + before);
      var raised := if acts[n].Kept? then Raised(verify, Live(verify, w, acts[..n]).gate, acts[n].op) else [];
      assert s + before + raised == s + (before + raised);
    }
  }

  lemma {:induction false} DiskWatched(verify: Verify, w: World, acts: seq<Act>, s: seq<Alarm>)
    requires FairActs(verify, w, acts) && Watched(w.gate.guard, s)
    ensures Watched(Durable(verify, w, acts).gate.guard, s + DiskAlarms(verify, w, acts))
  {
    LiveWatched(verify, w, acts, s);
    var now := ActAlarms(verify, w, acts);
    assert now + [] == now;
    if acts != [] && !acts[|acts| - 1].Kept? {
      var n := |acts| - 1;
      assert ActAlarms(verify, w, acts[..n]) == now;
      if Lands(acts[n]) {
        LiveWatched(verify, w, acts[..n], s);
        LandedWatched(verify, Live(verify, w, acts[..n]), acts[n].op, s, now);
      } else {
        DiskWatched(verify, w, acts[..n], s);
      }
    }
  }

  lemma LandedWatched(verify: Verify, w: World, op: Op, s: seq<Alarm>, now: seq<Alarm>)
    requires Watched(w.gate.guard, s + now)
    ensures Watched(Step(verify, w, op).gate.guard, s + (now + Raised(verify, w.gate, op)))
  {
    StepWatched(verify, w, op, s + now);
    assert s + now + Raised(verify, w.gate, op) == s + (now + Raised(verify, w.gate, op));
  }

  lemma TakeUpWatched(d: World, next: Gate, saved: Saved, s: seq<Alarm>)
    requires Conserves(d) && Snaps(saved, d.gate) && Watched(d.gate.guard, s)
    ensures Watched(TakeUp(d, next, saved).gate.guard, s)
  {
    TakesUp(d, next, saved);
  }

  lemma LifeWatched(verify: Verify, w: World, life: Life, s: seq<Alarm>)
    requires Conserves(w) && FairLife(verify, w, life) && Watched(w.gate.guard, s)
    ensures Watched(TakeUp(Durable(verify, w, life.acts), life.next, life.saved).gate.guard, s + DiskAlarms(verify, w, life.acts))
  {
    DiskWatched(verify, w, life.acts, s);
    LiveConserves(verify, w, life.acts);
    TakeUpWatched(Durable(verify, w, life.acts), life.next, life.saved, s + DiskAlarms(verify, w, life.acts));
  }

  lemma {:induction false} LivesWatched(verify: Verify, start: World, lives: seq<Life>)
    requires Conserves(start) && Fair(verify, start, lives) && Watched(start.gate.guard, [])
    ensures Watched(Lived(verify, start, lives).gate.guard, LifeAlarms(verify, start, lives))
  {
    if lives != [] {
      var n := |lives| - 1;
      LivesWatched(verify, start, lives[..n]);
      LivesConserve(verify, start, lives[..n]);
      var w, life := Lived(verify, start, lives[..n]), lives[n];
      LifeWatched(verify, w, life, LifeAlarms(verify, start, lives[..n]));
    }
  }

  lemma FreshConserves(c: Config, epochCap: u128)
    ensures Conserves(GatewayRuns.Fresh(c, epochCap))
  {
    FreshSound(c, epochCap);
    SoundExactly(GatewayRuns.Fresh(c, epochCap));
  }

  /** Over any number of lives from a new gateway, at most (H + W)/2 of the first H heights are frozen by lone operators,
      W being the longest window; freezes are at most W long and at least W apart, and one operator's alarms at least
      8 W apart. */
  lemma WatchdogBound(verify: Verify, c: Config, epochCap: u128, lives: seq<Life>, h: nat)
    requires Fair(verify, GatewayRuns.Fresh(c, epochCap), lives)
    ensures var s := LifeAlarms(verify, GatewayRuns.Fresh(c, epochCap), lives);
      Spaced(s) && CoolsDown(s) && |FrozenHeights(s, h)| <= (h + WATCHDOG_MAX_WINDOW) / 2
  {
    var start := GatewayRuns.Fresh(c, epochCap);
    FreshConserves(c, epochCap);
    LivesWatched(verify, start, lives);
    FrozenAtMost(LifeAlarms(verify, start, lives), h);
  }

  // ---------------------------------------------------------------- resuming after restarts

  lemma ActPast(verify: Verify, w: World, act: Act)
    requires PausesPast(w.gate.guard)
    ensures PausesPast(ActStep(verify, w, act).gate.guard)
  {
    if !act.Dropped? {
      StepPast(verify, w, act.op);
    }
  }

  lemma {:induction false} LivePast(verify: Verify, w: World, acts: seq<Act>)
    requires PausesPast(w.gate.guard)
    ensures PausesPast(Live(verify, w, acts).gate.guard)
  {
    if acts != [] {
      LivePast(verify, w, acts[..|acts| - 1]);
      ActPast(verify, Live(verify, w, acts[..|acts| - 1]), acts[|acts| - 1]);
    }
  }

  /** The gateway at any moment of any life, and a restart from a snapshot of it: exactly which resumes only one of the two
      accepts, as after a first life. */
  lemma ResumeOverLives(verify: Verify, c: Config, epochCap: u128, lives: seq<Life>, acts: seq<Act>, f: Gate, s: Saved, run: seq<Op>, chain: u32, at: u64, sigs: seq<Airlock.SignerSig>)
    requires var start := GatewayRuns.Fresh(c, epochCap);
      && Fair(verify, start, lives) && FairActs(verify, Lived(verify, start, lives), acts)
      && var w := Live(verify, Lived(verify, start, lives), acts); Parallel(verify, f, w.gate, w.history, s, run, chain)
    ensures var w := Live(verify, Lived(verify, GatewayRuns.Fresh(c, epochCap), lives), acts);
      ResumesExactly(verify, f, w.gate, w.history, s, run, chain, at, sigs)
  {
    var start := GatewayRuns.Fresh(c, epochCap);
    FreshConserves(c, epochCap);
    LivesConserve(verify, start, lives);
    LiveConserves(verify, Lived(verify, start, lives), acts);
    LivePast(verify, Lived(verify, start, lives), acts);
    var w := Live(verify, Lived(verify, start, lives), acts);
    KeptResumes(verify, f, w.gate, w.history, s, run, chain, at, sigs);
  }
}
