/** Restarted against live: where resuming a paused source tells them apart, and what a rollback leaves behind
    (q-gateway: gateway.rs). */
module Resuming {
  import opened Machine
  import opened Bytes
  import opened Airlock
  import opened Quorum
  import opened Snapshot
  import opened Restart
  import opened GatewayState
  import opened GatewayBooks
  import opened GatewayGuards
  import opened GatewayRuns

  // ---------------------------------------------------------------- two gateways, one run

  /** Everything a resume needs but the age of the pause. */
  predicate ResumeSigned(verify: Verify, c: Config, g: Guard, chain: u32, at: u64, sigs: seq<SignerSig>) {
    && chain in g.pausedSources && InWindow(g, at) && AfterResume(g, chain, at)
    && QuorumMet(verify, c, ResumeMessage(c, chain, at), RESUME_DOMAIN, sigs)
  }

  predicate SamePauses(a: Guard, b: Guard) {
    a == b.(pausedSince := a.pausedSince)
  }

  /** Guards that differ in the age of pauses alone answer a resume differently exactly when it is signed for a height
      between the two ages. */
  lemma ResumeTellsApart(verify: Verify, c: Config, a: Guard, b: Guard, chain: u32, at: u64, sigs: seq<SignerSig>)
    requires SamePauses(a, b)
    ensures CheckResume(verify, c, a, chain, at, sigs).None? && CheckResume(verify, c, b, chain, at, sigs).Some?
       <==> ResumeSigned(verify, c, b, chain, at, sigs) && SinceOf(a, chain) <= at < SinceOf(b, chain)
    ensures CheckResume(verify, c, b, chain, at, sigs).None? && CheckResume(verify, c, a, chain, at, sigs).Some?
       <==> ResumeSigned(verify, c, b, chain, at, sigs) && SinceOf(b, chain) <= at < SinceOf(a, chain)
  {
    ResumeParts(verify, c, a, chain, at, sigs);
    ResumeParts(verify, c, b, chain, at, sigs);
    SameSigned(verify, c, a, b, chain, at, sigs);
  }

  lemma ResumeParts(verify: Verify, c: Config, g: Guard, chain: u32, at: u64, sigs: seq<SignerSig>)
    ensures CheckResume(verify, c, g, chain, at, sigs).None?
       <==> ResumeSigned(verify, c, g, chain, at, sigs) && SinceOf(g, chain) <= at
  {}

  lemma SameSigned(verify: Verify, c: Config, a: Guard, b: Guard, chain: u32, at: u64, sigs: seq<SignerSig>)
    requires SamePauses(a, b)
    ensures ResumeSigned(verify, c, a, chain, at, sigs) <==> ResumeSigned(verify, c, b, chain, at, sigs)
  {}

  /** Both gateways answer the call alike. */
  predicate SameAnswer(verify: Verify, a: Gate, b: Gate, op: Op) {
    IsResume(op) ==>
      (CheckResume(verify, a.config, a.guard, op.change.chain, op.change.at, op.change.sigs).None?
       <==> CheckResume(verify, b.config, b.guard, op.change.chain, op.change.at, op.change.sigs).None?)
  }

  lemma ResumeKeepsAlike(verify: Verify, a: World, b: World, op: Op)
    requires Alike(a.gate, b.gate) && IsResume(op)
    ensures Alike(Step(verify, a, op).gate, Step(verify, b, op).gate) <==> SameAnswer(verify, a.gate, b.gate, op)
    ensures Step(verify, a, op).history == a.history && Step(verify, b, op).history == b.history
  {
    var chain, at, sigs := op.change.chain, op.change.at, op.change.sigs;
    ResumeParts(verify, a.gate.config, a.gate.guard, chain, at, sigs);
    ResumeParts(verify, b.gate.config, b.gate.guard, chain, at, sigs);
    var x, y := Step(verify, a, op).gate.guard, Step(verify, b, op).gate.guard;
    assert CheckResume(verify, a.gate.config, a.gate.guard, chain, at, sigs).None? ==> chain !in x.pausedSources;
    assert CheckResume(verify, b.gate.config, b.gate.guard, chain, at, sigs).None? ==> chain !in y.pausedSources;
    AlikeResumed(a.gate.guard, b.gate.guard, chain, at);
  }

  lemma AlikeResumed(a: Guard, b: Guard, chain: u32, at: u64)
    requires SamePauses(a, b)
    ensures SamePauses(ResumeSource(a, chain, at), ResumeSource(b, chain, at))
  {}

  ghost predicate AnsweredAlike(verify: Verify, a: World, b: World, run: seq<Op>) {
    forall i :: 0 <= i < |run| ==>
      SameAnswer(verify, After(verify, a, run[..i]).gate, After(verify, b, run[..i]).gate, run[i])
  }

  lemma {:induction false} StayAlike(verify: Verify, a: World, b: World, run: seq<Op>)
    requires Alike(a.gate, b.gate) && a.history == b.history && AnsweredAlike(verify, a, b, run)
    ensures Alike(After(verify, a, run).gate, After(verify, b, run).gate)
    ensures After(verify, a, run).history == After(verify, b, run).history
  {
    if run != [] {
      var n := |run| - 1;
      forall i | 0 <= i < n
        ensures SameAnswer(verify, After(verify, a, run[..n][..i]).gate, After(verify, b, run[..n][..i]).gate, run[..n][i])
      {
        assert run[..n][..i] == run[..i];
      }
      StayAlike(verify, a, b, run[..n]);
      var x, y := After(verify, a, run[..n]), After(verify, b, run[..n]);
      if IsResume(run[n]) {
        ResumeKeepsAlike(verify, x, y, run[n]);
      } else {
        StepAlike(verify, x, y, run[n]);
      }
    }
  }

  /** A restarted gateway and the one it replaced stay alike at every moment of a run, same admissions, same exits, same
      supplies, exactly when every resume of a source in it is answered alike. */
  lemma RestartRefines(verify: Verify, a: World, b: World, run: seq<Op>)
    requires Alike(a.gate, b.gate) && a.history == b.history
    ensures (forall i :: 0 <= i <= |run| ==> Alike(After(verify, a, run[..i]).gate, After(verify, b, run[..i]).gate))
       <==> AnsweredAlike(verify, a, b, run)
  {
    forall i | 0 <= i < |run|
      ensures After(verify, a, run[..i + 1]) == Step(verify, After(verify, a, run[..i]), run[i])
      ensures After(verify, b, run[..i + 1]) == Step(verify, After(verify, b, run[..i]), run[i])
    {
      assert run[..i + 1][..i] == run[..i];
    }
    if AnsweredAlike(verify, a, b, run) {
      forall i | 0 <= i <= |run| ensures Alike(After(verify, a, run[..i]).gate, After(verify, b, run[..i]).gate) {
        AnsweredBefore(verify, a, b, run, i);
        StayAlike(verify, a, b, run[..i]);
      }
    } else {
      var i :| 0 <= i < |run| && !SameAnswer(verify, After(verify, a, run[..i]).gate, After(verify, b, run[..i]).gate, run[i]);
      if Alike(After(verify, a, run[..i]).gate, After(verify, b, run[..i]).gate) {
        ResumeKeepsAlike(verify, After(verify, a, run[..i]), After(verify, b, run[..i]), run[i]);
        assert !Alike(After(verify, a, run[..i + 1]).gate, After(verify, b, run[..i + 1]).gate);
      }
    }
  }

  lemma AnsweredBefore(verify: Verify, a: World, b: World, run: seq<Op>, k: nat)
    requires AnsweredAlike(verify, a, b, run) && k <= |run|
    ensures AnsweredAlike(verify, a, b, run[..k])
  {
    forall i | 0 <= i < k
      ensures SameAnswer(verify, After(verify, a, run[..k][..i]).gate, After(verify, b, run[..k][..i]).gate, run[..k][i])
    {
      assert run[..k][..i] == run[..i];
    }
  }

  // ---------------------------------------------------------------- pauses over runs

  /** Both records of references agree, and recorded pauses are of paused sources and in the past. */
  ghost predicate WellKept(g: Gate) {
    RefsOk(g.books) && PausesPast(g.guard)
  }

  /** Recorded pauses are of paused sources and in the past. */
  predicate PausesPast(g: Guard) {
    forall c :: c in g.pausedSince ==> c in g.pausedSources && g.pausedSince[c] <= g.height
  }

  lemma ChangedPast(refused: bool, g: Guard, change: GuardChange)
    requires PausesPast(g)
    ensures PausesPast(Changed(refused, g, change))
  {}

  lemma StepPast(verify: Verify, w: World, op: Op)
    requires PausesPast(w.gate.guard)
    ensures PausesPast(Step(verify, w, op).gate.guard)
  {
    if op.GuardOp? {
      ChangedPast(CheckChange(verify, w.gate.config, w.gate.guard, op.change).Some?, w.gate.guard, op.change);
    }
  }

  lemma {:induction false} RunPast(verify: Verify, start: World, run: seq<Op>)
    requires PausesPast(start.gate.guard)
    ensures PausesPast(After(verify, start, run).gate.guard)
  {
    if run != [] {
      RunPast(verify, start, run[..|run| - 1]);
      StepPast(verify, After(verify, start, run[..|run| - 1]), run[|run| - 1]);
    }
  }

  /** A call that may change the record of a chain's pause. */
  predicate Touches(op: Op, chain: u32) {
    op.GuardOp? && ((op.change.Reorg? && op.change.chain == chain) || (op.change.Resume? && op.change.chain == chain)
                    || (op.change.UnpauseSourceOp? && op.change.chain == chain))
  }

  predicate SameRecord(a: Guard, b: Guard, chain: u32) {
    && (chain in a.pausedSources ==> chain in b.pausedSources) && (chain in a.pausedSince <==> chain in b.pausedSince)
    && (chain in a.pausedSince ==> a.pausedSince[chain] == b.pausedSince[chain]) && a.height <= b.height
  }

  lemma ChangedRecord(refused: bool, g: Guard, change: GuardChange, chain: u32)
    requires !Touches(GuardOp(change), chain)
    ensures SameRecord(g, Changed(refused, g, change), chain)
  {}

  lemma StepRecord(verify: Verify, w: World, op: Op, chain: u32)
    requires !Touches(op, chain)
    ensures SameRecord(w.gate.guard, Step(verify, w, op).gate.guard, chain)
  {
    if op.GuardOp? {
      ChangedRecord(CheckChange(verify, w.gate.config, w.gate.guard, op.change).Some?, w.gate.guard, op.change, chain);
    }
  }

  lemma {:induction false} RunRecord(verify: Verify, start: World, run: seq<Op>, chain: u32)
    requires forall i :: 0 <= i < |run| ==> !Touches(run[i], chain)
    ensures SameRecord(start.gate.guard, After(verify, start, run).gate.guard, chain)
  {
    if run != [] {
      RunRecord(verify, start, run[..|run| - 1], chain);
      StepRecord(verify, After(verify, start, run[..|run| - 1]), run[|run| - 1], chain);
    }
  }

  // ---------------------------------------------------------------- after a restart

  /** One gateway accepts the resume and the other refuses it. */
  predicate AcceptedOnlyBy(verify: Verify, a: Gate, b: Gate, chain: u32, at: u64, sigs: seq<SignerSig>) {
    && CheckResume(verify, a.config, a.guard, chain, at, sigs).None?
    && CheckResume(verify, b.config, b.guard, chain, at, sigs).Some?
  }

  /** A restart from a snapshot of `g`, and a run on the restarted gateway and on the one it replaced that leaves the pause
      of `chain` alone and answers alike. */
  ghost predicate Parallel(verify: Verify, f: Gate, g: Gate, h: History, s: Saved, run: seq<Op>, chain: u32) {
    && Snaps(s, g) && Configured(f, g) && chain in g.guard.pausedSources
    && AnsweredAlike(verify, World(Rehydrate(f, s), h), World(g, h), run)
    && forall i :: 0 <= i < |run| ==> !Touches(run[i], chain)
  }

  lemma AgesAfter(x: Guard, y: Guard, a: Guard, b: Guard, chain: u32)
    requires SameRecord(x, a, chain) && SameRecord(y, b, chain) && chain in x.pausedSince && x.pausedSince[chain] == y.height
    requires PausesPast(y)
    ensures SinceOf(a, chain) == y.height <= b.height
    ensures SinceOf(b, chain) == if chain in y.pausedSince then y.pausedSince[chain] else b.height
    ensures chain in y.pausedSince ==> y.pausedSince[chain] <= y.height
  {}

  lemma ParallelAges(verify: Verify, f: Gate, g: Gate, h: History, s: Saved, run: seq<Op>, chain: u32)
    requires WellKept(g) && Parallel(verify, f, g, h, s, run, chain)
    ensures var a, b := After(verify, World(Rehydrate(f, s), h), run).gate, After(verify, World(g, h), run).gate;
      && a.config == b.config && SamePauses(a.guard, b.guard) && SinceOf(a.guard, chain) == g.guard.height <= b.guard.height
      && SinceOf(b.guard, chain) == (if chain in g.guard.pausedSince then g.guard.pausedSince[chain] else b.guard.height)
      && (chain in g.guard.pausedSince ==> g.guard.pausedSince[chain] <= g.guard.height)
  {
    var x, y := World(Rehydrate(f, s), h), World(g, h);
    Restored(f, g, s);
    StayAlike(verify, x, y, run);
    RunRecord(verify, x, run, chain);
    RunRecord(verify, y, run, chain);
    AgesAfter(x.gate.guard, g.guard, After(verify, x, run).gate.guard, After(verify, y, run).gate.guard, chain);
  }

  /** What a restart does to resuming, exactly. The restarted gateway accepts a resume the other refuses exactly when the
      source was paused directly, with no record, and the resume is signed for a height from the snapshot's up to the
      present. It refuses one the other accepts exactly when the pause was recorded, and the resume is signed for a height
      from the record up to the snapshot's. */
  ghost predicate ResumesExactly(verify: Verify, f: Gate, g: Gate, h: History, s: Saved, run: seq<Op>, chain: u32, at: u64, sigs: seq<SignerSig>) {
    var a, b := After(verify, World(Rehydrate(f, s), h), run).gate, After(verify, World(g, h), run).gate;
    && (AcceptedOnlyBy(verify, a, b, chain, at, sigs) <==>
          chain !in g.guard.pausedSince && ResumeSigned(verify, b.config, b.guard, chain, at, sigs)
          && g.guard.height <= at < b.guard.height)
    && (AcceptedOnlyBy(verify, b, a, chain, at, sigs) <==>
          chain in g.guard.pausedSince && ResumeSigned(verify, b.config, b.guard, chain, at, sigs)
          && g.guard.pausedSince[chain] <= at < g.guard.height)
  }

  lemma KeptResumes(verify: Verify, f: Gate, g: Gate, h: History, s: Saved, run: seq<Op>, chain: u32, at: u64, sigs: seq<SignerSig>)
    requires WellKept(g) && Parallel(verify, f, g, h, s, run, chain)
    ensures ResumesExactly(verify, f, g, h, s, run, chain, at, sigs)
  {
    ParallelAges(verify, f, g, h, s, run, chain);
    var a, b := After(verify, World(Rehydrate(f, s), h), run).gate, After(verify, World(g, h), run).gate;
    ResumeTellsApart(verify, b.config, a.guard, b.guard, chain, at, sigs);
  }

  lemma RunWellKept(verify: Verify, c: Config, epochCap: u128, past: seq<Op>)
    ensures WellKept(After(verify, Fresh(c, epochCap), past).gate)
  {
    RunSound(verify, c, epochCap, past);
    RunPast(verify, Fresh(c, epochCap), past);
  }

  /** For a gateway that any run of a new one has reached, a restart from its snapshot, and any run after it that answers
      alike: exactly which resumes only one of the two accepts. */
  lemma RestartResumeExactly(verify: Verify, c: Config, epochCap: u128, past: seq<Op>, f: Gate, s: Saved, run: seq<Op>, chain: u32, at: u64, sigs: seq<SignerSig>)
    requires var w := After(verify, Fresh(c, epochCap), past); Parallel(verify, f, w.gate, w.history, s, run, chain)
    ensures var w := After(verify, Fresh(c, epochCap), past);
      ResumesExactly(verify, f, w.gate, w.history, s, run, chain, at, sigs)
  {
    var w := After(verify, Fresh(c, epochCap), past);
    RunWellKept(verify, c, epochCap, past);
    KeptResumes(verify, f, w.gate, w.history, s, run, chain, at, sigs);
  }

  /** So for a recorded pause, or while the height has not moved, a restart makes resuming no looser. */
  lemma RestartNoLooser(verify: Verify, c: Config, epochCap: u128, past: seq<Op>, f: Gate, s: Saved, run: seq<Op>, chain: u32, at: u64, sigs: seq<SignerSig>)
    requires var w := After(verify, Fresh(c, epochCap), past);
      && Parallel(verify, f, w.gate, w.history, s, run, chain)
      && (chain in w.gate.guard.pausedSince || After(verify, w, run).gate.guard.height == w.gate.guard.height)
    ensures var w := After(verify, Fresh(c, epochCap), past);
      !AcceptedOnlyBy(verify, After(verify, World(Rehydrate(f, s), w.history), run).gate, After(verify, w, run).gate, chain, at, sigs)
  {
    var w := After(verify, Fresh(c, epochCap), past);
    RestartResumeExactly(verify, c, epochCap, past, f, s, run, chain, at, sigs);
    assert w == World(w.gate, w.history);
  }

  // ---------------------------------------------------------------- the looser input

  /** A verifier that accepts everything, two operators, and a signature of each. */
  const TRUSTING: Verify := (_, _, _, _) => true
  const PAIR: Config := Config(9000, 1, ZERO32, map[0 := [0], 1 := [1]], 2)

  function BothSign(): seq<SignerSig> {
    [SignerSig(0, Zeros(SIGNATURE_BYTES)), SignerSig(1, Zeros(SIGNATURE_BYTES))]
  }

  lemma BothCount(message: seq<u8>, domain: seq<u8>)
    ensures QuorumMet(TRUSTING, PAIR, message, domain, BothSign())
  {
    var sigs := BothSign();
    assert sigs[0] in sigs && sigs[1] in sigs;
    assert ValidSig(TRUSTING, PAIR.keys, message, domain, sigs[0]) && ValidSig(TRUSTING, PAIR.keys, message, domain, sigs[1]);
    var q := QuorumOf(TRUSTING, PAIR.keys, message, domain, sigs);
    assert PAIR.keys.Keys == {0, 1} && |PAIR.keys| == |PAIR.keys.Keys| == 2;
    assert 0 in q && 1 in q;
    assert q == {0, 1};
  }

  /** Height 100 is reached and chain 7 paused directly; then the snapshot is taken; height 110 is reached. */
  const BEFORE: seq<Op> := [GuardOp(Height(100)), GuardOp(PauseSource(7))]
  const SINCE: seq<Op> := [GuardOp(Height(110))]
  const PAUSED: World :=
    WithGuard(Fresh(PAIR, 1000), Guard(false, 0, 0, 100, 0, 0, 0, {7}, map[], map[], map[], map[], map[], 0, ZERO32))
  const SNAPSHOT: Saved :=
    Saved(Head(false, 100, 0, 0, 0, 0), [], [], [7], [], 0, [], 0, [], [], [], [], Tail(0, 0, 0, ZERO32), [], [])

  lemma PausedRun(verify: Verify)
    ensures After(verify, Fresh(PAIR, 1000), BEFORE) == PAUSED
  {
    var start := Fresh(PAIR, 1000);
    var one := Step(verify, start, BEFORE[0]);
    assert BEFORE[..1] == [BEFORE[0]] && BEFORE[..1][..0] == [];
    assert After(verify, start, BEFORE[..1]) == one;
    assert Step(verify, one, BEFORE[1]) == PAUSED;
  }

  lemma PausedSnaps()
    ensures Snaps(SNAPSHOT, PAUSED.gate) && Configured(Fresh(PAIR, 1000).gate, PAUSED.gate)
  {}

  lemma SinceHeight(verify: Verify, w: World)
    requires w.gate.guard.height <= 110
    ensures After(verify, w, SINCE) == WithGuard(w, w.gate.guard.(height := 110))
  {
    assert SINCE[..0] == [] && After(verify, w, []) == w;
  }

  /** A resume signed for height 105 is refused by the gateway that went on and accepted by the restarted one. */
  lemma DirectPauseLooser()
    ensures var f := Fresh(PAIR, 1000).gate; var w := After(TRUSTING, Fresh(PAIR, 1000), BEFORE);
      && Snaps(SNAPSHOT, w.gate) && Configured(f, w.gate)
      && AcceptedOnlyBy(TRUSTING, After(TRUSTING, World(Rehydrate(f, SNAPSHOT), w.history), SINCE).gate,
                        After(TRUSTING, w, SINCE).gate, 7, 105, BothSign())
  {
    var f := Fresh(PAIR, 1000).gate;
    PausedRun(TRUSTING);
    PausedSnaps();
    SinceHeight(TRUSTING, PAUSED);
    BothCount(ResumeMessage(PAIR, 7, 105), RESUME_DOMAIN);
    RestartResumeExactly(TRUSTING, PAIR, 1000, BEFORE, f, SNAPSHOT, SINCE, 7, 105, BothSign());
    assert PAUSED == World(PAUSED.gate, PAUSED.history);
  }

  // ---------------------------------------------------------------- what a rollback leaves behind

  /** The gateway after a call whose save failed: rehydrated from the snapshot taken before the call. */
  ghost function Undone(verify: Verify, w: World, op: Op, saved: Saved): Gate {
    Rehydrate(Step(verify, w, op).gate, saved)
  }

  /** Rehydrating `n` from a snapshot of `g` gives `g`, but for pauses, exactly when what the snapshot does not hold is as
      it was: caps and report age, no height above, and corridors that the merge cannot tell from the saved ones. */
  lemma RehydratesTo(n: Gate, g: Gate, s: Saved)
    requires Snaps(s, g) && RefsOk(g.books) && n.config == g.config
    ensures Alike(Rehydrate(n, s), g) <==>
      && n.limits == g.limits && n.reserve.maxAge == g.reserve.maxAge && n.guard.height <= g.guard.height
      && n.guard.corridors.Keys == g.guard.corridors.Keys
      && forall c :: c in n.guard.corridors ==> NoLooser(g.guard.corridors[c], n.guard.corridors[c])
  {
    BooksRestored(s, g.books);
    CorridorsRestored(n.guard.corridors, g.guard.corridors);
    Sections.MapOfListing(s.escrowed, g.reserve.escrowed);
    Sections.MapOfListing(s.reported, g.reserve.reportedAt);
    RehydratedShape(s, n.guard, g.guard);
  }

  lemma RehydratedShape(s: Saved, n: Guard, g: Guard)
    requires ListsGuard(s, g)
    ensures var x := RehydratedGuard(n, s);
      x == g.(pausedSince := x.pausedSince, corridors := MergeAll(n.corridors, g.corridors), height := Max(n.height, g.height))
  {
    Sections.MapOfListing(s.cursor, g.cursor);
    Sections.MapOfListing(s.resumed, g.resumedAt);
    Sections.MapOfListing(s.watchdog, g.watchdogLast);
    CorridorsListed(s.corridors, g.corridors);
  }

  /** Whether a call writes nothing that the snapshot cannot take back. */
  predicate LeavesNoTrace(g: Gate, op: Op) {
    match op
    case RegisterCap(a, cap) => a in g.limits.cap && g.limits.cap[a] == cap
    case RegisterEpochCap(a, cap) => a in g.limits.assetEpochCap && g.limits.assetEpochCap[a] == cap
    case RequireReports(maxAge) => g.reserve.maxAge == Some(Max(1, Min(maxAge, RESERVE_MAX_AGE)))
    case SetExitDelay(delay) => g.limits.exitDelay == delay
    case InstallPool(a, cap, epochCap, chain, _) =>
      && a in g.limits.cap && g.limits.cap[a] == cap
      && a in g.limits.assetEpochCap && g.limits.assetEpochCap[a] == epochCap && chain in g.guard.corridors
    case GuardOp(change) =>
      (match change
       case Height(to) => to <= g.guard.height
       case Corridor(chain, corridor) => chain in g.guard.corridors && NoLooser(g.guard.corridors[chain], corridor)
       case _ => true)
    case _ => true
  }

  lemma ChangedCorridors(refused: bool, g: Guard, change: GuardChange)
    ensures var x := Changed(refused, g, change);
      && (!change.Corridor? ==> x.corridors == g.corridors) && (!change.Height? ==> x.height == g.height)
  {}

  lemma LeavesRest(verify: Verify, w: World, op: Op)
    ensures var n := Step(verify, w, op).gate;
      && n.config == w.gate.config
      && (!op.RegisterCap? && !op.RegisterEpochCap? && !op.InstallPool? && !op.SetExitDelay? ==> n.limits == w.gate.limits)
      && (!op.RequireReports? ==> n.reserve.maxAge == w.gate.reserve.maxAge)
      && (!op.GuardOp? ==> n.guard.height == w.gate.guard.height)
      && (!op.GuardOp? && !op.InstallPool? ==> n.guard.corridors == w.gate.guard.corridors)
  {}

  /** A call whose save failed is undone, but for the ages of pauses, exactly when it wrote nothing the snapshot cannot
      take back. A cap or a report age registered stays; so does a height; so does a corridor raised, closed or new,
      because rehydrating keeps the stricter of two corridors. */
  lemma RollbackExactly(verify: Verify, w: World, op: Op, saved: Saved)
    requires Snaps(saved, w.gate) && RefsOk(w.gate.books)
    ensures Alike(Undone(verify, w, op, saved), w.gate) <==> LeavesNoTrace(w.gate, op)
  {
    var n, g := Step(verify, w, op).gate, w.gate;
    LeavesRest(verify, w, op);
    RehydratesTo(n, g, saved);
    if op.GuardOp? {
      GuardTrace(verify, w, op, saved);
    } else if op.InstallPool? {
      PoolTrace(verify, w, op);
    } else if op.RegisterCap? || op.RegisterEpochCap? {
      CapTrace(verify, w, op);
    }
  }

  lemma GuardTrace(verify: Verify, w: World, op: Op, saved: Saved)
    requires op.GuardOp?
    ensures var n, g := Step(verify, w, op).gate, w.gate;
      && n.limits == g.limits && n.reserve == g.reserve
      && (n.guard.height <= g.guard.height && n.guard.corridors.Keys == g.guard.corridors.Keys
          && (forall c :: c in n.guard.corridors ==> NoLooser(g.guard.corridors[c], n.guard.corridors[c]))
          <==> LeavesNoTrace(g, op))
  {
    ChangedCorridors(CheckChange(verify, w.gate.config, w.gate.guard, op.change).Some?, w.gate.guard, op.change);
    if op.change.Corridor? {
      CorridorTrace(w.gate.guard.corridors, op.change.chain, op.change.corridor);
    }
  }

  lemma CorridorTrace(m: map<u32, CorridorConfig>, chain: u32, corridor: CorridorConfig)
    ensures var x := m[chain := corridor];
      (x.Keys == m.Keys && (forall c :: c in x ==> NoLooser(m[c], x[c])))
      <==> chain in m && NoLooser(m[chain], corridor)
  {
    var x := m[chain := corridor];
    assert chain in x.Keys;
    if chain in m {
      assert x.Keys == m.Keys;
    }
  }

  lemma CapTrace(verify: Verify, w: World, op: Op)
    requires op.RegisterCap? || op.RegisterEpochCap?
    ensures Step(verify, w, op).gate.limits == w.gate.limits <==> LeavesNoTrace(w.gate, op)
  {
    var m := if op.RegisterCap? then w.gate.limits.cap else w.gate.limits.assetEpochCap;
    SameWrite(m, op.asset, op.cap);
  }

  lemma SameWrite(m: map<Asset, u128>, a: Asset, v: u128)
    ensures m[a := v] == m <==> a in m && m[a] == v
  {
    assert a in m[a := v];
  }

  lemma PoolTrace(verify: Verify, w: World, op: Op)
    requires op.InstallPool?
    ensures var n, g := Step(verify, w, op).gate, w.gate;
      (n.limits == g.limits && n.guard.corridors.Keys == g.guard.corridors.Keys
       && (forall c :: c in n.guard.corridors ==> NoLooser(g.guard.corridors[c], n.guard.corridors[c])))
      <==> LeavesNoTrace(g, op)
  {
    var n, g := Step(verify, w, op).gate, w.gate;
    SameWrite(g.limits.cap, op.asset, op.cap);
    SameWrite(g.limits.assetEpochCap, op.asset, op.epochCap);
    if op.chain !in g.guard.corridors {
      assert op.chain in n.guard.corridors.Keys;
    }
  }

  // ---------------------------------------------------------------- what a rollback gives back

  /** The world after a call whose save failed. A cap registered stays, so the record of the highest caps moves on. */
  ghost function Reverted(verify: Verify, w: World, op: Op, saved: Saved): World {
    World(Undone(verify, w, op, saved), w.history.(highCap := Step(verify, w, op).history.highCap))
  }

  lemma HighestGrows(verify: Verify, w: World, op: Op)
    requires Sound(w)
    ensures var x := Step(verify, w, op);
      && x.gate.limits.epochCap == w.gate.limits.epochCap && x.gate.config == w.gate.config
      && forall a :: Get(w.history.highCap, a) <= Get(x.history.highCap, a)
  {}

  lemma BooksUnderHigher(b: Books, h: History, cap: u128, higher: map<Asset, nat>)
    requires BooksOk(b, h, cap) && forall a :: Get(h.highCap, a) <= Get(higher, a) <= U128_MAX
    ensures BooksOk(b, h.(highCap := higher), cap)
  {}

  /** Whatever the call, its rollback gives back books, escrow figures and the pause. */
  lemma RolledBack(verify: Verify, w: World, op: Op, saved: Saved)
    requires Sound(w) && Snaps(saved, w.gate)
    ensures var x := Reverted(verify, w, op, saved);
      && Sound(x) && x.gate.books == w.gate.books && x.gate.reserve.escrowed == w.gate.reserve.escrowed
      && x.gate.guard.globalPause == w.gate.guard.globalPause
  {
    var next := Step(verify, w, op);
    BooksRestored(saved, w.gate.books);
    Sections.MapOfListing(saved.escrowed, w.gate.reserve.escrowed);
    StepSound(verify, w, op);
    HighestGrows(verify, w, op);
    BooksUnderHigher(w.gate.books, w.history, w.gate.limits.epochCap, next.history.highCap);
  }
}
