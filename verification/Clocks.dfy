/** The rate-bounded clock that drives the gateway's height and epochs (q-runtime: clock.rs). */
module Clocks {
  import opened Machine
  import opened Quorum
  import opened GatewayState
  import opened GatewayBooks
  import opened GatewayGuards
  import opened GatewayRuns

  const CLOCK_SLACK_BLOCKS: nat := 240
  const NANOS: nat := 1_000_000_000

  /** Blocks per second and the least time between epoch changes. */
  datatype Pace = Pace(rate: nat, gap: nat)

  datatype Clock = Clock(
    origin: Option<(u64, nat)>, epochMoved: Option<nat>, fresh_: bool, firstBoot: Option<(u64, u64)>)

  /** What a tick sees: the chain's answer, the instant in nanoseconds, and the cap the wall clock sets on heights. */
  datatype Sight = Sight(answer: Option<(u64, Option<u64>)>, now: nat, headCap: u64)

  /** `duration_since`, zero for an instant in the future. */
  function Since(now: nat, at: nat): nat {
    if at <= now then now - at else 0
  }

  /** `bounded_head`. */
  function BoundedHead(p: Pace, last: Option<(u64, nat)>, reported: u64): (head: u64)
    ensures head <= reported
    ensures last.Some? ==> head <= last.value.0 + last.value.1 / NANOS * p.rate + CLOCK_SLACK_BLOCKS
  {
    if last.None? then reported
    else
      var allowed := SatAdd64(Min(last.value.1 / NANOS * p.rate, U64_MAX), CLOCK_SLACK_BLOCKS);
      Min(reported, SatAdd64(last.value.0, allowed))
  }

  /** Whether a tick that heard `epoch` moves to it. */
  predicate MovesEpoch(p: Pace, c: Clock, now: nat, epoch: u64, current: u64) {
    var spaced := c.epochMoved.None? || Since(now, c.epochMoved.value) >= p.gap;
    var firstEpoch := if c.firstBoot.Some? then c.firstBoot.value.1 else 0;
    var catchUp := c.fresh_ && c.epochMoved.None? && epoch > current && epoch <= firstEpoch;
    var established := !c.fresh_ || c.epochMoved.Some?;
    catchUp || (established && epoch > current && spaced)
  }

  /** The first part of a tick: the origin is fixed once; None is the refusal of an unannounced first boot. */
  function Anchor(c: Clock, g: Guard, reported: u64, s: Sight): (Clock, Guard, bool) {
    if c.origin.Some? then (c, g, true)
    else
      var marked := c.(fresh_ := g.height == 0);
      if g.height == 0 && c.firstBoot.None? then (marked, g, false)
      else
        var x := if g.height == 0 then AdvanceTo(g, Min(Min(reported, c.firstBoot.value.0), s.headCap)) else g;
        (marked.(origin := Some((x.height, s.now))), x, true)
  }

  /** `ChainClock::tick`: the clock, the guard and the epoch it moves to, if any. */
  function Tick(p: Pace, c: Clock, g: Guard, epoch: u64, s: Sight): (Clock, Guard, Option<u64>) {
    if s.answer.None? then (c, g, None)
    else
      var (reported, heard) := s.answer.value;
      var (c1, g1, ok) := Anchor(c, g, reported, s);
      if !ok then (c1, g1, None)
      else
        var (height, at) := c1.origin.value;
        var head := Min(BoundedHead(p, Some((height, Since(s.now, at))), reported), s.headCap);
        var g2 := AdvanceTo(g1, head);
        if heard.Some? && MovesEpoch(p, c1, s.now, heard.value, epoch)
        then (c1.(epochMoved := Some(s.now)), g2, heard)
        else (c1, g2, None)
  }

  lemma AnchorFacts(c: Clock, g: Guard, reported: u64, s: Sight)
    ensures var (d, x, ok) := Anchor(c, g, reported, s);
      && x == g.(height := x.height) && g.height <= x.height && d.epochMoved == c.epochMoved
      && (c.origin.Some? ==> d.origin == c.origin) && (ok ==> d.origin.Some?)
  {}

  lemma MoveFacts(p: Pace, c: Clock, now: nat, epoch: u64, current: u64)
    requires MovesEpoch(p, c, now, epoch, current)
    ensures epoch > current && (c.epochMoved.Some? ==> Since(now, c.epochMoved.value) >= p.gap)
  {}

  /** What one tick does to the guard and the origin. */
  lemma TickGuard(p: Pace, c: Clock, g: Guard, epoch: u64, s: Sight)
    ensures var (d, x, _) := Tick(p, c, g, epoch, s);
      x == g.(height := x.height) && g.height <= x.height && (c.origin.Some? ==> d.origin == c.origin)
  {
    if s.answer.Some? {
      var reported := s.answer.value.0;
      AnchorFacts(c, g, reported, s);
      var g1 := Anchor(c, g, reported, s).1;
      assert forall h: u64 :: AdvanceTo(g1, h) == g1.(height := AdvanceTo(g1, h).height) && AdvanceTo(g1, h).height >= g1.height;
    }
  }

  /** What one tick does to the epoch. */
  lemma TickEpoch(p: Pace, c: Clock, g: Guard, epoch: u64, s: Sight)
    ensures var (d, _, moved) := Tick(p, c, g, epoch, s);
      && (moved.Some? ==> moved.value > epoch && d.epochMoved == Some(s.now))
      && (moved.None? ==> d.epochMoved == c.epochMoved)
      && (moved.Some? && c.epochMoved.Some? ==> Since(s.now, c.epochMoved.value) >= p.gap)
  {
    if s.answer.Some? {
      var (reported, heard) := s.answer.value;
      AnchorFacts(c, g, reported, s);
      var c1 := Anchor(c, g, reported, s).0;
      if heard.Some? && MovesEpoch(p, c1, s.now, heard.value, epoch) {
        MoveFacts(p, c1, s.now, heard.value, epoch);
      }
    }
  }

  /** The height a tick leaves: what it was, or within the rate of the origin. */
  lemma TickHeight(p: Pace, c: Clock, g: Guard, epoch: u64, s: Sight)
    ensures var (d, x, _) := Tick(p, c, g, epoch, s);
      d.origin.Some? && s.answer.Some? ==>
        x.height <= Max(g.height, d.origin.value.0 + Since(s.now, d.origin.value.1) / NANOS * p.rate + CLOCK_SLACK_BLOCKS)
    ensures var (d, x, _) := Tick(p, c, g, epoch, s);
      c.origin.None? && d.origin.Some? ==> d.origin.value.1 == s.now && d.origin.value.0 >= g.height
  {}

  /** A first boot trusts no more than it was told: without an expected height it is refused; with one, the first height
      is at most that height and the slack, and the first epoch at most the expected one. */
  lemma FirstBootBounded(p: Pace, c: Clock, g: Guard, epoch: u64, s: Sight)
    requires g.height == 0 && c.origin.None? && c.epochMoved.None?
    ensures var (d, x, moved) := Tick(p, c, g, epoch, s);
      && (c.firstBoot.None? ==> d.origin.None? && x == g && moved.None?)
      && (c.firstBoot.Some? ==> x.height <= c.firstBoot.value.0 + CLOCK_SLACK_BLOCKS)
      && (moved.Some? ==> c.firstBoot.Some? && moved.value <= c.firstBoot.value.1)
  {}

  // ---------------------------------------------------------------- runs of one clock

  /** A tick, or a call on the gateway by anyone else, at an instant. */
  datatype Event = Ticked(sight: Sight) | Called(op: Op, at: nat)

  function At(e: Event): nat {
    if e.Ticked? then e.sight.now else e.at
  }

  /** Nobody but the clock moves the height or the epoch. */
  predicate Elsewhere(op: Op) {
    !op.AdvanceEpochTo? && !(op.GuardOp? && op.change.Height?)
  }

  /** What the log keeps: an amount admitted or an epoch change, with its instant. */
  datatype Entry = Admitted(at: nat, amount: nat) | Changed(at: nat)

  datatype System = System(world: World, clock: Clock, log: seq<Entry>, now: nat)

  ghost function AmountAdmitted(verify: Verify, g: Gate, op: Op): nat {
    if op.AdmitTrustless? && CheckTrustless(g, op.asset, op.key, op.amount).None? then op.amount
    else if op.ProcessDeposit? && CheckMint(verify, g, op.fact, op.sigs).None? then op.fact.amount
    else 0
  }

  ghost function TickWorld(p: Pace, s: System, sight: Sight): System {
    var g := s.world.gate;
    var (clock, guard, moved) := Tick(p, s.clock, g.guard, g.books.epoch, sight);
    var books := if moved.Some? then AdvanceEpoch(g.books, moved.value) else g.books;
    System(s.world.(gate := g.(guard := guard, books := books)), clock,
           if moved.Some? then s.log + [Changed(sight.now)] else s.log, sight.now)
  }

  ghost function Next(verify: Verify, p: Pace, s: System, e: Event): System {
    match e
    case Ticked(sight) => TickWorld(p, s, sight)
    case Called(op, at) =>
      s.(world := Step(verify, s.world, op), now := at,
         log := s.log + [Admitted(at, AmountAdmitted(verify, s.world.gate, op))])
  }

  ghost function Life(verify: Verify, p: Pace, start: World, firstBoot: Option<(u64, u64)>, from: nat, run: seq<Event>):
    System
  {
    if run == [] then System(start, Clock(None, None, false, firstBoot), [], from)
    else Next(verify, p, Life(verify, p, start, firstBoot, from, run[..|run| - 1]), run[|run| - 1])
  }

  /** Instants never go back, and only the clock moves height and epoch. */
  predicate Timed(from: nat, run: seq<Event>) {
    && (forall i :: 0 <= i < |run| ==> At(run[i]) >= from && (run[i].Called? ==> Elsewhere(run[i].op)))
    && (forall i, j :: 0 <= i < j < |run| ==> At(run[i]) <= At(run[j]))
  }

  // ---------------------------------------------------------------- the invariant

  function LastChange(log: seq<Entry>): Option<nat> {
    if log == [] then None
    else if log[|log| - 1].Changed? then Some(log[|log| - 1].at)
    else LastChange(log[..|log| - 1])
  }

  function SinceChange(log: seq<Entry>): nat {
    if log == [] || log[|log| - 1].Changed? then 0
    else SinceChange(log[..|log| - 1]) + log[|log| - 1].amount
  }

  /** Instants in order; changes spaced; no more than the cap between changes. */
  predicate GoodLog(log: seq<Entry>, gap: nat, cap: nat, now: nat) {
    log != [] ==>
      var n := |log| - 1;
      && log[n].at <= now && GoodLog(log[..n], gap, cap, log[n].at)
      && SinceChange(log) <= cap
      && (log[n].Changed? && LastChange(log[..n]).Some? ==> LastChange(log[..n]).value + gap <= log[n].at)
  }

  ghost predicate Running(p: Pace, s: System) {
    && Sound(s.world) && GoodLog(s.log, p.gap, s.world.gate.limits.epochCap, s.now)
    && SinceChange(s.log) <= s.world.gate.books.epochMinted
    && s.clock.epochMoved == LastChange(s.log)
    && (s.clock.epochMoved.Some? ==> s.clock.epochMoved.value <= s.now)
  }

  lemma {:induction false} LaterLog(log: seq<Entry>, gap: nat, cap: nat, now: nat, then_: nat)
    requires GoodLog(log, gap, cap, now) && now <= then_
    ensures GoodLog(log, gap, cap, then_)
  {}

  lemma AppendLog(log: seq<Entry>, e: Entry)
    ensures (log + [e])[..|log|] == log
    ensures LastChange(log + [e]) == if e.Changed? then Some(e.at) else LastChange(log)
    ensures SinceChange(log + [e]) == if e.Changed? then 0 else SinceChange(log) + e.amount
  {
    assert (log + [e])[..|log|] == log;
  }

  lemma TickRunning(p: Pace, s: System, sight: Sight)
    requires Running(p, s) && s.now <= sight.now
    ensures Running(p, TickWorld(p, s, sight))
  {
    var g := s.world.gate;
    TickEpoch(p, s.clock, g.guard, g.books.epoch, sight);
    LaterLog(s.log, p.gap, g.limits.epochCap, s.now, sight.now);
    AppendLog(s.log, Changed(sight.now));
    var moved := Tick(p, s.clock, g.guard, g.books.epoch, sight).2;
    if moved.Some? {
      EpochKeeps(g.books, s.world.history, g.limits.epochCap, moved.value);
    }
  }

  lemma OthersMintNothing(verify: Verify, w: World, op: Op)
    requires Elsewhere(op) && !op.AdmitTrustless? && !op.ProcessDeposit?
    ensures var x := Step(verify, w, op).gate;
      x.books.epochMinted == w.gate.books.epochMinted && x.limits.epochCap == w.gate.limits.epochCap
  {}

  lemma CalledMinted(verify: Verify, w: World, op: Op)
    requires Sound(w) && Elsewhere(op)
    ensures var x := Step(verify, w, op).gate;
      && x.books.epochMinted == w.gate.books.epochMinted + AmountAdmitted(verify, w.gate, op)
      && x.limits.epochCap == w.gate.limits.epochCap
  {
    if op.AdmitTrustless? {
      if CheckTrustless(w.gate, op.asset, op.key, op.amount).None? {
        MintKeeps(w.gate.limits, w.gate.books, w.history, op.key, op.asset, op.amount);
      }
    } else if op.ProcessDeposit? {
      if CheckMint(verify, w.gate, op.fact, op.sigs).None? {
        MintKeeps(w.gate.limits, w.gate.books, w.history, FactKey(op.fact), op.fact.asset, op.fact.amount);
      }
    } else {
      OthersMintNothing(verify, w, op);
    }
  }

  lemma CalledRunning(verify: Verify, p: Pace, s: System, op: Op, at: nat)
    requires Running(p, s) && s.now <= at && Elsewhere(op)
    ensures Running(p, Next(verify, p, s, Called(op, at)))
  {
    StepSound(verify, s.world, op);
    CalledMinted(verify, s.world, op);
    LaterLog(s.log, p.gap, s.world.gate.limits.epochCap, s.now, at);
    AppendLog(s.log, Admitted(at, AmountAdmitted(verify, s.world.gate, op)));
  }

  lemma {:induction false} LifeRunning(verify: Verify, p: Pace, start: World, firstBoot: Option<(u64, u64)>, from: nat, run: seq<Event>)
    requires Sound(start) && Timed(from, run)
    ensures var s := Life(verify, p, start, firstBoot, from, run);
      Running(p, s) && s.now == (if run == [] then from else At(run[|run| - 1]))
  {
    if run != [] {
      var n := |run| - 1;
      LifeRunning(verify, p, start, firstBoot, from, run[..n]);
      var s := Life(verify, p, start, firstBoot, from, run[..n]);
      match run[n]
      case Ticked(sight) => TickRunning(p, s, sight);
      case Called(op, at) => CalledRunning(verify, p, s, op, at);
    }
  }

  // ---------------------------------------------------------------- the mint rate

  /** What was admitted from `lo` up to and including `hi`. */
  function Minted(log: seq<Entry>, lo: nat, hi: nat): nat {
    if log == [] then 0
    else
      var e := log[|log| - 1];
      Minted(log[..|log| - 1], lo, hi) + if e.Admitted? && lo <= e.at <= hi then e.amount else 0
  }

  function ChangesFrom(log: seq<Entry>, lo: nat): nat {
    if log == [] then 0
    else
      var e := log[|log| - 1];
      ChangesFrom(log[..|log| - 1], lo) + if e.Changed? && lo <= e.at then 1 else 0
  }

  /** The log up to and including the instant `hi`. */
  function Cut(log: seq<Entry>, hi: nat): seq<Entry> {
    if log == [] || log[|log| - 1].at <= hi then log else Cut(log[..|log| - 1], hi)
  }

  lemma {:induction false} CutMinted(log: seq<Entry>, gap: nat, cap: nat, now: nat, lo: nat, hi: nat)
    requires GoodLog(log, gap, cap, now)
    ensures Minted(Cut(log, hi), lo, hi) == Minted(log, lo, hi) && GoodLog(Cut(log, hi), gap, cap, hi)
  {
    if log != [] {
      if log[|log| - 1].at <= hi {
        LaterLog(log, gap, cap, log[|log| - 1].at, hi);
      } else {
        CutMinted(log[..|log| - 1], gap, cap, log[|log| - 1].at, lo, hi);
      }
    }
  }

  lemma {:induction false} NothingBefore(log: seq<Entry>, gap: nat, cap: nat, now: nat, lo: nat, hi: nat)
    requires GoodLog(log, gap, cap, now) && now < lo
    ensures Minted(log, lo, hi) == 0 && ChangesFrom(log, lo) == 0
  {
    if log != [] {
      NothingBefore(log[..|log| - 1], gap, cap, log[|log| - 1].at, lo, hi);
    }
  }

  /** Between two changes at most the cap is admitted. */
  lemma {:induction false} MintedByEpochs(log: seq<Entry>, gap: nat, cap: nat, lo: nat, hi: nat)
    requires GoodLog(log, gap, cap, hi)
    ensures Minted(log, lo, hi) <= ChangesFrom(log, lo) * cap + SinceChange(log)
  {
    if log != [] {
      var n := |log| - 1;
      LaterLog(log[..n], gap, cap, log[n].at, hi);
      MintedByEpochs(log[..n], gap, cap, lo, hi);
      if log[n].Changed? {
        if log[n].at < lo {
          NothingBefore(log[..n], gap, cap, log[n].at, lo, hi);
        } else {
          assert SinceChange(log[..n]) <= cap;
          assert ChangesFrom(log, lo) * cap == ChangesFrom(log[..n], lo) * cap + cap;
        }
      }
    }
  }

  /** Changes from `lo` on are spaced, so the last of them is that many gaps later. */
  lemma {:induction false} ChangesSpaced(log: seq<Entry>, gap: nat, cap: nat, lo: nat, now: nat)
    requires GoodLog(log, gap, cap, now)
    ensures ChangesFrom(log, lo) > 0 ==>
      LastChange(log).Some? && lo + (ChangesFrom(log, lo) - 1) * gap <= LastChange(log).value <= now
  {
    if log != [] {
      var n := |log| - 1;
      ChangesSpaced(log[..n], gap, cap, lo, log[n].at);
      if log[n].Changed? && lo <= log[n].at && ChangesFrom(log[..n], lo) > 0 {
        var k := ChangesFrom(log[..n], lo);
        assert k * gap == (k - 1) * gap + gap;
      }
    }
  }

  lemma FewChanges(k: nat, gap: nat, span: nat)
    requires gap > 0 && (k > 0 ==> (k - 1) * gap <= span)
    ensures k <= span / gap + 1
  {
    var q := span / gap;
    if k > q + 1 {
      Monotone(q + 1, k - 1, gap);
      assert false;
    }
  }

  lemma Scale(minted: nat, k: nat, since: nat, cap: nat, n: nat)
    requires minted <= k * cap + since && since <= cap && k + 1 <= n
    ensures minted <= n * cap
  {
    Monotone(k + 1, n, cap);
  }

  lemma ChangesInSpan(cut: seq<Entry>, gap: nat, cap: nat, lo: nat, span: nat)
    requires GoodLog(cut, gap, cap, lo + span) && gap > 0
    ensures ChangesFrom(cut, lo) <= span / gap + 1
  {
    ChangesSpaced(cut, gap, cap, lo, lo + span);
    FewChanges(ChangesFrom(cut, lo), gap, span);
  }

  lemma LogRate(log: seq<Entry>, gap: nat, cap: nat, now: nat, lo: nat, span: nat)
    requires GoodLog(log, gap, cap, now) && gap > 0
    ensures Minted(log, lo, lo + span) <= (span / gap + 2) * cap
  {
    var cut := Cut(log, lo + span);
    CutMinted(log, gap, cap, now, lo, lo + span);
    MintedByEpochs(cut, gap, cap, lo, lo + span);
    ChangesInSpan(cut, gap, cap, lo, span);
    LogWithin(cut, gap, cap, lo + span);
    Scale(Minted(cut, lo, lo + span), ChangesFrom(cut, lo), SinceChange(cut), cap, span / gap + 2);
  }

  /** In one life of the clock, whatever the chain answers, epoch changes are at least the gap apart, so the total
      admitted in any span is at most (span / gap + 2) epoch caps. */
  lemma MintRate(verify: Verify, p: Pace, start: World, firstBoot: Option<(u64, u64)>, from: nat, run: seq<Event>, lo: nat, span: nat)
    requires Sound(start) && Timed(from, run) && p.gap > 0
    ensures var s := Life(verify, p, start, firstBoot, from, run);
      Minted(s.log, lo, lo + span) <= (span / p.gap + 2) * s.world.gate.limits.epochCap
  {
    LifeRunning(verify, p, start, firstBoot, from, run);
    var s := Life(verify, p, start, firstBoot, from, run);
    LogRate(s.log, p.gap, s.world.gate.limits.epochCap, s.now, lo, span);
  }

  lemma LogWithin(log: seq<Entry>, gap: nat, cap: nat, now: nat)
    requires GoodLog(log, gap, cap, now)
    ensures SinceChange(log) <= cap
  {}

  lemma Monotone(a: nat, b: nat, c: nat)
    requires a <= b
    ensures a * c <= b * c
  {}

  // ---------------------------------------------------------------- the height

  /** The highest the clock may have taken the gateway by an instant. */
  function HeightBound(p: Pace, c: Clock, now: nat): nat {
    if c.origin.None? then 0
    else c.origin.value.0 + Since(now, c.origin.value.1) / NANOS * p.rate + CLOCK_SLACK_BLOCKS
  }

  lemma BoundGrows(p: Pace, c: Clock, a: nat, b: nat)
    requires a <= b
    ensures HeightBound(p, c, a) <= HeightBound(p, c, b)
  {
    if c.origin.Some? {
      var at := c.origin.value.1;
      Quotient(Since(a, at), Since(b, at));
      Monotone(Since(a, at) / NANOS, Since(b, at) / NANOS, p.rate);
    }
  }

  lemma Quotient(a: nat, b: nat)
    requires a <= b
    ensures a / NANOS <= b / NANOS
  {}

  lemma CalledHeight(verify: Verify, w: World, op: Op)
    requires Elsewhere(op)
    ensures Step(verify, w, op).gate.guard.height == w.gate.guard.height
  {
    if op.GuardOp? {
      ChangeHeight(verify, w.gate.config, w.gate.guard, op.change);
    }
  }

  lemma ChangeHeight(verify: Verify, c: Config, g: Guard, change: GuardChange)
    requires !change.Height?
    ensures ChangeGuard(verify, c, g, change).height == g.height
  {}

  /** The height never falls, and however many answers the clock takes it stays within the origin's height plus the
      elapsed seconds at the rate plus the slack. */
  lemma {:induction false} HeightRate(verify: Verify, p: Pace, start: World, firstBoot: Option<(u64, u64)>, from: nat, run: seq<Event>)
    requires Timed(from, run)
    ensures var s := Life(verify, p, start, firstBoot, from, run);
      && s.world.gate.guard.height >= start.gate.guard.height
      && s.now == (if run == [] then from else At(run[|run| - 1]))
      && (s.clock.origin.None? ==> s.world.gate.guard.height == start.gate.guard.height)
      && (s.clock.origin.Some? ==> s.world.gate.guard.height <= HeightBound(p, s.clock, s.now))
  {
    if run != [] {
      var n := |run| - 1;
      HeightRate(verify, p, start, firstBoot, from, run[..n]);
      var s := Life(verify, p, start, firstBoot, from, run[..n]);
      match run[n]
      case Called(op, at) =>
        CalledHeight(verify, s.world, op);
        BoundGrows(p, s.clock, s.now, at);
      case Ticked(sight) =>
        TickKeepsHeight(p, s, sight);
    }
  }

  lemma TickKeepsHeight(p: Pace, s: System, sight: Sight)
    requires s.now <= sight.now
    requires s.clock.origin.Some? ==> s.world.gate.guard.height <= HeightBound(p, s.clock, s.now)
    ensures var x := TickWorld(p, s, sight);
      && x.world.gate.guard.height >= s.world.gate.guard.height
      && (x.clock.origin.None? ==> x.world.gate.guard.height == s.world.gate.guard.height)
      && (x.clock.origin.Some? ==> x.world.gate.guard.height <= HeightBound(p, x.clock, x.now))
  {
    var g := s.world.gate;
    TickGuard(p, s.clock, g.guard, g.books.epoch, sight);
    TickHeight(p, s.clock, g.guard, g.books.epoch, sight);
    BoundGrows(p, s.clock, s.now, sight.now);
  }
}
