/** How long lone operators can freeze deposits: accepted watchdog alarms over whole runs (q-gateway: gateway.rs). */
module Watchdog {
  import opened Machine
  import opened Quorum
  import opened GatewayState
  import opened GatewayGuards
  import opened GatewayRuns

  /** An accepted alarm: deposits are frozen from one height up to another. */
  datatype Alarm = Alarm(from: nat, until: nat, operator: u32)

  ghost function Raised(verify: Verify, g: Gate, op: Op): seq<Alarm> {
    if op.GuardOp? && op.change.Watchdog? && CheckWatchdog(verify, g.config, g.guard, op.change.until, op.change.sig).None?
    then [Alarm(g.guard.height, op.change.until, op.change.sig.operatorId)]
    else []
  }

  /** Every alarm accepted in a run, in order. */
  ghost function Alarms(verify: Verify, start: World, run: seq<Op>): seq<Alarm> {
    if run == [] then []
    else
      var n := |run| - 1;
      Alarms(verify, start, run[..n]) + Raised(verify, After(verify, start, run[..n]).gate, run[n])
  }

  // ---------------------------------------------------------------- the invariant

  predicate Spaced(s: seq<Alarm>) {
    && (forall i :: 0 <= i < |s| ==> s[i].from < s[i].until <= s[i].from + WATCHDOG_MAX_WINDOW)
    && (forall i :: 0 <= i < |s| - 1 ==> s[i].until + WATCHDOG_MAX_WINDOW <= s[i + 1].from)
  }

  predicate CoolsDown(s: seq<Alarm>) {
    forall i, j :: 0 <= i < j < |s| && s[i].operator == s[j].operator ==> s[i].from + WATCHDOG_COOLDOWN <= s[j].from
  }

  /** The guard remembers the end of the last alarm and each operator's last. */
  predicate Remembers(g: Guard, s: seq<Alarm>) {
    && g.depositFrozenUntil == (if s == [] then 0 else s[|s| - 1].until)
    && forall i :: 0 <= i < |s| ==>
         s[i].from <= g.height && s[i].operator in g.watchdogLast && s[i].from <= g.watchdogLast[s[i].operator]
  }

  predicate Watched(g: Guard, s: seq<Alarm>) {
    Spaced(s) && CoolsDown(s) && Remembers(g, s)
  }

  /** The test at the end of `watchdog_freeze` always passes: an accepted alarm ends later than the one before. */
  lemma LaterThanCurrent(verify: Verify, c: Config, g: Guard, until: u64, sig: Airlock.SignerSig)
    requires CheckWatchdog(verify, c, g, until, sig) == None
    ensures until > g.depositFrozenUntil
    ensures g.depositFrozenUntil > 0 ==> g.depositFrozenUntil + WATCHDOG_MAX_WINDOW <= g.height
    ensures sig.operatorId in g.watchdogLast ==> g.watchdogLast[sig.operatorId] + WATCHDOG_COOLDOWN <= g.height
  {
    assert !TooSoon(g) && !Cooling(g, sig.operatorId);
  }

  lemma AppendSpaced(s: seq<Alarm>, a: Alarm)
    requires Spaced(s) && a.from < a.until <= a.from + WATCHDOG_MAX_WINDOW
    requires s != [] ==> s[|s| - 1].until + WATCHDOG_MAX_WINDOW <= a.from
    ensures Spaced(s + [a])
  {}

  lemma AppendCools(s: seq<Alarm>, a: Alarm)
    requires CoolsDown(s)
    requires forall i :: 0 <= i < |s| && s[i].operator == a.operator ==> s[i].from + WATCHDOG_COOLDOWN <= a.from
    ensures CoolsDown(s + [a])
  {}

  lemma AlarmWatched(verify: Verify, c: Config, g: Guard, s: seq<Alarm>, until: u64, sig: Airlock.SignerSig)
    requires Watched(g, s) && CheckWatchdog(verify, c, g, until, sig) == None
    ensures Watched(WatchdogFreeze(g, until, sig.operatorId), s + [Alarm(g.height, until, sig.operatorId)])
  {
    LaterThanCurrent(verify, c, g, until, sig);
    var a := Alarm(g.height, until, sig.operatorId);
    assert s != [] ==> s[|s| - 1].until > 0;
    AppendSpaced(s, a);
    AppendCools(s, a);
  }

  lemma ChangesLeave(verify: Verify, c: Config, g: Guard, change: GuardChange)
    requires change.Watchdog? ==> CheckWatchdog(verify, c, g, change.until, change.sig).Some?
    ensures var x := ChangeGuard(verify, c, g, change);
      x.depositFrozenUntil == g.depositFrozenUntil && x.watchdogLast == g.watchdogLast && x.height >= g.height
  {
    ChangedLeaves(CheckChange(verify, c, g, change).Some?, g, change);
  }

  lemma ChangedLeaves(refused: bool, g: Guard, change: GuardChange)
    requires change.Watchdog? ==> refused
    ensures var x := Changed(refused, g, change);
      x.depositFrozenUntil == g.depositFrozenUntil && x.watchdogLast == g.watchdogLast && x.height >= g.height
  {}

  /** Everything else leaves the watchdog's memory alone and never lowers the height. */
  lemma OthersLeave(verify: Verify, w: World, op: Op)
    requires Raised(verify, w.gate, op) == []
    ensures var g, x := w.gate.guard, Step(verify, w, op).gate.guard;
      x.depositFrozenUntil == g.depositFrozenUntil && x.watchdogLast == g.watchdogLast && x.height >= g.height
  {
    if op.GuardOp? {
      ChangesLeave(verify, w.gate.config, w.gate.guard, op.change);
    }
  }

  lemma StepWatched(verify: Verify, w: World, op: Op, s: seq<Alarm>)
    requires Watched(w.gate.guard, s)
    ensures Watched(Step(verify, w, op).gate.guard, s + Raised(verify, w.gate, op))
  {
    var raised := Raised(verify, w.gate, op);
    if raised == [] {
      OthersLeave(verify, w, op);
      assert s + raised == s;
    } else {
      AlarmWatched(verify, w.gate.config, w.gate.guard, s, op.change.until, op.change.sig);
    }
  }

  /** Over every run, from any state that remembers the alarms `s` before it. */
  lemma {:induction false} RunWatched(verify: Verify, start: World, s: seq<Alarm>, run: seq<Op>)
    requires Watched(start.gate.guard, s)
    ensures Watched(After(verify, start, run).gate.guard, s + Alarms(verify, start, run))
  {
    if run == [] {
      assert s + Alarms(verify, start, run) == s;
    } else {
      var n := |run| - 1;
      RunWatched(verify, start, s, run[..n]);
      var before := Alarms(verify, start, run[..n]);
      StepWatched(verify, After(verify, start, run[..n]), run[n], s + before);
      var raised := Raised(verify, After(verify, start, run[..n]).gate, run[n]);
      assert s + before + raised == s + (before + raised);
    }
  }

  // ---------------------------------------------------------------- the bound

  predicate FrozenAt(s: seq<Alarm>, x: nat) {
    exists i :: 0 <= i < |s| && s[i].from <= x < s[i].until
  }

  /** The heights below `h` at which some alarm freezes deposits. */
  ghost function FrozenHeights(s: seq<Alarm>, h: nat): set<nat> {
    set x: nat | x < h && FrozenAt(s, x)
  }

  function Overlap(a: Alarm, h: nat): nat {
    if a.from <= Min(a.until, h) then Min(a.until, h) - a.from else 0
  }

  function TotalOverlap(s: seq<Alarm>, h: nat): nat {
    if s == [] then 0 else TotalOverlap(s[..|s| - 1], h) + Overlap(s[|s| - 1], h)
  }

  ghost function Heights(lo: nat, hi: nat): set<nat> {
    if lo >= hi then {} else Heights(lo, hi - 1) + {hi - 1}
  }

  lemma {:induction false} HeightsSize(lo: nat, hi: nat)
    ensures |Heights(lo, hi)| == (if lo <= hi then hi - lo else 0)
    ensures forall x :: x in Heights(lo, hi) <==> lo <= x < hi
  {
    if lo < hi {
      HeightsSize(lo, hi - 1);
    }
  }

  lemma UnionSize(a: set<nat>, b: set<nat>, c: set<nat>)
    requires c <= a + b
    ensures |c| <= |a| + |b|
  {
    assert c == (c * a) + (c - a);
    assert |c| == |c * a| + |c - a|;
    Smaller(c * a, a);
    Smaller(c - a, b);
  }

  lemma Smaller(a: set<nat>, b: set<nat>)
    requires a <= b
    ensures |a| <= |b|
  {
    assert b == a + (b - a);
    assert |b| == |a| + |b - a|;
  }

  lemma FrozenStep(s: seq<Alarm>, h: nat)
    requires s != []
    ensures var a := s[|s| - 1];
      FrozenHeights(s, h) <= FrozenHeights(s[..|s| - 1], h) + Heights(a.from, Min(a.until, h))
  {
    var n := |s| - 1;
    HeightsSize(s[n].from, Min(s[n].until, h));
    forall x | x in FrozenHeights(s, h) ensures FrozenAt(s[..n], x) || s[n].from <= x < s[n].until {
      var i :| 0 <= i < |s| && s[i].from <= x < s[i].until;
      assert i < n ==> s[..n][i] == s[i];
    }
  }

  lemma {:induction false} FrozenSize(s: seq<Alarm>, h: nat)
    ensures |FrozenHeights(s, h)| <= TotalOverlap(s, h)
  {
    if s == [] {
      assert FrozenHeights(s, h) == {};
    } else {
      var a := s[|s| - 1];
      FrozenSize(s[..|s| - 1], h);
      FrozenStep(s, h);
      HeightsSize(a.from, Min(a.until, h));
      UnionSize(FrozenHeights(s[..|s| - 1], h), Heights(a.from, Min(a.until, h)), FrozenHeights(s, h));
    }
  }

  lemma SpacedPrefix(s: seq<Alarm>)
    requires Spaced(s) && s != []
    ensures Spaced(s[..|s| - 1])
  {}

  /** Alarms no longer than the window and at least a window apart cover at most half, and half a window more. */
  lemma {:induction false} HalfFrozen(s: seq<Alarm>, h: nat)
    requires Spaced(s)
    ensures 2 * TotalOverlap(s, h) <= h + WATCHDOG_MAX_WINDOW
    ensures s != [] ==> 2 * TotalOverlap(s, h) <= s[|s| - 1].until + WATCHDOG_MAX_WINDOW
  {
    if s != [] {
      var n := |s| - 1;
      SpacedPrefix(s);
      HalfFrozen(s[..n], h);
      assert n > 0 ==> s[..n][n - 1] == s[n - 1];
    }
  }

  /** Spaced alarms leave at most (H + W)/2 of the first H heights frozen, W being the longest window. */
  lemma FrozenAtMost(s: seq<Alarm>, h: nat)
    requires Spaced(s)
    ensures |FrozenHeights(s, h)| <= (h + WATCHDOG_MAX_WINDOW) / 2
  {
    HalfFrozen(s, h);
    FrozenSize(s, h);
  }
}
