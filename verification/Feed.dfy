/** The burn watcher and feed: no burn is lost (q-exits: watch.rs, feed.rs). */
module Feed {
  import opened Machine
  import opened ExitTypes
  import opened Desk
  import Vaults
  import DeskRuns

  const MAX_HEIGHTS_PER_POLL: nat := 1024
  const MAX_BURNS_PER_POLL: nat := 4096
  const MAX_PENDING_BURNS: nat := 1024
  const MAX_UNFINALIZED_ATTEMPTS: nat := 64

  /** A burn leaf of a block: where it is and the reference it carries, if its bytes parse. */
  datatype Leaf = Leaf(height: u64, digest: Bytes32, claimed: Option<Bytes32>)

  datatype WatchError = SourceUnavailable | EventRootMismatch(height: u64)

  /** What the source answers for a block; `matches` says the events are those its header commits to. */
  datatype BlockAnswer = Missing | Failed | Served(matches: bool, leaves: seq<Leaf>)

  datatype Source = Source(head: Option<u64>, heights: Option<seq<u64>>, block: u64 -> BlockAnswer)

  // ---------------------------------------------------------------- polling

  predicate Usable(h: u64, cursor: u64, head: u64) {
    cursor < h <= head
  }

  /** The usable heights of a list, in strictly rising order: retain, sort and dedup. */
  predicate Ordered(hs: seq<u64>, list: seq<u64>, cursor: u64, head: u64) {
    && (forall h :: h in hs <==> h in list && Usable(h, cursor, head))
    && (forall i, j :: 0 <= i < j < |hs| ==> hs[i] < hs[j])
  }

  datatype Scan = Scan(through: u64, taken: seq<Leaf>, error: Option<WatchError>)

  /** The loop of `poll`: blocks in order until one is missing, fails, does not match, or enough burns are taken. */
  function ScanHeights(block: u64 -> BlockAnswer, hs: seq<u64>, through: u64, taken: seq<Leaf>): Scan {
    if hs == [] then Scan(through, taken, None)
    else
      match block(hs[0])
      case Missing => Scan(through, taken, None)
      case Failed => Scan(through, taken, if taken == [] then Some(SourceUnavailable) else None)
      case Served(matches, leaves) =>
        if !matches then Scan(through, taken, if taken == [] then Some(EventRootMismatch(hs[0])) else None)
        else if |taken + leaves| >= MAX_BURNS_PER_POLL then Scan(hs[0], taken + leaves, None)
        else ScanHeights(block, hs[1..], hs[0], taken + leaves)
  }

  function FirstHeights(hs: seq<u64>): seq<u64> {
    if |hs| <= MAX_HEIGHTS_PER_POLL then hs else hs[..MAX_HEIGHTS_PER_POLL]
  }

  /** `poll`, the listed heights given in order. */
  function Poll(src: Source, through: u64, hs: seq<u64>): Scan {
    if src.head.None? then Scan(through, [], Some(SourceUnavailable))
    else if src.head.value <= through then Scan(through, [], None)
    else if src.heights.None? then Scan(through, [], Some(SourceUnavailable))
    else if hs == [] then Scan(src.head.value, [], None)
    else ScanHeights(src.block, FirstHeights(hs), through, [])
  }

  /** The burn leaves of the chain, height by height. */
  type Chain = u64 -> seq<Leaf>

  /** A burn height may be missing from the list only when it lies above some usable height listed, and so above all
      the usable ones: the list is complete up to its largest usable entry, and empty only when there is nothing. */
  predicate CompleteList(chain: Chain, list: seq<u64>, cursor: u64, head: u64) {
    forall h: u64 {:trigger chain(h)} :: Usable(h, cursor, head) && chain(h) != [] && h !in list ==>
      && (exists x :: x in list && Usable(x, cursor, head))
      && (forall x :: x in list && Usable(x, cursor, head) ==> x < h)
  }

  /** The list is complete, and a block that matches its header holds the chain's burns. */
  ghost predicate HonestSource(chain: Chain, src: Source, cursor: u64) {
    && (src.head.Some? && src.heights.Some? ==> CompleteList(chain, src.heights.value, cursor, src.head.value))
    && (forall h: u64 {:trigger src.block(h)} ::
          src.block(h).Served? && src.block(h).matches ==> src.block(h).leaves == chain(h))
  }

  /** Every burn of the heights past `lo` up to `through` was taken. */
  ghost predicate TakenUpTo(chain: Chain, lo: u64, through: u64, taken: seq<Leaf>) {
    forall h: u64, x: Leaf {:trigger x in chain(h)} :: lo < h <= through && x in chain(h) ==> x in taken
  }

  /** Past `through`, no burn lies below a listed height without being listed. */
  ghost predicate NoGap(chain: Chain, hs: seq<u64>, through: u64) {
    forall h: u64 {:trigger chain(h)} :: through < h && chain(h) != [] && h !in hs ==> forall x :: x in hs ==> x < h
  }

  lemma {:induction false} ScanTakes(chain: Chain, block: u64 -> BlockAnswer, hs: seq<u64>, lo: u64, through: u64, taken: seq<Leaf>)
    requires forall h: u64 {:trigger block(h)} :: block(h).Served? && block(h).matches ==> block(h).leaves == chain(h)
    requires TakenUpTo(chain, lo, through, taken) && NoGap(chain, hs, through) && lo <= through
    requires forall i, j :: 0 <= i < j < |hs| ==> hs[i] < hs[j]
    requires forall h :: h in hs ==> through < h
    ensures var s := ScanHeights(block, hs, through, taken);
      && through <= s.through && TakenUpTo(chain, lo, s.through, s.taken) && (s.error.Some? ==> s.taken == [])
  {
    if hs != [] && block(hs[0]).Served? && block(hs[0]).matches {
      assert hs[0] in hs;
      OneMore(chain, hs, lo, through, taken);
      var more := taken + chain(hs[0]);
      if |more| < MAX_BURNS_PER_POLL {
        Shorter(chain, hs, through);
        ScanTakes(chain, block, hs[1..], lo, hs[0], more);
      }
    }
  }

  lemma OneMore(chain: Chain, hs: seq<u64>, lo: u64, through: u64, taken: seq<Leaf>)
    requires hs != [] && TakenUpTo(chain, lo, through, taken) && NoGap(chain, hs, through)
    requires forall i, j :: 0 <= i < j < |hs| ==> hs[i] < hs[j]
    ensures TakenUpTo(chain, lo, hs[0], taken + chain(hs[0]))
  {
    forall h: u64, x: Leaf | lo < h <= hs[0] && x in chain(h) ensures x in taken + chain(hs[0]) {
      if through < h {
        assert chain(h) != [] && hs[0] in hs;
        assert h in hs;
      }
    }
  }

  lemma Shorter(chain: Chain, hs: seq<u64>, through: u64)
    requires hs != [] && NoGap(chain, hs, through) && (forall i, j :: 0 <= i < j < |hs| ==> hs[i] < hs[j])
    requires through < hs[0]
    ensures NoGap(chain, hs[1..], hs[0]) && forall h :: h in hs[1..] ==> hs[0] < h
  {
    forall h: u64, x: u64 | hs[0] < h && chain(h) != [] && h !in hs[1..] && x in hs[1..] ensures x < h {
      assert h !in hs && x in hs;
    }
  }

  lemma FirstNoGap(chain: Chain, hs: seq<u64>, through: u64)
    requires NoGap(chain, hs, through) && (forall i, j :: 0 <= i < j < |hs| ==> hs[i] < hs[j])
    ensures NoGap(chain, FirstHeights(hs), through)
  {
    var first := FirstHeights(hs);
    forall h: u64, x: u64 | through < h && chain(h) != [] && h !in first && x in first ensures x < h {
      var j :| 0 <= j < |first| && first[j] == x;
      assert hs[j] == x && x in hs;
      if h in hs {
        var i :| 0 <= i < |hs| && hs[i] == h;
        assert j < i;
      }
    }
  }

  lemma ListNoGap(chain: Chain, hs: seq<u64>, list: seq<u64>, cursor: u64, head: u64)
    requires CompleteList(chain, list, cursor, head) && Ordered(hs, list, cursor, head)
    ensures NoGap(chain, hs, cursor)
  {
    forall h: u64 | cursor < h && chain(h) != [] && h !in hs ensures forall x :: x in hs ==> x < h {
      if h <= head {
        assert Usable(h, cursor, head) && h !in list;
      }
    }
  }

  /** A poll takes every burn of the heights it moves past; when it fails there were none. */
  lemma PollTakes(chain: Chain, src: Source, through: u64, hs: seq<u64>)
    requires HonestSource(chain, src, through)
    requires src.head.Some? && src.heights.Some? ==> Ordered(hs, src.heights.value, through, src.head.value)
    ensures var s := Poll(src, through, hs);
      && through <= s.through && TakenUpTo(chain, through, s.through, s.taken) && (s.error.Some? ==> s.taken == [])
  {
    if src.head.Some? && src.head.value > through && src.heights.Some? {
      ListNoGap(chain, hs, src.heights.value, through, src.head.value);
      if hs != [] {
        FirstNoGap(chain, hs, through);
        assert forall h :: h in FirstHeights(hs) ==> h in hs;
        ScanTakes(chain, src.block, FirstHeights(hs), through, through, []);
      } else {
        NothingListed(chain, src.heights.value, through, src.head.value);
      }
    }
  }

  lemma NothingListed(chain: Chain, list: seq<u64>, cursor: u64, head: u64)
    requires CompleteList(chain, list, cursor, head) && Ordered([], list, cursor, head)
    ensures TakenUpTo(chain, cursor, head, [])
  {
    forall h: u64, x: Leaf | cursor < h <= head && x in chain(h) ensures false {
      assert chain(h) != [] && Usable(h, cursor, head);
    }
  }

  /** The default `burn_heights_after`, its own reading of the head being `second`. */
  predicate DefaultList(list: seq<u64>, cursor: u64, second: u64) {
    forall h: u64 :: h in list <==> SatAdd64(cursor, 1) <= h <= Min(second, SatAdd64(cursor, MAX_HEIGHTS_PER_POLL))
  }

  /** It is complete on every chain exactly when that second reading has not fallen back to the cursor. */
  lemma DefaultComplete(list: seq<u64>, cursor: u64, head: u64, second: u64)
    requires DefaultList(list, cursor, second) && cursor < head
    ensures second > cursor <==> forall chain: Chain :: CompleteList(chain, list, cursor, head)
  {
    if second > cursor {
      forall chain: Chain ensures CompleteList(chain, list, cursor, head) {
        var next: u64 := cursor + 1;
        assert next in list && Usable(next, cursor, head);
      }
    } else {
      var everywhere: Chain := (h: u64) => [Leaf(h, ZERO32, None)];
      assert Usable(head, cursor, head) && everywhere(head) != [];
      assert !CompleteList(everywhere, list, cursor, head);
    }
  }

  /** The poll that fails: the second reading is at the cursor, so the list is empty, and the cursor moves past a burn that
      is not taken. */
  lemma DefaultSkips(chain: Chain, cursor: u64, head: u64, second: u64, block: u64 -> BlockAnswer, x: Leaf)
    requires second <= cursor < head && x in chain(head)
    ensures DefaultList([], cursor, second)
    ensures var s := Poll(Source(Some(head), Some([]), block), cursor, []);
      s.through == head && x !in s.taken && !TakenUpTo(chain, cursor, s.through, s.taken)
  {
    assert x in chain(head);
  }

  // ---------------------------------------------------------------- driving

  /** One attempt on a leaf: the verifier's verdict and what storage does with the writes. */
  datatype Try = Try(verdict: Result<AuthenticatedBurn, ExitError>, openFault: Fault, letterFault: Fault)

  /** The errors a burn proof's own verification has. */
  predicate ProofError(e: ExitError) {
    e in {HeaderDecode, HeaderMismatch, HeightMismatch, NotFinalized, BadInclusion, NotABurnLeaf, LeafDecode,
          BurnRefUnbound}
  }

  /** A verdict speaks of the reference in the leaf: both come from parsing the leaf. */
  predicate Bound(x: Leaf, t: Try) {
    match t.verdict
    case Ok(b) => x.claimed == Some(b.burnRef)
    case Err(e) => ProofError(e)
  }

  function ProofOf(x: Leaf, t: Try): BurnProof {
    BurnProof(t.verdict, x.height, x.digest, x.claimed)
  }

  predicate Retryable(e: ExitError) {
    e == ThinVault || e == PersistFailed || e == LedgerFull || e == NotFinalized
  }

  datatype Queued = Queued(leaf: Leaf, attempts: nat)

  /** The desk, the exits opened and the leaves kept, after some of the work. */
  datatype Work = Work(live: Live, ids: seq<nat>, kept: seq<Queued>)

  /** The error is final: written as a dead letter, or kept when that write fails. */
  function Bury(w: Work, q: Queued, t: Try, e: ExitError, now: u64): Work {
    var (l, r) := WriteDeadLetter(w.live, ProofOf(q.leaf, t), e, now, t.letterFault);
    w.(live := l, kept := if r.Err? then w.kept + [q] else w.kept)
  }

  /** What `drive` does with the desk's answer to an attempt. */
  function Answered(x: Work, q: Queued, t: Try, r: Result<nat, ExitError>, now: u64): Work {
    match r
    case Ok(id) => x.(ids := x.ids + [id])
    case Err(e) =>
      if e == ReplayedExit then x
      else if e == NotFinalized && q.attempts + 1 >= MAX_UNFINALIZED_ATTEMPTS then Bury(x, q, t, e, now)
      else if Retryable(e) then x.(kept := x.kept + [Queued(q.leaf, q.attempts + 1)])
      else Bury(x, q, t, e, now)
  }

  /** One turn of the loop of `drive`. */
  ghost function Attend(cfg: DeskConfig, dest: u64, w: Work, q: Queued, t: Try, now: u64): Work {
    var (l, r) := OpenExit(cfg, dest, w.live, ProofOf(q.leaf, t), now, t.openFault);
    Answered(w.(live := l), q, t, r, now)
  }

  ghost function AttendAll(cfg: DeskConfig, dest: u64, live: Live, todo: seq<Queued>, tries: nat -> Try, now: u64): Work {
    if todo == [] then Work(live, [], [])
    else
      var n := |todo| - 1;
      Attend(cfg, dest, AttendAll(cfg, dest, live, todo[..n], tries, now), todo[n], tries(n), now)
  }

  function Fresh(leaves: seq<Leaf>): seq<Queued> {
    if leaves == [] then [] else Fresh(leaves[..|leaves| - 1]) + [Queued(leaves[|leaves| - 1], 0)]
  }

  datatype FeedState = FeedState(through: u64, pending: seq<Queued>)

  datatype Drive = Drive(src: Source, hs: seq<u64>, tries: nat -> Try, now: u64)

  function Polled(f: FeedState, d: Drive): Scan {
    if |f.pending| >= MAX_PENDING_BURNS then Scan(f.through, [], None) else Poll(d.src, f.through, d.hs)
  }

  /** `drive` on an enabled feed. */
  ghost function DriveOnce(cfg: DeskConfig, dest: u64, f: FeedState, live: Live, d: Drive): (FeedState, Live) {
    var scan := Polled(f, d);
    if scan.error.Some? then (f.(through := scan.through), live)
    else
      var w := AttendAll(cfg, dest, live, f.pending + Fresh(scan.taken), d.tries, d.now);
      (FeedState(scan.through, w.kept), w.live)
  }

  // ---------------------------------------------------------------- nothing is lost

  predicate Buried(dead: seq<DeadLetter>, x: Leaf) {
    exists i :: 0 <= i < |dead| && dead[i].height == x.height && dead[i].leafDigest == x.digest
  }

  /** A burn's reference is consumed, or the burn is a dead letter. */
  predicate Decided(d: Desk, x: Leaf) {
    (x.claimed.Some? && x.claimed.value in d.consumed) || Buried(d.dead, x)
  }

  predicate Waiting(pending: seq<Queued>, x: Leaf) {
    exists i :: 0 <= i < |pending| && pending[i].leaf == x
  }

  predicate Accounted(d: Desk, pending: seq<Queued>, x: Leaf) {
    Decided(d, x) || Waiting(pending, x)
  }

  predicate Grows(a: Desk, b: Desk) {
    a.consumed <= b.consumed && |a.dead| <= |b.dead| && b.dead[..|a.dead|] == a.dead
  }

  lemma DecidedStays(a: Desk, b: Desk, x: Leaf)
    requires Grows(a, b) && Decided(a, x)
    ensures Decided(b, x)
  {
    if Buried(a.dead, x) {
      var i :| 0 <= i < |a.dead| && a.dead[i].height == x.height && a.dead[i].leafDigest == x.digest;
      assert b.dead[..|a.dead|][i] == a.dead[i];
    }
  }

  lemma GrowsOn(a: Desk, b: Desk, c: Desk)
    requires Grows(a, b) && Grows(b, c)
    ensures Grows(a, c)
  {
    assert c.dead[..|a.dead|] == c.dead[..|b.dead|][..|a.dead|];
  }

  lemma ReplayedMeansConsumed(cfg: DeskConfig, dest: u64, d: Desk, x: Leaf, t: Try)
    requires Bound(x, t) && Admissible(cfg, dest, d, ProofOf(x, t)) == Err(ReplayedExit)
    ensures Decided(d, x)
  {}

  lemma AdmittedIsClaimed(cfg: DeskConfig, dest: u64, d: Desk, x: Leaf, t: Try)
    requires Bound(x, t) && Admissible(cfg, dest, d, ProofOf(x, t)).Ok?
    ensures x.claimed == Some(Admissible(cfg, dest, d, ProofOf(x, t)).value.0.burnRef)
  {}

  /** Opening consumes the leaf's reference, or says why not. */
  lemma OpenDecides(cfg: DeskConfig, dest: u64, l: Live, x: Leaf, t: Try, now: u64)
    requires Bound(x, t)
    ensures var (k, r) := OpenExit(cfg, dest, l, ProofOf(x, t), now, t.openFault);
      && Grows(l.desk, k.desk)
      && (r.Ok? || r == Err(ReplayedExit) ==> Decided(k.desk, x))
  {
    var ok := Admissible(cfg, dest, l.desk, ProofOf(x, t));
    if ok == Err(ReplayedExit) {
      ReplayedMeansConsumed(cfg, dest, l.desk, x, t);
    } else if ok.Ok? {
      AdmittedIsClaimed(cfg, dest, l.desk, x, t);
      NoOtherReplay(l.desk.vaults, ok.value.1);
    }
  }

  lemma NoOtherReplay(b: Vaults.Book, need: u128)
    ensures Vaults.LockAny(b, need).Err? ==> Vaults.LockAny(b, need).error != ReplayedExit
  {}

  lemma LetterDecides(l: Live, x: Leaf, t: Try, e: ExitError, now: u64)
    ensures var (k, r) := WriteDeadLetter(l, ProofOf(x, t), e, now, t.letterFault);
      Grows(l.desk, k.desk) && (r.Ok? ==> Decided(k.desk, x))
  {
    var (k, r) := WriteDeadLetter(l, ProofOf(x, t), e, now, t.letterFault);
    if r.Ok? && k.desk != l.desk {
      assert k.desk.dead[|l.desk.dead|] == LetterOf(ProofOf(x, t), e, now);
    }
  }

  predicate Kept(kept: seq<Queued>, more: seq<Queued>) {
    |kept| <= |more| && more[..|kept|] == kept
  }

  lemma WaitingStays(kept: seq<Queued>, more: seq<Queued>, x: Leaf)
    requires Kept(kept, more) && Waiting(kept, x)
    ensures Waiting(more, x)
  {
    var i :| 0 <= i < |kept| && kept[i].leaf == x;
    assert more[..|kept|][i] == kept[i];
  }

  lemma BuryAccounts(w: Work, q: Queued, t: Try, e: ExitError, now: u64)
    ensures var x := Bury(w, q, t, e, now);
      Grows(w.live.desk, x.live.desk) && Kept(w.kept, x.kept) && Accounted(x.live.desk, x.kept, q.leaf)
  {
    LetterDecides(w.live, q.leaf, t, e, now);
    var x := Bury(w, q, t, e, now);
    if x.kept != w.kept {
      assert x.kept[|w.kept|] == q;
    }
  }

  lemma AnswerAccounts(x: Work, q: Queued, t: Try, r: Result<nat, ExitError>, now: u64)
    requires r.Ok? || r == Err(ReplayedExit) ==> Decided(x.live.desk, q.leaf)
    ensures var y := Answered(x, q, t, r, now);
      Grows(x.live.desk, y.live.desk) && Kept(x.kept, y.kept) && Accounted(y.live.desk, y.kept, q.leaf)
  {
    if r.Err? && r.error != ReplayedExit {
      BuryAccounts(x, q, t, r.error, now);
      var again := Queued(q.leaf, q.attempts + 1);
      assert (x.kept + [again])[|x.kept|] == again;
    }
  }

  /** One turn accounts for its leaf and forgets none before it. */
  lemma AttendAccounts(cfg: DeskConfig, dest: u64, w: Work, q: Queued, t: Try, now: u64)
    requires Bound(q.leaf, t)
    ensures var x := Attend(cfg, dest, w, q, t, now);
      Grows(w.live.desk, x.live.desk) && Kept(w.kept, x.kept) && Accounted(x.live.desk, x.kept, q.leaf)
  {
    OpenDecides(cfg, dest, w.live, q.leaf, t, now);
    var (l, r) := OpenExit(cfg, dest, w.live, ProofOf(q.leaf, t), now, t.openFault);
    AnswerAccounts(w.(live := l), q, t, r, now);
    GrowsOn(w.live.desk, l.desk, Answered(w.(live := l), q, t, r, now).live.desk);
  }

  lemma AccountedStays(a: Desk, b: Desk, kept: seq<Queued>, more: seq<Queued>, x: Leaf)
    requires Grows(a, b) && Kept(kept, more) && Accounted(a, kept, x)
    ensures Accounted(b, more, x)
  {
    if Decided(a, x) {
      DecidedStays(a, b, x);
    } else {
      WaitingStays(kept, more, x);
    }
  }

  ghost predicate AllOf(w: Work, todo: seq<Queued>) {
    forall i :: 0 <= i < |todo| ==> Accounted(w.live.desk, w.kept, todo[i].leaf)
  }

  lemma AllOfStays(v: Work, w: Work, todo: seq<Queued>, q: Queued)
    requires AllOf(v, todo) && Grows(v.live.desk, w.live.desk) && Kept(v.kept, w.kept)
    requires Accounted(w.live.desk, w.kept, q.leaf)
    ensures AllOf(w, todo + [q])
  {
    forall i | 0 <= i < |todo| ensures Accounted(w.live.desk, w.kept, todo[i].leaf) {
      AccountedStays(v.live.desk, w.live.desk, v.kept, w.kept, todo[i].leaf);
    }
  }

  lemma AttendMore(cfg: DeskConfig, dest: u64, d: Desk, v: Work, todo: seq<Queued>, q: Queued, t: Try, now: u64)
    requires Grows(d, v.live.desk) && AllOf(v, todo) && Bound(q.leaf, t)
    ensures var w := Attend(cfg, dest, v, q, t, now); Grows(d, w.live.desk) && AllOf(w, todo + [q])
  {
    AttendAccounts(cfg, dest, v, q, t, now);
    var w := Attend(cfg, dest, v, q, t, now);
    GrowsOn(d, v.live.desk, w.live.desk);
    AllOfStays(v, w, todo, q);
  }

  /** Every drive accounts for every leaf it was given, waiting or new. */
  lemma {:induction false} AllAccounted(cfg: DeskConfig, dest: u64, live: Live, todo: seq<Queued>, tries: nat -> Try, now: u64)
    requires forall i :: 0 <= i < |todo| ==> Bound(todo[i].leaf, tries(i))
    ensures var w := AttendAll(cfg, dest, live, todo, tries, now); Grows(live.desk, w.live.desk) && AllOf(w, todo)
  {
    if todo != [] {
      var n := |todo| - 1;
      AllAccounted(cfg, dest, live, todo[..n], tries, now);
      var v := AttendAll(cfg, dest, live, todo[..n], tries, now);
      AttendMore(cfg, dest, live.desk, v, todo[..n], todo[n], tries(n), now);
      assert todo[..n] + [todo[n]] == todo;
    }
  }

  // ---------------------------------------------------------------- whole lives of a feed

  /** One leaf of `retry_dead_letters`. */
  ghost function RetryLeaf(cfg: DeskConfig, dest: u64, w: Work, x: Leaf, t: Try, now: u64): Work {
    var (l, r) := OpenExit(cfg, dest, w.live, ProofOf(x, t), now, t.openFault);
    match r
    case Ok(id) => Work(l, w.ids + [id], w.kept)
    case Err(e) =>
      w.(live := l, kept := if Retryable(e) && |w.kept| < MAX_PENDING_BURNS then w.kept + [Queued(x, 0)] else w.kept)
  }

  /** The leaves found again for the dead letters, each tried once more. */
  ghost function RetryAll(cfg: DeskConfig, dest: u64, live: Live, pending: seq<Queued>, leaves: seq<Leaf>, tries: nat -> Try, now: u64): Work {
    if leaves == [] then Work(live, [], pending)
    else
      var n := |leaves| - 1;
      RetryLeaf(cfg, dest, RetryAll(cfg, dest, live, pending, leaves[..n], tries, now), leaves[n], tries(n), now)
  }

  datatype FeedEvent =
    | Driven(drive: Drive)
    | Retried(leaves: seq<Leaf>, tries: nat -> Try, now: u64)
    | DeskDid(op: DeskRuns.Op)
    | Restarted(origin: u64, landed: bool)

  datatype Feeding = Feeding(feed: FeedState, desk: DeskRuns.System)

  ghost function Next(cfg: DeskConfig, dest: u64, s: Feeding, e: FeedEvent): Feeding {
    match e
    case Driven(d) =>
      var (f, l) := DriveOnce(cfg, dest, s.feed, s.desk.live, d);
      Feeding(f, s.desk.(live := l))
    case Retried(leaves, tries, now) =>
      var w := RetryAll(cfg, dest, s.desk.live, s.feed.pending, leaves, tries, now);
      Feeding(s.feed.(pending := w.kept), s.desk.(live := w.live))
    case DeskDid(op) =>
      var r := DeskRuns.Step(cfg, dest, s.desk, op);
      if r.Err? then s else s.(desk := r.value)
    // The service starts again: the desk replays its journal, and a new feed scans from the configured height.
    case Restarted(origin, landed) =>
      var r := DeskRuns.Reboot(s.desk, landed);
      if r.Err? then s else Feeding(FeedState(origin, []), r.value)
  }

  ghost function Life(cfg: DeskConfig, dest: u64, start: Feeding, run: seq<FeedEvent>): Feeding {
    if run == [] then start else Next(cfg, dest, Life(cfg, dest, start, run[..|run| - 1]), run[|run| - 1])
  }

  /** What the source and the verifier are trusted for; a restart of the desk is the event `Restarted`. */
  ghost predicate Fair(chain: Chain, s: Feeding, e: FeedEvent) {
    match e
    case Driven(d) =>
      && HonestSource(chain, d.src, s.feed.through)
      && (d.src.head.Some? && d.src.heights.Some? ==>
            Ordered(d.hs, d.src.heights.value, s.feed.through, d.src.head.value))
      && var todo := s.feed.pending + Fresh(Polled(s.feed, d).taken);
         forall i :: 0 <= i < |todo| ==> Bound(todo[i].leaf, d.tries(i))
    case Retried(leaves, tries, _) => forall i :: 0 <= i < |leaves| ==> Bound(leaves[i], tries(i))
    case DeskDid(op) => !op.Restart?
    case Restarted(_, _) => true
  }

  ghost predicate FairLife(cfg: DeskConfig, dest: u64, chain: Chain, start: Feeding, run: seq<FeedEvent>) {
    forall i :: 0 <= i < |run| ==> Fair(chain, Life(cfg, dest, start, run[..i]), run[i])
  }

  /** Every burn past `lo` up to `through` is accounted for. */
  ghost predicate NoneLost(chain: Chain, lo: u64, through: u64, d: Desk, pending: seq<Queued>) {
    forall h: u64, x: Leaf {:trigger x in chain(h)} :: lo < h <= through && x in chain(h) ==> Accounted(d, pending, x)
  }

  lemma NoneLostStays(chain: Chain, lo: u64, through: u64, a: Desk, b: Desk, pending: seq<Queued>, more: seq<Queued>)
    requires NoneLost(chain, lo, through, a, pending) && Grows(a, b) && Kept(pending, more)
    ensures NoneLost(chain, lo, through, b, more)
  {
    forall h: u64, x: Leaf | lo < h <= through && x in chain(h) ensures Accounted(b, more, x) {
      AccountedStays(a, b, pending, more, x);
    }
  }

  lemma {:induction false} FreshHolds(leaves: seq<Leaf>, x: Leaf)
    requires x in leaves
    ensures Waiting(Fresh(leaves), x)
  {
    var n := |leaves| - 1;
    var before := Fresh(leaves[..n]);
    if x == leaves[n] {
      assert Fresh(leaves)[|before|].leaf == x;
    } else {
      var i :| 0 <= i < |leaves| && leaves[i] == x;
      assert leaves[..n][i] == x;
      FreshHolds(leaves[..n], x);
      WaitingStays(before, Fresh(leaves), x);
    }
  }

  /** A leaf waiting among the work is accounted for after it. */
  lemma WorkedOff(w: Work, todo: seq<Queued>, x: Leaf)
    requires AllOf(w, todo) && Waiting(todo, x)
    ensures Accounted(w.live.desk, w.kept, x)
  {
    var i :| 0 <= i < |todo| && todo[i].leaf == x;
  }

  lemma WaitingJoin(a: seq<Queued>, b: seq<Queued>, x: Leaf)
    requires Waiting(a, x) || Waiting(b, x)
    ensures Waiting(a + b, x)
  {
    if Waiting(a, x) {
      var i :| 0 <= i < |a| && a[i].leaf == x;
      assert (a + b)[i].leaf == x;
    } else {
      var i :| 0 <= i < |b| && b[i].leaf == x;
      assert (a + b)[|a| + i].leaf == x;
    }
  }

  lemma LeafAfterDrive(d: Desk, w: Work, pending: seq<Queued>, taken: seq<Leaf>, x: Leaf)
    requires Grows(d, w.live.desk) && AllOf(w, pending + Fresh(taken)) && (Accounted(d, pending, x) || x in taken)
    ensures Accounted(w.live.desk, w.kept, x)
  {
    if Decided(d, x) {
      DecidedStays(d, w.live.desk, x);
    } else {
      if x in taken {
        FreshHolds(taken, x);
      }
      WaitingJoin(pending, Fresh(taken), x);
      WorkedOff(w, pending + Fresh(taken), x);
    }
  }

  lemma PolledTakes(chain: Chain, f: FeedState, d: Drive)
    requires HonestSource(chain, d.src, f.through)
    requires d.src.head.Some? && d.src.heights.Some? ==> Ordered(d.hs, d.src.heights.value, f.through, d.src.head.value)
    ensures var s := Polled(f, d);
      && f.through <= s.through && TakenUpTo(chain, f.through, s.through, s.taken) && (s.error.Some? ==> s.taken == [])
  {
    PollTakes(chain, d.src, f.through, d.hs);
  }

  lemma DriveLosesNone(cfg: DeskConfig, dest: u64, chain: Chain, lo: u64, s: Feeding, d: Drive)
    requires Fair(chain, s, Driven(d)) && lo <= s.feed.through
    requires NoneLost(chain, lo, s.feed.through, s.desk.live.desk, s.feed.pending)
    ensures var x := Next(cfg, dest, s, Driven(d));
      NoneLost(chain, lo, x.feed.through, x.desk.live.desk, x.feed.pending) && s.feed.through <= x.feed.through
  {
    var scan := Polled(s.feed, d);
    var live, pending := s.desk.live, s.feed.pending;
    PolledTakes(chain, s.feed, d);
    if scan.error.None? {
      AllAccounted(cfg, dest, live, pending + Fresh(scan.taken), d.tries, d.now);
      var w := AttendAll(cfg, dest, live, pending + Fresh(scan.taken), d.tries, d.now);
      forall h: u64, x: Leaf | lo < h <= scan.through && x in chain(h) ensures Accounted(w.live.desk, w.kept, x) {
        LeafAfterDrive(live.desk, w, pending, scan.taken, x);
      }
    }
  }

  lemma {:induction false} RetryGrows(cfg: DeskConfig, dest: u64, live: Live, pending: seq<Queued>, leaves: seq<Leaf>, tries: nat -> Try, now: u64)
    requires forall i :: 0 <= i < |leaves| ==> Bound(leaves[i], tries(i))
    ensures var w := RetryAll(cfg, dest, live, pending, leaves, tries, now); Grows(live.desk, w.live.desk) && Kept(pending, w.kept)
  {
    if leaves != [] {
      var n := |leaves| - 1;
      RetryGrows(cfg, dest, live, pending, leaves[..n], tries, now);
      var v := RetryAll(cfg, dest, live, pending, leaves[..n], tries, now);
      OpenDecides(cfg, dest, v.live, leaves[n], tries(n), now);
      var l := OpenExit(cfg, dest, v.live, ProofOf(leaves[n], tries(n)), now, tries(n).openFault).0;
      GrowsOn(live.desk, v.live.desk, l.desk);
    }
  }

  lemma {:induction false} CloseGrows(cfg: DeskConfig, l: Live, i: nat, ws: seq<(Watcher, Fault)>, now: u64, f: Fault)
    ensures Grows(l.desk, AskThenSlash(cfg, l, i, ws, now, f).0.desk)
  {
    if ws != [] {
      var (l1, r) := Settle(cfg, l, i, ws[0].0, ws[0].1);
      if r.Err? && ProvesNoPayout(r.error) {
        CloseGrows(cfg, l1, i, ws[1..], now, f);
        GrowsOn(l.desk, l1.desk, AskThenSlash(cfg, l1, i, ws[1..], now, f).0.desk);
      }
    }
  }

  lemma OtherGrows(cfg: DeskConfig, dest: u64, s: DeskRuns.System, op: DeskRuns.Op)
    requires !op.Restart?
    ensures DeskRuns.Step(cfg, dest, s, op).Ok? ==> Grows(s.live.desk, DeskRuns.Step(cfg, dest, s, op).value.live.desk)
  {
    match op
    case Close(i, ws, now, f) => CloseGrows(cfg, s.live, i, ws, now, f);
    case _ =>
  }

  /** The height from which the present feed began to scan. */
  ghost function Began(cfg: DeskConfig, dest: u64, start: Feeding, run: seq<FeedEvent>): u64 {
    if run == [] then start.feed.through
    else
      var n := |run| - 1;
      if run[n].Restarted? && DeskRuns.Reboot(Life(cfg, dest, start, run[..n]).desk, run[n].landed).Ok? then run[n].origin
      else Began(cfg, dest, start, run[..n])
  }

  ghost predicate NothingLost(chain: Chain, lo: u64, s: Feeding) {
    lo <= s.feed.through && NoneLost(chain, lo, s.feed.through, s.desk.live.desk, s.feed.pending)
  }

  lemma NextLosesNone(cfg: DeskConfig, dest: u64, chain: Chain, lo: u64, s: Feeding, e: FeedEvent)
    requires Fair(chain, s, e) && !e.Restarted? && NothingLost(chain, lo, s)
    ensures NothingLost(chain, lo, Next(cfg, dest, s, e))
  {
    var x := Next(cfg, dest, s, e);
    match e
    case Driven(d) => DriveLosesNone(cfg, dest, chain, lo, s, d);
    case Retried(leaves, tries, now) =>
      RetryGrows(cfg, dest, s.desk.live, s.feed.pending, leaves, tries, now);
      NoneLostStays(chain, lo, s.feed.through, s.desk.live.desk, x.desk.live.desk, s.feed.pending, x.feed.pending);
    case DeskDid(op) =>
      OtherGrows(cfg, dest, s.desk, op);
      NoneLostStays(chain, lo, s.feed.through, s.desk.live.desk, x.desk.live.desk, s.feed.pending, x.feed.pending);
  }

  lemma FairBefore(cfg: DeskConfig, dest: u64, chain: Chain, start: Feeding, run: seq<FeedEvent>, n: nat)
    requires n <= |run| && FairLife(cfg, dest, chain, start, run)
    ensures FairLife(cfg, dest, chain, start, run[..n])
  {
    forall i | 0 <= i < n ensures Fair(chain, Life(cfg, dest, start, run[..n][..i]), run[..n][i]) {
      assert run[..n][..i] == run[..i];
    }
  }

  /** No burn is lost: after any run of drives with source errors and storage failures, retries, settlements, slashes
      and restarts that drop the pending leaves, every burn leaf of the heights past the feed's start up to the scanned
      height has its reference consumed, or waits, or is written as a dead letter. */
  lemma {:induction false} NoBurnLost(cfg: DeskConfig, dest: u64, chain: Chain, start: Feeding, run: seq<FeedEvent>)
    requires FairLife(cfg, dest, chain, start, run)
    ensures NothingLost(chain, Began(cfg, dest, start, run), Life(cfg, dest, start, run))
  {
    if run != [] {
      var n := |run| - 1;
      FairBefore(cfg, dest, chain, start, run, n);
      NoBurnLost(cfg, dest, chain, start, run[..n]);
      if !run[n].Restarted? {
        NextLosesNone(cfg, dest, chain, Began(cfg, dest, start, run[..n]), Life(cfg, dest, start, run[..n]), run[n]);
      }
    }
  }

  /** So a drive on a new desk whose source falls back on the default list loses a burn at height 6. */
  lemma DefaultLoses(cfg: DeskConfig, dest: u64, tries: nat -> Try, block: u64 -> BlockAnswer)
    ensures var chain: Chain := (h: u64) => if h == 6 then [Leaf(6, ZERO32, None)] else [];
      && DefaultList([], 4, 4)
      && !NothingLost(chain, 4, Next(cfg, dest, Feeding(FeedState(4, []), DeskRuns.START),
                                     Driven(Drive(Source(Some(6), Some([]), block), [], tries, 7))))
  {
    var chain: Chain := (h: u64) => if h == 6 then [Leaf(6, ZERO32, None)] else [];
    var x := Leaf(6, ZERO32, None);
    assert x in chain(6);
    var d := Drive(Source(Some(6), Some([]), block), [], tries, 7);
    DefaultSkips(chain, 4, 6, 4, block, x);
    assert Polled(FeedState(4, []), d).taken == [] && Fresh([]) == [];
    assert AttendAll(cfg, dest, DeskRuns.START.live, [] + Fresh([]), tries, 7) == Work(DeskRuns.START.live, [], []);
    assert !Accounted(DeskRuns.START.live.desk, [], x);
  }

  // ---------------------------------------------------------------- a decision survives every restart

  /** The collateral one event registers. */
  function PledgedBy(e: FeedEvent): nat {
    if e.DeskDid? && e.op.Register? then e.op.collateral else 0
  }

  function PledgedIn(run: seq<FeedEvent>): nat {
    if run == [] then 0 else PledgedIn(run[..|run| - 1]) + PledgedBy(run[|run| - 1])
  }

  lemma AttendKeepsSound(cfg: DeskConfig, dest: u64, s: DeskRuns.System, w: Work, q: Queued, t: Try, now: u64)
    requires DeskRuns.Sound(cfg, s.(live := w.live))
    ensures DeskRuns.Sound(cfg, s.(live := Attend(cfg, dest, w, q, t, now).live))
  {
    DeskRuns.OpenRebuilds(cfg, dest, s.(live := w.live), ProofOf(q.leaf, t), now, t.openFault);
    var (l, r) := OpenExit(cfg, dest, w.live, ProofOf(q.leaf, t), now, t.openFault);
    if r.Err? {
      DeskRuns.LetterRebuilds(cfg, s.(live := l), ProofOf(q.leaf, t), r.error, now, t.letterFault);
    }
  }

  lemma {:induction false} DriveKeepsSound(cfg: DeskConfig, dest: u64, s: DeskRuns.System, todo: seq<Queued>, tries: nat -> Try, now: u64)
    requires DeskRuns.Sound(cfg, s)
    ensures DeskRuns.Sound(cfg, s.(live := AttendAll(cfg, dest, s.live, todo, tries, now).live))
  {
    if todo != [] {
      var n := |todo| - 1;
      DriveKeepsSound(cfg, dest, s, todo[..n], tries, now);
      AttendKeepsSound(cfg, dest, s, AttendAll(cfg, dest, s.live, todo[..n], tries, now), todo[n], tries(n), now);
    }
  }

  lemma {:induction false} RetryKeepsSound(cfg: DeskConfig, dest: u64, s: DeskRuns.System, pending: seq<Queued>, leaves: seq<Leaf>, tries: nat -> Try, now: u64)
    requires DeskRuns.Sound(cfg, s)
    ensures DeskRuns.Sound(cfg, s.(live := RetryAll(cfg, dest, s.live, pending, leaves, tries, now).live))
  {
    if leaves != [] {
      var n := |leaves| - 1;
      RetryKeepsSound(cfg, dest, s, pending, leaves[..n], tries, now);
      var v := RetryAll(cfg, dest, s.live, pending, leaves[..n], tries, now);
      DeskRuns.OpenRebuilds(cfg, dest, s.(live := v.live), ProofOf(leaves[n], tries(n)), now, tries(n).openFault);
    }
  }

  lemma DeskKeepsSound(cfg: DeskConfig, dest: u64, s: DeskRuns.System, op: DeskRuns.Op)
    requires DeskRuns.Sound(cfg, s) && DeskRuns.RegTotal(s.regs) + PledgedBy(DeskDid(op)) <= U128_MAX
    ensures var r := DeskRuns.Step(cfg, dest, s, op);
      && r.Ok? && DeskRuns.Sound(cfg, r.value)
      && DeskRuns.RegTotal(r.value.regs) == DeskRuns.RegTotal(s.regs) + PledgedBy(DeskDid(op))
  {
    DeskRuns.StepKeepsSound(cfg, dest, s, op);
    DeskRuns.StepRegs(cfg, dest, s, op);
  }

  lemma RestartKeepsSound(cfg: DeskConfig, s: DeskRuns.System, landed: bool)
    requires DeskRuns.Sound(cfg, s)
    ensures var r := DeskRuns.Reboot(s, landed); r.Ok? && DeskRuns.Sound(cfg, r.value) && r.value.regs == s.regs
  {
    DeskRuns.RebootRebuilds(cfg, s, landed);
  }

  /** Each event keeps the desk sound, and every restart is taken up. */
  lemma NextKeepsSound(cfg: DeskConfig, dest: u64, s: Feeding, e: FeedEvent)
    requires DeskRuns.Sound(cfg, s.desk) && DeskRuns.RegTotal(s.desk.regs) + PledgedBy(e) <= U128_MAX
    ensures DeskRuns.Sound(cfg, Next(cfg, dest, s, e).desk)
    ensures DeskRuns.RegTotal(Next(cfg, dest, s, e).desk.regs) == DeskRuns.RegTotal(s.desk.regs) + PledgedBy(e)
  {
    match e
    case Driven(d) =>
      DriveKeepsSound(cfg, dest, s.desk, s.feed.pending + Fresh(Polled(s.feed, d).taken), d.tries, d.now);
    case Retried(leaves, tries, now) => RetryKeepsSound(cfg, dest, s.desk, s.feed.pending, leaves, tries, now);
    case DeskDid(op) =>
      DeskKeepsSound(cfg, dest, s.desk, op);
    case Restarted(_, landed) => RestartKeepsSound(cfg, s.desk, landed);
  }

  lemma ApplyGrows(d: Desk, e: Event)
    requires Apply(d, e).Ok?
    ensures Grows(d, Apply(d, e).value)
  {}

  lemma RestartGrows(cfg: DeskConfig, s: DeskRuns.System, landed: bool)
    requires DeskRuns.Sound(cfg, s)
    ensures DeskRuns.Reboot(s, landed).Ok? && Grows(s.live.desk, DeskRuns.Reboot(s, landed).value.live.desk)
  {
    DeskRuns.RebootRebuilds(cfg, s, landed);
    if landed && s.live.journal.stray.Some? {
      ApplyGrows(DeskRuns.Rebuilt(s), s.live.journal.stray.value);
    }
  }

  lemma NextGrows(cfg: DeskConfig, dest: u64, chain: Chain, s: Feeding, e: FeedEvent)
    requires Fair(chain, s, e) && DeskRuns.Sound(cfg, s.desk)
    ensures Grows(s.desk.live.desk, Next(cfg, dest, s, e).desk.live.desk)
  {
    match e
    case Driven(d) =>
      var scan := Polled(s.feed, d);
      AllAccounted(cfg, dest, s.desk.live, s.feed.pending + Fresh(scan.taken), d.tries, d.now);
    case Retried(leaves, tries, now) => RetryGrows(cfg, dest, s.desk.live, s.feed.pending, leaves, tries, now);
    case DeskDid(op) => OtherGrows(cfg, dest, s.desk, op);
    case Restarted(_, landed) => RestartGrows(cfg, s.desk, landed);
  }

  lemma {:induction false} LifeSound(cfg: DeskConfig, dest: u64, start: Feeding, run: seq<FeedEvent>)
    requires DeskRuns.Sound(cfg, start.desk) && DeskRuns.RegTotal(start.desk.regs) + PledgedIn(run) <= U128_MAX
    ensures DeskRuns.Sound(cfg, Life(cfg, dest, start, run).desk)
    ensures DeskRuns.RegTotal(Life(cfg, dest, start, run).desk.regs) == DeskRuns.RegTotal(start.desk.regs) + PledgedIn(run)
  {
    if run != [] {
      var n := |run| - 1;
      LifeSound(cfg, dest, start, run[..n]);
      NextKeepsSound(cfg, dest, Life(cfg, dest, start, run[..n]), run[n]);
    }
  }

  ghost predicate Desked(cfg: DeskConfig, start: Feeding, run: seq<FeedEvent>) {
    DeskRuns.Sound(cfg, start.desk) && DeskRuns.RegTotal(start.desk.regs) + PledgedIn(run) <= U128_MAX
  }

  lemma {:induction false} LifeGrows(cfg: DeskConfig, dest: u64, chain: Chain, start: Feeding, run: seq<FeedEvent>, k: nat)
    requires k <= |run| && FairLife(cfg, dest, chain, start, run) && Desked(cfg, start, run)
    ensures Grows(Life(cfg, dest, start, run[..k]).desk.live.desk, Life(cfg, dest, start, run).desk.live.desk)
  {
    if k == |run| {
      assert run[..k] == run;
    } else {
      var n := |run| - 1;
      var s := Life(cfg, dest, start, run[..n]);
      assert run[..n][..k] == run[..k];
      FairBefore(cfg, dest, chain, start, run, n);
      LifeGrows(cfg, dest, chain, start, run[..n], k);
      LifeSound(cfg, dest, start, run[..n]);
      NextGrows(cfg, dest, chain, s, run[n]);
      GrowsOn(Life(cfg, dest, start, run[..k]).desk.live.desk, s.desk.live.desk, Next(cfg, dest, s, run[n]).desk.live.desk);
    }
  }

  /** A burn decided at any moment, by a consumed reference or a dead letter, stays decided through every later event,
      restarts after storage failures included. */
  lemma DecidedForGood(cfg: DeskConfig, dest: u64, chain: Chain, start: Feeding, run: seq<FeedEvent>, k: nat, x: Leaf)
    requires k <= |run| && FairLife(cfg, dest, chain, start, run) && Desked(cfg, start, run)
    requires Decided(Life(cfg, dest, start, run[..k]).desk.live.desk, x)
    ensures Decided(Life(cfg, dest, start, run).desk.live.desk, x)
  {
    LifeGrows(cfg, dest, chain, start, run, k);
    DecidedStays(Life(cfg, dest, start, run[..k]).desk.live.desk, Life(cfg, dest, start, run).desk.live.desk, x);
  }
}
