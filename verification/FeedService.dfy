/** The watcher and the feed as objects (q-exits: watch.rs, feed.rs). */
module FeedService {
  import opened Machine
  import opened ExitTypes
  import opened JournalStore
  import opened DeskService
  import opened Feed
  import Desk

  // ---------------------------------------------------------------- the watcher

  function InsertHeight(h: u64, s: seq<u64>): seq<u64> {
    if s == [] || h < s[0] then [h] + s
    else if h == s[0] then s
    else [s[0]] + InsertHeight(h, s[1..])
  }

  predicate Rising(s: seq<u64>) {
    forall i, j :: 0 <= i < j < |s| ==> s[i] < s[j]
  }

  lemma {:induction false} InsertMembers(h: u64, s: seq<u64>)
    ensures forall x :: x in InsertHeight(h, s) <==> x == h || x in s
  {
    if s != [] && h > s[0] {
      InsertMembers(h, s[1..]);
      assert s == [s[0]] + s[1..];
    }
  }

  lemma RisingCons(x: u64, s: seq<u64>)
    requires Rising(s) && forall y :: y in s ==> x < y
    ensures Rising([x] + s)
  {
    var t := [x] + s;
    forall i, j | 0 <= i < j < |t| ensures t[i] < t[j] {
      assert t[j] == s[j - 1] && s[j - 1] in s;
    }
  }

  lemma {:induction false} InsertRising(h: u64, s: seq<u64>)
    requires Rising(s)
    ensures Rising(InsertHeight(h, s))
  {
    if s == [] || h < s[0] {
      forall y | y in s ensures h < y {
        var i :| 0 <= i < |s| && s[i] == y;
      }
      RisingCons(h, s);
    } else if h > s[0] {
      InsertRising(h, s[1..]);
      InsertMembers(h, s[1..]);
      forall y | y in InsertHeight(h, s[1..]) ensures s[0] < y {
        if y != h {
          var i :| 0 <= i < |s| - 1 && s[1..][i] == y;
        }
      }
      RisingCons(s[0], InsertHeight(h, s[1..]));
    }
  }

  /** Retain, sort and dedup. */
  method OrderHeights(list: seq<u64>, cursor: u64, head: u64) returns (hs: seq<u64>)
    ensures Ordered(hs, list, cursor, head)
  {
    hs := [];
    for i := 0 to |list|
      invariant forall h :: h in hs <==> h in list[..i] && Usable(h, cursor, head)
      invariant Rising(hs)
    {
      assert list[..i + 1] == list[..i] + [list[i]];
      if Usable(list[i], cursor, head) {
        InsertMembers(list[i], hs);
        InsertRising(list[i], hs);
        hs := InsertHeight(list[i], hs);
      }
    }
    assert list[..|list|] == list;
  }

  class BurnWatcher {
    var scannedThrough: u64

    constructor (start: u64)
      ensures scannedThrough == start
    {
      scannedThrough := start;
    }

    /** `poll`; `hs` are the heights it ordered. */
    method Poll(src: Source) returns (r: Result<seq<Leaf>, WatchError>, ghost hs: seq<u64>)
      modifies this
      ensures src.head.Some? && src.heights.Some? ==>
        Ordered(hs, src.heights.value, old(scannedThrough), src.head.value)
      ensures var s := Feed.Poll(src, old(scannedThrough), hs);
        scannedThrough == s.through && r == if s.error.Some? then Err(s.error.value) else Ok(s.taken)
    {
      hs := [];
      if src.head.None? {
        return Err(SourceUnavailable), [];
      }
      var head := src.head.value;
      if head <= scannedThrough {
        return Ok([]), [];
      }
      if src.heights.None? {
        return Err(SourceUnavailable), [];
      }
      var heights := OrderHeights(src.heights.value, scannedThrough, head);
      hs := heights;
      if heights == [] {
        scannedThrough := head;
        return Ok([]), heights;
      }
      r := Scan(src.block, FirstHeights(heights));
    }

    /** The loop of `poll`. */
    method Scan(block: u64 -> BlockAnswer, heights: seq<u64>) returns (r: Result<seq<Leaf>, WatchError>)
      modifies this
      ensures var s := ScanHeights(block, heights, old(scannedThrough), []);
        scannedThrough == s.through && r == if s.error.Some? then Err(s.error.value) else Ok(s.taken)
    {
      var taken: seq<Leaf> := [];
      var i := 0;
      while i < |heights|
        invariant 0 <= i <= |heights|
        invariant ScanHeights(block, heights, old(scannedThrough), [])
               == ScanHeights(block, heights[i..], scannedThrough, taken)
      {
        assert heights[i..][0] == heights[i] && heights[i..][1..] == heights[i + 1..];
        var answer := block(heights[i]);
        if answer.Missing? {
          return Ok(taken);
        }
        if answer.Failed? {
          return if taken == [] then Err(SourceUnavailable) else Ok(taken);
        }
        if !answer.matches {
          return if taken == [] then Err(EventRootMismatch(heights[i])) else Ok(taken);
        }
        taken := taken + answer.leaves;
        scannedThrough := heights[i];
        if |taken| >= MAX_BURNS_PER_POLL {
          return Ok(taken);
        }
        i := i + 1;
      }
      return Ok(taken);
    }
  }

  // ---------------------------------------------------------------- the feed

  /** An attempt with the storage faults in full. */
  datatype StoreTry = StoreTry(verdict: Result<AuthenticatedBurn, ExitError>, openFault: StoreFault, letterFault: StoreFault)

  ghost function Seen(t: StoreTry): Try {
    Try(t.verdict, t.openFault.Seen(), t.letterFault.Seen())
  }

  ghost function SeenAll(tries: nat -> StoreTry): nat -> Try {
    (i: nat) => Seen(tries(i))
  }

  /** What is done with the desk's answer; `ids` and `kept` are those so far. */
  method Answer(desk: ExitDesk, q: Queued, t: StoreTry, r: Result<nat, ExitError>, now: u64, ids: seq<nat>, kept: seq<Queued>)
    returns (moreIds: seq<nat>, moreKept: seq<Queued>)
    requires desk.Valid()
    modifies desk, desk.vaults, desk.journal, desk.journal.store
    ensures desk.Valid()
    ensures Work(desk.View(), moreIds, moreKept) == Answered(Work(old(desk.View()), ids, kept), q, Seen(t), r, now)
  {
    moreIds, moreKept := ids, kept;
    if r.Ok? {
      moreIds := ids + [r.value];
      return;
    }
    if r.error == ReplayedExit {
      return;
    }
    if Retryable(r.error) && !(r.error == NotFinalized && q.attempts + 1 >= MAX_UNFINALIZED_ATTEMPTS) {
      moreKept := kept + [Queued(q.leaf, q.attempts + 1)];
      return;
    }
    var proof := BurnProof(t.verdict, q.leaf.height, q.leaf.digest, q.leaf.claimed);
    var buried := desk.WriteDeadLetter(proof, r.error, now, t.letterFault);
    if buried.Err? {
      moreKept := kept + [q];
    }
  }

  /** One turn of the loop of `drive`. */
  method AttendOne(desk: ExitDesk, q: Queued, t: StoreTry, now: u64, ids: seq<nat>, kept: seq<Queued>)
    returns (moreIds: seq<nat>, moreKept: seq<Queued>)
    requires desk.Valid()
    modifies desk, desk.vaults, desk.journal, desk.journal.store
    ensures desk.Valid()
    ensures Work(desk.View(), moreIds, moreKept)
         == Attend(desk.cfg, desk.chainId, Work(old(desk.View()), ids, kept), q, Seen(t), now)
  {
    var r := desk.OpenExit(BurnProof(t.verdict, q.leaf.height, q.leaf.digest, q.leaf.claimed), now, t.openFault);
    moreIds, moreKept := Answer(desk, q, t, r, now, ids, kept);
  }

  /** The attending loop of `drive`. */
  method AttendEach(desk: ExitDesk, todo: seq<Queued>, tries: nat -> StoreTry, now: u64)
    returns (ids: seq<nat>, kept: seq<Queued>)
    requires desk.Valid()
    modifies desk, desk.vaults, desk.journal, desk.journal.store
    ensures desk.Valid()
    ensures Work(desk.View(), ids, kept)
         == Feed.AttendAll(desk.cfg, desk.chainId, old(desk.View()), todo, SeenAll(tries), now)
  {
    ids, kept := [], [];
    for i := 0 to |todo|
      invariant desk.Valid()
      invariant Work(desk.View(), ids, kept)
             == Feed.AttendAll(desk.cfg, desk.chainId, old(desk.View()), todo[..i], SeenAll(tries), now)
    {
      assert todo[..i + 1][..i] == todo[..i];
      ids, kept := AttendOne(desk, todo[i], tries(i), now, ids, kept);
    }
    assert todo[..|todo|] == todo;
  }

  class BurnFeed {
    const enabled: bool
    const watcher: BurnWatcher
    var pending: seq<Queued>

    ghost function State(): FeedState
      reads this, watcher
    {
      FeedState(watcher.scannedThrough, pending)
    }

    constructor (start: u64, enabled: bool)
      ensures this.enabled == enabled && State() == FeedState(start, []) && fresh(watcher)
    {
      this.enabled := enabled;
      watcher := new BurnWatcher(start);
      pending := [];
    }

    /** `drive`; None is an error. A disabled feed does nothing. */
    method Drive(src: Source, desk: ExitDesk, tries: nat -> StoreTry, now: u64)
      returns (ids: Option<seq<nat>>, ghost hs: seq<u64>)
      requires desk.Valid()
      modifies this, watcher, desk, desk.vaults, desk.journal, desk.journal.store
      ensures desk.Valid()
      ensures !enabled ==> ids == None && State() == old(State()) && desk.View() == old(desk.View())
      ensures src.head.Some? && src.heights.Some? && enabled && |old(pending)| < MAX_PENDING_BURNS ==>
        Ordered(hs, src.heights.value, old(watcher.scannedThrough), src.head.value)
      ensures var drive := Feed.Drive(src, hs, SeenAll(tries), now);
        enabled ==> (State(), desk.View()) == DriveOnce(desk.cfg, desk.chainId, old(State()), old(desk.View()), drive)
    {
      hs := [];
      if !enabled {
        return None, [];
      }
      var taken: seq<Leaf> := [];
      if |pending| < MAX_PENDING_BURNS {
        var polled;
        polled, hs := watcher.Poll(src);
        if polled.Err? {
          return None, hs;
        }
        taken := polled.value;
      }
      var exits, kept := AttendEach(desk, pending + Fresh(taken), tries, now);
      pending := kept;
      ids := Some(exits);
    }
  }
}
