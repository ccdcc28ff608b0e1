/** When an operator can start again: what loads after a save, and after a run (q-attestor: operator.rs). */
module OperatorRestart {
  import opened Machine
  import opened Attestor
  import opened DivergenceImage
  import opened Operator
  import opened OperatorRuns

  // ---------------------------------------------------------------- one save

  /** An anchor under which the image a save writes is accepted though the save left the anchor alone: it names what the
      saver stood on, or the very image written; or, at the last sequence of all, the successor saturates onto it. */
  predicate Names(s: Store, anchor: (u64, Bytes32), i: Image) {
    || (i.seq_ == anchor.0 + 1 && i.prev == anchor.1)
    || anchor == (i.seq_, s.head(i))
    || (anchor.0 == U64_MAX && i.seq_ == U64_MAX && anchor.1 == i.prev)
  }

  /** What a disk must be, and what the two writes must do, for the disk to load after a save. */
  predicate Reloads(s: Store, disk: Disk, n: u64, head: Bytes32, records: seq<DivergenceRecord>, a: WriteEnd, b: WriteEnd) {
    if n == U64_MAX || a == NotWritten then Load(s, disk).Ok?
    else
      && |records| <= JOURNAL_MAX_RECORDS
      && ((a == Written && b != NotWritten)
          || (AnchorOf(s, disk).Some? && Names(s, AnchorOf(s, disk).value, Image(n + 1, head, records))))
  }

  lemma ContinuesExactly(s: Store, i: Image, anchor: (u64, Bytes32))
    ensures Continues(i, s.head(i), anchor) <==> Names(s, anchor, i)
  {}

  /** A journal replaced under an anchor that reads. */
  lemma ReplacedLoads(s: Store, disk: Disk, i: Image)
    requires Faithful(s) && disk.journal == Some(s.enc(i))
    ensures Load(s, disk).Ok? <==>
      |i.records| <= JOURNAL_MAX_RECORDS && AnchorOf(s, disk).Some? && Names(s, AnchorOf(s, disk).value, i)
  {
    assert s.dec(s.enc(i)) == if |i.records| <= JOURNAL_MAX_RECORDS then Some((i, s.head(i))) else None;
    if AnchorOf(s, disk).Some? {
      ContinuesExactly(s, i, AnchorOf(s, disk).value);
    }
  }

  /** After any save, from any memory, on any disk, whatever the two writes do, the disk loads exactly when: nothing was
      written and it loaded before; or the records are within the limit and either the anchor was written too, or the
      anchor there names what the saver stood on, or names the image written. */
  lemma SaveLoadsExactly(s: Store, disk: Disk, n: u64, head: Bytes32, records: seq<DivergenceRecord>, a: WriteEnd, b: WriteEnd)
    requires Faithful(s)
    ensures Load(s, Save(s, disk, n, head, records, a, b).0).Ok? <==> Reloads(s, disk, n, head, records, a, b)
  {
    if n < U64_MAX && a != NotWritten {
      var i := Image(n + 1, head, records);
      var d := Save(s, disk, n, head, records, a, b).0;
      ReplacedLoads(s, d, i);
      if a == Written && b != NotWritten {
        assert s.decAnchor(s.encAnchor(n + 1, s.head(i))) == Some((n + 1, s.head(i)));
      }
    }
  }

  // ---------------------------------------------------------------- whole runs

  /** The last thing done to the files: a save that reached the journal, or the journal replaced or deleted from outside. */
  datatype Touch =
    | Saving(disk: Disk, n: u64, head: Bytes32, records: seq<DivergenceRecord>, a: WriteEnd, b: WriteEnd)
    | Swapping(disk: Disk, image: Image)
    | Deleting(disk: Disk)

  function SaveTouch(disk: Disk, n: u64, head: Bytes32, records: seq<DivergenceRecord>, a: WriteEnd, b: WriteEnd): Option<Touch> {
    if n == U64_MAX || a == NotWritten then None else Some(Saving(disk, n, head, records, a, b))
  }

  function ObserveTouch(env: Env, w: World, e: Event): Option<Touch>
    requires Lists(env.order) && e.Observe?
  {
    if w.mem.None? || w.mem.value.state.Halted? then None
    else
      var p := Prune(w.mem.value, e.height, e.dropped);
      var ready := Ready(env.h, p, e.lock, e.height);
      if ready.Err? then None
      else
        var noted := Noted(env.h, p, e.lock, ready.value, e.height);
        SaveTouch(w.disk, p.saved, p.head, Export(env.order, noted.seen, noted.signed), e.a, e.b)
  }

  function TouchOf(env: Env, w: World, e: Event): Option<Touch>
    requires Lists(env.order)
  {
    match e
    case Boot(a, b) =>
      var loaded := Load(env.store, w.disk);
      if w.mem.Some? || loaded.Err? then None
      else
        var (n, head, rs) := loaded.value;
        SaveTouch(w.disk, n, head, Export(env.order, Seen(rs), Signed(rs)), a, b)
    case Observe(_, _, _, _, _, _) => ObserveTouch(env, w, e)
    case SwapJournal(image) => Some(Swapping(w.disk, image))
    case DeleteJournal => Some(Deleting(w.disk))
    case _ => None
  }

  function Left(s: Store, t: Touch): Disk {
    match t
    case Saving(disk, n, head, records, a, b) => Save(s, disk, n, head, records, a, b).0
    case Swapping(disk, image) => disk.(journal := Some(s.enc(image)))
    case Deleting(disk) => disk.(journal := None)
  }

  function LastTouch(env: Env, run: seq<Event>): Option<Touch>
    requires Lists(env.order)
  {
    if run == [] then None
    else
      var n := |run| - 1;
      var t := TouchOf(env, After(env, run[..n]), run[n]);
      if t.Some? then t else LastTouch(env, run[..n])
  }

  lemma StepDisk(env: Env, w: World, e: Event)
    requires Lists(env.order)
    ensures Step(env, w, e).disk == if TouchOf(env, w, e).Some? then Left(env.store, TouchOf(env, w, e).value) else w.disk
  {}

  lemma {:induction false} RunDisk(env: Env, run: seq<Event>)
    requires Lists(env.order)
    ensures After(env, run).disk == if LastTouch(env, run).None? then Disk(None, None) else Left(env.store, LastTouch(env, run).value)
  {
    if run != [] {
      var n := |run| - 1;
      RunDisk(env, run[..n]);
      StepDisk(env, After(env, run[..n]), run[n]);
    }
  }

  /** What the last touch must have been for the files to load. */
  predicate Loadable(s: Store, t: Touch) {
    match t
    case Saving(disk, n, head, records, a, b) => Reloads(s, disk, n, head, records, a, b)
    case Swapping(disk, image) =>
      |image.records| <= JOURNAL_MAX_RECORDS && AnchorOf(s, disk).Some? && Names(s, AnchorOf(s, disk).value, image)
    case Deleting(disk) => disk.anchor.None?
  }

  lemma LeftLoads(s: Store, t: Touch)
    requires Faithful(s)
    ensures Load(s, Left(s, t)).Ok? <==> Loadable(s, t)
  {
    match t
    case Saving(disk, n, head, records, a, b) => SaveLoadsExactly(s, disk, n, head, records, a, b);
    case Swapping(disk, image) => ReplacedLoads(s, Left(s, t), image);
    case Deleting(disk) =>
  }

  /** Over every run, an operator is refused a start exactly when the last save that reached its journal, or the last
      replacement of it, is one that does not load. */
  lemma BootRefusedExactly(env: Env, run: seq<Event>)
    requires Sane(env)
    ensures Load(env.store, After(env, run).disk).Err?
       <==> LastTouch(env, run).Some? && !Loadable(env.store, LastTouch(env, run).value)
  {
    RunDisk(env, run);
    if LastTouch(env, run).Some? {
      LeftLoads(env.store, LastTouch(env, run).value);
    }
  }

  lemma {:induction false} AnchorReads(env: Env, run: seq<Event>)
    requires Sane(env)
    ensures AnchorOf(env.store, After(env, run).disk).Some?
  {
    if run != [] {
      var n := |run| - 1;
      AnchorReads(env, run[..n]);
      StepDisk(env, After(env, run[..n]), run[n]);
    }
  }

  /** The run ends with the journal replaced by another image, or deleted. */
  predicate EndsReplaced(run: seq<Event>) {
    run != [] && (run[|run| - 1].SwapJournal? || run[|run| - 1].DeleteJournal?)
  }

  /** Over every run, a journal put back from before the anchor is refused as rolled back, exactly when its sequence is
      below the anchor's, and one deleted is refused as missing, exactly when there is an anchor. */
  lemma ReplacedRefused(env: Env, run: seq<Event>)
    requires Sane(env) && EndsReplaced(run)
    requires run[|run| - 1].SwapJournal? ==> |run[|run| - 1].image.records| <= JOURNAL_MAX_RECORDS
    ensures AnchorOf(env.store, After(env, run[..|run| - 1]).disk).Some?
    ensures var disk, e := After(env, run[..|run| - 1]).disk, run[|run| - 1];
      if e.SwapJournal? then
        Load(env.store, After(env, run).disk) == Err(RolledBack) <==> e.image.seq_ < AnchorOf(env.store, disk).value.0
      else Load(env.store, After(env, run).disk) == Err(JournalMissing) <==> disk.anchor.Some?
  {
    AnchorReads(env, run[..|run| - 1]);
    if run[|run| - 1].SwapJournal? {
      var i := run[|run| - 1].image;
      assert env.store.dec(env.store.enc(i)) == Some((i, env.store.head(i)));
    }
  }

  // ---------------------------------------------------------------- a running operator and its anchor

  /** The anchor names what the memory stands on. */
  predicate InStep(s: Store, disk: Disk, n: u64, head: Bytes32) {
    AnchorOf(s, disk) == Some((n, head))
  }

  /** The anchor names an image on top of what the memory stands on: its write was reported as failed but took place. */
  predicate Late(s: Store, disk: Disk, n: u64, head: Bytes32, written: set<Image>) {
    exists i :: i in written && i.seq_ == n + 1 && i.prev == head && AnchorOf(s, disk) == Some((i.seq_, s.head(i)))
  }

  predicate Anchoring(s: Store, disk: Disk, n: u64, head: Bytes32, written: set<Image>) {
    InStep(s, disk, n, head) || Late(s, disk, n, head, written)
  }

  lemma SaveAnchors(s: Store, disk: Disk, n: u64, head: Bytes32, records: seq<DivergenceRecord>, a: WriteEnd, b: WriteEnd, written: set<Image>)
    requires Faithful(s)
    ensures var (d, saved) := Save(s, disk, n, head, records, a, b); var more := Grown(written, n, head, records, a);
      && (saved.Some? ==> InStep(s, d, saved.value.0, saved.value.1))
      && (Anchoring(s, disk, n, head, written) && saved.None? ==> Anchoring(s, d, n, head, more))
  {
    if n < U64_MAX && a != NotWritten {
      var i := Image(n + 1, head, records);
      var more := written + {i};
      assert s.decAnchor(s.encAnchor(n + 1, s.head(i))) == Some((n + 1, s.head(i)));
      assert i in more;
      if Late(s, disk, n, head, written) {
        var j :| j in written && j.seq_ == n + 1 && j.prev == head && AnchorOf(s, disk) == Some((j.seq_, s.head(j)));
        assert j in more;
      }
    }
  }

  lemma ObserveAnchors(env: Env, w: World, e: Event)
    requires Sane(env) && e.Observe? && w.mem.Some?
    requires Anchoring(env.store, w.disk, w.mem.value.saved, w.mem.value.head, w.written)
    ensures var x := ObserveStep(env, w, e); x.mem.Some? && Anchoring(env.store, x.disk, x.mem.value.saved, x.mem.value.head, x.written)
  {
    if w.mem.value.state.Running? {
      var p := Prune(w.mem.value, e.height, e.dropped);
      var ready := Ready(env.h, p, e.lock, e.height);
      if ready.Ok? {
        var noted := Noted(env.h, p, e.lock, ready.value, e.height);
        SaveAnchors(env.store, w.disk, p.saved, p.head, Export(env.order, noted.seen, noted.signed), e.a, e.b, w.written);
      }
    }
  }

  /** In every run a running operator's anchor names what its memory stands on, or, after a late failure, an image on top
      of it. */
  lemma {:induction false} RunningIsAnchored(env: Env, run: seq<Event>)
    requires Sane(env)
    ensures var w := After(env, run);
      w.mem.Some? ==> Anchoring(env.store, w.disk, w.mem.value.saved, w.mem.value.head, w.written)
  {
    if run != [] {
      var n := |run| - 1;
      RunningIsAnchored(env, run[..n]);
      var w := After(env, run[..n]);
      if run[n].Observe? && w.mem.Some? {
        ObserveAnchors(env, w, run[n]);
      } else if run[n].Boot? && w.mem.None? && Load(env.store, w.disk).Ok? {
        var (k, head, rs) := Load(env.store, w.disk).value;
        SaveAnchors(env.store, w.disk, k, head, Export(env.order, Seen(rs), Signed(rs)), run[n].a, run[n].b, w.written);
      }
    }
  }

  /** A state some legal run reaches, its saved images free of collisions. */
  ghost predicate Reachable(env: Env, w: World)
    requires Lists(env.order)
  {
    NoCollision(env.store, w.written) && exists run :: Legal(env, run) && w == After(env, run)
  }

  /** The saved images are a chain without collisions, and the anchor stands where a memory does. */
  ghost predicate Settled(env: Env, w: World, n: u64, head: Bytes32) {
    HistoryOk(env, w) && NoCollision(env.store, w.written) && Anchoring(env.store, w.disk, n, head, w.written)
  }

  lemma ReachableFacts(env: Env, w: World)
    requires Sane(env) && Reachable(env, w)
    ensures w.mem.Some? ==> Settled(env, w, w.mem.value.saved, w.mem.value.head)
  {
    var run :| Legal(env, run) && w == After(env, run);
    RunKeeps(env, run);
    RunningIsAnchored(env, run);
  }

  /** The disk loads after a save torn between its two writes. */
  predicate TornLoads(s: Store, disk: Disk, n: u64, head: Bytes32, records: seq<DivergenceRecord>, a: WriteEnd) {
    Load(s, Save(s, disk, n, head, records, a, NotWritten).0).Ok?
  }

  /** The records are within the limit, and the anchor is in step, or late on the very image they make. */
  predicate OnAnchor(s: Store, disk: Disk, n: u64, head: Bytes32, records: seq<DivergenceRecord>)
    requires n < U64_MAX
  {
    && |records| <= JOURNAL_MAX_RECORDS
    && (InStep(s, disk, n, head) || InStep(s, disk, n + 1, s.head(Image(n + 1, head, records))))
  }

  lemma TornOnAnchor(env: Env, w: World, n: u64, head: Bytes32, records: seq<DivergenceRecord>, a: WriteEnd)
    requires Faithful(env.store) && Settled(env, w, n, head) && n < U64_MAX && a != NotWritten
    ensures TornLoads(env.store, w.disk, n, head, records, a) == OnAnchor(env.store, w.disk, n, head, records)
  {
    SaveLoadsExactly(env.store, w.disk, n, head, records, a, NotWritten);
    if !InStep(env.store, w.disk, n, head) {
      var j :| j in w.written && j.seq_ == n + 1 && j.prev == head
               && AnchorOf(env.store, w.disk) == Some((j.seq_, env.store.head(j)));
      if j.seq_ > 1 {
        NotItsOwnParent(env, w, j);
      }
    }
  }

  /** So a save torn in a running operator, its journal written and its anchor not, loads exactly when the records are
      within the limit and the anchor is in step, or is late and names the same image. */
  lemma TornWhileRunning(env: Env, w: World, m: Memory, records: seq<DivergenceRecord>, a: WriteEnd)
    requires Sane(env) && Reachable(env, w) && w.mem == Some(m) && m.saved < U64_MAX && a != NotWritten
    ensures TornLoads(env.store, w.disk, m.saved, m.head, records, a) == OnAnchor(env.store, w.disk, m.saved, m.head, records)
  {
    ReachableFacts(env, w);
    TornOnAnchor(env, w, m.saved, m.head, records, a);
  }

  lemma NotItsOwnParent(env: Env, w: World, j: Image)
    requires HistoryOk(env, w) && NoCollision(env.store, w.written) && j in w.written && j.seq_ > 1
    ensures env.store.head(j) != j.prev
  {
    var i :| i in w.written && Follows(env.store, i, j);
  }

  /** And a save torn while starting loads exactly when the journal it started from was the anchored one, within the
      limit: a start from a journal one past its anchor, torn in turn, is refused from then on. */
  lemma TornBootExactly(env: Env, disk: Disk, a: WriteEnd)
    requires Sane(env) && Load(env.store, disk).Ok? && Load(env.store, disk).value.0 < U64_MAX && a != NotWritten
    ensures var (n, head, rs) := Load(env.store, disk).value;
      Load(env.store, Start(env.store, env.order, disk, a, NotWritten).0).Ok? <==>
        |Export(env.order, Seen(rs), Signed(rs))| <= JOURNAL_MAX_RECORDS && AnchorOf(env.store, disk) == Some((n, head))
  {
    var (n, head, rs) := Load(env.store, disk).value;
    SaveLoadsExactly(env.store, disk, n, head, Export(env.order, Seen(rs), Signed(rs)), a, NotWritten);
  }

  // ---------------------------------------------------------------- the inputs

  /** One torn save is enough after a late failure of the anchor: the anchor moved on, the memory did not, and another
      image under it does not continue it. */
  lemma TornAfterLate(s: Store, disk: Disk, n: u64, head: Bytes32, first: seq<DivergenceRecord>, second: seq<DivergenceRecord>)
    requires Faithful(s) && n + 1 < U64_MAX && |second| <= JOURNAL_MAX_RECORDS
    requires s.head(Image(n + 1, head, first)) != s.head(Image(n + 1, head, second))
    ensures var late := Save(s, disk, n, head, first, Written, WrittenThenFailed).0;
      Load(s, Save(s, late, n, head, second, Written, NotWritten).0) == Err(DoesNotContinue)
  {
    var i, j := Image(n + 1, head, first), Image(n + 1, head, second);
    assert s.decAnchor(s.encAnchor(n + 1, s.head(i))) == Some((n + 1, s.head(i)));
    assert s.dec(s.enc(j)) == Some((j, s.head(j)));
  }

  /** Two saves torn in one life load: both write the same sequence, on the anchor. */
  lemma TornTwiceInOneLife(s: Store, disk: Disk, n: u64, head: Bytes32, first: seq<DivergenceRecord>, second: seq<DivergenceRecord>)
    requires Faithful(s) && n < U64_MAX && InStep(s, disk, n, head) && |second| <= JOURNAL_MAX_RECORDS
    ensures var torn := Save(s, disk, n, head, first, Written, NotWritten).0;
      Load(s, Save(s, torn, n, head, second, Written, NotWritten).0)
      == Ok((n + 1, s.head(Image(n + 1, head, second)), second))
  {
    var j := Image(n + 1, head, second);
    assert s.dec(s.enc(j)) == Some((j, s.head(j)));
  }
}
