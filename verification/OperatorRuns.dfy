/** Runs of one operator with failing writes, failing signers, crashes, restarts and replaced journal files:
    it never signs two stories about one reference it has not forgotten (q-attestor: operator.rs). */
module OperatorRuns {
  import opened Machine
  import opened Attestor
  import opened DivergenceImage
  import opened Operator

  datatype Env = Env(store: Store, h: Hash, order: Order)

  ghost predicate Sane(env: Env) {
    Faithful(env.store) && Lists(env.order)
  }

  /** A signature that left the operator. */
  datatype Release = Release(lock: ObservedLock, ctx: CorridorContext, height: u64)

  function Told(h: Hash, r: Release): Bytes32 {
    Digest(h, SubstanceOf(r.lock, r.ctx))
  }

  /** The operator, its files, and what has happened: signatures released, references forgotten, images saved. */
  datatype World = World(
    mem: Option<Memory>, disk: Disk, released: set<Release>, pruned: set<Key>, written: set<Image>)

  datatype Event =
    | Boot(a: WriteEnd, b: WriteEnd)
    | Crash
    | Configure(ctx: CorridorContext)
    | Halt(reason: HaltReason)
    | Observe(lock: ObservedLock, height: u64, dropped: set<Key>, a: WriteEnd, b: WriteEnd, sig: Option<seq<u8>>)
    | SwapJournal(image: Image)
    | DeleteJournal

  /** What may happen: pruning forgets what the source forgets, and a replaced journal is one saved before. */
  predicate Allowed(w: World, e: Event) {
    match e
    case Observe(_, height, dropped, _, _, _) => w.mem.Some? ==> Forgets(w.mem.value.seen, height, dropped)
    case SwapJournal(image) => image in w.written
    case _ => true
  }

  /** The images saved once a save has been tried. */
  function Grown(written: set<Image>, n: u64, head: Bytes32, records: seq<DivergenceRecord>, a: WriteEnd): set<Image> {
    if n == U64_MAX || a == NotWritten then written else written + {Image(n + 1, head, records)}
  }

  function BootStep(env: Env, w: World, a: WriteEnd, b: WriteEnd): World
    requires Lists(env.order)
  {
    var (disk, mem) := Start(env.store, env.order, w.disk, a, b);
    var loaded := Load(env.store, w.disk);
    var written := if loaded.Err? then w.written else
      var (n, head, rs) := loaded.value; Grown(w.written, n, head, Export(env.order, Seen(rs), Signed(rs)), a);
    w.(mem := mem, disk := disk, written := written)
  }

  /** The world after one call of `observe_and_sign`, from what the call returns. */
  function ObserveStep(env: Env, w: World, e: Event): World
    requires Lists(env.order) && e.Observe?
  {
    if w.mem.None? then w
    else
      var m := w.mem.value;
      var (after, disk, r) :=
        ObserveAndSign(env.store, env.h, env.order, m, w.disk, e.lock, e.height, e.dropped, e.a, e.b, e.sig);
      World(Some(after), disk,
            if r.Ok? then w.released + {Release(e.lock, m.corridors[e.lock.sourceChain], e.height)} else w.released,
            if m.state.Halted? then w.pruned else w.pruned + e.dropped, WrittenBy(env, w, m, e))
  }

  /** The images saved once the call has tried to save. */
  function WrittenBy(env: Env, w: World, m: Memory, e: Event): set<Image>
    requires Lists(env.order) && e.Observe?
  {
    var p := Prune(m, e.height, e.dropped);
    var ready := Ready(env.h, p, e.lock, e.height);
    if m.state.Halted? || ready.Err? then w.written
    else
      var noted := Noted(env.h, p, e.lock, ready.value, e.height);
      Grown(w.written, p.saved, p.head, Export(env.order, noted.seen, noted.signed), e.a)
  }

  function Step(env: Env, w: World, e: Event): World
    requires Lists(env.order)
  {
    match e
    case Boot(a, b) => if w.mem.Some? then w else BootStep(env, w, a, b)
    case Crash => w.(mem := None)
    case Configure(ctx) =>
      if w.mem.None? then w
      else w.(mem := Some(w.mem.value.(corridors := w.mem.value.corridors[ctx.sourceChain := ctx])))
    case Halt(reason) => if w.mem.None? then w else w.(mem := Some(w.mem.value.(state := Halted(reason))))
    case Observe(_, _, _, _, _, _) => ObserveStep(env, w, e)
    case SwapJournal(image) => w.(disk := w.disk.(journal := Some(env.store.enc(image))))
    case DeleteJournal => w.(disk := w.disk.(journal := None))
  }

  const NEW: World := World(None, Disk(None, None), {}, {}, {})

  /** The world after a run of events from an operator that never existed before. */
  function After(env: Env, run: seq<Event>): World
    requires Lists(env.order)
  {
    if run == [] then NEW else Step(env, After(env, run[..|run| - 1]), run[|run| - 1])
  }

  ghost predicate Legal(env: Env, run: seq<Event>)
    requires Lists(env.order)
  {
    forall i :: 0 <= i < |run| ==> Allowed(After(env, run[..i]), run[i])
  }

  // ---------------------------------------------------------------- the invariant

  /** Every released signature is remembered with its digest, or was forgotten. */
  ghost predicate Covers(h: Hash, seen: map<Key, Sighting>, released: set<Release>, pruned: set<Key>) {
    forall r :: r in released && KeyOf(r.lock) !in pruned ==>
      KeyOf(r.lock) in seen && seen[KeyOf(r.lock)].digest == Told(h, r)
  }

  /** Every sighting in `a` is in `b` with the same digest, or was forgotten. */
  predicate Keeps(a: map<Key, Sighting>, b: map<Key, Sighting>, pruned: set<Key>) {
    forall k :: k in a && k !in pruned ==> k in b && b[k].digest == a[k].digest
  }

  predicate Follows(s: Store, i: Image, j: Image) {
    j.seq_ == i.seq_ + 1 && j.prev == s.head(i)
  }

  /** An image that follows another keeps what it held. */
  predicate Chained(s: Store, written: set<Image>, pruned: set<Key>) {
    forall i, j :: i in written && j in written && Follows(s, i, j) ==> Keeps(Seen(i.records), Seen(j.records), pruned)
  }

  /** Every saved image is the first or follows a saved one. */
  predicate Rooted(s: Store, written: set<Image>) {
    forall j :: j in written ==>
      j.seq_ >= 1 && ((j.seq_ == 1 && j.prev == ZERO32) || exists i :: i in written && Follows(s, i, j))
  }

  /** No two saved images share a head. */
  predicate NoCollision(s: Store, written: set<Image>) {
    forall i, j :: i in written && j in written && s.head(i) == s.head(j) ==> i == j
  }

  /** The memory stands on a saved image, or on nothing. */
  predicate Stands(s: Store, n: u64, head: Bytes32, seen: map<Key, Sighting>, written: set<Image>, pruned: set<Key>) {
    || (n == 0 && head == ZERO32)
    || exists i :: i in written && i.seq_ == n && s.head(i) == head && Keeps(Seen(i.records), seen, pruned)
  }

  predicate JournalSaved(s: Store, disk: Disk, written: set<Image>) {
    disk.journal.None? || exists i :: i in written && disk.journal.value == s.enc(i)
  }

  ghost predicate AnchorCovers(env: Env, disk: Disk, released: set<Release>, pruned: set<Key>, written: set<Image>) {
    if disk.anchor.None? then released == {}
    else exists i :: i in written && disk.anchor.value == env.store.encAnchor(i.seq_, env.store.head(i))
                     && Covers(env.h, Seen(i.records), released, pruned)
  }

  ghost predicate Agree(h: Hash, released: set<Release>, pruned: set<Key>) {
    forall q, r :: q in released && r in released && KeyOf(q.lock) == KeyOf(r.lock) && KeyOf(q.lock) !in pruned ==>
      Told(h, q) == Told(h, r)
  }

  ghost predicate MemoryOk(env: Env, w: World, m: Memory) {
    Covers(env.h, m.seen, w.released, w.pruned)
    && Stands(env.store, m.saved, m.head, m.seen, w.written, w.pruned)
  }

  ghost predicate FilesOk(env: Env, w: World) {
    && JournalSaved(env.store, w.disk, w.written)
    && AnchorCovers(env, w.disk, w.released, w.pruned, w.written)
  }

  predicate HistoryOk(env: Env, w: World) {
    Chained(env.store, w.written, w.pruned) && Rooted(env.store, w.written)
  }

  ghost predicate Inv(env: Env, w: World) {
    && FilesOk(env, w) && HistoryOk(env, w) && Agree(env.h, w.released, w.pruned)
    && (w.mem.Some? ==> MemoryOk(env, w, w.mem.value))
  }

  // ---------------------------------------------------------------- forgetting more

  lemma PruneCovers(h: Hash, seen: map<Key, Sighting>, released: set<Release>, pruned: set<Key>, more: set<Key>)
    requires Covers(h, seen, released, pruned)
    ensures Covers(h, seen, released, pruned + more)
    ensures Covers(h, map k | k in seen && k !in more :: seen[k], released, pruned + more)
  {}

  lemma PruneStands(s: Store, n: u64, head: Bytes32, seen: map<Key, Sighting>, written: set<Image>, pruned: set<Key>, more: set<Key>)
    requires Stands(s, n, head, seen, written, pruned)
    ensures Stands(s, n, head, map k | k in seen && k !in more :: seen[k], written, pruned + more)
  {
    if !(n == 0 && head == ZERO32) {
      var i :| i in written && i.seq_ == n && s.head(i) == head && Keeps(Seen(i.records), seen, pruned);
      assert Keeps(Seen(i.records), map k | k in seen && k !in more :: seen[k], pruned + more);
    }
  }

  lemma PruneKeeps(env: Env, w: World, m: Memory, height: u64, more: set<Key>)
    requires Inv(env, w) && MemoryOk(env, w, m)
    ensures Inv(env, w.(mem := Some(Prune(m, height, more)), pruned := w.pruned + more))
  {
    PruneCovers(env.h, m.seen, w.released, w.pruned, more);
    PruneStands(env.store, m.saved, m.head, m.seen, w.written, w.pruned, more);
    if w.disk.anchor.Some? {
      var i :| i in w.written && w.disk.anchor.value == env.store.encAnchor(i.seq_, env.store.head(i))
               && Covers(env.h, Seen(i.records), w.released, w.pruned);
      PruneCovers(env.h, Seen(i.records), w.released, w.pruned, more);
    }
  }

  // ---------------------------------------------------------------- saving

  /** A new image on top of what the memory stands on keeps the chain. */
  lemma SaveChains(s: Store, written: set<Image>, pruned: set<Key>, j: Image, n: u64)
    requires Chained(s, written, pruned) && Rooted(s, written) && NoCollision(s, written + {j})
    requires j.seq_ == n + 1 && Stands(s, n, j.prev, Seen(j.records), written, pruned)
    ensures Rooted(s, written + {j}) && Chained(s, written + {j}, pruned)
  {
    NewRooted(s, written, pruned, j, n);
    forall a, b | a in written + {j} && b in written + {j} && Follows(s, a, b)
      ensures Keeps(Seen(a.records), Seen(b.records), pruned)
    {
      if b == j {
        NewKeeps(s, written, pruned, j, n, a);
      } else {
        NothingFollowsNew(s, written, j, b, a);
      }
    }
  }

  lemma NewRooted(s: Store, written: set<Image>, pruned: set<Key>, j: Image, n: u64)
    requires Rooted(s, written)
    requires j.seq_ == n + 1 && Stands(s, n, j.prev, Seen(j.records), written, pruned)
    ensures Rooted(s, written + {j})
  {
    forall b | b in written + {j}
      ensures b.seq_ >= 1 && ((b.seq_ == 1 && b.prev == ZERO32) || exists i :: i in written + {j} && Follows(s, i, b))
    {
      if b == j {
        if !(n == 0 && j.prev == ZERO32) {
          var i :| i in written && i.seq_ == n && s.head(i) == j.prev && Keeps(Seen(i.records), Seen(j.records), pruned);
          assert i in written + {j} && Follows(s, i, j);
        }
      } else if !(b.seq_ == 1 && b.prev == ZERO32) {
        var i :| i in written && Follows(s, i, b);
        assert i in written + {j};
      }
    }
  }

  lemma NewKeeps(s: Store, written: set<Image>, pruned: set<Key>, j: Image, n: u64, a: Image)
    requires Rooted(s, written) && NoCollision(s, written + {j})
    requires j.seq_ == n + 1 && Stands(s, n, j.prev, Seen(j.records), written, pruned)
    requires a in written + {j} && Follows(s, a, j)
    ensures Keeps(Seen(a.records), Seen(j.records), pruned)
  {
    assert a != j && a in written;
    var i :| i in written && i.seq_ == n && s.head(i) == j.prev && Keeps(Seen(i.records), Seen(j.records), pruned);
    assert i == a;
  }

  /** Whatever a saved image follows was saved before it. */
  lemma NothingFollowsNew(s: Store, written: set<Image>, j: Image, b: Image, a: Image)
    requires Rooted(s, written) && NoCollision(s, written + {j}) && b in written && a in written + {j} && Follows(s, a, b)
    requires a in written || j.seq_ >= 1
    ensures a in written
  {
    assert !(b.seq_ == 1 && b.prev == ZERO32) || a.seq_ == 0;
  }

  lemma CollisionsShrink(s: Store, small: set<Image>, big: set<Image>)
    requires NoCollision(s, big) && small <= big
    ensures NoCollision(s, small)
  {}

  // ---------------------------------------------------------------- loading

  /** Whatever a successful load returns covers every released signature, and the new memory stands on it. */
  lemma LoadCovers(env: Env, w: World)
    requires Sane(env) && Inv(env, w) && NoCollision(env.store, w.written) && Load(env.store, w.disk).Ok?
    ensures var (n, head, rs) := Load(env.store, w.disk).value;
      && Covers(env.h, Seen(rs), w.released, w.pruned)
      && Stands(env.store, n, head, Seen(rs), w.written, w.pruned)
  {
    if w.disk.journal.Some? {
      var j :| j in w.written && w.disk.journal.value == env.store.enc(j);
      assert env.store.dec(env.store.enc(j)) == Some((j, env.store.head(j)));
      if w.disk.anchor.Some? {
        var i :| i in w.written && w.disk.anchor.value == env.store.encAnchor(i.seq_, env.store.head(i))
                 && Covers(env.h, Seen(i.records), w.released, w.pruned);
        AnchoredImageCovers(env, w, i, j);
      }
    }
  }

  lemma AnchoredImageCovers(env: Env, w: World, i: Image, j: Image)
    requires HistoryOk(env, w) && NoCollision(env.store, w.written) && i in w.written && j in w.written
    requires Covers(env.h, Seen(i.records), w.released, w.pruned)
    requires Continues(j, env.store.head(j), (i.seq_, env.store.head(i)))
    ensures Covers(env.h, Seen(j.records), w.released, w.pruned)
  {
    if j != i {
      assert j.prev == env.store.head(i);
      if !(j.seq_ == 1 && j.prev == ZERO32) {
        var k :| k in w.written && Follows(env.store, k, j);
        assert k == i;
      }
      assert Follows(env.store, i, j);
    }
  }

  // ---------------------------------------------------------------- steps keep the invariant

  /** The anchor names a saved image holding exactly `records`. */
  predicate Anchored(s: Store, disk: Disk, records: seq<DivergenceRecord>, written: set<Image>) {
    disk.anchor.Some?
    && exists j :: j in written && j.records == records && disk.anchor.value == s.encAnchor(j.seq_, s.head(j))
  }

  lemma AnchoredCovers(env: Env, disk: Disk, records: seq<DivergenceRecord>, released: set<Release>, pruned: set<Key>, written: set<Image>)
    requires Anchored(env.store, disk, records, written) && Covers(env.h, Seen(records), released, pruned)
    ensures AnchorCovers(env, disk, released, pruned, written)
  {
    var j :| j in written && j.records == records && disk.anchor.value == env.store.encAnchor(j.seq_, env.store.head(j));
    assert Covers(env.h, Seen(j.records), released, pruned);
  }

  /** How the two writes leave the disk, once the journal file was replaced. */
  lemma SaveOutcome(s: Store, disk: Disk, written: set<Image>, pruned: set<Key>, j: Image, a: WriteEnd, b: WriteEnd)
    requires j.seq_ >= 1 && a != NotWritten && j in written
    ensures var (d, saved) := Save(s, disk, j.seq_ - 1, j.prev, j.records, a, b);
      && JournalSaved(s, d, written)
      && (d.anchor == disk.anchor || Anchored(s, d, j.records, written))
      && (saved.Some? ==> Anchored(s, d, j.records, written)
                          && Stands(s, saved.value.0, saved.value.1, Seen(j.records), written, pruned))
  {
    assert j == Image(j.seq_ - 1 + 1, j.prev, j.records);
    assert Keeps(Seen(j.records), Seen(j.records), pruned);
  }

  lemma SaveAnchor(env: Env, disk: Disk, released: set<Release>, pruned: set<Key>, small: set<Image>, j: Image, a: WriteEnd, b: WriteEnd)
    requires j.seq_ >= 1 && a != NotWritten && AnchorCovers(env, disk, released, pruned, small)
    requires Covers(env.h, Seen(j.records), released, pruned)
    ensures AnchorCovers(env, Save(env.store, disk, j.seq_ - 1, j.prev, j.records, a, b).0, released, pruned, small + {j})
  {
    var d := Save(env.store, disk, j.seq_ - 1, j.prev, j.records, a, b).0;
    var written := small + {j};
    SaveOutcome(env.store, disk, written, pruned, j, a, b);
    if d.anchor == disk.anchor {
      GrowAnchor(env, disk, released, pruned, small, written);
      SameAnchor(env, disk, d, released, pruned, written);
    } else {
      AnchoredCovers(env, d, j.records, released, pruned, written);
    }
  }

  lemma SaveWritten(env: Env, w: World, j: Image, a: WriteEnd, b: WriteEnd)
    requires FilesOk(env, w) && HistoryOk(env, w) && j.seq_ >= 1 && a != NotWritten
    requires NoCollision(env.store, w.written + {j}) && Covers(env.h, Seen(j.records), w.released, w.pruned)
    requires Stands(env.store, j.seq_ - 1, j.prev, Seen(j.records), w.written, w.pruned)
    ensures var disk := Save(env.store, w.disk, j.seq_ - 1, j.prev, j.records, a, b).0;
      var after := w.(disk := disk, written := w.written + {j}); FilesOk(env, after) && HistoryOk(env, after)
  {
    SaveChains(env.store, w.written, w.pruned, j, j.seq_ - 1);
    SaveOutcome(env.store, w.disk, w.written + {j}, w.pruned, j, a, b);
    SaveAnchor(env, w.disk, w.released, w.pruned, w.written, j, a, b);
  }

  ghost predicate SavedOk(env: Env, w: World, disk: Disk, saved: Option<(u64, Bytes32)>, written: set<Image>, records: seq<DivergenceRecord>) {
    var after := w.(disk := disk, written := written);
    && FilesOk(env, after) && HistoryOk(env, after)
    && (saved.Some? ==> Anchored(env.store, disk, records, written)
                        && Stands(env.store, saved.value.0, saved.value.1, Seen(records), written, w.pruned))
  }

  lemma SaveNothing(env: Env, w: World, n: u64, head: Bytes32, records: seq<DivergenceRecord>, a: WriteEnd, b: WriteEnd)
    requires FilesOk(env, w) && HistoryOk(env, w) && (n == U64_MAX || a == NotWritten)
    ensures Save(env.store, w.disk, n, head, records, a, b) == (w.disk, None)
    ensures SavedOk(env, w, w.disk, None, w.written, records)
  {
    assert w.(disk := w.disk, written := w.written) == w;
  }

  lemma SaveSomething(env: Env, w: World, j: Image, a: WriteEnd, b: WriteEnd)
    requires FilesOk(env, w) && HistoryOk(env, w) && j.seq_ >= 1 && a != NotWritten
    requires NoCollision(env.store, w.written + {j}) && Covers(env.h, Seen(j.records), w.released, w.pruned)
    requires Stands(env.store, j.seq_ - 1, j.prev, Seen(j.records), w.written, w.pruned)
    ensures var (disk, saved) := Save(env.store, w.disk, j.seq_ - 1, j.prev, j.records, a, b);
      SavedOk(env, w, disk, saved, w.written + {j}, j.records)
  {
    SaveWritten(env, w, j, a, b);
    SaveOutcome(env.store, w.disk, w.written + {j}, w.pruned, j, a, b);
  }

  /** A memory about to be saved: it covers, and stands on what was saved. */
  ghost predicate Saving(env: Env, w: World, n: u64, head: Bytes32, records: seq<DivergenceRecord>) {
    && FilesOk(env, w) && HistoryOk(env, w)
    && Covers(env.h, Seen(records), w.released, w.pruned)
    && Stands(env.store, n, head, Seen(records), w.written, w.pruned)
  }

  lemma SaveImage(env: Env, w: World, n: u64, head: Bytes32, records: seq<DivergenceRecord>, a: WriteEnd, b: WriteEnd)
    requires Saving(env, w, n, head, records) && n < U64_MAX && a != NotWritten
    requires NoCollision(env.store, w.written + {Image(n + 1, head, records)})
    ensures var (disk, saved) := Save(env.store, w.disk, n, head, records, a, b);
      SavedOk(env, w, disk, saved, w.written + {Image(n + 1, head, records)}, records)
  {
    SaveSomething(env, w, Image(n + 1, head, records), a, b);
  }

  /** A save from memory that covers and stands, whatever the two writes do. */
  lemma SaveKeeps(env: Env, w: World, n: u64, head: Bytes32, records: seq<DivergenceRecord>, a: WriteEnd, b: WriteEnd)
    requires Saving(env, w, n, head, records) && NoCollision(env.store, Grown(w.written, n, head, records, a))
    ensures var (disk, saved) := Save(env.store, w.disk, n, head, records, a, b);
      SavedOk(env, w, disk, saved, Grown(w.written, n, head, records, a), records)
  {
    if n < U64_MAX && a != NotWritten {
      SaveImage(env, w, n, head, records, a, b);
    } else {
      SaveNothing(env, w, n, head, records, a, b);
    }
  }

  lemma GrowAnchor(env: Env, disk: Disk, released: set<Release>, pruned: set<Key>, small: set<Image>, big: set<Image>)
    requires AnchorCovers(env, disk, released, pruned, small) && small <= big
    ensures AnchorCovers(env, disk, released, pruned, big)
  {
    if disk.anchor.Some? {
      var i :| i in small && disk.anchor.value == env.store.encAnchor(i.seq_, env.store.head(i))
               && Covers(env.h, Seen(i.records), released, pruned);
      assert i in big;
    }
  }

  lemma SameAnchor(env: Env, d: Disk, e: Disk, released: set<Release>, pruned: set<Key>, written: set<Image>)
    requires AnchorCovers(env, d, released, pruned, written) && d.anchor == e.anchor
    ensures AnchorCovers(env, e, released, pruned, written)
  {}

  lemma GrowStands(s: Store, n: u64, head: Bytes32, seen: map<Key, Sighting>, small: set<Image>, big: set<Image>, pruned: set<Key>)
    requires Stands(s, n, head, seen, small, pruned) && small <= big
    ensures Stands(s, n, head, seen, big, pruned)
  {
    if !(n == 0 && head == ZERO32) {
      var i :| i in small && i.seq_ == n && s.head(i) == head && Keeps(Seen(i.records), seen, pruned);
      assert i in big;
    }
  }

  lemma BootKeeps(env: Env, w: World, a: WriteEnd, b: WriteEnd)
    requires Sane(env) && Inv(env, w) && w.mem.None? && NoCollision(env.store, BootStep(env, w, a, b).written)
    ensures Inv(env, BootStep(env, w, a, b))
  {
    var loaded := Load(env.store, w.disk);
    if loaded.Ok? {
      CollisionsShrink(env.store, w.written, BootStep(env, w, a, b).written);
      LoadCovers(env, w);
      var (n, head, rs) := loaded.value;
      RestoreOfExport(env.order, Seen(rs), Signed(rs));
      SaveKeeps(env, w, n, head, Export(env.order, Seen(rs), Signed(rs)), a, b);
    }
  }

  /** What is noted before signing keeps every sighting and tells the new story. */
  lemma NoteKeeps(h: Hash, p: Memory, lock: ObservedLock, ctx: CorridorContext, height: u64, released: set<Release>, pruned: set<Key>)
    requires Covers(h, p.seen, released, pruned) && Ready(h, p, lock, height) == Ok(ctx)
    ensures var seen := Noted(h, p, lock, ctx, height).seen;
      && Covers(h, seen, released + {Release(lock, ctx, height)}, pruned)
      && Covers(h, seen, released, pruned) && Keeps(p.seen, seen, {})
  {}

  lemma ReleaseAgrees(h: Hash, seen: map<Key, Sighting>, released: set<Release>, pruned: set<Key>)
    requires Covers(h, seen, released, pruned)
    ensures Agree(h, released, pruned)
  {}

  lemma StandsFurther(s: Store, n: u64, head: Bytes32, a: map<Key, Sighting>, b: map<Key, Sighting>, written: set<Image>, pruned: set<Key>)
    requires Stands(s, n, head, a, written, pruned) && Keeps(a, b, {})
    ensures Stands(s, n, head, b, written, pruned)
  {
    if !(n == 0 && head == ZERO32) {
      var i :| i in written && i.seq_ == n && s.head(i) == head && Keeps(Seen(i.records), a, pruned);
      assert Keeps(Seen(i.records), b, pruned);
    }
  }

  /** The second half of a call, from a world that has pruned and is ready to sign. */
  function SignStep(env: Env, w: World, p: Memory, ctx: CorridorContext, e: Event): World
    requires Lists(env.order) && e.Observe?
  {
    var (m, disk, r) := Sign(env.store, env.h, env.order, p, w.disk, e.lock, ctx, e.height, e.a, e.b, e.sig);
    var noted := Noted(env.h, p, e.lock, ctx, e.height);
    World(Some(m), disk, if r.Ok? then w.released + {Release(e.lock, ctx, e.height)} else w.released,
          w.pruned, Grown(w.written, p.saved, p.head, Export(env.order, noted.seen, noted.signed), e.a))
  }

  lemma SignKeeps(env: Env, w: World, p: Memory, ctx: CorridorContext, e: Event)
    requires Sane(env) && Inv(env, w) && e.Observe? && MemoryOk(env, w, p)
    requires Ready(env.h, p, e.lock, e.height) == Ok(ctx) && NoCollision(env.store, SignStep(env, w, p, ctx, e).written)
    ensures Inv(env, SignStep(env, w, p, ctx, e))
  {
    var noted := Noted(env.h, p, e.lock, ctx, e.height);
    var records := Export(env.order, noted.seen, noted.signed);
    var after := SignStep(env, w, p, ctx, e);
    RestoreOfExport(env.order, noted.seen, noted.signed);
    NoteKeeps(env.h, p, e.lock, ctx, e.height, w.released, w.pruned);
    StandsFurther(env.store, p.saved, p.head, p.seen, noted.seen, w.written, w.pruned);
    SaveKeeps(env, w, p.saved, p.head, records, e.a, e.b);
    var saved := Save(env.store, w.disk, p.saved, p.head, records, e.a, e.b).1;
    if saved.None? {
      GrowStands(env.store, p.saved, p.head, p.seen, w.written, after.written, w.pruned);
    } else if e.sig.Some? {
      AnchoredCovers(env, after.disk, records, after.released, after.pruned, after.written);
      ReleaseAgrees(env.h, noted.seen, after.released, after.pruned);
    }
  }

  lemma ObserveKeeps(env: Env, w: World, e: Event)
    requires Sane(env) && Inv(env, w) && e.Observe? && NoCollision(env.store, ObserveStep(env, w, e).written)
    ensures Inv(env, ObserveStep(env, w, e))
  {
    if w.mem.Some? && w.mem.value.state.Running? {
      var p := Prune(w.mem.value, e.height, e.dropped);
      var pruned := w.(mem := Some(p), pruned := w.pruned + e.dropped);
      PruneKeeps(env, w, w.mem.value, e.height, e.dropped);
      var ready := Ready(env.h, p, e.lock, e.height);
      if ready.Ok? {
        SignKeeps(env, pruned, p, ready.value, e);
      }
    }
  }

  lemma StepKeeps(env: Env, w: World, e: Event)
    requires Sane(env) && Inv(env, w) && Allowed(w, e) && NoCollision(env.store, Step(env, w, e).written)
    ensures Inv(env, Step(env, w, e))
  {
    match e
    case Boot(a, b) =>
      if w.mem.None? {
        BootKeeps(env, w, a, b);
      }
    case Observe(_, _, _, _, _, _) => ObserveKeeps(env, w, e);
    case SwapJournal(image) => assert image in w.written;
    case _ =>
  }

  lemma WrittenGrows(env: Env, w: World, e: Event)
    requires Lists(env.order)
    ensures w.written <= Step(env, w, e).written && w.released <= Step(env, w, e).released
    ensures w.pruned <= Step(env, w, e).pruned
  {}

  lemma {:induction false} RunKeeps(env: Env, run: seq<Event>)
    requires Sane(env) && Legal(env, run) && NoCollision(env.store, After(env, run).written)
    ensures Inv(env, After(env, run))
  {
    if run != [] {
      var n := |run| - 1;
      var w := After(env, run[..n]);
      WrittenGrows(env, w, run[n]);
      forall i | 0 <= i < n ensures Allowed(After(env, run[..n][..i]), run[..n][i]) {
        assert run[..n][..i] == run[..i];
      }
      CollisionsShrink(env.store, w.written, After(env, run).written);
      RunKeeps(env, run[..n]);
      StepKeeps(env, w, run[n]);
    }
  }
}
