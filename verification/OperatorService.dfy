/** The operator and its journal as objects, refining the steps (q-attestor: operator.rs). */
module OperatorService {
  import opened Machine
  import opened Facts
  import opened Attestor
  import opened DivergenceImage
  import opened Operator

  // ---------------------------------------------------------------- choosing what to forget

  /** One turn of the sort by (expiry, key). */
  function InsertByAge(seen: map<Key, Sighting>, k: Key, s: seq<Key>): seq<Key>
    requires k in seen && forall j :: j in s ==> j in seen
  {
    if s == [] || Older(seen, k, s[0]) then [k] + s else [s[0]] + InsertByAge(seen, k, s[1..])
  }

  predicate ByAge(seen: map<Key, Sighting>, s: seq<Key>)
    requires forall j :: j in s ==> j in seen
  {
    forall i, j :: 0 <= i < j < |s| ==> Older(seen, s[i], s[j])
  }

  lemma InsertMembers(seen: map<Key, Sighting>, k: Key, s: seq<Key>)
    requires k in seen && forall j :: j in s ==> j in seen
    ensures forall j :: j in InsertByAge(seen, k, s) <==> j == k || j in s
    ensures |InsertByAge(seen, k, s)| == |s| + 1
  {
    if s != [] && !Older(seen, k, s[0]) {
      InsertMembers(seen, k, s[1..]);
    }
  }

  lemma ConsByAge(seen: map<Key, Sighting>, x: Key, s: seq<Key>)
    requires x in seen && (forall j :: j in s ==> j in seen) && ByAge(seen, s)
    requires forall j :: j in s ==> Older(seen, x, j)
    ensures ByAge(seen, [x] + s)
  {
    var t := [x] + s;
    forall i, j | 0 <= i < j < |t| ensures Older(seen, t[i], t[j]) {
      assert t[j] == s[j - 1];
      assert i > 0 ==> t[i] == s[i - 1];
    }
  }

  lemma {:induction false} InsertSorted(seen: map<Key, Sighting>, k: Key, s: seq<Key>)
    requires k in seen && k !in s && (forall j :: j in s ==> j in seen) && ByAge(seen, s)
    ensures (forall j :: j in InsertByAge(seen, k, s) ==> j in seen) && ByAge(seen, InsertByAge(seen, k, s))
  {
    InsertMembers(seen, k, s);
    if s != [] && Older(seen, k, s[0]) {
      ConsByAge(seen, k, s);
    } else if s != [] {
      assert s[0] != k;
      if Age(seen[k].expiry, k) == Age(seen[s[0]].expiry, s[0]) {
        AgeInjective(seen[k].expiry, k, seen[s[0]].expiry, s[0]);
      }
      InsertSorted(seen, k, s[1..]);
      InsertMembers(seen, k, s[1..]);
      forall j | j in s[1..] ensures Older(seen, s[0], j) {
        var i :| 0 <= i < |s| - 1 && s[1..][i] == j;
        assert s[i + 1] == j;
      }
      ConsByAge(seen, s[0], InsertByAge(seen, k, s[1..]));
    }
  }

  lemma {:induction false} DistinctSize(s: seq<Key>)
    requires NoDuplicates(s)
    ensures |set k | k in s| == |s|
  {
    if s != [] {
      var n := |s| - 1;
      DistinctSize(s[..n]);
      assert s == s[..n] + [s[n]];
      assert (set k | k in s) == (set k | k in s[..n]) + {s[n]};
    }
  }

  lemma SortedSize(seen: map<Key, Sighting>, s: seq<Key>)
    requires (forall j :: j in s ==> j in seen) && ByAge(seen, s)
    ensures |set k | k in s| == |s|
  {
    forall i, j | 0 <= i < j < |s| ensures s[i] != s[j] {
      assert Older(seen, s[i], s[j]);
    }
    DistinctSize(s);
  }

  /** The first of the expired, in order of age, beyond the number that may be remembered. */
  lemma OldestForgotten(seen: map<Key, Sighting>, height: u64, s: seq<Key>, n: nat)
    requires (forall j :: j in s <==> j in Expired(seen, height)) && ByAge(seen, s)
    requires n == if |s| <= MAX_REMEMBERED_EXPIRED then 0 else |s| - MAX_REMEMBERED_EXPIRED
    ensures Forgets(seen, height, set k | k in s[..n])
  {
    SortedSize(seen, s);
    SortedSize(seen, s[..n]);
    assert (set k | k in s) == Expired(seen, height);
    var dropped := set k | k in s[..n];
    forall j, k | j in dropped && k in Expired(seen, height) && k !in dropped ensures Older(seen, j, k) {
      var a :| 0 <= a < n && s[a] == j;
      var b :| 0 <= b < |s| && s[b] == k;
    }
  }

  /** The collecting, sorting and cutting of `prune_expired`. */
  method ChooseForgotten(order: Order, seen: map<Key, Sighting>, height: u64) returns (dropped: set<Key>)
    requires Lists(order)
    ensures Forgets(seen, height, dropped)
  {
    var keys := order(seen.Keys);
    assert forall k :: k in keys <==> k in seen.Keys;
    assert NoDuplicates(keys);
    var expired: seq<Key> := [];
    for i := 0 to |keys|
      invariant forall k :: k in expired <==> k in keys[..i] && seen[k].expiry < height
      invariant ByAge(seen, expired)
    {
      assert keys[..i + 1] == keys[..i] + [keys[i]];
      if seen[keys[i]].expiry < height {
        InsertMembers(seen, keys[i], expired);
        InsertSorted(seen, keys[i], expired);
        expired := InsertByAge(seen, keys[i], expired);
      }
    }
    assert keys[..|keys|] == keys;
    var n := if |expired| <= MAX_REMEMBERED_EXPIRED then 0 else |expired| - MAX_REMEMBERED_EXPIRED;
    OldestForgotten(seen, height, expired, n);
    dropped := set k | k in expired[..n];
  }

  /** `export_divergence`. */
  method ExportRecords(order: Order, seen: map<Key, Sighting>, signed: map<Key, u64>)
    returns (records: seq<DivergenceRecord>)
    requires Lists(order)
    ensures records == Export(order, seen, signed)
  {
    var keys := order(seen.Keys);
    assert forall k :: k in keys <==> k in seen.Keys;
    records := [];
    for i := 0 to |keys|
      invariant records == ExportKeys(keys[..i], seen, signed)
    {
      assert keys[..i + 1][..i] == keys[..i];
      records := records + [RecordFor(keys[i], seen, signed)];
    }
    assert keys[..|keys|] == keys;
  }

  // ---------------------------------------------------------------- the journal

  class DivergenceJournal {
    const h: Hash
    var saved: u64
    var head: Bytes32
    var disk: Disk

    constructor (h: Hash, disk: Disk)
      ensures this.h == h && saved == 0 && head == ZERO32 && this.disk == disk
    {
      this.h := h;
      saved := 0;
      head := ZERO32;
      this.disk := disk;
    }

    method Load() returns (r: Result<seq<DivergenceRecord>, LoadError>)
      modifies this
      ensures disk == old(disk)
      ensures match Operator.Load(DivergenceStore(h), disk)
        case Ok((n, top, rs)) => r == Ok(rs) && saved == n && head == top
        case Err(e) => r == Err(e) && saved == old(saved) && head == old(head)
    {
      var anchor: Option<(u64, Bytes32)> := None;
      if disk.anchor.Some? {
        anchor := DecodeAnchor(h, disk.anchor.value);
        if anchor.None? {
          return Err(CorruptAnchor);
        }
      }
      if disk.journal.None? {
        if anchor.Some? {
          return Err(JournalMissing);
        }
        saved := 0;
        head := ZERO32;
        return Ok([]);
      }
      var image := DecodeImage(h, disk.journal.value);
      if image.None? {
        return Err(Corrupt);
      }
      var (i, top) := image.value;
      var (anchorSeq, anchorHead) := if anchor.Some? then anchor.value else (0, ZERO32);
      var current := i.seq_ == anchorSeq && top == anchorHead;
      var oneAhead := i.seq_ == SatAdd64(anchorSeq, 1) && i.prev == anchorHead;
      if !current && !oneAhead {
        return Err(if i.seq_ < anchorSeq then RolledBack else DoesNotContinue);
      }
      saved := i.seq_;
      head := top;
      return Ok(i.records);
    }

    method Save(records: seq<DivergenceRecord>, a: WriteEnd, b: WriteEnd) returns (ok: bool)
      modifies this
      ensures var (d, s) := Operator.Save(DivergenceStore(h), old(disk), old(saved), old(head), records, a, b);
        && disk == d && ok == s.Some?
        && saved == (if ok then s.value.0 else old(saved)) && head == (if ok then s.value.1 else old(head))
    {
      if saved == U64_MAX {
        return false;
      }
      var next := saved + 1;
      var bytes := WriteImage(h, Image(next, head, records));
      var top: Bytes32 := bytes[|bytes| - 32..];
      TrailingCheck(Body(Image(next, head, records)), Head(h, Image(next, head, records)));
      if a != NotWritten {
        disk := disk.(journal := Some(bytes));
      }
      if a != Written {
        return false;
      }
      if b != NotWritten {
        disk := disk.(anchor := Some(EncodeAnchor(h, next, top)));
      }
      if b != Written {
        return false;
      }
      saved := next;
      head := top;
      return true;
    }
  }

  // ---------------------------------------------------------------- the operator

  class AttestingOperator {
    const order: Order
    const journal: DivergenceJournal
    var corridors: map<u32, CorridorContext>
    var signed: map<Key, u64>
    var seen: map<Key, Sighting>
    var state: OperatorState

    ghost function Abstract(): Memory
      reads this, journal
    {
      Memory(corridors, signed, seen, state, journal.saved, journal.head)
    }

    constructor (order: Order, journal: DivergenceJournal)
      ensures this.order == order && this.journal == journal
      ensures corridors == map[] && signed == map[] && seen == map[] && state == Running
    {
      this.order := order;
      this.journal := journal;
      corridors, signed, seen, state := map[], map[], map[], Running;
    }

    /** `restore_divergence`. */
    method Restore(records: seq<DivergenceRecord>)
      requires seen == map[] && signed == map[]
      modifies this
      ensures seen == Seen(records) && signed == Signed(records)
      ensures corridors == old(corridors) && state == old(state)
    {
      for i := 0 to |records|
        invariant seen == Seen(records[..i]) && signed == Signed(records[..i])
        invariant corridors == old(corridors) && state == old(state)
      {
        var r := records[i];
        assert records[..i + 1][..i] == records[..i];
        seen := seen[r.key := Sighting(r.digest, r.expiryHeight)];
        if r.signedExpiry != 0 {
          signed := signed[r.key := r.signedExpiry];
        }
      }
      assert records[..|records|] == records;
    }

    /** `Operator::new`, past the construction of an empty operator. */
    method Boot(a: WriteEnd, b: WriteEnd) returns (ok: bool)
      requires Lists(order) && seen == map[] && signed == map[] && corridors == map[] && state == Running
      modifies this, journal
      ensures var (d, m) := Start(DivergenceStore(journal.h), order, old(journal.disk), a, b);
        journal.disk == d && ok == m.Some? && (ok ==> Abstract() == m.value)
    {
      var records := journal.Load();
      if records.Err? {
        return false;
      }
      Restore(records.value);
      var out := ExportRecords(order, seen, signed);
      ok := journal.Save(out, a, b);
    }

    method PruneExpired(height: u64) returns (ghost dropped: set<Key>)
      requires Lists(order)
      modifies this
      ensures Forgets(old(seen), height, dropped)
      ensures Abstract() == Prune(old(Abstract()), height, dropped)
    {
      var forgotten := ChooseForgotten(order, seen, height);
      signed := map k | k in signed && signed[k] >= height :: signed[k];
      seen := map k | k in seen && k !in forgotten :: seen[k];
      dropped := forgotten;
    }

    /** Noting a reference and saving, with the note undone when the save fails. */
    method NoteAndSave(key: Key, s: Sighting, a: WriteEnd, b: WriteEnd) returns (ok: bool)
      requires Lists(order)
      modifies this, journal
      ensures var m := old(Abstract()); var noted := Note(m, key, s);
        var (d, saved) := Operator.Save(DivergenceStore(journal.h), old(journal.disk), m.saved, m.head,
                                        Export(order, noted.seen, noted.signed), a, b);
        && journal.disk == d && ok == saved.Some?
        && Abstract() == if ok then noted.(saved := saved.value.0, head := saved.value.1) else m
    {
      var known := key in seen;
      var previous := if key in signed then Some(signed[key]) else None;
      ghost var m := Abstract();
      if !known {
        seen := seen[key := s];
      }
      signed := signed[key := s.expiry];
      var records := ExportRecords(order, seen, signed);
      ok := journal.Save(records, a, b);
      if !ok {
        if !known {
          seen := seen - {key};
        }
        PutBack(key, previous, m.signed);
      }
    }

    method PutBack(key: Key, previous: Option<u64>, ghost before: map<Key, u64>)
      requires key in signed && signed == before[key := signed[key]]
      requires previous == if key in before then Some(before[key]) else None
      modifies this`signed
      ensures signed == before
    {
      signed := if previous.Some? then signed[key := previous.value] else signed - {key};
    }

    /** The second half of `observe_and_sign`: note, save, sign, undo on failure. `answer` is the signer's. */
    method NoteAndSign(lock: ObservedLock, ctx: CorridorContext, height: u64, a: WriteEnd, b: WriteEnd,
                       answer: Option<seq<u8>>)
      returns (r: Result<SignedObservation, OperatorError>)
      requires Lists(order)
      modifies this, journal
      ensures (Abstract(), journal.disk, r)
           == Sign(DivergenceStore(journal.h), journal.h, order, old(Abstract()), old(journal.disk), lock, ctx, height,
                   a, b, answer)
    {
      var key, expiry := KeyOf(lock), ExpiryDeadline(height);
      var previous := if key in signed then Some(signed[key]) else None;
      ghost var before := signed;
      var ok := NoteAndSave(key, Sighting(Digest(journal.h, SubstanceOf(lock, ctx)), expiry), a, b);
      if !ok {
        return Err(JournalUnavailable);
      }
      if answer.None? {
        PutBack(key, previous, before);
        return Err(SignerUnavailable);
      }
      return Ok(SignedObservation(Translate(lock, ctx, height), answer.value));
    }

    method Check(lock: ObservedLock, height: u64) returns (r: Result<CorridorContext, OperatorError>)
      ensures r == Ready(journal.h, Abstract(), lock, height)
    {
      if lock.sourceChain !in corridors {
        return Err(CorridorUnknown(lock.sourceChain));
      }
      var ctx, key := corridors[lock.sourceChain], KeyOf(lock);
      if lock.confirmations < ctx.requiredConfirmations {
        return Err(BelowFinality(lock.confirmations, ctx.requiredConfirmations));
      }
      if key in seen && seen[key].digest != Digest(journal.h, SubstanceOf(lock, ctx)) {
        return Err(IsHalted(Divergence));
      }
      return if key in signed && signed[key] == ExpiryDeadline(height) then Err(AlreadySigned) else Ok(ctx);
    }

    method ObserveAndSign(lock: ObservedLock, height: u64, a: WriteEnd, b: WriteEnd, answer: Option<seq<u8>>)
      returns (r: Result<SignedObservation, OperatorError>, ghost dropped: set<Key>)
      requires Lists(order)
      modifies this, journal
      ensures Forgets(old(seen), height, dropped) || old(state).Halted?
      ensures (Abstract(), journal.disk, r)
           == Operator.ObserveAndSign(DivergenceStore(journal.h), journal.h, order, old(Abstract()), old(journal.disk),
                                      lock, height, dropped, a, b, answer)
    {
      dropped := {};
      if state.Halted? {
        return Err(IsHalted(state.reason)), {};
      }
      dropped := PruneExpired(height);
      var ready := Check(lock, height);
      if ready.Ok? {
        r := NoteAndSign(lock, ready.value, height, a, b, answer);
      } else {
        if ready.error == IsHalted(Divergence) {
          state := Halted(Divergence);
        }
        r := Err(ready.error);
      }
    }
  }
}
