/** The attesting operator: its memory, its two files and its steps (q-attestor: operator.rs). */
module Operator {
  import opened Machine
  import opened Bytes
  import opened Facts
  import opened Attestor
  import opened DivergenceImage

  const MAX_REMEMBERED_EXPIRED: nat := 16_384

  datatype HaltReason = Divergence | Overload | Manual

  datatype OperatorState = Running | Halted(reason: HaltReason)

  datatype OperatorError =
    | IsHalted(reason: HaltReason) | CorridorUnknown(chain: u32) | BelowFinality(got: u32, need: u32)
    | AlreadySigned | SignerUnavailable | JournalUnavailable

  datatype SignedObservation = SignedObservation(fact: BridgeFact, signature: seq<u8>)

  /** What is remembered of a reference: the digest signed for it and when it expires. */
  datatype Sighting = Sighting(digest: Bytes32, expiry: u64)

  datatype Memory = Memory(
    corridors: map<u32, CorridorContext>, signed: map<Key, u64>, seen: map<Key, Sighting>, state: OperatorState,
    saved: u64, head: Bytes32)

  /** The journal file and its head anchor; None is a file that is not there. */
  datatype Disk = Disk(journal: Option<seq<u8>>, anchor: Option<seq<u8>>)

  /** How an atomic replacement of a file can end; its caller sees an error in the last two. */
  datatype WriteEnd = Written | WrittenThenFailed | NotWritten

  datatype LoadError = CorruptAnchor | JournalMissing | Corrupt | RolledBack | DoesNotContinue

  /** The encodings of images and anchors. */
  datatype Store = Store(
    enc: Image -> seq<u8>, dec: seq<u8> -> Option<(Image, Bytes32)>, head: Image -> Bytes32,
    encAnchor: (u64, Bytes32) -> seq<u8>, decAnchor: seq<u8> -> Option<(u64, Bytes32)>)

  ghost predicate Faithful(s: Store) {
    && (forall i {:trigger s.enc(i)} ::
          s.dec(s.enc(i)) == if |i.records| <= JOURNAL_MAX_RECORDS then Some((i, s.head(i))) else None)
    && (forall n: u64, head: Bytes32 {:trigger s.encAnchor(n, head)} :: s.decAnchor(s.encAnchor(n, head)) == Some((n, head)))
  }

  /** The encodings the source uses. */
  function DivergenceStore(h: Hash): Store {
    Store(i => EncodeImage(h, i), b => DecodeImage(h, b), i => Head(h, i), (n, head) => EncodeAnchor(h, n, head),
          b => DecodeAnchor(h, b))
  }

  lemma DivergenceStoreFaithful(h: Hash)
    ensures Faithful(DivergenceStore(h))
  {
    var s := DivergenceStore(h);
    forall i ensures s.dec(s.enc(i)) == if |i.records| <= JOURNAL_MAX_RECORDS then Some((i, s.head(i))) else None {
      ImageRoundTrip(h, i);
    }
    forall n: u64, head: Bytes32 ensures s.decAnchor(s.encAnchor(n, head)) == Some((n, head)) {
      AnchorRoundTrip(h, n, head);
    }
  }

  // ---------------------------------------------------------------- the journal

  /** `save`: the journal file first, then the anchor; Some is the new sequence and head. */
  function Save(s: Store, disk: Disk, n: u64, head: Bytes32, records: seq<DivergenceRecord>, a: WriteEnd, b: WriteEnd):
    (Disk, Option<(u64, Bytes32)>)
  {
    if n == U64_MAX || a == NotWritten then (disk, None)
    else
      var i := Image(n + 1, head, records);
      var half := disk.(journal := Some(s.enc(i)));
      if a == WrittenThenFailed || b == NotWritten then (half, None)
      else
        (half.(anchor := Some(s.encAnchor(n + 1, s.head(i)))), if b == Written then Some((n + 1, s.head(i))) else None)
  }

  /** Whether an image is the anchored one or the next after it. */
  predicate Continues(i: Image, head: Bytes32, anchor: (u64, Bytes32)) {
    (i.seq_ == anchor.0 && head == anchor.1) || (i.seq_ == SatAdd64(anchor.0, 1) && i.prev == anchor.1)
  }

  /** The anchor recorded, if it reads; no file stands for sequence zero. */
  function AnchorOf(s: Store, disk: Disk): Option<(u64, Bytes32)> {
    if disk.anchor.None? then Some((0, ZERO32)) else s.decAnchor(disk.anchor.value)
  }

  /** `load`: the sequence, head and records to resume from. */
  function Load(s: Store, disk: Disk): Result<(u64, Bytes32, seq<DivergenceRecord>), LoadError> {
    var anchor := AnchorOf(s, disk);
    if anchor.None? then Err(CorruptAnchor)
    else if disk.journal.None? then (if disk.anchor.Some? then Err(JournalMissing) else Ok((0, ZERO32, [])))
    else
      var image := s.dec(disk.journal.value);
      if image.None? then Err(Corrupt)
      else
        var (i, head) := image.value;
        if Continues(i, head, anchor.value) then Ok((i.seq_, head, i.records))
        else if i.seq_ < anchor.value.0 then Err(RolledBack) else Err(DoesNotContinue)
  }

  // ---------------------------------------------------------------- export and restore

  /** The iteration order of an ordered map, a listing of any set of keys. */
  type Order = set<Key> -> seq<Key>

  predicate NoDuplicates(keys: seq<Key>) {
    forall i, j :: 0 <= i < j < |keys| ==> keys[i] != keys[j]
  }

  ghost predicate Lists(order: Order) {
    && (forall keys, k {:trigger k in order(keys)} :: k in order(keys) <==> k in keys)
    && (forall keys :: NoDuplicates(order(keys)))
  }

  function RecordFor(k: Key, seen: map<Key, Sighting>, signed: map<Key, u64>): DivergenceRecord
    requires k in seen
  {
    DivergenceRecord(k, seen[k].digest, seen[k].expiry, if k in signed then signed[k] else 0)
  }

  function ExportKeys(keys: seq<Key>, seen: map<Key, Sighting>, signed: map<Key, u64>): seq<DivergenceRecord>
    requires forall k :: k in keys ==> k in seen
  {
    if keys == [] then []
    else
      var n := |keys| - 1;
      ExportKeys(keys[..n], seen, signed) + [RecordFor(keys[n], seen, signed)]
  }

  /** `export_divergence`. */
  function Export(order: Order, seen: map<Key, Sighting>, signed: map<Key, u64>): seq<DivergenceRecord>
    requires Lists(order)
  {
    ExportKeys(order(seen.Keys), seen, signed)
  }

  /** `restore_divergence`, the sightings. */
  function Seen(rs: seq<DivergenceRecord>): map<Key, Sighting> {
    if rs == [] then map[]
    else var r := rs[|rs| - 1]; Seen(rs[..|rs| - 1])[r.key := Sighting(r.digest, r.expiryHeight)]
  }

  /** `restore_divergence`, the signed expiries. */
  function Signed(rs: seq<DivergenceRecord>): map<Key, u64> {
    if rs == [] then map[]
    else
      var r, m := rs[|rs| - 1], Signed(rs[..|rs| - 1]);
      if r.signedExpiry != 0 then m[r.key := r.signedExpiry] else m
  }

  lemma {:induction false} RestoreKeys(keys: seq<Key>, seen: map<Key, Sighting>, signed: map<Key, u64>)
    requires forall k :: k in keys ==> k in seen
    ensures Seen(ExportKeys(keys, seen, signed)) == map k | k in keys :: seen[k]
  {
    if keys != [] {
      var n := |keys| - 1;
      RestoreKeys(keys[..n], seen, signed);
      var rs := ExportKeys(keys, seen, signed);
      assert rs[..|rs| - 1] == ExportKeys(keys[..n], seen, signed);
      assert forall k :: k in keys <==> k in keys[..n] || k == keys[n];
    }
  }

  /** Restoring what was exported gives back every sighting. */
  lemma RestoreOfExport(order: Order, seen: map<Key, Sighting>, signed: map<Key, u64>)
    requires Lists(order)
    ensures Seen(Export(order, seen, signed)) == seen
  {
    RestoreKeys(order(seen.Keys), seen, signed);
    assert forall k :: k in order(seen.Keys) <==> k in seen.Keys;
  }

  lemma {:induction false} RestoreSigned(keys: seq<Key>, seen: map<Key, Sighting>, signed: map<Key, u64>)
    requires forall k :: k in keys ==> k in seen
    ensures Signed(ExportKeys(keys, seen, signed)) == map k | k in keys && k in signed && signed[k] != 0 :: signed[k]
  {
    if keys != [] {
      var n := |keys| - 1;
      RestoreSigned(keys[..n], seen, signed);
      var rs := ExportKeys(keys, seen, signed);
      assert rs[..|rs| - 1] == ExportKeys(keys[..n], seen, signed);
      assert forall k :: k in keys <==> k in keys[..n] || k == keys[n];
    }
  }

  // ---------------------------------------------------------------- pruning

  function Reverse(s: seq<u8>): (r: seq<u8>)
    ensures |r| == |s|
  {
    if s == [] then [] else Reverse(s[1..]) + [s[0]]
  }

  /** The order of (expiry, chain, reference) triples, as a number: expiry first, then chain, then reference bytes
      from the left. */
  function Age(expiry: u64, k: Key): nat {
    FromLe(Reverse(k.ref) + Le32(k.chain) + Le64(expiry))
  }

  lemma {:induction false} ReverseInjective(a: seq<u8>, b: seq<u8>)
    requires Reverse(a) == Reverse(b)
    ensures a == b
  {
    if a != [] {
      assert |a| == |Reverse(a)| == |Reverse(b)| == |b|;
      var n := |a| - 1;
      assert Reverse(a)[..n] == Reverse(a[1..]) && Reverse(b)[..n] == Reverse(b[1..]);
      assert Reverse(a)[n] == a[0] && Reverse(b)[n] == b[0];
      ReverseInjective(a[1..], b[1..]);
      assert a == [a[0]] + a[1..] && b == [b[0]] + b[1..];
    }
  }

  lemma AgeInjective(e: u64, j: Key, f: u64, k: Key)
    requires Age(e, j) == Age(f, k)
    ensures j == k
  {
    var a, b := Reverse(j.ref) + Le32(j.chain) + Le64(e), Reverse(k.ref) + Le32(k.chain) + Le64(f);
    LeOfFromLe(a);
    LeOfFromLe(b);
    assert a == b;
    assert Reverse(j.ref) == a[..32] && Reverse(k.ref) == b[..32];
    assert Le32(j.chain) == a[32..36] && Le32(k.chain) == b[32..36];
    ReverseInjective(j.ref, k.ref);
    Le32RoundTrip(j.chain);
    Le32RoundTrip(k.chain);
  }

  function Expired(seen: map<Key, Sighting>, height: u64): set<Key> {
    set k | k in seen && seen[k].expiry < height
  }

  predicate Older(seen: map<Key, Sighting>, j: Key, k: Key)
    requires j in seen && k in seen
  {
    Age(seen[j].expiry, j) < Age(seen[k].expiry, k)
  }

  /** What `prune_expired` forgets: the oldest expired sightings beyond the number it may remember, no others. */
  predicate Forgets(seen: map<Key, Sighting>, height: u64, dropped: set<Key>) {
    var expired := Expired(seen, height);
    && dropped <= expired
    && |dropped| == (if |expired| <= MAX_REMEMBERED_EXPIRED then 0 else |expired| - MAX_REMEMBERED_EXPIRED)
    && forall j, k :: j in dropped && k in expired && k !in dropped ==> Older(seen, j, k)
  }

  /** There is one such choice. */
  lemma ForgetsOnce(seen: map<Key, Sighting>, height: u64, a: set<Key>, b: set<Key>)
    requires Forgets(seen, height, a) && Forgets(seen, height, b)
    ensures a == b
  {
    if a != b {
      Differ(a, b);
      var j, k :| j in a - b && k in b - a;
      assert false;
    }
  }

  lemma Differ(a: set<Key>, b: set<Key>)
    requires |a| == |b| && a != b
    ensures a - b != {} && b - a != {}
  {
    assert a == (a * b) + (a - b) && b == (a * b) + (b - a);
    assert |a| == |a * b| + |a - b| && |b| == |a * b| + |b - a|;
  }

  /** A reference is forgotten only when it is expired and more than the limit are expired. */
  lemma ForgottenWasExpired(seen: map<Key, Sighting>, height: u64, dropped: set<Key>, k: Key)
    requires Forgets(seen, height, dropped) && k in dropped
    ensures k in seen && seen[k].expiry < height && |Expired(seen, height)| > MAX_REMEMBERED_EXPIRED
  {
    assert |dropped| > 0;
  }

  function Prune(m: Memory, height: u64, dropped: set<Key>): Memory {
    m.(signed := map k | k in m.signed && m.signed[k] >= height :: m.signed[k],
       seen := map k | k in m.seen && k !in dropped :: m.seen[k])
  }

  // ---------------------------------------------------------------- steps

  /** The checks of `observe_and_sign` on a running operator that has pruned. */
  function Ready(h: Hash, m: Memory, lock: ObservedLock, height: u64): Result<CorridorContext, OperatorError> {
    if lock.sourceChain !in m.corridors then Err(CorridorUnknown(lock.sourceChain))
    else
      var ctx, k := m.corridors[lock.sourceChain], KeyOf(lock);
      if lock.confirmations < ctx.requiredConfirmations then
        Err(BelowFinality(lock.confirmations, ctx.requiredConfirmations))
      else if k in m.seen && m.seen[k].digest != Digest(h, SubstanceOf(lock, ctx)) then Err(IsHalted(Divergence))
      else if k in m.signed && m.signed[k] == ExpiryDeadline(height) then Err(AlreadySigned)
      else Ok(ctx)
  }

  /** The memory with a reference noted as about to be signed. */
  function Note(m: Memory, k: Key, s: Sighting): Memory {
    m.(seen := if k in m.seen then m.seen else m.seen[k := s], signed := m.signed[k := s.expiry])
  }

  function Noted(h: Hash, m: Memory, lock: ObservedLock, ctx: CorridorContext, height: u64): Memory {
    Note(m, KeyOf(lock), Sighting(Digest(h, SubstanceOf(lock, ctx)), ExpiryDeadline(height)))
  }

  /** `observe_and_sign`: the pruned memory `m` is told apart from the caller's by `Prune`. */
  function Sign(s: Store, h: Hash, order: Order, m: Memory, disk: Disk, lock: ObservedLock, ctx: CorridorContext,
                height: u64, a: WriteEnd, b: WriteEnd, sig: Option<seq<u8>>):
    (Memory, Disk, Result<SignedObservation, OperatorError>)
    requires Lists(order)
  {
    var noted := Noted(h, m, lock, ctx, height);
    var (d, saved) := Save(s, disk, m.saved, m.head, Export(order, noted.seen, noted.signed), a, b);
    if saved.None? then (m, d, Err(JournalUnavailable))
    else
      var after := noted.(saved := saved.value.0, head := saved.value.1);
      if sig.None? then (after.(signed := m.signed), d, Err(SignerUnavailable))
      else (after, d, Ok(SignedObservation(Translate(lock, ctx, height), sig.value)))
  }

  function ObserveAndSign(s: Store, h: Hash, order: Order, m: Memory, disk: Disk, lock: ObservedLock, height: u64,
                          dropped: set<Key>, a: WriteEnd, b: WriteEnd, sig: Option<seq<u8>>):
    (Memory, Disk, Result<SignedObservation, OperatorError>)
    requires Lists(order)
  {
    if m.state.Halted? then (m, disk, Err(IsHalted(m.state.reason)))
    else
      var p := Prune(m, height, dropped);
      var ready := Ready(h, p, lock, height);
      if ready.Ok? then Sign(s, h, order, p, disk, lock, ready.value, height, a, b, sig)
      else if ready.error == IsHalted(Divergence) then (p.(state := Halted(Divergence)), disk, Err(ready.error))
      else (p, disk, Err(ready.error))
  }

  /** `Operator::new`: load, restore, save again. None is a refusal to start. */
  function Start(s: Store, order: Order, disk: Disk, a: WriteEnd, b: WriteEnd): (Disk, Option<Memory>)
    requires Lists(order)
  {
    var loaded := Load(s, disk);
    if loaded.Err? then (disk, None)
    else
      var (n, head, rs) := loaded.value;
      var (d, saved) := Save(s, disk, n, head, Export(order, Seen(rs), Signed(rs)), a, b);
      (d, if saved.None? then None
          else Some(Memory(map[], Signed(rs), Seen(rs), Running, saved.value.0, saved.value.1)))
  }
}
