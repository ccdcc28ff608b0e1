/** Bodies of the exit journal's frames: fixed layouts of 182 bytes (q-exits: journal.rs). */
module JournalCodec {
  import opened Machine
  import opened Bytes
  import opened ExitTypes

  const FRAME_META: nat := 182

  const KIND_OPEN: u8 := 1
  const KIND_SETTLE: u8 := 2
  const KIND_SLASH: u8 := 3
  const KIND_DEAD: u8 := 4

  function ReasonTag(r: DeadReason): u8 {
    match r
    case Unproven => 1
    case Malformed => 2
    case WrongDestinationReason => 3
    case UnservedAssetReason => 4
    case AboveCeiling => 5
    case UnknownVaultReason => 6
    case Refused => 7
  }

  function ReasonFromTag(t: u8): Option<DeadReason> {
    if t == 1 then Some(Unproven) else if t == 2 then Some(Malformed) else if t == 3 then Some(WrongDestinationReason)
    else if t == 4 then Some(UnservedAssetReason) else if t == 5 then Some(AboveCeiling)
    else if t == 6 then Some(UnknownVaultReason) else if t == 7 then Some(Refused) else None
  }

  // An open record in three runs of fields, a dead letter in two.
  const OPEN_A: seq<nat> := [1, 4, 1, 4, 16]
  const OPEN_B: seq<nat> := [16, 32, 32, 32]
  const OPEN_C: seq<nat> := [8, 4, 16, 8, 8]
  const DEAD_A: seq<nat> := [1, 4, 8, 32]
  const DEAD_B: seq<nat> := [32, 1, 8]
  const SETTLE: seq<nat> := [1, 4, 32]
  const SLASH: seq<nat> := [1, 4]

  lemma Totals()
    ensures Total(OPEN_A) == 26 && Total(OPEN_B) == 112 && Total(OPEN_C) == 44
    ensures Total(DEAD_A) == 45 && Total(DEAD_B) == 41 && Total(SETTLE) == 37 && Total(SLASH) == 5
  {}

  function OpenA(index: u32, x: JournaledExit): seq<seq<u8>> {
    [[KIND_OPEN], Le32(index), [x.version], Le32(x.corridor), x.asset]
  }

  function OpenB(x: JournaledExit): seq<seq<u8>> {
    [Le128(x.amount), x.holder, x.destination, x.burnRef]
  }

  function OpenC(x: JournaledExit): seq<seq<u8>> {
    [Le64(x.finalizedHeight), Le32(x.vaultId), Le128(x.locked), Le64(x.issuedAt), Le64(x.deadline)]
  }

  function DeadA(index: u32, l: DeadLetter): seq<seq<u8>> {
    [[KIND_DEAD], Le32(index), Le64(l.height), l.leafDigest]
  }

  function DeadB(l: DeadLetter): seq<seq<u8>> {
    [l.burnRef, [ReasonTag(l.reason)], Le64(l.recordedAt)]
  }

  /** `body_of`: the fields of the event, zero-padded to the frame. */
  function BodyOf(e: Event): seq<u8> {
    match e
    case Opened(index, x) => Concat(OpenA(index, x)) + Concat(OpenB(x)) + Concat(OpenC(x))
    case SettledBy(index, r) => Concat([[KIND_SETTLE], Le32(index), r]) + Zeros(145)
    case SlashedAt(index) => Concat([[KIND_SLASH], Le32(index)]) + Zeros(177)
    case Lettered(index, l) => Concat(DeadA(index, l)) + Concat(DeadB(l)) + Zeros(96)
  }

  function OpenHead(s: seq<u8>): (u32, u8, u32, Bytes16)
    requires |s| == 26
  {
    Totals();
    var f := Split(OPEN_A, s);
    (To32(f[1]), f[2][0], To32(f[3]), f[4])
  }

  function OpenMiddle(s: seq<u8>): (u128, Bytes32, Bytes32, Bytes32)
    requires |s| == 112
  {
    Totals();
    var f := Split(OPEN_B, s);
    (To128(f[0]), f[1], f[2], f[3])
  }

  function OpenTail(s: seq<u8>): (u64, u32, u128, u64, u64)
    requires |s| == 44
  {
    Totals();
    var f := Split(OPEN_C, s);
    (To64(f[0]), To32(f[1]), To128(f[2]), To64(f[3]), To64(f[4]))
  }

  function DecodeOpen(meta: seq<u8>): Event
    requires |meta| == FRAME_META
  {
    var a, b, c := OpenHead(meta[..26]), OpenMiddle(meta[26..138]), OpenTail(meta[138..]);
    Opened(a.0, JournaledExit(a.1, a.2, a.3, b.0, b.1, b.2, b.3, c.0, c.1, c.2, c.3, c.4))
  }

  function DecodeDead(meta: seq<u8>): Result<Event, ExitError>
    requires |meta| == FRAME_META
  {
    Totals();
    var f, g := Split(DEAD_A, meta), Split(DEAD_B, meta[45..]);
    var reason := ReasonFromTag(g[1][0]);
    if reason.None? then Err(PersistFailed)
    else Ok(Lettered(To32(f[1]), DeadLetter(To64(f[2]), f[3], g[0], reason.value, To64(g[2]))))
  }

  function DecodeShort(meta: seq<u8>): Result<Event, ExitError>
    requires |meta| == FRAME_META
  {
    Totals();
    if meta[0] == KIND_SETTLE then
      var f := Split(SETTLE, meta);
      Ok(SettledBy(To32(f[1]), f[2]))
    else if meta[0] == KIND_SLASH then
      var f := Split(SLASH, meta);
      Ok(SlashedAt(To32(f[1])))
    else Err(PersistFailed)
  }

  /** The body half of `decode_frame`. */
  function DecodeMeta(meta: seq<u8>): Result<Event, ExitError> {
    if |meta| != FRAME_META then Err(PersistFailed)
    else if meta[0] == KIND_OPEN then Ok(DecodeOpen(meta))
    else if meta[0] == KIND_DEAD then DecodeDead(meta)
    else DecodeShort(meta)
  }

  lemma OpenHeadRoundTrip(index: u32, x: JournaledExit)
    ensures |Concat(OpenA(index, x))| == 26 && Concat(OpenA(index, x))[0] == KIND_OPEN
    ensures OpenHead(Concat(OpenA(index, x))) == (index, x.version, x.corridor, x.asset)
  {
    var f := OpenA(index, x);
    Totals();
    SplitConcat(f, OPEN_A, []);
    assert Concat(f) + [] == Concat(f);
    assert Concat(f)[0] == f[0][0];
    Le32RoundTrip(index); Le32RoundTrip(x.corridor);
  }

  lemma OpenMiddleRoundTrip(x: JournaledExit)
    ensures |Concat(OpenB(x))| == 112
    ensures OpenMiddle(Concat(OpenB(x))) == (x.amount, x.holder, x.destination, x.burnRef)
  {
    var f := OpenB(x);
    Totals();
    SplitConcat(f, OPEN_B, []);
    assert Concat(f) + [] == Concat(f);
    Le128RoundTrip(x.amount);
  }

  lemma OpenTailRoundTrip(x: JournaledExit)
    ensures |Concat(OpenC(x))| == 44
    ensures OpenTail(Concat(OpenC(x))) == (x.finalizedHeight, x.vaultId, x.locked, x.issuedAt, x.deadline)
  {
    var f := OpenC(x);
    Totals();
    SplitConcat(f, OPEN_C, []);
    assert Concat(f) + [] == Concat(f);
    Le64RoundTrip(x.finalizedHeight); Le32RoundTrip(x.vaultId); Le128RoundTrip(x.locked);
    Le64RoundTrip(x.issuedAt); Le64RoundTrip(x.deadline);
  }

  lemma OpenRoundTrip(index: u32, x: JournaledExit)
    ensures |BodyOf(Opened(index, x))| == FRAME_META && DecodeMeta(BodyOf(Opened(index, x))) == Ok(Opened(index, x))
  {
    OpenHeadRoundTrip(index, x);
    OpenMiddleRoundTrip(x);
    OpenTailRoundTrip(x);
    var a, b, c := Concat(OpenA(index, x)), Concat(OpenB(x)), Concat(OpenC(x));
    ThreeParts(a, b, c);
    assert BodyOf(Opened(index, x)) == a + b + c;
  }

  lemma ThreeParts(a: seq<u8>, b: seq<u8>, c: seq<u8>)
    ensures (a + b + c)[..|a|] == a && (a + b + c)[|a|..|a| + |b|] == b && (a + b + c)[|a| + |b|..] == c
  {}

  lemma DeadRoundTrip(index: u32, l: DeadLetter)
    ensures |BodyOf(Lettered(index, l))| == FRAME_META && DecodeMeta(BodyOf(Lettered(index, l))) == Ok(Lettered(index, l))
  {
    var f, g := DeadA(index, l), DeadB(l);
    var meta := BodyOf(Lettered(index, l));
    Totals();
    SplitConcat(g, DEAD_B, Zeros(96));
    SplitConcat(f, DEAD_A, Concat(g) + Zeros(96));
    assert meta == Concat(f) + (Concat(g) + Zeros(96));
    assert meta[45..] == Concat(g) + Zeros(96);
    assert meta[0] == f[0][0];
    Le32RoundTrip(index); Le64RoundTrip(l.height); Le64RoundTrip(l.recordedAt);
  }

  lemma SettleRoundTrip(index: u32, r: Bytes32)
    ensures |BodyOf(SettledBy(index, r))| == FRAME_META && DecodeMeta(BodyOf(SettledBy(index, r))) == Ok(SettledBy(index, r))
  {
    var f := [[KIND_SETTLE], Le32(index), r];
    Totals();
    SplitConcat(f, SETTLE, Zeros(145));
    assert BodyOf(SettledBy(index, r))[0] == f[0][0];
    Le32RoundTrip(index);
  }

  lemma SlashRoundTrip(index: u32)
    ensures |BodyOf(SlashedAt(index))| == FRAME_META && DecodeMeta(BodyOf(SlashedAt(index))) == Ok(SlashedAt(index))
  {
    var f := [[KIND_SLASH], Le32(index)];
    Totals();
    SplitConcat(f, SLASH, Zeros(177));
    assert BodyOf(SlashedAt(index))[0] == f[0][0];
    Le32RoundTrip(index);
  }

  /** Every event fills one body exactly and survives it, field for field. */
  lemma BodyRoundTrip(e: Event)
    ensures |BodyOf(e)| == FRAME_META && DecodeMeta(BodyOf(e)) == Ok(e)
  {
    match e
    case Opened(index, x) => OpenRoundTrip(index, x);
    case SettledBy(index, r) => SettleRoundTrip(index, r);
    case SlashedAt(index) => SlashRoundTrip(index);
    case Lettered(index, l) => DeadRoundTrip(index, l);
  }
}
