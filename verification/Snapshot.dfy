/** The gateway's binary snapshot: what is persisted, and reading it back (q-gateway: gateway.rs). */
module Snapshot {
  import opened Machine
  import opened Bytes
  import opened Facts
  import opened Codec
  import opened Attestor
  import opened Sections
  import opened GatewayState

  const GUARD_SNAPSHOT_VERSION: u8 := 10

  // ---------------------------------------------------------------- readers in sequence

  type Parser<!A> = seq<u8> -> Result<(A, seq<u8>), CodecError>

  /** Two reads, one after the other; the first error wins. */
  function Both<A, B>(p: Parser<A>, q: Parser<B>): Parser<(A, B)> {
    (s: seq<u8>) =>
      var a := p(s);
      if a.Err? then Err(a.error)
      else
        var b := q(a.value.1);
        if b.Err? then Err(b.error) else Ok(((a.value.0, b.value.0), b.value.1))
  }

  /** A parser reads `bytes` as `a`, whatever follows. */
  ghost predicate Reads<A>(p: Parser<A>, bytes: seq<u8>, a: A) {
    forall rest {:trigger bytes + rest} :: p(bytes + rest) == Ok((a, rest))
  }

  lemma BothReads<A, B>(p: Parser<A>, x: seq<u8>, a: A, q: Parser<B>, y: seq<u8>, b: B)
    requires Reads(p, x, a) && Reads(q, y, b)
    ensures Reads(Both(p, q), x + y, (a, b))
  {
    forall rest ensures Both(p, q)(x + y + rest) == Ok(((a, b), rest)) {
      assert x + y + rest == x + (y + rest);
    }
  }

  /** A read that must use every byte. */
  function Finish<A>(p: Parser<A>, bytes: seq<u8>): Result<A, CodecError> {
    var r := p(bytes);
    if r.Err? then Err(r.error) else if r.value.1 != [] then Err(TrailingBytes) else Ok(r.value.0)
  }

  function SectionOf<T>(c: Item<T>): Parser<seq<T>>
    requires c.size > 0
  {
    s => TakeSection(c, s)
  }

  lemma SectionReads<T(!new)>(c: Item<T>, items: seq<T>)
    requires Faithful(c) && |items| < 0x1_0000_0000
    ensures Reads(SectionOf(c), Section(c, items), items)
  {
    forall rest ensures SectionOf(c)(Section(c, items) + rest) == Ok((items, rest)) {
      SectionRoundTrip(c, items, rest);
    }
  }

  function Number64(): Parser<u64> {
    (s: seq<u8>) => if |s| < 8 then Err(ShortInput) else Ok((To64(s[..8]), s[8..]))
  }

  lemma Number64Reads(v: u64)
    ensures Reads(Number64(), Le64(v), v)
  {
    forall rest ensures Number64()(Le64(v) + rest) == Ok((v, rest)) {
      Le64RoundTrip(v);
      assert (Le64(v) + rest)[..8] == Le64(v);
    }
  }

  // ---------------------------------------------------------------- items

  function RefItem(): Item<Key> {
    Item(36, (k: Key) => Le32(k.chain) + k.ref,
         s => if |s| == 36 then Ok(Key(To32(s[..4]), s[4..])) else Err(ShortInput))
  }

  lemma RefFaithful()
    ensures Faithful(RefItem())
  {
    forall k: Key ensures |RefItem().enc(k)| == 36 && RefItem().dec(RefItem().enc(k)) == Ok(k) {
      Le32RoundTrip(k.chain);
      assert (Le32(k.chain) + k.ref)[..4] == Le32(k.chain) && (Le32(k.chain) + k.ref)[4..] == k.ref;
    }
  }

  function AmountItem(): Item<(Asset, u128)> {
    Item(32, (p: (Asset, u128)) => p.0 + Le128(p.1),
         s => if |s| == 32 then Ok((s[..16], To128(s[16..]))) else Err(ShortInput))
  }

  lemma AmountFaithful()
    ensures Faithful(AmountItem())
  {
    forall p: (Asset, u128) ensures |AmountItem().enc(p)| == 32 && AmountItem().dec(AmountItem().enc(p)) == Ok(p) {
      Le128RoundTrip(p.1);
      assert (p.0 + Le128(p.1))[..16] == p.0 && (p.0 + Le128(p.1))[16..] == Le128(p.1);
    }
  }

  function ChainItem(): Item<u32> {
    Item(4, (c: u32) => Le32(c), s => if |s| == 4 then Ok(To32(s)) else Err(ShortInput))
  }

  lemma ChainFaithful()
    ensures Faithful(ChainItem())
  {
    forall c: u32 ensures |ChainItem().enc(c)| == 4 && ChainItem().dec(ChainItem().enc(c)) == Ok(c) {
      Le32RoundTrip(c);
    }
  }

  function HeightItem(): Item<(u32, u64)> {
    Item(12, (p: (u32, u64)) => Le32(p.0) + Le64(p.1),
         s => if |s| == 12 then Ok((To32(s[..4]), To64(s[4..]))) else Err(ShortInput))
  }

  lemma HeightFaithful()
    ensures Faithful(HeightItem())
  {
    forall p: (u32, u64) ensures |HeightItem().enc(p)| == 12 && HeightItem().dec(HeightItem().enc(p)) == Ok(p) {
      Le32RoundTrip(p.0);
      Le64RoundTrip(p.1);
      assert (Le32(p.0) + Le64(p.1))[..4] == Le32(p.0) && (Le32(p.0) + Le64(p.1))[4..] == Le64(p.1);
    }
  }

  function ReportItem(): Item<(Asset, u64)> {
    Item(24, (p: (Asset, u64)) => p.0 + Le64(p.1),
         s => if |s| == 24 then Ok((s[..16], To64(s[16..]))) else Err(ShortInput))
  }

  lemma ReportFaithful()
    ensures Faithful(ReportItem())
  {
    forall p: (Asset, u64) ensures |ReportItem().enc(p)| == 24 && ReportItem().dec(ReportItem().enc(p)) == Ok(p) {
      Le64RoundTrip(p.1);
      assert (p.0 + Le64(p.1))[..16] == p.0 && (p.0 + Le64(p.1))[16..] == Le64(p.1);
    }
  }

  const TICKET_LAYOUT: seq<nat> := [8, 16, 16, 32, 8]

  function TicketFields(t: Ticket): seq<seq<u8>> {
    [Le64(t.exitId), t.asset, Le128(t.amount), t.destination, Le64(t.unlockHeight)]
  }

  lemma TicketTotal()
    ensures Total(TICKET_LAYOUT) == 80
  {}

  function TicketOf(s: seq<u8>): Ticket
    requires |s| == 80
  {
    TicketTotal();
    var p := Split(TICKET_LAYOUT, s);
    Ticket(To64(p[0]), p[1], To128(p[2]), p[3], To64(p[4]))
  }

  function TicketItem(): Item<Ticket> {
    Item(80, (t: Ticket) => Concat(TicketFields(t)), s => if |s| == 80 then Ok(TicketOf(s)) else Err(ShortInput))
  }

  lemma TicketRoundTrip(t: Ticket)
    ensures |Concat(TicketFields(t))| == 80 && TicketOf(Concat(TicketFields(t))) == t
  {
    TicketTotal();
    SplitConcat(TicketFields(t), TICKET_LAYOUT, []);
    assert Concat(TicketFields(t)) + [] == Concat(TicketFields(t));
    Le64RoundTrip(t.exitId);
    Le128RoundTrip(t.amount);
    Le64RoundTrip(t.unlockHeight);
  }

  lemma TicketFaithful()
    ensures Faithful(TicketItem())
  {
    forall t: Ticket ensures |TicketItem().enc(t)| == 80 && TicketItem().dec(TicketItem().enc(t)) == Ok(t) {
      TicketRoundTrip(t);
    }
  }

  /** A corridor as saved: its quorum in 32 bits. */
  datatype SavedCorridor = SavedCorridor(chain: u32, depth: u32, quorum: u32, tier: u8, active: bool)

  function CorridorBytes(c: SavedCorridor): seq<u8> {
    Le32(c.chain) + Le32(c.depth) + Le32(c.quorum) + [c.tier, if c.active then 1 else 0]
  }

  function CorridorOf(s: seq<u8>): Result<SavedCorridor, CodecError> {
    if |s| != 14 then Err(ShortInput)
    else if s[13] > 1 then Err(UnknownTag)
    else Ok(SavedCorridor(To32(s[..4]), To32(s[4..8]), To32(s[8..12]), s[12], s[13] == 1))
  }

  function CorridorItem(): Item<SavedCorridor> {
    Item(14, (c: SavedCorridor) => CorridorBytes(c), s => CorridorOf(s))
  }

  lemma CorridorRoundTrip(c: SavedCorridor)
    ensures |CorridorBytes(c)| == 14 && CorridorOf(CorridorBytes(c)) == Ok(c)
  {
    var s := CorridorBytes(c);
    assert s[..4] == Le32(c.chain) && s[4..8] == Le32(c.depth) && s[8..12] == Le32(c.quorum);
    Le32RoundTrip(c.chain);
    Le32RoundTrip(c.depth);
    Le32RoundTrip(c.quorum);
  }

  lemma CorridorFaithful()
    ensures Faithful(CorridorItem())
  {
    forall c: SavedCorridor
      ensures |CorridorItem().enc(c)| == 14 && CorridorItem().dec(CorridorItem().enc(c)) == Ok(c)
    {
      CorridorRoundTrip(c);
    }
  }

  // ---------------------------------------------------------------- head and tail

  datatype Head = Head(
    pause: bool, height: u64, frozenUntil: u64, liftedFreeze: u64, depositFrozenUntil: u64, epochMinted: u128)

  const HEAD_LAYOUT: seq<nat> := [8, 8, 8, 8, 16]

  function HeadFields(h: Head): seq<seq<u8>> {
    [Le64(h.height), Le64(h.frozenUntil), Le64(h.liftedFreeze), Le64(h.depositFrozenUntil), Le128(h.epochMinted)]
  }

  function HeadBytes(h: Head): seq<u8> {
    [GUARD_SNAPSHOT_VERSION, if h.pause then 1 else 0] + Concat(HeadFields(h))
  }

  lemma HeadTotal()
    ensures Total(HEAD_LAYOUT) == 48
  {}

  function HeadParser(): Parser<Head> {
    (s: seq<u8>) =>
      if |s| < 1 then Err(ShortInput)
      else if s[0] != GUARD_SNAPSHOT_VERSION then Err(BadVersion)
      else if |s| < 2 then Err(ShortInput)
      else if s[1] > 1 then Err(UnknownTag)
      else if |s| < 50 then Err(ShortInput)
      else
        HeadTotal();
        var p := Split(HEAD_LAYOUT, s[2..]);
        Ok((Head(s[1] == 1, To64(p[0]), To64(p[1]), To64(p[2]), To64(p[3]), To128(p[4])), s[50..]))
  }

  lemma HeadSlices(h: Head, rest: seq<u8>)
    ensures var s := HeadBytes(h) + rest;
      |s| >= 50 && s[2..] == Concat(HeadFields(h)) + rest && s[50..] == rest && s[0] == GUARD_SNAPSHOT_VERSION
      && s[1] == if h.pause then 1 else 0
  {
    HeadTotal();
    SplitConcat(HeadFields(h), HEAD_LAYOUT, rest);
    assert |Concat(HeadFields(h))| == 48;
  }

  lemma HeadReads(h: Head)
    ensures Reads(HeadParser(), HeadBytes(h), h)
  {
    forall rest ensures HeadParser()(HeadBytes(h) + rest) == Ok((h, rest)) {
      HeadSlices(h, rest);
      HeadTotal();
      SplitConcat(HeadFields(h), HEAD_LAYOUT, rest);
      HeadNumbers(h);
    }
  }

  lemma HeadNumbers(h: Head)
    ensures To64(Le64(h.height)) == h.height && To64(Le64(h.frozenUntil)) == h.frozenUntil
    ensures To64(Le64(h.liftedFreeze)) == h.liftedFreeze && To64(Le64(h.depositFrozenUntil)) == h.depositFrozenUntil
    ensures To128(Le128(h.epochMinted)) == h.epochMinted
  {
    Le64RoundTrip(h.height);
    Le64RoundTrip(h.frozenUntil);
    Le64RoundTrip(h.liftedFreeze);
    Le64RoundTrip(h.depositFrozenUntil);
    Le128RoundTrip(h.epochMinted);
  }

  datatype Tail = Tail(globalPausedAt: u64, globalResumedAt: u64, auditSeq: u64, auditHead: Bytes32)

  const TAIL_LAYOUT: seq<nat> := [8, 8, 8, 32]

  function TailFields(t: Tail): seq<seq<u8>> {
    [Le64(t.globalPausedAt), Le64(t.globalResumedAt), Le64(t.auditSeq), t.auditHead]
  }

  lemma TailTotal()
    ensures Total(TAIL_LAYOUT) == 56
  {}

  function TailParser(): Parser<Tail> {
    (s: seq<u8>) =>
      if |s| < 56 then Err(ShortInput)
      else
        TailTotal();
        var p := Split(TAIL_LAYOUT, s);
        Ok((Tail(To64(p[0]), To64(p[1]), To64(p[2]), p[3]), s[56..]))
  }

  lemma TailReads(t: Tail)
    ensures Reads(TailParser(), Concat(TailFields(t)), t)
  {
    forall rest ensures TailParser()(Concat(TailFields(t)) + rest) == Ok((t, rest)) {
      TailTotal();
      SplitConcat(TailFields(t), TAIL_LAYOUT, rest);
      Le64RoundTrip(t.globalPausedAt);
      Le64RoundTrip(t.globalResumedAt);
      Le64RoundTrip(t.auditSeq);
      assert (Concat(TailFields(t)) + rest)[56..] == rest;
    }
  }

  // ---------------------------------------------------------------- the snapshot

  /** The snapshot's content in the order it is written, each collection as a list. */
  datatype Saved = Saved(
    head: Head, refs: seq<Key>, minted: seq<(Asset, u128)>, paused: seq<u32>, cursor: seq<(u32, u64)>, epoch: u64,
    assetEpoch: seq<(Asset, u128)>, nextExit: u64, tickets: seq<Ticket>, corridors: seq<SavedCorridor>,
    resumed: seq<(u32, u64)>, watchdog: seq<(u32, u64)>, tail: Tail, escrowed: seq<(Asset, u128)>,
    reported: seq<(Asset, u64)>)

  type PartA = (Head, (seq<Key>, seq<(Asset, u128)>))
  type PartB = (seq<u32>, (seq<(u32, u64)>, (u64, seq<(Asset, u128)>)))
  type PartC = (u64, (seq<Ticket>, seq<SavedCorridor>))
  type PartD = (seq<(u32, u64)>, (seq<(u32, u64)>, Tail))
  type PartE = (seq<(Asset, u128)>, seq<(Asset, u64)>)

  function BytesA(s: Saved): seq<u8> {
    HeadBytes(s.head) + (Section(RefItem(), s.refs) + Section(AmountItem(), s.minted))
  }

  function BytesB(s: Saved): seq<u8> {
    Section(ChainItem(), s.paused)
    + (Section(HeightItem(), s.cursor) + (Le64(s.epoch) + Section(AmountItem(), s.assetEpoch)))
  }

  function BytesC(s: Saved): seq<u8> {
    Le64(s.nextExit) + (Section(TicketItem(), s.tickets) + Section(CorridorItem(), s.corridors))
  }

  function BytesD(s: Saved): seq<u8> {
    Section(HeightItem(), s.resumed) + (Section(HeightItem(), s.watchdog) + Concat(TailFields(s.tail)))
  }

  function BytesE(s: Saved): seq<u8> {
    Section(AmountItem(), s.escrowed) + Section(ReportItem(), s.reported)
  }

  /** `encode_guard`. */
  function EncodeGuard(s: Saved): seq<u8> {
    BytesA(s) + (BytesB(s) + (BytesC(s) + (BytesD(s) + BytesE(s))))
  }

  function ParserA(): Parser<PartA> {
    Both(HeadParser(), Both(SectionOf(RefItem()), SectionOf(AmountItem())))
  }

  function ParserB(): Parser<PartB> {
    Both(SectionOf(ChainItem()), Both(SectionOf(HeightItem()), Both(Number64(), SectionOf(AmountItem()))))
  }

  function ParserC(): Parser<PartC> {
    Both(Number64(), Both(SectionOf(TicketItem()), SectionOf(CorridorItem())))
  }

  function ParserD(): Parser<PartD> {
    Both(SectionOf(HeightItem()), Both(SectionOf(HeightItem()), TailParser()))
  }

  function ParserE(): Parser<PartE> {
    Both(SectionOf(AmountItem()), SectionOf(ReportItem()))
  }

  type Parts = (PartA, (PartB, (PartC, (PartD, PartE))))

  function WholeParser(): Parser<Parts> {
    Both(ParserA(), Both(ParserB(), Both(ParserC(), Both(ParserD(), ParserE()))))
  }

  function Assemble(t: Parts): Saved {
    var (a, (b, (c, (d, e)))) := t;
    Saved(a.0, a.1.0, a.1.1, b.0, b.1.0, b.1.1.0, b.1.1.1, c.0, c.1.0, c.1.1, d.0, d.1.0, d.1.1, e.0, e.1)
  }

  /** `decode_guard`. */
  function DecodeGuard(bytes: seq<u8>): Result<Saved, CodecError> {
    var r := Finish(WholeParser(), bytes);
    if r.Err? then Err(r.error) else Ok(Assemble(r.value))
  }

  /** Every count fits its 32 bits. */
  predicate CountsFit(s: Saved) {
    && |s.refs| < 0x1_0000_0000 && |s.minted| < 0x1_0000_0000 && |s.paused| < 0x1_0000_0000
    && |s.cursor| < 0x1_0000_0000 && |s.assetEpoch| < 0x1_0000_0000 && |s.tickets| < 0x1_0000_0000
    && |s.corridors| < 0x1_0000_0000 && |s.resumed| < 0x1_0000_0000 && |s.watchdog| < 0x1_0000_0000
    && |s.escrowed| < 0x1_0000_0000 && |s.reported| < 0x1_0000_0000
  }

  lemma ReadsA(s: Saved)
    requires CountsFit(s)
    ensures Reads(ParserA(), BytesA(s), (s.head, (s.refs, s.minted)))
  {
    HeadReads(s.head);
    RefFaithful();
    AmountFaithful();
    SectionReads(RefItem(), s.refs);
    SectionReads(AmountItem(), s.minted);
    BothReads(SectionOf(RefItem()), Section(RefItem(), s.refs), s.refs,
              SectionOf(AmountItem()), Section(AmountItem(), s.minted), s.minted);
    BothReads(HeadParser(), HeadBytes(s.head), s.head, Both(SectionOf(RefItem()), SectionOf(AmountItem())),
              Section(RefItem(), s.refs) + Section(AmountItem(), s.minted), (s.refs, s.minted));
  }

  lemma ReadsB(s: Saved)
    requires CountsFit(s)
    ensures Reads(ParserB(), BytesB(s), (s.paused, (s.cursor, (s.epoch, s.assetEpoch))))
  {
    ChainFaithful();
    HeightFaithful();
    AmountFaithful();
    Number64Reads(s.epoch);
    SectionReads(ChainItem(), s.paused);
    SectionReads(HeightItem(), s.cursor);
    SectionReads(AmountItem(), s.assetEpoch);
    var x := Le64(s.epoch) + Section(AmountItem(), s.assetEpoch);
    BothReads(Number64(), Le64(s.epoch), s.epoch, SectionOf(AmountItem()), Section(AmountItem(), s.assetEpoch), s.assetEpoch);
    var p := Both(Number64(), SectionOf(AmountItem()));
    BothReads(SectionOf(HeightItem()), Section(HeightItem(), s.cursor), s.cursor, p, x, (s.epoch, s.assetEpoch));
    BothReads(SectionOf(ChainItem()), Section(ChainItem(), s.paused), s.paused, Both(SectionOf(HeightItem()), p),
              Section(HeightItem(), s.cursor) + x, (s.cursor, (s.epoch, s.assetEpoch)));
  }

  lemma ReadsC(s: Saved)
    requires CountsFit(s)
    ensures Reads(ParserC(), BytesC(s), (s.nextExit, (s.tickets, s.corridors)))
  {
    Number64Reads(s.nextExit);
    TicketFaithful();
    CorridorFaithful();
    SectionReads(TicketItem(), s.tickets);
    SectionReads(CorridorItem(), s.corridors);
    BothReads(SectionOf(TicketItem()), Section(TicketItem(), s.tickets), s.tickets,
              SectionOf(CorridorItem()), Section(CorridorItem(), s.corridors), s.corridors);
    BothReads(Number64(), Le64(s.nextExit), s.nextExit, Both(SectionOf(TicketItem()), SectionOf(CorridorItem())),
              Section(TicketItem(), s.tickets) + Section(CorridorItem(), s.corridors), (s.tickets, s.corridors));
  }

  lemma ReadsD(s: Saved)
    requires CountsFit(s)
    ensures Reads(ParserD(), BytesD(s), (s.resumed, (s.watchdog, s.tail)))
  {
    HeightFaithful();
    TailReads(s.tail);
    SectionReads(HeightItem(), s.resumed);
    SectionReads(HeightItem(), s.watchdog);
    BothReads(SectionOf(HeightItem()), Section(HeightItem(), s.watchdog), s.watchdog,
              TailParser(), Concat(TailFields(s.tail)), s.tail);
    BothReads(SectionOf(HeightItem()), Section(HeightItem(), s.resumed), s.resumed, Both(SectionOf(HeightItem()), TailParser()),
              Section(HeightItem(), s.watchdog) + Concat(TailFields(s.tail)), (s.watchdog, s.tail));
  }

  lemma ReadsE(s: Saved)
    requires CountsFit(s)
    ensures Reads(ParserE(), BytesE(s), (s.escrowed, s.reported))
  {
    AmountFaithful();
    ReportFaithful();
    SectionReads(AmountItem(), s.escrowed);
    SectionReads(ReportItem(), s.reported);
    BothReads(SectionOf(AmountItem()), Section(AmountItem(), s.escrowed), s.escrowed,
              SectionOf(ReportItem()), Section(ReportItem(), s.reported), s.reported);
  }

  lemma ReadsWhole<A, B, C, D, E>(a: Parser<A>, b: Parser<B>, c: Parser<C>, d: Parser<D>, e: Parser<E>,
                                  v: seq<u8>, w: seq<u8>, x: seq<u8>, y: seq<u8>, z: seq<u8>,
                                  va: A, vb: B, vc: C, vd: D, ve: E)
    requires Reads(a, v, va) && Reads(b, w, vb) && Reads(c, x, vc) && Reads(d, y, vd) && Reads(e, z, ve)
    ensures Reads(Both(a, Both(b, Both(c, Both(d, e)))), v + (w + (x + (y + z))), (va, (vb, (vc, (vd, ve)))))
  {
    BothReads(d, y, vd, e, z, ve);
    BothReads(c, x, vc, Both(d, e), y + z, (vd, ve));
    BothReads(b, w, vb, Both(c, Both(d, e)), x + (y + z), (vc, (vd, ve)));
    BothReads(a, v, va, Both(b, Both(c, Both(d, e))), w + (x + (y + z)), (vb, (vc, (vd, ve))));
  }

  function Parted(s: Saved): Parts {
    ((s.head, (s.refs, s.minted)), ((s.paused, (s.cursor, (s.epoch, s.assetEpoch))),
     ((s.nextExit, (s.tickets, s.corridors)), ((s.resumed, (s.watchdog, s.tail)), (s.escrowed, s.reported)))))
  }

  lemma GuardReads(s: Saved)
    requires CountsFit(s)
    ensures Reads(WholeParser(), EncodeGuard(s), Parted(s))
  {
    ReadsA(s);
    ReadsB(s);
    ReadsC(s);
    ReadsD(s);
    ReadsE(s);
    ReadsWhole(ParserA(), ParserB(), ParserC(), ParserD(), ParserE(),
               BytesA(s), BytesB(s), BytesC(s), BytesD(s), BytesE(s),
               (s.head, (s.refs, s.minted)), (s.paused, (s.cursor, (s.epoch, s.assetEpoch))),
               (s.nextExit, (s.tickets, s.corridors)), (s.resumed, (s.watchdog, s.tail)), (s.escrowed, s.reported));
  }

  lemma FinishReads<A>(p: Parser<A>, bytes: seq<u8>, a: A)
    requires Reads(p, bytes, a)
    ensures Finish(p, bytes) == Ok(a)
  {
    assert bytes + [] == bytes;
  }

  lemma GuardFinishes(s: Saved)
    requires CountsFit(s)
    ensures Finish(WholeParser(), EncodeGuard(s)) == Ok(Parted(s))
  {
    GuardReads(s);
    FinishReads(WholeParser(), EncodeGuard(s), Parted(s));
  }

  /** A snapshot reads back field for field: every count passes its bound and nothing is left over. */
  lemma GuardRoundTrip(s: Saved)
    requires CountsFit(s)
    ensures DecodeGuard(EncodeGuard(s)) == Ok(s)
  {
    GuardFinishes(s);
  }
}
