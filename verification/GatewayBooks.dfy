/** What every money operation of the gateway keeps: conservation, caps, references (q-gateway: gateway.rs). */
module GatewayBooks {
  import opened Machine
  import opened Sums
  import opened Attestor
  import opened GatewayState

  /** Everything ever admitted and finalized of each asset, the highest cap each has had, and every exit id issued. */
  datatype History = History(
    admitted: map<Asset, nat>, finalized: map<Asset, nat>, highCap: map<Asset, nat>, issued: set<u64>)

  function Plus(m: map<Asset, nat>, a: Asset, n: nat): map<Asset, nat> {
    m[a := Get(m, a) + n]
  }

  // ---------------------------------------------------------------- the invariant

  ghost predicate Conserved(b: Books, h: History) {
    forall a :: Supply(b, a) + Get(h.finalized, a) == Get(h.admitted, a)
  }

  ghost predicate Capped(b: Books, h: History) {
    forall a :: Supply(b, a) <= Get(h.highCap, a) <= U128_MAX
  }

  /** The epoch counter is the sum over assets and within its cap. */
  ghost predicate EpochOk(b: Books, cap: u128) {
    && b.epochMinted == EpochSum(b.assetEpoch)
    && b.epochMinted <= cap
  }

  ghost function EpochSum(m: map<Asset, u128>): nat {
    var n: map<Asset, nat> := m;
    MapSum(n)
  }

  predicate RefsOk(b: Books) {
    b.refsAnyChain == set k | k in b.usedRefs :: k.ref
  }

  ghost predicate ExitsOk(b: Books, h: History) {
    && (forall id :: id in b.pending ==> id in h.issued && b.pending[id].exitId == id && b.pending[id].asset in b.minted)
    && (forall id :: id in h.issued ==> id < b.nextExit)
  }

  ghost predicate BooksOk(b: Books, h: History, cap: u128) {
    Conserved(b, h) && Capped(b, h) && EpochOk(b, cap) && RefsOk(b) && ExitsOk(b, h)
  }

  // ---------------------------------------------------------------- pending sums

  lemma PendingAdd(pending: map<u64, Ticket>, id: u64, t: Ticket, a: Asset)
    requires id !in pending
    ensures PendingOf(pending[id := t], a) == PendingOf(pending, a) + if t.asset == a then t.amount else 0
  {
    var m: map<u64, nat> := PendingAmounts(pending, a);
    var v: nat := if t.asset == a then t.amount else 0;
    MapSumSet(m, id, v);
    assert PendingAmounts(pending[id := t], a) == m[id := v];
  }

  lemma PendingRemove(pending: map<u64, Ticket>, id: u64, a: Asset)
    requires id in pending
    ensures PendingOf(pending, a) == PendingOf(pending - {id}, a) + if pending[id].asset == a then pending[id].amount else 0
  {
    var m: map<u64, nat> := PendingAmounts(pending, a);
    MapSumRemove(m, id);
    assert PendingAmounts(pending - {id}, a) == m - {id};
  }

  lemma {:induction false} AllZero(m: map<u64, nat>)
    requires forall id :: id in m ==> m[id] == 0
    ensures MapSum(m) == 0
    decreases |m|
  {
    if m != map[] {
      var id :| id in m;
      MapSumRemove(m, id);
      AllZero(m - {id});
    }
  }

  /** An asset never minted has nothing pending. */
  lemma NothingPending(b: Books, h: History, a: Asset)
    requires ExitsOk(b, h) && a !in b.minted
    ensures PendingOf(b.pending, a) == 0
  {
    AllZero(PendingAmounts(b.pending, a));
  }

  /** While supplies are within u128 the source's figure is the supply. */
  lemma FigureExact(b: Books, a: Asset)
    requires Supply(b, a) <= U128_MAX
    ensures SupplyFigure(b, a) == Supply(b, a)
  {}

  // ---------------------------------------------------------------- what each operation does to supplies

  lemma MintSupply(b: Books, key: Key, a: Asset, amount: u128, x: Asset)
    requires Supply(b, a) + amount <= U128_MAX
    ensures Supply(Mint(b, key, a, amount), x) == Supply(b, x) + if x == a then amount else 0
  {}

  lemma RequestSupply(b: Books, t: Ticket, x: Asset)
    requires t.amount <= Get(b.minted, t.asset) && b.nextExit < U64_MAX && b.nextExit !in b.pending
    ensures Supply(Request(b, t), x) == Supply(b, x)
  {
    PendingAdd(b.pending, b.nextExit, t, x);
  }

  lemma FinalizeSupply(b: Books, id: u64, x: Asset)
    requires id in b.pending
    ensures Supply(b, x) == Supply(Finalize(b, id), x) + if b.pending[id].asset == x then b.pending[id].amount else 0
  {
    PendingRemove(b.pending, id, x);
  }

  lemma CancelSupply(b: Books, id: u64, x: Asset)
    requires id in b.pending && Supply(b, b.pending[id].asset) <= U128_MAX
    ensures Supply(Cancel(b, id), x) == Supply(b, x)
  {
    PendingRemove(b.pending, id, x);
    PendingRemove(b.pending, id, b.pending[id].asset);
  }

  // ---------------------------------------------------------------- every operation keeps the invariant

  /** No saturating sum in an admission saturates, and everything is kept. */
  lemma MintKeeps(l: Limits, b: Books, h: History, key: Key, a: Asset, amount: u128)
    requires BooksOk(b, h, l.epochCap) && Caps(l, b, a, amount) == None && l.cap[a] <= Get(h.highCap, a)
    ensures Get(b.minted, a) + amount <= U128_MAX && b.epochMinted + amount <= U128_MAX
    ensures Get(b.assetEpoch, a) + amount <= U128_MAX
    ensures BooksOk(Mint(b, key, a, amount), h.(admitted := Plus(h.admitted, a, amount)), l.epochCap)
  {
    FigureExact(b, a);
    MintEpoch(l, b, key, a, amount);
    MintTotals(l, b, h, key, a, amount);
  }

  lemma MintTotals(l: Limits, b: Books, h: History, key: Key, a: Asset, amount: u128)
    requires Conserved(b, h) && Capped(b, h) && Caps(l, b, a, amount) == None && l.cap[a] <= Get(h.highCap, a)
    ensures Conserved(Mint(b, key, a, amount), h.(admitted := Plus(h.admitted, a, amount)))
    ensures Capped(Mint(b, key, a, amount), h.(admitted := Plus(h.admitted, a, amount)))
  {
    FigureExact(b, a);
    forall x: Asset ensures Supply(Mint(b, key, a, amount), x) == Supply(b, x) + if x == a then amount else 0 {
      MintSupply(b, key, a, amount, x);
    }
  }

  lemma MintEpoch(l: Limits, b: Books, key: Key, a: Asset, amount: u128)
    requires EpochOk(b, l.epochCap) && Caps(l, b, a, amount) == None
    ensures EpochOk(Mint(b, key, a, amount), l.epochCap) && Get(b.assetEpoch, a) + amount <= U128_MAX
  {
    var m: map<Asset, nat> := b.assetEpoch;
    if a in m {
      MapSumMember(m, a);
    }
    MapSumSet(m, a, Get(m, a) + amount);
  }

  lemma RequestKeeps(b: Books, h: History, cap: u128, t: Ticket)
    requires BooksOk(b, h, cap) && t.amount > 0 && t.amount <= Get(b.minted, t.asset) && b.nextExit < U64_MAX
    requires t.exitId == b.nextExit
    ensures t.exitId !in h.issued
    ensures BooksOk(Request(b, t), h.(issued := h.issued + {t.exitId}), cap)
  {
    forall x: Asset ensures Supply(Request(b, t), x) == Supply(b, x) {
      RequestSupply(b, t, x);
    }
  }

  lemma FinalizeKeeps(b: Books, h: History, cap: u128, id: u64)
    requires BooksOk(b, h, cap) && id in b.pending
    ensures BooksOk(Finalize(b, id), h.(finalized := Plus(h.finalized, b.pending[id].asset, b.pending[id].amount)), cap)
  {
    forall x: Asset ensures Supply(b, x) == Supply(Finalize(b, id), x)
        + if b.pending[id].asset == x then b.pending[id].amount else 0
    {
      FinalizeSupply(b, id, x);
    }
  }

  lemma CancelKeeps(b: Books, h: History, cap: u128, id: u64)
    requires BooksOk(b, h, cap) && id in b.pending
    ensures Get(b.minted, b.pending[id].asset) + b.pending[id].amount <= U128_MAX
    ensures BooksOk(Cancel(b, id), h, cap)
  {
    PendingRemove(b.pending, id, b.pending[id].asset);
    forall x: Asset ensures Supply(Cancel(b, id), x) == Supply(b, x) {
      CancelSupply(b, id, x);
    }
  }

  lemma EpochKeeps(b: Books, h: History, cap: u128, epoch: u64)
    requires BooksOk(b, h, cap)
    ensures BooksOk(AdvanceEpoch(b, epoch), h, cap)
  {
    forall x: Asset ensures Supply(AdvanceEpoch(b, epoch), x) == Supply(b, x) {}
  }

  /** Raising the record of the highest cap. */
  lemma CapKeeps(b: Books, h: History, cap: u128, a: Asset, c: u128)
    requires BooksOk(b, h, cap)
    ensures BooksOk(b, h.(highCap := h.highCap[a := Max(Get(h.highCap, a), c)]), cap)
  {}
}
