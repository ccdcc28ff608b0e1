/** The administrative audit log: encoded entries, their hash chain and its verification (q-runtime: persist.rs). */
module Audit {
  import opened Machine
  import opened Bytes
  import opened Facts
  import opened Codec

  const AUDIT_HEADER: seq<u8> := [81, 65, 68, 77, 1]

  /** The keyed tag under the audit domain. Nothing is assumed of it. */
  type Tag = seq<u8> -> Bytes32

  datatype Sig = Sig(operator: u32, signature: seq<u8>)

  /** An administrative action and the signatures that authorised it. */
  datatype Entry = Entry(action: seq<u8>, sigs: seq<Sig>)

  datatype AuditError = EmptyButAnchored | UnknownHeader | Torn | HashMismatch | Malformed | ChainBroken | AnchorDiffers | Truncated

  // ---------------------------------------------------------------- entries

  function SigBytes(s: Sig): seq<u8> {
    Le(s.operator, 4) + (Le(|s.signature|, 4) + s.signature)
  }

  function SigList(sigs: seq<Sig>): seq<u8> {
    if sigs == [] then [] else SigBytes(sigs[0]) + SigList(sigs[1..])
  }

  function Content(e: Entry): seq<u8> {
    (Le(|e.action|, 4) + e.action) + (Le(|e.sigs|, 4) + SigList(e.sigs))
  }

  /** What an entry's tag covers. */
  function Body(n: nat, prev: Bytes32, e: Entry): seq<u8> {
    Le(n, 8) + (prev + Content(e))
  }

  /** `audit_entry`. */
  function Frame(h: Tag, n: nat, prev: Bytes32, e: Entry): seq<u8> {
    var body := Body(n, prev, e);
    (Le(|body|, 4) + body) + h(body)
  }

  predicate SigsFit(sigs: seq<Sig>) {
    forall i :: 0 <= i < |sigs| ==> |sigs[i].signature| < 0x1_0000_0000
  }

  /** Every length fits its prefix, so nothing panics. */
  predicate Fits(n: nat, prev: Bytes32, e: Entry) {
    && n <= U64_MAX && |e.action| < 0x1_0000_0000 && |e.sigs| < 0x1_0000_0000 && SigsFit(e.sigs)
    && |Body(n, prev, e)| < 0x1_0000_0000
  }

  function TakeSig(s: seq<u8>): Option<(Sig, seq<u8>)> {
    var id := TakeLe(s, 4);
    if id.Err? then None
    else
      var sig := TakeBytes(id.value.1, 4);
      if sig.Err? then None else Widths(); Some((Sig(id.value.0, sig.value.0), sig.value.1))
  }

  function TakeSigs(s: seq<u8>, n: nat): Option<(seq<Sig>, seq<u8>)> {
    if n == 0 then Some(([], s))
    else
      var one := TakeSig(s);
      if one.None? then None
      else
        var rest := TakeSigs(one.value.1, n - 1);
        if rest.None? then None else Some(([one.value.0] + rest.value.0, rest.value.1))
  }

  /** The part of a body after its number and link, which must be used up. */
  function TakeContent(s: seq<u8>): Option<Entry> {
    var action := TakeBytes(s, 4);
    if action.Err? then None
    else
      var count := TakeLe(action.value.1, 4);
      if count.Err? then None
      else
        var sigs := TakeSigs(count.value.1, count.value.0);
        if sigs.None? || sigs.value.1 != [] then None else Some(Entry(action.value.0, sigs.value.0))
  }

  lemma SigReads(s: Sig, tail: seq<u8>)
    requires |s.signature| < 0x1_0000_0000
    ensures TakeSig(SigBytes(s) + tail) == Some((s, tail))
  {
    Widths();
    TakeBytesConcat(s.signature, 4, tail);
    TakeLeConcat(s.operator, 4, Le(|s.signature|, 4) + s.signature + tail);
    assert SigBytes(s) + tail == Le(s.operator, 4) + (Le(|s.signature|, 4) + s.signature + tail);
  }

  lemma {:induction false} SigsRead(sigs: seq<Sig>, rest: seq<u8>)
    requires SigsFit(sigs)
    ensures TakeSigs(SigList(sigs) + rest, |sigs|) == Some((sigs, rest))
  {
    if sigs == [] {
      assert SigList(sigs) + rest == rest;
    } else {
      var tail := SigList(sigs[1..]) + rest;
      SigsRead(sigs[1..], rest);
      SigReads(sigs[0], tail);
      SigsTurn(SigBytes(sigs[0]) + tail, |sigs|, sigs[0], tail, sigs[1..], rest);
      assert [sigs[0]] + sigs[1..] == sigs;
      SigsCons(sigs[0], sigs[1..], rest);
    }
  }

  lemma SigsTurn(s: seq<u8>, n: nat, x: Sig, after: seq<u8>, tail: seq<Sig>, rest: seq<u8>)
    requires n > 0 && TakeSig(s) == Some((x, after)) && TakeSigs(after, n - 1) == Some((tail, rest))
    ensures TakeSigs(s, n) == Some(([x] + tail, rest))
  {}

  lemma SigWritten(s: seq<u8>)
    requires TakeSig(s).Some?
    ensures var (x, rest) := TakeSig(s).value; |x.signature| < 0x1_0000_0000 && s == SigBytes(x) + rest
  {
    Widths();
    TakeLeInverse(s, 4);
    var id := TakeLe(s, 4).value;
    TakeBytesInverse(id.1, 4);
    var (x, rest) := TakeSig(s).value;
    assert s == Le(x.operator, 4) + (Le(|x.signature|, 4) + x.signature + rest);
  }

  lemma {:induction false} SigsWritten(s: seq<u8>, n: nat)
    requires TakeSigs(s, n).Some?
    ensures var (sigs, rest) := TakeSigs(s, n).value; |sigs| == n && SigsFit(sigs) && s == SigList(sigs) + rest
  {
    if n > 0 {
      SigWritten(s);
      var (x, after) := TakeSig(s).value;
      SigsWritten(after, n - 1);
      var (tail, rest) := TakeSigs(after, n - 1).value;
      SigsCons(x, tail, rest);
      assert s == SigBytes(x) + (SigList(tail) + rest);
    }
  }

  lemma SigsCons(x: Sig, tail: seq<Sig>, rest: seq<u8>)
    ensures SigList([x] + tail) + rest == SigBytes(x) + (SigList(tail) + rest)
  {
    assert ([x] + tail)[1..] == tail;
  }

  lemma ContentReads(e: Entry)
    requires |e.action| < 0x1_0000_0000 && |e.sigs| < 0x1_0000_0000 && SigsFit(e.sigs)
    ensures TakeContent(Content(e)) == Some(e)
  {
    Widths();
    var after := Le(|e.sigs|, 4) + SigList(e.sigs);
    TakeBytesConcat(e.action, 4, after);
    TakeLeConcat(|e.sigs|, 4, SigList(e.sigs));
    SigsRead(e.sigs, []);
    assert SigList(e.sigs) + [] == SigList(e.sigs);
  }

  lemma ContentWritten(s: seq<u8>)
    requires TakeContent(s).Some?
    ensures var e := TakeContent(s).value;
      |e.action| < 0x1_0000_0000 && |e.sigs| < 0x1_0000_0000 && SigsFit(e.sigs) && s == Content(e)
  {
    Widths();
    TakeBytesInverse(s, 4);
    var (action, after) := TakeBytes(s, 4).value;
    TakeLeInverse(after, 4);
    var (count, list) := TakeLe(after, 4).value;
    SigsWritten(list, count);
    var e := TakeContent(s).value;
    assert SigList(e.sigs) + [] == SigList(e.sigs);
  }

  // ---------------------------------------------------------------- one entry of the chain

  /** The checks of one turn of the loop: the tag and what follows, or why not. */
  function TakeEntry(h: Tag, s: seq<u8>, next: nat, head: Bytes32): Result<(Bytes32, seq<u8>), AuditError> {
    var body := TakeBytes(s, 4);
    if body.Err? then Err(Torn)
    else
      var tag := Take(body.value.1, 32);
      if tag.Err? then Err(Torn)
      else if h(body.value.0) != tag.value.0 then Err(HashMismatch)
      else
        var why := CheckBody(body.value.0, next, head);
        if why.Some? then Err(why.value) else Ok((tag.value.0, tag.value.1))
  }

  function CheckBody(body: seq<u8>, next: nat, head: Bytes32): Option<AuditError> {
    if |body| < 40 then Some(Malformed)
    else if FromLe(body[..8]) != next || body[8..40] != head then Some(ChainBroken)
    else if TakeContent(body[40..]).None? then Some(Malformed)
    else None
  }

  lemma BodySlices(n: nat, prev: Bytes32, c: seq<u8>)
    ensures var b := Le(n, 8) + (prev + c); |b| >= 40 && b[..8] == Le(n, 8) && b[8..40] == prev && b[40..] == c
  {}

  lemma BodyReads(n: nat, prev: Bytes32, e: Entry)
    requires Fits(n, prev, e)
    ensures CheckBody(Body(n, prev, e), n, prev) == None
  {
    Widths();
    BodySlices(n, prev, Content(e));
    LeRoundTrip(n, 8);
    ContentReads(e);
  }

  lemma BodyWritten(body: seq<u8>, next: nat, head: Bytes32)
    requires CheckBody(body, next, head) == None
    ensures next <= U64_MAX && TakeContent(body[40..]).Some?
    ensures var e := TakeContent(body[40..]).value; body == Body(next, head, e)
  {
    Widths();
    var e := TakeContent(body[40..]).value;
    ContentWritten(body[40..]);
    LeOfFromLe(body[..8]);
    assert body == body[..8] + (body[8..40] + body[40..]);
  }

  lemma EntryReads(h: Tag, n: nat, prev: Bytes32, e: Entry, rest: seq<u8>)
    requires Fits(n, prev, e)
    ensures TakeEntry(h, Frame(h, n, prev, e) + rest, n, prev) == Ok((h(Body(n, prev, e)), rest))
  {
    Widths();
    var body := Body(n, prev, e);
    TakeBytesConcat(body, 4, h(body) + rest);
    TakeConcat(h(body), rest);
    BodyReads(n, prev, e);
    assert Frame(h, n, prev, e) + rest == Le(|body|, 4) + body + (h(body) + rest);
  }

  /** An accepted entry is the encoding of one, under its number and link. */
  lemma EntryWritten(h: Tag, s: seq<u8>, next: nat, head: Bytes32) returns (e: Entry)
    requires TakeEntry(h, s, next, head).Ok?
    ensures Fits(next, head, e) && TakeEntry(h, s, next, head).value.0 == h(Body(next, head, e))
    ensures s == Frame(h, next, head, e) + TakeEntry(h, s, next, head).value.1
  {
    Widths();
    var (body, after) := TakeBytes(s, 4).value;
    TakeBytesInverse(s, 4);
    BodyWritten(body, next, head);
    ContentWritten(body[40..]);
    e := TakeContent(body[40..]).value;
    var (tag, rest) := Take(after, 32).value;
    assert after == tag + rest;
  }

  // ---------------------------------------------------------------- the log

  /** How entries are framed, tagged and read. */
  datatype Coding = Coding(
    frame: (nat, Bytes32, Entry) -> seq<u8>, tag: (nat, Bytes32, Entry) -> Bytes32, fits: (nat, Bytes32, Entry) -> bool,
    take: (seq<u8>, nat, Bytes32) -> Result<(Bytes32, seq<u8>), AuditError>)

  /** The coding the source uses. */
  function AuditCoding(h: Tag): Coding {
    Coding((n: nat, prev: Bytes32, e: Entry) => Frame(h, n, prev, e), (n: nat, prev: Bytes32, e: Entry) => h(Body(n, prev, e)),
           (n: nat, prev: Bytes32, e: Entry) => Fits(n, prev, e),
           (s: seq<u8>, n: nat, prev: Bytes32) => TakeEntry(h, s, n, prev))
  }

  /** Encoded entries read back; whatever reads is an encoded entry; an entry takes up room. */
  ghost predicate Faithful(c: Coding) {
    && (forall n: nat, prev: Bytes32, e: Entry, rest: seq<u8> {:trigger c.frame(n, prev, e) + rest} :: c.fits(n, prev, e) ==>
          c.frame(n, prev, e) + rest != [] && c.take(c.frame(n, prev, e) + rest, n, prev) == Ok((c.tag(n, prev, e), rest)))
    && (forall s: seq<u8>, n: nat, prev: Bytes32 {:trigger c.take(s, n, prev)} :: c.take(s, n, prev).Ok? ==>
          |c.take(s, n, prev).value.1| < |s| && exists e: Entry :: Reads(c, s, n, prev, e))
  }

  predicate Reads(c: Coding, s: seq<u8>, n: nat, prev: Bytes32, e: Entry) {
    && c.fits(n, prev, e) && c.take(s, n, prev).Ok? && c.take(s, n, prev).value.0 == c.tag(n, prev, e)
    && s == c.frame(n, prev, e) + c.take(s, n, prev).value.1
  }

  lemma AuditCodingFaithful(h: Tag)
    ensures Faithful(AuditCoding(h))
  {
    var c := AuditCoding(h);
    forall n: nat, prev: Bytes32, e: Entry, rest: seq<u8> | c.fits(n, prev, e)
      ensures c.frame(n, prev, e) + rest != [] && c.take(c.frame(n, prev, e) + rest, n, prev) == Ok((c.tag(n, prev, e), rest))
    {
      EntryReads(h, n, prev, e, rest);
    }
    forall s: seq<u8>, n: nat, prev: Bytes32 | c.take(s, n, prev).Ok?
      ensures |c.take(s, n, prev).value.1| < |s| && exists e: Entry :: Reads(c, s, n, prev, e)
    {
      var e := EntryWritten(h, s, n, prev);
      assert Reads(c, s, n, prev, e);
    }
  }

  /** The last tag of a chain that goes on from entry `n`, tagged `head`. */
  function HeadFrom(c: Coding, n: nat, head: Bytes32, es: seq<Entry>): Bytes32
    decreases |es|
  {
    if es == [] then head else HeadFrom(c, n + 1, c.tag(n + 1, head, es[0]), es[1..])
  }

  function Frames(c: Coding, n: nat, head: Bytes32, es: seq<Entry>): seq<u8>
    decreases |es|
  {
    if es == [] then [] else c.frame(n + 1, head, es[0]) + Frames(c, n + 1, c.tag(n + 1, head, es[0]), es[1..])
  }

  predicate AllFit(c: Coding, n: nat, head: Bytes32, es: seq<Entry>)
    decreases |es|
  {
    es != [] ==> c.fits(n + 1, head, es[0]) && AllFit(c, n + 1, c.tag(n + 1, head, es[0]), es[1..])
  }

  /** The file after entries were appended, and its last tag. */
  function Log(c: Coding, es: seq<Entry>): seq<u8> {
    AUDIT_HEADER + Frames(c, 0, ZERO32, es)
  }

  function Head(c: Coding, es: seq<Entry>): Bytes32 {
    HeadFrom(c, 0, ZERO32, es)
  }

  predicate Writable(c: Coding, es: seq<Entry>) {
    AllFit(c, 0, ZERO32, es)
  }

  /** The loop of `verify_audit` from entry `n` on; the test of the length stops a coding that reads nothing. */
  function VerifyFrom(c: Coding, s: seq<u8>, n: nat, head: Bytes32, anchor: (u64, Bytes32), anchored: bool):
    Result<(nat, Bytes32), AuditError>
    decreases |s|
  {
    if s == [] then (if anchored then Ok((n, head)) else Err(Truncated))
    else
      var entry := c.take(s, n + 1, head);
      if entry.Err? then Err(entry.error)
      else if |entry.value.1| >= |s| then Err(Torn)
      else if n + 1 == anchor.0 && entry.value.0 != anchor.1 then Err(AnchorDiffers)
      else VerifyFrom(c, entry.value.1, n + 1, entry.value.0, anchor, anchored || n + 1 == anchor.0)
  }

  /** `verify_audit`. */
  function VerifyAudit(c: Coding, bytes: seq<u8>, anchor: (u64, Bytes32)): Result<(nat, Bytes32), AuditError> {
    if bytes == [] then (if anchor.0 != 0 then Err(EmptyButAnchored) else Ok((0, ZERO32)))
    else if |bytes| < 5 || bytes[..5] != AUDIT_HEADER then Err(UnknownHeader)
    else VerifyFrom(c, bytes[5..], 0, ZERO32, anchor, anchor.0 == 0)
  }

  /** A chain passes through an anchor: the anchored entry is there and has the anchored tag. Anchor zero is anywhere. */
  predicate Passes(c: Coding, es: seq<Entry>, anchor: (u64, Bytes32)) {
    anchor.0 == 0 || (anchor.0 <= |es| && Head(c, es[..anchor.0]) == anchor.1)
  }

  /** The same, of the rest of a chain. */
  predicate PassesFrom(c: Coding, n: nat, head: Bytes32, es: seq<Entry>, anchor: (u64, Bytes32)) {
    || anchor.0 <= n
    || (anchor.0 - n <= |es| && HeadFrom(c, n, head, es[..anchor.0 - n]) == anchor.1)
  }

  lemma PassesNext(c: Coding, n: nat, head: Bytes32, es: seq<Entry>, anchor: (u64, Bytes32))
    requires es != [] && n < anchor.0
    ensures var tag := c.tag(n + 1, head, es[0]);
      PassesFrom(c, n, head, es, anchor) <==>
      if n + 1 == anchor.0 then tag == anchor.1 else PassesFrom(c, n + 1, tag, es[1..], anchor)
  {
    var k := anchor.0 - n;
    if k <= |es| {
      assert es[..k][0] == es[0] && es[..k][1..] == es[1..][..k - 1];
      var tag := c.tag(n + 1, head, es[0]);
      assert HeadFrom(c, n, head, es[..k]) == HeadFrom(c, n + 1, tag, es[1..][..k - 1]);
      if k == 1 {
        assert es[1..][..0] == [];
      }
    }
  }

  lemma ChainStep(c: Coding, n: nat, head: Bytes32, es: seq<Entry>, anchor: (u64, Bytes32), anchored: bool)
    requires Faithful(c) && AllFit(c, n, head, es) && es != []
    ensures var tag := c.tag(n + 1, head, es[0]);
      VerifyFrom(c, Frames(c, n, head, es), n, head, anchor, anchored)
      == if n + 1 == anchor.0 && tag != anchor.1 then Err(AnchorDiffers)
         else VerifyFrom(c, Frames(c, n + 1, tag, es[1..]), n + 1, tag, anchor, anchored || n + 1 == anchor.0)
  {
    var tag := c.tag(n + 1, head, es[0]);
    var rest := Frames(c, n + 1, tag, es[1..]);
    var s := c.frame(n + 1, head, es[0]) + rest;
    assert c.take(s, n + 1, head) == Ok((tag, rest));
  }

  /** What the loop makes of an unbroken chain. */
  lemma {:induction false} ChainVerifies(c: Coding, n: nat, head: Bytes32, es: seq<Entry>, anchor: (u64, Bytes32))
    requires Faithful(c) && AllFit(c, n, head, es)
    ensures var r := VerifyFrom(c, Frames(c, n, head, es), n, head, anchor, anchor.0 <= n);
      && (r.Ok? <==> PassesFrom(c, n, head, es, anchor))
      && (r.Ok? ==> r.value == (n + |es|, HeadFrom(c, n, head, es)))
    decreases |es|
  {
    if es != [] {
      ChainStep(c, n, head, es, anchor, anchor.0 <= n);
      if n < anchor.0 {
        PassesNext(c, n, head, es, anchor);
      }
      if !(n + 1 == anchor.0 && c.tag(n + 1, head, es[0]) != anchor.1) {
        ChainVerifies(c, n + 1, c.tag(n + 1, head, es[0]), es[1..], anchor);
      }
    }
  }

  lemma Headed(c: Coding, es: seq<Entry>)
    ensures var b := Log(c, es); |b| >= 5 && b[..5] == AUDIT_HEADER && b[5..] == Frames(c, 0, ZERO32, es)
  {}

  /** A log of completed appends opens against an anchor exactly when the chain passes through it. */
  lemma LogOpens(c: Coding, es: seq<Entry>, anchor: (u64, Bytes32))
    requires Faithful(c) && Writable(c, es)
    ensures VerifyAudit(c, Log(c, es), anchor).Ok? <==> Passes(c, es, anchor)
    ensures Passes(c, es, anchor) ==> VerifyAudit(c, Log(c, es), anchor) == Ok((|es|, Head(c, es)))
  {
    Headed(c, es);
    ChainVerifies(c, 0, ZERO32, es, anchor);
  }

  /** Accepted bytes are an unbroken chain of encoded entries. */
  lemma {:induction false} ChainFound(c: Coding, s: seq<u8>, n: nat, head: Bytes32, anchor: (u64, Bytes32), anchored: bool)
    returns (es: seq<Entry>)
    requires Faithful(c) && VerifyFrom(c, s, n, head, anchor, anchored).Ok?
    ensures AllFit(c, n, head, es) && s == Frames(c, n, head, es)
    decreases |s|
  {
    if s == [] {
      es := [];
    } else {
      var e :| Reads(c, s, n + 1, head, e);
      var tag := c.tag(n + 1, head, e);
      var tail := ChainFound(c, c.take(s, n + 1, head).value.1, n + 1, tag, anchor, anchored || n + 1 == anchor.0);
      es := [e] + tail;
      assert es[1..] == tail;
    }
  }

  /** `verify_audit` accepts exactly an empty log under anchor zero, or a header and an unbroken chain of encoded entries
      that passes through the anchor. */
  lemma AcceptedExactly(c: Coding, bytes: seq<u8>, anchor: (u64, Bytes32))
    requires Faithful(c)
    ensures VerifyAudit(c, bytes, anchor).Ok? <==>
      || (bytes == [] && anchor.0 == 0)
      || exists es: seq<Entry> :: Writable(c, es) && bytes == Log(c, es) && Passes(c, es, anchor)
  {
    if VerifyAudit(c, bytes, anchor).Ok? && bytes != [] {
      var es := ChainFound(c, bytes[5..], 0, ZERO32, anchor, anchor.0 == 0);
      assert bytes == bytes[..5] + bytes[5..] == Log(c, es);
      LogOpens(c, es, anchor);
    }
    forall es: seq<Entry> | Writable(c, es) && bytes == Log(c, es) && Passes(c, es, anchor)
      ensures VerifyAudit(c, bytes, anchor).Ok?
    {
      LogOpens(c, es, anchor);
    }
  }

  /** A log with more completed appends still opens against the anchor of any earlier moment. */
  lemma LaterLogOpens(c: Coding, es: seq<Entry>, k: nat)
    requires Faithful(c) && Writable(c, es) && k <= |es| && k <= U64_MAX
    ensures VerifyAudit(c, Log(c, es), (k, Head(c, es[..k]))) == Ok((|es|, Head(c, es)))
  {
    LogOpens(c, es, (k, Head(c, es[..k])));
  }

  /** And one cut before the anchor is refused, whatever was cut. */
  lemma CutLogRefused(c: Coding, es: seq<Entry>, anchor: (u64, Bytes32))
    requires Faithful(c) && Writable(c, es) && anchor.0 > |es|
    ensures VerifyAudit(c, Log(c, es), anchor).Err?
  {
    LogOpens(c, es, anchor);
  }

  /** `verify_audit` as its loop: number, head and anchored flag carried along. */
  method Verify(c: Coding, bytes: seq<u8>, anchor: (u64, Bytes32)) returns (r: Result<(nat, Bytes32), AuditError>)
    ensures r == VerifyAudit(c, bytes, anchor)
  {
    if bytes == [] {
      return if anchor.0 != 0 then Err(EmptyButAnchored) else Ok((0, ZERO32));
    }
    if |bytes| < 5 || bytes[..5] != AUDIT_HEADER {
      return Err(UnknownHeader);
    }
    var rest, n, head, anchored := bytes[5..], 0, ZERO32, anchor.0 == 0;
    while rest != []
      invariant VerifyFrom(c, bytes[5..], 0, ZERO32, anchor, anchor.0 == 0) == VerifyFrom(c, rest, n, head, anchor, anchored)
      decreases |rest|
    {
      var entry := c.take(rest, n + 1, head);
      if entry.Err? {
        return Err(entry.error);
      }
      if |entry.value.1| >= |rest| {
        return Err(Torn);
      }
      if n + 1 == anchor.0 {
        if entry.value.0 != anchor.1 {
          return Err(AnchorDiffers);
        }
        anchored := true;
      }
      n, head, rest := n + 1, entry.value.0, entry.value.1;
    }
    return if anchored then Ok((n, head)) else Err(Truncated);
  }

  // ---------------------------------------------------------------- appending

  lemma {:induction false} FramesAppend(c: Coding, n: nat, head: Bytes32, es: seq<Entry>, e: Entry)
    ensures Frames(c, n, head, es + [e]) == Frames(c, n, head, es) + c.frame(n + |es| + 1, HeadFrom(c, n, head, es), e)
    ensures HeadFrom(c, n, head, es + [e]) == c.tag(n + |es| + 1, HeadFrom(c, n, head, es), e)
    decreases |es|
  {
    if es == [] {
      assert es + [e] == [e] && [e][1..] == [];
    } else {
      assert (es + [e])[1..] == es[1..] + [e];
      FramesAppend(c, n + 1, c.tag(n + 1, head, es[0]), es[1..], e);
    }
  }

  /** How an append to the file can end: written; written, and a sync of the directory would fail; failed and cut back;
      failed and not cut back, some bytes there. */
  datatype AppendEnd = Appended | Unsynced | CutBack | LeftTorn(bytes: nat)

  class AuditLog {
    const coding: Coding
    var file: seq<u8>
    var count: nat
    var head: Bytes32
    var length: nat
    /** The entries whose appends completed. */
    ghost var entries: seq<Entry>

    ghost predicate Valid()
      reads this
    {
      && count == |entries| && head == Head(coding, entries)
      && length == if entries == [] then 0 else |Log(coding, entries)|
    }

    /** The file is what the log remembers. */
    ghost predicate Intact()
      reads this
    {
      file == if entries == [] then [] else Log(coding, entries)
    }

    constructor (coding: Coding)
      ensures Valid() && Intact() && entries == [] && this.coding == coding
    {
      this.coding := coding;
      file, count, head, length, entries := [], 0, ZERO32, 0, [];
    }

    /** The frames of `records` after what is there, chained on. */
    method Chain(records: seq<Entry>) returns (out: seq<u8>, newHead: Bytes32)
      requires Valid()
      ensures Frames(coding, 0, ZERO32, entries + records) == Frames(coding, 0, ZERO32, entries) + out
      ensures newHead == Head(coding, entries + records)
    {
      out, newHead := [], head;
      assert entries + records[..0] == entries;
      for i := 0 to |records|
        invariant Frames(coding, 0, ZERO32, entries + records[..i]) == Frames(coding, 0, ZERO32, entries) + out
        invariant newHead == Head(coding, entries + records[..i])
      {
        FramesAppend(coding, 0, ZERO32, entries + records[..i], records[i]);
        assert entries + records[..i] + [records[i]] == entries + records[..i + 1];
        out := out + coding.frame(count + i + 1, newHead, records[i]);
        newHead := coding.tag(count + i + 1, newHead, records[i]);
      }
      assert records[..|records|] == records;
    }

    /** `record_admin`: all records land, or none. The directory of a new file is synced after the log has moved on: an
        error leaves the records in the log exactly when the file was new and that sync failed. A file changed behind the
        log's back is refused. */
    method RecordAdmin(records: seq<Entry>, end: AppendEnd) returns (ok: bool)
      requires Valid()
      modifies this
      ensures Valid()
      ensures entries == old(entries) || (entries == old(entries) + records && records != [])
      ensures entries == old(entries) + records
         <==> records == [] || (|old(file)| == old(length) && (end.Appended? || end.Unsynced?))
      ensures ok
         <==> records == [] || (|old(file)| == old(length) && (end.Appended? || (end.Unsynced? && old(entries) != [])))
      ensures !ok && entries != old(entries)
         <==> records != [] && |old(file)| == old(length) && end.Unsynced? && old(entries) == []
      ensures old(Intact()) && !(records != [] && end.LeftTorn?) ==> Intact()
    {
      if records == [] {
        assert entries + records == entries;
        return true;
      }
      assert |entries + records| > |entries|;
      var out, newHead := Chain(records);
      if length == 0 {
        assert entries == [] && entries + records == records && Frames(coding, 0, ZERO32, entries) == [];
        assert [] + out == out;
        out := AUDIT_HEADER + out;
      }
      if |file| != length {
        return false;
      }
      if end.CutBack? || end.LeftTorn? {
        if end.LeftTorn? {
          file := file + (if end.bytes <= |out| then out[..end.bytes] else out);
        }
        return false;
      }
      AppendedLog(coding, entries, records, out);
      var created := length == 0;
      file := file + out;
      length := length + |out|;
      count := count + |records|;
      head := newHead;
      entries := entries + records;
      return !created || end.Appended?;
    }
  }

  lemma AppendedLog(c: Coding, es: seq<Entry>, records: seq<Entry>, out: seq<u8>)
    requires records != []
    requires es == [] ==> out == Log(c, records)
    requires es != [] ==> Frames(c, 0, ZERO32, es + records) == Frames(c, 0, ZERO32, es) + out
    ensures (if es == [] then [] else Log(c, es)) + out == Log(c, es + records)
  {
    if es == [] {
      assert es + records == records;
    }
  }
}
