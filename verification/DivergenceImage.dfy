/** The divergence journal's image and anchor files (q-attestor: operator.rs). */
module DivergenceImage {
  import opened Machine
  import opened Bytes
  import opened Attestor

  const JOURNAL_MAGIC: seq<u8> := [81, 68, 73, 86]
  const JOURNAL_VERSION: u8 := 2
  const JOURNAL_HEADER_LEN: nat := 49
  const JOURNAL_RECORD_LEN: nat := 84
  const JOURNAL_MAX_RECORDS: nat := 0x10_0000
  const ANCHOR_MAGIC: seq<u8> := [81, 68, 86, 72]
  const ANCHOR_LEN: nat := 76

  datatype DivergenceRecord = DivergenceRecord(key: Key, digest: Bytes32, expiryHeight: u64, signedExpiry: u64)

  /** One saved state of the journal. */
  datatype Image = Image(seq_: u64, prev: Bytes32, records: seq<DivergenceRecord>)

  const RECORD_LAYOUT: seq<nat> := [4, 32, 32, 8, 8]
  const HEADER_LAYOUT: seq<nat> := [4, 1, 8, 32, 4]

  lemma Totals()
    ensures Total(RECORD_LAYOUT) == JOURNAL_RECORD_LEN && Total(HEADER_LAYOUT) == JOURNAL_HEADER_LEN
  {}

  function RecordFields(r: DivergenceRecord): seq<seq<u8>> {
    [Le32(r.key.chain), r.key.ref, r.digest, Le64(r.expiryHeight), Le64(r.signedExpiry)]
  }

  function RecordBytes(r: DivergenceRecord): seq<u8> {
    Concat(RecordFields(r))
  }

  function RecordOf(s: seq<u8>): DivergenceRecord
    requires |s| == JOURNAL_RECORD_LEN
  {
    Totals();
    var p := Split(RECORD_LAYOUT, s);
    DivergenceRecord(Key(To32(p[0]), p[1]), p[2], To64(p[3]), To64(p[4]))
  }

  lemma RecordRoundTrip(r: DivergenceRecord)
    ensures |RecordBytes(r)| == JOURNAL_RECORD_LEN && RecordOf(RecordBytes(r)) == r
  {
    Totals();
    SplitConcat(RecordFields(r), RECORD_LAYOUT, []);
    assert RecordBytes(r) + [] == RecordBytes(r);
    Le32RoundTrip(r.key.chain);
    Le64RoundTrip(r.expiryHeight);
    Le64RoundTrip(r.signedExpiry);
  }

  function RecordList(rs: seq<DivergenceRecord>): seq<u8> {
    if rs == [] then [] else RecordList(rs[..|rs| - 1]) + RecordBytes(rs[|rs| - 1])
  }

  function RecordsOf(s: seq<u8>, n: nat): seq<DivergenceRecord>
    requires n * JOURNAL_RECORD_LEN <= |s|
  {
    if n == 0 then []
    else RecordsOf(s, n - 1) + [RecordOf(s[(n - 1) * JOURNAL_RECORD_LEN..n * JOURNAL_RECORD_LEN])]
  }

  lemma {:induction false} RecordListLength(rs: seq<DivergenceRecord>)
    ensures |RecordList(rs)| == |rs| * JOURNAL_RECORD_LEN
  {
    if rs != [] {
      RecordListLength(rs[..|rs| - 1]);
      RecordRoundTrip(rs[|rs| - 1]);
    }
  }

  lemma {:induction false} RecordsIgnoreTail(s: seq<u8>, tail: seq<u8>, n: nat)
    requires n * JOURNAL_RECORD_LEN <= |s|
    ensures RecordsOf(s + tail, n) == RecordsOf(s, n)
  {
    if n > 0 {
      RecordsIgnoreTail(s, tail, n - 1);
      var a, b := (n - 1) * JOURNAL_RECORD_LEN, n * JOURNAL_RECORD_LEN;
      assert (s + tail)[a..b] == s[a..b];
    }
  }

  lemma {:induction false} RecordListRoundTrip(rs: seq<DivergenceRecord>)
    ensures |RecordList(rs)| == |rs| * JOURNAL_RECORD_LEN && RecordsOf(RecordList(rs), |rs|) == rs
  {
    RecordListLength(rs);
    if rs != [] {
      var n := |rs| - 1;
      RecordListRoundTrip(rs[..n]);
      RecordRoundTrip(rs[n]);
      RecordsIgnoreTail(RecordList(rs[..n]), RecordBytes(rs[n]), n);
      assert RecordList(rs)[n * JOURNAL_RECORD_LEN..(n + 1) * JOURNAL_RECORD_LEN] == RecordBytes(rs[n]);
      assert rs[..n] + [rs[n]] == rs;
    }
  }

  function HeaderFields(i: Image): seq<seq<u8>> {
    [JOURNAL_MAGIC, [JOURNAL_VERSION], Le64(i.seq_), i.prev, Le(|i.records|, 4)]
  }

  /** Everything the check covers. */
  function Body(i: Image): seq<u8> {
    Concat(HeaderFields(i)) + RecordList(i.records)
  }

  function Head(h: Hash, i: Image): Bytes32 {
    h(Body(i))
  }

  /** `DivergenceJournal::encode`. */
  function EncodeImage(h: Hash, i: Image): seq<u8> {
    Body(i) + Head(h, i)
  }

  function DecodeBody(body: seq<u8>): Option<Image> {
    if |body| < JOURNAL_HEADER_LEN || body[..4] != JOURNAL_MAGIC || body[4] != JOURNAL_VERSION then None
    else
      Totals();
      var p := Split(HEADER_LAYOUT, body);
      var count, rest := To32(p[4]), body[JOURNAL_HEADER_LEN..];
      if count > JOURNAL_MAX_RECORDS || |rest| != count * JOURNAL_RECORD_LEN then None
      else Some(Image(To64(p[2]), p[3], RecordsOf(rest, count)))
  }

  /** `DivergenceJournal::decode`: the image and its head. */
  function DecodeImage(h: Hash, bytes: seq<u8>): Option<(Image, Bytes32)> {
    if |bytes| < 32 then None
    else
      var body, check := bytes[..|bytes| - 32], bytes[|bytes| - 32..];
      if h(body) != check then None
      else
        var i := DecodeBody(body);
        if i.None? then None else Some((i.value, check))
  }

  lemma HeaderReads(i: Image)
    ensures var body := Body(i);
      && |body| == JOURNAL_HEADER_LEN + |RecordList(i.records)|
      && Split(HEADER_LAYOUT, body) == HeaderFields(i) && body[JOURNAL_HEADER_LEN..] == RecordList(i.records)
      && body[..4] == JOURNAL_MAGIC && body[4] == JOURNAL_VERSION
  {
    Totals();
    var p := HeaderFields(i);
    var body := Body(i);
    SplitConcat(p, HEADER_LAYOUT, RecordList(i.records));
    assert body[..4] == p[0];
    assert body[4..][..1] == p[1];
  }

  lemma CountReads(n: nat)
    ensures n <= JOURNAL_MAX_RECORDS ==> To32(Le(n, 4)) == n
    ensures To32(Le(n, 4)) * JOURNAL_RECORD_LEN == n * JOURNAL_RECORD_LEN ==> To32(Le(n, 4)) == n
  {
    Widths();
    if n <= JOURNAL_MAX_RECORDS {
      LeRoundTrip(n, 4);
    }
  }

  lemma BodyRoundTrip(i: Image)
    ensures DecodeBody(Body(i)) == if |i.records| <= JOURNAL_MAX_RECORDS then Some(i) else None
  {
    HeaderReads(i);
    RecordListRoundTrip(i.records);
    CountReads(|i.records|);
    Le64RoundTrip(i.seq_);
  }

  /** A saved image of at most the record limit reads back as itself; a longer one is refused. */
  lemma ImageRoundTrip(h: Hash, i: Image)
    ensures DecodeImage(h, EncodeImage(h, i))
         == if |i.records| <= JOURNAL_MAX_RECORDS then Some((i, Head(h, i))) else None
  {
    TrailingCheck(Body(i), Head(h, i));
    BodyRoundTrip(i);
  }

  lemma TrailingCheck(body: seq<u8>, check: Bytes32)
    ensures (body + check)[..|body + check| - 32] == body && (body + check)[|body + check| - 32..] == check
  {}

  /** `encode_anchor`. */
  function AnchorBody(n: u64, head: Bytes32): seq<u8> {
    ANCHOR_MAGIC + Le64(n) + head
  }

  function EncodeAnchor(h: Hash, n: u64, head: Bytes32): seq<u8> {
    AnchorBody(n, head) + h(AnchorBody(n, head))
  }

  /** `decode_anchor`. */
  function DecodeAnchor(h: Hash, bytes: seq<u8>): Option<(u64, Bytes32)> {
    if |bytes| != ANCHOR_LEN || bytes[..4] != ANCHOR_MAGIC || h(bytes[..44]) != bytes[44..] then None
    else Some((To64(bytes[4..12]), bytes[12..44]))
  }

  lemma AnchorRoundTrip(h: Hash, n: u64, head: Bytes32)
    ensures DecodeAnchor(h, EncodeAnchor(h, n, head)) == Some((n, head))
  {
    var body := AnchorBody(n, head);
    var bytes := EncodeAnchor(h, n, head);
    assert |body| == 44 && bytes[..44] == body && bytes[44..] == h(body);
    assert bytes[..4] == ANCHOR_MAGIC && bytes[4..12] == Le64(n) && bytes[12..44] == head;
    Le64RoundTrip(n);
  }

  // ---------------------------------------------------------------- the loops

  /** The record loop of `encode`. */
  method WriteImage(h: Hash, i: Image) returns (out: seq<u8>)
    ensures out == EncodeImage(h, i)
  {
    var header := Concat(HeaderFields(i));
    var buf := header;
    for k := 0 to |i.records|
      invariant buf == header + RecordList(i.records[..k])
    {
      assert i.records[..k + 1][..k] == i.records[..k];
      buf := buf + RecordBytes(i.records[k]);
    }
    assert i.records[..|i.records|] == i.records;
    out := buf + h(buf);
  }

  /** The chunk loop of `decode`. */
  method ReadRecords(rest: seq<u8>, count: nat) returns (records: seq<DivergenceRecord>)
    requires |rest| == count * JOURNAL_RECORD_LEN
    ensures records == RecordsOf(rest, count)
  {
    records := [];
    for k := 0 to count
      invariant records == RecordsOf(rest, k)
    {
      records := records + [RecordOf(rest[k * JOURNAL_RECORD_LEN..(k + 1) * JOURNAL_RECORD_LEN])];
    }
  }
}
