/** The journal file: header, tagged frames chained from a genesis tag, and loading (q-exits: journal.rs). */
module JournalFile {
  import opened Machine
  import opened Bytes
  import opened ExitTypes
  import opened JournalCodec

  /** The keyed state tag, domain and body to 32 bytes. Nothing is assumed of it. */
  type Mac = (seq<u8>, seq<u8>) -> Bytes32

  /** How bodies are written and read, and the tag function. */
  datatype Format = Format(enc: Event -> seq<u8>, dec: seq<u8> -> Result<Event, ExitError>, mac: Mac)

  ghost predicate Faithful(c: Format) {
    forall e {:trigger c.enc(e)} :: |c.enc(e)| == FRAME_META && c.dec(c.enc(e)) == Ok(e)
  }

  /** The format the source uses. */
  function JournalFormat(mac: Mac): Format {
    Format(e => BodyOf(e), meta => DecodeMeta(meta), mac)
  }

  lemma JournalFormatFaithful(mac: Mac)
    ensures Faithful(JournalFormat(mac))
  {
    var c := JournalFormat(mac);
    forall e ensures |c.enc(e)| == FRAME_META && c.dec(c.enc(e)) == Ok(e) {
      BodyRoundTrip(e);
    }
  }

  const MAGIC: seq<u8> := [0x51, 0x58, 0x45, 0x4A]
  const JOURNAL_VERSION: u8 := 3
  const HEADER_LEN: nat := 45
  const FRAME_LEN: nat := 214

  const DOMAIN: seq<u8> := [101, 120, 105, 116, 45, 106, 111, 117, 114, 110, 97, 108]
  const GENESIS_DOMAIN: seq<u8> := DOMAIN + [45, 103, 101, 110, 101, 115, 105, 115]

  function Genesis(c: Format): Bytes32 {
    c.mac(GENESIS_DOMAIN, MAGIC + [JOURNAL_VERSION])
  }

  function ChainTag(c: Format, prev: Bytes32, n: nat, meta: seq<u8>): Bytes32 {
    c.mac(DOMAIN, prev + Le(n, 8) + meta)
  }

  function FrameOf(c: Format, e: Event, n: nat, prev: Bytes32): seq<u8> {
    c.enc(e) + ChainTag(c, prev, n, c.enc(e))
  }

  function DecodeFrame(c: Format, frame: seq<u8>, n: nat, prev: Bytes32): Result<Event, ExitError> {
    if |frame| != FRAME_LEN then Err(PersistFailed)
    else if frame[FRAME_META..] != ChainTag(c, prev, n, frame[..FRAME_META]) then Err(PersistFailed)
    else c.dec(frame[..FRAME_META])
  }

  /** The tag the chain ends in after `events`. */
  function Head(c: Format, events: seq<Event>): Bytes32 {
    if events == [] then Genesis(c)
    else ChainTag(c, Head(c, events[..|events| - 1]), |events| - 1, c.enc(events[|events| - 1]))
  }

  function Frames(c: Format, events: seq<Event>): seq<u8> {
    if events == [] then []
    else
      var n := |events| - 1;
      Frames(c, events[..n]) + FrameOf(c, events[n], n, Head(c, events[..n]))
  }

  function Header(count: nat, head: Bytes32): (s: seq<u8>)
    ensures |s| == HEADER_LEN
  {
    MAGIC + [JOURNAL_VERSION] + Le(count, 8) + head
  }

  /** The whole file for `events`. */
  function Image(c: Format, events: seq<Event>): seq<u8> {
    Header(|events|, Head(c, events)) + Frames(c, events)
  }

  /** The first `n` frames of `body`, each checked against the chain: the events and the last tag. */
  function DecodeFrames(c: Format, body: seq<u8>, n: nat): Result<(seq<Event>, Bytes32), ExitError>
    requires n * FRAME_LEN <= |body|
  {
    if n == 0 then Ok(([], Genesis(c)))
    else
      var r := DecodeFrames(c, body, n - 1);
      if r.Err? then r
      else
        var frame := body[(n - 1) * FRAME_LEN..n * FRAME_LEN];
        var e := DecodeFrame(c, frame, n - 1, r.value.1);
        if e.Err? then Err(e.error) else Ok((r.value.0 + [e.value], frame[FRAME_META..]))
  }

  /** `load_frames`: the events, whether the file has a torn tail, and the chain head. */
  function Load(c: Format, bytes: seq<u8>): Result<(seq<Event>, bool, Bytes32), ExitError> {
    if |bytes| < HEADER_LEN || bytes[..4] != MAGIC || bytes[4] != JOURNAL_VERSION then Err(PersistFailed)
    else
      var count := FromLe(bytes[5..13]);
      var body := bytes[HEADER_LEN..];
      var whole := |body| / FRAME_LEN;
      if whole > MAX_JOURNAL_ENTRIES || count > whole then Err(PersistFailed)
      else
        var r := DecodeFrames(c, body, count);
        if r.Err? then Err(r.error)
        else if r.value.1 != bytes[13..45] then Err(PersistFailed)
        else Ok((r.value.0, |body| % FRAME_LEN != 0 || whole > count, r.value.1))
  }

  // ---------------------------------------------------------------- what loads

  lemma FrameRoundTrip(c: Format, e: Event, n: nat, prev: Bytes32)
    requires Faithful(c)
    ensures |FrameOf(c, e, n, prev)| == FRAME_LEN && DecodeFrame(c, FrameOf(c, e, n, prev), n, prev) == Ok(e)
    ensures FrameOf(c, e, n, prev)[FRAME_META..] == ChainTag(c, prev, n, c.enc(e))
  {
    var meta := c.enc(e);
    assert FrameOf(c, e, n, prev)[..FRAME_META] == meta;
  }

  lemma {:induction false} FramesLen(c: Format, events: seq<Event>)
    requires Faithful(c)
    ensures |Frames(c, events)| == FRAME_LEN * |events|
  {
    if events != [] {
      var n := |events| - 1;
      FramesLen(c, events[..n]);
      FrameRoundTrip(c, events[n], n, Head(c, events[..n]));
    }
  }

  lemma {:induction false} DecodePrefix(c: Format, a: seq<u8>, b: seq<u8>, n: nat)
    requires n * FRAME_LEN <= |a|
    ensures DecodeFrames(c, a + b, n) == DecodeFrames(c, a, n)
  {
    if n > 0 {
      DecodePrefix(c, a, b, n - 1);
      assert (a + b)[(n - 1) * FRAME_LEN..n * FRAME_LEN] == a[(n - 1) * FRAME_LEN..n * FRAME_LEN];
    }
  }

  lemma {:induction false} DecodeOwnFrames(c: Format, events: seq<Event>)
    requires Faithful(c)
    ensures |Frames(c, events)| == FRAME_LEN * |events|
    ensures DecodeFrames(c, Frames(c, events), |events|) == Ok((events, Head(c, events)))
  {
    FramesLen(c, events);
    if events != [] {
      var n := |events| - 1;
      var prev := Head(c, events[..n]);
      var before, last := Frames(c, events[..n]), FrameOf(c, events[n], n, prev);
      DecodeOwnFrames(c, events[..n]);
      DecodePrefix(c, before, last, n);
      FrameRoundTrip(c, events[n], n, prev);
      assert (before + last)[n * FRAME_LEN..(n + 1) * FRAME_LEN] == last;
      assert events[..n] + [events[n]] == events;
    }
  }

  lemma HeaderFields(count: nat, head: Bytes32, rest: seq<u8>)
    requires count < Pow256(8)
    ensures var s := Header(count, head) + rest;
      && s[..4] == MAGIC && s[4] == JOURNAL_VERSION && FromLe(s[5..13]) == count && s[13..45] == head
      && s[HEADER_LEN..] == rest
  {
    LeRoundTrip(count, 8);
    var s := Header(count, head) + rest;
    assert s[5..13] == Le(count, 8);
    assert s[13..45] == head;
  }

  lemma WholeFrames(n: nat, t: nat)
    ensures (FRAME_LEN * n + t) / FRAME_LEN == n + t / FRAME_LEN
    ensures (FRAME_LEN * n + t) % FRAME_LEN == t % FRAME_LEN
  {}

  /** A file whose header counts `events` loads as exactly `events`, whatever follows the counted frames. */
  lemma LoadImage(c: Format, events: seq<Event>, tail: seq<u8>)
    requires Faithful(c) && |events| + |tail| / FRAME_LEN <= MAX_JOURNAL_ENTRIES
    ensures Load(c, Image(c, events) + tail) == Ok((events, tail != [], Head(c, events)))
  {
    Widths();
    DecodeOwnFrames(c, events);
    DecodePrefix(c, Frames(c, events), tail, |events|);
    WholeFrames(|events|, |tail|);
    HeaderFields(|events|, Head(c, events), Frames(c, events) + tail);
    assert Image(c, events) + tail == Header(|events|, Head(c, events)) + (Frames(c, events) + tail);
  }

  /** The file holds `events` and perhaps the remains of one more write. */
  ghost predicate Written(c: Format, bytes: seq<u8>, events: seq<Event>) {
    exists tail :: |events| + |tail| / FRAME_LEN <= MAX_JOURNAL_ENTRIES && bytes == Image(c, events) + tail
  }

  lemma WrittenLoads(c: Format, bytes: seq<u8>, events: seq<Event>)
    requires Faithful(c) && Written(c, bytes, events)
    ensures Load(c, bytes) == Ok((events, bytes != Image(c, events), Head(c, events)))
  {
    var tail :| |events| + |tail| / FRAME_LEN <= MAX_JOURNAL_ENTRIES && bytes == Image(c, events) + tail;
    LoadImage(c, events, tail);
    assert tail == [] ==> bytes == Image(c, events);
    assert tail != [] ==> |bytes| > |Image(c, events)|;
  }

  /** A reopened file yields the old events or the old events and the one being appended. */
  ghost predicate Recovers(c: Format, bytes: seq<u8>, events: seq<Event>, e: Event) {
    Written(c, bytes, events) || Written(c, bytes, events + [e])
  }

  /** Any prefix of the new frame on disk under the old header: exactly the old events. */
  lemma TornFrameRecovers(c: Format, events: seq<Event>, e: Event, k: nat)
    requires Faithful(c) && |events| < MAX_JOURNAL_ENTRIES && k <= FRAME_LEN
    ensures |FrameOf(c, e, |events|, Head(c, events))| == FRAME_LEN
    ensures Written(c, Image(c, events) + FrameOf(c, e, |events|, Head(c, events))[..k], events)
  {
    FrameRoundTrip(c, e, |events|, Head(c, events));
  }

  /** The new header over the whole new frame is the image of the longer journal. */
  lemma HeaderCommits(c: Format, events: seq<Event>, e: Event)
    requires Faithful(c) && |events| < MAX_JOURNAL_ENTRIES
    ensures var frame := FrameOf(c, e, |events|, Head(c, events));
      && |frame| == FRAME_LEN && |Image(c, events)| == HEADER_LEN + FRAME_LEN * |events|
      && Head(c, events + [e]) == frame[FRAME_META..]
      && Header(|events| + 1, frame[FRAME_META..]) + (Image(c, events) + frame)[HEADER_LEN..] == Image(c, events + [e])
  {
    var frame := FrameOf(c, e, |events|, Head(c, events));
    FrameRoundTrip(c, e, |events|, Head(c, events));
    FramesLen(c, events);
    assert (events + [e])[..|events|] == events;
    assert (Image(c, events) + frame)[HEADER_LEN..] == Frames(c, events) + frame;
  }

  lemma ImageWritten(c: Format, events: seq<Event>)
    requires |events| <= MAX_JOURNAL_ENTRIES
    ensures Written(c, Image(c, events), events)
  {
    assert Image(c, events) == Image(c, events) + [];
  }
}
