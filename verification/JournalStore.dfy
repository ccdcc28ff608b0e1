/** The journal over a file that fails and crashes at any point (q-exits: store.rs, journal.rs). */
module JournalStore {
  import opened Machine
  import opened Bytes
  import opened ExitTypes
  import opened JournalCodec
  import opened JournalFile
  import Desk

  /** What an `append_frame` call does: it succeeds, fails before writing, or fails after writing a prefix. */
  datatype FrameFault = FrameOk | FrameRefused | FrameTorn(k: nat)

  /** What a `write_header` call does. The header write itself is taken as atomic; the sync after it may fail. */
  datatype HeaderFault = HeaderOk | HeaderRefused | HeaderUnsynced

  /** The behaviour of the storage during one append: the two writes and up to three compactions. */
  datatype StoreFault = StoreFault(frame: FrameFault, header: HeaderFault, saves: seq<bool>)
  {
    predicate Healed() {
      exists i :: 0 <= i < |saves| && i < 3 && saves[i]
    }

    /** The same behaviour as the desk sees it. */
    function Seen(): Desk.Fault {
      Desk.Fault(frame.FrameOk? && header.HeaderOk?, Healed())
    }
  }

  /** One file. `seen` collects every content a crash could leave behind. */
  class ReplayStore {
    var file: Option<seq<u8>>
    ghost var seen: set<seq<u8>>

    constructor (content: Option<seq<u8>>)
      ensures file == content && seen == {}
    {
      file := content;
      seen := {};
    }

    /** `save`: a temporary file renamed over the old one, so the content changes at once or not at all. */
    method Save(bytes: seq<u8>, ok: bool) returns (r: bool)
      modifies this
      ensures r == ok
      ensures ok ==> file == Some(bytes) && seen == old(seen) + {bytes}
      ensures !ok ==> file == old(file) && seen == old(seen)
    {
      r := ok;
      if ok {
        file := Some(bytes);
        seen := seen + {bytes};
      }
    }

    /** `append_frame`: a torn tail is cut off, then the frame is written byte after byte. */
    method AppendFrame(frame: seq<u8>, headerLen: nat, fault: FrameFault) returns (r: bool)
      modifies this
      ensures !(file.Some? && old(file).Some?) ==> file == old(file) && !r
      ensures old(file).None? || fault.FrameRefused? ==> !r && file == old(file) && seen == old(seen)
      ensures old(file).Some? && !fault.FrameRefused? && frame != [] && |old(file).value| >= headerLen
              && (|old(file).value| - headerLen) % |frame| == 0 ==>
        && r == fault.FrameOk?
        && (r ==> file == Some(old(file).value + frame))
        && file.Some? && file.value in Prefixes(old(file).value, frame)
        && seen <= old(seen) + Prefixes(old(file).value, frame)
    {
      if file.None? || fault.FrameRefused? {
        return false;
      }
      var content := file.value;
      if |content| < headerLen || |frame| == 0 {
        return false;
      }
      var whole := headerLen + (|content| - headerLen) / |frame| * |frame|;
      MulDiv(|content| - headerLen, |frame|);
      if whole != |content| {
        content := content[..whole];
        seen := seen + {content};
      }
      var n := if fault.FrameTorn? then Min(fault.k, |frame|) else |frame|;
      seen := seen + Prefixes(content, frame[..n]);
      assert forall k :: 0 <= k <= n ==> frame[..n][..k] == frame[..k];
      file := Some(content + frame[..n]);
      r := fault.FrameOk?;
      assert fault.FrameOk? ==> frame[..n] == frame;
    }

    /** `write_header`: the first bytes are overwritten in place. */
    method WriteHeader(header: seq<u8>, fault: HeaderFault) returns (r: bool)
      modifies this
      ensures old(file).None? || |old(file).value| < |header| || fault.HeaderRefused? ==>
              !r && file == old(file) && seen == old(seen)
      ensures old(file).Some? && |old(file).value| >= |header| && !fault.HeaderRefused? ==>
              && r == fault.HeaderOk? && file == Some(header + old(file).value[|header|..])
              && seen == old(seen) + {file.value}
    {
      if file.None? || |file.value| < |header| || fault.HeaderRefused? {
        return false;
      }
      file := Some(header + file.value[|header|..]);
      seen := seen + {file.value};
      r := fault.HeaderOk?;
    }
  }

  /** What a crash can leave of `frame` written after `base`. */
  ghost function Prefixes(base: seq<u8>, frame: seq<u8>): set<seq<u8>> {
    set k | 0 <= k <= |frame| :: base + frame[..k]
  }

  lemma StartIsPrefix(base: seq<u8>, frame: seq<u8>)
    ensures base in Prefixes(base, frame)
  {
    assert base + frame[..0] == base;
  }

  lemma PrefixesWritten(c: Format, events: seq<Event>, e: Event, x: seq<u8>)
    requires Faithful(c) && |events| < MAX_JOURNAL_ENTRIES
    requires x in Prefixes(Image(c, events), FrameOf(c, e, |events|, Head(c, events)))
    ensures Recovers(c, x, events, e)
  {
    var frame := FrameOf(c, e, |events|, Head(c, events));
    var k :| 0 <= k <= |frame| && x == Image(c, events) + frame[..k];
    FrameRoundTrip(c, e, |events|, Head(c, events));
    TornFrameRecovers(c, events, e, k);
  }

  lemma MulDiv(a: nat, b: nat)
    requires b > 0
    ensures 0 <= a / b * b <= a && (a % b == 0 ==> a / b * b == a)
  {
    assert a == a / b * b + a % b;
  }

  /** The two writes of `append`: the frame, then the header that counts it. */
  method WriteRecord(store: ReplayStore, ghost image: seq<u8>, frame: seq<u8>, header: seq<u8>, fault: StoreFault)
    returns (ok: bool)
    requires store.file == Some(image) && frame != [] && |image| >= |header| && (|image| - |header|) % |frame| == 0
    modifies store
    ensures ok == (fault.frame.FrameOk? && fault.header.HeaderOk?)
    ensures ok ==> store.file == Some(header + (image + frame)[|header|..])
    ensures store.file.Some? && store.file.value in Traces(image, frame, header)
    ensures store.seen <= old(store.seen) + Traces(image, frame, header)
  {
    StartIsPrefix(image, frame);
    ok := store.AppendFrame(frame, |header|, fault.frame);
    if ok {
      ok := store.WriteHeader(header, fault.header);
    }
  }

  /** Every content the file passes through during the two writes. */
  ghost function Traces(image: seq<u8>, frame: seq<u8>, header: seq<u8>): set<seq<u8>>
    requires |image| >= |header|
  {
    Prefixes(image, frame) + {header + (image + frame)[|header|..]}
  }

  /** Crash atomicity: at every point of an append the file recovers to the old events or the old ones and the new. */
  lemma TracesRecover(c: Format, events: seq<Event>, e: Event)
    requires Faithful(c) && |events| < MAX_JOURNAL_ENTRIES
    ensures var frame := FrameOf(c, e, |events|, Head(c, events));
            var header := Header(|events| + 1, Head(c, events + [e]));
      && |frame| == FRAME_LEN && frame[FRAME_META..] == Head(c, events + [e])
      && |Image(c, events)| >= |header| && (|Image(c, events)| - |header|) % |frame| == 0
      && header + (Image(c, events) + frame)[|header|..] == Image(c, events + [e])
      && forall x :: x in Traces(Image(c, events), frame, header) ==> Recovers(c, x, events, e)
  {
    HeaderCommits(c, events, e);
    ImageWritten(c, events + [e]);
    WholeFrames(|events|, 0);
    var frame := FrameOf(c, e, |events|, Head(c, events));
    forall x | x in Prefixes(Image(c, events), frame) ensures Recovers(c, x, events, e) {
      PrefixesWritten(c, events, e, x);
    }
  }

  /** The loop of `load_frames`. */
  method LoadFrames(c: Format, bytes: seq<u8>) returns (r: Result<(seq<Event>, bool, Bytes32), ExitError>)
    ensures r == Load(c, bytes)
  {
    if |bytes| < HEADER_LEN || bytes[..4] != MAGIC || bytes[4] != JOURNAL_VERSION {
      return Err(PersistFailed);
    }
    var count := FromLe(bytes[5..13]);
    var body := bytes[HEADER_LEN..];
    var whole := |body| / FRAME_LEN;
    if whole > MAX_JOURNAL_ENTRIES || count > whole {
      return Err(PersistFailed);
    }
    var decoded := DecodeEach(c, body, count);
    if decoded.Err? {
      return Err(decoded.error);
    }
    if decoded.value.1 != bytes[13..45] {
      return Err(PersistFailed);
    }
    r := Ok((decoded.value.0, |body| % FRAME_LEN != 0 || whole > count, decoded.value.1));
  }

  /** The loop of `load_frames`, carrying the last tag. */
  method DecodeEach(c: Format, body: seq<u8>, count: nat) returns (r: Result<(seq<Event>, Bytes32), ExitError>)
    requires count * FRAME_LEN <= |body|
    ensures r == DecodeFrames(c, body, count)
  {
    var events: seq<Event> := [];
    var prev := Genesis(c);
    var i := 0;
    while i < count
      invariant i <= count && DecodeFrames(c, body, i) == Ok((events, prev))
    {
      var frame := body[i * FRAME_LEN..(i + 1) * FRAME_LEN];
      var e := DecodeFrame(c, frame, i, prev);
      if e.Err? {
        DecodeStops(c, body, i + 1, count);
        return Err(e.error);
      }
      events := events + [e.value];
      prev := frame[FRAME_META..];
      i := i + 1;
    }
    r := Ok((events, prev));
  }

  /** The first bad frame decides the result. */
  lemma {:induction false} DecodeStops(c: Format, body: seq<u8>, i: nat, n: nat)
    requires i <= n && n * FRAME_LEN <= |body| && DecodeFrames(c, body, i).Err?
    ensures DecodeFrames(c, body, n) == DecodeFrames(c, body, i)
    decreases n
  {
    if i < n {
      DecodeStops(c, body, i, n - 1);
    }
  }

  /** The loop of `compact`: the frames are rebuilt from the events alone. */
  method CompactImage(c: Format, events: seq<Event>) returns (out: seq<u8>)
    ensures out == Image(c, events)
  {
    var prev := Genesis(c);
    var frames: seq<u8> := [];
    var i := 0;
    while i < |events|
      invariant i <= |events| && prev == Head(c, events[..i]) && frames == Frames(c, events[..i])
    {
      assert events[..i + 1][..i] == events[..i];
      frames := frames + FrameOf(c, events[i], i, prev);
      prev := ChainTag(c, prev, i, c.enc(events[i]));
      i := i + 1;
    }
    assert events[..i] == events;
    out := Header(|events|, prev) + frames;
  }

  class PersistentJournal {
    const format: Format
    const store: ReplayStore
    var events: seq<Event>
    var head: Bytes32
    var poisoned: bool
    /** The event whose append could not be undone on disk, once the journal is poisoned. */
    ghost var stray: Option<Event>

    /** While not poisoned the file is exactly the image of the events; poisoned, it recovers to them, with or without
        the stray event. */
    ghost predicate Valid()
      reads this, store
    {
      && Faithful(format)
      && |events| <= MAX_JOURNAL_ENTRIES
      && head == Head(format, events)
      && poisoned == stray.Some?
      && (!poisoned ==> store.file == Some(Image(format, events)))
      && (poisoned ==> store.file.Some? && Recovers(format, store.file.value, events, stray.value))
    }

    ghost function View(): Desk.Journal
      reads this
    {
      Desk.Journal(events, stray)
    }

    constructor Assemble(format: Format, store: ReplayStore, events: seq<Event>, head: Bytes32)
      ensures View() == Desk.Journal(events, None) && this.store == store && this.format == format
      ensures this.head == head && !this.poisoned
    {
      this.format := format;
      this.store := store;
      this.events := events;
      this.head := head;
      this.poisoned := false;
      this.stray := None;
    }

    method Compact(ok: bool) returns (r: bool)
      requires Faithful(format)
      modifies store
      ensures r == ok
      ensures ok ==> store.file == Some(Image(format, events)) && store.seen == old(store.seen) + {Image(format, events)}
      ensures !ok ==> store.file == old(store.file) && store.seen == old(store.seen)
    {
      var image := CompactImage(format, events);
      r := store.Save(image, ok);
    }

    /** Up to three compactions: `(0..3).any(|_| self.compact().is_ok())`. */
    method Repair(saves: seq<bool>) returns (healed: bool)
      requires Faithful(format)
      modifies store
      ensures healed == exists i :: 0 <= i < |saves| && i < 3 && saves[i]
      ensures healed ==> store.file == Some(Image(format, events)) && store.seen == old(store.seen) + {Image(format, events)}
      ensures !healed ==> store.file == old(store.file) && store.seen == old(store.seen)
    {
      var n := 0;
      healed := false;
      while n < 3 && !healed
        invariant n <= 3
        invariant healed ==> n > 0 && n - 1 < |saves| && saves[n - 1]
        invariant !healed ==> forall i :: 0 <= i < n && i < |saves| ==> !saves[i]
        invariant healed ==> store.file == Some(Image(format, events)) && store.seen == old(store.seen) + {Image(format, events)}
        invariant !healed ==> store.file == old(store.file) && store.seen == old(store.seen)
        decreases 3 - n
      {
        healed := Compact(n < |saves| && saves[n]);
        n := n + 1;
      }
    }

    method WriteEvent(e: Event, fault: StoreFault) returns (ok: bool, newHead: Bytes32)
      requires Valid() && !poisoned && |events| < MAX_JOURNAL_ENTRIES
      modifies store
      ensures newHead == Head(format, events + [e])
      ensures ok == fault.Seen().stored
      ensures ok ==> store.file == Some(Image(format, events + [e]))
      ensures store.file.Some? && Recovers(format, store.file.value, events, e)
      ensures forall x :: x in store.seen ==> x in old(store.seen) || Recovers(format, x, events, e)
    {
      TracesRecover(format, events, e);
      var frame := FrameOf(format, e, |events|, head);
      newHead := frame[FRAME_META..];
      ok := WriteRecord(store, Image(format, events), frame, Header(|events| + 1, newHead), fault);
    }

    /** `append`, as the desk sees it, and crash atomicity: every content the file passes through while the record is
        written, or the failure repaired, recovers to the old events or the old events and this one. */
    method Append(e: Event, fault: StoreFault) returns (r: Result<(), ExitError>)
      requires Valid()
      modifies this, store
      ensures Valid()
      ensures (View(), r) == Desk.Append(old(View()), e, fault.Seen())
      ensures forall x :: x in store.seen ==> x in old(store.seen) || Recovers(format, x, old(events), e)
    {
      if poisoned {
        return Err(PersistFailed);
      }
      if |events| >= MAX_JOURNAL_ENTRIES {
        return Err(LedgerFull);
      }
      var appended, newHead := WriteEvent(e, fault);
      if appended {
        events := events + [e];
        head := newHead;
        r := Ok(());
      } else {
        var healed := Repair(fault.saves);
        ImageWritten(format, events);
        if !healed {
          poisoned := true;
          stray := Some(e);
        }
        r := Err(PersistFailed);
      }
    }
  }

  /** `open`: a missing file is created, a torn one compacted. Whatever crash left the file behind, the journal that
      opens holds exactly the events written, and compaction keeps that list. */
  method Open(c: Format, store: ReplayStore, saveOk: bool) returns (r: Result<PersistentJournal, ExitError>)
    requires Faithful(c)
    modifies store
    ensures r.Ok? ==> fresh(r.value) && r.value.store == store && r.value.format == c
    ensures old(store.file).None? && r.Ok? ==> r.value.Valid() && r.value.View() == Desk.Journal([], None)
    ensures forall events :: old(store.file).Some? && Written(c, old(store.file).value, events) ==>
      if r.Ok? then r.value.Valid() && r.value.View() == Desk.Journal(events, None)
      else !saveOk && store.file == old(store.file)
    ensures old(store.file).Some? && Load(c, old(store.file).value).Err? ==> r.Err? && store.file == old(store.file)
  {
    var events: seq<Event> := [];
    var head := Genesis(c);
    if store.file.Some? {
      var loaded := LoadFrames(c, store.file.value);
      if loaded.Err? {
        forall events | Written(c, store.file.value, events) ensures false {
          WrittenLoads(c, store.file.value, events);
        }
        return Err(loaded.error);
      }
      events := loaded.value.0;
      head := loaded.value.2;
      forall events' | Written(c, store.file.value, events')
        ensures events' == events && head == Head(c, events) && |events| <= MAX_JOURNAL_ENTRIES
        ensures loaded.value.1 || store.file.value == Image(c, events)
      {
        WrittenLoads(c, store.file.value, events');
      }
      if loaded.value.1 {
        var image := CompactImage(c, events);
        var saved := store.Save(image, saveOk);
        if !saved {
          return Err(PersistFailed);
        }
      }
    } else {
      var saved := store.Save(Header(0, head), saveOk);
      if !saved {
        return Err(PersistFailed);
      }
      assert Image(c, []) == Header(0, Genesis(c));
    }
    var journal := new PersistentJournal.Assemble(c, store, events, head);
    r := Ok(journal);
  }
}
