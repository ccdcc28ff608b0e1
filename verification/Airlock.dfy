/** The canonical envelopes (q-airlock: lib.rs). */
module Airlock {
  import opened Machine
  import opened Bytes
  import opened Facts
  import opened Codec

  const ARTIFACT_ATTESTATION: u8 := 1
  const ARTIFACT_STARK: u8 := 2
  const ENVELOPE_VERSION: u8 := 1

  datatype SignerSig = SignerSig(operatorId: u32, signature: seq<u8>)

  datatype Artifact =
    | Attestation(fact: BridgeFact, signatures: seq<SignerSig>)
    | Stark(statementDigest: Bytes32, proof: seq<u8>)

  datatype AirlockError = Unparseable | BadEnvelopeVersion | NonCanonical | Malformed(error: CodecError)

  // ---------------------------------------------------------------- encoding

  /** The sort of `sort_by_key`: stable, by operator id. */
  function Insert(x: SignerSig, s: seq<SignerSig>): seq<SignerSig> {
    if s == [] || x.operatorId < s[0].operatorId then [x] + s else [s[0]] + Insert(x, s[1..])
  }

  function SortById(s: seq<SignerSig>): seq<SignerSig> {
    if s == [] then [] else Insert(s[|s| - 1], SortById(s[..|s| - 1]))
  }

  /** A signature longer than its u16 prefix makes the source panic. */
  predicate LengthsFit(sigs: seq<SignerSig>) {
    forall i :: 0 <= i < |sigs| ==> |sigs[i].signature| < 0x1_0000
  }

  function SigBytes(s: SignerSig): seq<u8> {
    Le32(s.operatorId) + Le(|s.signature|, 2) + s.signature
  }

  function SigList(sigs: seq<SignerSig>): seq<u8> {
    if sigs == [] then [] else SigBytes(sigs[0]) + SigList(sigs[1..])
  }

  /** `AttestationEnvelope::encode` and `StarkEnvelope::encode`; None stands for the panic on an oversized field. */
  function EncodeArtifact(a: Artifact): Option<seq<u8>> {
    match a
    case Attestation(fact, sigs) =>
      if !LengthsFit(sigs) then None
      else Some([ARTIFACT_ATTESTATION, ENVELOPE_VERSION] + Facts.Encode(fact) + Le(|sigs|, 4) + SigList(SortById(sigs)))
    case Stark(digest, proof) =>
      if |proof| >= 0x1_0000_0000 then None else Some([ARTIFACT_STARK] + digest + (Le(|proof|, 4) + proof))
  }

  // ---------------------------------------------------------------- parsing

  /** One signature whose id must exceed `last`, and what follows it. */
  function ParseSig(s: seq<u8>, last: Option<u32>): Result<(SignerSig, seq<u8>), AirlockError> {
    var id := TakeLe(s, 4);
    if id.Err? then Err(Malformed(id.error))
    else
      Widths();
      var n: u32 := id.value.0;
      if last.Some? && n <= last.value then Err(NonCanonical)
      else
        var sig := TakeBytes(id.value.1, 2);
        if sig.Err? then Err(Malformed(sig.error)) else Ok((SignerSig(n, sig.value.0), sig.value.1))
  }

  /** `count` signatures, ids strictly rising from `last`, and what follows them. */
  function ParseSigs(s: seq<u8>, count: nat, last: Option<u32>): Result<(seq<SignerSig>, seq<u8>), AirlockError> {
    if count == 0 then Ok(([], s))
    else
      var one := ParseSig(s, last);
      if one.Err? then Err(one.error)
      else
        var rest := ParseSigs(one.value.1, count - 1, Some(one.value.0.operatorId));
        if rest.Err? then rest else Ok(([one.value.0] + rest.value.0, rest.value.1))
  }

  function ParseAttestation(s: seq<u8>): Result<Artifact, AirlockError> {
    if |s| < 1 then Err(Malformed(ShortInput))
    else if s[0] != ENVELOPE_VERSION then Err(BadEnvelopeVersion)
    else
      var bytes := Take(s[1..], FACT_ENCODED_LEN);
      if bytes.Err? then Err(Malformed(bytes.error))
      else
        var fact := Facts.Decode(bytes.value.0);
        if fact.Err? then Err(Malformed(fact.error))
        else
          var count := TakeLe(bytes.value.1, 4);
          if count.Err? then Err(Malformed(count.error))
          else if count.value.0 == 0 then Err(NonCanonical)
          else
            var sigs := ParseSigs(count.value.1, count.value.0, None);
            if sigs.Err? then Err(sigs.error)
            else if sigs.value.1 != [] then Err(Malformed(TrailingBytes))
            else Ok(Attestation(fact.value, sigs.value.0))
  }

  function ParseStark(s: seq<u8>): Result<Artifact, AirlockError> {
    var digest := Take(s, 32);
    if digest.Err? then Err(Malformed(digest.error))
    else
      var proof := TakeBytes(digest.value.1, 4);
      if proof.Err? then Err(Malformed(proof.error))
      else if proof.value.1 != [] then Err(Malformed(TrailingBytes))
      else Ok(Stark(digest.value.0, proof.value.0))
  }

  /** `parse`. */
  function Parse(s: seq<u8>): Result<Artifact, AirlockError> {
    if s == [] then Err(Unparseable)
    else if s[0] == ARTIFACT_ATTESTATION then ParseAttestation(s[1..])
    else if s[0] == ARTIFACT_STARK then ParseStark(s[1..])
    else Err(Unparseable)
  }

  // ---------------------------------------------------------------- sorting

  predicate Sorted(s: seq<SignerSig>) {
    forall i, j :: 0 <= i < j < |s| ==> s[i].operatorId <= s[j].operatorId
  }

  predicate Rising(s: seq<SignerSig>, last: Option<u32>) {
    && (s != [] && last.Some? ==> last.value < s[0].operatorId)
    && forall i, j :: 0 <= i < j < |s| ==> s[i].operatorId < s[j].operatorId
  }

  predicate Distinct(s: seq<SignerSig>) {
    forall i, j :: 0 <= i < j < |s| ==> s[i].operatorId != s[j].operatorId
  }

  lemma {:induction false} InsertContents(x: SignerSig, s: seq<SignerSig>)
    ensures multiset(Insert(x, s)) == multiset(s) + multiset{x} && |Insert(x, s)| == |s| + 1
    ensures Insert(x, s)[0] == x || (s != [] && Insert(x, s)[0] == s[0])
  {
    if s != [] && x.operatorId >= s[0].operatorId {
      InsertContents(x, s[1..]);
      assert s == [s[0]] + s[1..];
    }
  }

  lemma SortedCons(x: SignerSig, s: seq<SignerSig>)
    requires Sorted(s) && (s != [] ==> x.operatorId <= s[0].operatorId)
    ensures Sorted([x] + s)
  {
    var t := [x] + s;
    forall i, j | 0 <= i < j < |t| ensures t[i].operatorId <= t[j].operatorId {
      assert t[j] == s[j - 1];
      assert i > 0 ==> t[i] == s[i - 1];
      assert s[0].operatorId <= s[j - 1].operatorId;
    }
  }

  lemma {:induction false} InsertSorted(x: SignerSig, s: seq<SignerSig>)
    requires Sorted(s)
    ensures Sorted(Insert(x, s))
  {
    if s == [] || x.operatorId < s[0].operatorId {
      SortedCons(x, s);
    } else {
      InsertSorted(x, s[1..]);
      InsertContents(x, s[1..]);
      SortedCons(s[0], Insert(x, s[1..]));
    }
  }

  lemma InsertKeeps(s: seq<SignerSig>, x: SignerSig, t: seq<SignerSig>)
    requires Sorted(t) && multiset(t) == multiset(s) && |t| == |s|
    ensures Sorted(Insert(x, t)) && multiset(Insert(x, t)) == multiset(s + [x]) && |Insert(x, t)| == |s| + 1
  {
    InsertContents(x, t);
    InsertSorted(x, t);
  }

  lemma {:induction false} SortKeeps(s: seq<SignerSig>)
    ensures Sorted(SortById(s)) && multiset(SortById(s)) == multiset(s) && |SortById(s)| == |s|
  {
    if s != [] {
      SortKeeps(s[..|s| - 1]);
      InsertKeeps(s[..|s| - 1], s[|s| - 1], SortById(s[..|s| - 1]));
      assert s == s[..|s| - 1] + [s[|s| - 1]];
    }
  }

  lemma {:induction false} InsertLast(x: SignerSig, s: seq<SignerSig>)
    requires forall i :: 0 <= i < |s| ==> s[i].operatorId <= x.operatorId
    ensures Insert(x, s) == s + [x]
  {
    if s != [] {
      InsertLast(x, s[1..]);
      assert s + [x] == [s[0]] + (s[1..] + [x]);
    }
  }

  lemma {:induction false} SortSorted(s: seq<SignerSig>)
    requires Sorted(s)
    ensures SortById(s) == s
  {
    if s != [] {
      var n := |s| - 1;
      SortSorted(s[..n]);
      InsertLast(s[n], s[..n]);
      assert s[..n] + [s[n]] == s;
    }
  }

  function Ids(s: seq<SignerSig>): set<u32> {
    set x | x in s :: x.operatorId
  }

  lemma {:induction false} DistinctByCount(s: seq<SignerSig>)
    ensures |Ids(s)| <= |s| && (Distinct(s) <==> |Ids(s)| == |s|)
  {
    if s != [] {
      var n := |s| - 1;
      DistinctByCount(s[..n]);
      assert s == s[..n] + [s[n]];
      assert Ids(s) == Ids(s[..n]) + {s[n].operatorId};
      DistinctSnoc(s[..n], s[n]);
    }
  }

  lemma DistinctSnoc(s: seq<SignerSig>, x: SignerSig)
    ensures Distinct(s + [x]) <==> Distinct(s) && x.operatorId !in Ids(s)
  {
    var t := s + [x];
    assert forall i :: 0 <= i < |s| ==> t[i] == s[i] && s[i] in s;
    if x.operatorId in Ids(s) {
      var y :| y in s && y.operatorId == x.operatorId;
      var i :| 0 <= i < |s| && s[i] == y;
      assert t[i].operatorId == t[|s|].operatorId;
    }
    if Distinct(t) {
      forall i, j | 0 <= i < j < |s| ensures s[i].operatorId != s[j].operatorId {
        assert t[i].operatorId != t[j].operatorId;
      }
    }
  }

  lemma SortDistinct(s: seq<SignerSig>)
    ensures Distinct(SortById(s)) <==> Distinct(s)
    ensures Distinct(s) ==> Rising(SortById(s), None)
  {
    SortKeeps(s);
    var t := SortById(s);
    assert forall x :: x in s <==> x in multiset(s);
    assert forall x :: x in t <==> x in multiset(t);
    assert Ids(t) == Ids(s);
    DistinctByCount(s);
    DistinctByCount(t);
  }

  /** Entries with one id carry one signature. */
  predicate Consistent(s: seq<SignerSig>) {
    forall i, j :: 0 <= i < j < |s| && s[i].operatorId == s[j].operatorId ==> s[i] == s[j]
  }

  lemma SameHead(a: seq<SignerSig>, b: seq<SignerSig>)
    requires a != [] && b != [] && Sorted(a) && Sorted(b) && Consistent(a) && a[0] in b && b[0] in a
    ensures a[0] == b[0]
  {
    var j :| 0 <= j < |b| && b[j] == a[0];
    var i :| 0 <= i < |a| && a[i] == b[0];
  }

  lemma TailMultiset(a: seq<SignerSig>)
    requires a != []
    ensures multiset(a[1..]) == multiset(a) - multiset{a[0]}
  {
    assert a == [a[0]] + a[1..];
  }

  lemma {:induction false} SortedUnique(a: seq<SignerSig>, b: seq<SignerSig>)
    requires Sorted(a) && Sorted(b) && Consistent(a) && multiset(a) == multiset(b)
    ensures a == b
  {
    assert |multiset(a)| == |multiset(b)|;
    if a != [] {
      assert a[0] in multiset(b) && b[0] in multiset(a);
      SameHead(a, b);
      TailMultiset(a);
      TailMultiset(b);
      SortedUnique(a[1..], b[1..]);
      assert a == [a[0]] + a[1..] && b == [b[0]] + b[1..];
    }
  }

  lemma SameConsistent(s: seq<SignerSig>, t: seq<SignerSig>)
    requires multiset(s) == multiset(t) && Consistent(s)
    ensures Consistent(t)
  {
    forall i, j | 0 <= i < j < |t| && t[i].operatorId == t[j].operatorId ensures t[i] == t[j] {
      assert t[i] in multiset(t) && t[j] in multiset(t);
      assert t[i] in s && t[j] in s;
    }
  }

  lemma SameOrder(s: seq<SignerSig>, t: seq<SignerSig>)
    requires multiset(s) == multiset(t) && Consistent(s)
    ensures SortById(s) == SortById(t) && |s| == |t|
  {
    assert |s| == |multiset(s)| == |multiset(t)| == |t|;
    SortKeeps(s);
    SortKeeps(t);
    SameConsistent(s, SortById(s));
    SortedUnique(SortById(s), SortById(t));
  }

  lemma EncodingIgnoresOrder(fact: BridgeFact, s: seq<SignerSig>, t: seq<SignerSig>)
    requires multiset(s) == multiset(t) && (Consistent(s) || !LengthsFit(s))
    ensures EncodeArtifact(Attestation(fact, s)) == EncodeArtifact(Attestation(fact, t))
  {
    if LengthsFit(s) {
      SameOrder(s, t);
      SameLengths(s, t);
    } else if LengthsFit(t) {
      SameLengths(t, s);
    }
  }

  lemma SameLengths(s: seq<SignerSig>, t: seq<SignerSig>)
    requires multiset(s) == multiset(t) && LengthsFit(s)
    ensures LengthsFit(t)
  {
    forall i | 0 <= i < |t| ensures |t[i].signature| < 0x1_0000 {
      assert t[i] in multiset(t);
      assert t[i] in s;
    }
  }

  // ---------------------------------------------------------------- round trips

  lemma SigRoundTrip(x: SignerSig, last: Option<u32>, tail: seq<u8>)
    requires |x.signature| < 0x1_0000 && (last.Some? ==> last.value < x.operatorId)
    ensures ParseSig(SigBytes(x) + tail, last) == Ok((x, tail))
  {
    Widths();
    var after := Le(|x.signature|, 2) + x.signature + tail;
    TakeBytesConcat(x.signature, 2, tail);
    TakeLeConcat(x.operatorId, 4, after);
    assert SigBytes(x) + tail == Le(x.operatorId, 4) + after;
  }

  lemma SigCanonical(s: seq<u8>, last: Option<u32>)
    requires ParseSig(s, last).Ok?
    ensures var (x, rest) := ParseSig(s, last).value;
      |x.signature| < 0x1_0000 && (last.Some? ==> last.value < x.operatorId) && s == SigBytes(x) + rest
  {
    Widths();
    var (x, rest) := ParseSig(s, last).value;
    var after := TakeLe(s, 4).value.1;
    TakeLeInverse(s, 4);
    TakeBytesInverse(after, 2);
    assert s == Le(x.operatorId, 4) + (Le(|x.signature|, 2) + x.signature + rest);
  }

  lemma {:induction false} SigsRoundTrip(sigs: seq<SignerSig>, last: Option<u32>, rest: seq<u8>)
    requires LengthsFit(sigs) && Rising(sigs, last)
    ensures ParseSigs(SigList(sigs) + rest, |sigs|, last) == Ok((sigs, rest))
  {
    if sigs == [] {
      assert SigList(sigs) + rest == rest;
    } else {
      var x, tail := sigs[0], SigList(sigs[1..]) + rest;
      SigsRoundTrip(sigs[1..], Some(x.operatorId), rest);
      SigRoundTrip(x, last, tail);
      assert [x] + sigs[1..] == sigs;
      ListCons(x, sigs[1..], rest);
    }
  }

  // ---------------------------------------------------------------- when order matters

  lemma {:induction false} ListInjective(a: seq<SignerSig>, b: seq<SignerSig>)
    requires LengthsFit(a) && LengthsFit(b) && |a| == |b| && SigList(a) == SigList(b)
    ensures a == b
  {
    if a != [] {
      SigRoundTrip(a[0], None, SigList(a[1..]));
      SigRoundTrip(b[0], None, SigList(b[1..]));
      ListInjective(a[1..], b[1..]);
      assert a == [a[0]] + a[1..] && b == [b[0]] + b[1..];
    }
  }

  /** The first entry with an id. */
  function FirstOf(s: seq<SignerSig>, id: u32): Option<SignerSig> {
    if s == [] then None else if s[0].operatorId == id then Some(s[0]) else FirstOf(s[1..], id)
  }

  lemma {:induction false} FirstOfAppend(s: seq<SignerSig>, x: SignerSig, id: u32)
    ensures FirstOf(s + [x], id)
         == if FirstOf(s, id).Some? then FirstOf(s, id) else if x.operatorId == id then Some(x) else None
  {
    if s == [] {
      assert s + [x] == [x] && [x][1..] == [];
    } else {
      FirstOfAppend(s[1..], x, id);
      assert (s + [x])[1..] == s[1..] + [x];
    }
  }

  lemma {:induction false} FirstOfAbove(s: seq<SignerSig>, id: u32)
    requires forall i :: 0 <= i < |s| ==> s[i].operatorId > id
    ensures FirstOf(s, id) == None
  {
    if s != [] {
      FirstOfAbove(s[1..], id);
    }
  }

  lemma {:induction false} FirstOfInsert(x: SignerSig, s: seq<SignerSig>, id: u32)
    requires Sorted(s)
    ensures FirstOf(Insert(x, s), id)
         == if FirstOf(s, id).Some? then FirstOf(s, id) else if x.operatorId == id then Some(x) else None
  {
    if s == [] || x.operatorId < s[0].operatorId {
      assert ([x] + s)[1..] == s;
      if x.operatorId == id {
        FirstOfAbove(s, id);
      }
    } else {
      FirstOfInsert(x, s[1..], id);
      assert ([s[0]] + Insert(x, s[1..]))[1..] == Insert(x, s[1..]);
    }
  }

  /** The sort is stable: the first entry with an id stays the first. */
  lemma {:induction false} FirstOfSort(s: seq<SignerSig>, id: u32)
    ensures FirstOf(SortById(s), id) == FirstOf(s, id)
  {
    if s != [] {
      var n := |s| - 1;
      FirstOfSort(s[..n], id);
      SortKeeps(s[..n]);
      FirstOfInsert(s[n], SortById(s[..n]), id);
      FirstOfAppend(s[..n], s[n], id);
      assert s[..n] + [s[n]] == s;
    }
  }

  function Brought(s: seq<SignerSig>, i: nat): seq<SignerSig>
    requires i < |s|
  {
    [s[i]] + (s[..i] + s[i + 1..])
  }

  lemma BroughtSame(s: seq<SignerSig>, i: nat)
    requires i < |s|
    ensures multiset(Brought(s, i)) == multiset(s) && |Brought(s, i)| == |s|
  {
    assert s == s[..i] + [s[i]] + s[i + 1..];
  }

  /** Equal encodings of equally many signatures have the same sorted signatures. */
  lemma SameEncoding(fact: BridgeFact, s: seq<SignerSig>, t: seq<SignerSig>)
    requires LengthsFit(s) && LengthsFit(t) && |s| == |t|
    requires EncodeArtifact(Attestation(fact, s)) == EncodeArtifact(Attestation(fact, t))
    ensures SortById(s) == SortById(t)
  {
    var head := [ARTIFACT_ATTESTATION, ENVELOPE_VERSION] + Facts.Encode(fact) + Le(|s|, 4);
    SortKeeps(s);
    SortKeeps(t);
    SameSuffix(head, SigList(SortById(s)), SigList(SortById(t)));
    SameLengths(s, SortById(s));
    SameLengths(t, SortById(t));
    ListInjective(SortById(s), SortById(t));
  }

  lemma SameSuffix(head: seq<u8>, a: seq<u8>, b: seq<u8>)
    requires head + a == head + b
    ensures a == b
  {
    assert a == (head + a)[|head|..] && b == (head + b)[|head|..];
  }

  /** The order signatures arrived in does not change the encoding exactly when entries with one id carry one signature,
      or some signature is too long to be encoded at all. */
  lemma OrderIgnoredExactly(fact: BridgeFact, s: seq<SignerSig>)
    ensures (forall t :: multiset(t) == multiset(s) ==> EncodeArtifact(Attestation(fact, t)) == EncodeArtifact(Attestation(fact, s)))
       <==> Consistent(s) || !LengthsFit(s)
  {
    if Consistent(s) || !LengthsFit(s) {
      forall t | multiset(t) == multiset(s) ensures EncodeArtifact(Attestation(fact, t)) == EncodeArtifact(Attestation(fact, s)) {
        EncodingIgnoresOrder(fact, s, t);
      }
    } else {
      var i, j :| 0 <= i < j < |s| && s[i].operatorId == s[j].operatorId && s[i] != s[j];
      var a, b := Brought(s, i), Brought(s, j);
      BroughtSame(s, i);
      BroughtSame(s, j);
      SameLengths(s, a);
      SameLengths(s, b);
      FirstOfSort(a, s[i].operatorId);
      FirstOfSort(b, s[i].operatorId);
      if EncodeArtifact(Attestation(fact, a)) == EncodeArtifact(Attestation(fact, b)) {
        SameEncoding(fact, a, b);
        assert false;
      }
    }
  }

  lemma RisingCons(x: SignerSig, tail: seq<SignerSig>, last: Option<u32>)
    requires Rising(tail, Some(x.operatorId)) && (last.Some? ==> last.value < x.operatorId)
    ensures Rising([x] + tail, last)
  {
    var s := [x] + tail;
    forall i, j | 0 <= i < j < |s| ensures s[i].operatorId < s[j].operatorId {
      assert s[j] == tail[j - 1];
      assert i > 0 ==> s[i] == tail[i - 1];
      assert tail[0].operatorId <= tail[j - 1].operatorId;
    }
  }

  lemma ListCons(x: SignerSig, tail: seq<SignerSig>, rest: seq<u8>)
    ensures SigList([x] + tail) + rest == SigBytes(x) + (SigList(tail) + rest)
  {
    assert ([x] + tail)[1..] == tail;
  }

  lemma {:induction false} SigsCanonical(s: seq<u8>, count: nat, last: Option<u32>)
    requires ParseSigs(s, count, last).Ok?
    ensures var (sigs, rest) := ParseSigs(s, count, last).value;
      |sigs| == count && LengthsFit(sigs) && Rising(sigs, last) && s == SigList(sigs) + rest
  {
    if count > 0 {
      var (x, after) := ParseSig(s, last).value;
      SigCanonical(s, last);
      SigsCanonical(after, count - 1, Some(x.operatorId));
      var (tail, rest) := ParseSigs(after, count - 1, Some(x.operatorId)).value;
      RisingCons(x, tail, last);
      ListCons(x, tail, rest);
      assert s == SigBytes(x) + (SigList(tail) + rest);
    }
  }

  /** What the parser accepts, and nothing else. */
  predicate WellFormed(a: Artifact) {
    match a
    case Attestation(fact, sigs) =>
      fact.version == FACT_VERSION && 0 < |sigs| < 0x1_0000_0000 && LengthsFit(sigs) && Rising(sigs, None)
    case Stark(digest, proof) => |proof| < 0x1_0000_0000
  }

  lemma AttestationBody(fact: BridgeFact, count: nat, list: seq<u8>)
    requires count < Pow256(4)
    ensures var s := [ENVELOPE_VERSION] + Facts.Encode(fact) + Le(count, 4) + list;
      && s[0] == ENVELOPE_VERSION && |Facts.Encode(fact)| == FACT_ENCODED_LEN
      && Take(s[1..], FACT_ENCODED_LEN) == Ok((Facts.Encode(fact), Le(count, 4) + list))
      && TakeLe(Le(count, 4) + list, 4) == Ok((count, list))
  {
    FactRoundTrip(fact);
    AfterTag(ENVELOPE_VERSION, Facts.Encode(fact), Le(count, 4), list);
    TakeConcat(Facts.Encode(fact), Le(count, 4) + list);
    TakeLeConcat(count, 4, list);
  }

  lemma AfterTag(x: u8, a: seq<u8>, b: seq<u8>, c: seq<u8>)
    ensures ([x] + a + b + c)[0] == x && ([x] + a + b + c)[1..] == a + (b + c)
  {}

  lemma AttestationReads(fact: BridgeFact, sigs: seq<SignerSig>)
    requires WellFormed(Attestation(fact, sigs))
    ensures ParseAttestation([ENVELOPE_VERSION] + Facts.Encode(fact) + Le(|sigs|, 4) + SigList(sigs)) == Ok(Attestation(fact, sigs))
  {
    Widths();
    AttestationBody(fact, |sigs|, SigList(sigs));
    FactRoundTrip(fact);
    SigsRoundTrip(sigs, None, []);
    assert SigList(sigs) + [] == SigList(sigs);
  }

  /** The two pieces of an accepted attestation, put back together. */
  lemma FactInverse(s: seq<u8>)
    requires |s| >= 1 && s[0] == ENVELOPE_VERSION && Take(s[1..], FACT_ENCODED_LEN).Ok?
    requires Facts.Decode(Take(s[1..], FACT_ENCODED_LEN).value.0).Ok?
    ensures var (bytes, after) := Take(s[1..], FACT_ENCODED_LEN).value; var fact := Facts.Decode(bytes).value;
      fact.version == FACT_VERSION && s == [ENVELOPE_VERSION] + Facts.Encode(fact) + after
  {
    var (bytes, after) := Take(s[1..], FACT_ENCODED_LEN).value;
    FactCanonical(bytes);
    FactRoundTrip(Facts.Decode(bytes).value);
    assert s == [s[0]] + s[1..] && s[1..] == bytes + after;
  }

  lemma AttestationCanonical(s: seq<u8>)
    requires ParseAttestation(s).Ok?
    ensures var a := ParseAttestation(s).value;
      && a.Attestation? && WellFormed(a)
      && s == [ENVELOPE_VERSION] + Facts.Encode(a.fact) + Le(|a.signatures|, 4) + SigList(a.signatures)
  {
    FactInverse(s);
    var after := Take(s[1..], FACT_ENCODED_LEN).value.1;
    var (count, list) := TakeLe(after, 4).value;
    TakeLeInverse(after, 4);
    Widths();
    SigsCanonical(list, count, None);
    var a := ParseAttestation(s).value;
    assert SigList(a.signatures) + [] == list;
    assert s == [ENVELOPE_VERSION] + Facts.Encode(a.fact) + (Le(count, 4) + list);
  }

  lemma StarkReads(digest: Bytes32, proof: seq<u8>)
    requires |proof| < 0x1_0000_0000
    ensures ParseStark(digest + (Le(|proof|, 4) + proof)) == Ok(Stark(digest, proof))
  {
    Widths();
    TakeConcat(digest, Le(|proof|, 4) + proof);
    TakeBytesConcat(proof, 4, []);
    assert Le(|proof|, 4) + proof + [] == Le(|proof|, 4) + proof;
  }

  lemma StarkCanonical(s: seq<u8>)
    requires ParseStark(s).Ok?
    ensures var a := ParseStark(s).value;
      a.Stark? && WellFormed(a) && s == a.statementDigest + (Le(|a.proof|, 4) + a.proof)
  {
    Widths();
    var (digest, after) := Take(s, 32).value;
    TakeBytesInverse(after, 4);
    assert s == digest + after;
    var proof := TakeBytes(after, 4).value.0;
    assert Le(|proof|, 4) + proof + [] == Le(|proof|, 4) + proof;
  }

  /** Canonical: whatever bytes the parser accepts, encoding the artifact gives those bytes back. */
  lemma EncodeOfParse(s: seq<u8>)
    requires Parse(s).Ok?
    ensures WellFormed(Parse(s).value) && EncodeArtifact(Parse(s).value) == Some(s)
  {
    assert s == [s[0]] + s[1..];
    if s[0] == ARTIFACT_ATTESTATION {
      AttestationCanonical(s[1..]);
      var a := Parse(s).value;
      SortSorted(a.signatures);
      TwoTags(ARTIFACT_ATTESTATION, ENVELOPE_VERSION, Facts.Encode(a.fact), Le(|a.signatures|, 4), SigList(a.signatures));
    } else {
      StarkCanonical(s[1..]);
      var a := Parse(s).value;
      assert s == [ARTIFACT_STARK] + a.statementDigest + (Le(|a.proof|, 4) + a.proof);
    }
  }

  lemma TwoTags(x: u8, y: u8, a: seq<u8>, b: seq<u8>, c: seq<u8>)
    ensures [x, y] + a + b + c == [x] + ([y] + a + b + c)
  {
    assert [x, y] == [x] + [y];
  }

  /** An artifact the parser can produce is what its own encoding parses to. */
  lemma ParseOfEncode(a: Artifact)
    requires WellFormed(a)
    ensures EncodeArtifact(a).Some? && Parse(EncodeArtifact(a).value) == Ok(a)
  {
    match a
    case Attestation(fact, sigs) =>
      SortSorted(sigs);
      AttestationReads(fact, sigs);
      TwoTags(ARTIFACT_ATTESTATION, ENVELOPE_VERSION, Facts.Encode(fact), Le(|sigs|, 4), SigList(sigs));
    case Stark(digest, proof) =>
      StarkReads(digest, proof);
      var rest := digest + (Le(|proof|, 4) + proof);
      assert [ARTIFACT_STARK] + digest + (Le(|proof|, 4) + proof) == [ARTIFACT_STARK] + rest;
  }

  /** An attestation survives the round trip, its signatures put in id order, exactly when its fact has the
      known version and its ids are distinct, at least one and countable. */
  lemma AttestationRoundTrip(fact: BridgeFact, sigs: seq<SignerSig>)
    requires LengthsFit(sigs)
    ensures EncodeArtifact(Attestation(fact, sigs)).Some?
    ensures Parse(EncodeArtifact(Attestation(fact, sigs)).value) == Ok(Attestation(fact, SortById(sigs)))
       <==> fact.version == FACT_VERSION && 0 < |sigs| < 0x1_0000_0000 && Distinct(sigs)
  {
    var sorted := Attestation(fact, SortById(sigs));
    SortKeeps(sigs);
    SameLengths(sigs, SortById(sigs));
    SortDistinct(sigs);
    SortSorted(SortById(sigs));
    if WellFormed(sorted) {
      ParseOfEncode(sorted);
    } else if Parse(EncodeArtifact(Attestation(fact, sigs)).value) == Ok(sorted) {
      EncodeOfParse(EncodeArtifact(Attestation(fact, sigs)).value);
    }
  }

  // ---------------------------------------------------------------- the loops

  lemma {:induction false} ListAppend(sigs: seq<SignerSig>, x: SignerSig)
    ensures SigList(sigs + [x]) == SigList(sigs) + SigBytes(x)
  {
    if sigs == [] {
      assert sigs + [x] == [x] && SigList([x]) == SigBytes(x) + SigList([]);
    } else {
      ListAppend(sigs[1..], x);
      assert (sigs + [x])[1..] == sigs[1..] + [x];
    }
  }

  /** The signature loop of `AttestationEnvelope::encode`; None is the panic on a signature too long for its prefix. */
  method WriteSigs(buf: seq<u8>, sigs: seq<SignerSig>) returns (out: Option<seq<u8>>)
    ensures out == if LengthsFit(sigs) then Some(buf + SigList(sigs)) else None
  {
    var grown := buf;
    for i := 0 to |sigs|
      invariant grown == buf + SigList(sigs[..i])
      invariant LengthsFit(sigs[..i])
    {
      if |sigs[i].signature| >= 0x1_0000 {
        return None;
      }
      ListAppend(sigs[..i], sigs[i]);
      assert sigs[..i + 1] == sigs[..i] + [sigs[i]];
      grown := grown + SigBytes(sigs[i]);
    }
    assert sigs[..|sigs|] == sigs;
    return Some(grown);
  }

  /** `AttestationEnvelope::encode`. */
  method WriteAttestation(fact: BridgeFact, sigs: seq<SignerSig>) returns (out: Option<seq<u8>>)
    ensures out == EncodeArtifact(Attestation(fact, sigs))
  {
    SortKeeps(sigs);
    var sorted := SortById(sigs);
    if LengthsFit(sigs) {
      SameLengths(sigs, sorted);
    } else if LengthsFit(sorted) {
      SameLengths(sorted, sigs);
    }
    out := WriteSigs([ARTIFACT_ATTESTATION, ENVELOPE_VERSION] + Facts.Encode(fact) + Le(|sigs|, 4), sorted);
  }

  /** A parse that begins with signatures already read. */
  ghost function Onto(done: seq<SignerSig>, r: Result<(seq<SignerSig>, seq<u8>), AirlockError>):
    Result<(seq<SignerSig>, seq<u8>), AirlockError>
  {
    if r.Err? then r else Ok((done + r.value.0, r.value.1))
  }

  lemma OntoEnds(s: seq<u8>, done: seq<SignerSig>, last: Option<u32>, r: Result<(seq<SignerSig>, seq<u8>), AirlockError>)
    ensures Onto([], r) == r && Onto(done, ParseSigs(s, 0, last)) == Ok((done, s))
  {
    assert done + [] == done;
    if r.Ok? {
      assert [] + r.value.0 == r.value.0;
    }
  }

  lemma OntoStep(s: seq<u8>, count: nat, last: Option<u32>, done: seq<SignerSig>)
    requires count > 0 && ParseSig(s, last).Ok?
    ensures var (x, rest) := ParseSig(s, last).value;
      Onto(done, ParseSigs(s, count, last)) == Onto(done + [x], ParseSigs(rest, count - 1, Some(x.operatorId)))
  {
    var (x, rest) := ParseSig(s, last).value;
    var r := ParseSigs(rest, count - 1, Some(x.operatorId));
    if r.Ok? {
      assert done + ([x] + r.value.0) == done + [x] + r.value.0;
    }
  }

  /** One turn of the loop of `parse_attestation`. */
  method ReadSig(r: Reader, last: Option<u32>) returns (out: Result<SignerSig, AirlockError>)
    requires r.Valid()
    modifies r
    ensures r.Valid()
    ensures match ParseSig(old(r.Rest()), last)
      case Ok(p) => out == Ok(p.0) && r.Rest() == p.1
      case Err(e) => out == Err(e)
  {
    Widths();
    var id := r.Number(4);
    if id.Err? {
      return Err(Malformed(id.error));
    }
    if last.Some? && id.value <= last.value {
      return Err(NonCanonical);
    }
    var sig := r.Prefixed(2);
    if sig.Err? {
      return Err(Malformed(sig.error));
    }
    return Ok(SignerSig(id.value, sig.value));
  }

  /** The loop of `parse_attestation` over a moving reader. */
  method ReadSigs(r: Reader, count: nat) returns (out: Result<seq<SignerSig>, AirlockError>)
    requires r.Valid()
    modifies r
    ensures r.Valid()
    ensures match ParseSigs(old(r.Rest()), count, None)
      case Ok(p) => out == Ok(p.0) && r.Rest() == p.1
      case Err(e) => out == Err(e)
  {
    ghost var whole := ParseSigs(r.Rest(), count, None);
    var sigs: seq<SignerSig> := [];
    var last: Option<u32> := None;
    OntoEnds([], [], None, whole);
    for i := 0 to count
      invariant r.Valid()
      invariant whole == Onto(sigs, ParseSigs(r.Rest(), count - i, last))
    {
      ghost var before := r.Rest();
      var one := ReadSig(r, last);
      if one.Err? {
        return Err(one.error);
      }
      OntoStep(before, count - i, last, sigs);
      sigs := sigs + [one.value];
      last := Some(one.value.operatorId);
    }
    OntoEnds(r.Rest(), sigs, last, whole);
    return Ok(sigs);
  }

  /** `parse_attestation`. */
  method ReadAttestation(r: Reader) returns (out: Result<Artifact, AirlockError>)
    requires r.Valid()
    modifies r
    ensures r.Valid() && out == ParseAttestation(old(r.Rest()))
  {
    ghost var s := r.Rest();
    var version := r.Fixed(1);
    if version.Err? {
      return Err(Malformed(version.error));
    }
    if version.value[0] != ENVELOPE_VERSION {
      return Err(BadEnvelopeVersion);
    }
    var bytes := r.Fixed(FACT_ENCODED_LEN);
    if bytes.Err? {
      return Err(Malformed(bytes.error));
    }
    var fact := Facts.Decode(bytes.value);
    if fact.Err? {
      return Err(Malformed(fact.error));
    }
    var count := r.Number(4);
    if count.Err? {
      return Err(Malformed(count.error));
    }
    if count.value == 0 {
      return Err(NonCanonical);
    }
    var sigs := ReadSigs(r, count.value);
    if sigs.Err? {
      return Err(sigs.error);
    }
    var left := r.Remaining();
    return if left > 0 then Err(Malformed(TrailingBytes)) else Ok(Attestation(fact.value, sigs.value));
  }
}
