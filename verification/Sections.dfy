/** Counted lists of fixed-size items, the repeating shape of the gateway's snapshot (q-gateway: gateway.rs). */
module Sections {
  import opened Machine
  import opened Bytes
  import opened Facts
  import opened Codec

  /** How one item is written in `size` bytes and read back. */
  datatype Item<!T> = Item(size: nat, enc: T -> seq<u8>, dec: seq<u8> -> Result<T, CodecError>)

  ghost predicate Faithful<T(!new)>(c: Item<T>) {
    c.size > 0 && forall t {:trigger c.enc(t)} :: |c.enc(t)| == c.size && c.dec(c.enc(t)) == Ok(t)
  }

  function Items<T>(c: Item<T>, items: seq<T>): seq<u8> {
    if items == [] then [] else c.enc(items[0]) + Items(c, items[1..])
  }

  /** A u32 count and that many items. */
  function Section<T>(c: Item<T>, items: seq<T>): seq<u8> {
    Le(|items|, 4) + Items(c, items)
  }

  function TakeItems<T>(c: Item<T>, s: seq<u8>, n: nat): Result<(seq<T>, seq<u8>), CodecError> {
    if n == 0 then Ok(([], s))
    else
      var chunk := Take(s, c.size);
      if chunk.Err? then Err(chunk.error)
      else
        var item := c.dec(chunk.value.0);
        if item.Err? then Err(item.error)
        else
          var rest := TakeItems(c, chunk.value.1, n - 1);
          if rest.Err? then rest else Ok(([item.value] + rest.value.0, rest.value.1))
  }

  /** `bounded_count` and the loop after it: a count the bytes left cannot hold is refused before anything is read. */
  function TakeSection<T>(c: Item<T>, s: seq<u8>): Result<(seq<T>, seq<u8>), CodecError>
    requires c.size > 0
  {
    var count := TakeLe(s, 4);
    if count.Err? then Err(count.error)
    else if count.value.0 > |count.value.1| / c.size then Err(LengthMismatch)
    else TakeItems(c, count.value.1, count.value.0)
  }

  lemma {:induction false} ItemsLength<T(!new)>(c: Item<T>, items: seq<T>)
    requires Faithful(c)
    ensures |Items(c, items)| == |items| * c.size
  {
    if items != [] {
      ItemsLength(c, items[1..]);
    }
  }

  lemma {:induction false} ItemsRoundTrip<T(!new)>(c: Item<T>, items: seq<T>, rest: seq<u8>)
    requires Faithful(c)
    ensures TakeItems(c, Items(c, items) + rest, |items|) == Ok((items, rest))
  {
    if items == [] {
      assert Items(c, items) + rest == rest;
    } else {
      var tail := Items(c, items[1..]) + rest;
      ItemsRoundTrip(c, items[1..], rest);
      TakeConcat(c.enc(items[0]), tail);
      assert Items(c, items) + rest == c.enc(items[0]) + tail;
      assert [items[0]] + items[1..] == items;
    }
  }

  lemma Times(a: nat, b: nat, c: nat)
    requires a <= b
    ensures a * c <= b * c
  {}

  lemma Bounded(n: nat, size: nat, extra: nat)
    requires size > 0
    ensures n <= (n * size + extra) / size
  {
    var q := (n * size + extra) / size;
    if q < n {
      Times(q + 1, n, size);
      assert false;
    }
  }

  /** A section whose count fits 32 bits reads back, whatever follows it: the count passes its bound. */
  lemma SectionRoundTrip<T(!new)>(c: Item<T>, items: seq<T>, rest: seq<u8>)
    requires Faithful(c) && |items| < 0x1_0000_0000
    ensures TakeSection(c, Section(c, items) + rest) == Ok((items, rest))
  {
    var body := Items(c, items) + rest;
    Widths();
    TakeLeConcat(|items|, 4, body);
    ItemsLength(c, items);
    Bounded(|items|, c.size, |rest|);
    ItemsRoundTrip(c, items, rest);
    assert Section(c, items) + rest == Le(|items|, 4) + body;
  }

  // ---------------------------------------------------------------- collections from items

  /** Pairs inserted one after another. */
  function ToMap<K, V>(pairs: seq<(K, V)>): map<K, V> {
    if pairs == [] then map[]
    else ToMap(pairs[..|pairs| - 1])[pairs[|pairs| - 1].0 := pairs[|pairs| - 1].1]
  }

  function ToSet<T>(items: seq<T>): set<T> {
    set x | x in items
  }

  /** The pairs are those of the map, in any order. */
  predicate ListsMap<K, V(==)>(pairs: seq<(K, V)>, m: map<K, V>) {
    && (forall p :: p in pairs ==> p.0 in m && m[p.0] == p.1)
    && (forall k :: k in m ==> (k, m[k]) in pairs)
  }

  lemma {:induction false} MapOfPairs<K, V>(pairs: seq<(K, V)>, m: map<K, V>)
    requires forall p :: p in pairs ==> p.0 in m && m[p.0] == p.1
    ensures forall k :: k in ToMap(pairs) <==> k in m && (k, m[k]) in pairs
    ensures forall k :: k in ToMap(pairs) ==> k in m && ToMap(pairs)[k] == m[k]
  {
    if pairs != [] {
      var n := |pairs| - 1;
      MapOfPairs(pairs[..n], m);
      assert pairs == pairs[..n] + [pairs[n]];
    }
  }

  lemma MapOfListing<K, V>(pairs: seq<(K, V)>, m: map<K, V>)
    requires ListsMap(pairs, m)
    ensures ToMap(pairs) == m
  {
    MapOfPairs(pairs, m);
    assert forall k :: k in m ==> (k, m[k]) in pairs;
  }

  // ---------------------------------------------------------------- the loops

  lemma {:induction false} ItemsAppend<T>(c: Item<T>, items: seq<T>, x: T)
    ensures Items(c, items + [x]) == Items(c, items) + c.enc(x)
  {
    if items == [] {
      assert items + [x] == [x] && Items(c, [x]) == c.enc(x) + Items(c, []);
    } else {
      ItemsAppend(c, items[1..], x);
      assert (items + [x])[1..] == items[1..] + [x];
    }
  }

  /** The write loop of one section. */
  method WriteSection<T>(c: Item<T>, items: seq<T>) returns (out: seq<u8>)
    ensures out == Section(c, items)
  {
    out := Le(|items|, 4);
    for i := 0 to |items|
      invariant out == Le(|items|, 4) + Items(c, items[..i])
    {
      ItemsAppend(c, items[..i], items[i]);
      assert items[..i + 1] == items[..i] + [items[i]];
      out := out + c.enc(items[i]);
    }
    assert items[..|items|] == items;
  }

  ghost function Onto<T>(done: seq<T>, r: Result<(seq<T>, seq<u8>), CodecError>): Result<(seq<T>, seq<u8>), CodecError> {
    if r.Err? then r else Ok((done + r.value.0, r.value.1))
  }

  lemma OntoEnds<T>(c: Item<T>, done: seq<T>, s: seq<u8>, r: Result<(seq<T>, seq<u8>), CodecError>)
    ensures Onto([], r) == r && Onto(done, TakeItems(c, s, 0)) == Ok((done, s))
  {
    assert done + [] == done;
    if r.Ok? {
      assert [] + r.value.0 == r.value.0;
    }
  }

  lemma OntoStep<T>(c: Item<T>, done: seq<T>, s: seq<u8>, n: nat, x: T)
    requires n > 0 && c.size <= |s| && c.dec(s[..c.size]) == Ok(x)
    ensures Onto(done, TakeItems(c, s, n)) == Onto(done + [x], TakeItems(c, s[c.size..], n - 1))
  {
    var r := TakeItems(c, s[c.size..], n - 1);
    if r.Ok? {
      assert done + ([x] + r.value.0) == done + [x] + r.value.0;
    }
  }

  /** One turn of a read loop. */
  method ReadItem<T>(c: Item<T>, r: Reader) returns (out: Result<T, CodecError>)
    requires r.Valid()
    modifies r
    ensures r.Valid()
    ensures match Take(old(r.Rest()), c.size)
      case Ok(p) => out == c.dec(p.0) && r.Rest() == p.1
      case Err(e) => out == Err(e)
  {
    var chunk := r.Fixed(c.size);
    out := if chunk.Err? then Err(chunk.error) else c.dec(chunk.value);
  }

  method ReadItems<T>(c: Item<T>, r: Reader, n: nat) returns (out: Result<seq<T>, CodecError>)
    requires r.Valid()
    modifies r
    ensures r.Valid()
    ensures match TakeItems(c, old(r.Rest()), n)
      case Ok(p) => out == Ok(p.0) && r.Rest() == p.1
      case Err(e) => out == Err(e)
  {
    ghost var whole := TakeItems(c, r.Rest(), n);
    var items: seq<T> := [];
    OntoEnds(c, [], [], whole);
    for i := 0 to n
      invariant r.Valid()
      invariant whole == Onto(items, TakeItems(c, r.Rest(), n - i))
    {
      ghost var before := r.Rest();
      var item := ReadItem(c, r);
      if item.Err? {
        return Err(item.error);
      }
      OntoStep(c, items, before, n - i, item.value);
      items := items + [item.value];
    }
    OntoEnds(c, items, r.Rest(), whole);
    return Ok(items);
  }

  /** One section read from a moving reader. */
  method ReadSection<T>(c: Item<T>, r: Reader) returns (out: Result<seq<T>, CodecError>)
    requires c.size > 0 && r.Valid()
    modifies r
    ensures r.Valid()
    ensures match TakeSection(c, old(r.Rest()))
      case Ok(p) => out == Ok(p.0) && r.Rest() == p.1
      case Err(e) => out == Err(e)
  {
    var count := r.Number(4);
    if count.Err? {
      return Err(count.error);
    }
    var left := r.Remaining();
    if count.value > left / c.size {
      return Err(LengthMismatch);
    }
    out := ReadItems(c, r, count.value);
  }
}
