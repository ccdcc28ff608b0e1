/** The wire's JSON: printer and recursive descent parser (q-runtime: json.rs). */
module JsonText {
  import opened Machine

  const MAX_DEPTH: nat := 64
  const MAX_NODES: nat := 200_000

  datatype Json =
    | Null
    | Bool(b: bool)
    | Int(n: u64)
    | Str(s: string)
    | Array(items: seq<Json>)
    | Object(fields: seq<(string, Json)>)

  // ---------------------------------------------------------------- digits

  predicate IsDigit(c: char) {
    '0' <= c <= '9'
  }

  function DigitChar(d: nat): (c: char)
    requires d < 10
    ensures IsDigit(c) && c as int - '0' as int == d
  {
    ('0' as int + d) as char
  }

  function DigitValue(c: char): nat
    requires IsDigit(c)
  {
    c as int - '0' as int
  }

  predicate AllDigits(s: string) {
    forall i :: 0 <= i < |s| ==> IsDigit(s[i])
  }

  /** `to_string` of a number. */
  function Decimal(n: nat): (s: string)
    ensures |s| >= 1 && AllDigits(s) && (n < 10 <==> |s| == 1)
  {
    if n < 10 then [DigitChar(n)] else Decimal(n / 10) + [DigitChar(n % 10)]
  }

  function DecimalValue(s: string): nat
    requires AllDigits(s)
  {
    if s == [] then 0 else DecimalValue(s[..|s| - 1]) * 10 + DigitValue(s[|s| - 1])
  }

  lemma {:induction false} DecimalRoundTrip(n: nat)
    ensures DecimalValue(Decimal(n)) == n && (n >= 10 ==> Decimal(n)[0] != '0')
  {
    if n < 10 {
      assert Decimal(n)[..0] == [];
    } else {
      DecimalRoundTrip(n / 10);
      var s := Decimal(n);
      assert s[..|s| - 1] == Decimal(n / 10);
      assert s[0] == Decimal(n / 10)[0];
      if n / 10 < 10 {
        assert s[0] == DigitChar(n / 10);
      }
    }
  }

  /** The digits a text starts with, and what follows them. */
  function TakeDigits(s: string): (p: (string, string))
    ensures AllDigits(p.0) && |p.0| + |p.1| == |s|
    ensures s != [] && IsDigit(s[0]) ==> |p.1| < |s|
  {
    if s == [] || !IsDigit(s[0]) then ([], s)
    else
      var p := TakeDigits(s[1..]);
      ([s[0]] + p.0, p.1)
  }

  predicate StartsWithDigit(s: string) {
    s != [] && IsDigit(s[0])
  }

  lemma {:induction false} TakeDigitsStops(ds: string, rest: string)
    requires AllDigits(ds) && !StartsWithDigit(rest)
    ensures TakeDigits(ds + rest) == (ds, rest)
  {
    if ds == [] {
      assert ds + rest == rest;
    } else {
      TakeDigitsStops(ds[1..], rest);
      assert (ds + rest)[1..] == ds[1..] + rest;
      assert [ds[0]] + ds[1..] == ds;
    }
  }

  // ---------------------------------------------------------------- strings

  function HexChar(d: nat): char
    requires d < 16
  {
    if d < 10 then ('0' as int + d) as char else ('a' as int + d - 10) as char
  }

  /** `to_digit(16)`. */
  function HexValue(c: char): Option<nat> {
    if '0' <= c <= '9' then Some(c as int - '0' as int)
    else if 'a' <= c <= 'f' then Some(c as int - 'a' as int + 10)
    else if 'A' <= c <= 'F' then Some(c as int - 'A' as int + 10)
    else None
  }

  /** One character as `write_string` writes it. */
  function WriteChar(c: char): string {
    if c == '"' then "\\\""
    else if c == '\\' then "\\\\"
    else if c == '\n' then "\\n"
    else if c == '\r' then "\\r"
    else if c == '\t' then "\\t"
    else if c < ' ' then ['\\', 'u', '0', '0', HexChar(c as int / 16), HexChar(c as int % 16)]
    else [c]
  }

  function WriteChars(s: string): string {
    if s == [] then [] else WriteChar(s[0]) + WriteChars(s[1..])
  }

  function WriteString(s: string): string {
    ['"'] + (WriteChars(s) + ['"'])
  }

  /** `unicode_escape`: four hexadecimal digits naming a character that is not half of a surrogate pair. */
  function UnicodeEscape(s: string): Option<(char, string)> {
    if |s| < 4 || HexValue(s[0]).None? || HexValue(s[1]).None? || HexValue(s[2]).None? || HexValue(s[3]).None? then None
    else
      var code := ((HexValue(s[0]).value * 16 + HexValue(s[1]).value) * 16 + HexValue(s[2]).value) * 16 + HexValue(s[3]).value;
      if 0xD800 <= code < 0xE000 || code >= 0x1_0000 then None else Some((code as char, s[4..]))
  }

  /** What follows a backslash. */
  function Escape(s: string): Option<(char, string)> {
    if s == [] then None
    else if s[0] == 'u' then UnicodeEscape(s[1..])
    else if s[0] == '"' || s[0] == '\\' || s[0] == '/' then Some((s[0], s[1..]))
    else if s[0] == 'n' then Some(('\n', s[1..]))
    else if s[0] == 'r' then Some(('\r', s[1..]))
    else if s[0] == 't' then Some(('\t', s[1..]))
    else if s[0] == 'b' then Some(('\U{8}', s[1..]))
    else if s[0] == 'f' then Some(('\U{C}', s[1..]))
    else None
  }

  /** One character inside a string, escaped or not; a quote and a raw control character are none. */
  function TakeChar(s: string): Option<(char, string)> {
    if s == [] || s[0] == '"' || s[0] < ' ' then None
    else if s[0] == '\\' then Escape(s[1..])
    else Some((s[0], s[1..]))
  }

  lemma TakeCharShortens(s: string)
    ensures TakeChar(s).Some? ==> |TakeChar(s).value.1| < |s|
  {}

  /** A string past its opening quote, through its closing one. */
  function TakeString(s: string): (r: Option<(string, string)>)
    ensures r.Some? ==> |r.value.1| < |s|
    decreases |s|
  {
    if s != [] && s[0] == '"' then Some(([], s[1..]))
    else
      TakeCharShortens(s);
      var c := TakeChar(s);
      if c.None? then None
      else
        var rest := TakeString(c.value.1);
        if rest.None? then None else Some(([c.value.0] + rest.value.0, rest.value.1))
  }

  lemma HexRoundTrip(d: nat)
    requires d < 16
    ensures HexValue(HexChar(d)) == Some(d)
  {}

  lemma ControlReads(c: char, rest: string)
    requires c < ' '
    ensures TakeChar(['\\', 'u', '0', '0', HexChar(c as int / 16), HexChar(c as int % 16)] + rest) == Some((c, rest))
  {
    HexRoundTrip(c as int / 16);
    HexRoundTrip(c as int % 16);
    var s := ['\\', 'u', '0', '0', HexChar(c as int / 16), HexChar(c as int % 16)] + rest;
    var t := ['0', '0', HexChar(c as int / 16), HexChar(c as int % 16)] + rest;
    assert s[1..][1..] == t && t[4..] == rest;
  }

  lemma CharReads(c: char, rest: string)
    ensures TakeChar(WriteChar(c) + rest) == Some((c, rest)) && WriteChar(c)[0] != '"'
  {
    if c < ' ' && c != '\n' && c != '\r' && c != '\t' {
      ControlReads(c, rest);
    } else if |WriteChar(c)| == 2 {
      var s := WriteChar(c) + rest;
      assert s[1..][1..] == rest;
    } else {
      assert (WriteChar(c) + rest)[1..] == rest;
    }
  }

  lemma CharsCons(s: string, end: string)
    requires s != []
    ensures WriteChars(s) + end == WriteChar(s[0]) + (WriteChars(s[1..]) + end)
    ensures WriteChars(s) + end != [] && (WriteChars(s) + end)[0] == WriteChar(s[0])[0]
  {}

  lemma {:induction false} StringReads(s: string, rest: string)
    ensures TakeString(WriteChars(s) + (['"'] + rest)) == Some((s, rest))
  {
    var end := ['"'] + rest;
    if s == [] {
      assert WriteChars(s) + end == end;
    } else {
      StringReads(s[1..], rest);
      CharReads(s[0], WriteChars(s[1..]) + end);
      CharsCons(s, end);
      assert [s[0]] + s[1..] == s;
    }
  }

  // ---------------------------------------------------------------- printing

  function Render(j: Json): string {
    match j
    case Null => "null"
    case Bool(b) => if b then "true" else "false"
    case Int(n) => Decimal(n)
    case Str(s) => WriteString(s)
    case Array(items) => ['['] + (RenderItems(items) + [']'])
    case Object(fields) => ['{'] + (RenderFields(fields) + ['}'])
  }

  function RenderItems(items: seq<Json>): string {
    if items == [] then []
    else if |items| == 1 then Render(items[0])
    else Render(items[0]) + ([','] + RenderItems(items[1..]))
  }

  function RenderField(f: (string, Json)): string {
    WriteString(f.0) + ([':'] + Render(f.1))
  }

  function RenderFields(fields: seq<(string, Json)>): string {
    if fields == [] then []
    else if |fields| == 1 then RenderField(fields[0])
    else RenderField(fields[0]) + ([','] + RenderFields(fields[1..]))
  }

  // ---------------------------------------------------------------- budgets

  function Nodes(j: Json): (n: nat)
    ensures n >= 1
  {
    match j
    case Array(items) => 1 + NodesOf(items)
    case Object(fields) => 1 + NodesIn(fields)
    case _ => 1
  }

  function NodesOf(items: seq<Json>): nat {
    if items == [] then 0 else Nodes(items[0]) + NodesOf(items[1..])
  }

  function NodesIn(fields: seq<(string, Json)>): nat {
    if fields == [] then 0 else NodesAt(fields[0]) + NodesIn(fields[1..])
  }

  function NodesAt(f: (string, Json)): nat {
    Nodes(f.1)
  }

  /** How many containers are open at the deepest point. */
  function Depth(j: Json): nat {
    match j
    case Array(items) => 1 + DepthOf(items)
    case Object(fields) => 1 + DepthIn(fields)
    case _ => 0
  }

  function DepthOf(items: seq<Json>): nat {
    if items == [] then 0 else Max(Depth(items[0]), DepthOf(items[1..]))
  }

  function DepthIn(fields: seq<(string, Json)>): nat {
    if fields == [] then 0 else Max(DepthAt(fields[0]), DepthIn(fields[1..]))
  }

  function DepthAt(f: (string, Json)): nat {
    Depth(f.1)
  }

  /** No object repeats a key. */
  predicate KeysDistinct(j: Json) {
    match j
    case Array(items) => KeysDistinctOf(items)
    case Object(fields) => KeysDistinctIn(fields, {})
    case _ => true
  }

  predicate KeysDistinctOf(items: seq<Json>) {
    items != [] ==> KeysDistinct(items[0]) && KeysDistinctOf(items[1..])
  }

  /** The keys differ from each other and from those seen. */
  predicate KeysDistinctIn(fields: seq<(string, Json)>, seen: set<string>) {
    fields != [] ==>
      fields[0].0 !in seen && KeysDistinctAt(fields[0]) && KeysDistinctIn(fields[1..], seen + {fields[0].0})
  }

  predicate KeysDistinctAt(f: (string, Json)) {
    KeysDistinct(f.1)
  }

  // ---------------------------------------------------------------- parsing

  predicate IsSpace(c: char) {
    c == ' ' || c == '\t' || c == '\n' || c == '\r'
  }

  function SkipSpace(s: string): (r: string)
    ensures |r| <= |s|
  {
    if s != [] && IsSpace(s[0]) then SkipSpace(s[1..]) else s
  }

  /** A value, the text after it and the nodes counted so far. */
  datatype Parsed<T> = Fail | Done(value: T, rest: string, nodes: nat)

  function Literal(s: string, word: string, j: Json, nodes: nat): Parsed<Json> {
    if |word| <= |s| && s[..|word|] == word then Done(j, s[|word|..], nodes) else Fail
  }

  /** `number`, on a text that starts with a digit. A text that starts with a minus never parses. */
  function Number(s: string, nodes: nat): Parsed<Json> {
    var (ds, rest) := TakeDigits(s);
    if (|ds| > 1 && ds[0] == '0') || DecimalValue(ds) > U64_MAX then Fail else Done(Int(DecimalValue(ds)), rest, nodes)
  }

  /** `value`, at a depth, with nodes counted so far. */
  function Value(s: string, depth: nat, nodes: nat): (r: Parsed<Json>)
    ensures r.Done? ==> |r.rest| < |s|
    decreases |s|, 0
  {
    var t := SkipSpace(s);
    if nodes >= MAX_NODES || t == [] then Fail
    else if t[0] == '{' then (if depth >= MAX_DEPTH then Fail else ObjectBody(t[1..], depth + 1, nodes + 1))
    else if t[0] == '[' then (if depth >= MAX_DEPTH then Fail else ArrayBody(t[1..], depth + 1, nodes + 1))
    else if t[0] == '"' then
      var str := TakeString(t[1..]);
      if str.None? then Fail else Done(Str(str.value.0), str.value.1, nodes + 1)
    else if t[0] == 't' then Literal(t, "true", Bool(true), nodes + 1)
    else if t[0] == 'f' then Literal(t, "false", Bool(false), nodes + 1)
    else if t[0] == 'n' then Literal(t, "null", Null, nodes + 1)
    else if IsDigit(t[0]) then Number(t, nodes + 1)
    else Fail
  }

  /** An array past its opening bracket. */
  function ArrayBody(s: string, depth: nat, nodes: nat): (r: Parsed<Json>)
    ensures r.Done? ==> |r.rest| <= |s|
    decreases |s|, 2
  {
    var t := SkipSpace(s);
    if t != [] && t[0] == ']' then Done(Array([]), t[1..], nodes)
    else
      var r := Elements(t, depth, nodes);
      if r.Fail? then Fail else Done(Array(r.value), r.rest, r.nodes)
  }

  /** A list with one more item in front. */
  function Prepend<T>(x: T, r: Parsed<seq<T>>): Parsed<seq<T>> {
    if r.Fail? then Fail else Done([x] + r.value, r.rest, r.nodes)
  }

  function Elements(s: string, depth: nat, nodes: nat): (r: Parsed<seq<Json>>)
    ensures r.Done? ==> |r.rest| <= |s|
    decreases |s|, 1
  {
    var v := Value(s, depth, nodes);
    if v.Fail? then Fail else Prepend(v.value, ElementsTail(v.rest, depth, v.nodes))
  }

  /** What follows an item: the end, or a comma and more. */
  function ElementsTail(s: string, depth: nat, nodes: nat): (r: Parsed<seq<Json>>)
    ensures r.Done? ==> |r.rest| <= |s|
    decreases |s|, 0
  {
    var t := SkipSpace(s);
    if t == [] then Fail
    else if t[0] == ']' then Done([], t[1..], nodes)
    else if t[0] == ',' then Elements(t[1..], depth, nodes)
    else Fail
  }

  /** An object past its opening brace. */
  function ObjectBody(s: string, depth: nat, nodes: nat): (r: Parsed<Json>)
    ensures r.Done? ==> |r.rest| <= |s|
    decreases |s|, 3
  {
    var t := SkipSpace(s);
    if t != [] && t[0] == '}' then Done(Object([]), t[1..], nodes)
    else
      var r := Members(t, depth, nodes, {});
      if r.Fail? then Fail else Done(Object(r.value), r.rest, r.nodes)
  }

  /** A key not seen before and the text after its colon. */
  function TakeKey(s: string, seen: set<string>): (r: Option<(string, string)>)
    ensures r.Some? ==> |r.value.1| < |s|
  {
    var t := SkipSpace(s);
    if t == [] || t[0] != '"' then None
    else
      var key := TakeString(t[1..]);
      if key.None? || key.value.0 in seen then None
      else
        var u := SkipSpace(key.value.1);
        if u == [] || u[0] != ':' then None else Some((key.value.0, u[1..]))
  }

  function Members(s: string, depth: nat, nodes: nat, seen: set<string>): (r: Parsed<seq<(string, Json)>>)
    ensures r.Done? ==> |r.rest| <= |s|
    decreases |s|, 1
  {
    var key := TakeKey(s, seen);
    if key.None? then Fail
    else
      var v := Value(key.value.1, depth, nodes);
      if v.Fail? then Fail
      else Prepend((key.value.0, v.value), MembersTail(v.rest, depth, v.nodes, seen + {key.value.0}))
  }

  /** What follows a field: the end, or a comma and more. */
  function MembersTail(s: string, depth: nat, nodes: nat, seen: set<string>): (r: Parsed<seq<(string, Json)>>)
    ensures r.Done? ==> |r.rest| <= |s|
    decreases |s|, 0
  {
    var t := SkipSpace(s);
    if t == [] then Fail
    else if t[0] == '}' then Done([], t[1..], nodes)
    else if t[0] == ',' then Members(t[1..], depth, nodes, seen)
    else Fail
  }

  /** `parse`. */
  function Parse(s: string): Option<Json> {
    var r := Value(SkipSpace(s), 0, 0);
    if r.Done? && SkipSpace(r.rest) == [] then Some(r.value) else None
  }

  // ---------------------------------------------------------------- parsed values keep the budgets

  ghost predicate Within<T>(r: Parsed<T>, nodes: nat, counted: nat, deepest: nat, depth: nat, distinct: bool) {
    r.Done? ==> distinct && r.nodes == nodes + counted && r.nodes <= MAX_NODES && depth + deepest <= MAX_DEPTH
  }

  /** Whatever parses has distinct keys and is within the depth and node budgets, which it used exactly. */
  lemma {:induction false} ValueWithin(s: string, depth: nat, nodes: nat)
    requires depth <= MAX_DEPTH && nodes <= MAX_NODES
    ensures var r := Value(s, depth, nodes);
      r.Done? ==> Within(r, nodes, Nodes(r.value), Depth(r.value), depth, KeysDistinct(r.value))
    decreases |s|, 0
  {
    var t := SkipSpace(s);
    if nodes < MAX_NODES && t != [] && depth < MAX_DEPTH {
      if t[0] == '{' {
        ObjectWithin(t[1..], depth + 1, nodes + 1);
      } else if t[0] == '[' {
        ArrayWithin(t[1..], depth + 1, nodes + 1);
      }
    }
  }

  lemma {:induction false} ArrayWithin(s: string, depth: nat, nodes: nat)
    requires depth <= MAX_DEPTH && nodes <= MAX_NODES
    ensures var r := ArrayBody(s, depth, nodes);
      r.Done? ==> r.value.Array? && Within(r, nodes, NodesOf(r.value.items), DepthOf(r.value.items), depth, KeysDistinctOf(r.value.items))
    decreases |s|, 2
  {
    ElementsWithin(SkipSpace(s), depth, nodes);
  }

  lemma {:induction false} ElementsWithin(s: string, depth: nat, nodes: nat)
    requires depth <= MAX_DEPTH && nodes <= MAX_NODES
    ensures var r := Elements(s, depth, nodes);
      r.Done? ==> Within(r, nodes, NodesOf(r.value), DepthOf(r.value), depth, KeysDistinctOf(r.value))
    decreases |s|, 1
  {
    if Elements(s, depth, nodes).Done? {
      var v := Value(s, depth, nodes);
      ValueWithin(s, depth, nodes);
      ElementsTailWithin(v.rest, depth, v.nodes);
      ItemsCons(v.value, ElementsTail(v.rest, depth, v.nodes).value);
    }
  }

  lemma {:induction false} ElementsTailWithin(s: string, depth: nat, nodes: nat)
    requires depth <= MAX_DEPTH && nodes <= MAX_NODES
    ensures var r := ElementsTail(s, depth, nodes);
      r.Done? ==> Within(r, nodes, NodesOf(r.value), DepthOf(r.value), depth, KeysDistinctOf(r.value))
    decreases |s|, 0
  {
    var t := SkipSpace(s);
    if t != [] && t[0] == ',' {
      ElementsWithin(t[1..], depth, nodes);
    }
  }

  lemma ItemsCons(j: Json, tail: seq<Json>)
    ensures NodesOf([j] + tail) == Nodes(j) + NodesOf(tail) && DepthOf([j] + tail) == Max(Depth(j), DepthOf(tail))
    ensures KeysDistinctOf([j] + tail) <==> KeysDistinct(j) && KeysDistinctOf(tail)
  {
    assert ([j] + tail)[1..] == tail;
  }

  lemma {:induction false} ObjectWithin(s: string, depth: nat, nodes: nat)
    requires depth <= MAX_DEPTH && nodes <= MAX_NODES
    ensures var r := ObjectBody(s, depth, nodes);
      r.Done? ==> r.value.Object? && Within(r, nodes, NodesIn(r.value.fields), DepthIn(r.value.fields), depth, KeysDistinctIn(r.value.fields, {}))
    decreases |s|, 3
  {
    MembersWithin(SkipSpace(s), depth, nodes, {});
  }

  lemma {:induction false} MembersWithin(s: string, depth: nat, nodes: nat, seen: set<string>)
    requires depth <= MAX_DEPTH && nodes <= MAX_NODES
    ensures var r := Members(s, depth, nodes, seen);
      r.Done? ==> Within(r, nodes, NodesIn(r.value), DepthIn(r.value), depth, KeysDistinctIn(r.value, seen))
    decreases |s|, 1
  {
    if Members(s, depth, nodes, seen).Done? {
      var (key, after) := TakeKey(s, seen).value;
      var v := Value(after, depth, nodes);
      ValueWithin(after, depth, nodes);
      MembersTailWithin(v.rest, depth, v.nodes, seen + {key});
      FieldsCons(key, v.value, MembersTail(v.rest, depth, v.nodes, seen + {key}).value, seen);
    }
  }

  lemma {:induction false} MembersTailWithin(s: string, depth: nat, nodes: nat, seen: set<string>)
    requires depth <= MAX_DEPTH && nodes <= MAX_NODES
    ensures var r := MembersTail(s, depth, nodes, seen);
      r.Done? ==> Within(r, nodes, NodesIn(r.value), DepthIn(r.value), depth, KeysDistinctIn(r.value, seen))
    decreases |s|, 0
  {
    var t := SkipSpace(s);
    if t != [] && t[0] == ',' {
      MembersWithin(t[1..], depth, nodes, seen);
    }
  }

  lemma FieldsCons(key: string, j: Json, tail: seq<(string, Json)>, seen: set<string>)
    ensures var fields := [(key, j)] + tail;
      && NodesIn(fields) == Nodes(j) + NodesIn(tail) && DepthIn(fields) == Max(Depth(j), DepthIn(tail))
      && (KeysDistinctIn(fields, seen) <==> key !in seen && KeysDistinct(j) && KeysDistinctIn(tail, seen + {key}))
  {
    assert ([(key, j)] + tail)[1..] == tail;
  }

  // ---------------------------------------------------------------- printed values parse

  /** What may follow a printed value: no digit after a number. */
  predicate Clean(j: Json, rest: string) {
    j.Int? ==> !StartsWithDigit(rest)
  }

  /** A value the parser has room for. */
  predicate Fits(j: Json, depth: nat, nodes: nat) {
    KeysDistinct(j) && depth + Depth(j) <= MAX_DEPTH && nodes + Nodes(j) <= MAX_NODES
  }

  lemma RenderStarts(j: Json)
    ensures Render(j) != [] && !IsSpace(Render(j)[0]) && Render(j)[0] != ']' && Render(j)[0] != '}'
  {}

  lemma NoSpace(s: string)
    requires s == [] || !IsSpace(s[0])
    ensures SkipSpace(s) == s
  {}

  lemma LiteralReads(word: string, rest: string, j: Json, nodes: nat)
    ensures Literal(word + rest, word, j, nodes) == Done(j, rest, nodes)
  {
    assert (word + rest)[..|word|] == word && (word + rest)[|word|..] == rest;
  }

  lemma NumberReads(n: u64, rest: string, nodes: nat)
    requires !StartsWithDigit(rest)
    ensures Number(Decimal(n) + rest, nodes) == Done(Int(n), rest, nodes)
  {
    TakeDigitsStops(Decimal(n), rest);
    DecimalRoundTrip(n);
  }

  lemma Quoted(x: string, tail: string)
    ensures var s := WriteString(x) + tail; s[0] == '"' && s[1..] == WriteChars(x) + (['"'] + tail)
  {}

  lemma StrReads(x: string, rest: string, depth: nat, nodes: nat)
    requires nodes < MAX_NODES
    ensures Value(WriteString(x) + rest, depth, nodes) == Done(Str(x), rest, nodes + 1)
  {
    Quoted(x, rest);
    NoSpace(WriteString(x) + rest);
    StringReads(x, rest);
  }

  lemma LeafReads(j: Json, rest: string, depth: nat, nodes: nat)
    requires !j.Array? && !j.Object? && Clean(j, rest) && nodes < MAX_NODES
    ensures Value(Render(j) + rest, depth, nodes) == Done(j, rest, nodes + 1)
  {
    var s := Render(j) + rest;
    RenderStarts(j);
    NoSpace(s);
    match j
    case Null => LiteralReads("null", rest, Null, nodes + 1);
    case Bool(b) => LiteralReads(if b then "true" else "false", rest, j, nodes + 1);
    case Int(n) =>
      NumberReads(n, rest, nodes + 1);
      assert s[0] == Decimal(n)[0];
    case Str(x) => StrReads(x, rest, depth, nodes);
  }

  lemma {:induction false} ValueReads(j: Json, rest: string, depth: nat, nodes: nat)
    requires Fits(j, depth, nodes) && Clean(j, rest)
    ensures Value(Render(j) + rest, depth, nodes) == Done(j, rest, nodes + Nodes(j))
    decreases j, 2
  {
    if j.Array? {
      ArrayValueReads(j, rest, depth, nodes);
    } else if j.Object? {
      ObjectValueReads(j, rest, depth, nodes);
    } else {
      LeafReads(j, rest, depth, nodes);
    }
  }

  lemma {:induction false} ArrayValueReads(j: Json, rest: string, depth: nat, nodes: nat)
    requires j.Array? && Fits(j, depth, nodes)
    ensures Value(Render(j) + rest, depth, nodes) == Done(j, rest, nodes + Nodes(j))
    decreases j, 1
  {
    FitsArray(j, depth, nodes);
    BracketReads(j.items, rest, depth, nodes);
    ArrayReads(j, j.items, rest, depth + 1, nodes + 1);
  }

  lemma FitsArray(j: Json, depth: nat, nodes: nat)
    requires j.Array? && Fits(j, depth, nodes)
    ensures depth < MAX_DEPTH && nodes < MAX_NODES && Nodes(j) == 1 + NodesOf(j.items)
    ensures ItemsFit(j.items, depth + 1, nodes + 1)
  {}

  lemma FitsObject(j: Json, depth: nat, nodes: nat)
    requires j.Object? && Fits(j, depth, nodes)
    ensures depth < MAX_DEPTH && nodes < MAX_NODES && Nodes(j) == 1 + NodesIn(j.fields)
    ensures FieldsFit(j.fields, depth + 1, nodes + 1, {})
  {}

  lemma {:induction false} ObjectValueReads(j: Json, rest: string, depth: nat, nodes: nat)
    requires j.Object? && Fits(j, depth, nodes)
    ensures Value(Render(j) + rest, depth, nodes) == Done(j, rest, nodes + Nodes(j))
    decreases j, 1
  {
    FitsObject(j, depth, nodes);
    BraceReads(j.fields, rest, depth, nodes);
    ObjectReads(j, j.fields, rest, depth + 1, nodes + 1);
  }

  lemma BracketReads(items: seq<Json>, rest: string, depth: nat, nodes: nat)
    requires depth < MAX_DEPTH && nodes < MAX_NODES
    ensures Value(Render(Array(items)) + rest, depth, nodes)
         == ArrayBody(RenderItems(items) + ([']'] + rest), depth + 1, nodes + 1)
  {
    var s := Render(Array(items)) + rest;
    assert s[0] == '[';
    NoSpace(s);
    assert s[1..] == RenderItems(items) + ([']'] + rest);
  }

  lemma BraceReads(fields: seq<(string, Json)>, rest: string, depth: nat, nodes: nat)
    requires depth < MAX_DEPTH && nodes < MAX_NODES
    ensures Value(Render(Object(fields)) + rest, depth, nodes)
         == ObjectBody(RenderFields(fields) + (['}'] + rest), depth + 1, nodes + 1)
  {
    var s := Render(Object(fields)) + rest;
    assert s[0] == '{';
    NoSpace(s);
    assert s[1..] == RenderFields(fields) + (['}'] + rest);
  }

  lemma {:induction false} ArrayReads(j: Json, items: seq<Json>, rest: string, depth: nat, nodes: nat)
    requires j == Array(items) && ItemsFit(items, depth, nodes)
    ensures ArrayBody(RenderItems(items) + ([']'] + rest), depth, nodes) == Done(j, rest, nodes + NodesOf(items))
    decreases j, 0
  {
    var s := RenderItems(items) + ([']'] + rest);
    if items == [] {
      assert s == [']'] + rest;
      NoSpace(s);
    } else {
      RenderStarts(items[0]);
      assert s[0] == Render(items[0])[0];
      NoSpace(s);
      ElementsRead(items, rest, depth, nodes);
    }
  }

  /** Items the parser has room for. */
  predicate ItemsFit(items: seq<Json>, depth: nat, nodes: nat) {
    KeysDistinctOf(items) && depth + DepthOf(items) <= MAX_DEPTH && nodes + NodesOf(items) <= MAX_NODES
  }

  lemma ItemsApart(items: seq<Json>, depth: nat, nodes: nat)
    requires items != [] && ItemsFit(items, depth, nodes)
    ensures Fits(items[0], depth, nodes) && ItemsFit(items[1..], depth, nodes + Nodes(items[0]))
    ensures NodesOf(items) == Nodes(items[0]) + NodesOf(items[1..])
  {
    assert items == [items[0]] + items[1..];
    ItemsCons(items[0], items[1..]);
  }

  /** What is printed after the first item. */
  function RenderItemsTail(items: seq<Json>, rest: string): string {
    if items == [] then [']'] + rest else [','] + (RenderItems(items) + ([']'] + rest))
  }

  lemma Regroup(a: string, b: string, c: string)
    ensures a + ([','] + b) + c == a + ([','] + (b + c))
  {}

  lemma ItemThenTail(items: seq<Json>, rest: string)
    requires items != []
    ensures RenderItems(items) + ([']'] + rest) == Render(items[0]) + RenderItemsTail(items[1..], rest)
  {
    if |items| > 1 {
      Regroup(Render(items[0]), RenderItems(items[1..]), [']'] + rest);
    }
  }

  lemma PrependRest<T>(items: seq<T>, rest: string, nodes: nat)
    requires items != []
    ensures Prepend(items[0], Done(items[1..], rest, nodes)) == Done(items, rest, nodes)
  {
    assert [items[0]] + items[1..] == items;
  }

  lemma ElementsStep(s: string, depth: nat, nodes: nat, j: Json, n: nat, tail: string)
    requires Value(s, depth, nodes) == Done(j, tail, n)
    ensures Elements(s, depth, nodes) == Prepend(j, ElementsTail(tail, depth, n))
  {}

  lemma {:induction false} ElementsRead(items: seq<Json>, rest: string, depth: nat, nodes: nat)
    requires items != [] && ItemsFit(items, depth, nodes)
    ensures Elements(RenderItems(items) + ([']'] + rest), depth, nodes) == Done(items, rest, nodes + NodesOf(items))
    decreases items, 1
  {
    var tail := RenderItemsTail(items[1..], rest);
    ItemsApart(items, depth, nodes);
    ItemThenTail(items, rest);
    ValueReads(items[0], tail, depth, nodes);
    ElementsStep(Render(items[0]) + tail, depth, nodes, items[0], nodes + Nodes(items[0]), tail);
    ElementsTailRead(items[1..], rest, depth, nodes + Nodes(items[0]));
    PrependRest(items, rest, nodes + NodesOf(items));
  }

  lemma {:induction false} ElementsTailRead(items: seq<Json>, rest: string, depth: nat, nodes: nat)
    requires ItemsFit(items, depth, nodes)
    ensures ElementsTail(RenderItemsTail(items, rest), depth, nodes) == Done(items, rest, nodes + NodesOf(items))
    decreases items, 2
  {
    var s := RenderItemsTail(items, rest);
    NoSpace(s);
    if items != [] {
      assert s[1..] == RenderItems(items) + ([']'] + rest);
      ElementsRead(items, rest, depth, nodes);
    }
  }

  lemma {:induction false} ObjectReads(j: Json, fields: seq<(string, Json)>, rest: string, depth: nat, nodes: nat)
    requires j == Object(fields) && FieldsFit(fields, depth, nodes, {})
    ensures ObjectBody(RenderFields(fields) + (['}'] + rest), depth, nodes) == Done(j, rest, nodes + NodesIn(fields))
    decreases j, 0
  {
    var s := RenderFields(fields) + (['}'] + rest);
    if fields == [] {
      assert s == ['}'] + rest;
      NoSpace(s);
    } else {
      assert RenderField(fields[0])[0] == '"';
      assert s[0] == '"';
      NoSpace(s);
      MembersRead(fields, rest, depth, nodes, {});
    }
  }

  lemma KeyReads(key: string, tail: string, seen: set<string>)
    requires key !in seen
    ensures TakeKey(WriteString(key) + ([':'] + tail), seen) == Some((key, tail))
  {
    var after := [':'] + tail;
    Quoted(key, after);
    NoSpace(WriteString(key) + after);
    StringReads(key, after);
    NoSpace(after);
    assert after[1..] == tail;
  }

  lemma FieldReads(f: (string, Json), tail: string)
    ensures RenderField(f) + tail == WriteString(f.0) + ([':'] + (Render(f.1) + tail))
  {}

  /** Fields the parser has room for. */
  predicate FieldsFit(fields: seq<(string, Json)>, depth: nat, nodes: nat, seen: set<string>) {
    KeysDistinctIn(fields, seen) && depth + DepthIn(fields) <= MAX_DEPTH && nodes + NodesIn(fields) <= MAX_NODES
  }

  lemma FitsApart(fields: seq<(string, Json)>, depth: nat, nodes: nat, seen: set<string>)
    requires fields != [] && FieldsFit(fields, depth, nodes, seen)
    ensures var f := fields[0];
      && f.0 !in seen && Fits(f.1, depth, nodes) && NodesIn(fields) == Nodes(f.1) + NodesIn(fields[1..])
      && FieldsFit(fields[1..], depth, nodes + Nodes(f.1), seen + {f.0})
  {
    var f := fields[0];
    assert fields == [(f.0, f.1)] + fields[1..];
    FieldsCons(f.0, f.1, fields[1..], seen);
  }

  /** One printed field reads, before anything that does not start with a digit. */
  lemma {:induction false} MemberReads(f: (string, Json), tail: string, depth: nat, nodes: nat, seen: set<string>)
    requires f.0 !in seen && Fits(f.1, depth, nodes) && !StartsWithDigit(tail)
    ensures TakeKey(RenderField(f) + tail, seen) == Some((f.0, Render(f.1) + tail))
    ensures Value(Render(f.1) + tail, depth, nodes) == Done(f.1, tail, nodes + Nodes(f.1))
    decreases f, 0
  {
    FieldReads(f, tail);
    KeyReads(f.0, Render(f.1) + tail, seen);
    ValueReads(f.1, tail, depth, nodes);
  }

  /** What is printed after the first field. */
  function RenderFieldsTail(fields: seq<(string, Json)>, rest: string): string {
    if fields == [] then ['}'] + rest else [','] + (RenderFields(fields) + (['}'] + rest))
  }

  lemma FieldThenTail(fields: seq<(string, Json)>, rest: string)
    requires fields != []
    ensures RenderFields(fields) + (['}'] + rest) == RenderField(fields[0]) + RenderFieldsTail(fields[1..], rest)
  {
    if |fields| > 1 {
      Regroup(RenderField(fields[0]), RenderFields(fields[1..]), ['}'] + rest);
    }
  }

  /** One turn of the members: a key, its value, and the rest of the fields. */
  lemma MembersTurn(s: string, depth: nat, nodes: nat, seen: set<string>, f: (string, Json), after: string, n: nat,
                    tail: string, more: Parsed<seq<(string, Json)>>)
    requires TakeKey(s, seen) == Some((f.0, after)) && Value(after, depth, nodes) == Done(f.1, tail, n)
    requires MembersTail(tail, depth, n, seen + {f.0}) == more
    ensures Members(s, depth, nodes, seen) == Prepend(f, more)
  {}

  /** The first field printed before a tail that reads as the others. */
  lemma {:induction false} FirstFieldReads(f: (string, Json), tail: string, depth: nat, nodes: nat, seen: set<string>,
                                           more: Parsed<seq<(string, Json)>>)
    requires f.0 !in seen && Fits(f.1, depth, nodes) && !StartsWithDigit(tail)
    requires MembersTail(tail, depth, nodes + Nodes(f.1), seen + {f.0}) == more
    ensures Members(RenderField(f) + tail, depth, nodes, seen) == Prepend(f, more)
    decreases f, 1
  {
    MemberReads(f, tail, depth, nodes, seen);
    MembersTurn(RenderField(f) + tail, depth, nodes, seen, f, Render(f.1) + tail, nodes + Nodes(f.1), tail, more);
  }

  lemma {:induction false} MembersRead(fields: seq<(string, Json)>, rest: string, depth: nat, nodes: nat, seen: set<string>)
    requires fields != [] && FieldsFit(fields, depth, nodes, seen)
    ensures Members(RenderFields(fields) + (['}'] + rest), depth, nodes, seen) == Done(fields, rest, nodes + NodesIn(fields))
    decreases fields, 1
  {
    var f, tail := fields[0], RenderFieldsTail(fields[1..], rest);
    FitsApart(fields, depth, nodes, seen);
    MembersTailRead(fields[1..], rest, depth, nodes + Nodes(f.1), seen + {f.0});
    FirstFieldReads(f, tail, depth, nodes, seen, Done(fields[1..], rest, nodes + NodesIn(fields)));
    FieldThenTail(fields, rest);
    PrependRest(fields, rest, nodes + NodesIn(fields));
  }

  lemma {:induction false} MembersTailRead(fields: seq<(string, Json)>, rest: string, depth: nat, nodes: nat, seen: set<string>)
    requires FieldsFit(fields, depth, nodes, seen)
    ensures MembersTail(RenderFieldsTail(fields, rest), depth, nodes, seen) == Done(fields, rest, nodes + NodesIn(fields))
    decreases fields, 2
  {
    var s := RenderFieldsTail(fields, rest);
    NoSpace(s);
    if fields != [] {
      assert s[1..] == RenderFields(fields) + (['}'] + rest);
      MembersRead(fields, rest, depth, nodes, seen);
    }
  }

  // ---------------------------------------------------------------- both ways

  /** The values `parse` can return. */
  predicate Parseable(j: Json) {
    KeysDistinct(j) && Depth(j) <= MAX_DEPTH && Nodes(j) <= MAX_NODES
  }

  /** A printed value parses back to itself exactly when no object repeats a key and it is within the budgets. */
  lemma ParseOfRender(j: Json)
    ensures Parse(Render(j)) == Some(j) <==> Parseable(j)
  {
    RenderStarts(j);
    NoSpace(Render(j));
    if Parseable(j) {
      ValueReads(j, [], 0, 0);
      assert Render(j) + [] == Render(j);
    }
    ValueWithin(Render(j), 0, 0);
  }

  /** Printing what was parsed and parsing it again changes nothing. */
  lemma ParseRenderParse(s: string)
    requires Parse(s).Some?
    ensures Parse(Render(Parse(s).value)) == Parse(s)
  {
    ValueWithin(SkipSpace(s), 0, 0);
    ParseOfRender(Parse(s).value);
  }
}
