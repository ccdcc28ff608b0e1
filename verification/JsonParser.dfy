/** The parser and the printer as the source runs them: a moving position, loops and a growing buffer
    (q-runtime: json.rs). */
module JsonParser {
  import opened Machine
  import opened JsonText

  // ---------------------------------------------------------------- lists built in a loop

  /** A parse that begins with items already read. */
  ghost function Onto<T>(done: seq<T>, r: Parsed<seq<T>>): Parsed<seq<T>> {
    if r.Fail? then Fail else Done(done + r.value, r.rest, r.nodes)
  }

  lemma OntoNothing<T>(r: Parsed<seq<T>>)
    ensures Onto([], r) == r
  {
    if r.Done? {
      assert [] + r.value == r.value;
    }
  }

  lemma OntoPrepend<T>(done: seq<T>, x: T, r: Parsed<seq<T>>)
    ensures Onto(done, Prepend(x, r)) == Onto(done + [x], r)
  {
    if r.Done? {
      assert done + ([x] + r.value) == done + [x] + r.value;
    }
  }

  lemma OntoEnd<T>(done: seq<T>, rest: string, nodes: nat)
    ensures Onto(done, Done([], rest, nodes)) == Done(done, rest, nodes)
  {
    assert done + [] == done;
  }

  lemma {:induction false} DigitsStop(s: string, k: nat)
    requires k <= |s| && AllDigits(s[..k]) && !StartsWithDigit(s[k..])
    ensures TakeDigits(s) == (s[..k], s[k..])
  {
    TakeDigitsStops(s[..k], s[k..]);
    assert s[..k] + s[k..] == s;
  }

  class Parser {
    const chars: string
    var pos: nat
    var depth: nat
    var nodes: nat

    ghost predicate Valid()
      reads this
    {
      pos <= |chars|
    }

    ghost function Rest(): string
      requires Valid()
      reads this
    {
      chars[pos..]
    }

    constructor (input: string)
      ensures Valid() && Rest() == input && chars == input && pos == 0 && depth == 0 && nodes == 0
    {
      chars := input;
      pos, depth, nodes := 0, 0, 0;
    }

    method SkipWs()
      requires Valid()
      modifies this`pos
      ensures Valid() && Rest() == SkipSpace(old(Rest())) && pos >= old(pos)
    {
      while pos < |chars| && IsSpace(chars[pos])
        invariant Valid() && pos >= old(pos)
        invariant SkipSpace(chars[pos..]) == SkipSpace(old(Rest()))
      {
        assert chars[pos..][1..] == chars[pos + 1..];
        pos := pos + 1;
      }
    }

    /** `number`, at a digit. */
    method Number() returns (r: Option<Json>)
      requires Valid() && pos < |chars| && IsDigit(chars[pos])
      modifies this`pos
      ensures Valid() && pos > old(pos)
      ensures match JsonText.Number(old(Rest()), nodes)
        case Done(j, rest, _) => r == Some(j) && Rest() == rest
        case Fail => r == None
    {
      var start := pos;
      while pos < |chars| && IsDigit(chars[pos])
        invariant start <= pos <= |chars| && AllDigits(chars[start..pos]) && (pos == start ==> IsDigit(chars[pos]))
      {
        assert chars[start..pos + 1] == chars[start..pos] + [chars[pos]];
        pos := pos + 1;
      }
      var text := chars[start..pos];
      ghost var s := chars[start..];
      assert s[..pos - start] == text && s[pos - start..] == chars[pos..];
      DigitsStop(s, pos - start);
      if (|text| > 1 && text[0] == '0') || DecimalValue(text) > U64_MAX {
        return None;
      }
      return Some(Int(DecimalValue(text)));
    }

    method Word(word: string, j: Json) returns (r: Option<Json>)
      requires Valid() && |word| > 0
      modifies this`pos
      ensures Valid() && (r.Some? ==> pos > old(pos)) && (r.None? ==> pos == old(pos))
      ensures match Literal(old(Rest()), word, j, nodes)
        case Done(x, rest, _) => r == Some(x) && Rest() == rest
        case Fail => r == None
    {
      var end := pos + |word|;
      if end <= |chars| && chars[pos..end] == word {
        assert chars[pos..][..|word|] == chars[pos..end] && chars[pos..][|word|..] == chars[end..];
        pos := end;
        return Some(j);
      }
      assert end <= |chars| ==> chars[pos..][..|word|] == chars[pos..end];
      return None;
    }

    /** One character of a string, escaped or not. */
    method Character() returns (r: Option<char>)
      requires Valid()
      modifies this`pos
      ensures Valid() && (r.Some? ==> pos > old(pos)) && (r.None? ==> pos == old(pos))
      ensures match TakeChar(old(Rest()))
        case Some(p) => r == Some(p.0) && Rest() == p.1
        case None => r == None
    {
      TakeCharShortens(chars[pos..]);
      var c := TakeChar(chars[pos..]);
      if c.None? {
        return None;
      }
      TakenIsSuffix(chars[pos..]);
      var used := |chars| - pos - |c.value.1|;
      assert chars[pos..][used..] == chars[pos + used..];
      pos := pos + used;
      return Some(c.value.0);
    }

    /** `string`, at its opening quote. */
    method String() returns (r: Option<string>)
      requires Valid() && pos < |chars|
      modifies this`pos
      ensures Valid() && pos > old(pos)
      ensures match TakeString(old(Rest())[1..])
        case Some(p) => r == Some(p.0) && Rest() == p.1
        case None => r == None
    {
      ghost var whole := TakeString(chars[pos..][1..]);
      assert chars[pos..][1..] == chars[pos + 1..];
      pos := pos + 1;
      var s: string := [];
      assert whole.Some? ==> [] + whole.value.0 == whole.value.0;
      while true
        invariant Valid() && pos > old(pos)
        invariant var rest := TakeString(chars[pos..]);
          whole == if rest.None? then None else Some((s + rest.value.0, rest.value.1))
        decreases |chars| - pos
      {
        if pos < |chars| && chars[pos] == '"' {
          assert chars[pos..][1..] == chars[pos + 1..];
          assert s + [] == s;
          pos := pos + 1;
          return Some(s);
        }
        ghost var before := chars[pos..];
        var c := Character();
        if c.None? {
          return None;
        }
        StringTurn(before, s, c.value, chars[pos..]);
        s := s + [c.value];
      }
    }

    /** `value`. */
    method Value() returns (r: Option<Json>)
      requires Valid()
      modifies this
      ensures Valid() && depth == old(depth) && pos >= old(pos) && (r.Some? ==> pos > old(pos))
      ensures match JsonText.Value(old(Rest()), depth, old(nodes))
        case Done(j, rest, n) => r == Some(j) && Rest() == rest && nodes == n
        case Fail => r == None
      decreases |chars| - pos, 2
    {
      if nodes >= MAX_NODES {
        return None;
      }
      nodes := nodes + 1;
      SkipWs();
      if pos == |chars| {
        return None;
      }
      assert Rest()[0] == chars[pos];
      var c := chars[pos];
      if c == '{' || c == '[' {
        r := Nested(c == '{');
      } else if c == '"' {
        var s := String();
        r := if s.Some? then Some(Str(s.value)) else None;
      } else if c == 't' {
        r := Word("true", Bool(true));
      } else if c == 'f' {
        r := Word("false", Bool(false));
      } else if c == 'n' {
        r := Word("null", Null);
      } else if IsDigit(c) {
        r := Number();
      } else {
        r := None;
      }
    }

    /** `nested`: the depth is counted while a container is read, and given back whatever it came to. */
    method Nested(isObject: bool) returns (r: Option<Json>)
      requires Valid() && pos < |chars|
      modifies this
      ensures Valid() && depth == old(depth) && pos >= old(pos) && (r.Some? ==> pos > old(pos))
      ensures var s, d, n := old(Rest())[1..], depth + 1, old(nodes);
        match (if depth >= MAX_DEPTH then Fail else if isObject then ObjectBody(s, d, n) else ArrayBody(s, d, n))
        case Done(j, rest, m) => r == Some(j) && Rest() == rest && nodes == m
        case Fail => r == None
      decreases |chars| - pos, 1
    {
      if depth >= MAX_DEPTH {
        return None;
      }
      depth := depth + 1;
      assert chars[pos..][1..] == chars[pos + 1..];
      pos := pos + 1;
      if isObject {
        r := ObjectRest();
      } else {
        r := ArrayRest();
      }
      depth := depth - 1;
    }

    /** What follows an item: a comma (true), or the closing character (false). */
    method Separator(close: char) returns (more: Option<bool>)
      requires Valid() && close != ','
      modifies this`pos
      ensures Valid() && pos >= old(pos)
      ensures var t := SkipSpace(old(Rest()));
        if t == [] || (t[0] != close && t[0] != ',') then more == None
        else more == Some(t[0] == ',') && Rest() == t[1..] && pos > old(pos)
    {
      SkipWs();
      if pos == |chars| {
        return None;
      }
      assert chars[pos..][0] == chars[pos] && chars[pos..][1..] == chars[pos + 1..];
      var c := chars[pos];
      pos := pos + 1;
      return if c == ',' then Some(true) else if c == close then Some(false) else None;
    }

    /** `array`, past its bracket. */
    method ArrayRest() returns (r: Option<Json>)
      requires Valid()
      modifies this
      ensures Valid() && depth == old(depth) && pos >= old(pos)
      ensures match ArrayBody(old(Rest()), depth, old(nodes))
        case Done(j, rest, m) => r == Some(j) && Rest() == rest && nodes == m
        case Fail => r == None
      decreases |chars| - pos, 4
    {
      SkipWs();
      if pos < |chars| && chars[pos] == ']' {
        assert chars[pos..][1..] == chars[pos + 1..];
        pos := pos + 1;
        return Some(Array([]));
      }
      var items := ArrayLoop();
      r := if items.Some? then Some(Array(items.value)) else None;
    }

    method ArrayLoop() returns (r: Option<seq<Json>>)
      requires Valid()
      modifies this
      ensures Valid() && depth == old(depth) && pos >= old(pos)
      ensures match Elements(old(Rest()), depth, old(nodes))
        case Done(items, rest, m) => r == Some(items) && Rest() == rest && nodes == m
        case Fail => r == None
      decreases |chars| - pos, 3
    {
      ghost var whole := Elements(Rest(), depth, nodes);
      var items: seq<Json> := [];
      OntoNothing(whole);
      while true
        invariant Valid() && depth == old(depth) && pos >= old(pos)
        invariant whole == Onto(items, Elements(Rest(), depth, nodes))
        decreases |chars| - pos
      {
        var v := Value();
        if v.None? {
          return None;
        }
        OntoPrepend(items, v.value, ElementsTail(Rest(), depth, nodes));
        items := items + [v.value];
        var more := Separator(']');
        if more.None? {
          return None;
        }
        if !more.value {
          OntoEnd(items, Rest(), nodes);
          return Some(items);
        }
      }
    }

    /** `object`, past its brace. */
    method ObjectRest() returns (r: Option<Json>)
      requires Valid()
      modifies this
      ensures Valid() && depth == old(depth) && pos >= old(pos)
      ensures match ObjectBody(old(Rest()), depth, old(nodes))
        case Done(j, rest, m) => r == Some(j) && Rest() == rest && nodes == m
        case Fail => r == None
      decreases |chars| - pos, 4
    {
      SkipWs();
      if pos < |chars| && chars[pos] == '}' {
        assert chars[pos..][1..] == chars[pos + 1..];
        pos := pos + 1;
        return Some(Object([]));
      }
      var fields := ObjectLoop();
      r := if fields.Some? then Some(Object(fields.value)) else None;
    }

    /** A key not seen before, through its colon. */
    method Key(seen: set<string>) returns (r: Option<string>)
      requires Valid()
      modifies this`pos
      ensures Valid() && pos >= old(pos)
      ensures match TakeKey(old(Rest()), seen)
        case Some(p) => r == Some(p.0) && Rest() == p.1
        case None => r == None
    {
      SkipWs();
      if pos == |chars| || chars[pos] != '"' {
        return None;
      }
      var key := String();
      if key.None? || key.value in seen {
        return None;
      }
      SkipWs();
      if pos == |chars| || chars[pos] != ':' {
        return None;
      }
      assert chars[pos..][1..] == chars[pos + 1..];
      pos := pos + 1;
      return key;
    }

    method ObjectLoop() returns (r: Option<seq<(string, Json)>>)
      requires Valid()
      modifies this
      ensures Valid() && depth == old(depth) && pos >= old(pos)
      ensures match Members(old(Rest()), depth, old(nodes), {})
        case Done(fields, rest, m) => r == Some(fields) && Rest() == rest && nodes == m
        case Fail => r == None
      decreases |chars| - pos, 3
    {
      ghost var whole := Members(Rest(), depth, nodes, {});
      var fields: seq<(string, Json)> := [];
      var keys: set<string> := {};
      OntoNothing(whole);
      while true
        invariant Valid() && depth == old(depth) && pos >= old(pos)
        invariant whole == Onto(fields, Members(Rest(), depth, nodes, keys))
        decreases |chars| - pos
      {
        var key := Key(keys);
        if key.None? {
          return None;
        }
        keys := keys + {key.value};
        var v := Value();
        if v.None? {
          return None;
        }
        OntoPrepend(fields, (key.value, v.value), MembersTail(Rest(), depth, nodes, keys));
        fields := fields + [(key.value, v.value)];
        var more := Separator('}');
        if more.None? {
          return None;
        }
        if !more.value {
          OntoEnd(fields, Rest(), nodes);
          return Some(fields);
        }
      }
    }
  }

  lemma TakenIsSuffix(s: string)
    requires TakeChar(s).Some?
    ensures var rest := TakeChar(s).value.1; s[|s| - |rest|..] == rest
  {
    if s[0] == '\\' && s[1] == 'u' {
      assert s[1..][1..][4..] == s[6..];
    } else if s[0] == '\\' {
      assert s[1..][1..] == s[2..];
    }
  }

  /** One turn of the loop of `string`. */
  lemma StringTurn(before: string, s: string, c: char, after: string)
    requires TakeChar(before) == Some((c, after))
    ensures var a, b := TakeString(before), TakeString(after);
      if b.None? then a.None? else a.Some? && s + a.value.0 == s + [c] + b.value.0 && a.value.1 == b.value.1
  {}

  /** `parse`. */
  method ParseText(input: string) returns (r: Option<Json>)
    ensures r == Parse(input)
  {
    var parser := new Parser(input);
    parser.SkipWs();
    r := parser.Value();
    if r.Some? {
      parser.SkipWs();
      if parser.pos != |parser.chars| {
        r := None;
      }
    }
  }

  // ---------------------------------------------------------------- the printer

  lemma {:induction false} ItemsAppend(items: seq<Json>, x: Json)
    ensures RenderItems(items + [x]) == if items == [] then Render(x) else RenderItems(items) + ([','] + Render(x))
  {
    if |items| == 1 {
      assert (items + [x])[1..] == [x];
    } else if items != [] {
      ItemsAppend(items[1..], x);
      assert (items + [x])[1..] == items[1..] + [x];
      Regroup(Render(items[0]), RenderItems(items[1..]), [','] + Render(x));
    }
  }

  lemma {:induction false} FieldsAppend(fields: seq<(string, Json)>, f: (string, Json))
    ensures RenderFields(fields + [f])
         == if fields == [] then RenderField(f) else RenderFields(fields) + ([','] + RenderField(f))
  {
    if |fields| == 1 {
      assert (fields + [f])[1..] == [f];
    } else if fields != [] {
      FieldsAppend(fields[1..], f);
      assert (fields + [f])[1..] == fields[1..] + [f];
      Regroup(RenderField(fields[0]), RenderFields(fields[1..]), [','] + RenderField(f));
    }
  }

  /** `write`: the text of a value appended to what is there. */
  method Write(j: Json, buf: string) returns (out: string)
    ensures out == buf + Render(j)
    decreases j, 0
  {
    match j
    case Array(items) =>
      out := WriteItems(items, buf + ['[']);
      out := out + [']'];
    case Object(fields) =>
      out := WriteFields(fields, buf + ['{']);
      out := out + ['}'];
    case Str(s) => out := WriteStr(s, buf);
    case Null => out := buf + "null";
    case Bool(b) => out := buf + if b then "true" else "false";
    case Int(n) => out := buf + Decimal(n);
  }

  lemma {:induction false} CharsAppend(s: string, c: char)
    ensures WriteChars(s + [c]) == WriteChars(s) + WriteChar(c)
  {
    if s == [] {
      assert s + [c] == [c] && WriteChars([c]) == WriteChar(c) + WriteChars([]);
    } else {
      CharsAppend(s[1..], c);
      assert (s + [c])[1..] == s[1..] + [c];
    }
  }

  lemma Quoted(buf: string, text: string)
    ensures buf + ['"'] + text + ['"'] == buf + (['"'] + (text + ['"']))
  {}

  /** `write_string`: character by character, each escape written out. */
  method WriteStr(s: string, buf: string) returns (out: string)
    ensures out == buf + WriteString(s)
  {
    var open := buf + ['"'];
    out := open;
    for i := 0 to |s|
      invariant out == open + WriteChars(s[..i])
    {
      CharsAppend(s[..i], s[i]);
      assert s[..i + 1] == s[..i] + [s[i]];
      out := PushChar(s[i], out);
      assert out == open + (WriteChars(s[..i]) + WriteChar(s[i]));
    }
    assert s[..|s|] == s;
    out := out + ['"'];
    Quoted(buf, WriteChars(s));
  }

  /** The match of `write_string` on one character. */
  method PushChar(c: char, buf: string) returns (out: string)
    ensures out == buf + WriteChar(c)
  {
    if c == '"' {
      out := buf + "\\\"";
    } else if c == '\\' {
      out := buf + "\\\\";
    } else if c == '\n' {
      out := buf + "\\n";
    } else if c == '\r' {
      out := buf + "\\r";
    } else if c == '\t' {
      out := buf + "\\t";
    } else if c < ' ' {
      out := buf + ['\\', 'u', '0', '0', HexChar(c as int / 16), HexChar(c as int % 16)];
    } else {
      out := buf + [c];
    }
  }

  method WriteItems(items: seq<Json>, buf: string) returns (out: string)
    ensures out == buf + RenderItems(items)
    decreases items, 1
  {
    out := buf;
    for i := 0 to |items|
      invariant out == buf + RenderItems(items[..i])
    {
      ItemsAppend(items[..i], items[i]);
      assert items[..i + 1] == items[..i] + [items[i]];
      if i > 0 {
        out := out + [','];
      }
      out := Write(items[i], out);
    }
    assert items[..|items|] == items;
  }

  method WriteField(f: (string, Json), buf: string) returns (out: string)
    ensures out == buf + RenderField(f)
    decreases f, 1
  {
    out := WriteStr(f.0, buf);
    out := Write(f.1, out + [':']);
  }

  method WriteFields(fields: seq<(string, Json)>, buf: string) returns (out: string)
    ensures out == buf + RenderFields(fields)
    decreases fields, 1
  {
    out := buf;
    for i := 0 to |fields|
      invariant out == buf + RenderFields(fields[..i])
    {
      FieldsAppend(fields[..i], fields[i]);
      assert fields[..i + 1] == fields[..i] + [fields[i]];
      if i > 0 {
        out := out + [','];
      }
      out := WriteField(fields[i], out);
    }
    assert fields[..|fields|] == fields;
  }
}
