/**
 * The text stored in the `todos` slot: what `JSON.stringify` writes for an array of task records,
 * and a `JSON.parse` for that shape that may fail. Decoding what was encoded gives the list back.
 */
module Json {
  import opened Wrappers
  import opened Todos

  /** Lower-case hexadecimal digit, as `JSON.stringify` writes in `\u00XX`. */
  function HexDigit(d: nat): char
    requires d < 16
  {
    if d < 10 then ('0' as int + d) as char else ('a' as int + d - 10) as char
  }

  /** A hexadecimal digit of either case, as `JSON.parse` reads in `\uXXXX`. */
  function HexValue(c: char): (r: Option<nat>)
    ensures r.Some? ==> r.value < 16
  {
    if '0' <= c <= '9' then Some(c as int - '0' as int)
    else if 'a' <= c <= 'f' then Some(c as int - 'a' as int + 10)
    else if 'A' <= c <= 'F' then Some(c as int - 'A' as int + 10)
    else None
  }

  /** How `JSON.stringify` writes one character inside a string literal. */
  function EscapeChar(c: char): string {
    if c == '"' then ['\\', '"']
    else if c == '\\' then ['\\', '\\']
    else if c == '\U{0008}' then ['\\', 'b']
    else if c == '\U{000C}' then ['\\', 'f']
    else if c == '\n' then ['\\', 'n']
    else if c == '\r' then ['\\', 'r']
    else if c == '\t' then ['\\', 't']
    else if c < ' ' then ['\\', 'u', '0', '0', HexDigit(c as int / 16), HexDigit(c as int % 16)]
    else [c]
  }

  function EscapeString(s: string): string {
    if s == [] then [] else EscapeChar(s[0]) + EscapeString(s[1..])
  }

  function Quote(s: string): string {
    ['"'] + EscapeString(s) + ['"']
  }

  /** The JSON values a task list is made of. */
  datatype Value = Str(str: string) | Bool(b: bool) | Arr(items: seq<Value>) | Obj(fields: seq<Field>)

  /** One `"name":value` member of an object; members keep their insertion order. */
  datatype Field = Field(name: string, value: Value)

  /** `JSON.stringify(v)` without indentation: no whitespace between tokens. */
  function Stringify(v: Value): (r: string)
    ensures |r| >= 1
    ensures v.Arr? ==> |r| >= 2 && r[0] == '['
    ensures v.Obj? ==> r[0] == '{'
    decreases v
  {
    match v
    case Str(s) => Quote(s)
    case Bool(b) => if b then "true" else "false"
    case Arr(items) => if items == [] then "[]" else "[" + (Stringify(items[0]) + ItemsTail(items[1..]))
    case Obj(fields) => if fields == [] then "{}" else "{" + (Member(fields[0]) + MembersTail(fields[1..]))
  }

  function Member(f: Field): string
    decreases f
  {
    Quote(f.name) + (":" + Stringify(f.value))
  }

  /** The array elements after the first, each preceded by a comma, then the closing bracket. */
  function ItemsTail(items: seq<Value>): (r: string)
    ensures |r| >= 1
    decreases items
  {
    if items == [] then "]" else "," + (Stringify(items[0]) + ItemsTail(items[1..]))
  }

  /** The object members after the first, each preceded by a comma, then the closing brace. */
  function MembersTail(fields: seq<Field>): string
    decreases fields
  {
    if fields == [] then "}" else "," + (Member(fields[0]) + MembersTail(fields[1..]))
  }

  /** A task as the object literal of `addTodo` builds it, keys in that order. */
  function TodoValue(t: Todo): Value {
    Obj([Field("id", Str(t.id)), Field("text", Str(t.text)), Field("completed", Bool(t.completed)),
         Field("createdAt", Str(t.createdAt))])
  }

  function Values(ts: seq<Todo>): (r: seq<Value>)
    ensures |r| == |ts|
  {
    if ts == [] then [] else [TodoValue(ts[0])] + Values(ts[1..])
  }

  /** `JSON.stringify(todos)`. */
  function Encode(ts: seq<Todo>): (r: string)
    ensures |r| >= 2 && r[0] == '['
  {
    Stringify(Arr(Values(ts)))
  }

  /** Consumes `lit` at the front of `s`. */
  function ParseLiteral(lit: string, s: string): (r: Option<string>)
    ensures r.Some? ==> s == lit + r.value
  {
    if |lit| <= |s| && s[..|lit|] == lit then
      assert s == s[..|lit|] + s[|lit|..];
      Some(s[|lit|..])
    else
      None
  }

  /** One escape sequence, the backslash already consumed. */
  function Unescape(s: string): (r: Option<(char, string)>)
    ensures r.Some? ==> |r.value.1| < |s|
  {
    if s == [] then None
    else if s[0] == '"' then Some(('"', s[1..]))
    else if s[0] == '\\' then Some(('\\', s[1..]))
    else if s[0] == '/' then Some(('/', s[1..]))
    else if s[0] == 'b' then Some(('\U{0008}', s[1..]))
    else if s[0] == 'f' then Some(('\U{000C}', s[1..]))
    else if s[0] == 'n' then Some(('\n', s[1..]))
    else if s[0] == 'r' then Some(('\r', s[1..]))
    else if s[0] == 't' then Some(('\t', s[1..]))
    else if s[0] == 'u' && |s| >= 5 then
      var d1 :- HexValue(s[1]);
      var d2 :- HexValue(s[2]);
      var d3 :- HexValue(s[3]);
      var d4 :- HexValue(s[4]);
      var v := ((d1 * 16 + d2) * 16 + d3) * 16 + d4;
      if v < 0xD800 || 0xE000 <= v then Some((v as char, s[5..])) else None
    else None
  }

  /** The characters of a string literal up to its closing quote, which is consumed too. */
  function ParseChars(s: string): (r: Option<(string, string)>)
    ensures r.Some? ==> |r.value.1| < |s|
    decreases |s|
  {
    if s == [] then None
    else if s[0] == '"' then Some(([], s[1..]))
    else if s[0] == '\\' then
      var e :- Unescape(s[1..]);
      var body :- ParseChars(e.1);
      Some(([e.0] + body.0, body.1))
    else if s[0] < ' ' then None
    else
      var body :- ParseChars(s[1..]);
      Some(([s[0]] + body.0, body.1))
  }

  function ParseString(s: string): (r: Option<(string, string)>)
    ensures r.Some? ==> |r.value.1| < |s|
  {
    if s != [] && s[0] == '"' then ParseChars(s[1..]) else None
  }

  function ParseBool(s: string): (r: Option<(bool, string)>)
    ensures r.Some? ==> |r.value.1| < |s|
  {
    match ParseLiteral("true", s)
    case Some(rest) => Some((true, rest))
    case None =>
      var rest :- ParseLiteral("false", s);
      Some((false, rest))
  }

  /** An object key that must be `name`, and the colon after it. */
  function ParseKey(name: string, s: string): (r: Option<string>)
    ensures r.Some? ==> |r.value| < |s|
  {
    var key :- ParseString(s);
    if key.0 == name then ParseLiteral(":", key.1) else None
  }

  /** One task object, its keys in the order `addTodo` writes them. */
  function ParseTodo(s: string): (r: Option<(Todo, string)>)
    ensures r.Some? ==> |r.value.1| < |s|
  {
    var s0 :- ParseLiteral("{", s);
    var s1 :- ParseKey("id", s0);
    var id :- ParseString(s1);
    var s2 :- ParseLiteral(",", id.1);
    var s3 :- ParseKey("text", s2);
    var text :- ParseString(s3);
    var s4 :- ParseLiteral(",", text.1);
    var s5 :- ParseKey("completed", s4);
    var done :- ParseBool(s5);
    var s6 :- ParseLiteral(",", done.1);
    var s7 :- ParseKey("createdAt", s6);
    var at :- ParseString(s7);
    var s8 :- ParseLiteral("}", at.1);
    Some((Todo(id.0, text.0, done.0, at.0), s8))
  }

  /** Further elements, each after a comma, up to and including the closing bracket. */
  function ParseTail(s: string): (r: Option<(seq<Todo>, string)>)
    ensures r.Some? ==> |r.value.1| < |s|
    decreases |s|
  {
    if s != [] && s[0] == ']' then Some(([], s[1..]))
    else if s != [] && s[0] == ',' then
      var first :- ParseTodo(s[1..]);
      var more :- ParseTail(first.1);
      Some(([first.0] + more.0, more.1))
    else None
  }

  /**
   * `JSON.parse(saved)` for an array of task records; `None` where `JSON.parse` would throw.
   * Only text that opens with a bracket parses.
   */
  function Decode(s: string): (r: Option<seq<Todo>>)
    ensures r.Some? ==> |s| >= 2 && s[0] == '['
  {
    if |s| < 2 || s[0] != '[' then None
    else if s[1] == ']' then (if |s| == 2 then Some([]) else None)
    else
      var first :- ParseTodo(s[1..]);
      var more :- ParseTail(first.1);
      if more.1 == [] then Some([first.0] + more.0) else None
  }

  /** The empty list is parsed from `[]` and from no other text. */
  lemma DecodeEmpty(s: string)
    ensures Decode(s) == Some([]) <==> s == "[]"
  {
    if Decode(s) == Some([]) {
      assert s == [s[0], s[1]];
    }
  }

  lemma HexRoundTrip(d: nat)
    requires d < 16
    ensures HexValue(HexDigit(d)) == Some(d)
  {
  }

  /** Reading back one escaped character, whatever follows it. */
  lemma EscapeCharRoundTrip(c: char, tail: string, body: string, rest: string)
    requires ParseChars(tail) == Some((body, rest))
    ensures ParseChars(EscapeChar(c) + tail) == Some(([c] + body, rest))
  {
    var s := EscapeChar(c) + tail;
    assert s[|EscapeChar(c)|..] == tail;
    if c == '"' || c == '\\' || c == '\U{0008}' || c == '\U{000C}' || c == '\n' || c == '\r' || c == '\t' {
      assert s[1..][1..] == tail;
    } else if c < ' ' {
      var n := c as int;
      HexRoundTrip(n / 16);
      HexRoundTrip(n % 16);
      assert s[1..][5..] == tail;
      assert s[1..][1..5] == ['0', '0', HexDigit(n / 16), HexDigit(n % 16)];
    } else {
      assert s[1..] == tail;
    }
  }

  /** Reading back the body of a string literal and its closing quote. */
  lemma {:induction false} CharsRoundTrip(x: string, rest: string)
    ensures ParseChars(EscapeString(x) + ['"'] + rest) == Some((x, rest))
  {
    if x == [] {
      assert EscapeString(x) + ['"'] + rest == ['"'] + rest;
    } else {
      var tail := EscapeString(x[1..]) + ['"'] + rest;
      CharsRoundTrip(x[1..], rest);
      EscapeCharRoundTrip(x[0], tail, x[1..], rest);
      assert EscapeString(x) + ['"'] + rest == EscapeChar(x[0]) + tail;
      assert [x[0]] + x[1..] == x;
    }
  }

  lemma StringRoundTrip(x: string, rest: string)
    ensures ParseString(Quote(x) + rest) == Some((x, rest))
  {
    var s := Quote(x) + rest;
    assert s[1..] == EscapeString(x) + ['"'] + rest;
    CharsRoundTrip(x, rest);
  }

  lemma LiteralRoundTrip(lit: string, rest: string)
    ensures ParseLiteral(lit, lit + rest) == Some(rest)
  {
    assert (lit + rest)[..|lit|] == lit;
  }

  lemma Assoc(a: string, b: string, c: string)
    ensures (a + b) + c == a + (b + c)
  {
  }

  lemma BoolRoundTrip(b: bool, rest: string)
    ensures ParseBool((if b then "true" else "false") + rest) == Some((b, rest))
  {
    LiteralRoundTrip("true", rest);
    LiteralRoundTrip("false", rest);
    if !b {
      assert ("false" + rest)[..4] != "true" by {
        assert ("false" + rest)[..4][0] == 'f';
      }
    }
  }

  /** A literal followed by two pieces, with more text after them. */
  lemma LeadRoundTrip(lead: string, m: string, t: string, rest: string)
    ensures ParseLiteral(lead, (lead + (m + t)) + rest) == Some(m + (t + rest))
  {
    Assoc(lead, m + t, rest);
    Assoc(m, t, rest);
    LiteralRoundTrip(lead, m + (t + rest));
  }

  /** Reading back a member's key and colon leaves its value text in front. */
  lemma KeyRoundTrip(name: string, value: string, rest: string)
    ensures ParseKey(name, (Quote(name) + (":" + value)) + rest) == Some(value + rest)
  {
    Assoc(Quote(name), ":" + value, rest);
    Assoc(":", value, rest);
    StringRoundTrip(name, ":" + (value + rest));
    LiteralRoundTrip(":", value + rest);
  }

  /** Reading back one task object, whatever follows it. */
  lemma TodoRoundTrip(t: Todo, rest: string)
    ensures ParseTodo(Stringify(TodoValue(t)) + rest) == Some((t, rest))
  {
    var fs := TodoValue(t).fields;
    var t1, t2, t3, t4 := MembersTail(fs[1..]), MembersTail(fs[2..]), MembersTail(fs[3..]), MembersTail(fs[4..]);
    var b := if t.completed then "true" else "false";
    assert fs[1..][1..] == fs[2..] && fs[2..][1..] == fs[3..] && fs[3..][1..] == fs[4..] && fs[4..] == [];
    assert Stringify(TodoValue(t)) == "{" + (Member(fs[0]) + t1);
    assert Member(fs[0]) == Quote("id") + (":" + Quote(t.id));
    assert t1 == "," + (Member(fs[1]) + t2);
    assert Member(fs[1]) == Quote("text") + (":" + Quote(t.text));
    assert t2 == "," + (Member(fs[2]) + t3);
    assert Member(fs[2]) == Quote("completed") + (":" + b);
    assert t3 == "," + (Member(fs[3]) + t4);
    assert Member(fs[3]) == Quote("createdAt") + (":" + Quote(t.createdAt));
    assert t4 == "}";

    LeadRoundTrip("{", Member(fs[0]), t1, rest);
    KeyRoundTrip("id", Quote(t.id), t1 + rest);
    StringRoundTrip(t.id, t1 + rest);
    LeadRoundTrip(",", Member(fs[1]), t2, rest);
    KeyRoundTrip("text", Quote(t.text), t2 + rest);
    StringRoundTrip(t.text, t2 + rest);
    LeadRoundTrip(",", Member(fs[2]), t3, rest);
    KeyRoundTrip("completed", b, t3 + rest);
    BoolRoundTrip(t.completed, t3 + rest);
    LeadRoundTrip(",", Member(fs[3]), t4, rest);
    KeyRoundTrip("createdAt", Quote(t.createdAt), t4 + rest);
    StringRoundTrip(t.createdAt, t4 + rest);
    LiteralRoundTrip("}", rest);
  }

  lemma {:induction false} TailRoundTrip(ts: seq<Todo>, rest: string)
    ensures ParseTail(ItemsTail(Values(ts)) + rest) == Some((ts, rest))
  {
    var vs := Values(ts);
    if ts == [] {
      assert (ItemsTail(vs) + rest)[1..] == rest;
    } else {
      assert vs[1..] == Values(ts[1..]);
      var e, more := Stringify(vs[0]), ItemsTail(vs[1..]);
      assert ItemsTail(vs) == "," + (e + more);
      var s := "," + (e + (more + rest));
      LeadRoundTrip(",", e, more, rest);
      assert s[1..] == e + (more + rest);
      TodoRoundTrip(ts[0], more + rest);
      TailRoundTrip(ts[1..], rest);
      assert [ts[0]] + ts[1..] == ts;
    }
  }

  /** What `JSON.stringify` writes for a task list, `JSON.parse` reads back as the same list. */
  lemma DecodeEncode(ts: seq<Todo>)
    ensures Decode(Encode(ts)) == Some(ts)
  {
    var vs := Values(ts);
    if ts != [] {
      assert vs[1..] == Values(ts[1..]);
      var e, tail := Stringify(vs[0]), ItemsTail(vs[1..]);
      var s := Encode(ts);
      assert s == "[" + (e + tail);
      assert s[1..] == e + tail;
      assert s[1] == e[0] == '{';
      TodoRoundTrip(ts[0], tail);
      TailRoundTrip(ts[1..], []);
      assert tail + [] == tail;
      assert [ts[0]] + ts[1..] == ts;
    }
  }
}
