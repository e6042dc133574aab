/**
 * The part of JSON.stringify and JSON.parse the storefront relies on: JSON
 * values whose numbers are integers, the text JSON.stringify writes for them
 * (no indentation), and a parser for that grammar, white space included.
 */
module Json {
  import opened Wrappers
  import opened Decimal

  datatype Value =
    | Null
    | Bool(b: bool)
    | Number(n: int)
    | Str(s: string)
    | Array(elems: seq<Value>)
    | Object(members: seq<(string, Value)>)

  // ---------------------------------------------------------------- writing

  /** JSON.stringify(v). */
  function Serialize(v: Value): (text: string)
    decreases v
  {
    match v
    case Null => "null"
    case Bool(b) => if b then "true" else "false"
    case Number(n) => IntToDecimal(n)
    case Str(s) => Quote(s)
    case Array(elems) => "[" + Elements(elems, "")
    case Object(members) => "{" + Members(members, "")
  }

  /** Array elements, each after `sep` and then after a comma, and the closing bracket. */
  function Elements(vs: seq<Value>, sep: string): string
    decreases vs
  {
    if vs == [] then "]" else sep + (Serialize(vs[0]) + Elements(vs[1..], ","))
  }

  /** Object members `"key":value`, each after `sep` and then after a comma, and the closing brace. */
  function Members(ms: seq<(string, Value)>, sep: string): string
    decreases ms
  {
    if ms == [] then "}" else sep + (MemberText(ms[0]) + Members(ms[1..], ","))
  }

  /** One member, `"key":value`. */
  function MemberText(m: (string, Value)): string
    decreases m
  {
    assert m.1 < m;
    Quote(m.0) + (":" + Serialize(m.1))
  }

  /** Lower-case hexadecimal digit, as JSON.stringify writes in `\u` escapes. */
  function HexDigit(d: nat): (c: char)
    requires d < 16
  {
    if d < 10 then (('0' as int) + d) as char else (('a' as int) + d - 10) as char
  }

  /** How JSON.stringify writes one character inside a string literal. */
  function EscapeChar(c: char): string {
    if c == '"' then "\\\""
    else if c == '\\' then "\\\\"
    else if c == '\U{8}' then "\\b"
    else if c == '\t' then "\\t"
    else if c == '\n' then "\\n"
    else if c == '\U{C}' then "\\f"
    else if c == '\r' then "\\r"
    else if c < ' ' then "\\u00" + [HexDigit(c as int / 16), HexDigit(c as int % 16)]
    else [c]
  }

  function Escape(s: string): string {
    if s == [] then [] else EscapeChar(s[0]) + Escape(s[1..])
  }

  /** A string literal: the escaped characters between double quotes. */
  function Quote(s: string): string {
    "\"" + Escape(s) + "\""
  }

  // ---------------------------------------------------------------- reading

  /** The white space JSON allows between tokens. */
  predicate IsSpace(c: char) {
    c == ' ' || c == '\t' || c == '\n' || c == '\r'
  }

  function SkipSpace(t: string): (r: string)
    ensures |r| <= |t|
  {
    if t != [] && IsSpace(t[0]) then SkipSpace(t[1..]) else t
  }

  /** The text after `lit`, when `t` starts with it. */
  function Literal(lit: string, t: string): (r: Option<string>)
    ensures r.Some? ==> |r.value| == |t| - |lit|
  {
    if |lit| <= |t| && t[..|lit|] == lit then Some(t[|lit|..]) else None
  }

  function HexValue(c: char): (r: Option<nat>)
    ensures r.Some? ==> r.value < 16
  {
    if '0' <= c <= '9' then Some((c as int) - ('0' as int))
    else if 'a' <= c <= 'f' then Some((c as int) - ('a' as int) + 10)
    else if 'A' <= c <= 'F' then Some((c as int) - ('A' as int) + 10)
    else None
  }

  /** The number written by four hex digits. */
  function HexQuad(t: string): (r: Option<nat>)
    requires |t| == 4
    ensures r.Some? ==> r.value < 0x10000
  {
    var h0 :- HexValue(t[0]);
    var h1 :- HexValue(t[1]);
    var h2 :- HexValue(t[2]);
    var h3 :- HexValue(t[3]);
    Some(((h0 * 16 + h1) * 16 + h2) * 16 + h3)
  }

  /**
   * The character a `\u` escape stands for; `t` is the text after the `u`. A
   * high surrogate followed by a `\u` escape of a low surrogate is the one
   * character the pair encodes; an unpaired surrogate half is not a character
   * here.
   */
  function ParseUnicodeEscape(t: string): (r: Option<(char, string)>)
    ensures r.Some? ==> |r.value.1| < |t|
  {
    if |t| < 4 then None
    else
      var high :- HexQuad(t[..4]);
      if high < 0xD800 || 0xE000 <= high then Some((high as char, t[4..]))
      else if high < 0xDC00 && |t| >= 10 && t[4] == '\\' && t[5] == 'u' then
        var low :- HexQuad(t[6..10]);
        if 0xDC00 <= low < 0xE000 then
          Some(((0x10000 + (high - 0xD800) * 0x400 + (low - 0xDC00)) as char, t[10..]))
        else None
      else None
  }

  /** The character an escape stands for; `t` is the text after the backslash. */
  function ParseEscape(t: string): (r: Option<(char, string)>)
    ensures r.Some? ==> |r.value.1| < |t|
  {
    if t == [] then None
    else if t[0] == '"' then Some(('"', t[1..]))
    else if t[0] == '\\' then Some(('\\', t[1..]))
    else if t[0] == '/' then Some(('/', t[1..]))
    else if t[0] == 'b' then Some(('\U{8}', t[1..]))
    else if t[0] == 'f' then Some(('\U{C}', t[1..]))
    else if t[0] == 'n' then Some(('\n', t[1..]))
    else if t[0] == 'r' then Some(('\r', t[1..]))
    else if t[0] == 't' then Some(('\t', t[1..]))
    else if t[0] == 'u' then ParseUnicodeEscape(t[1..])
    else None
  }

  /** One character of a string literal's body, escaped or not, other than the closing quote. */
  function ParseChar(t: string): (r: Option<(char, string)>)
    requires t != []
    ensures r.Some? ==> |r.value.1| < |t|
  {
    if t[0] == '\\' then ParseEscape(t[1..])
    else if t[0] < ' ' then None
    else Some((t[0], t[1..]))
  }

  /** The characters of a string literal up to its closing quote, and the text after that quote. */
  function ParseStringBody(t: string): (r: Option<(string, string)>)
    ensures r.Some? ==> |r.value.1| < |t|
    decreases |t|
  {
    if t == [] then None
    else if t[0] == '"' then Some(([], t[1..]))
    else
      var first :- ParseChar(t);
      var more :- ParseStringBody(first.1);
      Some(([first.0] + more.0, more.1))
  }

  function ParseString(t: string): (r: Option<(string, string)>)
    ensures r.Some? ==> |r.value.1| < |t|
  {
    if t != [] && t[0] == '"' then ParseStringBody(t[1..]) else None
  }

  /** A JSON integer without sign: no leading zero unless it is 0 itself. */
  function ParseNatural(t: string): (r: Option<(nat, string)>)
    ensures r.Some? ==> |r.value.1| < |t|
  {
    var k := DigitSpan(t);
    if k == 0 || (k > 1 && t[0] == '0') then None else Some((DigitsValue(t[..k]), t[k..]))
  }

  /** A JSON number with neither fraction nor exponent: an optional minus sign and the digits. */
  function ParseNumber(t: string): (r: Option<(int, string)>)
    ensures r.Some? ==> |r.value.1| < |t|
  {
    var negative := t != [] && t[0] == '-';
    var p :- ParseNatural(if negative then t[1..] else t);
    var magnitude: int := p.0;
    Some((if negative then -magnitude else magnitude, p.1))
  }

  /** One value, after any white space, and the text after it. */
  function ParseValue(t: string): (r: Option<(Value, string)>)
    ensures r.Some? ==> |r.value.1| < |t|
    decreases |t|, 0
  {
    var u := SkipSpace(t);
    if u == [] then None
    else if u[0] == 'n' then
      var rest :- Literal("null", u);
      Some((Null, rest))
    else if u[0] == 't' then
      var rest :- Literal("true", u);
      Some((Bool(true), rest))
    else if u[0] == 'f' then
      var rest :- Literal("false", u);
      Some((Bool(false), rest))
    else if u[0] == '"' then
      var p :- ParseString(u);
      Some((Str(p.0), p.1))
    else if u[0] == '[' then ParseArray(u[1..])
    else if u[0] == '{' then ParseObject(u[1..])
    else
      var p :- ParseNumber(u);
      Some((Number(p.0), p.1))
  }

  /** An array after its opening bracket. */
  function ParseArray(t: string): (r: Option<(Value, string)>)
    ensures r.Some? ==> |r.value.1| < |t|
    decreases |t|, 2
  {
    var u := SkipSpace(t);
    if u != [] && u[0] == ']' then Some((Array([]), u[1..]))
    else
      var p :- ParseElements(t);
      Some((Array(p.0), p.1))
  }

  /** One or more values separated by commas, then the closing bracket. */
  function ParseElements(t: string): (r: Option<(seq<Value>, string)>)
    ensures r.Some? ==> |r.value.1| < |t|
    decreases |t|, 1
  {
    var first :- ParseValue(t);
    var u := SkipSpace(first.1);
    if u == [] then None
    else if u[0] == ']' then Some(([first.0], u[1..]))
    else if u[0] == ',' then
      var more :- ParseElements(u[1..]);
      Some(([first.0] + more.0, more.1))
    else None
  }

  /** An object after its opening brace. */
  function ParseObject(t: string): (r: Option<(Value, string)>)
    ensures r.Some? ==> |r.value.1| < |t|
    decreases |t|, 2
  {
    var u := SkipSpace(t);
    if u != [] && u[0] == '}' then Some((Object([]), u[1..]))
    else
      var p :- ParseMembers(t);
      Some((Object(p.0), p.1))
  }

  /** One or more `"key":value` members separated by commas, then the closing brace. */
  function ParseMembers(t: string): (r: Option<(seq<(string, Value)>, string)>)
    ensures r.Some? ==> |r.value.1| < |t|
    decreases |t|, 1
  {
    var key :- ParseString(SkipSpace(t));
    var u := SkipSpace(key.1);
    if u == [] || u[0] != ':' then None
    else
      var value :- ParseValue(u[1..]);
      var w := SkipSpace(value.1);
      if w == [] then None
      else if w[0] == '}' then Some(([(key.0, value.0)], w[1..]))
      else if w[0] == ',' then
        var more :- ParseMembers(w[1..]);
        Some(([(key.0, value.0)] + more.0, more.1))
      else None
  }

  /** JSON.parse(text): one value with nothing but white space around it; None where JSON.parse throws. */
  function Parse(text: string): (r: Option<Value>)
    ensures SkipSpace(text) == [] ==> r.None?
  {
    var p :- ParseValue(text);
    if SkipSpace(p.1) == [] then Some(p.0) else None
  }

  // ---------------------------------------------------------------- round trip

  lemma HexRoundTrip(d: nat)
    requires d < 16
    ensures HexValue(HexDigit(d)) == Some(d)
  {
  }

  /** `\ud83d\ude00`, a surrogate pair, is the single character U+1F600. */
  lemma SurrogatePair(tail: string)
    ensures ParseEscape("ud83d\\ude00" + tail) == Some(('\U{1F600}', tail))
  {
    var u := "d83d" + "\\u" + "de00" + tail;
    assert "ud83d\\ude00" + tail == "u" + u;
    assert u[..4] == "d83d" && u[4] == '\\' && u[5] == 'u';
    assert u[6..10] == "de00" && u[10..] == tail;
    assert HexQuad("d83d") == Some(0xD83D);
    assert HexQuad("de00") == Some(0xDE00);
  }

  /** Four lower-case hex digits writing `n`, most significant first. */
  function Quad(n: nat): (t: string)
    requires n < 0x10000
    ensures |t| == 4
  {
    [HexDigit(n / 4096), HexDigit(n / 256 % 16), HexDigit(n / 16 % 16), HexDigit(n % 16)]
  }

  lemma QuadRoundTrip(n: nat)
    requires n < 0x10000
    ensures HexQuad(Quad(n)) == Some(n)
  {
    HexRoundTrip(n / 4096);
    HexRoundTrip(n / 256 % 16);
    HexRoundTrip(n / 16 % 16);
    HexRoundTrip(n % 16);
  }

  /** A `\u` escape of a code point outside the surrogate range is that character. */
  lemma UnicodeEscapeRoundTrip(n: nat, tail: string)
    requires n < 0xD800 || 0xE000 <= n < 0x10000
    ensures ParseUnicodeEscape(Quad(n) + tail) == Some((n as char, tail))
  {
    var t := Quad(n) + tail;
    assert t[..4] == Quad(n) && t[4..] == tail;
    QuadRoundTrip(n);
  }

  /** A `\u` escape of a high surrogate followed by one of a low surrogate is the character the pair encodes. */
  lemma SurrogatePairRoundTrip(high: nat, low: nat, tail: string)
    requires 0xD800 <= high < 0xDC00 && 0xDC00 <= low < 0xE000
    ensures ParseUnicodeEscape(Quad(high) + "\\u" + Quad(low) + tail)
      == Some(((0x10000 + (high - 0xD800) * 0x400 + (low - 0xDC00)) as char, tail))
  {
    var t := Quad(high) + "\\u" + Quad(low) + tail;
    assert t[..4] == Quad(high) && t[4] == '\\' && t[5] == 'u';
    assert t[6..10] == Quad(low) && t[10..] == tail;
    QuadRoundTrip(high);
    QuadRoundTrip(low);
  }

  /** An escaped character reads back as itself and never looks like the closing quote. */
  lemma EscapeCharRoundTrip(c: char, tail: string)
    ensures (EscapeChar(c) + tail)[0] != '"'
    ensures ParseChar(EscapeChar(c) + tail) == Some((c, tail))
  {
    var t := EscapeChar(c) + tail;
    if c < ' ' && c != '\U{8}' && c != '\t' && c != '\n' && c != '\U{C}' && c != '\r' {
      var v := c as int;
      HexRoundTrip(v / 16);
      HexRoundTrip(v % 16);
      assert t[1..][..5] == "u00" + [HexDigit(v / 16), HexDigit(v % 16)];
      assert t[1..][5..] == tail;
    } else {
      assert t[1..] == EscapeChar(c)[1..] + tail;
    }
  }

  /** One escaped character in front of a string body that reads back. */
  lemma StringBodyStep(c: char, tail: string, s: string, rest: string)
    requires ParseStringBody(tail) == Some((s, rest))
    ensures ParseStringBody(EscapeChar(c) + tail) == Some(([c] + s, rest))
  {
    EscapeCharRoundTrip(c, tail);
  }

  /** Reading back an escaped string body followed by the closing quote gives the string. */
  lemma {:induction false} StringBodyRoundTrip(s: string, rest: string)
    ensures ParseStringBody(Escape(s) + "\"" + rest) == Some((s, rest))
    decreases |s|
  {
    if s == [] {
      assert Escape(s) + "\"" + rest == "\"" + rest;
    } else {
      var tail := Escape(s[1..]) + "\"" + rest;
      assert Escape(s) + "\"" + rest == EscapeChar(s[0]) + tail;
      StringBodyRoundTrip(s[1..], rest);
      StringBodyStep(s[0], tail, s[1..], rest);
      assert [s[0]] + s[1..] == s;
    }
  }

  /** Every string survives being written as a string literal and read back. */
  lemma StringRoundTrip(s: string, rest: string)
    ensures ParseString(Quote(s) + rest) == Some((s, rest))
  {
    var t := Quote(s) + rest;
    assert t[1..] == Escape(s) + "\"" + rest;
    StringBodyRoundTrip(s, rest);
  }

  /** Every integer survives being written in decimal and read back, whatever non-digit follows. */
  lemma NumberRoundTrip(n: int, rest: string)
    requires rest == [] || !IsDigit(rest[0])
    ensures ParseNumber(IntToDecimal(n) + rest) == Some((n, rest))
  {
    var t := IntToDecimal(n) + rest;
    var m: nat := if n < 0 then -n else n;
    var unsigned := if t != [] && t[0] == '-' then t[1..] else t;
    if n < 0 {
      assert t[0] == '-' && t[1..] == NatToDecimal(m) + rest;
    } else {
      assert t == NatToDecimal(m) + rest;
    }
    NaturalRoundTrip(m, rest);
    assert unsigned == NatToDecimal(m) + rest;
  }

  /** A natural number written in decimal reads back as itself, whatever non-digit follows. */
  lemma NaturalRoundTrip(m: nat, rest: string)
    requires rest == [] || !IsDigit(rest[0])
    ensures ParseNatural(NatToDecimal(m) + rest) == Some((m, rest))
    ensures (NatToDecimal(m) + rest)[0] != '-'
  {
    var s := NatToDecimal(m);
    ReadDecimal(m, rest);
    assert (s + rest)[0] == s[0];
  }

  lemma LiteralRoundTrip(lit: string, rest: string)
    ensures Literal(lit, lit + rest) == Some(rest)
  {
    assert (lit + rest)[..|lit|] == lit;
    assert (lit + rest)[|lit|..] == rest;
  }

  /** What may follow a value inside a document JSON.stringify writes: nothing, a comma or a closing bracket or brace. */
  predicate Stops(rest: string) {
    rest == [] || rest[0] == ',' || rest[0] == ']' || rest[0] == '}'
  }

  /** A written value starts with the character that selects its kind when read back. */
  lemma SerializeStart(v: Value)
    ensures Serialize(v) != []
    ensures var c := Serialize(v)[0];
      && !IsSpace(c) && c != ']' && c != '}'
      && (v.Null? <==> c == 'n')
      && (v.Bool? <==> c == 't' || c == 'f')
      && (v.Str? <==> c == '"')
      && (v.Array? <==> c == '[')
      && (v.Object? <==> c == '{')
  {
    match v
    case Null =>
    case Bool(b) =>
    case Number(n) =>
      var s := IntToDecimal(n);
      assert s[0] == '-' || IsDigit(s[0]);
    case Str(s) =>
    case Array(elems) =>
    case Object(members) =>
  }

  /**
   * Every value survives being written by Serialize and read back by
   * ParseValue, whatever may follow it in an enclosing document.
   */
  lemma {:induction false} ValueRoundTrip(v: Value, rest: string)
    requires Stops(rest)
    ensures ParseValue(Serialize(v) + rest) == Some((v, rest))
    decreases v, 1
  {
    var t := Serialize(v) + rest;
    SerializeStart(v);
    assert t[0] == Serialize(v)[0];
    match v
    case Null =>
      LiteralRoundTrip("null", rest);
    case Bool(b) =>
      LiteralRoundTrip(if b then "true" else "false", rest);
    case Number(n) =>
      NumberRoundTrip(n, rest);
    case Str(s) =>
      StringRoundTrip(s, rest);
    case Array(elems) =>
      BracketTail(Serialize(v), Elements(elems, ""), rest);
      ArrayRoundTrip(elems, rest);
    case Object(members) =>
      BracketTail(Serialize(v), Members(members, ""), rest);
      ObjectRoundTrip(members, rest);
  }

  /** The text after the opening bracket or brace of a written array or object. */
  lemma BracketTail(text: string, body: string, rest: string)
    requires text != [] && text[1..] == body
    ensures (text + rest)[1..] == body + rest
  {
  }

  lemma {:induction false} ArrayRoundTrip(elems: seq<Value>, rest: string)
    requires Stops(rest)
    ensures ParseArray(Elements(elems, "") + rest) == Some((Array(elems), rest))
    decreases elems, 3
  {
    if elems == [] {
      assert Elements(elems, "") + rest == "]" + rest;
    } else {
      var t := Elements(elems, "") + rest;
      assert t == Serialize(elems[0]) + (Elements(elems[1..], ",") + rest);
      SerializeStart(elems[0]);
      ElementsRoundTrip(elems, rest);
    }
  }

  /** How ParseElements continues once it has read one value and reached `tail`. */
  lemma ElementsStep(t: string, v: Value, tail: string)
    requires ParseValue(t) == Some((v, tail))
    requires tail != [] && (tail[0] == ']' || tail[0] == ',')
    ensures tail[0] == ']' ==> ParseElements(t) == Some(([v], tail[1..]))
    ensures tail[0] == ',' ==> forall more, rest :: ParseElements(tail[1..]) == Some((more, rest)) ==>
      ParseElements(t) == Some(([v] + more, rest))
  {
    assert SkipSpace(tail) == tail;
  }

  /** A non-empty element list, the first element without a leading comma, reads back. */
  lemma {:induction false} ElementsRoundTrip(vs: seq<Value>, rest: string)
    requires vs != [] && Stops(rest)
    ensures ParseElements(Serialize(vs[0]) + (Elements(vs[1..], ",") + rest)) == Some((vs, rest))
    decreases vs, 2
  {
    if |vs| == 1 {
      assert Elements(vs[1..], ",") == "]";
      LastElementRoundTrip(vs[0], rest);
      assert [vs[0]] == vs;
    } else {
      ElementsConsRoundTrip(vs, rest);
    }
  }

  lemma {:induction false} LastElementRoundTrip(v: Value, rest: string)
    requires Stops(rest)
    ensures ParseElements(Serialize(v) + ("]" + rest)) == Some(([v], rest))
    decreases v, 2
  {
    ValueRoundTrip(v, "]" + rest);
    ElementsStep(Serialize(v) + ("]" + rest), v, "]" + rest);
  }

  lemma {:induction false} ElementsConsRoundTrip(vs: seq<Value>, rest: string)
    requires |vs| >= 2 && Stops(rest)
    ensures ParseElements(Serialize(vs[0]) + (Elements(vs[1..], ",") + rest)) == Some((vs, rest))
    decreases vs, 1
  {
    var more := vs[1..];
    var tail := Elements(more, ",") + rest;
    assert tail == "," + (Serialize(more[0]) + (Elements(more[1..], ",") + rest));
    ValueRoundTrip(vs[0], tail);
    ElementsRoundTrip(more, rest);
    ElementsStep(Serialize(vs[0]) + tail, vs[0], tail);
    assert [vs[0]] + more == vs;
  }

  lemma {:induction false} ObjectRoundTrip(ms: seq<(string, Value)>, rest: string)
    requires Stops(rest)
    ensures ParseObject(Members(ms, "") + rest) == Some((Object(ms), rest))
    decreases ms, 2
  {
    if ms == [] {
      assert Members(ms, "") + rest == "}" + rest;
    } else {
      var t := Members(ms, "") + rest;
      var first := MemberText(ms[0]);
      assert t == first + (Members(ms[1..], ",") + rest);
      MemberTextStart(ms[0]);
      assert t[0] == first[0];
      ObjectStep(t);
      MembersRoundTrip(ms, rest);
    }
  }

  /** A member's text starts with its key's opening quote. */
  lemma MemberTextStart(m: (string, Value))
    ensures MemberText(m) != [] && MemberText(m)[0] == '"'
  {
  }

  /** An object whose first member starts right after the opening brace is its member list. */
  lemma ObjectStep(t: string)
    requires t != [] && t[0] == '"'
    ensures ParseMembers(t).Some? ==> ParseObject(t) == Some((Object(ParseMembers(t).value.0), ParseMembers(t).value.1))
  {
    assert SkipSpace(t) == t;
  }

  /** How ParseMembers continues once it has read a key, a colon and a value, and reached `tail`. */
  lemma MembersStep(t: string, key: string, afterKey: string, v: Value, tail: string, more: seq<(string, Value)>, rest: string)
    requires t != [] && t[0] == '"'
    requires ParseString(t) == Some((key, afterKey))
    requires afterKey != [] && afterKey[0] == ':'
    requires ParseValue(afterKey[1..]) == Some((v, tail))
    requires tail != [] && (tail[0] == '}' || (tail[0] == ',' && ParseMembers(tail[1..]) == Some((more, rest))))
    ensures tail[0] == '}' ==> ParseMembers(t) == Some(([(key, v)], tail[1..]))
    ensures tail[0] == ',' ==> ParseMembers(t) == Some(([(key, v)] + more, rest))
  {
    assert SkipSpace(t) == t;
    assert SkipSpace(afterKey) == afterKey;
    assert SkipSpace(tail) == tail;
  }

  /** One member reads back, whichever of a closing brace or a comma follows it. */
  lemma {:induction false} MemberRoundTrip(m: (string, Value), tail: string, more: seq<(string, Value)>, rest: string)
    requires tail != [] && (tail[0] == '}' || (tail[0] == ',' && ParseMembers(tail[1..]) == Some((more, rest))))
    ensures tail[0] == '}' ==> ParseMembers(MemberText(m) + tail) == Some(([m], tail[1..]))
    ensures tail[0] == ',' ==> ParseMembers(MemberText(m) + tail) == Some(([m] + more, rest))
    decreases m, 2
  {
    var afterKey := ":" + (Serialize(m.1) + tail);
    var t := MemberText(m) + tail;
    assert t == Quote(m.0) + afterKey;
    assert afterKey[1..] == Serialize(m.1) + tail;
    assert m.1 < m;
    StringRoundTrip(m.0, afterKey);
    ValueRoundTrip(m.1, tail);
    MembersStep(t, m.0, afterKey, m.1, tail, more, rest);
  }

  /** A non-empty member list, the first member without a leading comma, reads back. */
  lemma {:induction false} MembersRoundTrip(ms: seq<(string, Value)>, rest: string)
    requires ms != [] && Stops(rest)
    ensures ParseMembers(MemberText(ms[0]) + (Members(ms[1..], ",") + rest)) == Some((ms, rest))
    decreases ms, 1
  {
    if |ms| == 1 {
      LastMemberRoundTrip(ms, rest);
    } else {
      MembersConsRoundTrip(ms, rest);
    }
  }

  lemma {:induction false} LastMemberRoundTrip(ms: seq<(string, Value)>, rest: string)
    requires |ms| == 1 && Stops(rest)
    ensures ParseMembers(MemberText(ms[0]) + (Members(ms[1..], ",") + rest)) == Some((ms, rest))
    decreases ms, 0
  {
    var tail := Members(ms[1..], ",") + rest;
    assert tail == "}" + rest;
    MemberRoundTrip(ms[0], tail, [], rest);
    assert [ms[0]] == ms;
  }

  /** A member list after its first member: a comma, then the next member and the rest of the list. */
  lemma CommaTail(more: seq<(string, Value)>, rest: string)
    requires more != []
    ensures var tail := Members(more, ",") + rest;
      tail != [] && tail[0] == ','
      && tail[1..] == MemberText(more[0]) + (Members(more[1..], ",") + rest)
  {
    var tail := Members(more, ",") + rest;
    assert tail == "," + (MemberText(more[0]) + (Members(more[1..], ",") + rest));
  }

  lemma {:induction false} MembersConsRoundTrip(ms: seq<(string, Value)>, rest: string)
    requires |ms| >= 2 && Stops(rest)
    ensures ParseMembers(MemberText(ms[0]) + (Members(ms[1..], ",") + rest)) == Some((ms, rest))
    decreases ms, 0
  {
    var more := ms[1..];
    var tail := Members(more, ",") + rest;
    CommaTail(more, rest);
    MembersRoundTrip(more, rest);
    MemberRoundTrip(ms[0], tail, more, rest);
    assert [ms[0]] + more == ms;
  }

  /** JSON.parse(JSON.stringify(v)) is v. */
  lemma ParseSerialize(v: Value)
    ensures Parse(Serialize(v)) == Some(v)
  {
    ValueRoundTrip(v, []);
    assert Serialize(v) + [] == Serialize(v);
  }

  /** Different values are never written as the same text. */
  lemma SerializeInjective(a: Value, b: Value)
    requires Serialize(a) == Serialize(b)
    ensures a == b
  {
    ParseSerialize(a);
    ParseSerialize(b);
  }
}
