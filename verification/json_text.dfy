/** JSON text as defined by RFC 8259: `JSON.stringify` (no indentation) and
    `JSON.parse`, restricted to integral numbers. */
module JsonText {
  import opened Wrappers
  import opened JsValues

  // ---------------------------------------------------------------------------
  // Writing
  // ---------------------------------------------------------------------------

  function HexDigit(d: int): char
    requires 0 <= d < 16
  {
    "0123456789abcdef"[d]
  }

  const Backspace: char := 8 as char
  const FormFeed: char := 12 as char

  /** How `JSON.stringify` writes one character inside a string literal
      (section 7 of RFC 8259, with the short escapes JavaScript prefers). */
  function EscapeChar(c: char): (e: string)
    ensures |e| >= 1
  {
    if c == '"' then "\\\""
    else if c == '\\' then "\\\\"
    else if c == Backspace then "\\b"
    else if c == FormFeed then "\\f"
    else if c == '\n' then "\\n"
    else if c == '\r' then "\\r"
    else if c == '\t' then "\\t"
    else if c as int < 0x20 then "\\u00" + [HexDigit(c as int / 16), HexDigit(c as int % 16)]
    else [c]
  }

  function Escape(s: string): string {
    if s == [] then "" else EscapeChar(s[0]) + Escape(s[1..])
  }

  /** A string literal. */
  function Quote(s: string): string {
    "\"" + Escape(s) + "\""
  }

  /** `JSON.stringify(v)`: fails exactly when an unserializable value occurs. */
  function Stringify(v: Value): (r: Result<string, JsError>)
    ensures r.Success? <==> IsJson(v)
    ensures r.Success? ==> |r.value| >= 1 && FirstOfValue(r.value[0])
    ensures r.Failure? ==> r.error.name == "TypeError"
    decreases v, 1
  {
    match v
    case Null => Success("null")
    case Bool(b) => Success(if b then "true" else "false")
    case Num(n) => Success(NumberText(n))
    case Str(s) => Success(Quote(s))
    case Arr(items) =>
      var body :- StringifyItems(items);
      Success("[" + body + "]")
    case Obj(fields) =>
      var body :- StringifyFields(fields);
      Success("{" + body + "}")
    case Unserializable(e) => Failure(JsError("TypeError", e))
  }

  /** The comma-separated elements of an array. */
  function StringifyItems(items: seq<Value>): (r: Result<string, JsError>)
    ensures r.Success? <==> AllJson(items)
    ensures r.Failure? ==> r.error.name == "TypeError"
    decreases items
  {
    if items == [] then Success("")
    else
      var first :- Stringify(items[0]);
      if |items| == 1 then Success(first)
      else
        var others :- StringifyItems(items[1..]);
        Success(first + "," + others)
  }

  /** The comma-separated members of an object. */
  function StringifyFields(fields: seq<Field>): (r: Result<string, JsError>)
    ensures r.Success? <==> AllFieldsJson(fields)
    ensures r.Failure? ==> r.error.name == "TypeError"
    decreases fields
  {
    if fields == [] then Success("")
    else
      var first :- Stringify(fields[0].value);
      var member := Quote(fields[0].key) + ":" + first;
      if |fields| == 1 then Success(member)
      else
        var others :- StringifyFields(fields[1..]);
        Success(member + "," + others)
  }

  // ---------------------------------------------------------------------------
  // Reading
  // ---------------------------------------------------------------------------

  const BadJson := JsError("SyntaxError", "unexpected token in JSON")

  predicate IsWs(c: char) {
    c == ' ' || c == '\t' || c == '\n' || c == '\r'
  }

  /** The characters a value's text can begin with. */
  predicate FirstOfValue(c: char) {
    c == 'n' || c == 't' || c == 'f' || c == '"' || c == '[' || c == '{' || c == '-' || IsDigit(c)
  }

  function SkipWs(s: string): (t: string)
    ensures |t| <= |s|
    ensures t == [] || !IsWs(t[0])
  {
    if s != [] && IsWs(s[0]) then SkipWs(s[1..]) else s
  }

  function Literal(s: string, word: string, v: Value): (r: Result<(Value, string), JsError>)
    requires |word| >= 1
    ensures r.Success? ==> r.value.0 == v && |r.value.1| < |s|
  {
    if |s| >= |word| && s[..|word|] == word then Success((v, s[|word|..])) else Failure(BadJson)
  }

  predicate IsHex(c: char) {
    ('0' <= c <= '9') || ('a' <= c <= 'f') || ('A' <= c <= 'F')
  }

  function HexValue(c: char): (d: int)
    requires IsHex(c)
    ensures 0 <= d < 16
  {
    if '0' <= c <= '9' then c as int - '0' as int
    else if 'a' <= c <= 'f' then c as int - 'a' as int + 10
    else c as int - 'A' as int + 10
  }

  /** The code unit written by four hexadecimal digits. */
  function CodeUnit(s: string): (n: int)
    requires |s| == 4 && IsHex(s[0]) && IsHex(s[1]) && IsHex(s[2]) && IsHex(s[3])
    ensures 0 <= n < 0x1_0000
  {
    ((HexValue(s[0]) * 16 + HexValue(s[1])) * 16 + HexValue(s[2])) * 16 + HexValue(s[3])
  }

  predicate StartsWithCodeUnit(s: string) {
    |s| >= 5 && s[0] == 'u' && IsHex(s[1]) && IsHex(s[2]) && IsHex(s[3]) && IsHex(s[4])
  }

  /** The character written by an escape sequence; `s` follows the backslash.
      A surrogate pair written as two `\u` escapes yields one character; a lone
      surrogate cannot be held by a `string` and is rejected. */
  function ParseEscape(s: string): (r: Result<(char, string), JsError>)
    ensures r.Success? ==> |r.value.1| < |s|
  {
    if s == [] then Failure(BadJson)
    else if s[0] == '"' then Success(('"', s[1..]))
    else if s[0] == '\\' then Success(('\\', s[1..]))
    else if s[0] == '/' then Success(('/', s[1..]))
    else if s[0] == 'b' then Success((Backspace, s[1..]))
    else if s[0] == 'f' then Success((FormFeed, s[1..]))
    else if s[0] == 'n' then Success(('\n', s[1..]))
    else if s[0] == 'r' then Success(('\r', s[1..]))
    else if s[0] == 't' then Success(('\t', s[1..]))
    else if StartsWithCodeUnit(s) then
      var hi := CodeUnit(s[1..5]);
      if hi < 0xD800 || 0xE000 <= hi then Success((hi as char, s[5..]))
      else if hi < 0xDC00 && |s| >= 6 && s[5] == '\\' && StartsWithCodeUnit(s[6..]) then
        var lo := CodeUnit(s[7..11]);
        if 0xDC00 <= lo < 0xE000 then
          Success(((0x1_0000 + (hi - 0xD800) * 0x400 + (lo - 0xDC00)) as char, s[11..]))
        else Failure(BadJson)
      else Failure(BadJson)
    else Failure(BadJson)
  }

  /** The characters of a string literal up to its closing quote, and the
      text after that quote. */
  function ParseStringBody(s: string): (r: Result<(string, string), JsError>)
    ensures r.Success? ==> |r.value.1| < |s|
    decreases |s|
  {
    if s == [] then Failure(BadJson)
    else if s[0] == '"' then Success(("", s[1..]))
    else if s[0] == '\\' then
      var e :- ParseEscape(s[1..]);
      var tail :- ParseStringBody(e.1);
      Success(([e.0] + tail.0, tail.1))
    else if s[0] as int < 0x20 then Failure(BadJson)
    else
      var tail :- ParseStringBody(s[1..]);
      Success(([s[0]] + tail.0, tail.1))
  }

  /** The number of leading decimal digits of `s`. */
  function DigitRun(s: string): (k: nat)
    ensures k <= |s|
    ensures forall i :: 0 <= i < k ==> IsDigit(s[i])
    ensures k < |s| ==> !IsDigit(s[k])
  {
    if s != [] && IsDigit(s[0]) then 1 + DigitRun(s[1..]) else 0
  }

  /** The value of a numeral. */
  function DigitsValue(d: string): nat
    requires forall i :: 0 <= i < |d| ==> IsDigit(d[i])
  {
    if d == [] then 0
    else
      assert IsDigit(d[|d| - 1]);
      DigitsValue(d[..|d| - 1]) * 10 + (d[|d| - 1] as int - '0' as int)
  }

  /** An integer: an optional minus sign and digits without a leading zero.
      A fraction or exponent is not consumed, so the surrounding text fails. */
  function ParseNumber(s: string): (r: Result<(Value, string), JsError>)
    ensures r.Success? ==> r.value.0.Num? && |r.value.1| < |s|
  {
    var neg := s != [] && s[0] == '-';
    var u := if neg then s[1..] else s;
    var k := DigitRun(u);
    if k == 0 || (k > 1 && u[0] == '0') then Failure(BadJson)
    else
      var n: int := DigitsValue(u[..k]);
      Success((Num(if neg then -n else n), u[k..]))
  }

  /** One value, possibly preceded by white space, and the text after it. */
  function ParseValue(s: string): (r: Result<(Value, string), JsError>)
    ensures r.Success? ==> |r.value.1| < |s| && IsJson(r.value.0)
    decreases |s|, 1
  {
    var t := SkipWs(s);
    if t == [] then Failure(BadJson)
    else if t[0] == 'n' then Literal(t, "null", Null)
    else if t[0] == 't' then Literal(t, "true", Bool(true))
    else if t[0] == 'f' then Literal(t, "false", Bool(false))
    else if t[0] == '"' then
      var p :- ParseStringBody(t[1..]);
      Success((Str(p.0), p.1))
    else if t[0] == '[' then ParseArray(t[1..])
    else if t[0] == '{' then ParseObject(t[1..])
    else if t[0] == '-' || IsDigit(t[0]) then ParseNumber(t)
    else Failure(BadJson)
  }

  /** The rest of an array; `s` follows the opening bracket. */
  function ParseArray(s: string): (r: Result<(Value, string), JsError>)
    ensures r.Success? ==> |r.value.1| < |s| && IsJson(r.value.0)
    decreases |s|, 3
  {
    var u := SkipWs(s);
    if u != [] && u[0] == ']' then Success((Arr([]), u[1..]))
    else
      var p :- ParseElements(u);
      Success((Arr(p.0), p.1))
  }

  /** Comma-separated values up to and including the closing bracket. */
  function ParseElements(s: string): (r: Result<(seq<Value>, string), JsError>)
    ensures r.Success? ==> |r.value.1| < |s| && AllJson(r.value.0)
    decreases |s|, 2
  {
    var p :- ParseValue(s);
    var u := SkipWs(p.1);
    if u == [] then Failure(BadJson)
    else if u[0] == ',' then
      var q :- ParseElements(u[1..]);
      Success(([p.0] + q.0, q.1))
    else if u[0] == ']' then Success(([p.0], u[1..]))
    else Failure(BadJson)
  }

  /** The rest of an object; `s` follows the opening brace. */
  function ParseObject(s: string): (r: Result<(Value, string), JsError>)
    ensures r.Success? ==> |r.value.1| < |s| && IsJson(r.value.0)
    decreases |s|, 3
  {
    var u := SkipWs(s);
    if u != [] && u[0] == '}' then Success((Obj([]), u[1..]))
    else
      var p :- ParseMembers(u);
      Success((Obj(p.0), p.1))
  }

  /** Comma-separated members up to and including the closing brace. */
  function ParseMembers(s: string): (r: Result<(seq<Field>, string), JsError>)
    ensures r.Success? ==> |r.value.1| < |s| && AllFieldsJson(r.value.0)
    decreases |s|, 2
  {
    if s == [] || s[0] != '"' then Failure(BadJson)
    else
      var k :- ParseStringBody(s[1..]);
      var u := SkipWs(k.1);
      if u == [] || u[0] != ':' then Failure(BadJson)
      else
        var p :- ParseValue(u[1..]);
        var w := SkipWs(p.1);
        if w == [] then Failure(BadJson)
        else if w[0] == ',' then
          var q :- ParseMembers(SkipWs(w[1..]));
          Success(([Field(k.0, p.0)] + q.0, q.1))
        else if w[0] == '}' then Success(([Field(k.0, p.0)], w[1..]))
        else Failure(BadJson)
  }

  /** `JSON.parse(text)`. */
  function Parse(text: string): (r: Result<Value, JsError>)
    ensures r.Success? ==> IsJson(r.value)
  {
    var p :- ParseValue(text);
    if SkipWs(p.1) == [] then Success(p.0) else Failure(BadJson)
  }
}
