/** `JSON.parse` inverts `JSON.stringify`: the text written for a value reads
    back as the same value, for every value that can be written. */
module JsonRoundTrip {
  import opened Wrappers
  import opened JsValues
  import opened JsonText

  lemma SkipWsIdle(s: string)
    requires s == [] || !IsWs(s[0])
    ensures SkipWs(s) == s
  {
  }

  /** The parse of a string body with `c` put in front of its characters. */
  function Prepend(c: char, r: Result<(string, string), JsError>): Result<(string, string), JsError> {
    if r.Success? then Success(([c] + r.value.0, r.value.1)) else r
  }

  lemma HexDigitValue(d: int)
    requires 0 <= d < 16
    ensures IsHex(HexDigit(d)) && HexValue(HexDigit(d)) == d
  {
  }

  lemma DigitValue(d: int)
    requires 0 <= d < 10
    ensures IsDigit(Digit(d)) && Digit(d) as int - '0' as int == d
  {
  }

  lemma ShortEscape(c: char, x: string)
    requires c == '"' || c == '\\' || c == Backspace || c == FormFeed || c == '\n' || c == '\r' || c == '\t'
    ensures ParseStringBody(EscapeChar(c) + x) == Prepend(c, ParseStringBody(x))
  {
    var s := EscapeChar(c) + x;
    assert s[0] == '\\';
    assert s[1..] == [s[1]] + x;
    assert ParseEscape(s[1..]) == Success((c, x));
  }

  lemma HexEscape(c: char, x: string)
    requires c as int < 0x20
    requires !(c == Backspace || c == FormFeed || c == '\n' || c == '\r' || c == '\t')
    ensures ParseStringBody(EscapeChar(c) + x) == Prepend(c, ParseStringBody(x))
  {
    var n := c as int;
    var h1, h2 := HexDigit(n / 16), HexDigit(n % 16);
    HexDigitValue(n / 16);
    HexDigitValue(n % 16);
    var s := EscapeChar(c) + x;
    assert s == ['\\', 'u', '0', '0', h1, h2] + x;
    var e := s[1..];
    assert e == ['u', '0', '0', h1, h2] + x;
    assert StartsWithCodeUnit(e);
    assert e[1..5] == ['0', '0', h1, h2];
    assert CodeUnit(e[1..5]) == n;
    assert e[5..] == x;
    assert ParseEscape(e) == Success((c, x));
  }

  /** One escaped character reads back as itself. */
  lemma EscapeCharStep(c: char, x: string)
    ensures ParseStringBody(EscapeChar(c) + x) == Prepend(c, ParseStringBody(x))
  {
    if c == '"' || c == '\\' || c == Backspace || c == FormFeed || c == '\n' || c == '\r' || c == '\t' {
      ShortEscape(c, x);
    } else if c as int < 0x20 {
      HexEscape(c, x);
    } else {
      var s := EscapeChar(c) + x;
      assert s[0] == c && s[1..] == x;
    }
  }

  /** A string literal's body reads back as the string. */
  lemma {:induction false} StringRoundTrip(s: string, rest: string)
    ensures ParseStringBody(Escape(s) + "\"" + rest) == Success((s, rest))
  {
    if s == [] {
      assert Escape(s) + "\"" + rest == "\"" + rest;
    } else {
      var x := Escape(s[1..]) + "\"" + rest;
      assert Escape(s) + "\"" + rest == EscapeChar(s[0]) + x;
      EscapeCharStep(s[0], x);
      StringRoundTrip(s[1..], rest);
      assert [s[0]] + s[1..] == s;
    }
  }

  lemma {:induction false} DigitRunOfNumeral(d: string, rest: string)
    requires forall i :: 0 <= i < |d| ==> IsDigit(d[i])
    requires rest == [] || !IsDigit(rest[0])
    ensures DigitRun(d + rest) == |d|
  {
    if d == [] {
      assert d + rest == rest;
    } else {
      assert (d + rest)[1..] == d[1..] + rest;
      DigitRunOfNumeral(d[1..], rest);
    }
  }

  lemma {:induction false} NatTextValue(n: nat)
    ensures DigitsValue(NatText(n)) == n
    decreases n
  {
    var t := NatText(n);
    if n < 10 {
      DigitValue(n);
      assert t[..0] == [];
    } else {
      DigitValue(n % 10);
      assert t[..|t| - 1] == NatText(n / 10);
      NatTextValue(n / 10);
    }
  }

  lemma {:induction false} NatTextNoLeadingZero(n: nat)
    ensures |NatText(n)| > 1 ==> NatText(n)[0] != '0'
    decreases n
  {
    if n >= 10 {
      assert NatText(n)[0] == NatText(n / 10)[0];
      NatTextNoLeadingZero(n / 10);
      if n / 10 < 10 {
        DigitValue(n / 10);
      }
    }
  }

  /** The digits of a natural number, followed by a non-digit, read back as it. */
  lemma NumeralParse(m: nat, rest: string)
    requires rest == [] || !IsDigit(rest[0])
    ensures var u := NatText(m) + rest;
      var k := DigitRun(u);
      k == |NatText(m)| && !(k > 1 && u[0] == '0') && u[..k] == NatText(m)
      && DigitsValue(u[..k]) == m && u[k..] == rest
  {
    var d := NatText(m);
    var u := d + rest;
    DigitRunOfNumeral(d, rest);
    NatTextNoLeadingZero(m);
    NatTextValue(m);
    assert u[..|d|] == d;
    assert u[|d|..] == rest;
  }

  lemma ParseNumberDigits(u: string, m: nat, rest: string)
    requires u == NatText(m) + rest
    requires rest == [] || !IsDigit(rest[0])
    ensures ParseNumber(u) == Success((Num(m), rest))
  {
    assert IsDigit(u[0]);
    NumeralParse(m, rest);
  }

  lemma ParseNumberSign(s: string)
    requires |s| >= 2 && s[0] == '-' && IsDigit(s[1])
    ensures ParseNumber(s[1..]).Success? ==> ParseNumber(s) == Success((Num(0 - ParseNumber(s[1..]).value.0.n), ParseNumber(s[1..]).value.1))
    ensures ParseNumber(s[1..]).Failure? ==> ParseNumber(s).Failure?
  {
  }

  lemma ParseNumberNegative(s: string, m: nat, rest: string)
    requires |s| >= 2 && s[0] == '-' && s[1..] == NatText(m) + rest
    requires rest == [] || !IsDigit(rest[0])
    ensures ParseNumber(s) == Success((Num(0 - m), rest))
  {
    assert s[1] == NatText(m)[0];
    ParseNumberDigits(s[1..], m, rest);
    ParseNumberSign(s);
  }

  /** The first character of a non-empty text, and the text after it. */
  lemma Uncons(c: char, t: string)
    ensures ([c] + t)[0] == c && ([c] + t)[1..] == t
  {
  }

  /** A numeral reads back as its number when no digit follows it. */
  lemma NumberRoundTrip(n: int, rest: string)
    requires rest == [] || !IsDigit(rest[0])
    ensures ParseNumber(NumberText(n) + rest) == Success((Num(n), rest))
  {
    if n < 0 {
      NegativeRoundTrip(n, rest);
    } else {
      ParseNumberDigits(NumberText(n) + rest, n, rest);
    }
  }

  lemma NegativeRoundTrip(n: int, rest: string)
    requires n < 0 && (rest == [] || !IsDigit(rest[0]))
    ensures ParseNumber(NumberText(n) + rest) == Success((Num(n), rest))
  {
    var m: nat := -n;
    Regroup3("-", NatText(m), rest);
    Uncons('-', NatText(m) + rest);
    ParseNumberNegative(NumberText(n) + rest, m, rest);
  }

  lemma ItemsStart(items: seq<Value>)
    requires AllJson(items) && items != []
    ensures |StringifyItems(items).value| >= 1 && FirstOfValue(StringifyItems(items).value[0])
  {
  }

  lemma FieldsStart(fields: seq<Field>)
    requires AllFieldsJson(fields) && fields != []
    ensures |StringifyFields(fields).value| >= 1 && StringifyFields(fields).value[0] == '"'
  {
  }

  lemma LiteralRoundTrip(v: Value, rest: string)
    requires v.Null? || v.Bool?
    ensures ParseValue(Stringify(v).value + rest) == Success((v, rest))
  {
    var s := Stringify(v).value + rest;
    SkipWsIdle(s);
    if v.Null? {
      assert s[..4] == "null" && s[4..] == rest;
    } else if v.b {
      assert s[..4] == "true" && s[4..] == rest;
    } else {
      assert s[..5] == "false" && s[5..] == rest;
    }
  }

  /** A value starting with a minus sign is read as a number. */
  lemma ParseValueMinus(s: string)
    requires s != [] && s[0] == '-'
    ensures ParseValue(s) == ParseNumber(s)
  {
    SkipWsIdle(s);
  }

  /** A value starting with a digit is read as a number. */
  lemma ParseValueDigit(s: string)
    requires s != [] && IsDigit(s[0])
    ensures ParseValue(s) == ParseNumber(s)
  {
    SkipWsIdle(s);
  }

  lemma NumRoundTrip(n: int, rest: string)
    requires rest == [] || !IsDigit(rest[0])
    ensures ParseValue(Stringify(Num(n)).value + rest) == Success((Num(n), rest))
  {
    var s := NumberText(n) + rest;
    if n < 0 {
      assert s[0] == '-';
      ParseValueMinus(s);
    } else {
      assert s[0] == NatText(n)[0];
      ParseValueDigit(s);
    }
    NumberRoundTrip(n, rest);
  }

  lemma StrRoundTrip(x: string, rest: string)
    ensures ParseValue(Stringify(Str(x)).value + rest) == Success((Str(x), rest))
  {
    var s := Stringify(Str(x)).value + rest;
    SkipWsIdle(s);
    assert s[1..] == Escape(x) + "\"" + rest;
    StringRoundTrip(x, rest);
  }

  /** Every value that can be written reads back as itself, whatever text
      follows it, provided that text does not continue a number. */
  lemma {:induction false} ValueRoundTrip(v: Value, rest: string)
    requires IsJson(v)
    requires rest == [] || !IsDigit(rest[0])
    ensures ParseValue(Stringify(v).value + rest) == Success((v, rest))
    decreases v, 2
  {
    match v
    case Null => LiteralRoundTrip(v, rest);
    case Bool(_) => LiteralRoundTrip(v, rest);
    case Num(n) => NumRoundTrip(n, rest);
    case Str(x) => StrRoundTrip(x, rest);
    case Arr(items) => ArrRoundTrip(items, rest);
    case Obj(fields) => ObjRoundTrip(fields, rest);
  }

  /** A value starting with a bracket is read as the rest of an array. */
  lemma ParseValueArray(s: string)
    requires s != [] && s[0] == '['
    ensures ParseValue(s) == ParseArray(s[1..])
  {
    SkipWsIdle(s);
  }

  /** A value starting with a brace is read as the rest of an object. */
  lemma ParseValueObject(s: string)
    requires s != [] && s[0] == '{'
    ensures ParseValue(s) == ParseObject(s[1..])
  {
    SkipWsIdle(s);
  }

  /** Brackets around nothing. */
  lemma EmptyArrayText(rest: string)
    ensures ParseValue("[" + "]" + rest) == Success((Arr([]), rest))
  {
    var s := "[" + "]" + rest;
    ParseValueArray(s);
    assert s[1..] == "]" + rest;
    SkipWsIdle(s[1..]);
    assert s[2..] == rest;
  }

  /** An opening bracket followed by elements that read as `items`. */
  lemma ArrayText(s: string, items: seq<Value>, rest: string)
    requires |s| >= 2 && s[0] == '[' && FirstOfValue(s[1])
    requires ParseElements(s[1..]) == Success((items, rest))
    ensures ParseValue(s) == Success((Arr(items), rest))
  {
    ParseValueArray(s);
    SkipWsIdle(s[1..]);
  }

  /** Braces around nothing. */
  lemma EmptyObjectText(rest: string)
    ensures ParseValue("{" + "}" + rest) == Success((Obj([]), rest))
  {
    var s := "{" + "}" + rest;
    ParseValueObject(s);
    assert s[1..] == "}" + rest;
    SkipWsIdle(s[1..]);
    assert s[2..] == rest;
  }

  /** An opening brace followed by members that read as `fields`. */
  lemma ObjectText(s: string, fields: seq<Field>, rest: string)
    requires |s| >= 2 && s[0] == '{' && s[1] == '"'
    requires ParseMembers(s[1..]) == Success((fields, rest))
    ensures ParseValue(s) == Success((Obj(fields), rest))
  {
    ParseValueObject(s);
    SkipWsIdle(s[1..]);
  }

  /** A non-empty body between two delimiters, followed by `rest`. */
  lemma Delimited(open: char, body: string, close: char, rest: string)
    requires body != []
    ensures var s := [open] + body + [close] + rest;
      |s| >= 2 && s[0] == open && s[1] == body[0] && s[1..] == body + [close] + rest
  {
    var s := [open] + body + [close] + rest;
    assert s == [open] + (body + [close] + rest);
  }

  /** The text of a non-empty array: a bracket, then its elements. */
  lemma ArrayTextOf(items: seq<Value>, rest: string)
    requires AllJson(items) && items != []
    ensures var s := Stringify(Arr(items)).value + rest;
      |s| >= 2 && s[0] == '[' && FirstOfValue(s[1]) && s[1..] == StringifyItems(items).value + "]" + rest
  {
    ItemsStart(items);
    Delimited('[', StringifyItems(items).value, ']', rest);
  }

  /** The text of a non-empty object: a brace, then its members. */
  lemma ObjectTextOf(fields: seq<Field>, rest: string)
    requires AllFieldsJson(fields) && fields != []
    ensures var s := Stringify(Obj(fields)).value + rest;
      |s| >= 2 && s[0] == '{' && s[1] == '"' && s[1..] == StringifyFields(fields).value + "}" + rest
  {
    FieldsStart(fields);
    Delimited('{', StringifyFields(fields).value, '}', rest);
  }

  lemma {:induction false} ArrRoundTrip(items: seq<Value>, rest: string)
    requires AllJson(items)
    ensures ParseValue(Stringify(Arr(items)).value + rest) == Success((Arr(items), rest))
    decreases Arr(items), 1
  {
    var body := StringifyItems(items).value;
    if items == [] {
      assert Stringify(Arr(items)).value == "[" + "]";
      EmptyArrayText(rest);
    } else {
      ItemsRoundTrip(items, rest);
      ArrayTextOf(items, rest);
      ArrayText(Stringify(Arr(items)).value + rest, items, rest);
    }
  }

  lemma {:induction false} ObjRoundTrip(fields: seq<Field>, rest: string)
    requires AllFieldsJson(fields)
    ensures ParseValue(Stringify(Obj(fields)).value + rest) == Success((Obj(fields), rest))
    decreases Obj(fields), 1
  {
    var body := StringifyFields(fields).value;
    if fields == [] {
      assert Stringify(Obj(fields)).value == "{" + "}";
      EmptyObjectText(rest);
    } else {
      FieldsRoundTrip(fields, rest);
      ObjectTextOf(fields, rest);
      ObjectText(Stringify(Obj(fields)).value + rest, fields, rest);
    }
  }

  /** How `ParseElements` proceeds once the first element has been read. */
  lemma ElementsUnfold(s: string, v: Value, x: string, items: seq<Value>, rest: string)
    requires ParseValue(s) == Success((v, x))
    requires SkipWs(x) == x && x != []
    ensures x[0] == ']' ==> ParseElements(s) == Success(([v], x[1..]))
    ensures x[0] == ',' && ParseElements(x[1..]) == Success((items, rest)) ==>
              ParseElements(s) == Success(([v] + items, rest))
  {
  }

  /** An element followed by the closing bracket. */
  lemma LastItem(v: Value, rest: string)
    requires IsJson(v)
    ensures ParseElements(Stringify(v).value + ("]" + rest)) == Success(([v], rest))
    decreases v, 3
  {
    var x := "]" + rest;
    ValueRoundTrip(v, x);
    SkipWsIdle(x);
    assert x[1..] == rest;
    ElementsUnfold(Stringify(v).value + x, v, x, [], rest);
  }

  /** An element, a comma, and the text of further elements. */
  lemma ConsItem(v: Value, tail: string, items: seq<Value>, rest: string)
    requires IsJson(v)
    requires ParseElements(tail) == Success((items, rest))
    ensures ParseElements(Stringify(v).value + ("," + tail)) == Success(([v] + items, rest))
    decreases v, 3
  {
    var x := "," + tail;
    ValueRoundTrip(v, x);
    SkipWsIdle(x);
    assert x[1..] == tail;
    ElementsUnfold(Stringify(v).value + x, v, x, items, rest);
  }

  /** The text of a single element. */
  lemma OneItemText(items: seq<Value>, rest: string)
    requires AllJson(items) && |items| == 1
    ensures StringifyItems(items).value + "]" + rest == Stringify(items[0]).value + ("]" + rest)
    ensures [items[0]] == items
  {
    Regroup3(Stringify(items[0]).value, "]", rest);
  }

  /** The text of two or more elements, split after the first. */
  lemma ItemsText(items: seq<Value>, rest: string)
    requires AllJson(items) && |items| >= 2
    ensures StringifyItems(items).value + "]" + rest
         == Stringify(items[0]).value + ("," + (StringifyItems(items[1..]).value + "]" + rest))
  {
    var first := Stringify(items[0]).value;
    var others := StringifyItems(items[1..]).value;
    assert StringifyItems(items).value == first + "," + others;
    RegroupItems(first, ",", others, "]", rest);
  }

  lemma Regroup3(a: string, b: string, c: string)
    ensures a + b + c == a + (b + c)
  {
  }

  lemma Regroup5(a: string, b: string, c: string, d: string, e: string)
    ensures a + b + c + d + e == a + (b + c + (d + e))
  {
  }

  lemma RegroupItems(a: string, b: string, c: string, d: string, e: string)
    ensures a + b + c + d + e == a + (b + (c + d + e))
  {
  }

  lemma {:induction false} ItemsRoundTrip(items: seq<Value>, rest: string)
    requires AllJson(items) && items != []
    ensures ParseElements(StringifyItems(items).value + "]" + rest) == Success((items, rest))
    decreases items
  {
    if |items| == 1 {
      LastItem(items[0], rest);
      OneItemText(items, rest);
    } else {
      ItemsRoundTrip(items[1..], rest);
      ConsItem(items[0], StringifyItems(items[1..]).value + "]" + rest, items[1..], rest);
      ItemsText(items, rest);
      assert [items[0]] + items[1..] == items;
    }
  }

  /** The key of a written member reads back, leaving the colon and value. */
  lemma MemberKey(key: string, afterKey: string)
    ensures var s := Quote(key) + afterKey;
      s != [] && s[0] == '"' && ParseStringBody(s[1..]) == Success((key, afterKey))
  {
    var s := Quote(key) + afterKey;
    assert s == "\"" + (Escape(key) + "\"" + afterKey);
    assert s[1..] == Escape(key) + "\"" + afterKey;
    StringRoundTrip(key, afterKey);
  }

  /** The colon and value of a written member read back, leaving `x`. */
  lemma MemberValue(value: Value, x: string)
    requires IsJson(value)
    requires x != [] && (x[0] == ',' || x[0] == '}')
    ensures var afterKey := ":" + Stringify(value).value + x;
      SkipWs(afterKey) == afterKey && afterKey[0] == ':'
      && ParseValue(afterKey[1..]) == Success((value, x)) && SkipWs(x) == x
    decreases value, 3
  {
    var afterKey := ":" + Stringify(value).value + x;
    SkipWsIdle(afterKey);
    assert afterKey[1..] == Stringify(value).value + x;
    ValueRoundTrip(value, x);
    SkipWsIdle(x);
  }

  /** How `ParseMembers` proceeds once the first member has been read. */
  lemma MembersUnfold(s: string, key: string, afterKey: string, value: Value, x: string,
                      fields: seq<Field>, rest: string)
    requires s != [] && s[0] == '"'
    requires ParseStringBody(s[1..]) == Success((key, afterKey))
    requires SkipWs(afterKey) == afterKey && afterKey != [] && afterKey[0] == ':'
    requires ParseValue(afterKey[1..]) == Success((value, x))
    requires SkipWs(x) == x && x != []
    ensures x[0] == '}' ==> ParseMembers(s) == Success(([Field(key, value)], x[1..]))
    ensures x[0] == ',' && ParseMembers(SkipWs(x[1..])) == Success((fields, rest)) ==>
              ParseMembers(s) == Success(([Field(key, value)] + fields, rest))
  {
  }

  /** A member followed by the closing brace. */
  lemma LastMember(key: string, value: Value, rest: string)
    requires IsJson(value)
    ensures ParseMembers(Quote(key) + ":" + Stringify(value).value + "}" + rest)
         == Success(([Field(key, value)], rest))
    decreases value, 4
  {
    var x := "}" + rest;
    var afterKey := ":" + Stringify(value).value + x;
    var s := Quote(key) + ":" + Stringify(value).value + "}" + rest;
    Regroup5(Quote(key), ":", Stringify(value).value, "}", rest);
    MemberKey(key, afterKey);
    MemberValue(value, x);
    MembersUnfold(s, key, afterKey, value, x, [], rest);
    assert x[1..] == rest;
  }

  /** A member followed by a comma and further members. */
  lemma NextMember(key: string, value: Value, x: string, fields: seq<Field>, rest: string)
    requires IsJson(value)
    requires x != [] && x[0] == ','
    requires ParseMembers(SkipWs(x[1..])) == Success((fields, rest))
    ensures ParseMembers(Quote(key) + (":" + Stringify(value).value + x))
         == Success(([Field(key, value)] + fields, rest))
    decreases value, 4
  {
    var afterKey := ":" + Stringify(value).value + x;
    MemberKey(key, afterKey);
    MemberValue(value, x);
    MembersUnfold(Quote(key) + afterKey, key, afterKey, value, x, fields, rest);
  }

  /** The text of two or more members, split after the first. */
  lemma FieldsText(fields: seq<Field>, rest: string)
    requires AllFieldsJson(fields) && |fields| >= 2
    ensures StringifyFields(fields).value + "}" + rest
         == Quote(fields[0].key) + (":" + Stringify(fields[0].value).value
              + ("," + (StringifyFields(fields[1..]).value + "}" + rest)))
  {
    var first := Stringify(fields[0].value).value;
    var others := StringifyFields(fields[1..]).value;
    assert StringifyFields(fields).value == Quote(fields[0].key) + ":" + first + "," + others;
    Regroup(Quote(fields[0].key), ":", first, ",", others, "}", rest);
  }

  lemma Regroup(a: string, b: string, c: string, d: string, e: string, f: string, g: string)
    ensures a + b + c + d + e + f + g == a + (b + c + (d + (e + f + g)))
  {
  }

  /** A member, a comma, and the text of further members. */
  lemma ConsMember(key: string, value: Value, tail: string, fields: seq<Field>, rest: string)
    requires IsJson(value)
    requires tail != [] && tail[0] == '"'
    requires ParseMembers(tail) == Success((fields, rest))
    ensures ParseMembers(Quote(key) + (":" + Stringify(value).value + ("," + tail)))
         == Success(([Field(key, value)] + fields, rest))
    decreases value, 5
  {
    var x := "," + tail;
    assert x[1..] == tail;
    SkipWsIdle(tail);
    NextMember(key, value, x, fields, rest);
  }

  lemma {:induction false} FieldsRoundTrip(fields: seq<Field>, rest: string)
    requires AllFieldsJson(fields) && fields != []
    ensures ParseMembers(StringifyFields(fields).value + "}" + rest) == Success((fields, rest))
    decreases fields
  {
    var key, value := fields[0].key, fields[0].value;
    if |fields| == 1 {
      LastMember(key, value, rest);
      assert [Field(key, value)] == fields;
    } else {
      FieldsRoundTrip(fields[1..], rest);
      FieldsStart(fields[1..]);
      var tail := StringifyFields(fields[1..]).value + "}" + rest;
      ConsMember(key, value, tail, fields[1..], rest);
      FieldsText(fields, rest);
      assert [Field(key, value)] + fields[1..] == fields;
    }
  }

  /** `JSON.parse(JSON.stringify(v))` is `v` for every value `JSON.stringify` accepts. */
  lemma ParseStringify(v: Value)
    requires Stringify(v).Success?
    ensures Parse(Stringify(v).value) == Success(v)
  {
    ValueRoundTrip(v, "");
    assert Stringify(v).value + "" == Stringify(v).value;
  }

  /** A string with no quote, backslash or control character. */
  predicate IsPlain(s: string) {
    forall i :: 0 <= i < |s| ==> s[i] as int >= 0x20 && s[i] != '"' && s[i] != '\\'
  }

  /** Such a string is written as it is. */
  lemma {:induction false} EscapePlain(s: string)
    requires IsPlain(s)
    ensures Escape(s) == s
  {
    if s != [] {
      assert IsPlain(s[1..]) by {
        forall i | 0 <= i < |s[1..]| ensures s[1..][i] as int >= 0x20 && s[1..][i] != '"' && s[1..][i] != '\\' {
          assert s[1..][i] == s[i + 1];
        }
      }
      EscapePlain(s[1..]);
      assert [s[0]] + s[1..] == s;
    }
  }
}
