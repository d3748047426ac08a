/** JavaScript values as the bridge sees them: what `JSON.parse` produces,
    plus one extra case for a value `JSON.stringify` rejects. Object fields keep
    their insertion order, and the model writes them in that order; JavaScript
    would write integer-like keys first, which is not modelled. */
module JsValues {
  import opened Wrappers

  datatype Value =
    | Null
    | Bool(b: bool)
    | Num(n: int)
    | Str(s: string)
    | Arr(items: seq<Value>)
    | Obj(fields: seq<Field>)
      /** A value `JSON.stringify` throws on (a BigInt, a circular structure);
          `error` is the text of the thrown error. */
    | Unserializable(error: string)

  /** One member of an object. */
  datatype Field = Field(key: string, value: Value)

  /** A thrown JavaScript error: its constructor name and its message. */
  datatype JsError = JsError(name: string, message: string)

  /** `new Error(message)`. */
  function Fail(message: string): JsError {
    JsError("Error", message)
  }

  /** What a template literal `${e}` yields for a thrown error whose message
      is not empty (an empty message would give the name alone). */
  function Describe(e: JsError): string {
    e.name + ": " + e.message
  }

  /** True when no `Unserializable` occurs anywhere in the value. */
  predicate IsJson(v: Value)
    decreases v, 1
  {
    match v
    case Arr(items) => AllJson(items)
    case Obj(fields) => AllFieldsJson(fields)
    case Unserializable(_) => false
    case _ => true
  }

  predicate AllJson(items: seq<Value>)
    decreases items
  {
    items == [] || (IsJson(items[0]) && AllJson(items[1..]))
  }

  predicate AllFieldsJson(fields: seq<Field>)
    decreases fields
  {
    fields == [] || (IsJson(fields[0].value) && AllFieldsJson(fields[1..]))
  }

  /** The value bound to `key`; with repeated keys the last binding wins, as
      it does for an object built by `JSON.parse`. */
  function Lookup(fields: seq<Field>, key: string): (r: Option<Value>)
    ensures r.None? <==> (forall i :: 0 <= i < |fields| ==> fields[i].key != key)
    ensures r.Some? ==> exists i :: 0 <= i < |fields| && fields[i] == Field(key, r.value)
  {
    if fields == [] then None
    else if fields[|fields| - 1].key == key then Some(fields[|fields| - 1].value)
    else Lookup(fields[..|fields| - 1], key)
  }

  lemma {:induction false} AllFieldsJsonAt(fields: seq<Field>, i: int)
    requires AllFieldsJson(fields) && 0 <= i < |fields|
    ensures IsJson(fields[i].value)
    decreases i
  {
    if i > 0 {
      AllFieldsJsonAt(fields[1..], i - 1);
    }
  }

  /** An object's fields are all JSON exactly when each one is. */
  lemma {:induction false} AllFieldsJsonEach(fields: seq<Field>)
    ensures AllFieldsJson(fields) <==> forall i :: 0 <= i < |fields| ==> IsJson(fields[i].value)
  {
    if fields != [] {
      AllFieldsJsonEach(fields[1..]);
      assert forall i :: 1 <= i < |fields| ==> fields[i] == fields[1..][i - 1];
    }
  }

  /** No two fields share a key. */
  predicate DistinctKeys(fields: seq<Field>) {
    forall j, k :: 0 <= j < k < |fields| ==> fields[j].key != fields[k].key
  }

  /** In an object without repeated keys, looking a field's key up finds that field. */
  lemma {:induction false} LookupField(fields: seq<Field>, i: int)
    requires DistinctKeys(fields) && 0 <= i < |fields|
    ensures Lookup(fields, fields[i].key) == Some(fields[i].value)
    decreases |fields|
  {
    var last := |fields| - 1;
    if i < last {
      var init := fields[..last];
      assert init[i] == fields[i];
      assert DistinctKeys(init) by {
        forall j, k | 0 <= j < k < |init| ensures init[j].key != init[k].key {
          assert init[j] == fields[j] && init[k] == fields[k];
        }
      }
      LookupField(init, i);
    }
  }

  /** A property of a JSON object is itself a JSON value. */
  lemma LookupJson(fields: seq<Field>, key: string)
    requires AllFieldsJson(fields)
    ensures Lookup(fields, key).Some? ==> IsJson(Lookup(fields, key).value)
  {
    if Lookup(fields, key).Some? {
      var i :| 0 <= i < |fields| && fields[i] == Field(key, Lookup(fields, key).value);
      AllFieldsJsonAt(fields, i);
    }
  }

  /** An object literal; members whose value is `undefined` are left out, as
      `JSON.stringify` leaves them out. */
  function ObjectOf(members: seq<(string, Option<Value>)>): (v: Value)
    ensures v.Obj?
    ensures |v.fields| <= |members|
  {
    if members == [] then Obj([])
    else
      var tail := ObjectOf(members[1..]).fields;
      match members[0].1
      case Some(x) => Obj([Field(members[0].0, x)] + tail)
      case None => Obj(tail)
  }

  /** An object literal is serialisable exactly when every member it keeps is. */
  lemma {:induction false} ObjectOfJson(members: seq<(string, Option<Value>)>)
    ensures IsJson(ObjectOf(members))
        <==> forall i :: 0 <= i < |members| && members[i].1.Some? ==> IsJson(members[i].1.value)
  {
    if members != [] {
      ObjectOfJson(members[1..]);
      assert forall i :: 1 <= i < |members| ==> members[i] == members[1..][i - 1];
      if members[0].1.Some? {
        var f := Field(members[0].0, members[0].1.value);
        assert ([f] + ObjectOf(members[1..]).fields)[1..] == ObjectOf(members[1..]).fields;
      }
    }
  }

  /** Looking a key up in an object with one more field in front: a later
      binding wins over the front one. */
  lemma {:induction false} LookupCons(f: Field, rest: seq<Field>, key: string)
    ensures Lookup([f] + rest, key)
         == if Lookup(rest, key).Some? then Lookup(rest, key) else if f.key == key then Some(f.value) else None
    decreases |rest|
  {
    var s := [f] + rest;
    if rest != [] && rest[|rest| - 1].key != key {
      var init := rest[..|rest| - 1];
      assert s[..|s| - 1] == [f] + init;
      LookupCons(f, init, key);
    }
  }

  /** The value of `key` in an object literal: the last defined member of that name. */
  function MemberLookup(members: seq<(string, Option<Value>)>, key: string): Option<Value> {
    if members == [] then None
    else
      var later := MemberLookup(members[1..], key);
      if later.Some? then later else if members[0].0 == key then members[0].1 else None
  }

  /** Reading a property of an object literal finds the member of that name. */
  lemma {:induction false} ObjectOfLookup(members: seq<(string, Option<Value>)>, key: string)
    ensures Lookup(ObjectOf(members).fields, key) == MemberLookup(members, key)
  {
    if members != [] {
      ObjectOfLookup(members[1..], key);
      if members[0].1.Some? {
        LookupCons(Field(members[0].0, members[0].1.value), ObjectOf(members[1..]).fields, key);
      }
    }
  }

  /** One step of building an object literal from its members. */
  lemma ObjectOfStep(members: seq<(string, Option<Value>)>, k: int)
    requires 0 <= k < |members|
    ensures ObjectOf(members[k..])
         == if members[k].1.Some? then Obj([Field(members[k].0, members[k].1.value)] + ObjectOf(members[k + 1..]).fields)
            else ObjectOf(members[k + 1..])
  {
    assert members[k..][1..] == members[k + 1..];
  }

  /** No two members of an object literal share a name. */
  predicate DistinctNames(members: seq<(string, Option<Value>)>) {
    forall j, k :: 0 <= j < k < |members| ==> members[j].0 != members[k].0
  }

  lemma {:induction false} MemberLookupAbsent(members: seq<(string, Option<Value>)>, key: string)
    requires forall j :: 0 <= j < |members| ==> members[j].0 != key
    ensures MemberLookup(members, key) == None
  {
    if members != [] {
      MemberLookupAbsent(members[1..], key);
    }
  }

  /** In an object literal without repeated names, each name reads its own member. */
  lemma {:induction false} MemberLookupAt(members: seq<(string, Option<Value>)>, i: int)
    requires DistinctNames(members) && 0 <= i < |members|
    ensures MemberLookup(members, members[i].0) == members[i].1
  {
    var rest := members[1..];
    if i == 0 {
      MemberLookupAbsent(rest, members[0].0);
    } else {
      assert rest[i - 1] == members[i];
      assert DistinctNames(rest) by {
        forall j, k | 0 <= j < k < |rest| ensures rest[j].0 != rest[k].0 {
          assert rest[j] == members[j + 1] && rest[k] == members[k + 1];
        }
      }
      MemberLookupAt(rest, i - 1);
    }
  }

  /** A list of strings as a JavaScript array. */
  function StringsValue(ss: seq<string>): (items: seq<Value>)
    ensures |items| == |ss|
    ensures forall i :: 0 <= i < |ss| ==> items[i] == Str(ss[i])
    ensures AllJson(items)
  {
    if ss == [] then [] else [Str(ss[0])] + StringsValue(ss[1..])
  }

  /** An object whose members are all strings (`{ [key: string]: string }`),
      as its members in insertion order. */
  type StringMap = seq<(string, string)>

  function StringMapValue(m: StringMap): (v: Value)
    ensures IsJson(v) && v.Obj? && |v.fields| == |m|
    ensures forall i :: 0 <= i < |m| ==> v.fields[i] == Field(m[i].0, Str(m[i].1))
  {
    var fields := seq(|m|, i requires 0 <= i < |m| => Field(m[i].0, Str(m[i].1)));
    AllFieldsJsonEach(fields);
    Obj(fields)
  }

  /** The names of an object's fields, in order. */
  function Keys(fields: seq<Field>): (ks: seq<string>)
    ensures |ks| == |fields|
    ensures forall i :: 0 <= i < |fields| ==> ks[i] == fields[i].key
  {
    if fields == [] then [] else [fields[0].key] + Keys(fields[1..])
  }

  lemma KeysAppend(a: seq<Field>, b: seq<Field>)
    ensures Keys(a + b) == Keys(a) + Keys(b)
  {
    assert forall i :: 0 <= i < |a| ==> (a + b)[i] == a[i];
    assert forall i :: |a| <= i < |a| + |b| ==> (a + b)[i] == b[i - |a|];
  }

  /** The number of UTF-16 code units of `s`, which is what `.length` counts. */
  function Utf16Length(s: string): nat {
    if s == [] then 0 else (if s[0] as int < 0x1_0000 then 1 else 2) + Utf16Length(s[1..])
  }

  /** A property read `v.key` (throws on `undefined` and `null`); only the
      own data properties a JSON value can have, plus `length`, are modelled. */
  function Get(v: Option<Value>, key: string): (r: Result<Option<Value>, JsError>)
    ensures r.Failure? <==> (v.None? || v == Some(Null))
    ensures v.Some? && v.value != Null ==> r.Success?
  {
    match v
    case None => Failure(JsError("TypeError", "cannot read property '" + key + "' of undefined"))
    case Some(Null) => Failure(JsError("TypeError", "cannot read property '" + key + "' of null"))
    case Some(Obj(fields)) => Success(Lookup(fields, key))
    case Some(Arr(items)) => Success(if key == "length" then Some(Num(|items|)) else None)
    case Some(Str(s)) => Success(if key == "length" then Some(Num(Utf16Length(s))) else None)
    case Some(_) => Success(None)
  }

  /** An optional-chaining read `v?.key`: `undefined` when `v` is null or undefined. */
  function OptGet(v: Option<Value>, key: string): (r: Result<Option<Value>, JsError>)
    ensures r.Success?
    ensures v.None? || v == Some(Null) ==> r.value.None?
  {
    if v.None? || v == Some(Null) then Success(None) else Get(v, key)
  }

  /** JavaScript truthiness; `undefined` is falsy. */
  predicate Truthy(v: Option<Value>) {
    match v
    case None => false
    case Some(Null) => false
    case Some(Bool(b)) => b
    case Some(Num(n)) => n != 0
    case Some(Str(s)) => s != ""
    case Some(_) => true
  }

  /** `v || fallback`. */
  function Or(v: Option<Value>, fallback: Value): (r: Value)
    ensures Truthy(v) ==> Some(r) == v
    ensures !Truthy(v) ==> r == fallback
  {
    if Truthy(v) then v.value else fallback
  }

  /** `s || ''` is `s` for every string `s`. */
  lemma OrEmptyString(s: string)
    ensures Or(Some(Str(s)), Str("")) == Str(s)
  {
    if s == "" {
      assert !Truthy(Some(Str(s)));
    }
  }

  /** The decimal digit for 0 <= d < 10. */
  function Digit(d: int): char
    requires 0 <= d < 10
  {
    "0123456789"[d]
  }

  predicate IsDigit(c: char) {
    '0' <= c <= '9'
  }

  /** The shortest decimal numeral of a natural number. */
  function NatText(n: nat): (t: string)
    ensures |t| >= 1
    ensures forall i :: 0 <= i < |t| ==> IsDigit(t[i])
    decreases n
  {
    if n < 10 then [Digit(n)] else NatText(n / 10) + [Digit(n % 10)]
  }

  /** How JavaScript prints an integral number. */
  function NumberText(n: int): (t: string)
    ensures |t| >= 1
  {
    if n < 0 then "-" + NatText(-n) else NatText(n)
  }

  /** `String(v)`, the conversion a template literal applies. */
  function ToJsString(v: Value): string
    decreases v, 1
  {
    match v
    case Null => "null"
    case Bool(b) => if b then "true" else "false"
    case Num(n) => NumberText(n)
    case Str(s) => s
    case Arr(items) => JoinWith(items, ",")
    case _ => "[object Object]"
  }

  /** `items.join(sep)`: null elements contribute the empty string. */
  function JoinWith(items: seq<Value>, sep: string): string
    decreases items
  {
    if items == [] then ""
    else
      var first := if items[0] == Null then "" else ToJsString(items[0]);
      if |items| == 1 then first else first + sep + JoinWith(items[1..], sep)
  }

  /** `v.join(sep)`: only arrays have a `join` method. */
  function Join(v: Option<Value>, sep: string): (r: Result<string, JsError>)
    ensures r.Success? <==> (v.Some? && v.value.Arr?)
  {
    match v
    case Some(Arr(items)) => Success(JoinWith(items, sep))
    case None => Failure(JsError("TypeError", "cannot read property 'join' of undefined"))
    case Some(Null) => Failure(JsError("TypeError", "cannot read property 'join' of null"))
    case Some(_) => Failure(JsError("TypeError", "not a function"))
  }

  /** `v.toString()`. */
  function ToStringCall(v: Option<Value>): (r: Result<string, JsError>)
    ensures r.Failure? <==> (v.None? || v == Some(Null))
    ensures v == Some(Bool(true)) ==> r == Success("true")
    ensures v == Some(Bool(false)) ==> r == Success("false")
  {
    match v
    case None => Failure(JsError("TypeError", "cannot read property 'toString' of undefined"))
    case Some(Null) => Failure(JsError("TypeError", "cannot read property 'toString' of null"))
    case Some(x) => Success(ToJsString(x))
  }

  /** `v === w`: strict equality against a primitive. */
  predicate StrictEquals(v: Option<Value>, w: Value)
    requires w.Null? || w.Bool? || w.Num? || w.Str?
  {
    v == Some(w)
  }

  /** `v > 0` for a number; a comparison with any other operand is taken as false. */
  predicate IsPositive(v: Value) {
    v.Num? && v.n > 0
  }

  /** The substring relation used by `String.prototype.includes`. */
  predicate IsSubstring(sub: string, s: string) {
    exists i :: 0 <= i <= |s| && OccursAt(sub, s, i)
  }

  predicate OccursAt(sub: string, s: string, i: int) {
    0 <= i <= |s| - |sub| && s[i..i + |sub|] == sub
  }

  /** A value `===` compares by content: the primitives.  Objects and arrays
      compare by identity, and no two separately parsed ones are identical. */
  predicate IsPrimitive(x: Value) {
    x.Null? || x.Bool? || x.Num? || x.Str?
  }

  /** `v?.includes(x)`: array membership by strict equality, substring
      search on a string, `undefined` (here `false`) on null or undefined;
      the other values have no `includes` method. */
  function Includes(v: Option<Value>, x: Value): (r: Result<bool, JsError>)
    ensures r.Failure? <==> v.Some? && !(v.value.Null? || v.value.Arr? || v.value.Str?)
    ensures v.Some? && v.value.Arr? ==> r == Success(IsPrimitive(x) && x in v.value.items)
    ensures v.Some? && v.value.Str? ==> r == Success(IsSubstring(ToJsString(x), v.value.s))
    ensures v.None? || v == Some(Null) ==> r == Success(false)
  {
    match v
    case None => Success(false)
    case Some(Null) => Success(false)
    case Some(Arr(items)) => Success(IsPrimitive(x) && x in items)
    case Some(Str(s)) => Success(IsSubstring(ToJsString(x), s))
    case Some(_) => Failure(JsError("TypeError", "not a function"))
  }
}
