/** The policy's answers and its input (js/kubewarden/validation.ts): the
    response objects a policy writes, the two constructors of validation
    responses, and the reading of the validation request. */
module Validation {
  import opened Wrappers
  import opened Utf8
  import opened JsValues
  import opened JsonText
  import opened JsonRoundTrip
  import opened Effects
  import opened Protocol
  import opened HostCalls

  /** `SettingsValidationResponse`; an absent message is `None`. */
  datatype SettingsValidationResponse = SettingsValidationResponse(valid: bool, message: Option<string>)

  /** The members of an object literal such as `{ digest: digest || '' }`,
      in order; a member whose value is `undefined` is `None`. */
  type Members = seq<(string, Option<Value>)>

  /** `ValidationResponse`.  The constructor stores its arguments as given,
      and callers pass values read from host answers, so `accepted`,
      `message` and the audit annotations may hold any value; each
      optional member is `None` when `undefined`. */
  datatype ValidationResponse = ValidationResponse(
    accepted: Option<Value>,
    message: Option<Value>,
    code: Option<int>,
    mutatedObject: Option<string>,
    auditAnnotations: Option<Members>,
    warnings: Option<seq<string>>)

  function OptStr(s: Option<string>): Option<Value> {
    if s.Some? then Some(Str(s.value)) else None
  }

  /** The members of a validation response in the order the constructor
      assigns them. */
  function ResponseMembers(r: ValidationResponse): Members {
    [("accepted", r.accepted),
     ("message", r.message),
     ("code", if r.code.Some? then Some(Num(r.code.value)) else None),
     ("mutated_object", OptStr(r.mutatedObject)),
     ("audit_annotations", if r.auditAnnotations.Some? then Some(ObjectOf(r.auditAnnotations.value)) else None),
     ("warnings", if r.warnings.Some? then Some(Arr(StringsValue(r.warnings.value))) else None)]
  }

  /** Every defined member of an object literal is a JSON value. */
  predicate MembersJson(members: Members) {
    forall i :: 0 <= i < |members| && members[i].1.Some? ==> IsJson(members[i].1.value)
  }

  /** A response `JSON.stringify` can write: none of its values holds
      anything unserialisable. */
  predicate Serializable(r: ValidationResponse) {
    && (r.accepted.Some? ==> IsJson(r.accepted.value))
    && (r.message.Some? ==> IsJson(r.message.value))
    && (r.auditAnnotations.Some? ==> MembersJson(r.auditAnnotations.value))
  }

  /** The object `JSON.stringify` sees for a validation response:
      `undefined` members are not written. */
  function ValidationValue(r: ValidationResponse): (v: Value)
    ensures v.Obj?
    ensures IsJson(v) <==> Serializable(r)
  {
    var members := ResponseMembers(r);
    ObjectOfJson(members);
    assert MembersJson(members) <==> Serializable(r) by {
      if r.auditAnnotations.Some? {
        ObjectOfJson(r.auditAnnotations.value);
      }
      var each := forall i :: 0 <= i < 6 && members[i].1.Some? ==> IsJson(members[i].1.value);
      assert MembersJson(members) <==> each;
      assert IsJson(Arr(StringsValue([])));
      if r.warnings.Some? {
        assert IsJson(members[5].1.value);
      }
      if Serializable(r) {
        forall i | 0 <= i < 6 && members[i].1.Some? ensures IsJson(members[i].1.value) {
        }
      }
      if each {
        assert members[0].1.Some? ==> IsJson(members[0].1.value);
        assert members[1].1.Some? ==> IsJson(members[1].1.value);
        assert members[4].1.Some? ==> IsJson(members[4].1.value);
      }
    }
    ObjectOf(members)
  }

  /** The response read back from its object: what the host reads. */
  function ResponseOf(v: Value): (r: Option<ValidationResponse>)
  {
    if !v.Obj? then None
    else
      var f := v.fields;
      var code := Lookup(f, "code");
      var mutated := Lookup(f, "mutated_object");
      var audit := Lookup(f, "audit_annotations");
      var warnings := Lookup(f, "warnings");
      if (code.Some? && !code.value.Num?) || (mutated.Some? && !mutated.value.Str?)
         || (audit.Some? && !audit.value.Obj?) || (warnings.Some? && !warnings.value.Arr?)
      then None
      else
        var warningList := if warnings.Some? then StringsOf(warnings.value.items) else Some([]);
        if warningList.None? then None
        else
          Some(ValidationResponse(
            Lookup(f, "accepted"),
            Lookup(f, "message"),
            if code.Some? then Some(code.value.n) else None,
            if mutated.Some? then Some(mutated.value.s) else None,
            if audit.Some? then Some(MembersOf(audit.value.fields)) else None,
            if warnings.Some? then Some(warningList.value) else None))
  }

  /** The strings of an array of strings. */
  function StringsOf(items: seq<Value>): Option<seq<string>> {
    if items == [] then Some([])
    else if !items[0].Str? then None
    else
      var rest :- StringsOf(items[1..]);
      Some([items[0].s] + rest)
  }

  /** An object's fields as defined object literal members. */
  function MembersOf(fields: seq<Field>): Members {
    if fields == [] then [] else [(fields[0].key, Some(fields[0].value))] + MembersOf(fields[1..])
  }

  lemma {:induction false} StringsRoundTrip(ss: seq<string>)
    ensures StringsOf(StringsValue(ss)) == Some(ss)
  {
    if ss != [] {
      assert StringsValue(ss)[1..] == StringsValue(ss[1..]);
      StringsRoundTrip(ss[1..]);
      assert [ss[0]] + ss[1..] == ss;
    }
  }

  /** No member of the literal is `undefined`. */
  predicate Defined(members: Members) {
    forall i :: 0 <= i < |members| ==> members[i].1.Some?
  }

  /** An object literal whose members are all defined is read back member
      by member; an `undefined` member is lost. */
  lemma {:induction false} MembersRoundTrip(members: Members)
    ensures MembersOf(ObjectOf(members).fields) == members <==> Defined(members)
  {
    if members != [] {
      var rest := members[1..];
      MembersRoundTrip(rest);
      assert Defined(members) <==> members[0].1.Some? && Defined(rest) by {
        assert forall i :: 1 <= i < |members| ==> members[i] == rest[i - 1];
      }
      var tail := ObjectOf(rest).fields;
      if members[0].1.Some? {
        var f := Field(members[0].0, members[0].1.value);
        assert ([f] + tail)[1..] == tail;
        assert MembersOf(ObjectOf(members).fields) == [members[0]] + MembersOf(tail);
        assert [members[0]] + rest == members;
        assert MembersOf(ObjectOf(members).fields) == members <==> MembersOf(tail) == rest by {
          if MembersOf(ObjectOf(members).fields) == members {
            assert MembersOf(tail) == members[1..];
          }
        }
      } else {
        assert |MembersOf(tail)| == |tail| <= |rest| < |members| by {
          MembersOfLength(tail);
        }
      }
    }
  }

  lemma {:induction false} MembersOfLength(fields: seq<Field>)
    ensures |MembersOf(fields)| == |fields|
  {
    if fields != [] {
      MembersOfLength(fields[1..]);
    }
  }

  /** Every member of a response is read back from its JSON object, as
      long as none of its audit annotations is `undefined`. */
  lemma ResponseRoundTrip(r: ValidationResponse)
    requires r.auditAnnotations.Some? ==> Defined(r.auditAnnotations.value)
    ensures ResponseOf(ValidationValue(r)) == Some(r)
  {
    var members := ResponseMembers(r);
    var f := ValidationValue(r).fields;
    assert DistinctNames(members);
    forall i | 0 <= i < |members| ensures Lookup(f, members[i].0) == members[i].1 {
      ObjectOfLookup(members, members[i].0);
      MemberLookupAt(members, i);
    }
    assert Lookup(f, "accepted") == members[0].1;
    assert Lookup(f, "message") == members[1].1;
    assert Lookup(f, "code") == members[2].1;
    assert Lookup(f, "mutated_object") == members[3].1;
    assert Lookup(f, "audit_annotations") == members[4].1;
    assert Lookup(f, "warnings") == members[5].1;
    if r.auditAnnotations.Some? {
      MembersRoundTrip(r.auditAnnotations.value);
    }
    if r.warnings.Some? {
      StringsRoundTrip(r.warnings.value);
    }
  }

  /** `acceptRequest()`. */
  function AcceptRequest(): (r: ValidationResponse)
    ensures r.accepted == Some(Bool(true)) && Serializable(r)
    ensures r.message.None? && r.code.None? && r.mutatedObject.None? && r.auditAnnotations.None? && r.warnings.None?
  {
    ValidationResponse(Some(Bool(true)), None, None, None, None, None)
  }

  /** `rejectRequest(message, code)`. */
  function RejectRequest(message: string, code: Option<int>): (r: ValidationResponse)
    ensures r.accepted == Some(Bool(false)) && r.message == Some(Str(message)) && r.code == code
    ensures r.mutatedObject.None? && r.auditAnnotations.None? && r.warnings.None?
    ensures Serializable(r)
  {
    ValidationResponse(Some(Bool(false)), Some(Str(message)), code, None, None, None)
  }

  /** An accepting response is written as `{"accepted":true}`: none of
      the undefined members appear. */
  lemma AcceptObject()
    ensures ValidationValue(AcceptRequest()) == Obj([Field("accepted", Bool(true))])
  {
    Unfold(ResponseMembers(AcceptRequest()));
  }

  /** A rejection without a code is written with its `accepted` and
      `message` members only. */
  lemma RejectObject(message: string)
    ensures ValidationValue(RejectRequest(message, None)) == Obj([Field("accepted", Bool(false)), Field("message", Str(message))])
  {
    var members := ResponseMembers(RejectRequest(message, None));
    Unfold(members);
    assert ObjectOf(members[1..]) == Obj([Field("message", Str(message))]);
    assert [Field("accepted", Bool(false))] + [Field("message", Str(message))]
        == [Field("accepted", Bool(false)), Field("message", Str(message))];
  }

  lemma Unfold(members: seq<(string, Option<Value>)>)
    requires |members| == 6
    ensures ObjectOf(members) == ObjectOf(members[0..])
    ensures forall k :: 0 <= k < 6 ==>
              ObjectOf(members[k..])
              == if members[k].1.Some? then Obj([Field(members[k].0, members[k].1.value)] + ObjectOf(members[k + 1..]).fields)
                 else ObjectOf(members[k + 1..])
    ensures ObjectOf(members[6..]) == Obj([])
  {
    forall k | 0 <= k < 6
      ensures ObjectOf(members[k..])
           == if members[k].1.Some? then Obj([Field(members[k].0, members[k].1.value)] + ObjectOf(members[k + 1..]).fields)
              else ObjectOf(members[k + 1..])
    {
      ObjectOfStep(members, k);
    }
    assert members[6..] == [] && members[0..] == members;
  }

  /** The object written for a settings validation response. */
  function SettingsValue(r: SettingsValidationResponse): (v: Value)
    ensures IsJson(v) && v.Obj?
    ensures Lookup(v.fields, "valid") == Some(Bool(r.valid))
    ensures Lookup(v.fields, "message") == OptStr(r.message)
  {
    var members := [("valid", Some(Bool(r.valid))), ("message", OptStr(r.message))];
    ObjectOfJson(members);
    ObjectOfLookup(members, "valid");
    ObjectOfLookup(members, "message");
    ObjectOf(members)
  }

  /** `writeOutput(response)` for a validation response: one write, whose
      bytes read back as the response object, when the response is
      serialisable; otherwise `JSON.stringify` throws and nothing is written. */
  function WriteResponse(r: ValidationResponse): (o: Outcome<()>)
    ensures Invocations(o.effects) == 0
    ensures o.result.Success? <==> Serializable(r)
    ensures Serializable(r) ==>
      |o.effects| == 1 && Writes(o.effects) == 1 && o.effects[0].WriteStdout? && Deserialize(o.effects[0].bytes) == Success(ValidationValue(r))
    ensures !Serializable(r) ==> o.effects == [] && o.result.error.name == "TypeError"
  {
    assert Serializable(r) ==> Deserialize(Serialize(ValidationValue(r)).value) == Success(ValidationValue(r)) by {
      if Serializable(r) {
        DeserializeSerialize(ValidationValue(r));
      }
    }
    WriteOutput(ValidationValue(r))
  }

  /** `writeOutput(response)` for a settings validation response. */
  function WriteSettingsResponse(r: SettingsValidationResponse): (o: Outcome<()>)
    ensures o.result.Success? && Writes(o.effects) == 1 && Invocations(o.effects) == 0
    ensures |o.effects| == 1 && o.effects[0].WriteStdout? && Deserialize(o.effects[0].bytes) == Success(SettingsValue(r))
  {
    DeserializeSerialize(SettingsValue(r));
    WriteOutput(SettingsValue(r))
  }

  /** The read of standard input `readValidationRequest()` performs before
      decoding: every byte up to the first empty read. */
  function RequestRead(stdin: Stdin): Effect {
    ReadStdin(ReadAll(stdin))
  }

  /** `readValidationRequest()`: the whole of standard input, decoded and
      parsed; the result is taken as is. */
  function ReadValidationRequest(stdin: Stdin): (r: Result<Value, JsError>)
    ensures r.Success? ==> IsJson(r.value)
  {
    Parse(Decode(ReadAll(stdin)))
  }

  /** A request the host wrote as JSON text is read back, in any chunking. */
  lemma ReadWrittenRequest(request: Value, stdin: Stdin)
    requires IsJson(request)
    requires ReadAll(stdin) == Serialize(request).value
    ensures ReadValidationRequest(stdin) == Success(request)
  {
    DeserializeSerialize(request);
  }
}
