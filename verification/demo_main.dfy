/** The entry point of the older demo policy (js/demo_policy/main.ts): the
    action dispatch, the scenario switch over the raw `settings` of the
    request, and its own versions of the digest and DNS scenarios, which
    catch the errors the newer handlers let through. */
module DemoMain {
  import opened Wrappers
  import opened JsValues
  import opened Effects
  import opened Protocol
  import opened HostCalls
  import opened Validation
  import opened ManifestDigest
  import opened Network
  import opened Privileged
  import opened Scenarios

  // ---------------------------------------------------------------- handlers

  /** `handleOciManifestDigestSuccess`: a failed lookup leaves `digest` at
      `null`, so it is rejected instead of thrown. */
  function DigestSuccessOlder(host: Host): (o: Outcome<ValidationResponse>)
    ensures var call := GetOciManifestDigest(host, Str(Busybox));
      && o.effects == call.effects && o.result.Success?
      && (call.result.Success? ==> o.result.value == DigestVerdict(call.result.value))
      && (call.result.Failure? ==>
            !Accepts(o.result.value) && o.result.value.message == Text("Failed to retrieve OCI manifest digest")
            && o.result.value.auditAnnotations == Some([("digest", Text(""))]))
  {
    var call := GetOciManifestDigest(host, Str(Busybox));
    var digest := match call.result
                  case Success(d) => d
                  case Failure(_) => Some(Null);
    Outcome(Success(DigestVerdict(digest)), call.effects)
  }

  /** Whenever the newer digest success scenario returns, the older one
      returns the same response; when the lookup throws, only the older
      one returns. */
  lemma DigestSuccessVersions(host: Host)
    ensures DigestSuccess(host).result.Success? ==> DigestSuccessOlder(host) == DigestSuccess(host)
    ensures DigestSuccess(host).result.Failure? ==> DigestSuccessOlder(host).result.Success?
  {
  }

  /** `handleOciManifestDigestFailure`: both a thrown error and a returned
      digest are rejected. */
  function DigestFailureOlder(host: Host): (o: Outcome<ValidationResponse>)
    ensures var call := GetOciManifestDigest(host, Str("registry.testing.lan/nonexistent-image:1.0.0"));
      && o.effects == call.effects && o.result.Success?
      && o.result.value.accepted == Some(Bool(false))
      && (call.result.Failure? ==>
            o.result.value.message == Text("OCI manifest digest lookup failed: " + Describe(call.result.error)))
      && (call.result.Success? ==>
            o.result.value.auditAnnotations == Some([("digest", call.result.value)]))
  {
    var call := GetOciManifestDigest(host, Str("registry.testing.lan/nonexistent-image:1.0.0"));
    match call.result
    case Failure(e) =>
      Outcome(Success(Annotated(Some(Bool(false)), Text("OCI manifest digest lookup failed: " + Describe(e)),
                                [("digest", Text(""))])), call.effects)
    case Success(digest) =>
      Outcome(Success(Annotated(Some(Bool(false)), Text("Unexpectedly retrieved OCI manifest digest"),
                                [("digest", digest)])), call.effects)
  }

  /** `Network.dnsLookup(hostname).ips || []` inside the `try`, with `[]`
      when anything in it throws. */
  function IpsOrEmpty(call: Result<Value, JsError>): (ips: Value)
    ensures call.Failure? || call.value == Null ==> ips == Arr([])
    ensures call.Success? && call.value != Null ==> ips == Or(Get(Some(call.value), "ips").value, Arr([]))
  {
    match call
    case Failure(_) => Arr([])
    case Success(answer) =>
      match Get(Some(answer), "ips")
      case Failure(_) => Arr([])
      case Success(ips) => Or(ips, Arr([]))
  }

  /** `handleDnsLookupSuccess`: a failed lookup counts as no addresses; the
      `join` outside the `try` still throws when `ips` is truthy but not an
      array. */
  function DnsSuccessOlder(host: Host): (o: Outcome<ValidationResponse>)
    ensures var call := DnsLookup(host, Str(ResolvableHost));
      && o.effects == call.effects
      && o.result == DnsVerdict(Some(IpsOrEmpty(call.result)))
      && (call.result.Failure? ==>
            o.result.Success? && !Accepts(o.result.value) && o.result.value.auditAnnotations == Some([("ips", Text(""))]))
  {
    var call := DnsLookup(host, Str(ResolvableHost));
    Outcome(DnsVerdict(Some(IpsOrEmpty(call.result))), call.effects)
  }

  /** Whenever the newer DNS success scenario returns, the older one
      returns the same response. */
  lemma DnsSuccessVersions(host: Host)
    ensures DnsSuccess(host).result.Success? ==> DnsSuccessOlder(host) == DnsSuccess(host)
  {
  }

  /** The `catch` of the older DNS failure scenario. */
  function DnsLookupFailed(e: JsError): (r: ValidationResponse)
    ensures r.accepted == Some(Bool(false)) && r.message == Text("DNS lookup failed: " + Describe(e))
  {
    Annotated(Some(Bool(false)), Text("DNS lookup failed: " + Describe(e)), [("ips", Text(""))])
  }

  /** The body of the `try` of the older DNS failure scenario, once the
      lookup has returned. */
  function UnexpectedAddresses(answer: Value): (r: Result<ValidationResponse, JsError>)
    ensures r.Success? ==> r.value.accepted == Some(Bool(false))
    ensures answer == Null ==> r.Failure?
  {
    var found :- Get(Some(answer), "ips");
    var ips := Or(found, Arr([]));
    if LengthPositive(Some(ips)) then
      var text :- Join(Some(ips), ", ");
      Success(Annotated(Some(Bool(false)), Text("Unexpectedly retrieved DNS lookup IPs"), [("ips", Text(text))]))
    else
      Success(Annotated(Some(Bool(false)), Text("DNS lookup returned no results"), [("ips", Text(""))]))
  }

  /** `handleDnsLookupFailure`: everything is inside the `try`, so it
      returns whatever happens, and it never accepts. */
  function DnsFailureOlder(host: Host): (o: Outcome<ValidationResponse>)
    ensures var call := DnsLookup(host, Str(UnresolvableHost));
      && o.effects == call.effects && o.result.Success?
      && o.result.value.accepted == Some(Bool(false))
      && (call.result.Failure? ==> o.result.value == DnsLookupFailed(call.result.error))
  {
    DnsFailureCaught(DnsLookup(host, Str(UnresolvableHost)))
  }

  /** The `try`/`catch` of `handleDnsLookupFailure` around the outcome of
      the lookup: whatever happens, the response rejects. */
  function DnsFailureCaught(call: Outcome<Value>): (o: Outcome<ValidationResponse>)
    ensures o.effects == call.effects && o.result.Success?
    ensures o.result.value.accepted == Some(Bool(false))
    ensures call.result.Failure? ==> o.result.value == DnsLookupFailed(call.result.error)
  {
    Guarded(call, UnexpectedAddresses, DnsLookupFailed)
  }

  // ---------------------------------------------------------------- dispatch

  /** The scenarios the older switch knows, in the order of its cases. */
  const SwitchedScenarios: seq<string> :=
    ["oci-manifest-digest-success", "oci-manifest-digest-failure", "dns-lookup-success", "dns-lookup-failure"]

  /** The scenario handlers of the switch, or the privileged rule for any
      other value of `testScenario`. */
  function Dispatch(host: Host, request: Value, settings: Value, scenario: Option<Value>): (o: Outcome<ValidationResponse>)
  {
    if scenario == Some(Str(SwitchedScenarios[0])) then DigestSuccessOlder(host)
    else if scenario == Some(Str(SwitchedScenarios[1])) then DigestFailureOlder(host)
    else if scenario == Some(Str(SwitchedScenarios[2])) then DnsSuccessOlder(host)
    else if scenario == Some(Str(SwitchedScenarios[3])) then DnsFailureOlder(host)
    else Outcome(DecideOlder(request, settings), [])
  }

  /** The response the older `validate()` writes for a parsed request:
      reading `settings.testScenario` throws when the request has no
      settings. */
  function Respond(host: Host, request: Value): (o: Outcome<ValidationResponse>)
    ensures Writes(o.effects) == 0
    ensures Get(Some(request), "settings").Failure? ==> o == Outcome(Failure(Get(Some(request), "settings").error), [])
    ensures Get(Some(request), "settings").Success? && Get(Get(Some(request), "settings").value, "testScenario").Failure?
            ==> o.result.Failure? && o.effects == []
  {
    match Get(Some(request), "settings")
    case Failure(e) => Outcome(Failure(e), [])
    case Success(settings) =>
      match Get(settings, "testScenario")
      case Failure(e) => Outcome(Failure(e), [])
      case Success(scenario) => Dispatch(host, request, settings.value, scenario)
  }

  /** The request's raw `settings` and its `testScenario`, when both can be read. */
  predicate HasScenario(request: Value, settings: Value, scenario: Option<Value>) {
    && Get(Some(request), "settings") == Success(Some(settings))
    && settings != Null
    && Get(Some(settings), "testScenario") == Success(scenario)
  }

  /** A scenario the switch does not list (absent, of another type, or one
      only the newer policy knows) falls through to the privileged rule,
      with no host call. */
  lemma UnlistedScenarioIsPrivilegedRule(host: Host, request: Value, settings: Value, scenario: Option<Value>)
    requires HasScenario(request, settings, scenario)
    requires forall k :: 0 <= k < |SwitchedScenarios| ==> scenario != Some(Str(SwitchedScenarios[k]))
    ensures Respond(host, request) == Outcome(DecideOlder(request, settings), [])
  {
    assert scenario != Some(Str(SwitchedScenarios[0]));
    assert scenario != Some(Str(SwitchedScenarios[1]));
    assert scenario != Some(Str(SwitchedScenarios[2]));
    assert scenario != Some(Str(SwitchedScenarios[3]));
  }

  /** The failure scenarios of the switch return, and never accept. */
  lemma FailureScenariosNeverAccept(host: Host, request: Value, settings: Value, scenario: Option<Value>)
    requires HasScenario(request, settings, scenario)
    requires scenario == Some(Str("oci-manifest-digest-failure")) || scenario == Some(Str("dns-lookup-failure"))
    ensures Respond(host, request).result.Success?
    ensures !Accepts(Respond(host, request).result.value)
  {
    assert SwitchedScenarios[0] != "oci-manifest-digest-failure" by {
      assert SwitchedScenarios[0][20] != "oci-manifest-digest-failure"[20];
    }
    assert SwitchedScenarios[0] != "dns-lookup-failure" by {
      assert SwitchedScenarios[0][0] != "dns-lookup-failure"[0];
    }
    assert SwitchedScenarios[1] != "dns-lookup-failure" by {
      assert SwitchedScenarios[1][0] != "dns-lookup-failure"[0];
    }
    assert SwitchedScenarios[2] != "dns-lookup-failure" by {
      assert SwitchedScenarios[2][11] != "dns-lookup-failure"[11];
    }
  }

  /** `validate()`: read the request, respond, and write the response.
      Standard input is read first, even when the request then fails to
      parse; an error before the write leaves standard output untouched. */
  function Validate(host: Host, stdin: Stdin): (o: Outcome<()>)
    ensures |o.effects| > 0 && o.effects[0] == RequestRead(stdin)
    ensures o.result.Success? ==> Writes(o.effects) == 1 && o.effects[|o.effects| - 1].WriteStdout?
    ensures o.result.Failure? ==> Writes(o.effects) == 0
    ensures ReadValidationRequest(stdin).Failure? ==>
      o == Outcome(Failure(ReadValidationRequest(stdin).error), [RequestRead(stdin)])
  {
    var read := [RequestRead(stdin)];
    match ReadValidationRequest(stdin)
    case Failure(e) => Outcome(Failure(e), read)
    case Success(request) =>
      var response := Respond(host, request);
      CountsAppend(read, response.effects);
      match response.result
      case Failure(e) => Outcome(Failure(e), read + response.effects)
      case Success(r) =>
        var written := WriteResponse(r);
        CountsAppend(read + response.effects, written.effects);
        Outcome(written.result, read + response.effects + written.effects)
  }

  /** `new ValidationResponse(false, 'wrong invocation')`. */
  function WrongInvocation(): (r: ValidationResponse)
    ensures r.accepted == Some(Bool(false)) && r.message == Text("wrong invocation")
    ensures r.auditAnnotations.None? && Serializable(r)
  {
    RejectRequest("wrong invocation", None)
  }

  /** The `try` block of the script. */
  function Dispatched(args: seq<string>, host: Host, stdin: Stdin): (o: Outcome<()>)
    ensures o.result.Success? ==> Writes(o.effects) == 1 && o.effects[|o.effects| - 1].WriteStdout?
    ensures o.result.Failure? ==> Writes(o.effects) == 0
    ensures |args| != 2 ==> o.result.Failure? && o.effects == []
  {
    match PolicyAction(args)
    case Failure(e) => Outcome(Failure(e), [])
    case Success(action) =>
      if action == "validate" then Validate(host, stdin)
      else if action == "validate-settings" then WriteSettingsResponse(SettingsValidationResponse(true, None))
      else WriteResponse(WrongInvocation())
  }

  /** The whole script: the action dispatch inside a `try`, whose `catch`
      writes the wrong-invocation response.  It never throws, and standard
      output receives exactly one response, as its last effect. */
  function Run(args: seq<string>, host: Host, stdin: Stdin): (o: Outcome<()>)
    ensures o.result.Success?
    ensures Writes(o.effects) == 1 && o.effects[|o.effects| - 1].WriteStdout?
    ensures Invocations(o.effects) == Invocations(Dispatched(args, host, stdin).effects)
    ensures Dispatched(args, host, stdin).result.Failure? ==> Written(o) == Success(ValidationValue(WrongInvocation()))
  {
    Caught(Dispatched(args, host, stdin))
  }

  /** The `catch` of the script: an attempt that threw before writing is
      followed by the write of the wrong-invocation response. */
  function Caught(attempt: Outcome<()>): (o: Outcome<()>)
    requires attempt.result.Success? ==> Writes(attempt.effects) == 1 && attempt.effects[|attempt.effects| - 1].WriteStdout?
    requires attempt.result.Failure? ==> Writes(attempt.effects) == 0
    ensures o.result.Success?
    ensures Writes(o.effects) == 1 && o.effects[|o.effects| - 1].WriteStdout?
    ensures Invocations(o.effects) == Invocations(attempt.effects)
    ensures attempt.result.Success? ==> o == attempt
    ensures attempt.result.Failure? ==> Written(o) == Success(ValidationValue(WrongInvocation()))
  {
    match attempt.result
    case Success(_) => attempt
    case Failure(_) => WrittenAfter(attempt.effects, WrongInvocation())
  }

  /** A serializable response `r` written after the effects `before`. */
  function WrittenAfter(before: seq<Effect>, r: ValidationResponse): (o: Outcome<()>)
    requires Serializable(r)
    ensures o.result.Success?
    ensures Writes(o.effects) == Writes(before) + 1 && o.effects[|o.effects| - 1].WriteStdout?
    ensures Invocations(o.effects) == Invocations(before)
    ensures Written(o) == Success(ValidationValue(r))
  {
    var written := WriteResponse(r);
    var write := written.effects[0];
    assert written.effects == [write];
    CountsAppend(before, [write]);
    Outcome(Success(()), before + [write])
  }

  /** The response object the single write of `Run` carries. */
  function Written(o: Outcome<()>): Result<Value, JsError>
    requires |o.effects| > 0 && o.effects[|o.effects| - 1].WriteStdout?
  {
    Deserialize(o.effects[|o.effects| - 1].bytes)
  }

  /** What the host reads back after the script ran with `args`. */
  function Output(args: seq<string>, host: Host, stdin: Stdin): Result<Value, JsError> {
    Written(Run(args, host, stdin))
  }

  /** The response written for a decision: the decision itself, or the
      wrong-invocation response when deciding threw. */
  function DecisionValue(decision: Result<ValidationResponse, JsError>): Value {
    ValidationValue(if decision.Success? then decision.value else WrongInvocation())
  }

  /** A `validate-settings` action writes `{"valid":true}` and calls no
      host capability. */
  lemma ValidateSettingsAction(program: string, host: Host, stdin: Stdin)
    ensures var o := Run([program, "validate-settings"], host, stdin);
      && Invocations(o.effects) == 0
      && Written(o) == Success(SettingsValue(SettingsValidationResponse(true, None)))
  {
  }

  /** An unknown action, or a wrong number of arguments, writes the
      wrong-invocation response and calls no host capability. */
  lemma WrongInvocationWritten(args: seq<string>, host: Host, stdin: Stdin)
    requires |args| != 2 || (args[1] != "validate" && args[1] != "validate-settings")
    ensures var o := Run(args, host, stdin);
      && Invocations(o.effects) == 0
      && Written(o) == Success(ValidationValue(WrongInvocation()))
  {
    var attempt := Dispatched(args, host, stdin);
    if attempt.result.Success? {
      assert attempt == WriteResponse(WrongInvocation());
    }
  }

  /** A `validate` action whose request cannot be parsed writes the
      wrong-invocation response after reading standard input, with no host
      call. */
  lemma UnreadableRequest(program: string, host: Host, stdin: Stdin)
    requires ReadValidationRequest(stdin).Failure?
    ensures var o := Run([program, "validate"], host, stdin);
      && Invocations(o.effects) == 0
      && o.effects[0] == RequestRead(stdin)
      && Written(o) == Success(ValidationValue(WrongInvocation()))
  {
    var read := [RequestRead(stdin)];
    assert Dispatched([program, "validate"], host, stdin) == Outcome(Failure(ReadValidationRequest(stdin).error), read);
    assert Run([program, "validate"], host, stdin) == WrittenAfter(read, WrongInvocation());
  }

  /** When responding calls no host capability, `validate()` is the read of
      standard input followed by the write of the response, or the read
      alone and an error. */
  lemma ValidateWithoutCalls(host: Host, stdin: Stdin, request: Value)
    requires ReadValidationRequest(stdin) == Success(request)
    requires Respond(host, request).effects == []
    ensures Respond(host, request).result.Success? ==>
      var written := WriteResponse(Respond(host, request).result.value);
      Validate(host, stdin) == Outcome(written.result, [RequestRead(stdin)] + written.effects)
    ensures Respond(host, request).result.Failure? ==>
      Validate(host, stdin) == Outcome(Failure(Respond(host, request).result.error), [RequestRead(stdin)])
  {
    var read := [RequestRead(stdin)];
    assert read + [] == read;
  }

  /** A `validate` action on a request in an unlisted scenario writes what
      the privileged rule decides, or the wrong-invocation response when it
      throws; no host capability is called either way. */
  lemma PrivilegedRuleWritten(program: string, host: Host, stdin: Stdin, request: Value, settings: Value, scenario: Option<Value>)
    requires ReadValidationRequest(stdin) == Success(request)
    requires HasScenario(request, settings, scenario)
    requires forall k :: 0 <= k < |SwitchedScenarios| ==> scenario != Some(Str(SwitchedScenarios[k]))
    ensures Invocations(Run([program, "validate"], host, stdin).effects) == 0
    ensures Output([program, "validate"], host, stdin) == Success(DecisionValue(DecideOlder(request, settings)))
  {
    UnlistedScenarioIsPrivilegedRule(host, request, settings, scenario);
    VerdictSerializable(DecideOlder(request, settings));
    DecisionWritten(program, host, stdin, request, DecideOlder(request, settings));
  }

  /** Both answers of the privileged rule can be written. */
  lemma VerdictSerializable(decision: Result<ValidationResponse, JsError>)
    requires decision.Success? ==> IsVerdict(decision.value)
    ensures decision.Success? ==> Serializable(decision.value)
  {
  }

  /** A `validate` action whose response is decided without a host call
      writes that decision, or the wrong-invocation response when deciding
      throws. */
  lemma DecisionWritten(program: string, host: Host, stdin: Stdin, request: Value, decision: Result<ValidationResponse, JsError>)
    requires ReadValidationRequest(stdin) == Success(request)
    requires Respond(host, request) == Outcome(decision, [])
    requires decision.Success? ==> Serializable(decision.value)
    ensures Invocations(Run([program, "validate"], host, stdin).effects) == 0
    ensures Output([program, "validate"], host, stdin) == Success(DecisionValue(decision))
  {
    ValidateWithoutCalls(host, stdin, request);
    var attempt := Dispatched([program, "validate"], host, stdin);
    assert attempt == Validate(host, stdin);
    var read := [RequestRead(stdin)];
    if decision.Success? {
      var written := WriteResponse(decision.value);
      assert attempt == Outcome(written.result, read + written.effects);
      CountsAppend(read, written.effects);
    } else {
      assert Run([program, "validate"], host, stdin) == WrittenAfter(read, WrongInvocation());
    }
  }
}
