/** The demo policy's privileged-container rule, in its two orderings: the
    namespace-first one of demo_policy/test_scenarios.ts (identical in
    js/demo_policy/test_scenarios.ts) and the pod-first one of
    js/demo_policy/main.ts.  The validation request is the parsed JSON of
    standard input, read with JavaScript's property semantics. */
module Privileged {
  import opened Wrappers
  import opened JsValues
  import opened JsonText
  import opened JsonRoundTrip
  import opened Validation
  import opened Settings

  const PrivilegedMessage: string := "privileged containers are not allowed"

  /** `JSON.parse(JSON.stringify(v))`.  `JSON.stringify(undefined)` is
      `undefined`, which `JSON.parse` reads as the text `undefined`. */
  function CloneJson(v: Option<Value>): (r: Result<Value, JsError>)
    ensures v.None? ==> r.Failure?
    ensures v.Some? ==> (r.Success? <==> IsJson(v.value))
    ensures v.Some? && IsJson(v.value) ==> r.value == v.value
  {
    match v
    case None =>
      assert ParseValue("undefined").Failure?;
      Parse("undefined")
    case Some(x) =>
      var text :- Stringify(x);
      ParseStringify(x);
      Parse(text)
  }

  /** `validationRequest.request.namespace || ''`. */
  function Namespace(validationRequest: Value): (r: Result<Value, JsError>)
    ensures r.Success? ==> Truthy(Some(r.value)) || r.value == Str("")
    ensures var request := Get(Some(validationRequest), "request");
      request.Success? && request.value.Some? && request.value != Some(Null) ==>
        var ns := Get(request.value, "namespace").value;
        (Truthy(ns) ==> r == Success(ns.value)) && (!Truthy(ns) ==> r == Success(Str("")))
  {
    var request :- Get(Some(validationRequest), "request");
    var ns :- Get(request, "namespace");
    Success(Or(ns, Str("")))
  }

  /** `list?.includes(validationRequest.request.namespace || '')`: a null or
      undefined list answers `undefined` before the namespace is read. */
  function InIgnoredNamespace(list: Option<Value>, validationRequest: Value): (r: Result<bool, JsError>)
    ensures list.None? || list == Some(Null) ==> r == Success(false)
    ensures list.Some? && list.value.Arr? && Namespace(validationRequest).Success? ==>
      var ns := Namespace(validationRequest).value;
      r == Success(IsPrimitive(ns) && ns in list.value.items)
  {
    if list.None? || list == Some(Null) then Success(false)
    else
      var ns :- Namespace(validationRequest);
      Includes(list, ns)
  }

  /** The pod: a deep copy of `validationRequest.request.object`. */
  function PodObject(validationRequest: Value): (r: Result<Value, JsError>)
    ensures r.Success? ==> IsJson(r.value)
  {
    var request :- Get(Some(validationRequest), "request");
    var obj :- Get(request, "object");
    CloneJson(obj)
  }

  /** A container whose `securityContext.privileged` is truthy. */
  predicate IsPrivileged(container: Value) {
    container != Null && Truthy(OptGet(Get(Some(container), "securityContext").value, "privileged").value)
  }

  /** `container.securityContext?.privileged`, as a truth value; reading
      `securityContext` of a null container throws. */
  function ContainerPrivileged(container: Value): (r: Result<bool, JsError>)
    ensures r.Failure? <==> container == Null
    ensures r.Success? ==> r.value == IsPrivileged(container)
  {
    var context :- Get(Some(container), "securityContext");
    Success(Truthy(OptGet(context, "privileged").value))
  }

  /** `containers.some(c => c.securityContext?.privileged)`: tests the
      containers in order and stops at the first privileged one. */
  function SomePrivileged(containers: seq<Value>): (r: Result<bool, JsError>)
  {
    if containers == [] then Success(false)
    else
      var first :- ContainerPrivileged(containers[0]);
      if first then Success(true) else SomePrivileged(containers[1..])
  }

  /** Without null containers, `some` answers whether any container is privileged. */
  lemma {:induction false} SomePrivilegedExists(containers: seq<Value>)
    requires forall i :: 0 <= i < |containers| ==> containers[i] != Null
    ensures SomePrivileged(containers) == Success(exists i :: 0 <= i < |containers| && IsPrivileged(containers[i]))
  {
    if containers != [] {
      var rest := containers[1..];
      SomePrivilegedExists(rest);
      assert forall i :: 1 <= i < |containers| ==> containers[i] == rest[i - 1];
      if !IsPrivileged(containers[0]) {
        assert (exists i :: 0 <= i < |containers| && IsPrivileged(containers[i]))
           ==> (exists i :: 0 <= i < |rest| && IsPrivileged(rest[i]));
      }
    }
  }

  /** A null container throws unless a privileged one comes before it. */
  lemma {:induction false} SomePrivilegedNull(containers: seq<Value>, k: int)
    requires 0 <= k < |containers| && containers[k] == Null
    requires forall i :: 0 <= i < k ==> containers[i] != Null && !IsPrivileged(containers[i])
    ensures SomePrivileged(containers).Failure?
  {
    if k > 0 {
      SomePrivilegedNull(containers[1..], k - 1);
    }
  }

  /** The containers of a pod: `pod.spec?.containers`. */
  function Containers(pod: Value): Option<Value>
    requires pod != Null
  {
    OptGet(Get(Some(pod), "spec").value, "containers").value
  }

  /** `pod.spec?.containers?.some(...) || false`: a null pod throws; a pod
      with no spec or no containers is not privileged; containers that are
      not an array have no `some` method. */
  function PodPrivileged(pod: Value): (r: Result<bool, JsError>)
    ensures pod == Null ==> r.Failure?
    ensures pod != Null && (Containers(pod).None? || Containers(pod) == Some(Null)) ==> r == Success(false)
    ensures pod != Null && Containers(pod).Some? && Containers(pod).value.Arr? ==>
      r == SomePrivileged(Containers(pod).value.items)
    ensures pod != Null && Containers(pod).Some? && !(Containers(pod).value.Arr? || Containers(pod).value.Null?) ==>
      r.Failure? && r.error.name == "TypeError"
  {
    var spec :- Get(Some(pod), "spec");
    match OptGet(spec, "containers").value
    case None => Success(false)
    case Some(Null) => Success(false)
    case Some(Arr(items)) => SomePrivileged(items)
    case Some(_) => Failure(JsError("TypeError", "some is not a function"))
  }

  /** The two answers of the rule. */
  predicate IsVerdict(r: ValidationResponse) {
    r == AcceptRequest() || r == RejectRequest(PrivilegedMessage, None)
  }

  /** `handlePrivilegedContainerValidation` of demo_policy/test_scenarios.ts:
      an ignored namespace is accepted before the pod is looked at;
      otherwise a privileged container is rejected. */
  function Decide(validationRequest: Value, settings: PolicySettings): (r: Result<ValidationResponse, JsError>)
    ensures r.Success? ==> IsVerdict(r.value)
    ensures InIgnoredNamespace(Some(settings.ignoredNamespaces), validationRequest) == Success(true)
            ==> r == Success(AcceptRequest())
    ensures && InIgnoredNamespace(Some(settings.ignoredNamespaces), validationRequest) == Success(false)
            && PodObject(validationRequest).Success? && PodPrivileged(PodObject(validationRequest).value) == Success(false)
            ==> r == Success(AcceptRequest())
    ensures r == Success(RejectRequest(PrivilegedMessage, None)) <==>
      && InIgnoredNamespace(Some(settings.ignoredNamespaces), validationRequest) == Success(false)
      && PodObject(validationRequest).Success? && PodPrivileged(PodObject(validationRequest).value) == Success(true)
  {
    var ignored :- InIgnoredNamespace(Some(settings.ignoredNamespaces), validationRequest);
    if ignored then Success(AcceptRequest())
    else
      var pod :- PodObject(validationRequest);
      var privileged :- PodPrivileged(pod);
      Success(if privileged then RejectRequest(PrivilegedMessage, None) else AcceptRequest())
  }

  /** `handlePrivilegedContainerValidation` of js/demo_policy/main.ts, where
      `settings` is the request's raw `settings` value: the pod is looked at
      first, and the namespace only for a privileged pod. */
  function DecideOlder(validationRequest: Value, settings: Value): (r: Result<ValidationResponse, JsError>)
    ensures r.Success? ==> IsVerdict(r.value)
    ensures PodObject(validationRequest).Success? && PodPrivileged(PodObject(validationRequest).value) == Success(false)
            ==> r == Success(AcceptRequest())
    ensures && PodObject(validationRequest).Success? && PodPrivileged(PodObject(validationRequest).value) == Success(true)
            && settings != Null
            && InIgnoredNamespace(Get(Some(settings), "ignoredNamespaces").value, validationRequest) == Success(true)
            ==> r == Success(AcceptRequest())
    ensures r == Success(RejectRequest(PrivilegedMessage, None)) <==>
      && PodObject(validationRequest).Success? && PodPrivileged(PodObject(validationRequest).value) == Success(true)
      && settings != Null
      && InIgnoredNamespace(Get(Some(settings), "ignoredNamespaces").value, validationRequest) == Success(false)
  {
    var pod :- PodObject(validationRequest);
    var privileged :- PodPrivileged(pod);
    if !privileged then Success(AcceptRequest())
    else
      var list :- Get(Some(settings), "ignoredNamespaces");
      var ignored :- InIgnoredNamespace(list, validationRequest);
      Success(if ignored then AcceptRequest() else RejectRequest(PrivilegedMessage, None))
  }

  /** Given the same list of ignored namespaces, the two orderings decide
      alike whenever both return. */
  lemma OrderingsAgree(validationRequest: Value, settings: Value, policySettings: PolicySettings)
    requires settings != Null
    requires Get(Some(settings), "ignoredNamespaces") == Success(Some(policySettings.ignoredNamespaces))
    requires Decide(validationRequest, policySettings).Success?
    requires DecideOlder(validationRequest, settings).Success?
    ensures Decide(validationRequest, policySettings) == DecideOlder(validationRequest, settings)
  {
    var rejected := Success(RejectRequest(PrivilegedMessage, None));
    assert Decide(validationRequest, policySettings) == rejected <==> DecideOlder(validationRequest, settings) == rejected;
    assert AcceptRequest() != RejectRequest(PrivilegedMessage, None);
  }

  /** A request whose namespace is `ns` and which carries no object. */
  function RequestWithoutObject(ns: string): (v: Value)
    ensures v.Obj? && Lookup(v.fields, "request").Some?
  {
    Obj([Field("request", Obj([Field("namespace", Str(ns))]))])
  }

  /** The orderings differ when the pod cannot be read: in an ignored
      namespace the namespace-first rule accepts, while the pod-first rule
      throws on `JSON.parse(undefined)`. */
  lemma OrderingsDifferOnMissingPod()
    ensures var settings := Obj([Field("ignoredNamespaces", Arr([Str("ns")]))]);
      && Decide(RequestWithoutObject("ns"), PolicySettings(Arr([Str("ns")]), None)) == Success(AcceptRequest())
      && DecideOlder(RequestWithoutObject("ns"), settings).Failure?
  {
    var request := RequestWithoutObject("ns");
    assert Namespace(request) == Success(Str("ns"));
    assert Get(Some(request), "request") == Success(Some(Obj([Field("namespace", Str("ns"))])));
    assert PodObject(request).Failure?;
  }

  /** No pod inspection happens in an ignored namespace, so a privileged
      pod there is accepted by the namespace-first rule. */
  lemma IgnoredNamespaceAccepted(validationRequest: Value, settings: PolicySettings)
    requires settings.ignoredNamespaces.Arr?
    requires Namespace(validationRequest).Success?
    requires Namespace(validationRequest).value in settings.ignoredNamespaces.items
    requires IsPrimitive(Namespace(validationRequest).value)
    ensures Decide(validationRequest, settings) == Success(AcceptRequest())
  {
  }
}
