/** The test scenarios of the demo policy (demo_policy/test_scenarios.ts;
    its first handlers are also, word for word, those of
    js/demo_policy/test_scenarios.ts).  Each handler calls one host
    capability with fixed arguments and maps the answer to a validation
    response; nothing is caught, except in the certificate scenarios, so an
    error of the capability or of reading its answer reaches the caller. */
module Scenarios {
  import opened Wrappers
  import opened JsValues
  import opened JsonText
  import opened Effects
  import opened Protocol
  import opened HostCalls
  import opened Validation
  import ManifestTypes
  import opened Manifest
  import opened ManifestDigest
  import opened ManifestConfig
  import opened Network
  import opened Kubernetes
  import opened Verifier
  import opened CryptoTypes
  import opened Crypto

  /** The image of the scenarios expected to succeed. */
  const Busybox: string := "docker.io/library/busybox:1.36"

  /** `new ValidationResponse(accepted, message, undefined, undefined, annotations)`. */
  function Annotated(accepted: Option<Value>, message: Option<Value>, annotations: Members): (r: ValidationResponse)
    ensures r.accepted == accepted && r.message == message && r.auditAnnotations == Some(annotations)
    ensures r.code.None? && r.mutatedObject.None? && r.warnings.None?
  {
    ValidationResponse(accepted, message, None, None, Some(annotations), None)
  }

  /** A string argument or member. */
  function Text(s: string): Option<Value> {
    Some(Str(s))
  }

  /** A response that accepts: `accepted` is the boolean `true`. */
  predicate Accepts(r: ValidationResponse) {
    r.accepted == Some(Bool(true))
  }

  /** An object literal of JSON values, such as a request the handlers build. */
  function Literal(members: Members): (v: Value)
    requires MembersJson(members)
    ensures IsJson(v) && v.Obj?
  {
    ObjectOfJson(members);
    ObjectOf(members)
  }

  // ---------------------------------------------------------------- digest

  /** The response of the digest success scenario: accepted exactly when
      the digest is truthy, with the digest (or `''`) as annotation. */
  function DigestVerdict(digest: Option<Value>): (r: ValidationResponse)
    ensures Accepts(r) <==> Truthy(digest)
    ensures r.message.None? <==> Accepts(r)
    ensures r.auditAnnotations == Some([("digest", Some(Or(digest, Str(""))))])
  {
    Annotated(Some(Bool(Truthy(digest))),
              if Truthy(digest) then None else Text("Failed to retrieve OCI manifest digest"),
              [("digest", Some(Or(digest, Str(""))))])
  }

  /** `handleOciManifestDigestSuccess`. */
  function DigestSuccess(host: Host): (o: Outcome<ValidationResponse>)
    ensures var call := GetOciManifestDigest(host, Str(Busybox));
      && o.effects == call.effects
      && (call.result.Failure? ==> o.result == Failure(call.result.error))
      && (call.result.Success? ==> o.result == Success(DigestVerdict(call.result.value)))
  {
    Then(GetOciManifestDigest(host, Str(Busybox)), (digest: Option<Value>) => Success(DigestVerdict(digest)))
  }

  /** The host answering `{"digest": d}`: the scenario accepts exactly when
      `d` is not empty, and annotates `d` itself. */
  lemma DigestSuccessAnswer(host: Host, digest: string)
    requires HostSucceeds(host, ManifestDigestAt, Str(Busybox))
    requires ReadAll(host(ManifestDigestAt, Serialize(Str(Busybox)).value).reply) == Serialize(DigestResponse(digest)).value
    ensures var o := DigestSuccess(host);
      && o.result.Success? && (Accepts(o.result.value) <==> digest != "")
      && o.result.value.auditAnnotations == Some([("digest", Text(digest))])
  {
    DigestAnswer(host, Str(Busybox), digest);
    DigestSuccessOfDigest(host, digest);
  }

  /** The lookup returning the string `d`: accepted exactly when `d` is not
      empty, with `d` itself as annotation. */
  lemma DigestSuccessOfDigest(host: Host, digest: string)
    requires GetOciManifestDigest(host, Str(Busybox)).result == Success(Some(Str(digest)))
    ensures var o := DigestSuccess(host);
      && o.result.Success? && (Accepts(o.result.value) <==> digest != "")
      && o.result.value.auditAnnotations == Some([("digest", Text(digest))])
  {
    OrEmptyString(digest);
  }

  /** `handleOciManifestDigestFailure`: accepted exactly when the lookup
      answers a falsy digest. */
  function DigestFailure(host: Host): (o: Outcome<ValidationResponse>)
    ensures var call := GetOciManifestDigest(host, Str("registry.testing.lan/nonexistent-image:1.0.0"));
      && o.effects == call.effects
      && (call.result.Failure? ==> o.result == Failure(call.result.error))
      && (call.result.Success? ==> o.result.Success? && (Accepts(o.result.value) <==> !Truthy(call.result.value))
                                   && o.result.value.message == Text("Unexpectedly succeeded in manifest digest lookup"))
  {
    Then(GetOciManifestDigest(host, Str("registry.testing.lan/nonexistent-image:1.0.0")),
         (digest: Option<Value>) =>
           Success(Annotated(Some(Bool(!Truthy(digest))), Text("Unexpectedly succeeded in manifest digest lookup"),
                             [("digest", Some(Or(digest, Str(""))))])))
  }

  // ---------------------------------------------------------------- DNS

  /** The host name the DNS success scenario looks up. */
  const ResolvableHost: string := "google.com"

  /** The host name the DNS failure scenario looks up. */
  const UnresolvableHost: string := "invalid.nonexistent.tld"

  /** `ips.join(', ')`, and the `ips` annotation. */
  function IpsText(ips: Option<Value>): (r: Result<string, JsError>)
    ensures r.Success? <==> ips.Some? && ips.value.Arr?
  {
    Join(ips, ", ")
  }

  /** `ips.length > 0`, read once `ips` is known to be truthy; a missing
      length compares as false. */
  predicate LengthPositive(ips: Option<Value>) {
    var length := OptGet(ips, "length").value;
    length.Some? && IsPositive(length.value)
  }

  /** The response of the DNS success scenario for the answer's `ips`:
      `ips.join` throws unless `ips` is an array, and the scenario accepts
      exactly when that array is not empty. */
  function DnsVerdict(ips: Option<Value>): (r: Result<ValidationResponse, JsError>)
    ensures r.Success? <==> ips.Some? && ips.value.Arr?
    ensures r.Success? ==> (Accepts(r.value) <==> |ips.value.items| > 0)
                           && (r.value.message.None? <==> Accepts(r.value))
                           && r.value.auditAnnotations == Some([("ips", Text(JoinWith(ips.value.items, ", ")))])
  {
    var nonEmpty := Truthy(ips) && LengthPositive(ips);
    var text :- IpsText(ips);
    Success(Annotated(Some(Bool(nonEmpty)),
                      if nonEmpty then None else Text("Failed to retrieve DNS lookup IPs"),
                      [("ips", Some(Or(Some(Str(text)), Str(""))))]))
  }

  /** `handleDnsLookupSuccess`. */
  function DnsSuccess(host: Host): (o: Outcome<ValidationResponse>)
    ensures var call := DnsLookup(host, Str(ResolvableHost));
      && o.effects == call.effects
      && (call.result.Failure? ==> o.result == Failure(call.result.error))
      && (call.result.Success? && call.result.value != Null ==>
            o.result == DnsVerdict(Get(Some(call.result.value), "ips").value))
  {
    Then(DnsLookup(host, Str(ResolvableHost)),
         (answer: Value) =>
           var ips :- Get(Some(answer), "ips");
           DnsVerdict(ips))
  }

  /** `handleDnsLookupFailure`: never accepts; it returns only when the
      answer's `ips` is an array. */
  function DnsFailure(host: Host): (o: Outcome<ValidationResponse>)
    ensures var call := DnsLookup(host, Str(UnresolvableHost));
      && o.effects == call.effects
      && (call.result.Failure? ==> o.result == Failure(call.result.error))
      && (o.result.Success? ==> o.result.value.accepted == Some(Bool(false)))
      && (call.result.Success? && call.result.value != Null ==>
            (o.result.Success? <==> Get(Some(call.result.value), "ips").value.Some?
                                    && Get(Some(call.result.value), "ips").value.value.Arr?))
  {
    Then(DnsLookup(host, Str(UnresolvableHost)), UnexpectedIps)
  }

  /** The response of the DNS failure scenario to an answer: its `ips`
      are reported, and never accepted, when they form an array. */
  function UnexpectedIps(answer: Value): (r: Result<ValidationResponse, JsError>)
    ensures r.Success? ==> r.value.accepted == Some(Bool(false))
    ensures answer == Null ==> r.Failure?
    ensures answer != Null ==>
      var ips := Get(Some(answer), "ips").value;
      r.Success? <==> ips.Some? && ips.value.Arr?
  {
    var ips :- Get(Some(answer), "ips");
    var text :- IpsText(ips);
    Success(Annotated(Some(Bool(false)), Text("Unexpectedly retrieved DNS lookup IPs"), [("ips", Text(text))]))
  }

  // ---------------------------------------------------------------- manifest

  /** `JSON.stringify(manifest)` of a manifest response object. */
  function ManifestText(m: ManifestTypes.ManifestResponse): Result<string, JsError> {
    Stringify(ManifestTypes.ResponseValue(m))
  }

  /** `handleOciManifestSuccess`: a returned manifest is an object, hence
      truthy, so every answer `getOCIManifest` returns is accepted. */
  function ManifestSuccess(host: Host): (o: Outcome<ValidationResponse>)
    ensures var call := GetOciManifest(host, Str(Busybox));
      && o.effects == call.effects
      && (call.result.Failure? ==> o.result == Failure(call.result.error))
      && (call.result.Success? ==>
            o.result.Success? && Accepts(o.result.value) && o.result.value.message.None?
            && o.result.value.auditAnnotations == Some([("manifest", Text(ManifestText(call.result.value).value))]))
  {
    Then(GetOciManifest(host, Str(Busybox)),
         (m: ManifestTypes.ManifestResponse) =>
           var text :- ManifestText(m);
           Success(Annotated(Some(Bool(true)), None, [("manifest", Text(text))])))
  }

  /** `handleOciManifestFailure`: a returned manifest is never accepted. */
  function ManifestFailure(host: Host): (o: Outcome<ValidationResponse>)
    ensures var call := GetOciManifest(host, Str("example.test/nonexistent-image:1.0.0"));
      && o.effects == call.effects
      && (call.result.Failure? ==> o.result == Failure(call.result.error))
      && (call.result.Success? ==> o.result.Success? && o.result.value.accepted == Some(Bool(false)))
  {
    Then(GetOciManifest(host, Str("example.test/nonexistent-image:1.0.0")),
         (m: ManifestTypes.ManifestResponse) =>
           Success(Annotated(Some(Bool(false)), Text("Unexpectedly succeeded in manifest lookup"), [("manifest", Text(""))])))
  }

  // ---------------------------------------------------------------- manifest and config

  /** `x ? JSON.stringify(x) : ''`. */
  function TextIfTruthy(x: Option<Value>): (r: Result<Value, JsError>)
    ensures !Truthy(x) ==> r == Success(Str(""))
    ensures Truthy(x) && IsJson(x.value) ==> r == Success(Str(Stringify(x.value).value))
  {
    if Truthy(x) then
      var text :- Stringify(x.value);
      Success(Str(text))
    else Success(Str(""))
  }

  /** The annotations both manifest-and-config scenarios write. */
  function ManifestAndConfigAnnotations(manifest: Option<Value>, digest: Option<Value>, config: Option<Value>)
    : Result<Members, JsError>
  {
    var manifestText :- TextIfTruthy(manifest);
    var configText :- TextIfTruthy(config);
    Success([("manifest", Some(manifestText)), ("digest", Some(Or(digest, Str("")))), ("config", Some(configText))])
  }

  /** The answer's `manifest`, `digest` and `config`, mapped by `verdict`. */
  function ManifestAndConfigVerdict(answer: Value, expectFound: bool, message: string): (r: Result<ValidationResponse, JsError>)
    ensures answer == Null ==> r.Failure?
    ensures r.Success? ==>
      var manifest := Get(Some(answer), "manifest").value;
      var config := Get(Some(answer), "config").value;
      && (expectFound ==> (Accepts(r.value) <==> Truthy(manifest) && Truthy(config)))
      && (!expectFound ==> (Accepts(r.value) <==> !Truthy(manifest) && !Truthy(config)))
  {
    var manifest :- Get(Some(answer), "manifest");
    var config := Get(Some(answer), "config").value;
    var digest := Get(Some(answer), "digest").value;
    var found := Truthy(manifest) && Truthy(config);
    var annotations :- ManifestAndConfigAnnotations(manifest, digest, config);
    if expectFound then
      Success(Annotated(Some(Bool(found)), if found then None else Text(message), annotations))
    else
      Success(Annotated(Some(Bool(!Truthy(manifest) && !Truthy(config))), Text(message), annotations))
  }

  /** `handleOciManifestAndConfigSuccess`: accepted exactly when both the
      manifest and the config are truthy. */
  function ManifestAndConfigSuccess(host: Host): (o: Outcome<ValidationResponse>)
    ensures var call := GetOciManifestAndConfig(host, Str(Busybox));
      && o.effects == call.effects
      && (call.result.Failure? ==> o.result == Failure(call.result.error))
      && (call.result.Success? ==>
            o.result == ManifestAndConfigVerdict(call.result.value, true, "Failed to retrieve OCI manifest and config"))
  {
    Then(GetOciManifestAndConfig(host, Str(Busybox)),
         (answer: Value) => ManifestAndConfigVerdict(answer, true, "Failed to retrieve OCI manifest and config"))
  }

  /** `handleOciManifestAndConfigFailure`: accepted exactly when neither the
      manifest nor the config is truthy. */
  function ManifestAndConfigFailure(host: Host): (o: Outcome<ValidationResponse>)
    ensures var call := GetOciManifestAndConfig(host, Str("example.test/nonexistent-image"));
      && o.effects == call.effects
      && (call.result.Failure? ==> o.result == Failure(call.result.error))
      && (call.result.Success? ==>
            o.result == ManifestAndConfigVerdict(call.result.value, false, "Unexpectedly succeeded in manifest and config lookup"))
  {
    Then(GetOciManifestAndConfig(host, Str("example.test/nonexistent-image")),
         (answer: Value) => ManifestAndConfigVerdict(answer, false, "Unexpectedly succeeded in manifest and config lookup"))
  }

  // ---------------------------------------------------------------- Kubernetes

  /** The namespace both get-resource scenarios ask for. */
  function NamespaceRequest(): (v: Value)
    ensures IsJson(v) && v.Obj?
  {
    Literal([("api_version", Text("v1")), ("kind", Text("Namespace")), ("name", Text("test-policy")),
             ("disable_cache", Some(Bool(false)))])
  }

  /** `ns?.metadata?.labels?.['demo-namespace']`. */
  function DemoLabel(ns: Value): Option<Value> {
    var metadata := OptGet(Some(ns), "metadata").value;
    var labels := OptGet(metadata, "labels").value;
    OptGet(labels, "demo-namespace").value
  }

  /** `handleGetResourceSuccess`: accepts exactly when the namespace's
      `demo-namespace` label is the string `true`; any other answer,
      including one without metadata, is rejected rather than thrown. */
  function GetResourceSuccess(host: Host): (o: Outcome<ValidationResponse>)
    ensures var call := GetResource(host, NamespaceRequest());
      && o.effects == call.effects
      && (call.result.Failure? ==> o.result == Failure(call.result.error))
      && (call.result.Success? ==>
            && o.result.Success?
            && (StrictEquals(DemoLabel(call.result.value), Str("true")) ==> o.result.value == AcceptRequest())
            && (!StrictEquals(DemoLabel(call.result.value), Str("true")) ==>
                  o.result.value == RejectRequest("Namespace does not have label demo-namespace=true", None)))
  {
    Then(GetResource(host, NamespaceRequest()),
         (ns: Value) =>
           if StrictEquals(DemoLabel(ns), Str("true")) then Success(AcceptRequest())
           else Success(RejectRequest("Namespace does not have label demo-namespace=true", None)))
  }

  /** `handleGetResourceFailure`: whatever the answer, a rejection. */
  function GetResourceFailure(host: Host): (o: Outcome<ValidationResponse>)
    ensures var call := GetResource(host, NamespaceRequest());
      && o.effects == call.effects
      && (call.result.Failure? ==> o.result == Failure(call.result.error))
      && (call.result.Success? ==> o.result == Success(RejectRequest("Unexpectedly succeeded in getResource", None)))
  {
    Then(GetResource(host, NamespaceRequest()),
         (ns: Value) => Success(RejectRequest("Unexpectedly succeeded in getResource", None)))
  }

  /** `list?.items?.length || 0` (`optional` tells whether `list` itself is
      read with `?.`). */
  function ItemCount(list: Value, optional: bool): (r: Result<Value, JsError>)
    ensures r.Failure? <==> list == Null && !optional
    ensures list.Obj? && Lookup(list.fields, "items").Some? && Lookup(list.fields, "items").value.Arr? ==>
      r == Success(Num(|Lookup(list.fields, "items").value.items|))
  {
    var items :- if optional then OptGet(Some(list), "items") else Get(Some(list), "items");
    Success(Or(OptGet(items, "length").value, Num(0)))
  }

  /** The response of the list success scenarios: accepted exactly when the
      count is a positive number. */
  function CountVerdict(list: Value, optional: bool, failMessage: string, countKey: string, listKey: string)
    : (r: Result<ValidationResponse, JsError>)
    ensures r.Success? ==> ItemCount(list, optional).Success?
                           && (Accepts(r.value) <==> IsPositive(ItemCount(list, optional).value))
                           && (r.value.message.None? <==> Accepts(r.value))
  {
    var count :- ItemCount(list, optional);
    var countText :- ToStringCall(Some(count));
    var listText :- Stringify(list);
    Success(Annotated(Some(Bool(IsPositive(count))),
                      if IsPositive(count) then None else Text(failMessage),
                      [(countKey, Text(countText)), (listKey, Text(listText))]))
  }

  function PodsRequest(): (v: Value)
    ensures IsJson(v)
  {
    Literal([("api_version", Text("v1")), ("kind", Text("Pod")), ("label_selector", Text("app=nginx"))])
  }

  /** `handleListAllResourcesSuccess`. */
  function ListAllResourcesSuccess(host: Host): (o: Outcome<ValidationResponse>)
    ensures var call := ListAllResources(host, PodsRequest());
      && o.effects == call.effects
      && (call.result.Failure? ==> o.result == Failure(call.result.error))
      && (call.result.Success? ==> o.result == CountVerdict(call.result.value, false, "Failed to retrieve pods", "podCount", "pods"))
  {
    Then(ListAllResources(host, PodsRequest()),
         (pods: Value) => CountVerdict(pods, false, "Failed to retrieve pods", "podCount", "pods"))
  }

  /** `handleListAllResourcesFailure`: never accepts. */
  function ListAllResourcesFailure(host: Host): (o: Outcome<ValidationResponse>)
    ensures var call := ListAllResources(host, Literal([("api_version", Text("v1")), ("kind", Text("InvalidResource"))]));
      && o.effects == call.effects
      && (call.result.Failure? ==> o.result == Failure(call.result.error))
      && (call.result.Success? ==> o.result.Success? && o.result.value.accepted == Some(Bool(false)))
  {
    Then(ListAllResources(host, Literal([("api_version", Text("v1")), ("kind", Text("InvalidResource"))])),
         (pods: Value) =>
           var text :- Stringify(pods);
           Success(Annotated(Some(Bool(false)), Text("Unexpectedly succeeded in listAllResources"), [("pods", Text(text))])))
  }

  function ConfigMapsRequest(): (v: Value)
    ensures IsJson(v)
  {
    Literal([("api_version", Text("v1")), ("kind", Text("ConfigMap")), ("namespace", Text("kube-system")),
             ("label_selector", Text("component=kube-proxy"))])
  }

  /** `handleListResourcesByNamespaceSuccess`. */
  function ListResourcesByNamespaceSuccess(host: Host): (o: Outcome<ValidationResponse>)
    ensures var call := ListResourcesByNamespace(host, ConfigMapsRequest());
      && o.effects == call.effects
      && (call.result.Failure? ==> o.result == Failure(call.result.error))
      && (call.result.Success? ==>
            o.result == CountVerdict(call.result.value, true, "Failed to retrieve configmaps", "configMapCount", "configMaps"))
  {
    Then(ListResourcesByNamespace(host, ConfigMapsRequest()),
         (configMaps: Value) => CountVerdict(configMaps, true, "Failed to retrieve configmaps", "configMapCount", "configMaps"))
  }

  /** `handleListResourcesByNamespaceFailure`: never accepts. */
  function ListResourcesByNamespaceFailure(host: Host): (o: Outcome<ValidationResponse>)
    ensures var call := ListResourcesByNamespace(host, Literal([("api_version", Text("v1")), ("kind", Text("Pod")),
                                                                ("namespace", Text("nonexistent-namespace"))]));
      && o.effects == call.effects
      && (call.result.Failure? ==> o.result == Failure(call.result.error))
      && (call.result.Success? ==> o.result.Success? && o.result.value.accepted == Some(Bool(false)))
  {
    Then(ListResourcesByNamespace(host, Literal([("api_version", Text("v1")), ("kind", Text("Pod")),
                                                 ("namespace", Text("nonexistent-namespace"))])),
         (resources: Value) =>
           var text :- Stringify(resources);
           Success(Annotated(Some(Bool(false)), Text("Unexpectedly succeeded in listResourcesByNamespace"),
                             [("resources", Text(text))])))
  }

  /** The access review of the can-I success scenario; its `undefined`
      members are not sent. */
  function CreatePodsReview(): (v: Value)
    ensures IsJson(v)
  {
    var attributes := Literal([("namespace", None), ("verb", Text("create")), ("group", Text("")), ("resource", Text("pods"))]);
    var review := Literal([("groups", None), ("resource_attributes", Some(attributes)),
                           ("user", Text("system:serviceaccount:default:my-service-account"))]);
    Literal([("subject_access_review", Some(review)), ("disable_cache", Some(Bool(false)))])
  }

  /** The response of the can-I success scenario: the answer's `allowed`
      and `reason`, as they are, and no annotations. */
  function PermissionVerdict(result: Value): (r: Result<ValidationResponse, JsError>)
    ensures r.Success? <==> result != Null
    ensures r.Success? ==>
      && r.value.accepted == Get(Some(result), "allowed").value
      && r.value.message == Get(Some(result), "reason").value
      && r.value.auditAnnotations.None?
  {
    var allowed :- Get(Some(result), "allowed");
    var reason := Get(Some(result), "reason").value;
    Success(ValidationResponse(allowed, reason, None, None, None, None))
  }

  /** `handleCanISuccess`. */
  function CanISuccess(host: Host): (o: Outcome<ValidationResponse>)
    ensures var call := CanI(host, CreatePodsReview());
      && o.effects == call.effects
      && (call.result.Failure? ==> o.result == Failure(call.result.error))
      && (call.result.Success? ==> o.result == PermissionVerdict(call.result.value))
  {
    Then(CanI(host, CreatePodsReview()), PermissionVerdict)
  }

  /** The access review of the can-I failure scenario. */
  function DeleteNodesReview(): (v: Value)
    ensures IsJson(v)
  {
    var attributes := Literal([("namespace", Text("")), ("verb", Text("delete")), ("group", Text("")), ("resource", Text("nodes"))]);
    var review := Literal([("groups", Some(NoGroups())), ("resource_attributes", Some(attributes)),
                           ("user", Text("system:serviceaccount:kubewarden:kubewarden-controller"))]);
    Literal([("subject_access_review", Some(review)), ("disable_cache", Some(Bool(false)))])
  }

  /** An empty list of groups. */
  function NoGroups(): (v: Value)
    ensures IsJson(v)
  {
    Arr([])
  }

  /** `allowed?.toString() || 'false'`. */
  function AllowedText(allowed: Option<Value>): (t: string)
    ensures allowed == Some(Bool(true)) ==> t == "true"
    ensures allowed.None? || allowed == Some(Null) || allowed == Some(Bool(false)) ==> t == "false"
  {
    if allowed.None? || allowed == Some(Null) then "false"
    else
      var text := ToJsString(allowed.value);
      if text == "" then "false" else text
  }

  /** The response of the can-I failure scenario: accepted exactly when
      `allowed` is the boolean `false`. */
  function DenialVerdict(result: Value): (r: Result<ValidationResponse, JsError>)
    ensures r.Success? <==> result != Null
    ensures r.Success? ==>
      var allowed := Get(Some(result), "allowed").value;
      && (Accepts(r.value) <==> allowed == Some(Bool(false)))
      && (r.value.message.None? <==> Accepts(r.value))
      && r.value.auditAnnotations.Some? && |r.value.auditAnnotations.value| == 3
      && r.value.auditAnnotations.value[0] == ("allowed", Text(AllowedText(allowed)))
  {
    var allowed :- Get(Some(result), "allowed");
    var denied := StrictEquals(allowed, Bool(false));
    Success(Annotated(Some(Bool(denied)), if denied then None else Text("Unexpectedly allowed forbidden action"),
                      [("allowed", Text(AllowedText(allowed))),
                       ("reason", Some(Or(Get(Some(result), "reason").value, Str("")))),
                       ("evaluationError", Some(Or(Get(Some(result), "evaluationError").value, Str(""))))]))
  }

  /** `handleCanIFailure`. */
  function CanIFailure(host: Host): (o: Outcome<ValidationResponse>)
    ensures var call := CanI(host, DeleteNodesReview());
      && o.effects == call.effects
      && (call.result.Failure? ==> o.result == Failure(call.result.error))
      && (call.result.Success? ==> o.result == DenialVerdict(call.result.value))
  {
    Then(CanI(host, DeleteNodesReview()), DenialVerdict)
  }

  // ---------------------------------------------------------------- sigstore

  /** The response of a signature scenario.  A success scenario
      (`expectTrusted`) passes `is_trusted` on as `accepted`, a failure
      scenario negates it; the message is left out exactly when the
      verdict is the expected one.  `is_trusted.toString()` throws when the
      answer has no verdict. */
  function TrustVerdict(result: Value, expectTrusted: bool, failMessage: string, verificationMethod: string, extra: Members)
    : (r: Result<ValidationResponse, JsError>)
    ensures result == Null ==> r.Failure?
    ensures result != Null ==>
      var trusted := Get(Some(result), "is_trusted").value;
      && (r.Success? <==> trusted.Some? && trusted != Some(Null))
      && (r.Success? ==>
            && (expectTrusted ==> r.value.accepted == trusted)
            && (!expectTrusted ==> r.value.accepted == Some(Bool(!Truthy(trusted))))
            && (r.value.message.None? <==> Truthy(trusted) == expectTrusted)
            && r.value.auditAnnotations.Some? && |r.value.auditAnnotations.value| == 3 + |extra|
            && r.value.auditAnnotations.value[1] == ("digest", Get(Some(result), "digest").value)
            && r.value.auditAnnotations.value[2] == ("verification_method", Text(verificationMethod)))
  {
    var trusted :- Get(Some(result), "is_trusted");
    var text :- ToStringCall(trusted);
    var digest := Get(Some(result), "digest").value;
    Success(Annotated(if expectTrusted then trusted else Some(Bool(!Truthy(trusted))),
                      if Truthy(trusted) == expectTrusted then None else Text(failMessage),
                      [("is_trusted", Text(text)), ("digest", digest), ("verification_method", Text(verificationMethod))] + extra))
  }

  /** The verification answer `{"is_trusted": b, "digest": d}`. */
  function VerificationAnswer(trusted: bool, digest: string): Value {
    Obj([Field("is_trusted", Bool(trusted)), Field("digest", Str(digest))])
  }

  /** For a boolean verdict, a success scenario accepts exactly a trusted
      image and a failure scenario exactly an untrusted one. */
  lemma TrustVerdictOfAnswer(trusted: bool, digest: string, expectTrusted: bool, failMessage: string,
                             verificationMethod: string, extra: Members)
    ensures var r := TrustVerdict(VerificationAnswer(trusted, digest), expectTrusted, failMessage, verificationMethod, extra);
      && r.Success? && (Accepts(r.value) <==> trusted == expectTrusted)
      && r.value.auditAnnotations.value[..3]
         == [("is_trusted", Text(if trusted then "true" else "false")), ("digest", Text(digest)),
             ("verification_method", Text(verificationMethod))]
  {
    var answer := VerificationAnswer(trusted, digest);
    assert answer.fields[..1] == [Field("is_trusted", Bool(trusted))];
    assert "digest" != "is_trusted" by { assert |"digest"| != |"is_trusted"|; }
    assert Lookup(answer.fields, "is_trusted") == Lookup(answer.fields[..1], "is_trusted");
    assert Get(Some(answer), "is_trusted") == Success(Some(Bool(trusted)));
    assert Get(Some(answer), "digest") == Success(Some(Str(digest)));
  }

  /** A signature scenario's response to the outcome of its verification
      call; an error of the call is rethrown. */
  function SignatureScenario(call: Outcome<Value>, expectTrusted: bool, failMessage: string,
                             verificationMethod: string, extra: Members): (o: Outcome<ValidationResponse>)
    ensures o.effects == call.effects
    ensures call.result.Failure? ==> o.result == Failure(call.result.error)
    ensures call.result.Success? ==> o.result == TrustVerdict(call.result.value, expectTrusted, failMessage, verificationMethod, extra)
  {
    Then(call, (result: Value) => TrustVerdict(result, expectTrusted, failMessage, verificationMethod, extra))
  }

  const PubKey: string := "-----BEGIN PUBLIC KEY-----\nMIIBIjANBgkqhkiG9w0BAQEFAAOCAQ8AMIIBCgKCAQEA...\n-----END PUBLIC KEY-----"
  const OauthIssuer: string := "https://github.com/login/oauth"

  /** The request the scenario below sends. */
  const SignedApp: VerifyRequest :=
    PubKeyVerify("registry.example.com/signed-app:v1.0.0", [PubKey], None)

  /** `handleSigstoreVerifyPubKeySuccess`. */
  function PubKeySuccess(host: Host): (o: Outcome<ValidationResponse>)
    ensures var request := SignedApp;
      var call := VerifyPubKeysImage(host, request.image, request.pubKeys, None);
      && Sent(o.effects, request)
      && (call.result.Failure? ==> o.result == Failure(call.result.error))
      && (call.result.Success? ==> o.result == TrustVerdict(call.result.value, true,
            "Image signature verification with public key failed", "public_key", []))
  {
    SignatureScenario(VerifyPubKeysImage(host, SignedApp.image, SignedApp.pubKeys, None),
                      true, "Image signature verification with public key failed", "public_key", [])
  }

  /** The request the scenario below sends. */
  const UnsignedApp: VerifyRequest :=
    PubKeyVerify("registry.example.com/unsigned-app:v1.0.0", [PubKey], None)

  /** `handleSigstoreVerifyPubKeyFailure`. */
  function PubKeyFailure(host: Host): (o: Outcome<ValidationResponse>)
    ensures var request := UnsignedApp;
      var call := VerifyPubKeysImage(host, request.image, request.pubKeys, None);
      && Sent(o.effects, request)
      && (call.result.Failure? ==> o.result == Failure(call.result.error))
      && (call.result.Success? ==> o.result == TrustVerdict(call.result.value, false,
            "Unexpectedly verified unsigned image with public key", "public_key", []))
  {
    SignatureScenario(VerifyPubKeysImage(host, UnsignedApp.image, UnsignedApp.pubKeys, None),
                      false, "Unexpectedly verified unsigned image with public key", "public_key", [])
  }

  /** The request the scenario below sends. */
  const CiSignedApp: VerifyRequest :=
    KeylessVerify("registry.example.com/ci-signed-app:v1.0.0", [KeylessInfo(OauthIssuer, "user@example.com")], None)

  /** `handleSigstoreVerifyKeylessExactSuccess`. */
  function KeylessExactSuccess(host: Host): (o: Outcome<ValidationResponse>)
    ensures var request := CiSignedApp;
      var call := VerifyKeylessExactMatch(host, request.image, request.keyless, None);
      && Sent(o.effects, request)
      && (call.result.Failure? ==> o.result == Failure(call.result.error))
      && (call.result.Success? ==> o.result == TrustVerdict(call.result.value, true,
            "Keyless exact match signature verification failed", "keyless_exact", []))
  {
    SignatureScenario(VerifyKeylessExactMatch(host, CiSignedApp.image, CiSignedApp.keyless, None),
                      true, "Keyless exact match signature verification failed", "keyless_exact", [])
  }

  /** The request the scenario below sends. */
  const UntrustedApp: VerifyRequest :=
    KeylessVerify("registry.example.com/untrusted-app:v1.0.0", [KeylessInfo(OauthIssuer, "untrusted@example.com")], None)

  /** `handleSigstoreVerifyKeylessExactFailure`. */
  function KeylessExactFailure(host: Host): (o: Outcome<ValidationResponse>)
    ensures var request := UntrustedApp;
      var call := VerifyKeylessExactMatch(host, request.image, request.keyless, None);
      && Sent(o.effects, request)
      && (call.result.Failure? ==> o.result == Failure(call.result.error))
      && (call.result.Success? ==> o.result == TrustVerdict(call.result.value, false,
            "Unexpectedly verified untrusted keyless signature", "keyless_exact", []))
  {
    SignatureScenario(VerifyKeylessExactMatch(host, UntrustedApp.image, UntrustedApp.keyless, None),
                      false, "Unexpectedly verified untrusted keyless signature", "keyless_exact", [])
  }

  /** The request the scenario below sends. */
  const OrgSignedApp: VerifyRequest :=
    KeylessPrefixVerify("registry.example.com/org-signed-app:v1.0.0",
                        [KeylessPrefixInfo(OauthIssuer, "https://github.com/trusted-org/")], None)

  /** `handleSigstoreVerifyKeylessPrefixSuccess`. */
  function KeylessPrefixSuccess(host: Host): (o: Outcome<ValidationResponse>)
    ensures var request := OrgSignedApp;
      var call := VerifyKeylessPrefixMatch(host, request.image, request.keylessPrefix, None);
      && Sent(o.effects, request)
      && (call.result.Failure? ==> o.result == Failure(call.result.error))
      && (call.result.Success? ==> o.result == TrustVerdict(call.result.value, true,
            "Keyless prefix match signature verification failed", "keyless_prefix", []))
  {
    SignatureScenario(VerifyKeylessPrefixMatch(host, OrgSignedApp.image, OrgSignedApp.keylessPrefix, None),
                      true, "Keyless prefix match signature verification failed", "keyless_prefix", [])
  }

  /** The request the scenario below sends. */
  const UntrustedOrgApp: VerifyRequest :=
    KeylessPrefixVerify("registry.example.com/untrusted-org-app:v1.0.0",
                        [KeylessPrefixInfo(OauthIssuer, "https://github.com/trusted-org/")], None)

  /** `handleSigstoreVerifyKeylessPrefixFailure`. */
  function KeylessPrefixFailure(host: Host): (o: Outcome<ValidationResponse>)
    ensures var request := UntrustedOrgApp;
      var call := VerifyKeylessPrefixMatch(host, request.image, request.keylessPrefix, None);
      && Sent(o.effects, request)
      && (call.result.Failure? ==> o.result == Failure(call.result.error))
      && (call.result.Success? ==> o.result == TrustVerdict(call.result.value, false,
            "Unexpectedly verified untrusted keyless prefix signature", "keyless_prefix", []))
  {
    SignatureScenario(VerifyKeylessPrefixMatch(host, UntrustedOrgApp.image, UntrustedOrgApp.keylessPrefix, None),
                      false, "Unexpectedly verified untrusted keyless prefix signature", "keyless_prefix", [])
  }

  /** The `owner` and `repo` annotations of the GitHub Actions scenarios. */
  function Repository(owner: string, repo: string): Members {
    [("owner", Text(owner)), ("repo", Text(repo))]
  }

  /** The request the scenario below sends. */
  const GithubActionsApp: VerifyRequest :=
    GithubActionsVerify("registry.example.com/github-actions-app:v1.0.0", "trusted-org", Some("trusted-repo"), None)

  /** `handleSigstoreVerifyGithubActionsSuccess`. */
  function GithubActionsSuccess(host: Host): (o: Outcome<ValidationResponse>)
    ensures var request := GithubActionsApp;
      var call := VerifyKeylessGithubActions(host, request.image, request.owner, request.repo, None);
      && Sent(o.effects, request)
      && (call.result.Failure? ==> o.result == Failure(call.result.error))
      && (call.result.Success? ==> o.result == TrustVerdict(call.result.value, true,
            "GitHub Actions signature verification failed", "github_actions",
            Repository("trusted-org", "trusted-repo")))
  {
    SignatureScenario(VerifyKeylessGithubActions(host, GithubActionsApp.image, GithubActionsApp.owner, GithubActionsApp.repo, None),
                      true, "GitHub Actions signature verification failed", "github_actions",
                      Repository("trusted-org", "trusted-repo"))
  }

  /** The request the scenario below sends. */
  const UntrustedGithubApp: VerifyRequest :=
    GithubActionsVerify("registry.example.com/untrusted-github-app:v1.0.0", "untrusted-org", Some("untrusted-repo"), None)

  /** `handleSigstoreVerifyGithubActionsFailure`. */
  function GithubActionsFailure(host: Host): (o: Outcome<ValidationResponse>)
    ensures var request := UntrustedGithubApp;
      var call := VerifyKeylessGithubActions(host, request.image, request.owner, request.repo, None);
      && Sent(o.effects, request)
      && (call.result.Failure? ==> o.result == Failure(call.result.error))
      && (call.result.Success? ==> o.result == TrustVerdict(call.result.value, false,
            "Unexpectedly verified untrusted GitHub Actions signature", "github_actions",
            Repository("untrusted-org", "untrusted-repo")))
  {
    SignatureScenario(VerifyKeylessGithubActions(host, UntrustedGithubApp.image, UntrustedGithubApp.owner,
                                                 UntrustedGithubApp.repo, None),
                      false, "Unexpectedly verified untrusted GitHub Actions signature", "github_actions",
                      Repository("untrusted-org", "untrusted-repo"))
  }

  // ---------------------------------------------------------------- certificates

  /** The certificate of the certificate success scenario. */
  const ValidCertificate: Certificate := FromString("certificate0", Pem)

  /** The certificate of the certificate failure scenario. */
  const InvalidCertificate: Certificate := FromString("invalid certificate data", Pem)

  /** The expiry date the certificate success scenario checks against. */
  const ValidUntil: string := "2025-12-31T23:59:59Z"

  /** The expiry date the certificate failure scenario checks against. */
  const ExpiredAt: string := "2020-01-01T00:00:00Z"

  /** The annotations of the certificate scenarios other than `trusted`
      and `reason`. */
  function CertificateDetails(notAfter: string): Members {
    [("certEncoding", Text("Pem")), ("chainLength", Text("0")), ("notAfter", Text(notAfter))]
  }

  /** The body of the `try` of the certificate success scenario. */
  function TrustedCertificate(result: Value): (r: Result<ValidationResponse, JsError>)
    ensures r.Success? ==> result != Null && r.value.accepted == Get(Some(result), "trusted").value
  {
    var trusted :- Get(Some(result), "trusted");
    var reason := Get(Some(result), "reason").value;
    var text :- ToStringCall(trusted);
    Success(Annotated(trusted, if Truthy(trusted) then None else reason,
                      [("trusted", Text(text)), ("reason", Some(Or(reason, Str(""))))]
                      + CertificateDetails(ValidUntil) + [("certData", Text("certificate0"))]))
  }

  /** `try { ... } catch (error) { ... }` around a body that only returns
      a response or throws. */
  function Recover(attempt: Result<ValidationResponse, JsError>, onError: JsError -> ValidationResponse)
    : (r: ValidationResponse)
    ensures attempt.Success? ==> r == attempt.value
    ensures attempt.Failure? ==> r == onError(attempt.error)
  {
    match attempt
    case Success(response) => response
    case Failure(error) => onError(error)
  }

  /** `try { body(call()) } catch (error) { onError(error) }`: an error of
      the call or of the body is caught, so the scenario always returns. */
  function Guarded(call: Outcome<Value>, body: Value -> Result<ValidationResponse, JsError>,
                   onError: JsError -> ValidationResponse): (o: Outcome<ValidationResponse>)
    ensures o.effects == call.effects && o.result.Success?
    ensures call.result.Failure? ==> o.result.value == onError(call.result.error)
    ensures call.result.Success? ==> o.result.value == Recover(body(call.result.value), onError)
  {
    match call.result
    case Failure(e) => Outcome(Success(onError(e)), call.effects)
    case Success(v) => Outcome(Success(Recover(body(v), onError)), call.effects)
  }

  /** The `catch` of the certificate success scenario: a rejection that
      describes the error. */
  function CertificateRejected(error: JsError): (r: ValidationResponse)
    ensures r.accepted == Some(Bool(false))
    ensures r.message == Text("Certificate verification failed: " + Describe(error))
    ensures r.auditAnnotations.Some? && |r.auditAnnotations.value| == 6
    ensures r.auditAnnotations.value[1] == ("reason", Text("Error: " + Describe(error)))
  {
    Annotated(Some(Bool(false)), Text("Certificate verification failed: " + Describe(error)),
              [("trusted", Text("false")), ("reason", Text("Error: " + Describe(error)))]
              + CertificateDetails(ValidUntil) + [("certData", Text("certificate0"))])
  }

  /** `handleCryptoVerifyCertSuccess`: it never throws; any error, of the
      host call or of reading the answer, is caught and rejected with its
      description. */
  function CertificateSuccess(host: Host): (o: Outcome<ValidationResponse>)
    ensures var call := VerifyCert(host, ValidCertificate, [], Some(ValidUntil));
      o.result.Success? && o.effects == call.effects && o == CertificateSuccessOf(call)
  {
    CertificateSuccessOf(VerifyCert(host, ValidCertificate, [], Some(ValidUntil)))
  }

  /** The certificate success scenario's response to the outcome of its
      verification call: a thrown error is rejected with its description,
      an answer goes through `TrustedCertificate`, whose errors are caught
      the same way. */
  function CertificateSuccessOf(call: Outcome<Value>): (o: Outcome<ValidationResponse>)
    ensures o.effects == call.effects && o.result.Success?
    ensures call.result.Failure? ==> o.result.value == CertificateRejected(call.result.error)
    ensures call.result.Success? ==> o.result.value == Recover(TrustedCertificate(call.result.value), CertificateRejected)
  {
    Guarded(call, TrustedCertificate, CertificateRejected)
  }

  /** The body of the `try` of the certificate failure scenario: accepted
      exactly when the answer's `trusted` is falsy. */
  function UntrustedCertificate(result: Value): (r: Result<ValidationResponse, JsError>)
    ensures r.Success? ==> result != Null && (Accepts(r.value) <==> !Truthy(Get(Some(result), "trusted").value))
  {
    var trusted :- Get(Some(result), "trusted");
    var text :- ToStringCall(trusted);
    var reason := Get(Some(result), "reason").value;
    Success(Annotated(Some(Bool(!Truthy(trusted))),
                      if Truthy(trusted) then Text("Unexpectedly trusted invalid certificate") else None,
                      [("trusted", Text(text)), ("reason", Some(Or(reason, Str(""))))]
                      + CertificateDetails(ExpiredAt)))
  }

  /** The `catch` of the certificate failure scenario: the error was
      expected, so the request is accepted. */
  function ExpectedFailure(error: JsError): (r: ValidationResponse)
    ensures Accepts(r) && r.message.None?
    ensures r.auditAnnotations.Some? && |r.auditAnnotations.value| == 5
    ensures r.auditAnnotations.value[1] == ("reason", Text("Expected failure: " + Describe(error)))
  {
    Annotated(Some(Bool(true)), None,
              [("trusted", Text("false")), ("reason", Text("Expected failure: " + Describe(error)))]
              + CertificateDetails(ExpiredAt))
  }

  /** `handleCryptoVerifyCertFailure`: it never throws, and a thrown error
      is the expected outcome, so it is accepted. */
  function CertificateFailure(host: Host): (o: Outcome<ValidationResponse>)
    ensures var call := VerifyCert(host, InvalidCertificate, [], Some(ExpiredAt));
      o.result.Success? && o.effects == call.effects && o == CertificateFailureOf(call)
  {
    CertificateFailureOf(VerifyCert(host, InvalidCertificate, [], Some(ExpiredAt)))
  }

  /** The certificate failure scenario's response to the outcome of its
      verification call: a thrown error is the expected outcome and is
      accepted, an answer goes through `UntrustedCertificate`. */
  function CertificateFailureOf(call: Outcome<Value>): (o: Outcome<ValidationResponse>)
    ensures o.effects == call.effects && o.result.Success?
    ensures call.result.Failure? ==> o.result.value == ExpectedFailure(call.result.error)
    ensures call.result.Success? ==> o.result.value == Recover(UntrustedCertificate(call.result.value), ExpectedFailure)
  {
    Guarded(call, UntrustedCertificate, ExpectedFailure)
  }
}
