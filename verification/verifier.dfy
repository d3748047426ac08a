/** The sigstore signature verifier host capability
    (js/kubewarden/host_capabilities/oci/verify_v2/verifier.ts and types.ts):
    four request builders sharing one exchange with the `v2/verify`
    operation. */
module Verifier {
  import opened Wrappers
  import opened Utf8
  import opened JsValues
  import opened JsonText
  import opened Effects
  import opened Protocol
  import opened HostCalls
  import opened CryptoTypes

  const VerifyAt: Address := Kubewarden("oci", "v2/verify")

  /** `KeylessInfo`: an OIDC issuer and the exact subject it must have certified. */
  datatype KeylessInfo = KeylessInfo(issuer: string, subject: string)

  /** `KeylessPrefixInfo`: an OIDC issuer and a URL prefix of the subject. */
  datatype KeylessPrefixInfo = KeylessPrefixInfo(issuer: string, urlPrefix: string)

  /** The `annotations` object. */
  type Annotations = StringMap

  /** `SigstoreVerifyRequest`, one alternative per verification method;
      optional members are `None` when left `undefined`. */
  datatype VerifyRequest =
    | PubKeyVerify(image: string, pubKeys: seq<string>, annotations: Option<Annotations>)
    | KeylessVerify(image: string, keyless: seq<KeylessInfo>, annotations: Option<Annotations>)
    | KeylessPrefixVerify(image: string, keylessPrefix: seq<KeylessPrefixInfo>, annotations: Option<Annotations>)
    | GithubActionsVerify(image: string, owner: string, repo: Option<string>, annotations: Option<Annotations>)

  /** The `type` discriminator of each alternative. */
  function TypeName(r: VerifyRequest): (name: string)
    ensures name in {"SigstorePubKeyVerify", "SigstoreKeylessVerify", "SigstoreKeylessPrefixVerify", "SigstoreGithubActionsVerify"}
  {
    match r
    case PubKeyVerify(_, _, _) => "SigstorePubKeyVerify"
    case KeylessVerify(_, _, _) => "SigstoreKeylessVerify"
    case KeylessPrefixVerify(_, _, _) => "SigstoreKeylessPrefixVerify"
    case GithubActionsVerify(_, _, _, _) => "SigstoreGithubActionsVerify"
  }

  /** Different methods carry different `type` tags. */
  lemma TypeNameInjective(r: VerifyRequest, q: VerifyRequest)
    requires TypeName(r) == TypeName(q)
    ensures r.PubKeyVerify? == q.PubKeyVerify? && r.KeylessVerify? == q.KeylessVerify?
    ensures r.KeylessPrefixVerify? == q.KeylessPrefixVerify? && r.GithubActionsVerify? == q.GithubActionsVerify?
  {
  }

  /** A `KeylessInfo` object. */
  function KeylessInfoValue(k: KeylessInfo): (v: Value)
    ensures IsJson(v) && v.Obj?
    ensures Keys(v.fields) == ["issuer", "subject"]
    ensures v.fields[0].value == Str(k.issuer) && v.fields[1].value == Str(k.subject)
  {
    var fields := [Field("issuer", Str(k.issuer)), Field("subject", Str(k.subject))];
    AllFieldsJsonEach(fields);
    Obj(fields)
  }

  /** A `KeylessPrefixInfo` object. */
  function KeylessPrefixInfoValue(k: KeylessPrefixInfo): (v: Value)
    ensures IsJson(v) && v.Obj?
    ensures Keys(v.fields) == ["issuer", "url_prefix"]
    ensures v.fields[0].value == Str(k.issuer) && v.fields[1].value == Str(k.urlPrefix)
  {
    var fields := [Field("issuer", Str(k.issuer)), Field("url_prefix", Str(k.urlPrefix))];
    AllFieldsJsonEach(fields);
    Obj(fields)
  }

  function KeylessValues(ks: seq<KeylessInfo>): (items: seq<Value>)
    ensures |items| == |ks|
    ensures forall i :: 0 <= i < |ks| ==> items[i] == KeylessInfoValue(ks[i])
    ensures AllJson(items)
  {
    if ks == [] then [] else [KeylessInfoValue(ks[0])] + KeylessValues(ks[1..])
  }

  function KeylessPrefixValues(ks: seq<KeylessPrefixInfo>): (items: seq<Value>)
    ensures |items| == |ks|
    ensures forall i :: 0 <= i < |ks| ==> items[i] == KeylessPrefixInfoValue(ks[i])
    ensures AllJson(items)
  {
    if ks == [] then [] else [KeylessPrefixInfoValue(ks[0])] + KeylessPrefixValues(ks[1..])
  }

  /** A member that is written only when its value is defined. */
  function Optional(key: string, value: Option<Value>): (fs: seq<Field>)
    ensures |fs| <= 1
    ensures value.None? ==> fs == []
    ensures value.Some? ==> fs == [Field(key, value.value)]
  {
    if value.Some? then [Field(key, value.value)] else []
  }

  function OptionalAnnotations(a: Option<Annotations>): Option<Value> {
    if a.Some? then Some(StringMapValue(a.value)) else None
  }

  /** The keys a member list contributes when its value may be undefined. */
  function IfGiven<T>(o: Option<T>, key: string): seq<string> {
    if o.Some? then [key] else []
  }

  /** The `repo` member of a GitHub Actions request: `undefined` when not given. */
  function RepoOption(repo: Option<string>): Option<Value> {
    if repo.Some? then Some(Str(repo.value)) else None
  }

  /** The members between the method's member and `annotations`: only the
      GitHub Actions literal has one, `repo`. */
  function RepoFields(r: VerifyRequest): seq<Field> {
    if r.GithubActionsVerify? then Optional("repo", RepoOption(r.repo)) else []
  }

  /** The members of the request object, in the order the object literal
      lists them; `undefined` members are left out. */
  function RequestFields(r: VerifyRequest): (fields: seq<Field>)
    ensures |fields| >= 3
    ensures fields[0] == Field("type", Str(TypeName(r))) && fields[1] == Field("image", Str(r.image))
    ensures fields[2] == Field(MethodMember(r).0, MethodMember(r).1)
  {
    [Field("type", Str(TypeName(r))), Field("image", Str(r.image)), Field(MethodMember(r).0, MethodMember(r).1)]
      + RepoFields(r) + Optional("annotations", OptionalAnnotations(r.annotations))
  }

  /** The request object `JSON.stringify` sees. */
  function RequestValue(r: VerifyRequest): (v: Value)
    ensures IsJson(v) && v.Obj?
    ensures r.PubKeyVerify? ==> Keys(v.fields) == ["type", "image", "pub_keys"] + IfGiven(r.annotations, "annotations")
    ensures r.KeylessVerify? ==> Keys(v.fields) == ["type", "image", "keyless"] + IfGiven(r.annotations, "annotations")
    ensures r.KeylessPrefixVerify? ==> Keys(v.fields) == ["type", "image", "keyless_prefix"] + IfGiven(r.annotations, "annotations")
    ensures r.GithubActionsVerify? ==>
              Keys(v.fields) == ["type", "image", "owner"] + IfGiven(r.repo, "repo") + IfGiven(r.annotations, "annotations")
  {
    var fields := RequestFields(r);
    assert AllFieldsJson(fields) by {
      AllFieldsJsonEach(fields);
    }
    RequestKeys(r);
    Obj(fields)
  }

  lemma OptionalKeys(key: string, value: Option<Value>)
    ensures Keys(Optional(key, value)) == IfGiven(value, key)
  {
  }

  /** The keys of the request's members, in order. */
  function RequestKeyList(r: VerifyRequest): seq<string> {
    ["type", "image", MethodMember(r).0]
      + (if r.GithubActionsVerify? then IfGiven(r.repo, "repo") else [])
      + IfGiven(r.annotations, "annotations")
  }

  lemma KeysOfRequest(r: VerifyRequest)
    ensures Keys(RequestFields(r)) == RequestKeyList(r)
  {
    var lead := [Field("type", Str(TypeName(r))), Field("image", Str(r.image)), Field(MethodMember(r).0, MethodMember(r).1)];
    var mid := RepoFields(r);
    var a := OptionalAnnotations(r.annotations);
    var tail := Optional("annotations", a);
    assert RequestFields(r) == lead + mid + tail;
    KeysAppend(lead + mid, tail);
    KeysAppend(lead, mid);
    assert Keys(lead) == ["type", "image", MethodMember(r).0];
    OptionalKeys("annotations", a);
    assert IfGiven(a, "annotations") == IfGiven(r.annotations, "annotations");
    if r.GithubActionsVerify? {
      OptionalKeys("repo", RepoOption(r.repo));
      assert IfGiven(RepoOption(r.repo), "repo") == IfGiven(r.repo, "repo");
    }
  }

  lemma RequestKeys(r: VerifyRequest)
    ensures var ks := Keys(RequestFields(r));
      && (r.PubKeyVerify? ==> ks == ["type", "image", "pub_keys"] + IfGiven(r.annotations, "annotations"))
      && (r.KeylessVerify? ==> ks == ["type", "image", "keyless"] + IfGiven(r.annotations, "annotations"))
      && (r.KeylessPrefixVerify? ==> ks == ["type", "image", "keyless_prefix"] + IfGiven(r.annotations, "annotations"))
      && (r.GithubActionsVerify? ==> ks == ["type", "image", "owner"] + IfGiven(r.repo, "repo") + IfGiven(r.annotations, "annotations"))
  {
    KeysOfRequest(r);
    if !r.GithubActionsVerify? {
      var base := ["type", "image", MethodMember(r).0];
      assert base + [] == base;
    }
  }

  /** The member that names the method's trust material. */
  function MethodMember(r: VerifyRequest): (m: (string, Value)) {
    match r
    case PubKeyVerify(_, keys, _) => ("pub_keys", Arr(StringsValue(keys)))
    case KeylessVerify(_, ks, _) => ("keyless", Arr(KeylessValues(ks)))
    case KeylessPrefixVerify(_, ks, _) => ("keyless_prefix", Arr(KeylessPrefixValues(ks)))
    case GithubActionsVerify(_, owner, _, _) => ("owner", Str(owner))
  }

  /** No string occurs twice in `ks`. */
  predicate NoRepeats(ks: seq<string>)
    decreases |ks|
  {
    ks == [] || (ks[0] !in ks[1..] && NoRepeats(ks[1..]))
  }

  lemma {:induction false} NoRepeatsDistinct(ks: seq<string>)
    requires NoRepeats(ks)
    ensures forall j, k :: 0 <= j < k < |ks| ==> ks[j] != ks[k]
    decreases |ks|
  {
    if ks != [] {
      var rest := ks[1..];
      NoRepeatsDistinct(rest);
      forall j, k | 0 <= j < k < |ks| ensures ks[j] != ks[k] {
        assert ks[k] == rest[k - 1];
        if j > 0 {
          assert ks[j] == rest[j - 1];
        }
      }
    }
  }

  lemma {:induction false} NoRepeatsSnoc(ks: seq<string>, x: string)
    requires NoRepeats(ks) && x !in ks
    ensures NoRepeats(ks + [x])
    decreases |ks|
  {
    if ks == [] {
      assert ks + [x] == [x];
    } else {
      assert (ks + [x])[1..] == ks[1..] + [x];
      NoRepeatsSnoc(ks[1..], x);
    }
  }

  lemma NoRepeatsIfGiven<T>(ks: seq<string>, o: Option<T>, key: string)
    requires NoRepeats(ks) && key !in ks
    ensures NoRepeats(ks + IfGiven(o, key))
  {
    if o.Some? {
      NoRepeatsSnoc(ks, key);
    } else {
      assert ks + IfGiven(o, key) == ks;
    }
  }

  /** The member naming the trust material is neither `type`, `image`,
      `repo` nor `annotations`. */
  lemma MethodMemberName(r: VerifyRequest)
    ensures var m := MethodMember(r).0;
      m != "type" && m != "image" && m != "repo" && m != "annotations"
  {
    if r.GithubActionsVerify? {
      assert MethodMember(r).0[0] != "image"[0];
    }
  }

  /** The key list never repeats a key. */
  lemma RequestKeyListNoRepeats(r: VerifyRequest)
    ensures NoRepeats(RequestKeyList(r))
  {
    var m := MethodMember(r).0;
    MethodMemberName(r);
    assert [] + ["type"] == ["type"] && ["type"] + ["image"] == ["type", "image"];
    NoRepeatsSnoc([], "type");
    NoRepeatsSnoc(["type"], "image");
    NoRepeatsSnoc(["type", "image"], m);
    var base := ["type", "image", m];
    var ks := base;
    if r.GithubActionsVerify? {
      assert "repo"[0] != "type"[0];
      NoRepeatsIfGiven(base, r.repo, "repo");
      ks := base + IfGiven(r.repo, "repo");
    } else {
      assert base + [] == base;
    }
    NoRepeatsIfGiven(ks, r.annotations, "annotations");
  }

  /** The request object never repeats a key. */
  lemma RequestDistinct(r: VerifyRequest)
    ensures DistinctKeys(RequestValue(r).fields)
  {
    var f := RequestFields(r);
    KeysOfRequest(r);
    RequestKeyListNoRepeats(r);
    var ks := Keys(f);
    NoRepeatsDistinct(ks);
  }

  /** Every member of the request object is found under its own name:
      `type` names the method, `image` is the image, the method's member
      carries its trust material, and `repo` and `annotations` are present
      exactly when given. */
  lemma RequestMembers(r: VerifyRequest)
    ensures var f := RequestValue(r).fields;
      && Lookup(f, "type") == Some(Str(TypeName(r)))
      && Lookup(f, "image") == Some(Str(r.image))
      && Lookup(f, MethodMember(r).0) == Some(MethodMember(r).1)
      && Lookup(f, "annotations") == OptionalAnnotations(r.annotations)
      && (r.GithubActionsVerify? ==> Lookup(f, "repo") == (if r.repo.Some? then Some(Str(r.repo.value)) else None))
  {
    RequestDistinct(r);
    LeadingMembers(r);
    AnnotationsMember(r);
    if r.GithubActionsVerify? {
      RepoMember(r);
    }
  }

  lemma LeadingMembers(r: VerifyRequest)
    requires DistinctKeys(RequestValue(r).fields)
    ensures var f := RequestValue(r).fields;
      && Lookup(f, "type") == Some(Str(TypeName(r)))
      && Lookup(f, "image") == Some(Str(r.image))
      && Lookup(f, MethodMember(r).0) == Some(MethodMember(r).1)
  {
    var f := RequestFields(r);
    LookupField(f, 0);
    LookupField(f, 1);
    LookupField(f, 2);
  }

  lemma AnnotationsMember(r: VerifyRequest)
    requires DistinctKeys(RequestValue(r).fields)
    ensures Lookup(RequestValue(r).fields, "annotations") == OptionalAnnotations(r.annotations)
  {
    var f := RequestValue(r).fields;
    var ks := Keys(f);
    if r.annotations.Some? {
      assert f[|f| - 1] == Field("annotations", OptionalAnnotations(r.annotations).value);
    } else {
      assert forall i :: 0 <= i < |f| ==> ks[i] != "annotations";
    }
  }

  lemma RepoMember(r: VerifyRequest)
    requires r.GithubActionsVerify? && DistinctKeys(RequestValue(r).fields)
    ensures Lookup(RequestValue(r).fields, "repo") == (if r.repo.Some? then Some(Str(r.repo.value)) else None)
  {
    var f := RequestValue(r).fields;
    var ks := Keys(f);
    if r.repo.Some? {
      assert f[3] == Field("repo", Str(r.repo.value)) by {
        assert RepoFields(r) == [Field("repo", Str(r.repo.value))];
      }
      LookupField(f, 3);
    } else {
      assert forall i :: 0 <= i < |f| ==> ks[i] != "repo";
    }
  }

  /** The host was called once at `v2/verify`, nothing was written, and the payload it got
      parses to an object carrying the request's `type`, `image`, method
      member, `repo` (GitHub Actions only, present exactly when given) and
      `annotations`. */
  predicate Sent(effects: seq<Effect>, r: VerifyRequest) {
    && Writes(effects) == 0 && Invocations(effects) == 1 && effects[0].Invoke? && effects[0].address == VerifyAt
    && var sent := Deserialize(effects[0].payload);
    && sent.Success? && sent.value.Obj?
    && Lookup(sent.value.fields, "type") == Some(Str(TypeName(r)))
    && Lookup(sent.value.fields, "image") == Some(Str(r.image))
    && Lookup(sent.value.fields, MethodMember(r).0) == Some(MethodMember(r).1)
    && Lookup(sent.value.fields, "annotations") == OptionalAnnotations(r.annotations)
    && (r.GithubActionsVerify? ==>
          Lookup(sent.value.fields, "repo") == (if r.repo.Some? then Some(Str(r.repo.value)) else None))
  }

  /** What every builder sends. */
  lemma PerformVerifySends(host: Host, r: VerifyRequest)
    ensures Sent(PerformVerify(host, r).effects, r)
  {
    DeserializeSerialize(RequestValue(r));
    RequestMembers(r);
  }

  /** `performVerify(request)`: serialises the request, calls `v2/verify`,
      and returns the parsed `VerificationResponse`; the request of every
      builder serialises, so only the host call and the parse can fail. */
  function PerformVerify(host: Host, r: VerifyRequest): (o: Outcome<Value>)
    ensures var request := RequestValue(r);
      && Writes(o.effects) == 0 && Invocations(o.effects) == 1
      && o.effects[0] == Invoke(VerifyAt, Serialize(request).value)
      && (!HostSucceeds(host, VerifyAt, request) ==> o.result == Failure(HostCallFailed))
      && (HostSucceeds(host, VerifyAt, request) ==>
            o.result == match ReplyValue(host, VerifyAt, request)
                        case Failure(e) => Failure(Rethrown("Failed to decode or parse verification response", e))
                        case Success(v) => Success(v))
  {
    JsonExchange(host, VerifyAt, RequestValue(r), Some("Cannot serialize verification request"),
                 Some("Failed to decode or parse verification response"))
  }

  /** `verifyPubKeysImage(image, pubKeys, annotations)`. */
  function VerifyPubKeysImage(host: Host, image: string, pubKeys: seq<string>, annotations: Option<Annotations>): (o: Outcome<Value>)
    ensures Sent(o.effects, PubKeyVerify(image, pubKeys, annotations))
  {
    PerformVerifySends(host, PubKeyVerify(image, pubKeys, annotations));
    PerformVerify(host, PubKeyVerify(image, pubKeys, annotations))
  }

  /** `verifyKeylessExactMatch(image, keyless, annotations)`. */
  function VerifyKeylessExactMatch(host: Host, image: string, keyless: seq<KeylessInfo>, annotations: Option<Annotations>): (o: Outcome<Value>)
    ensures Sent(o.effects, KeylessVerify(image, keyless, annotations))
  {
    PerformVerifySends(host, KeylessVerify(image, keyless, annotations));
    PerformVerify(host, KeylessVerify(image, keyless, annotations))
  }

  /** `verifyKeylessPrefixMatch(image, keylessPrefix, annotations)`. */
  function VerifyKeylessPrefixMatch(host: Host, image: string, keylessPrefix: seq<KeylessPrefixInfo>,
                                    annotations: Option<Annotations>): (o: Outcome<Value>)
    ensures Sent(o.effects, KeylessPrefixVerify(image, keylessPrefix, annotations))
  {
    PerformVerifySends(host, KeylessPrefixVerify(image, keylessPrefix, annotations));
    PerformVerify(host, KeylessPrefixVerify(image, keylessPrefix, annotations))
  }

  /** `verifyKeylessGithubActions(image, owner, repo, annotations)`. */
  function VerifyKeylessGithubActions(host: Host, image: string, owner: string, repo: Option<string>,
                                      annotations: Option<Annotations>): (o: Outcome<Value>)
    ensures Sent(o.effects, GithubActionsVerify(image, owner, repo, annotations))
  {
    PerformVerifySends(host, GithubActionsVerify(image, owner, repo, annotations));
    PerformVerify(host, GithubActionsVerify(image, owner, repo, annotations))
  }

  /** The host reads back the request object itself, and a host answering
      with the JSON text of `answer` has `answer` returned. */
  lemma VerifyAnswer(host: Host, r: VerifyRequest, answer: Value)
    requires IsJson(answer)
    requires var payload := Serialize(RequestValue(r)).value;
      Successful(host(VerifyAt, payload).status) && ReadAll(host(VerifyAt, payload).reply) == Serialize(answer).value
    ensures var o := PerformVerify(host, r);
      Deserialize(o.effects[0].payload) == Success(RequestValue(r)) && o.result == Success(answer)
  {
    DeserializeSerialize(RequestValue(r));
    DeserializeSerialize(answer);
  }

  /** `pemToByteArray(pem)`: the UTF-8 bytes of the text, the same data
      `CertificateUtils.fromString` stores. */
  function PemToByteArray(pem: string): (b: seq<byte>)
    ensures b == FromString(pem, Pem).data
    ensures DecodeLossy(b) == pem
    ensures IsAscii(pem) ==> |b| == |pem|
  {
    DecodeLossyEncode(pem);
    assert IsAscii(pem) ==> |Encode(pem)| == |pem| by {
      if IsAscii(pem) {
        EncodeAscii(pem);
      }
    }
    Encode(pem)
  }
}
