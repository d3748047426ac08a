/** `ManifestDigest.getOCIManifestDigest`
    (js/kubewarden/host_capabilities/oci/manifest_digest/manifest_digest.ts). */
module ManifestDigest {
  import opened Wrappers
  import opened JsValues
  import opened JsonText
  import opened Effects
  import opened Protocol
  import opened HostCalls

  const ManifestDigestAt: Address := Kubewarden("oci", "v1/manifest_digest")

  /** `getOCIManifestDigest(image)`: the `digest` property of the parsed
      answer.  Serialisation and parsing are wrapped (with lower-case
      context), the host call's error is rethrown as it is, and the final
      property read sits outside every `try`. */
  function GetOciManifestDigest(host: Host, image: Value): (o: Outcome<Option<Value>>)
    ensures Writes(o.effects) == 0 && Invocations(o.effects) == (if IsJson(image) then 1 else 0)
    ensures IsJson(image) ==> o.effects[0] == Invoke(ManifestDigestAt, Serialize(image).value)
    ensures !IsJson(image) ==> o.result == Failure(Rethrown("cannot serialize image to JSON", Stringify(image).error))
    ensures (IsJson(image) && !HostSucceeds(host, ManifestDigestAt, image)) ==> o.result == Failure(HostCallFailed)
    ensures (IsJson(image) && HostSucceeds(host, ManifestDigestAt, image))
            ==> o.result == match ReplyValue(host, ManifestDigestAt, image)
                            case Failure(e) => Failure(Rethrown("cannot parse response", e))
                            case Success(response) => Get(Some(response), "digest")
  {
    var exchange := JsonExchange(host, ManifestDigestAt, image,
                                 Some("cannot serialize image to JSON"), Some("cannot parse response"));
    match exchange.result
    case Failure(e) => Outcome(Failure(e), exchange.effects)
    case Success(response) => Outcome(Get(Some(response), "digest"), exchange.effects)
  }

  /** The host's answer `{"digest": d}`. */
  function DigestResponse(digest: string): (v: Value)
    ensures IsJson(v)
  {
    var fields := [Field("digest", Str(digest))];
    assert fields[1..] == [] && AllFieldsJson(fields[1..]);
    assert AllFieldsJson(fields);
    Obj(fields)
  }

  /** The answer `{"digest": d}` yields `d`. */
  lemma DigestAnswer(host: Host, image: Value, digest: string)
    requires IsJson(image) && HostSucceeds(host, ManifestDigestAt, image)
    requires ReadAll(host(ManifestDigestAt, Serialize(image).value).reply) == Serialize(DigestResponse(digest)).value
    ensures GetOciManifestDigest(host, image).result == Success(Some(Str(digest)))
  {
    ReplyOfJson(host, ManifestDigestAt, image, DigestResponse(digest));
  }

  /** The answer `null` parses, so the `digest` read throws a bare
      `TypeError` that no `catch` wraps. */
  lemma NullAnswer(host: Host, image: Value)
    requires IsJson(image) && HostSucceeds(host, ManifestDigestAt, image)
    requires ReadAll(host(ManifestDigestAt, Serialize(image).value).reply) == Serialize(Null).value
    ensures GetOciManifestDigest(host, image).result.Failure?
    ensures GetOciManifestDigest(host, image).result.error.name == "TypeError"
  {
    ReplyOfJson(host, ManifestDigestAt, image, Null);
  }
}
