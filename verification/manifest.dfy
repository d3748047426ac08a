/** `Manifest.getOCIManifest`
    (js/kubewarden/host_capabilities/oci/manifest/manifest.ts). */
module Manifest {
  import opened Wrappers
  import opened Utf8
  import opened JsValues
  import opened JsonText
  import opened Effects
  import opened Protocol
  import opened HostCalls
  import opened ManifestTypes

  const OciManifestAt: Address := Kubewarden("oci", "v1/oci_manifest")

  /** The error every unusable answer ends in: `fromJSON`'s error, wrapped. */
  const CannotParse: JsError := Rethrown("Cannot parse response", CannotDecode)

  /** `getOCIManifest(image)`: sends the image reference's JSON text and
      decodes the answer with `fromJSON`; both steps have a `catch` that
      rethrows with context, the host call has none. */
  function GetOciManifest(host: Host, image: Value): (o: Outcome<ManifestResponse>)
    ensures Writes(o.effects) == 0 && Invocations(o.effects) == (if IsJson(image) then 1 else 0)
    ensures IsJson(image) ==> o.effects[0] == Invoke(OciManifestAt, Serialize(image).value)
    ensures !IsJson(image) ==> o.result == Failure(Rethrown("Cannot serialize image to JSON", Stringify(image).error))
    ensures (IsJson(image) && !HostSucceeds(host, OciManifestAt, image)) ==> o.result == Failure(HostCallFailed)
    ensures (IsJson(image) && HostSucceeds(host, OciManifestAt, image))
            ==> o.result == (match FromJson(ReplyText(host, OciManifestAt, Serialize(image).value))
                             case Success(r) => Success(r)
                             case Failure(_) => Failure(CannotParse))
    ensures o.result.Success? ==> WellFormed(o.result.value)
  {
    var o := Exchange(host, OciManifestAt, image, Some("Cannot serialize image to JSON"),
                      FromJson, Some("Cannot parse response"));
    if o.result.Success? then
      FromJsonWellFormed(ReplyText(host, OciManifestAt, Serialize(image).value));
      o
    else o
  }

  /** A host that answers with the JSON text of a well-formed response, in any
      chunking, has that response returned. */
  lemma GetOciManifestAnswer(host: Host, image: Value, r: ManifestResponse)
    requires IsJson(image) && WellFormed(r)
    requires HostSucceeds(host, OciManifestAt, image)
    requires ReadAll(host(OciManifestAt, Serialize(image).value).reply) == Serialize(ResponseValue(r)).value
    ensures GetOciManifest(host, image).result == Success(r)
  {
    FromJsonOfResponse(r);
    var text := Stringify(ResponseValue(r)).value;
    assert FirstOfValue(text[0]);
    DecodeEncode(text);
  }
}
