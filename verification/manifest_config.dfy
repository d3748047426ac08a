/** `ManifestConfig.getOCIManifestAndConfig`
    (js/kubewarden/host_capabilities/oci/manifest_config/manifest_config.ts). */
module ManifestConfig {
  import opened Wrappers
  import opened JsValues
  import opened JsonText
  import opened Effects
  import opened Protocol
  import opened HostCalls

  const ManifestConfigAt: Address := Kubewarden("oci", "v1/oci_manifest_config")

  /** `getOCIManifestAndConfig(image)`: the parsed answer
      (`{manifest, digest, config}`), returned without inspection. */
  function GetOciManifestAndConfig(host: Host, image: Value): (o: Outcome<Value>)
    ensures Writes(o.effects) == 0 && Invocations(o.effects) == (if IsJson(image) then 1 else 0)
    ensures IsJson(image) ==> o.effects[0] == Invoke(ManifestConfigAt, Serialize(image).value)
    ensures !IsJson(image) ==> o.result == Failure(Rethrown("Cannot serialize image URI to JSON", Stringify(image).error))
    ensures (IsJson(image) && !HostSucceeds(host, ManifestConfigAt, image)) ==> o.result == Failure(HostCallFailed)
    ensures (IsJson(image) && HostSucceeds(host, ManifestConfigAt, image))
            ==> o.result == match ReplyValue(host, ManifestConfigAt, image)
                            case Failure(e) => Failure(Rethrown("Failed to parse response from the host", e))
                            case Success(response) => Success(response)
  {
    JsonExchange(host, ManifestConfigAt, image,
                 Some("Cannot serialize image URI to JSON"), Some("Failed to parse response from the host"))
  }

  /** A host answering with the JSON text of `v` has `v` returned. */
  lemma ManifestAndConfigAnswer(host: Host, image: Value, v: Value)
    requires IsJson(image) && IsJson(v) && HostSucceeds(host, ManifestConfigAt, image)
    requires ReadAll(host(ManifestConfigAt, Serialize(image).value).reply) == Serialize(v).value
    ensures GetOciManifestAndConfig(host, image).result == Success(v)
  {
    ReplyOfJson(host, ManifestConfigAt, image, v);
  }
}
