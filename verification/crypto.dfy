/** `Crypto.verifyCert` (js/kubewarden/host_capabilities/crypto/crypto.ts). */
module Crypto {
  import opened Wrappers
  import opened JsValues
  import opened JsonText
  import opened Effects
  import opened Protocol
  import opened HostCalls
  import opened CryptoTypes

  const VerifyCertAt: Address := Kubewarden("crypto", "v1/is_certificate_trusted")

  /** `not_after` as an optional string member. */
  function NotAfterValue(notAfter: Option<string>): (v: Option<Value>)
    ensures v.Some? <==> notAfter.Some?
    ensures notAfter.Some? ==> v.value == Str(notAfter.value)
  {
    match notAfter
    case None => None
    case Some(t) => Some(Str(t))
  }

  /** The request object: `cert` and `cert_chain`, then `not_after` only
      when one is given. */
  function VerifyCertRequest(cert: Certificate, certChain: seq<Certificate>, notAfter: Option<string>): (v: Value)
    ensures IsJson(v) && v.Obj?
    ensures Keys(v.fields) == ["cert", "cert_chain"] + (if notAfter.Some? then ["not_after"] else [])
    ensures Lookup(v.fields, "cert") == Some(CertificateValue(cert))
    ensures Lookup(v.fields, "cert_chain") == Some(Arr(CertificatesValue(certChain)))
    ensures Lookup(v.fields, "not_after") == NotAfterValue(notAfter)
  {
    var base := [Field("cert", CertificateValue(cert)), Field("cert_chain", Arr(CertificatesValue(certChain)))];
    assert AllFieldsJson(base) by {
      assert AllFieldsJson(base[1..][1..]);
      assert AllFieldsJson(base[1..]);
    }
    match notAfter
    case None =>
      assert base[..1] == [base[0]];
      Obj(base)
    case Some(t) =>
      var fields := base + [Field("not_after", Str(t))];
      assert fields[1..] == [base[1], fields[2]] && fields[1..][1..] == [fields[2]];
      assert AllFieldsJson(fields) by {
        assert fields[1..][1..][1..] == [];
        assert AllFieldsJson(fields[1..][1..]);
        assert AllFieldsJson(fields[1..]);
      }
      assert fields[..2] == base && base[..1] == [base[0]];
      Obj(fields)
  }

  /** `verifyCert(cert, certChain, notAfter)`: the request always
      serialises, so the host is called once; its answer is parsed and
      returned as is, and a decoding or parsing error is rethrown. */
  function VerifyCert(host: Host, cert: Certificate, certChain: seq<Certificate>, notAfter: Option<string>): (o: Outcome<Value>)
    ensures var request := VerifyCertRequest(cert, certChain, notAfter);
      && Writes(o.effects) == 0 && Invocations(o.effects) == 1
      && o.effects[0] == Invoke(VerifyCertAt, Serialize(request).value)
      && (!HostSucceeds(host, VerifyCertAt, request) ==> o.result == Failure(HostCallFailed))
      && (HostSucceeds(host, VerifyCertAt, request) ==>
            o.result == match ReplyValue(host, VerifyCertAt, request)
                        case Failure(e) => Failure(Rethrown("Failed to decode or parse certificate verification response", e))
                        case Success(v) => Success(v))
  {
    JsonExchange(host, VerifyCertAt, VerifyCertRequest(cert, certChain, notAfter),
                 Some("Cannot serialize CertificateVerificationRequest"),
                 Some("Failed to decode or parse certificate verification response"))
  }

  /** The host reads back exactly the request, and a host answering with the
      JSON text of `answer` has `answer` returned. */
  lemma VerifyCertAnswer(host: Host, cert: Certificate, certChain: seq<Certificate>, notAfter: Option<string>, answer: Value)
    requires IsJson(answer)
    requires var payload := Serialize(VerifyCertRequest(cert, certChain, notAfter)).value;
      Successful(host(VerifyCertAt, payload).status)
      && ReadAll(host(VerifyCertAt, payload).reply) == Serialize(answer).value
    ensures var o := VerifyCert(host, cert, certChain, notAfter);
      Deserialize(o.effects[0].payload) == Success(VerifyCertRequest(cert, certChain, notAfter))
      && o.result == Success(answer)
  {
    DeserializeSerialize(VerifyCertRequest(cert, certChain, notAfter));
    DeserializeSerialize(answer);
  }
}
