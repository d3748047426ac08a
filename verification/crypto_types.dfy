/** Certificates as the crypto host capability exchanges them
    (js/kubewarden/host_capabilities/crypto/types.ts): an encoding tag and
    the certificate's text as UTF-8 bytes. */
module CryptoTypes {
  import opened Wrappers
  import opened Utf8
  import opened JsValues

  datatype CertificateEncoding = Der | Pem

  /** `Certificate`; `data` holds the UTF-8 bytes of the certificate text. */
  datatype Certificate = Certificate(encoding: CertificateEncoding, data: seq<byte>)

  /** The string literal type member naming an encoding. */
  function EncodingName(e: CertificateEncoding): (name: string)
    ensures name == "Der" || name == "Pem"
    ensures name == "Der" <==> e.Der?
  {
    match e
    case Der => "Der"
    case Pem => "Pem"
  }

  /** A byte array as the JavaScript array of numbers `Array.from` makes of it. */
  function BytesValue(b: seq<byte>): (items: seq<Value>)
    ensures |items| == |b|
    ensures forall i :: 0 <= i < |b| ==> items[i] == Num(b[i] as int)
    ensures AllJson(items)
  {
    if b == [] then [] else [Num(b[0] as int)] + BytesValue(b[1..])
  }

  /** The object `JSON.stringify` sees for a certificate. */
  function CertificateValue(c: Certificate): (v: Value)
    ensures IsJson(v)
    ensures v.Obj? && Keys(v.fields) == ["encoding", "data"]
  {
    var fields := [Field("encoding", Str(EncodingName(c.encoding))), Field("data", Arr(BytesValue(c.data)))];
    assert AllFieldsJson(fields[1..][1..]);
    assert IsJson(fields[1].value) && AllFieldsJson(fields[1..]);
    assert IsJson(fields[0].value);
    Obj(fields)
  }

  /** A list of certificates as a JavaScript array. */
  function CertificatesValue(cs: seq<Certificate>): (items: seq<Value>)
    ensures |items| == |cs|
    ensures forall i :: 0 <= i < |cs| ==> items[i] == CertificateValue(cs[i])
    ensures AllJson(items)
  {
    if cs == [] then [] else [CertificateValue(cs[0])] + CertificatesValue(cs[1..])
  }

  /** The JSON form loses nothing: different certificates are different objects. */
  lemma CertificateValueInjective(c: Certificate, d: Certificate)
    requires CertificateValue(c) == CertificateValue(d)
    ensures c == d
  {
    assert |c.data| == |d.data|;
    forall i | 0 <= i < |c.data| ensures c.data[i] == d.data[i] {
      assert BytesValue(c.data)[i] == BytesValue(d.data)[i];
    }
  }

  /** `CertificateUtils.fromString(s, encoding)`: the data is the UTF-8
      encoding of `s`. */
  function FromString(s: string, encoding: CertificateEncoding): (c: Certificate)
    ensures c.encoding == encoding
    ensures c.data == Encode(s)
    ensures DecodeLossy(c.data) == s
    ensures IsAscii(s) ==> |c.data| == |s|
  {
    DecodeLossyEncode(s);
    assert IsAscii(s) ==> |Encode(s)| == |s| by {
      if IsAscii(s) {
        EncodeAscii(s);
      }
    }
    Certificate(encoding, Encode(s))
  }

  /** `CertificateUtils.toString(cert)` as written: a default `TextDecoder`,
      which drops a leading byte-order mark.  It returns the text whose
      encoding the data is, unless that text starts with a byte-order mark. */
  function ToString(cert: Certificate): (s: string)
    ensures forall t :: cert.data == Encode(t) && (t == [] || t[0] != ByteOrderMark) ==> s == t
  {
    assert forall t :: cert.data == Encode(t) && (t == [] || t[0] != ByteOrderMark) ==> Decode(cert.data) == t by {
      forall t | cert.data == Encode(t) && (t == [] || t[0] != ByteOrderMark)
        ensures Decode(cert.data) == t
      {
        DecodeEncode(t);
      }
    }
    Decode(cert.data)
  }

  /** The certificate text made of a byte-order mark alone does not survive
      `toString(fromString(_))`: it comes back empty. */
  lemma ToStringDropsMark()
    ensures ToString(FromString([ByteOrderMark], Pem)) == ""
    ensures ToString(FromString([ByteOrderMark], Pem)) != [ByteOrderMark]
  {
    var n := ByteOrderMark as int;
    assert n / 4096 == 15 && (n / 64) % 64 == 0x3B && n % 64 == 0x3F;
    assert EncodeChar(ByteOrderMark) == [0xEF, 0xBB, 0xBF];
    assert Encode([ByteOrderMark]) == EncodeChar(ByteOrderMark) + Encode([]);
    assert Encode([ByteOrderMark])[3..] == [];
  }

  /** `toString` decoding with `ignoreBOM: true`: it returns exactly the
      text whose encoding the data is. */
  function ToStringExact(cert: Certificate): (s: string)
    ensures forall t :: cert.data == Encode(t) ==> s == t
  {
    assert forall t :: cert.data == Encode(t) ==> DecodeLossy(cert.data) == t by {
      forall t | cert.data == Encode(t) ensures DecodeLossy(cert.data) == t {
        DecodeLossyEncode(t);
      }
    }
    DecodeLossy(cert.data)
  }

  /** With the byte-order mark kept, every certificate text round-trips. */
  lemma CertificateTextRoundTrip(s: string, encoding: CertificateEncoding)
    ensures ToStringExact(FromString(s, encoding)) == s
    ensures s == [] || s[0] != ByteOrderMark ==> ToString(FromString(s, encoding)) == s
  {
  }
}
