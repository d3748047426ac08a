/** The answer of the `v1/oci_manifest` capability
    (js/kubewarden/host_capabilities/oci/manifest/types.ts): either an image
    manifest or an image index, told apart by their media types. */
module ManifestTypes {
  import opened Wrappers
  import opened JsValues
  import opened JsonText
  import opened JsonRoundTrip

  /** The OCI media types (OCI image specification, media types). */
  const MediaTypeImageIndex: string := "application/vnd.oci.image.index.v1+json"
  const MediaTypeImageManifest: string := "application/vnd.oci.image.manifest.v1+json"
  /** The Docker registry media types. */
  const DockerManifestList: string := "application/vnd.docker.distribution.manifest.list.v2+json"
  const DockerManifest: string := "application/vnd.docker.distribution.manifest.v2+json"

  /** `isImageMediaType`: strictly equal to one of the two image manifest types. */
  predicate IsImageMediaType(mediaType: Option<Value>) {
    mediaType == Some(Str(MediaTypeImageManifest)) || mediaType == Some(Str(DockerManifest))
  }

  /** `isImageIndexMediaType`: strictly equal to one of the two index types. */
  predicate IsImageIndexMediaType(mediaType: Option<Value>) {
    mediaType == Some(Str(MediaTypeImageIndex)) || mediaType == Some(Str(DockerManifestList))
  }

  /** `OciImageManifestResponseImpl`: `image` and `index` are what the
      accessors `imageManifest()` and `indexManifest()` return. */
  datatype ManifestResponse = ManifestResponse(image: Option<Value>, index: Option<Value>)

  const CannotDecode: JsError := Fail("Cannot decode response")

  /** The property `key` of an object, if it has one.  An array has no
      property named like a manifest key. */
  function Property(data: Value, key: string): Option<Value> {
    if data.Obj? then Lookup(data.fields, key) else None
  }

  /** The body of the `try` block in `fromJSON`, after parsing.  The `in`
      tests throw unless the data is an object (or array); a candidate with a
      truthy, matching `mediaType` is taken, image first; reading `mediaType`
      of a `null` candidate throws. */
  function Select(data: Value): (r: Result<ManifestResponse, JsError>)
  {
    if !(data.Obj? || data.Arr?) then Failure(JsError("TypeError", "cannot use 'in' operator to search for 'image'"))
    else
      var image := Property(data, "image");
      var imageType :- if image.Some? then Get(image, "mediaType") else Success(None);
      if image.Some? && Truthy(imageType) && IsImageMediaType(imageType) then
        Success(ManifestResponse(image, None))
      else
        var index := Property(data, "index");
        var indexType :- if index.Some? then Get(index, "mediaType") else Success(None);
        if index.Some? && Truthy(indexType) && IsImageIndexMediaType(indexType) then
          Success(ManifestResponse(None, index))
        else
          Failure(CannotDecode)
  }

  /** `OciImageManifestResponseImpl.fromJSON(json)`: every failure, whether in
      parsing or in selecting, becomes `Cannot decode response`. */
  function FromJson(json: string): (r: Result<ManifestResponse, JsError>)
    ensures r.Failure? ==> r.error == CannotDecode
    ensures r.Success? ==> (r.value.image.Some? <==> r.value.index.None?)
  {
    match Parse(json)
    case Failure(_) => Failure(CannotDecode)
    case Success(data) =>
      match Select(data)
      case Failure(_) => Failure(CannotDecode)
      case Success(response) => Success(response)
  }

  // ---------------------------------------------------------------------------
  // What `fromJSON` accepts
  // ---------------------------------------------------------------------------

  /** The media type of a candidate manifest, read as `candidate.mediaType`
      reads it from something that is not `null`. */
  function MediaTypeOf(candidate: Value): Option<Value> {
    if candidate.Obj? then Lookup(candidate.fields, "mediaType") else None
  }

  predicate IsImageManifest(candidate: Value) {
    candidate.Obj? && IsImageMediaType(MediaTypeOf(candidate))
  }

  predicate IsIndexManifest(candidate: Value) {
    candidate.Obj? && IsImageIndexMediaType(MediaTypeOf(candidate))
  }

  /** Reference definition of what `fromJSON` makes of parsed data. */
  function Selected(data: Value): Result<ManifestResponse, JsError> {
    var image := Property(data, "image");
    var index := Property(data, "index");
    if !(data.Obj? || data.Arr?) then Failure(CannotDecode)
    else if image == Some(Null) then Failure(CannotDecode)
    else if image.Some? && IsImageManifest(image.value) then Success(ManifestResponse(image, None))
    else if index == Some(Null) then Failure(CannotDecode)
    else if index.Some? && IsIndexManifest(index.value) then Success(ManifestResponse(None, index))
    else Failure(CannotDecode)
  }

  lemma ImageTypeTruthy(t: Option<Value>)
    requires IsImageMediaType(t) || IsImageIndexMediaType(t)
    ensures Truthy(t)
  {
  }

  /** Reading `mediaType` of a candidate that is not `null` finds its media type. */
  lemma MediaTypeRead(candidate: Value)
    requires candidate != Null
    ensures Get(Some(candidate), "mediaType") == Success(MediaTypeOf(candidate))
  {
    assert "mediaType" != "length";
  }

  /** A truthy image media type is exactly what makes an image manifest. */
  lemma ImageChoice(candidate: Value)
    ensures Truthy(MediaTypeOf(candidate)) && IsImageMediaType(MediaTypeOf(candidate)) <==> IsImageManifest(candidate)
  {
    if IsImageMediaType(MediaTypeOf(candidate)) {
      ImageTypeTruthy(MediaTypeOf(candidate));
    }
  }

  /** A truthy index media type is exactly what makes an image index. */
  lemma IndexChoice(candidate: Value)
    ensures Truthy(MediaTypeOf(candidate)) && IsImageIndexMediaType(MediaTypeOf(candidate)) <==> IsIndexManifest(candidate)
  {
    if IsImageIndexMediaType(MediaTypeOf(candidate)) {
      ImageTypeTruthy(MediaTypeOf(candidate));
    }
  }

  /** `Select` agrees with the reference definition, error texts aside. */
  lemma SelectMatches(data: Value)
    ensures Select(data).Success? <==> Selected(data).Success?
    ensures Select(data).Success? ==> Select(data) == Selected(data)
  {
    var image := Property(data, "image");
    if image.Some? && image.value != Null {
      MediaTypeRead(image.value);
      ImageChoice(image.value);
    }
    var index := Property(data, "index");
    if index.Some? && index.value != Null {
      MediaTypeRead(index.value);
      IndexChoice(index.value);
    }
  }

  /** `fromJSON` succeeds exactly when the text parses and the reference
      definition selects a manifest, and it then returns that selection. */
  lemma FromJsonSelects(json: string)
    ensures FromJson(json).Success? <==> Parse(json).Success? && Selected(Parse(json).value).Success?
    ensures FromJson(json).Success? ==> FromJson(json) == Selected(Parse(json).value)
  {
    if Parse(json).Success? {
      SelectMatches(Parse(json).value);
    }
  }

  /** An image manifest with a recognised media type wins over any index. */
  lemma ImageWins(data: Value)
    requires data.Obj?
    requires Property(data, "image").Some? && IsImageManifest(Property(data, "image").value)
    ensures Select(data) == Success(ManifestResponse(Property(data, "image"), None))
  {
    SelectMatches(data);
  }

  /** An image candidate that is not `null` but is not a recognised image
      manifest does not stop the index from being selected. */
  lemma IndexFallThrough(data: Value)
    requires data.Obj?
    requires Property(data, "image") != Some(Null)
    requires Property(data, "image").None? || !IsImageManifest(Property(data, "image").value)
    requires Property(data, "index").Some? && IsIndexManifest(Property(data, "index").value)
    ensures Select(data) == Success(ManifestResponse(None, Property(data, "index")))
  {
    SelectMatches(data);
  }

  /** The JSON object of a response: `JSON.stringify` leaves out an
      undefined property. */
  function ResponseValue(r: ManifestResponse): (v: Value)
    ensures v.Obj?
    ensures WellFormed(r) ==> IsJson(v)
  {
    var members := [("image", r.image), ("index", r.index)];
    ObjectOfJson(members);
    ObjectOf(members)
  }

  /** A response `fromJSON` can return. */
  predicate WellFormed(r: ManifestResponse) {
    (r.image.Some? && r.index.None? && IsJson(r.image.value) && IsImageManifest(r.image.value))
    || (r.image.None? && r.index.Some? && IsJson(r.index.value) && IsIndexManifest(r.index.value))
  }

  /** A well-formed response writes as an object with its one member. */
  lemma ResponseValueShape(r: ManifestResponse)
    requires WellFormed(r)
    ensures r.image.Some? ==> ResponseValue(r) == Obj([Field("image", r.image.value)])
    ensures r.image.None? ==> ResponseValue(r) == Obj([Field("index", r.index.value)])
  {
    var members := [("image", r.image), ("index", r.index)];
    assert members[1..] == [("index", r.index)] && members[1..][1..] == [];
    assert ObjectOf(members[1..][1..]) == Obj([]);
    if r.image.Some? {
      assert ObjectOf(members[1..]) == Obj([]);
    } else {
      assert ObjectOf(members[1..]) == Obj([Field("index", r.index.value)] + []);
    }
  }

  /** The reference selection picks a well-formed response back out of its object. */
  lemma SelectedOfResponse(r: ManifestResponse)
    requires WellFormed(r)
    ensures Selected(ResponseValue(r)) == Success(r)
  {
    ResponseValueShape(r);
  }

  /** Decoding the JSON text of a well-formed response gives it back. */
  lemma FromJsonOfResponse(r: ManifestResponse)
    requires WellFormed(r)
    ensures Stringify(ResponseValue(r)).Success?
    ensures FromJson(Stringify(ResponseValue(r)).value) == Success(r)
  {
    var v := ResponseValue(r);
    ParseStringify(v);
    FromJsonSelects(Stringify(v).value);
    SelectedOfResponse(r);
  }

  /** Whatever `fromJSON` returns is a response it would accept again. */
  lemma FromJsonWellFormed(json: string)
    requires FromJson(json).Success?
    ensures WellFormed(FromJson(json).value)
  {
    FromJsonSelects(json);
    var data := Parse(json).value;
    LookupJson(data.fields, "image");
    LookupJson(data.fields, "index");
  }
}
