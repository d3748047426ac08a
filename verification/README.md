# Kubewarden JavaScript policy SDK, guest side

A Kubewarden policy written in TypeScript runs inside a WebAssembly guest. It
talks to the host in three ways:

- It reads the admission request from standard input, in chunks, until a read
  returns nothing.
- It writes exactly one JSON response to standard output.
- It calls host capabilities through `__hostCall(binding, namespace, operation,
  payload)`. The capabilities are OCI manifest, digest and config lookups,
  DNS, Kubernetes reads and access reviews, sigstore verification and
  certificate trust. Each answer is read back from standard input.

This project models that guest side. It covers:

- the byte protocol (`readInput`, `writeOutput`);
- the host-call wrapper and every capability wrapper built on it;
- the validation response types;
- the demo policy: its settings class, its scenario handlers in both the
  newer (`demo_policy/`) and older (`js/demo_policy/`) versions, its
  privileged-container rule, and the top-level action dispatch of
  `js/demo_policy/main.ts`.

The host is a parameter: a total function from an address and a payload to
a status and the chunks the guest will read back. Every operation returns an
`Outcome`, which is a result plus the trace of effects it caused:

- invocations of the host;
- reads of standard input;
- writes to standard output;
- error log lines.

So "exactly one call", "the call precedes the read of its answer" and "exactly
one response is written" are stated and proved as properties of that trace.

The JavaScript values the code passes around, including its `any`-typed
request objects, are a `Value` datatype:

- `null`, booleans, integers, strings, arrays, and objects with ordered
  members;
- a value that `JSON.stringify` rejects.

`undefined` is `None`. Property reads, `?.`, `||`, truthiness, `includes`,
`join`, `toString` and strict equality follow JavaScript's rules. Errors are
`JsError(name, message)` values, so a `throw` is a `Failure` and a
`try`/`catch` is an explicit match. `JSON.stringify` and `JSON.parse` are
modelled on these values (`JsonText`), and `TextEncoder`/`TextDecoder` as
UTF-8 (`Utf8`). Both are proved to round-trip.

Modules follow the source:

| Module | Models |
|---|---|
| `Protocol` | js/protocol.ts |
| `HostCalls` | js/kubewarden/host_capabilities/index.ts, plus the shared serialise, call and parse pattern |
| `Validation` | js/kubewarden/validation.ts |
| `ManifestTypes` | js/kubewarden/host_capabilities/oci/manifest/types.ts |
| `Manifest` | js/kubewarden/host_capabilities/oci/manifest/manifest.ts |
| `ManifestDigest` | js/kubewarden/host_capabilities/oci/manifest_digest/manifest_digest.ts |
| `ManifestConfig` | js/kubewarden/host_capabilities/oci/manifest_config/manifest_config.ts |
| `Network` | js/kubewarden/host_capabilities/net/network.ts |
| `Kubernetes` | js/kubewarden/host_capabilities/kubernetes/kubernetes.ts |
| `CryptoTypes` | js/kubewarden/host_capabilities/crypto/types.ts |
| `Crypto` | js/kubewarden/host_capabilities/crypto/crypto.ts |
| `Verifier` | js/kubewarden/host_capabilities/oci/verify_v2/verifier.ts |
| `Settings` | both policy_settings.ts files |
| `Privileged` | the two `handlePrivilegedContainerValidation` rules |
| `Scenarios` | demo_policy/test_scenarios.ts |
| `DemoMain` | js/demo_policy/main.ts |

## Model

| member | source | states |
|---|---|---|
| Protocol.ReadChunks | js/protocol.ts:19-30 | The loop keeps exactly the chunks before the first empty read and counts their total length. It calls the read once more than there are chunks. |
| Protocol.Assemble | js/protocol.ts:33-40 | Copying each chunk at the running offset into a buffer of the total size yields the chunks' concatenation. |
| Protocol.ReadInput | js/protocol.ts:13-43 | `readInput` returns every byte delivered before the first empty read, whatever the chunking. |
| Protocol.ReadAllPrefix | js/protocol.ts:19-30 | What is read equals the concatenation of the chunks up to the end of input. |
| Protocol.ReadAllSplit | js/protocol.ts:13-43 | Any byte string delivered as non-empty chunks is read back unchanged. |
| Protocol.ReadAllStopsAtEnd | js/protocol.ts:26-28 | Nothing after the first empty read is ever read. |
| Protocol.WriteOutput | js/protocol.ts:51-57 | Exactly one write happens when the value serialises. Otherwise a TypeError is thrown and nothing is written. |
| Protocol.OutputReadsBack | js/protocol.ts:51-57 | The bytes written, decoded and parsed, give back the value written. |
| Utf8.EncodeChar | js/protocol.ts:52 | A character encodes to one to four bytes, and to one byte exactly when it is ASCII. |
| Utf8.DecodeFirstOfEncodeChar | js/kubewarden/validation.ts:143 | The decoder reads back the encoded character and consumes exactly its bytes. |
| Utf8.EncodeAppend | js/protocol.ts:52 | Encoding distributes over concatenation. |
| Utf8.DecodeLossyEncode | js/kubewarden/validation.ts:143 | Decoding that keeps a byte-order mark inverts encoding for every text. |
| Utf8.EncodeStartsWithMark | js/kubewarden/validation.ts:143 | Encoded text starts with the bytes EF BB BF only when the text starts with U+FEFF. |
| Utf8.DecodeEncode | js/kubewarden/validation.ts:143 | The default `TextDecoder` inverts `TextEncoder` on every text that does not start with U+FEFF. |
| Utf8.EncodeAscii | js/kubewarden/host_capabilities/crypto/types.ts:52 | ASCII text encodes to one byte per character, with the same code. |
| JsonText.Stringify | js/protocol.ts:52 | `JSON.stringify` succeeds exactly on JSON values and throws a TypeError otherwise. |
| JsonText.Parse | js/kubewarden/validation.ts:144 | `JSON.parse` only ever yields JSON values. |
| JsonRoundTrip.StringRoundTrip | js/protocol.ts:52 | An escaped string, followed by a closing quote, parses back to the same string and leaves the rest of the input alone. |
| JsonRoundTrip.NumberRoundTrip | js/protocol.ts:52 | Every integer's text parses back to that integer. |
| JsonRoundTrip.ValueRoundTrip | js/protocol.ts:52 | Every JSON value's text parses back to the value, followed by any text that does not continue a number. |
| JsonRoundTrip.ParseStringify | js/kubewarden/validation.ts:142-145 | `JSON.parse(JSON.stringify(v))` is `v` for every value that serialises. |
| JsonRoundTrip.EscapePlain | js/protocol.ts:52 | A string with no quote, backslash or control character is written without change. |
| JsValues.Lookup | js/kubewarden/validation.ts:144 | A property is undefined exactly when no member has that key. Otherwise the value is a member's value under that key. |
| JsValues.LookupField | js/kubewarden/validation.ts:144 | With distinct keys, each member is found under its own key. |
| JsValues.ObjectOf | js/kubewarden/validation.ts:73-87 | An object literal drops its `undefined` members and never gains any. |
| JsValues.ObjectOfJson | js/kubewarden/validation.ts:73-87 | An object literal serialises exactly when every member it keeps does. |
| JsValues.ObjectOfLookup | js/kubewarden/validation.ts:73-87 | Reading a key of an object literal gives the last member written under that key, or `undefined`. |
| JsValues.MemberLookupAt | js/kubewarden/validation.ts:73-87 | With distinct names, each literal member is read back as given. |
| JsValues.Get | js/demo_policy/main.ts:152 | Reading a property throws exactly when the base is `null` or `undefined`. |
| JsValues.OptGet | demo_policy/test_scenarios.ts:118 | `?.` never throws, and on `null` or `undefined` it yields `undefined`. |
| JsValues.Or | demo_policy/policy_settings.ts:8 | `a \|\| b` is `a` when `a` is truthy and `b` otherwise. |
| JsValues.OrEmptyString | demo_policy/test_scenarios.ts:27 | `s \|\| ''` is `s` for every string, the empty one included. |
| JsValues.Join | demo_policy/test_scenarios.ts:56 | `join` returns exactly for arrays. On anything else it throws. |
| JsValues.ToStringCall | demo_policy/test_scenarios.ts:301-327 | `toString()` throws exactly on `null` or `undefined`, and gives "true" or "false" for booleans. |
| JsValues.Includes | demo_policy/test_scenarios.ts:111 | On an array, `?.includes` is strict membership of a primitive. On a string it is substring search. On `null` or `undefined` it is `undefined`. On other values it throws. |
| Effects.CountsAppend | js/kubewarden/host_capabilities/index.ts:23-24 | Host calls and writes of a trace add up over concatenation. |
| HostCalls.HostCall | js/kubewarden/host_capabilities/index.ts:17-33 | The call succeeds exactly when the host reports success, and then returns the bytes read back. Otherwise it throws "Host call failed", after reading and logging the answer. |
| HostCalls.HostCallOnce | js/kubewarden/host_capabilities/index.ts:23-24 | The host is invoked exactly once, before its answer is read, and nothing is written. |
| HostCalls.PolicyAction | js/demo_policy/main.ts:186 | The action is the single argument after the program name. Any other argument count throws. |
| HostCalls.Serialize | js/kubewarden/host_capabilities/crypto/crypto.ts:38-43 | A request serialises to bytes exactly when it is a JSON value. |
| HostCalls.DeserializeSerialize | js/kubewarden/host_capabilities/crypto/crypto.ts:52-54 | Decoding and parsing the serialised bytes gives back the request. |
| HostCalls.Rethrown | js/kubewarden/host_capabilities/crypto/crypto.ts:55-57 | The rethrown error's message is the context followed by the original error's text. |
| HostCalls.Exchange | js/kubewarden/host_capabilities/crypto/crypto.ts:38-57 | Serialise, call, decode and parse make one call with the serialised request. Serialisation errors make no call. Host failure propagates, and a parse failure is rethrown with context. |
| HostCalls.JsonExchange | js/kubewarden/host_capabilities/crypto/crypto.ts:38-57 | Returns exactly when the host succeeds and its answer parses, and then returns that parsed answer. |
| HostCalls.ReplyOfJson | js/kubewarden/host_capabilities/crypto/crypto.ts:52-54 | A host answering with the JSON text of a value has that value read back. |
| HostCalls.PayloadOfRequest | js/kubewarden/host_capabilities/crypto/crypto.ts:38-50 | The payload the host receives parses back to the request object. |
| Validation.ValidationValue | js/kubewarden/validation.ts:33-88 | A response becomes an object, which serialises exactly when its `accepted`, its message and its annotation values are all JSON values. |
| Validation.StringsRoundTrip | js/kubewarden/validation.ts:62 | An array of strings reads back as the same list. |
| Validation.MembersRoundTrip | js/kubewarden/validation.ts:78-85 | Annotations survive the object literal exactly when none of them is `undefined`. |
| Validation.ResponseRoundTrip | js/kubewarden/validation.ts:73-87 | Reading the written object back recovers the response whenever its annotations are all defined. |
| Validation.AcceptRequest | js/kubewarden/validation.ts:121-123 | The response accepts and sets nothing else. |
| Validation.RejectRequest | js/kubewarden/validation.ts:132-134 | The response rejects with the given message and code, and sets nothing else. |
| Validation.AcceptObject | js/kubewarden/validation.ts:121-123 | Acceptance is written as `{"accepted":true}`. |
| Validation.RejectObject | js/kubewarden/validation.ts:132-134 | A rejection without a code is written as `{"accepted":false,"message":m}`. |
| Validation.SettingsValue | js/kubewarden/validation.ts:8-28 | A settings response is an object whose `valid` is the flag and whose `message` is present exactly when given. |
| Validation.WriteResponse | js/demo_policy/main.ts:175 | Writing a response makes no host call. When the response serialises it writes once, and the written bytes read back as the response object. Otherwise it throws a TypeError and writes nothing. |
| Validation.WriteSettingsResponse | js/demo_policy/main.ts:180-183 | A settings response is always written once, and reads back as its object. |
| Validation.ReadValidationRequest | js/kubewarden/validation.ts:142-145 | A request that is read is a JSON value. |
| Validation.ReadWrittenRequest | js/kubewarden/validation.ts:142-145 | Standard input holding a request's JSON text reads back as that request. |
| ManifestTypes.FromJson | js/kubewarden/host_capabilities/oci/manifest/types.ts:26-46 | A decoded response holds exactly one of image and index. Every failure is "Cannot decode response". |
| ManifestTypes.SelectMatches | js/kubewarden/host_capabilities/oci/manifest/types.ts:30-42 | The branch order agrees with an independent selection: an image with an image media type, else an index with an index media type, else an error. |
| ManifestTypes.FromJsonSelects | js/kubewarden/host_capabilities/oci/manifest/types.ts:26-46 | `fromJSON` returns exactly when the text parses and the selection succeeds, and then returns that selection. |
| ManifestTypes.ImageWins | js/kubewarden/host_capabilities/oci/manifest/types.ts:30-35 | A valid image is chosen even when an index is present. |
| ManifestTypes.IndexFallThrough | js/kubewarden/host_capabilities/oci/manifest/types.ts:36-41 | Without a valid image, a valid index is chosen. |
| ManifestTypes.ImageTypeTruthy | js/kubewarden/host_capabilities/oci/manifest/types.ts:49-61 | Every accepted media type is truthy, so the guard's truthiness test never decides. |
| ManifestTypes.ResponseValue | js/kubewarden/host_capabilities/oci/manifest/types.ts:9-16 | A well-formed response is written as a JSON object. |
| ManifestTypes.FromJsonOfResponse | js/kubewarden/host_capabilities/oci/manifest/types.ts:26-46 | `fromJSON` of a well-formed response's JSON text gives back the response. |
| ManifestTypes.FromJsonWellFormed | js/kubewarden/host_capabilities/oci/manifest/types.ts:26-61 | Every decoded response is well-formed. |
| Manifest.GetOciManifest | js/kubewarden/host_capabilities/oci/manifest/manifest.ts:20-37 | One call to `v1/oci_manifest` with the image's JSON. The decoded answer is returned, and any decoding failure becomes the parse error. |
| Manifest.GetOciManifestAnswer | js/kubewarden/host_capabilities/oci/manifest/manifest.ts:20-37 | A host answering with a well-formed response has exactly that response returned. |
| ManifestDigest.GetOciManifestDigest | js/kubewarden/host_capabilities/oci/manifest_digest/manifest_digest.ts:15-42 | One call to `v1/manifest_digest`. The answer's `digest` property is returned, and a parse failure is rethrown with context. |
| ManifestDigest.DigestAnswer | js/kubewarden/host_capabilities/oci/manifest_digest/manifest_digest.ts:40 | A host answering `{"digest": d}` has `d` returned. |
| ManifestDigest.NullAnswer | js/kubewarden/host_capabilities/oci/manifest_digest/manifest_digest.ts:40 | A host answering `null` makes the `digest` read throw a TypeError. |
| ManifestConfig.GetOciManifestAndConfig | js/kubewarden/host_capabilities/oci/manifest_config/manifest_config.ts:15-41 | One call to `v1/oci_manifest_config`. The parsed answer is returned, and a parse failure is rethrown with context. |
| ManifestConfig.ManifestAndConfigAnswer | js/kubewarden/host_capabilities/oci/manifest_config/manifest_config.ts:15-41 | A host answering with a JSON value has it returned. |
| Network.DnsLookup | js/kubewarden/host_capabilities/net/network.ts:21-27 | One call to `v1/dns_lookup_host` with the hostname's JSON. The parsed answer is returned, and every error propagates uncaught. |
| Network.DnsLookupAnswer | js/kubewarden/host_capabilities/net/network.ts:21-27 | The host receives the hostname, and an answer sent as JSON is returned as is. |
| Kubernetes.ListResourcesByNamespace | js/kubewarden/host_capabilities/kubernetes/kubernetes.ts:16-37 | One call to `kubernetes/list_resources_by_namespace`. The parsed answer is returned, and errors are rethrown with their context. |
| Kubernetes.ListAllResources | js/kubewarden/host_capabilities/kubernetes/kubernetes.ts:39-60 | One call to `kubernetes/list_resources_all`, with the same error contexts. |
| Kubernetes.GetResource | js/kubewarden/host_capabilities/kubernetes/kubernetes.ts:62-78 | One call to `kubernetes/get_resource`, with the same error contexts. |
| Kubernetes.CanI | js/kubewarden/host_capabilities/kubernetes/kubernetes.ts:80-97 | One call to `kubernetes/can_i`, with the same error contexts. |
| Kubernetes.GetResourceTyped | js/kubewarden/host_capabilities/kubernetes/kubernetes.ts:62-78 | A typed request always serialises. The host reads it back, and the call returns exactly when the host succeeds and its answer parses. |
| Kubernetes.KubernetesAnswers | js/kubewarden/host_capabilities/kubernetes/kubernetes.ts:16-97 | Each of the four wrappers returns the host's JSON answer unchanged. |
| CryptoTypes.EncodingName | js/kubewarden/host_capabilities/crypto/types.ts:4 | The encoding tag is "Der" or "Pem", and "Der" exactly for DER. |
| CryptoTypes.BytesValue | js/kubewarden/host_capabilities/crypto/types.ts:52 | `Array.from` of bytes is the array of the same numbers, in order. |
| CryptoTypes.CertificateValue | js/kubewarden/host_capabilities/crypto/types.ts:10-13 | A certificate serialises as an object with `encoding`, then `data`. |
| CryptoTypes.CertificateValueInjective | js/kubewarden/host_capabilities/crypto/types.ts:10-13 | Different certificates serialise to different objects. |
| CryptoTypes.FromString | js/kubewarden/host_capabilities/crypto/types.ts:49-54 | The data is exactly the UTF-8 encoding of the text, which mark-keeping decoding turns back into the text; ASCII takes one byte per character, and the encoding tag is kept. |
| CryptoTypes.ToString | js/kubewarden/host_capabilities/crypto/types.ts:61-63 | Returns the text the data encodes, unless that text starts with a byte-order mark. |
| CryptoTypes.ToStringDropsMark | js/kubewarden/host_capabilities/crypto/types.ts:49-63 | The text made of U+FEFF alone comes back empty from `toString(fromString(_))`. |
| CryptoTypes.ToStringExact | js/kubewarden/host_capabilities/crypto/types.ts:61-63 | Decoding that keeps the mark returns exactly the text the data encodes. |
| CryptoTypes.CertificateTextRoundTrip | js/kubewarden/host_capabilities/crypto/types.ts:49-63 | `fromString` followed by exact decoding is the identity on every text. The source's `toString` is the identity on texts without a leading mark. |
| Crypto.NotAfterValue | js/kubewarden/host_capabilities/crypto/crypto.ts:33-36 | `not_after` is present exactly when given. |
| Crypto.VerifyCertRequest | js/kubewarden/host_capabilities/crypto/crypto.ts:24-36 | The request has `cert` and `cert_chain`, then `not_after` only when given, each holding its argument. |
| Crypto.VerifyCert | js/kubewarden/host_capabilities/crypto/crypto.ts:19-58 | One call to `v1/is_certificate_trusted` with the request. Host failure propagates, and a parse failure is rethrown with context. |
| Crypto.VerifyCertAnswer | js/kubewarden/host_capabilities/crypto/crypto.ts:19-58 | The host reads back the request, and a JSON answer is returned unchanged. |
| Verifier.TypeName | js/kubewarden/host_capabilities/oci/verify_v2/verifier.ts:50 | Each request carries one of the four sigstore type tags. |
| Verifier.TypeNameInjective | js/kubewarden/host_capabilities/oci/verify_v2/verifier.ts:44-132 | Different verification methods carry different tags. |
| Verifier.KeylessInfoValue | js/kubewarden/host_capabilities/oci/verify_v2/verifier.ts:67-80 | A keyless entry serialises as `{issuer, subject}`. |
| Verifier.KeylessPrefixInfoValue | js/kubewarden/host_capabilities/oci/verify_v2/verifier.ts:93-106 | A prefix entry serialises as `{issuer, url_prefix}`. |
| Verifier.RequestValue | js/kubewarden/host_capabilities/oci/verify_v2/verifier.ts:44-132 | Each method's request serialises with the member order of its literal. `repo` and `annotations` appear exactly when given. |
| Verifier.RequestKeys | js/kubewarden/host_capabilities/oci/verify_v2/verifier.ts:44-132 | The members of each literal, `undefined` ones dropped, have the listed keys. |
| Verifier.RequestDistinct | js/kubewarden/host_capabilities/oci/verify_v2/verifier.ts:44-132 | No request repeats a key. |
| Verifier.RequestMembers | js/kubewarden/host_capabilities/oci/verify_v2/verifier.ts:44-132 | Every request member reads back as its argument: type, image, trust material, `repo` and `annotations`. |
| Verifier.PerformVerify | js/kubewarden/host_capabilities/oci/verify_v2/verifier.ts:14-30 | One call to `v2/verify`. Every request serialises, host failure propagates, and a parse failure is rethrown with context. |
| Verifier.PerformVerifySends | js/kubewarden/host_capabilities/oci/verify_v2/verifier.ts:14-30 | The payload the host receives parses to an object carrying the request's `type`, `image`, method member and `annotations`, and for GitHub Actions the `repo` exactly when given. |
| Verifier.VerifyPubKeysImage | js/kubewarden/host_capabilities/oci/verify_v2/verifier.ts:44-57 | Sends a public-key request holding the image, keys and annotations. |
| Verifier.VerifyKeylessExactMatch | js/kubewarden/host_capabilities/oci/verify_v2/verifier.ts:67-80 | Sends a keyless request holding the issuer and subject pairs. |
| Verifier.VerifyKeylessPrefixMatch | js/kubewarden/host_capabilities/oci/verify_v2/verifier.ts:93-106 | Sends a keyless-prefix request holding the issuer and prefix pairs. |
| Verifier.VerifyKeylessGithubActions | js/kubewarden/host_capabilities/oci/verify_v2/verifier.ts:117-132 | Sends a GitHub Actions request holding the owner, and the `repo` member exactly when a repo is given. |
| Verifier.VerifyAnswer | js/kubewarden/host_capabilities/oci/verify_v2/verifier.ts:14-30 | The host reads back the request object, and a JSON answer is returned unchanged. |
| Verifier.PemToByteArray | js/kubewarden/host_capabilities/oci/verify_v2/verifier.ts:138-140 | The bytes are the data `fromString` stores for the text, that is its UTF-8 encoding; they decode back to the PEM text, one byte per character for ASCII. |
| Settings.NewPolicySettings | demo_policy/policy_settings.ts:7-41 | A null or undefined object throws a TypeError. A truthy scenario must be listed, or the constructor throws naming it. A falsy `ignoredNamespaces` becomes `[]`. |
| Settings.EveryListedScenario | demo_policy/policy_settings.ts:11-40 | Each listed scenario is accepted and kept. |
| Settings.NoScenarioAccepted | demo_policy/policy_settings.ts:38 | An absent or empty scenario never throws. |
| Settings.UnknownScenarioThrows | demo_policy/policy_settings.ts:38-40 | A non-empty unlisted scenario throws "Unknown testScenario: " followed by its name. |
| Settings.OlderListIsPrefix | js/demo_policy/policy_settings.ts:11-20 | The older list is the first eight of the newer list's 24 entries. |
| Settings.CanIOnlyInNewer | js/demo_policy/policy_settings.ts:22-24 | `can-i-success` is accepted by the newer class and rejected by the older. |
| Settings.ValidateSettings | demo_policy/policy_settings.ts:46-48 | Settings are always valid, with no message. |
| Settings.ValidateSettingsWritten | demo_policy/policy_settings.ts:46-48 | The settings response is written as `{"valid":true}`. |
| Privileged.CloneJson | demo_policy/test_scenarios.ts:116 | The deep copy returns exactly for JSON values, and returns the same value. An undefined object throws. |
| Privileged.Namespace | demo_policy/test_scenarios.ts:111 | The namespace is the request's namespace when truthy, else "". |
| Privileged.InIgnoredNamespace | demo_policy/test_scenarios.ts:111 | A missing list means not ignored. On an array it is membership of the namespace. |
| Privileged.PodObject | demo_policy/test_scenarios.ts:116 | A pod that is read is a JSON value. |
| Privileged.ContainerPrivileged | demo_policy/test_scenarios.ts:118 | A container throws exactly when it is null. Otherwise it answers whether its `securityContext.privileged` is truthy. |
| Privileged.SomePrivilegedExists | demo_policy/test_scenarios.ts:118 | Without null containers, `some` answers whether any container is privileged. |
| Privileged.SomePrivilegedNull | demo_policy/test_scenarios.ts:118 | A null container throws unless a privileged one comes before it. |
| Privileged.PodPrivileged | demo_policy/test_scenarios.ts:117-118 | A pod without spec or containers is not privileged, and an array of containers is tested in order. Containers that are not an array, or a null pod, throw. |
| Privileged.Decide | demo_policy/test_scenarios.ts:107-123 | An ignored namespace is accepted. Otherwise a pod that reads and is not privileged is accepted, the request is rejected exactly when the pod reads and is privileged, and the only answers are accept and that rejection. |
| Privileged.DecideOlder | js/demo_policy/main.ts:128-143 | A pod that is not privileged is accepted, and so is a privileged pod in an ignored namespace. A rejection happens exactly when the pod is privileged and its namespace is not ignored. |
| Privileged.OrderingsAgree | js/demo_policy/main.ts:128-143 | Given the same ignored list, the two orderings decide alike whenever both return. |
| Privileged.OrderingsDifferOnMissingPod | js/demo_policy/main.ts:129 | A request with no object in an ignored namespace is accepted by the newer rule, and throws in the older. |
| Privileged.IgnoredNamespaceAccepted | demo_policy/test_scenarios.ts:111-114 | Any request in a listed namespace is accepted, privileged or not. |
| Scenarios.Annotated | demo_policy/test_scenarios.ts:22-28 | The constructed response carries the acceptance, message and annotations given, and nothing else. |
| Scenarios.DigestVerdict | demo_policy/test_scenarios.ts:22-28 | Accepted exactly when the digest is truthy, with a message exactly when rejected. The `digest` annotation is the digest, or "". |
| Scenarios.DigestSuccess | demo_policy/test_scenarios.ts:19-29 | The lookup's single call and errors pass through, and a returned digest is judged by the verdict. |
| Scenarios.DigestSuccessAnswer | demo_policy/test_scenarios.ts:19-29 | A host answering `{"digest": d}` gives acceptance exactly when `d` is not empty. |
| Scenarios.DigestSuccessOfDigest | demo_policy/test_scenarios.ts:19-29 | A lookup returning the string `d` is accepted exactly when `d` is not empty, with `d` as the `digest` annotation. |
| Scenarios.DigestFailure | demo_policy/test_scenarios.ts:34-44 | Accepted exactly when the returned digest is falsy. Errors propagate. |
| Scenarios.IpsText | demo_policy/test_scenarios.ts:56 | The `ips` annotation is computed exactly when `ips` is an array. |
| Scenarios.DnsVerdict | demo_policy/test_scenarios.ts:50-57 | Returns exactly when `ips` is an array, and accepts exactly when it is non-empty. |
| Scenarios.DnsSuccess | demo_policy/test_scenarios.ts:49-58 | The lookup's call and errors pass through, and its `ips` are judged by the verdict. |
| Scenarios.DnsFailure | demo_policy/test_scenarios.ts:63-72 | Never accepts. For a non-null answer it returns exactly when `ips` is an array. Errors of the lookup propagate. |
| Scenarios.UnexpectedIps | demo_policy/test_scenarios.ts:64-71 | Never accepts. A null answer throws; otherwise a response is returned exactly when `ips` is an array. |
| Scenarios.ManifestSuccess | demo_policy/test_scenarios.ts:77-87 | A returned manifest is always accepted. Errors propagate. |
| Scenarios.ManifestFailure | demo_policy/test_scenarios.ts:92-102 | A returned manifest is never accepted. |
| Scenarios.TextIfTruthy | demo_policy/test_scenarios.ts:128-142 | A falsy member is written as "", and a truthy one as its JSON text. |
| Scenarios.ManifestAndConfigVerdict | demo_policy/test_scenarios.ts:128-161 | A null answer throws. Otherwise acceptance is decided by whether manifest and config are both present. |
| Scenarios.ManifestAndConfigSuccess | demo_policy/test_scenarios.ts:128-142 | Accepted exactly when both manifest and config are returned. |
| Scenarios.ManifestAndConfigFailure | demo_policy/test_scenarios.ts:147-161 | Accepted exactly when neither manifest nor config is returned. |
| Scenarios.NamespaceRequest | demo_policy/test_scenarios.ts:166-179 | The get-resource request is a JSON object. |
| Scenarios.GetResourceSuccess | demo_policy/test_scenarios.ts:166-179 | Accepts exactly when the namespace's `demo-namespace` label is the string "true", and otherwise rejects. |
| Scenarios.GetResourceFailure | demo_policy/test_scenarios.ts:184-193 | Whatever the answer, a rejection. |
| Scenarios.ItemCount | demo_policy/test_scenarios.ts:198-213 | `list?.items?.length \|\| 0` throws only on a null list read without `?.`, and counts the items of an array. |
| Scenarios.CountVerdict | demo_policy/test_scenarios.ts:198-255 | Returns only when the count can be read. It accepts exactly when the count is a positive number, and carries a message exactly when it rejects. |
| Scenarios.ListAllResourcesSuccess | demo_policy/test_scenarios.ts:198-213 | The listing's call and errors pass through, and its count is judged by the verdict. |
| Scenarios.ListAllResourcesFailure | demo_policy/test_scenarios.ts:218-231 | Never accepts. |
| Scenarios.ListResourcesByNamespaceSuccess | demo_policy/test_scenarios.ts:236-255 | The listing's call and errors pass through, and its count is judged by the verdict. |
| Scenarios.ListResourcesByNamespaceFailure | demo_policy/test_scenarios.ts:260-274 | Never accepts. |
| Scenarios.CreatePodsReview | demo_policy/test_scenarios.ts:279-296 | The access review, with its `undefined` members left out, serialises. |
| Scenarios.PermissionVerdict | demo_policy/test_scenarios.ts:279-296 | Returns exactly for a non-null answer. `accepted` is the answer's `allowed` as is, and `message` its `reason`. |
| Scenarios.CanISuccess | demo_policy/test_scenarios.ts:279-296 | The review's call and errors pass through, and its answer is judged by the verdict. |
| Scenarios.AllowedText | demo_policy/test_scenarios.ts:301-327 | `allowed?.toString() \|\| 'false'` is "true" for true, and "false" for false, null or undefined. |
| Scenarios.DenialVerdict | demo_policy/test_scenarios.ts:301-327 | Returns exactly for a non-null answer, and accepts exactly when `allowed` is the boolean false. |
| Scenarios.CanIFailure | demo_policy/test_scenarios.ts:301-327 | The review's call and errors pass through, and its answer is judged by the denial verdict. |
| Scenarios.TrustVerdict | demo_policy/test_scenarios.ts:333-374 | A null answer, or one without a verdict, throws. A success scenario passes `is_trusted` on as its acceptance, and a failure scenario accepts exactly when it is falsy. The message is left out exactly when the verdict is the expected one. |
| Scenarios.TrustVerdictOfAnswer | demo_policy/test_scenarios.ts:333-374 | For a boolean answer, the scenario accepts exactly when trust equals the expectation. |
| Scenarios.PubKeySuccess | demo_policy/test_scenarios.ts:333-351 | Sends the public-key request and judges the answer expecting trust. Errors propagate. |
| Scenarios.SignatureScenario | demo_policy/test_scenarios.ts:339-350 | The call's effects are kept and its error rethrown; an answer is judged by the trust verdict with the scenario's expectation and method. |
| Scenarios.PubKeyFailure | demo_policy/test_scenarios.ts:356-374 | Sends the public-key request and judges the answer expecting no trust. |
| Scenarios.KeylessExactSuccess | demo_policy/test_scenarios.ts:379-400 | Sends the keyless request and judges the answer expecting trust. |
| Scenarios.KeylessExactFailure | demo_policy/test_scenarios.ts:405-426 | Sends the keyless request and judges the answer expecting no trust. |
| Scenarios.KeylessPrefixSuccess | demo_policy/test_scenarios.ts:431-452 | Sends the prefix request and judges the answer expecting trust. |
| Scenarios.KeylessPrefixFailure | demo_policy/test_scenarios.ts:457-478 | Sends the prefix request and judges the answer expecting no trust. |
| Scenarios.GithubActionsSuccess | demo_policy/test_scenarios.ts:483-502 | Sends the GitHub Actions request with owner and the `repo` member, and judges the answer expecting trust. |
| Scenarios.GithubActionsFailure | demo_policy/test_scenarios.ts:507-526 | Sends the GitHub Actions request with owner and the `repo` member, and judges the answer expecting no trust. |
| Scenarios.TrustedCertificate | demo_policy/test_scenarios.ts:531-575 | The answer's `trusted` member is the acceptance. |
| Scenarios.Recover | demo_policy/test_scenarios.ts:531-575 | `try`/`catch`: the body's response, or the handler's response for the error thrown. |
| Scenarios.CertificateRejected | demo_policy/test_scenarios.ts:531-575 | A caught error rejects, and its text appears in the message and in the `reason` annotation. |
| Scenarios.CertificateSuccess | demo_policy/test_scenarios.ts:531-575 | Never throws. It verifies `certificate0` as PEM with an empty chain and the 2025 end date, and answers as the success response to that call. |
| Scenarios.CertificateSuccessOf | demo_policy/test_scenarios.ts:543-574 | Always returns. An error of the call, or of reading its answer, becomes the rejection that describes it; otherwise the answer's `trusted` decides. |
| Scenarios.UntrustedCertificate | demo_policy/test_scenarios.ts:580-615 | Accepts exactly when the answer's `trusted` is falsy. |
| Scenarios.ExpectedFailure | demo_policy/test_scenarios.ts:580-615 | A caught error accepts without a message, with its text in `reason`. |
| Scenarios.CertificateFailure | demo_policy/test_scenarios.ts:580-615 | Never throws. It verifies the invalid certificate with an empty chain and the 2020 end date, and answers as the failure response to that call. |
| Scenarios.CertificateFailureOf | demo_policy/test_scenarios.ts:590-614 | Always returns. An error of the call, or of reading its answer, is the expected failure and is accepted; otherwise a falsy `trusted` accepts. |
| DemoMain.DigestSuccessOlder | js/demo_policy/main.ts:25-40 | Never throws. A failed lookup rejects with an empty digest annotation, and otherwise the newer verdict applies. |
| DemoMain.DigestSuccessVersions | js/demo_policy/main.ts:28-32 | The older handler equals the newer whenever the newer returns, and returns when the newer throws. |
| DemoMain.DigestFailureOlder | js/demo_policy/main.ts:45-68 | Never throws and never accepts. A thrown error and a returned digest get different messages. |
| DemoMain.IpsOrEmpty | js/demo_policy/main.ts:74-79 | A failed lookup or a null answer gives `[]`. Otherwise it gives the answer's `ips`, or `[]` when falsy. |
| DemoMain.DnsSuccessOlder | js/demo_policy/main.ts:73-87 | A failed lookup counts as no addresses, and then the newer verdict applies. |
| DemoMain.DnsSuccessVersions | js/demo_policy/main.ts:74-79 | The older handler equals the newer whenever the newer returns. |
| DemoMain.DnsLookupFailed | js/demo_policy/main.ts:113-121 | The catch rejects, with the error's text in the message. |
| DemoMain.UnexpectedAddresses | js/demo_policy/main.ts:95-112 | The try body never accepts, and throws on a null answer. |
| DemoMain.DnsFailureOlder | js/demo_policy/main.ts:92-123 | Never throws and never accepts. An error gives the catch's response. |
| DemoMain.DnsFailureCaught | js/demo_policy/main.ts:93-122 | Never throws and never accepts. A failed lookup gives the catch's response carrying the error. |
| DemoMain.Respond | js/demo_policy/main.ts:151-173 | Responding never writes. A null request, or absent or null `settings` read at `settings.testScenario`, throws before any call. |
| DemoMain.UnlistedScenarioIsPrivilegedRule | js/demo_policy/main.ts:170-172 | A scenario the switch does not list runs the older privileged rule, with no host call. |
| DemoMain.FailureScenariosNeverAccept | js/demo_policy/main.ts:161-169 | The two failure scenarios of the switch always return, and never accept. |
| DemoMain.Validate | js/demo_policy/main.ts:150-176 | Standard input is read first on every path. Then either one write as the last effect, or an error with nothing written; an unreadable request leaves only that read. |
| DemoMain.WrongInvocation | js/demo_policy/main.ts:195 | The wrong-invocation response rejects with that message, and serialises. |
| DemoMain.Dispatched | js/demo_policy/main.ts:185-197 | The action dispatch writes once when it returns and never when it throws. A wrong argument count throws at once. |
| DemoMain.Run | js/demo_policy/main.ts:185-202 | The script never throws and writes exactly one response, last. Any error inside is answered with the wrong-invocation response. |
| DemoMain.Caught | js/demo_policy/main.ts:198-202 | An attempt that wrote its response is kept as it is; one that threw is followed by the single write of the wrong-invocation response. |
| DemoMain.ValidateSettingsAction | js/demo_policy/main.ts:191-192 | `validate-settings` writes `{"valid":true}` and calls no capability. |
| DemoMain.WrongInvocationWritten | js/demo_policy/main.ts:193-197 | An unknown action, or a wrong number of arguments, writes the wrong-invocation response and calls nothing. |
| DemoMain.UnreadableRequest | js/demo_policy/main.ts:198-201 | An unparseable request is answered with the wrong-invocation response, after the read of standard input and with no host call. |
| DemoMain.ValidateWithoutCalls | js/demo_policy/main.ts:150-176 | When responding calls no capability, `validate()` is exactly the read of standard input followed by the write of the response, or that read alone and the error. |
| DemoMain.PrivilegedRuleWritten | js/demo_policy/main.ts:150-202 | An unlisted scenario writes the privileged rule's verdict, or the wrong-invocation response when the rule throws, with no host call. |
| DemoMain.DecisionWritten | js/demo_policy/main.ts:150-176 | A request decided without a host call writes the decision, or the wrong-invocation response when deciding throws, and calls nothing. |

## Left out

- Numbers are integers. Fractions, exponents and the number formatting of `JSON.stringify` are not modelled, and the model's `JSON.parse` rejects them.
- JsValues.IsPositive: `x > 0` on a non-number is taken as false. JavaScript's coercion of strings and booleans in comparisons is not modelled.
- `JSON.parse` of an object with a repeated key keeps every member. Property reads return the last one, as JavaScript does, but the object is not collapsed.
- Utf8.DecodeFirst: an invalid byte sequence decodes to U+FFFD one byte at a time. The exact grouping of maximal subparts in the WHATWG decoder is not modelled, and only valid UTF-8 round trips are claimed.
- `console.error` output is not modelled. The host-call failure log is recorded as an effect, but the demo policy's diagnostic logging, including `JSON.stringify(settings)` at js/demo_policy/main.ts:155, is left out.
- The texts of engine errors, such as TypeError messages, are placeholders. Only their names and the SDK's own messages are exact.
- HostCalls.PolicyAction: the error thrown for a wrong argument count is a placeholder. The `policyAction` binding lives in the host plugin, which is not part of this model.
- The host is an oracle. What the real host answers, for example a manifest's fields or a DNS result, is not modelled beyond being bytes.
- js/main.ts, js/index.ts, the webpack and eslint configurations, and the test doubles are not part of this model.
- The `constants.ts` media-type constants are not part of this model. The Docker media types used are the published Docker values.
- The TypeScript type-only declarations (`oci-spec.ts`, `oci-types.ts`, the admission types) are not modelled as datatypes. Requests and answers are read as JSON values, as the code reads them.
- JsonText.Parse: strings are sequences of Unicode scalar values, so JSON text holding an escaped lone surrogate such as `"\ud800"` is rejected, where `JSON.parse` returns a one-code-unit string. For the same reason `TextEncoder`'s replacement of a lone surrogate by U+FFFD (EF BF BD) is not modelled.
- JsonText.Stringify: object members are written in insertion order. JavaScript writes integer-like keys such as "0" or "10" first, in ascending order, and that reordering is not modelled; it reaches the written bytes only for such keys, for example in user-given annotations.
- Verifier.PerformVerify: the request's members are typed strings and byte lists, so the "Cannot serialize verification request" error is unreachable. Callers passing non-JSON values through `any`, such as a circular image object, are not modelled.
- Crypto.VerifyCert: for the same reason, the "Cannot serialize CertificateVerificationRequest" error is unreachable; certificates are typed byte lists and the expiry is a string.
- `ValidationRequest`'s constructor is never called: `readValidationRequest` casts the parsed JSON. So only the parsed value is modelled.
- The two privileged-container orderings are not identical for every input. They agree whenever both return (Privileged.OrderingsAgree), but differ when the pod cannot be read in an ignored namespace (Privileged.OrderingsDifferOnMissingPod).
- `ignoredNamespaces: ""` behaves differently in the two versions. The newer settings class replaces it with `[]`, while the older rule reads the raw settings and calls `"".includes(ns)`. Both are modelled and the difference is not stated as a lemma.

## Findings

| source | as written | input that shows it | evidently intended | confidence | as-written member | corrected member |
|---|---|---|---|---|---|---|
| js/kubewarden/host_capabilities/crypto/types.ts:61-63 | `toString` decodes with a default `TextDecoder`, which drops a leading byte-order mark | `toString(fromString("\uFEFF", "Pem"))` returns `""` | `toString` inverts `fromString`, as its documentation says it returns the certificate text | low, not executed | CryptoTypes.ToString, CryptoTypes.ToStringDropsMark | CryptoTypes.ToStringExact, CryptoTypes.CertificateTextRoundTrip |
