/** The demo policy's settings (demo_policy/policy_settings.ts, and the older
    js/demo_policy/policy_settings.ts, which differs only in its shorter list
    of known scenarios). */
module Settings {
  import opened Wrappers
  import opened JsValues
  import opened Validation

  /** A `PolicySettings` object: `ignoredNamespaces` is always set by the
      constructor, `testScenario` is copied as it is. */
  datatype PolicySettings = PolicySettings(ignoredNamespaces: Value, testScenario: Option<Value>)

  /** The scenarios of demo_policy/policy_settings.ts, in their order. */
  const KnownScenarios: seq<string> := [
    "oci-manifest-digest-success",
    "oci-manifest-digest-failure",
    "dns-lookup-success",
    "dns-lookup-failure",
    "oci-manifest-success",
    "oci-manifest-failure",
    "oci-manifest-and-config-success",
    "oci-manifest-and-config-failure",
    "get-resource-success",
    "get-resource-failure",
    "list-all-resources-success",
    "list-all-resources-failure",
    "list-resources-by-namespace-success",
    "list-resources-by-namespace-failure",
    "can-i-success",
    "can-i-failure",
    "sigstore-verify-pubkey-success",
    "sigstore-verify-pubkey-failure",
    "sigstore-verify-keyless-exact-success",
    "sigstore-verify-keyless-exact-failure",
    "sigstore-verify-keyless-prefix-success",
    "sigstore-verify-keyless-prefix-failure",
    "sigstore-verify-github-actions-success",
    "sigstore-verify-github-actions-failure"
  ]

  /** The scenarios of js/demo_policy/policy_settings.ts. */
  const OlderKnownScenarios: seq<string> := [
    "oci-manifest-digest-success",
    "oci-manifest-digest-failure",
    "dns-lookup-success",
    "dns-lookup-failure",
    "oci-manifest-success",
    "oci-manifest-failure",
    "oci-manifest-and-config-success",
    "oci-manifest-and-config-failure"
  ]

  /** `knownScenarios.includes(s)`: strict equality, so only a string can match. */
  predicate Listed(scenario: Value, known: seq<string>) {
    scenario.Str? && scenario.s in known
  }

  /** The error the constructor throws for an unknown scenario. */
  function UnknownScenario(scenario: Value): JsError {
    Fail("Unknown testScenario: " + ToJsString(scenario))
  }

  /** `new PolicySettings(obj)` with the list `known`: reading a property of
      a null or undefined `obj` throws; a falsy `ignoredNamespaces` becomes
      `[]`; a truthy scenario that is not listed throws. */
  function NewPolicySettings(obj: Option<Value>, known: seq<string>): (r: Result<PolicySettings, JsError>)
    ensures obj.None? || obj == Some(Null) ==> r.Failure? && r.error.name == "TypeError"
    ensures obj.Some? && obj.value != Null ==>
      var ignored := Get(obj, "ignoredNamespaces").value;
      var scenario := Get(obj, "testScenario").value;
      && (r.Success? <==> !Truthy(scenario) || Listed(scenario.value, known))
      && (r.Failure? ==> r.error == UnknownScenario(scenario.value))
      && (r.Success? ==> r.value.testScenario == scenario
                         && (Truthy(ignored) ==> Some(r.value.ignoredNamespaces) == ignored)
                         && (!Truthy(ignored) ==> r.value.ignoredNamespaces == Arr([])))
  {
    var ignored :- Get(obj, "ignoredNamespaces");
    var scenario := Get(obj, "testScenario").value;
    if Truthy(scenario) && !Listed(scenario.value, known) then Failure(UnknownScenario(scenario.value))
    else Success(PolicySettings(Or(ignored, Arr([])), scenario))
  }

  /** A settings object holding only a test scenario. */
  function ScenarioObject(scenario: string): (v: Value)
    ensures v.Obj? && Lookup(v.fields, "testScenario") == Some(Str(scenario))
    ensures Lookup(v.fields, "ignoredNamespaces").None?
  {
    Obj([Field("testScenario", Str(scenario))])
  }

  /** Each listed scenario is accepted and kept, with no ignored namespace. */
  lemma EveryListedScenario(scenario: string, known: seq<string>)
    requires scenario in known
    ensures NewPolicySettings(Some(ScenarioObject(scenario)), known)
         == Success(PolicySettings(Arr([]), Some(Str(scenario))))
  {
  }

  /** An absent or empty scenario never throws, whatever the list. */
  lemma NoScenarioAccepted(obj: Value, known: seq<string>)
    requires obj != Null
    requires Get(Some(obj), "testScenario").value in {None, Some(Str(""))}
    ensures NewPolicySettings(Some(obj), known).Success?
  {
  }

  /** A non-empty scenario that is not listed throws with its name. */
  lemma UnknownScenarioThrows(scenario: string, known: seq<string>)
    requires scenario != [] && scenario !in known
    ensures NewPolicySettings(Some(ScenarioObject(scenario)), known)
         == Failure(Fail("Unknown testScenario: " + scenario))
  {
  }

  /** The older list is the first eight entries of the newer one; the
      Kubernetes and sigstore scenarios are only in the newer one. */
  lemma OlderListIsPrefix()
    ensures |KnownScenarios| == 24 && |OlderKnownScenarios| == 8
    ensures OlderKnownScenarios == KnownScenarios[..8]
    ensures forall s :: s in OlderKnownScenarios ==> s in KnownScenarios
    ensures "can-i-success" in KnownScenarios && "can-i-success" !in OlderKnownScenarios
  {
  }

  /** `can-i-success` is accepted by the newer class and rejected by the older. */
  lemma CanIOnlyInNewer()
    ensures NewPolicySettings(Some(ScenarioObject("can-i-success")), KnownScenarios).Success?
    ensures NewPolicySettings(Some(ScenarioObject("can-i-success")), OlderKnownScenarios)
         == Failure(Fail("Unknown testScenario: can-i-success"))
  {
    OlderListIsPrefix();
    UnknownScenarioThrows("can-i-success", OlderKnownScenarios);
    assert "Unknown testScenario: " + "can-i-success" == "Unknown testScenario: can-i-success";
  }

  /** `validate()`: settings are always valid, with no message. */
  function ValidateSettings(settings: PolicySettings): (r: SettingsValidationResponse)
    ensures r.valid && r.message.None?
  {
    SettingsValidationResponse(true, None)
  }

  /** What the host reads back for `validate()`: `{"valid":true}`. */
  lemma ValidateSettingsWritten(settings: PolicySettings)
    ensures var v := SettingsValue(ValidateSettings(settings));
      Lookup(v.fields, "valid") == Some(Bool(true)) && Lookup(v.fields, "message").None?
  {
  }
}
