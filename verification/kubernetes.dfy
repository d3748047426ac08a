/** The Kubernetes host capability
    (js/kubewarden/host_capabilities/kubernetes/kubernetes.ts): four
    request/response exchanges, each wrapping serialisation and parsing
    errors with its own context. */
module Kubernetes {
  import opened Wrappers
  import opened JsValues
  import opened JsonText
  import opened Effects
  import opened Protocol
  import opened HostCalls

  const ListByNamespaceAt: Address := Kubewarden("kubernetes", "list_resources_by_namespace")
  const ListAllAt: Address := Kubewarden("kubernetes", "list_resources_all")
  const GetResourceAt: Address := Kubewarden("kubernetes", "get_resource")
  const CanIAt: Address := Kubewarden("kubernetes", "can_i")

  /** `listResourcesByNamespace(req)`: the parsed `List` the host answers. */
  function ListResourcesByNamespace(host: Host, req: Value): (o: Outcome<Value>)
    ensures Writes(o.effects) == 0 && Invocations(o.effects) == (if IsJson(req) then 1 else 0)
    ensures IsJson(req) ==> o.effects[0] == Invoke(ListByNamespaceAt, Serialize(req).value)
    ensures !IsJson(req) ==> o.result == Failure(Rethrown("Cannot serialize ListResourcesByNamespaceRequest", Stringify(req).error))
    ensures (IsJson(req) && !HostSucceeds(host, ListByNamespaceAt, req)) ==> o.result == Failure(HostCallFailed)
    ensures (IsJson(req) && HostSucceeds(host, ListByNamespaceAt, req))
            ==> o.result == match ReplyValue(host, ListByNamespaceAt, req)
                            case Failure(e) => Failure(Rethrown("Failed to decode or parse listResourcesByNamespaceResponse", e))
                            case Success(v) => Success(v)
  {
    JsonExchange(host, ListByNamespaceAt, req, Some("Cannot serialize ListResourcesByNamespaceRequest"),
                 Some("Failed to decode or parse listResourcesByNamespaceResponse"))
  }

  /** `listAllResources(req)`: the parsed `List` the host answers. */
  function ListAllResources(host: Host, req: Value): (o: Outcome<Value>)
    ensures Writes(o.effects) == 0 && Invocations(o.effects) == (if IsJson(req) then 1 else 0)
    ensures IsJson(req) ==> o.effects[0] == Invoke(ListAllAt, Serialize(req).value)
    ensures !IsJson(req) ==> o.result == Failure(Rethrown("Cannot serialize ListAllResourcesRequest", Stringify(req).error))
    ensures (IsJson(req) && !HostSucceeds(host, ListAllAt, req)) ==> o.result == Failure(HostCallFailed)
    ensures (IsJson(req) && HostSucceeds(host, ListAllAt, req))
            ==> o.result == match ReplyValue(host, ListAllAt, req)
                            case Failure(e) => Failure(Rethrown("Failed to decode or parse listAllResourcesResponse", e))
                            case Success(v) => Success(v)
  {
    JsonExchange(host, ListAllAt, req, Some("Cannot serialize ListAllResourcesRequest"),
                 Some("Failed to decode or parse listAllResourcesResponse"))
  }

  /** `getResource(req)`: the parsed resource the host answers. */
  function GetResource(host: Host, req: Value): (o: Outcome<Value>)
    ensures Writes(o.effects) == 0 && Invocations(o.effects) == (if IsJson(req) then 1 else 0)
    ensures IsJson(req) ==> o.effects[0] == Invoke(GetResourceAt, Serialize(req).value)
    ensures !IsJson(req) ==> o.result == Failure(Rethrown("Cannot serialize GetResourceRequest", Stringify(req).error))
    ensures (IsJson(req) && !HostSucceeds(host, GetResourceAt, req)) ==> o.result == Failure(HostCallFailed)
    ensures (IsJson(req) && HostSucceeds(host, GetResourceAt, req))
            ==> o.result == match ReplyValue(host, GetResourceAt, req)
                            case Failure(e) => Failure(Rethrown("Failed to decode or parse getResource response", e))
                            case Success(v) => Success(v)
  {
    JsonExchange(host, GetResourceAt, req, Some("Cannot serialize GetResourceRequest"),
                 Some("Failed to decode or parse getResource response"))
  }

  /** `canI(req)`: the parsed `SubjectAccessReviewStatus` the host answers. */
  function CanI(host: Host, req: Value): (o: Outcome<Value>)
    ensures Writes(o.effects) == 0 && Invocations(o.effects) == (if IsJson(req) then 1 else 0)
    ensures IsJson(req) ==> o.effects[0] == Invoke(CanIAt, Serialize(req).value)
    ensures !IsJson(req) ==> o.result == Failure(Rethrown("Cannot serialize CanIRequest", Stringify(req).error))
    ensures (IsJson(req) && !HostSucceeds(host, CanIAt, req)) ==> o.result == Failure(HostCallFailed)
    ensures (IsJson(req) && HostSucceeds(host, CanIAt, req))
            ==> o.result == match ReplyValue(host, CanIAt, req)
                            case Failure(e) => Failure(Rethrown("Failed to decode or parse canI response", e))
                            case Success(v) => Success(v)
  {
    JsonExchange(host, CanIAt, req, Some("Cannot serialize CanIRequest"), Some("Failed to decode or parse canI response"))
  }

  /** `GetResourceRequest`; `namespace` is absent (`None`), `null`
      (`Some(None)`) or a name. */
  datatype GetResourceRequest = GetResourceRequest(
    apiVersion: string, kind: string, name: string, namespace: Option<Option<string>>, disableCache: bool)

  /** The request as the object literal a caller writes. */
  function GetResourceRequestValue(req: GetResourceRequest): (v: Value)
    ensures IsJson(v)
  {
    var ns := match req.namespace
              case None => None
              case Some(None) => Some(Null)
              case Some(Some(n)) => Some(Str(n));
    var members := [("api_version", Some(Str(req.apiVersion))), ("kind", Some(Str(req.kind))),
                    ("name", Some(Str(req.name))), ("namespace", ns), ("disable_cache", Some(Bool(req.disableCache)))];
    ObjectOfJson(members);
    ObjectOf(members)
  }

  /** A typed request always serialises, so `getResource` then either
      returns what the host answers or fails in the host call or in
      parsing; the host receives the request itself. */
  lemma GetResourceTyped(host: Host, req: GetResourceRequest)
    ensures var v := GetResourceRequestValue(req);
      var o := GetResource(host, v);
      Invocations(o.effects) == 1
      && o.effects[0].Invoke? && Deserialize(o.effects[0].payload) == Success(v)
      && (o.result.Success? <==> HostSucceeds(host, GetResourceAt, v) && ReplyValue(host, GetResourceAt, v).Success?)
  {
    DeserializeSerialize(GetResourceRequestValue(req));
  }

  /** A host answering with the JSON text of `answer` has `answer` returned
      by each of the four operations. */
  lemma KubernetesAnswers(host: Host, req: Value, answer: Value)
    requires IsJson(req) && IsJson(answer)
    requires forall a :: a in {ListByNamespaceAt, ListAllAt, GetResourceAt, CanIAt} ==>
               Successful(host(a, Serialize(req).value).status)
               && ReadAll(host(a, Serialize(req).value).reply) == Serialize(answer).value
    ensures ListResourcesByNamespace(host, req).result == Success(answer)
    ensures ListAllResources(host, req).result == Success(answer)
    ensures GetResource(host, req).result == Success(answer)
    ensures CanI(host, req).result == Success(answer)
  {
    ReplyOfJson(host, ListByNamespaceAt, req, answer);
    ReplyOfJson(host, ListAllAt, req, answer);
    ReplyOfJson(host, GetResourceAt, req, answer);
    ReplyOfJson(host, CanIAt, req, answer);
  }
}
