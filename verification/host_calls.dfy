/** `HostCall.hostCall` (js/kubewarden/host_capabilities/index.ts) and the
    request/response exchange every host capability wrapper performs on top
    of it: serialise the request to JSON, call the host, decode and parse the
    answer. */
module HostCalls {
  import opened Wrappers
  import opened Utf8
  import opened JsValues
  import opened JsonText
  import opened JsonRoundTrip
  import opened Effects
  import opened Protocol

  /** What the host does when called: the status the plugin's `call` import
      returns, and the standard input the reply is then read from. */
  datatype HostReply = HostReply(status: int, reply: Stdin)

  /** The host, as seen by the guest: a reply for every address and payload. */
  type Host = (Address, seq<byte>) -> HostReply

  /** The plugin reports a call as successful when `call` returned 0. */
  predicate Successful(status: int) {
    status == 0
  }

  const HostCallFailed: JsError := Fail("Host call failed")

  /** The effects of one host call: the call, then reading its reply, then,
      on failure, logging the decoded reply. */
  function CallEffects(host: Host, address: Address, payload: seq<byte>): seq<Effect> {
    var answer := host(address, payload);
    var response := ReadAll(answer.reply);
    [Invoke(address, payload), ReadStdin(response)]
      + (if Successful(answer.status) then [] else [LogError("Host call failed:  " + Decode(response))])
  }

  /** `hostCall(binding, ns, op, payload)`: calls the host, always reads the
      whole reply, and throws `Host call failed` unless the call succeeded. */
  function HostCall(host: Host, address: Address, payload: seq<byte>): (o: Outcome<seq<byte>>)
    ensures o.effects == CallEffects(host, address, payload)
    ensures o.result.Success? <==> Successful(host(address, payload).status)
    ensures o.result.Success? ==> o.result.value == ReadAll(host(address, payload).reply)
    ensures o.result.Failure? ==> o.result.error == HostCallFailed
  {
    var answer := host(address, payload);
    var response := ReadAll(answer.reply);
    if Successful(answer.status) then Outcome(Success(response), CallEffects(host, address, payload))
    else Outcome(Failure(HostCallFailed), CallEffects(host, address, payload))
  }

  /** A host call invokes the host exactly once, before reading the reply,
      and never writes to standard output. */
  lemma HostCallOnce(host: Host, address: Address, payload: seq<byte>)
    ensures var e := HostCall(host, address, payload).effects;
      Invocations(e) == 1 && Writes(e) == 0
      && e[0] == Invoke(address, payload) && e[1].ReadStdin?
  {
    var answer := host(address, payload);
    var head: seq<Effect> := [Invoke(address, payload), ReadStdin(ReadAll(answer.reply))];
    var tail: seq<Effect> := if Successful(answer.status) then [] else [LogError("Host call failed:  " + Decode(ReadAll(answer.reply)))];
    assert head[1..][1..] == [];
    assert tail != [] ==> tail[1..] == [];
    CountsAppend(head, tail);
  }

  /** `policyAction()`: the single command-line argument after the program
      name; any other number of arguments is an error. */
  function PolicyAction(args: seq<string>): (r: Result<string, JsError>)
    ensures r.Success? <==> |args| == 2
    ensures r.Success? ==> r.value == args[1]
  {
    if |args| != 2 then Failure(JsError("Error", "unknown error")) else Success(args[1])
  }

  /** The address of a Kubewarden host capability. */
  function Kubewarden(ns: string, op: string): Address {
    Address("kubewarden", ns, op)
  }

  /** `new TextEncoder().encode(JSON.stringify(v))`. */
  function Serialize(v: Value): (r: Result<seq<byte>, JsError>)
    ensures r.Success? <==> IsJson(v)
    ensures r.Failure? ==> r.error.name == "TypeError"
  {
    var text :- Stringify(v);
    Success(Encode(text))
  }

  /** `JSON.parse(new TextDecoder().decode(b))`. */
  function Deserialize(b: seq<byte>): (r: Result<Value, JsError>)
    ensures r.Success? ==> IsJson(r.value)
  {
    Parse(Decode(b))
  }

  /** What `Serialize` writes, `Deserialize` reads back. */
  lemma DeserializeSerialize(v: Value)
    requires IsJson(v)
    ensures Deserialize(Serialize(v).value) == Success(v)
  {
    var text := Stringify(v).value;
    DecodeEncode(text);
    ParseStringify(v);
  }

  /** The error a `catch` block throws: `new Error(`${context}: ${err}`)`, or the
      error itself when the step is not wrapped. */
  function Wrapped(context: Option<string>, e: JsError): (w: JsError) {
    match context
    case None => e
    case Some(c) => Rethrown(c, e)
  }

  /** `new Error(`${context}: ${err}`)`. */
  function Rethrown(context: string, e: JsError): (w: JsError)
    ensures w.name == "Error" && w.message == context + ": " + e.name + ": " + e.message
  {
    Fail(context + ": " + Describe(e))
  }

  /** The text of the host's reply, as `new TextDecoder().decode` reads it. */
  function ReplyText(host: Host, address: Address, payload: seq<byte>): string {
    Decode(ReadAll(host(address, payload).reply))
  }

  /** The exchange of the capability wrappers: serialise `request`, call the
      host at `address`, and read the reply's text with `read`.
      `serializeContext` and `readContext` name the `catch` blocks around the
      first and the last step (`None` where there is none); the host call
      itself is never wrapped. */
  function Exchange<T>(host: Host, address: Address, request: Value, serializeContext: Option<string>,
                       read: string -> Result<T, JsError>, readContext: Option<string>): (o: Outcome<T>)
    ensures Writes(o.effects) == 0
    ensures Invocations(o.effects) == (if IsJson(request) then 1 else 0)
    ensures IsJson(request) ==> o.effects[0] == Invoke(address, Serialize(request).value)
    ensures !IsJson(request) ==> o.effects == [] && o.result == Failure(Wrapped(serializeContext, Stringify(request).error))
    ensures (IsJson(request) && !Successful(host(address, Serialize(request).value).status))
            ==> o.result == Failure(HostCallFailed)
    ensures (IsJson(request) && Successful(host(address, Serialize(request).value).status))
            ==> match read(ReplyText(host, address, Serialize(request).value))
                case Success(t) => o.result == Success(t)
                case Failure(e) => o.result == Failure(Wrapped(readContext, e))
  {
    match Serialize(request)
    case Failure(e) => Outcome(Failure(Wrapped(serializeContext, e)), [])
    case Success(payload) =>
      var call := HostCall(host, address, payload);
      HostCallOnce(host, address, payload);
      match call.result
      case Failure(e) => Outcome(Failure(e), call.effects)
      case Success(response) =>
        match read(Decode(response))
        case Failure(e) => Outcome(Failure(Wrapped(readContext, e)), call.effects)
        case Success(t) => Outcome(Success(t), call.effects)
  }

  /** The host accepts the request it is sent. */
  predicate HostSucceeds(host: Host, address: Address, request: Value)
    requires IsJson(request)
  {
    Successful(host(address, Serialize(request).value).status)
  }

  /** The host's reply to the request, decoded and parsed. */
  function ReplyValue(host: Host, address: Address, request: Value): Result<Value, JsError>
    requires IsJson(request)
  {
    Deserialize(ReadAll(host(address, Serialize(request).value).reply))
  }

  /** The exchange of the wrappers that return the parsed answer as is. */
  function JsonExchange(host: Host, address: Address, request: Value,
                        serializeContext: Option<string>, parseContext: Option<string>): (o: Outcome<Value>)
    ensures Writes(o.effects) == 0
    ensures Invocations(o.effects) == (if IsJson(request) then 1 else 0)
    ensures IsJson(request) ==> o.effects[0] == Invoke(address, Serialize(request).value)
    ensures !IsJson(request) ==> o.effects == [] && o.result == Failure(Wrapped(serializeContext, Stringify(request).error))
    ensures (IsJson(request) && !HostSucceeds(host, address, request)) ==> o.result == Failure(HostCallFailed)
    ensures o.result.Success? <==>
              IsJson(request) && HostSucceeds(host, address, request) && ReplyValue(host, address, request).Success?
    ensures o.result.Success? ==> o.result.value == ReplyValue(host, address, request).value
    ensures (IsJson(request) && HostSucceeds(host, address, request) && ReplyValue(host, address, request).Failure?)
            ==> o.result == Failure(Wrapped(parseContext, ReplyValue(host, address, request).error))
    ensures o.result.Success? ==> IsJson(o.result.value)
  {
    Exchange(host, address, request, serializeContext, Parse, parseContext)
  }

  /** The parsed reply of a host that writes the JSON text of `v`, in any
      chunking, is `v`; this is the partner of `JsonExchange`'s success case. */
  lemma ReplyOfJson(host: Host, address: Address, request: Value, v: Value)
    requires IsJson(request) && IsJson(v)
    requires ReadAll(host(address, Serialize(request).value).reply) == Serialize(v).value
    ensures ReplyValue(host, address, request) == Success(v)
  {
    DeserializeSerialize(v);
  }

  /** The payload a JSON exchange sends is the request's JSON text: the host
      reads back the request itself. */
  lemma PayloadOfRequest(host: Host, address: Address, request: Value,
                         serializeContext: Option<string>, parseContext: Option<string>)
    requires IsJson(request)
    ensures var o := JsonExchange(host, address, request, serializeContext, parseContext);
      o.effects[0].Invoke? && o.effects[0].address == address
      && Deserialize(o.effects[0].payload) == Success(request)
  {
    DeserializeSerialize(request);
  }
}
