/** `Network.dnsLookup` (js/kubewarden/host_capabilities/net/network.ts). */
module Network {
  import opened Wrappers
  import opened JsValues
  import opened JsonText
  import opened Effects
  import opened Protocol
  import opened HostCalls

  const DnsLookupAt: Address := Kubewarden("net", "v1/dns_lookup_host")

  /** `dnsLookup(hostname)`: sends the hostname's JSON text and returns the
      parsed answer (a `DnsLookupResponse`, `{ips}`).  There is no `catch`:
      serialisation, host and parse errors reach the caller unchanged. */
  function DnsLookup(host: Host, hostname: Value): (o: Outcome<Value>)
    ensures Writes(o.effects) == 0 && Invocations(o.effects) == (if IsJson(hostname) then 1 else 0)
    ensures IsJson(hostname) ==> o.effects[0] == Invoke(DnsLookupAt, Serialize(hostname).value)
    ensures !IsJson(hostname) ==> o.effects == [] && o.result == Failure(Stringify(hostname).error)
    ensures (IsJson(hostname) && !HostSucceeds(host, DnsLookupAt, hostname)) ==> o.result == Failure(HostCallFailed)
    ensures (IsJson(hostname) && HostSucceeds(host, DnsLookupAt, hostname))
            ==> o.result == ReplyValue(host, DnsLookupAt, hostname)
  {
    JsonExchange(host, DnsLookupAt, hostname, None, None)
  }

  /** A host answering with the JSON text of `answer` has `answer` returned,
      and the payload it was given reads back as the hostname. */
  lemma DnsLookupAnswer(host: Host, hostname: string, answer: Value)
    requires IsJson(answer) && HostSucceeds(host, DnsLookupAt, Str(hostname))
    requires ReadAll(host(DnsLookupAt, Serialize(Str(hostname)).value).reply) == Serialize(answer).value
    ensures var o := DnsLookup(host, Str(hostname));
      Deserialize(o.effects[0].payload) == Success(Str(hostname)) && o.result == Success(answer)
  {
    ReplyOfJson(host, DnsLookupAt, Str(hostname), answer);
    DeserializeSerialize(Str(hostname));
  }
}
