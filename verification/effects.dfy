/** What a policy does to the world outside its JavaScript engine: calls into
    the host, reads of standard input, writes to standard output and lines
    logged to standard error. */
module Effects {
  import opened Wrappers
  import opened JsValues
  import opened Utf8

  /** A host capability is addressed by binding, namespace and operation. */
  datatype Address = Address(binding: string, ns: string, op: string)

  datatype Effect =
    | Invoke(address: Address, payload: seq<byte>)
    | ReadStdin(bytes: seq<byte>)
    | WriteStdout(bytes: seq<byte>)
    | LogError(text: string)

  /** The value a JavaScript call returns or the error it throws, and the
      effects it performed on the way. */
  datatype Outcome<+T> = Outcome(result: Result<T, JsError>, effects: seq<Effect>)

  /** The number of host calls in a trace. */
  function Invocations(effects: seq<Effect>): (n: nat)
    ensures n <= |effects|
  {
    if effects == [] then 0
    else (if effects[0].Invoke? then 1 else 0) + Invocations(effects[1..])
  }

  /** The number of writes to standard output in a trace. */
  function Writes(effects: seq<Effect>): (n: nat)
    ensures n <= |effects|
  {
    if effects == [] then 0
    else (if effects[0].WriteStdout? then 1 else 0) + Writes(effects[1..])
  }

  lemma {:induction false} CountsAppend(a: seq<Effect>, b: seq<Effect>)
    ensures Invocations(a + b) == Invocations(a) + Invocations(b)
    ensures Writes(a + b) == Writes(a) + Writes(b)
  {
    if a == [] {
      assert a + b == b;
    } else {
      assert (a + b)[1..] == a[1..] + b;
      CountsAppend(a[1..], b);
    }
  }

  /** Runs `next` on the value `o` returns; an error `o` throws propagates,
      and `next` adds no effects. */
  function Then<T, U>(o: Outcome<T>, next: T -> Result<U, JsError>): (p: Outcome<U>)
    ensures p.effects == o.effects
    ensures o.result.Failure? ==> p.result == Failure(o.result.error)
    ensures o.result.Success? ==> p.result == next(o.result.value)
  {
    match o.result
    case Failure(e) => Outcome(Failure(e), o.effects)
    case Success(v) => Outcome(next(v), o.effects)
  }
}
