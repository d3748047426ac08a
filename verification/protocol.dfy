/** The byte protocol between a policy and its host (js/protocol.ts): the
    whole of standard input is read in chunks of at most 1024 bytes, and a
    value is answered by writing its JSON text, UTF-8 encoded, to standard
    output. */
module Protocol {
  import opened Wrappers
  import opened Utf8
  import opened JsValues
  import opened JsonText
  import opened JsonRoundTrip
  import opened Effects

  const ChunkSize: nat := 1024

  /** What one `readSync` call can place in a buffer of `ChunkSize` bytes;
      the empty chunk means end of input. */
  type Chunk = c: seq<byte> | |c| <= ChunkSize

  /** The successive results of `readSync` on standard input.  Reading past
      the end of the sequence yields the empty chunk. */
  type Stdin = seq<Chunk>

  /** The result of the `i`-th read. */
  function ReadAt(stdin: Stdin, i: nat): (c: Chunk)
    ensures i >= |stdin| ==> c == []
  {
    if i < |stdin| then stdin[i] else []
  }

  /** Reference definition: everything read before the first empty chunk. */
  function ReadAll(stdin: Stdin): seq<byte> {
    if stdin == [] || stdin[0] == [] then [] else stdin[0] + ReadAll(stdin[1..])
  }

  /** The bytes of a list of chunks, joined in order. */
  function Flatten(chunks: seq<seq<byte>>): (b: seq<byte>) {
    if chunks == [] then [] else Flatten(chunks[..|chunks| - 1]) + chunks[|chunks| - 1]
  }

  /** The position of the first empty chunk (the read that ends the loop). */
  function EndOfInput(stdin: Stdin): (k: nat)
    ensures k <= |stdin|
    ensures forall j :: 0 <= j < k ==> stdin[j] != []
    ensures k < |stdin| ==> stdin[k] == []
  {
    if stdin == [] || stdin[0] == [] then 0 else 1 + EndOfInput(stdin[1..])
  }

  lemma {:induction false} FlattenCons(c: seq<byte>, chunks: seq<seq<byte>>)
    ensures Flatten([c] + chunks) == c + Flatten(chunks)
    decreases |chunks|
  {
    if chunks != [] {
      var all := [c] + chunks;
      assert all[..|all| - 1] == [c] + chunks[..|chunks| - 1];
      FlattenCons(c, chunks[..|chunks| - 1]);
    } else {
      assert [c] + chunks == [c];
      assert [c][..0] == [];
    }
  }

  lemma {:induction false} FlattenAppend(a: seq<seq<byte>>, b: seq<seq<byte>>)
    ensures Flatten(a + b) == Flatten(a) + Flatten(b)
    decreases |a|
  {
    if a == [] {
      assert a + b == b;
    } else {
      assert a + b == [a[0]] + (a[1..] + b);
      FlattenCons(a[0], a[1..] + b);
      FlattenAppend(a[1..], b);
      FlattenCons(a[0], a[1..]);
      assert [a[0]] + a[1..] == a;
    }
  }

  /** The loop reads exactly the chunks before the first empty one. */
  lemma {:induction false} ReadAllPrefix(stdin: Stdin)
    ensures ReadAll(stdin) == Flatten(stdin[..EndOfInput(stdin)])
  {
    if stdin == [] || stdin[0] == [] {
      assert stdin[..EndOfInput(stdin)] == [];
    } else {
      ReadAllPrefix(stdin[1..]);
      var k := EndOfInput(stdin[1..]);
      assert stdin[..EndOfInput(stdin)] == [stdin[0]] + stdin[1..][..k];
      FlattenCons(stdin[0], stdin[1..][..k]);
    }
  }

  /** The first half of `readInput()`: reads chunks until a read returns no
      bytes.  Returns the chunks read, the total byte count and how many
      reads were made. */
  method ReadChunks(stdin: Stdin) returns (inputChunks: seq<seq<byte>>, totalBytes: nat, calls: nat)
    ensures inputChunks == stdin[..EndOfInput(stdin)]
    ensures totalBytes == |Flatten(inputChunks)|
    ensures calls == EndOfInput(stdin) + 1
  {
    inputChunks := [];
    totalBytes := 0;
    var i := 0;
    while true
      invariant i <= |stdin|
      invariant forall j :: 0 <= j < i ==> stdin[j] != []
      invariant inputChunks == stdin[..i]
      invariant totalBytes == |Flatten(inputChunks)|
      decreases |stdin| - i
    {
      var buffer := ReadAt(stdin, i);
      var bytesRead := |buffer|;
      totalBytes := totalBytes + bytesRead;
      if bytesRead == 0 {
        break;
      }
      FlattenAppend(inputChunks, [buffer[..bytesRead]]);
      assert buffer[..bytesRead] == stdin[i];
      assert stdin[..i + 1] == stdin[..i] + [stdin[i]];
      inputChunks := inputChunks + [buffer[..bytesRead]];
      i := i + 1;
    }
    EndOfInputAt(stdin, i);
    calls := i + 1;
  }

  /** The second half of `readInput()`: copies the chunks, in order, into a
      new buffer of their total length. */
  method Assemble(inputChunks: seq<seq<byte>>, totalBytes: nat) returns (r: seq<byte>)
    requires totalBytes == |Flatten(inputChunks)|
    ensures r == Flatten(inputChunks)
  {
    var finalBuffer := new byte[totalBytes];
    var bufferOffset := 0;
    for k := 0 to |inputChunks|
      invariant bufferOffset == |Flatten(inputChunks[..k])| <= finalBuffer.Length
      invariant finalBuffer[..bufferOffset] == Flatten(inputChunks[..k])
    {
      var chunk := inputChunks[k];
      assert inputChunks[..k + 1] == inputChunks[..k] + [chunk];
      FlattenAppend(inputChunks[..k], [chunk]);
      FlattenAppend(inputChunks[..k + 1], inputChunks[k + 1..]);
      assert inputChunks[..k + 1] + inputChunks[k + 1..] == inputChunks;
      forall j | 0 <= j < |chunk| {
        finalBuffer[bufferOffset + j] := chunk[j];
      }
      assert finalBuffer[..bufferOffset + |chunk|] == Flatten(inputChunks[..k]) + chunk;
      bufferOffset := bufferOffset + |chunk|;
    }
    assert inputChunks[..|inputChunks|] == inputChunks;
    r := finalBuffer[..];
  }

  /** `readInput()`: the whole of standard input up to the first empty read,
      and the number of reads made. */
  method ReadInput(stdin: Stdin) returns (input: seq<byte>, calls: nat)
    ensures input == ReadAll(stdin)
    ensures calls == EndOfInput(stdin) + 1
  {
    var inputChunks, totalBytes;
    inputChunks, totalBytes, calls := ReadChunks(stdin);
    input := Assemble(inputChunks, totalBytes);
    ReadAllPrefix(stdin);
  }

  lemma EndOfInputAt(stdin: Stdin, i: nat)
    requires i <= |stdin|
    requires forall j :: 0 <= j < i ==> stdin[j] != []
    requires i == |stdin| || stdin[i] == []
    ensures EndOfInput(stdin) == i
  {
  }

  /** Standard input carrying `b`: full chunks, then the remainder. */
  function Split(b: seq<byte>): (stdin: Stdin)
    ensures forall i :: 0 <= i < |stdin| ==> stdin[i] != []
    decreases |b|
  {
    if b == [] then []
    else if |b| <= ChunkSize then [b]
    else [b[..ChunkSize]] + Split(b[ChunkSize..])
  }

  /** Input split into chunks reads back whole. */
  lemma {:induction false} ReadAllSplit(b: seq<byte>)
    ensures ReadAll(Split(b)) == b
    decreases |b|
  {
    if |b| > ChunkSize {
      var stdin := Split(b);
      assert stdin[1..] == Split(b[ChunkSize..]);
      ReadAllSplit(b[ChunkSize..]);
      assert b[..ChunkSize] + b[ChunkSize..] == b;
    } else if b != [] {
      assert Split(b)[1..] == [];
    }
  }

  /** Whatever follows the first empty read is never read; how the bytes
      before it are split into chunks does not matter. */
  lemma {:induction false} ReadAllStopsAtEnd(chunks: Stdin, after: Stdin)
    requires forall i :: 0 <= i < |chunks| ==> chunks[i] != []
    ensures ReadAll(chunks + [[]] + after) == Flatten(chunks)
    decreases |chunks|
  {
    var stdin := chunks + [[]] + after;
    if chunks == [] {
      assert stdin[0] == [];
    } else {
      assert stdin[0] == chunks[0];
      assert stdin[1..] == chunks[1..] + [[]] + after;
      ReadAllStopsAtEnd(chunks[1..], after);
      FlattenCons(chunks[0], chunks[1..]);
      assert [chunks[0]] + chunks[1..] == chunks;
    }
  }

  /** `writeOutput(output)`: one write of the UTF-8 encoded JSON text of
      `output` to standard output; `JSON.stringify` throws first, writing
      nothing, when `output` holds a value it cannot serialise. */
  function WriteOutput(output: Value): (o: Outcome<()>)
    ensures o.result.Success? <==> IsJson(output)
    ensures o.result.Success? ==> |o.effects| == 1 && o.effects[0].WriteStdout?
    ensures o.result.Failure? ==> o.effects == [] && o.result.error.name == "TypeError"
  {
    match Stringify(output)
    case Success(text) => Outcome(Success(()), [WriteStdout(Encode(text))])
    case Failure(e) => Outcome(Failure(e), [])
  }

  /** The JSON text written for a value and read back on the other side,
      in any chunking, decodes and parses to the same value. */
  lemma OutputReadsBack(output: Value, stdin: Stdin)
    requires WriteOutput(output).result.Success?
    requires ReadAll(stdin) == WriteOutput(output).effects[0].bytes
    ensures Parse(Decode(ReadAll(stdin))) == Success(output)
  {
    var text := Stringify(output).value;
    DecodeEncode(text);
    ParseStringify(output);
  }
}
