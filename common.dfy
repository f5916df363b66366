/** Values shared by the agent worker and the web client: bytes, optional and
    fallible results, conversation messages, and byte chunks laid end to end. */
module Common {

  /** One element of a `Uint8Array`. */
  type byte = x: int | 0 <= x < 256

  datatype Option<+T> = None | Some(value: T)

  /** A value, or the error a JavaScript `throw` would carry. */
  datatype Result<+T, +E> = Ok(value: T) | Err(error: E)

  datatype Role = User | Assistant

  /** A conversation turn. Both the agent (`timestamp: number`) and the web
      client (`timestamp: Date`) keep milliseconds since the epoch. */
  datatype Message = Message(id: string, content: string, role: Role, timestamp: int)

  /** `chunks.reduce((sum, chunk) => sum + chunk.length, 0)`. */
  function TotalLength(chunks: seq<seq<byte>>): (total: nat)
    ensures forall k | 0 <= k < |chunks| :: |chunks[k]| <= total
  {
    if chunks == [] then 0 else TotalLength(chunks[..|chunks| - 1]) + |chunks[|chunks| - 1]|
  }

  /** The chunks copied one after the other into a single buffer. */
  function Flatten(chunks: seq<seq<byte>>): seq<byte>
  {
    if chunks == [] then [] else Flatten(chunks[..|chunks| - 1]) + chunks[|chunks| - 1]
  }

  lemma {:induction false} FlattenLength(chunks: seq<seq<byte>>)
    ensures |Flatten(chunks)| == TotalLength(chunks)
  {
    if chunks != [] {
      FlattenLength(chunks[..|chunks| - 1]);
    }
  }

  lemma {:induction false} FlattenAppend(a: seq<seq<byte>>, b: seq<seq<byte>>)
    ensures Flatten(a + b) == Flatten(a) + Flatten(b)
  {
    if b == [] {
      assert a + b == a;
    } else {
      var n := |b| - 1;
      assert (a + b)[..|a + b| - 1] == a + b[..n];
      FlattenAppend(a, b[..n]);
    }
  }

  lemma FlattenPrepend(x: seq<byte>, rest: seq<seq<byte>>)
    ensures Flatten([x] + rest) == x + Flatten(rest)
  {
    FlattenAppend([x], rest);
    assert Flatten([x]) == Flatten([]) + x;
  }

  lemma {:induction false} TotalLengthPrefix(chunks: seq<seq<byte>>, k: nat)
    requires k <= |chunks|
    ensures TotalLength(chunks[..k]) <= TotalLength(chunks)
  {
    if k < |chunks| {
      var n := |chunks| - 1;
      assert chunks[..n][..k] == chunks[..k];
      TotalLengthPrefix(chunks[..n], k);
    } else {
      assert chunks[..k] == chunks;
    }
  }

  /** `target.set(chunk, offset)`: the chunk is copied in at `offset`, and
      the bytes before it and after it are left alone. */
  method CopyInto(target: array<byte>, offset: nat, chunk: seq<byte>)
    requires offset + |chunk| <= target.Length
    modifies target
    ensures target[..offset] == old(target[..offset])
    ensures target[offset..offset + |chunk|] == chunk
    ensures target[offset + |chunk|..] == old(target[offset + |chunk|..])
  {
    for j := 0 to |chunk|
      invariant forall i | 0 <= i < offset :: target[i] == old(target[i])
      invariant forall i | 0 <= i < j :: target[offset + i] == chunk[i]
      invariant forall i | offset + |chunk| <= i < target.Length :: target[i] == old(target[i])
    {
      target[offset + j] := chunk[j];
    }
    assert forall i | 0 <= i < |chunk| :: target[offset..offset + |chunk|][i] == chunk[i];
  }

  /** The copy loop shared by `transcribe` and `synthesizeToBuffer`: a buffer of
      the summed length, each chunk `set` at a moving `offset`. */
  method Concat(chunks: seq<seq<byte>>) returns (combined: seq<byte>)
    ensures combined == Flatten(chunks)
    ensures |combined| == TotalLength(chunks)
  {
    var totalLength := TotalLength(chunks);
    var buffer := new byte[totalLength];
    var offset := 0;
    for k := 0 to |chunks|
      invariant offset == TotalLength(chunks[..k]) <= totalLength
      invariant buffer[..offset] == Flatten(chunks[..k])
    {
      var chunk := chunks[k];
      assert chunks[..k + 1][..k] == chunks[..k];
      TotalLengthPrefix(chunks, k + 1);
      CopyInto(buffer, offset, chunk);
      assert buffer[..offset + |chunk|] == buffer[..offset] + buffer[offset..offset + |chunk|];
      offset := offset + |chunk|;
    }
    assert chunks[..|chunks|] == chunks;
    FlattenLength(chunks);
    combined := buffer[..];
  }
}
