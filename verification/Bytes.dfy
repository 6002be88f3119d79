/** Bytes, and byte streams as the concatenation of the pieces they were read in. */
module Bytes {
  newtype byte = x: int | 0 <= x < 256

  const NUL: byte := 0
  const NEWLINE: byte := 10

  function Flatten(chunks: seq<seq<byte>>): seq<byte> {
    if chunks == [] then [] else Flatten(chunks[..|chunks| - 1]) + chunks[|chunks| - 1]
  }

  lemma FlattenAppend(chunks: seq<seq<byte>>, c: seq<byte>)
    ensures Flatten(chunks + [c]) == Flatten(chunks) + c
  {
    assert (chunks + [c])[..|chunks + [c]| - 1] == chunks;
  }

  lemma {:induction false} FlattenPrefix(chunks: seq<seq<byte>>, m: nat)
    requires m <= |chunks|
    ensures Flatten(chunks[..m]) <= Flatten(chunks)
  {
    if m == |chunks| {
      assert chunks[..m] == chunks;
    } else {
      var shorter := chunks[..|chunks| - 1];
      FlattenPrefix(shorter, m);
      assert shorter[..m] == chunks[..m];
    }
  }
}
