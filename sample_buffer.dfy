/**
 * Pieces shared by the recorders that accumulate 16-bit samples pushed by an
 * SDL audio callback into a heap buffer that they grow by copying.
 */
module SampleBuffer {

  /** `len / sizeof(Sint16)`: the number of whole 16-bit samples in a chunk
      of `len` bytes. */
  function SampleCount(len: nat): (n: nat)
    ensures 2 * n <= len < 2 * n + 2
  {
    len / 2
  }

  /** The samples of consecutive chunks, one after the other. */
  function Flatten(chunks: seq<seq<int>>): seq<int>
  {
    if chunks == [] then [] else Flatten(chunks[..|chunks| - 1]) + chunks[|chunks| - 1]
  }

  lemma FlattenSnoc(chunks: seq<seq<int>>, c: seq<int>)
    ensures Flatten(chunks + [c]) == Flatten(chunks) + c
  {
    assert (chunks + [c])[..|chunks|] == chunks;
  }

  /** A fresh zero-filled array of `size` samples whose first `keep` samples
      are copied from `buf`. */
  method Reallocate(buf: array<int>, keep: nat, size: nat) returns (grown: array<int>)
    requires keep <= buf.Length && keep <= size
    ensures fresh(grown) && grown.Length == size
    ensures grown[..keep] == buf[..keep]
    ensures forall i :: keep <= i < size ==> grown[i] == 0
  {
    grown := new int[size](_ => 0);
    forall i | 0 <= i < keep {
      grown[i] := buf[i];
    }
  }

  /** `memcpy(buf + offset, stream, ...)`: overwrites the samples at
      `offset .. offset + |stream|` and leaves the others alone. */
  method CopyAt(buf: array<int>, offset: nat, stream: seq<int>)
    requires offset + |stream| <= buf.Length
    modifies buf
    ensures buf[..offset] == old(buf[..offset])
    ensures buf[offset..offset + |stream|] == stream
    ensures buf[offset + |stream|..] == old(buf[offset + |stream|..])
  {
    forall i | 0 <= i < |stream| {
      buf[offset + i] := stream[i];
    }
  }
}
