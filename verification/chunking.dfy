/** Splitting a byte string into equal pieces: `breakMessageIntoChunks`. */
module Chunking {
  import opened Bytes

  lemma PieceFits(i: nat, size: nat, n: nat)
    requires size > 0 && i < n / size
    ensures i * size + size <= n
  {
    assert (i + 1) * size <= (n / size) * size;
  }

  lemma DivAfterOnePiece(n: nat, size: nat)
    requires 0 < size <= n
    ensures (n - size) / size == n / size - 1
  {
    var q, r := n / size, n % size;
    assert n - size == (q - 1) * size + r;
    DivUnique(n - size, size, q - 1, r);
  }

  /** The consecutive size-byte pieces of m, in order; a shorter tail is dropped. */
  function Chunks(m: seq<byte>, size: nat): (c: seq<seq<byte>>)
    requires size > 0
    ensures |c| == |m| / size
    ensures forall i | 0 <= i < |c| :: |c[i]| == size
    decreases |m|
  {
    if |m| < size then []
    else
      DivAfterOnePiece(|m|, size);
      [m[..size]] + Chunks(m[size..], size)
  }

  /** Piece i is bytes i*size up to (i+1)*size of m. */
  lemma {:induction false} ChunksAt(m: seq<byte>, size: nat, i: nat)
    requires size > 0 && i < |m| / size
    ensures i * size + size <= |m| && Chunks(m, size)[i] == m[i * size .. i * size + size]
    decreases |m|
  {
    PieceFits(i, size, |m|);
    if i > 0 {
      DivAfterOnePiece(|m|, size);
      ChunksAt(m[size..], size, i - 1);
      assert (i - 1) * size + size == i * size;
    }
  }

  /** The pieces laid end to end. */
  function Flatten(c: seq<seq<byte>>): seq<byte>
  {
    if c == [] then [] else c[0] + Flatten(c[1..])
  }

  /** When the length is a multiple of the piece size, no byte is lost:
      the pieces laid end to end are the string itself. */
  lemma {:induction false} ChunksFlatten(m: seq<byte>, size: nat)
    requires size > 0 && |m| % size == 0
    ensures Flatten(Chunks(m, size)) == m
    decreases |m|
  {
    if |m| >= size {
      assert (|m| - size) % size == 0 by { DivAfterOnePiece(|m|, size); }
      ChunksFlatten(m[size..], size);
      assert m == m[..size] + m[size..];
    }
  }

  /** `breakMessageIntoChunks(message, chunkSize)`: chunkSize is in bits. Go
      panics (division by zero) when chunkSize / 8 is 0; sha1.go passes 512 and 32. */
  method BreakMessageIntoChunks(message: seq<byte>, chunkSize: int) returns (chunks: seq<seq<byte>>)
    requires chunkSize >= 8
    ensures |chunks| == |message| / (chunkSize / 8)
    ensures forall i | 0 <= i < |chunks| ::
      var size := chunkSize / 8;
      i * size + size <= |message| && chunks[i] == message[i * size .. i * size + size]
    ensures chunks == Chunks(message, chunkSize / 8)
  {
    var size := chunkSize / 8;
    var numberOfChunks := |message| / size;
    var pieces := new seq<byte>[numberOfChunks];
    for i := 0 to numberOfChunks
      invariant forall j | 0 <= j < i :: j * size + size <= |message| && pieces[j] == message[j * size .. j * size + size]
    {
      PieceFits(i, size, |message|);
      pieces[i] := message[i * size .. i * size + size];
    }
    chunks := pieces[..];
    forall i | 0 <= i < |chunks|
      ensures chunks[i] == Chunks(message, size)[i]
    {
      ChunksAt(message, size, i);
    }
  }
}
