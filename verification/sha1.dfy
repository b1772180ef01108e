/** `Sum`: the SHA-1 digest of a message, as sha1.go computes it. */
module Sha1 {
  import opened Bytes
  import opened Words
  import opened Chunking
  import opened Padding
  import opened Compression
  import opened Digest

  /** The 64-byte blocks of the padded message. */
  function Blocks(m: seq<byte>): (blocks: seq<seq<byte>>)
    requires |m| <= MaxLen
    ensures AllBlocks(blocks)
    ensures |blocks| == (|m| + 8) / 64 + 1
    ensures Flatten(blocks) == Pad(m)
  {
    ChunksFlatten(Pad(m), 64);
    Chunks(Pad(m), 64)
  }

  /** The SHA-1 digest: the blocks of the padded message processed in
      order from the initial hash value, and the final value serialized. */
  function Hash(m: seq<byte>): (digest: seq<byte>)
    requires |m| <= MaxLen
    ensures |digest| == 20
    ensures Deserialize(digest) == HashBlocks(InitialHashValue, Blocks(m))
  {
    var h := HashBlocks(InitialHashValue, Blocks(m));
    DeserializeSerialize(h);
    Serialize(h)
  }

  /** Bytes 4i..4i+3 of the digest are the big-endian encoding of the final hi. */
  lemma HashWordsAt(m: seq<byte>, i: nat)
    requires |m| <= MaxLen && i < 5
    ensures Hash(m)[4 * i .. 4 * i + 4] == WordBytes(HashWords(HashBlocks(InitialHashValue, Blocks(m)))[i])
  {
    SerializeWords(HashBlocks(InitialHashValue, Blocks(m)), i);
  }

  /** A message of up to 55 bytes is one block; one of 56 to 119 bytes is two. */
  lemma BlockCount(m: seq<byte>)
    requires |m| <= MaxLen
    ensures |m| <= 55 <==> |Blocks(m)| == 1
    ensures 56 <= |m| <= 119 <==> |Blocks(m)| == 2
  {
    PadBlockBoundary(m);
  }

  /** `Sum(message)`: pad, split into 512-bit chunks, run each chunk through
      the compression function, and assemble the 20-byte digest. */
  method Sum(message: seq<byte>) returns (digest: seq<byte>)
    requires |message| <= MaxLen
    ensures digest == Hash(message)
  {
    var h0, h1, h2, h3, h4: Word := 0x67452301, 0xEFCDAB89, 0x98BADCFE, 0x10325476, 0xC3D2E1F0;
    var padded := AddPadding(message);
    var chunks := BreakMessageIntoChunks(padded, 512);
    assert chunks == Blocks(message);
    for j := 0 to |chunks|
      invariant HashValue(h0, h1, h2, h3, h4) == HashBlocks(InitialHashValue, chunks[..j])
    {
      assert chunks[..j + 1][..j] == chunks[..j];
      h0, h1, h2, h3, h4 := ProcessChunk(h0, h1, h2, h3, h4, chunks[j]);
    }
    assert chunks[..|chunks|] == chunks;
    digest := FinalHash(h0, h1, h2, h3, h4);
  }
}
