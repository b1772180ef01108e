/** Message padding: `addPadding`. */
module Padding {
  import opened Bytes

  /** The largest length a Go slice can have (`int` is 64 bits wide). */
  const MaxLen: nat := 0x7FFF_FFFF_FFFF_FFFF

  /** Messages shorter than this many bytes have a bit length below 2^64. */
  const TwoTo61: nat := 0x2000_0000_0000_0000

  lemma Pow2Of64()
    ensures Pow2(64) == 0x1_0000_0000_0000_0000
  {
    Pow2Of32();
    Pow2Add(32, 32);
  }

  /** `uint64(len(*message) * 8)`: the product is an `int`, which wraps
      modulo 2^64, and the conversion keeps its low 64 bits. It is the exact
      bit length for every message shorter than 2^61 bytes. */
  function LengthInBits(n: nat): (bits: nat)
    requires n <= MaxLen
    ensures bits < Pow2(64)
    ensures n < TwoTo61 ==> bits == n * 8
  {
    Pow2Of64();
    (n * 8) % 0x1_0000_0000_0000_0000
  }

  /** k zero bytes. */
  function Zeros(k: nat): (z: seq<byte>)
    ensures |z| == k && forall i | 0 <= i < k :: z[i] == 0
  {
    seq(k, _ => 0)
  }

  /** How many 0x00 bytes bring n + 1 bytes up to 56 modulo 64. */
  function ZeroFillLength(n: nat): (k: nat)
    ensures k < 64 && (n + 1 + k) % 64 == 56
  {
    (55 - n) % 64
  }

  lemma PaddedLength(n: nat)
    ensures var len := n + 1 + ZeroFillLength(n) + 8;
      && len == 64 * ((n + 8) / 64 + 1)
      && len % 64 == 0 && n + 9 <= len <= n + 72 && len - 64 < n + 9
  {
    var q, r := (n + 8) / 64, (n + 8) % 64;
    assert 55 - n == (-q) * 64 + (63 - r);
  }

  /** The padded message: the message, the 0x80 marker, the zero fill and the
      bit length as a 64-bit big-endian number. Its length is the smallest
      multiple of 64 that leaves room for the marker and the length field. */
  function Pad(m: seq<byte>): (p: seq<byte>)
    requires |m| <= MaxLen
    ensures |p| == 64 * ((|m| + 8) / 64 + 1)
    ensures |p| % 64 == 0 && |m| + 9 <= |p| <= |m| + 72
    ensures |p| - 64 < |m| + 9
  {
    PaddedLength(|m|);
    m + [0x80] + Zeros(ZeroFillLength(|m|)) + BEBytes(LengthInBits(|m|), 8)
  }

  /** The layout of the padded message. */
  lemma PadLayout(m: seq<byte>)
    requires |m| <= MaxLen
    ensures var p := Pad(m);
      && p[..|m|] == m
      && p[|m|] == 0x80
      && (forall i | |m| < i < |p| - 8 :: p[i] == 0)
      && p[|p| - 8..] == BEBytes(LengthInBits(|m|), 8)
  {
  }

  /** The last eight bytes read back as the bit length of the message. */
  lemma PadLengthField(m: seq<byte>)
    requires |m| < TwoTo61
    ensures var p := Pad(m); BEValue(p[|p| - 8..]) == |m| * 8
  {
    PadLayout(m);
    BEValueOfBEBytes(LengthInBits(|m|), 8);
  }

  /** Up to 55 bytes fit one block with their padding; 56 to 119 need two. */
  lemma PadBlockBoundary(m: seq<byte>)
    requires |m| <= MaxLen
    ensures |m| <= 55 <==> |Pad(m)| == 64
    ensures 56 <= |m| <= 119 <==> |Pad(m)| == 128
  {
  }

  /** A message that already fills whole blocks still gets one more block:
      the marker and the length field never fit in zero extra bytes. */
  lemma PadFullBlocks(m: seq<byte>)
    requires |m| <= MaxLen && |m| % 64 == 0
    ensures |Pad(m)| == |m| + 64
  {
    var q := |m| / 64;
    assert |m| + 8 == q * 64 + 8;
    DivUnique(|m| + 8, 64, q, 8);
  }

  /** Distinct messages (below 2^61 bytes) have distinct padded forms. */
  lemma PadInjective(m1: seq<byte>, m2: seq<byte>)
    requires |m1| < TwoTo61 && |m2| < TwoTo61
    requires Pad(m1) == Pad(m2)
    ensures m1 == m2
  {
    PadLengthField(m1);
    PadLengthField(m2);
    PadLayout(m1);
    PadLayout(m2);
  }

  /** `addPadding`: appends the marker, then zero bytes one at a time until
      the length is 56 modulo 64, then the length field. Go appends to the
      caller's slice through a pointer; here the extended slice is returned. */
  method AddPadding(message: seq<byte>) returns (padded: seq<byte>)
    requires |message| <= MaxLen
    ensures padded == Pad(message)
  {
    var messageLength := LengthInBits(|message|);
    padded := message + [0x80];
    ghost var target := |message| + 1 + ZeroFillLength(|message|);
    while |padded| % 64 != 56
      invariant |message| + 1 <= |padded| <= target
      invariant padded == message + [0x80] + Zeros(|padded| - |message| - 1)
      decreases target - |padded|
    {
      padded := padded + [0x00];
    }
    assert |padded| == target;
    padded := padded + BEBytes(messageLength, 8);
  }
}
