/** 32-bit words: the `uint32` arithmetic of sha1.go. */
module Words {
  import opened Bytes

  /** Go's `uint32`; `+` on it wraps modulo 2^32 as Go's does. */
  type Word = bv32

  /** Go's `+` on `uint32`: addition modulo 2^32. */
  function Add(x: Word, y: Word): Word
  {
    x + y
  }

  /** Bit j (0 = least significant) of x, as 0 or 1. */
  function Bit(x: Word, j: bv6): Word
    requires j < 32
  {
    (x >> j) & 1
  }

  /** `leftRotate(u, n)`: bits shifted out at the top come back in at the
      bottom. The amount is an `int` in Go; here it is a 6-bit number no
      larger than 32, because Go panics on the negative shift count 32 - n
      once n exceeds 32. */
  function LeftRotate(u: Word, n: bv6): Word
    requires n <= 32
  {
    (u << n) | (u >> (32 - n))
  }

  /** Rotating by n and then by 32 - n restores the word. */
  lemma LeftRotateInverse(u: Word, n: bv6)
    requires 0 < n < 32
    ensures LeftRotate(LeftRotate(u, n), 32 - n) == u
  {
  }

  /** At or above position n, the bits come from u shifted left. */
  lemma LeftRotateBitShifted(u: Word, n: bv6, j: bv6)
    requires 0 < n <= j < 32
    ensures Bit(LeftRotate(u, n), j) == Bit(u, j - n)
  {
  }

  /** Below position n, the bits are those shifted out at the top. */
  lemma LeftRotateBitWrapped(u: Word, n: bv6, j: bv6)
    requires j < n < 32
    ensures Bit(LeftRotate(u, n), j) == Bit(u, j + 32 - n)
  {
  }

  /** Bit j of the result is bit (j - n) mod 32 of u: a rotation, not a shift. */
  lemma LeftRotateBit(u: Word, n: bv6, j: bv6)
    requires 0 < n < 32 && j < 32
    ensures Bit(LeftRotate(u, n), j) == Bit(u, (j - n) % 32)
  {
    if n <= j {
      LeftRotateBitShifted(u, n, j);
    } else {
      LeftRotateBitWrapped(u, n, j);
    }
  }

  lemma ShiftInByte(w: Word, b: byte)
    requires w < 0x100_0000
    ensures ((w << 8) | (b as Word)) as int == w as int * 256 + b as int
  {
  }

  lemma UnpackedWordValue(b0: byte, b1: byte, b2: byte, b3: byte)
    ensures ((b3 as Word) | ((b2 as Word) << 8) | ((b1 as Word) << 16) | ((b0 as Word) << 24)) as int
         == ((b0 as int * 256 + b1 as int) * 256 + b2 as int) * 256 + b3 as int
  {
    var w1 := b0 as Word;
    var w2 := (w1 << 8) | (b1 as Word);
    var w3 := (w2 << 8) | (b2 as Word);
    var w4 := (w3 << 8) | (b3 as Word);
    assert w4 == (b3 as Word) | ((b2 as Word) << 8) | ((b1 as Word) << 16) | ((b0 as Word) << 24);
    ShiftInByte(w1, b1);
    ShiftInByte(w2, b2);
    ShiftInByte(w3, b3);
  }

  lemma BEValueOfFour(b: seq<byte>)
    requires |b| == 4
    ensures BEValue(b) == ((b[0] as int * 256 + b[1] as int) * 256 + b[2] as int) * 256 + b[3] as int
  {
    assert b[..3][..2][..1][..0] == [];
    assert BEValue(b[..3][..2][..1]) == b[0] as int;
    assert BEValue(b[..3][..2]) == b[0] as int * 256 + b[1] as int;
  }

  /** `binary.BigEndian.Uint32(b)`. */
  function WordFromBytes(b: seq<byte>): Word
    requires |b| >= 4
  {
    (b[3] as Word) | ((b[2] as Word) << 8) | ((b[1] as Word) << 16) | ((b[0] as Word) << 24)
  }

  /** The word read is the number the first four bytes spell, most significant first. */
  lemma WordFromBytesValue(b: seq<byte>)
    requires |b| >= 4
    ensures WordFromBytes(b) as int == BEValue(b[..4])
  {
    UnpackedWordValue(b[0], b[1], b[2], b[3]);
    BEValueOfFour(b[..4]);
  }

  /** A word is determined by its value as a number. */
  lemma WordValueInjective(x: Word, y: Word)
    requires x as int == y as int
    ensures x == y
  {
    assert x == (x as int) as Word;
    assert y == (y as int) as Word;
  }

  lemma WordValueBound(w: Word)
    ensures w as int < Pow2(32)
  {
    Pow2Of32();
  }

  /** The four-byte big-endian encoding of a word; reading it back gives the word. */
  function WordBytes(w: Word): (r: seq<byte>)
    ensures |r| == 4 && WordFromBytes(r) == w && BEValue(r) == w as int
  {
    var r := BEBytes(w as int, 4);
    WordValueBound(w);
    BEValueOfBEBytes(w as int, 4);
    assert r[..4] == r;
    WordFromBytesValue(r);
    WordValueInjective(WordFromBytes(r), w);
    r
  }

  /** Every four-byte string is the encoding of the word read from it. */
  lemma WordBytesOfWordFromBytes(b: seq<byte>)
    requires |b| == 4
    ensures WordBytes(WordFromBytes(b)) == b
  {
    assert b[..4] == b;
    WordFromBytesValue(b);
    BEBytesOfBEValue(b);
  }
}
