/** Byte strings and their unsigned big-endian reading, the arithmetic that
    `encoding/binary` and `math/big` perform for sha1.go. */
module Bytes {

  /** Go's `byte` (uint8). */
  type byte = bv8

  /** 2^k. */
  function Pow2(k: nat): (r: nat)
    ensures r >= 1
  {
    if k == 0 then 1 else 2 * Pow2(k - 1)
  }

  lemma {:induction false} Pow2Add(a: nat, b: nat)
    ensures Pow2(a + b) == Pow2(a) * Pow2(b)
  {
    if b > 0 {
      Pow2Add(a, b - 1);
      calc {
        Pow2(a + b);
        2 * Pow2(a + b - 1);
        2 * (Pow2(a) * Pow2(b - 1));
        Pow2(a) * (2 * Pow2(b - 1));
      }
    }
  }

  lemma Pow2Of32()
    ensures Pow2(32) == 0x1_0000_0000
  {
    Pow2Add(16, 16);
    Pow2Add(8, 8);
    assert Pow2(8) == 256;
  }

  lemma MulAtLeast(x: int, d: int)
    requires x >= 1 && d > 0
    ensures x * d >= d
  {
  }

  /** Euclidean division is determined by quotient and remainder. */
  lemma DivUnique(a: int, d: int, q: int, r: int)
    requires d > 0 && 0 <= r < d && a == q * d + r
    ensures a / d == q
  {
    var q', r' := a / d, a % d;
    if q' < q {
      MulAtLeast(q - q', d);
      assert false;
    } else if q' > q {
      MulAtLeast(q' - q, d);
      assert false;
    }
  }

  /** 2^(8(k+1)) is 256 times 2^(8k). */
  lemma Pow2NextByte(k: nat)
    ensures Pow2(8 * (k + 1)) == Pow2(8 * k) * 256
  {
    Pow2Add(8 * k, 8);
    assert Pow2(8) == 256;
  }

  /** Two bytes with the same value are the same byte. */
  lemma ByteValueInjective(x: byte, y: byte)
    requires x as int == y as int
    ensures x == y
  {
  }

  lemma ShiftInBit(h: byte, bit: byte)
    requires h < 128 && bit < 2
    ensures ((h << 1) | bit) as int == 2 * (h as int) + bit as int
  {
  }

  /** The byte whose value is n, built bit by bit from the most significant. */
  function ByteOf(n: nat): (b: byte)
    requires n < 256
    ensures b as int == n
  {
    if n == 0 then 0
    else
      var h := ByteOf(n / 2);
      var bit: byte := if n % 2 == 1 then 1 else 0;
      ShiftInBit(h, bit);
      (h << 1) | bit
  }

  /** The unsigned number that a byte string spells out, most significant byte first. */
  function BEValue(b: seq<byte>): (v: nat)
    ensures v < Pow2(8 * |b|)
  {
    if |b| == 0 then 0
    else
      var v := BEValue(b[..|b| - 1]);
      Pow2NextByte(|b| - 1);
      v * 256 + b[|b| - 1] as int
  }

  /** The k-byte big-endian encoding of n, keeping its low 8k bits
      (`binary.BigEndian.PutUint64` is the case k = 8). */
  function BEBytes(n: nat, k: nat): (r: seq<byte>)
    ensures |r| == k
  {
    if k == 0 then [] else BEBytes(n / 256, k - 1) + [ByteOf(n % 256)]
  }

  /** Reading back an encoding gives the number, when it fits in k bytes. */
  lemma {:induction false} BEValueOfBEBytes(n: nat, k: nat)
    requires n < Pow2(8 * k)
    ensures BEValue(BEBytes(n, k)) == n
  {
    if k > 0 {
      Pow2NextByte(k - 1);
      var s := BEBytes(n / 256, k - 1);
      assert BEBytes(n, k)[..k - 1] == s;
      BEValueOfBEBytes(n / 256, k - 1);
    }
  }

  /** Encoding the value of a byte string in as many bytes gives the string back. */
  lemma {:induction false} BEBytesOfBEValue(b: seq<byte>)
    ensures BEBytes(BEValue(b), |b|) == b
  {
    if |b| > 0 {
      var p := b[..|b| - 1];
      var x := b[|b| - 1];
      ByteValueInjective(ByteOf(x as int), x);
      assert BEValue(b) / 256 == BEValue(p);
      assert BEValue(b) % 256 == x as int;
      BEBytesOfBEValue(p);
      assert b == p + [x];
    }
  }

  lemma AppendArith(va: int, vi: int, p: int, x: int)
    ensures (va * p + vi) * 256 + x == va * (p * 256) + (vi * 256 + x)
  {
  }

  /** Appending bytes shifts the value read so far up by their width. */
  lemma {:induction false} BEValueAppend(a: seq<byte>, b: seq<byte>)
    ensures BEValue(a + b) == BEValue(a) * Pow2(8 * |b|) + BEValue(b)
  {
    if b == [] {
      assert a + b == a;
    } else {
      var init, x := b[..|b| - 1], b[|b| - 1] as int;
      var ab := a + b;
      assert ab[..|ab| - 1] == a + init && ab[|ab| - 1] as int == x;
      assert BEValue(ab) == BEValue(a + init) * 256 + x;
      BEValueAppend(a, init);
      Pow2NextByte(|init|);
      var va, vi, p := BEValue(a), BEValue(init), Pow2(8 * |init|);
      assert BEValue(b) == vi * 256 + x;
      AppendArith(va, vi, p, x);
    }
  }

  /** A leading zero byte does not change the value. */
  lemma BEValueLeadingZero(b: seq<byte>)
    ensures BEValue([0] + b) == BEValue(b)
  {
    BEValueAppend([0], b);
    assert [0][..0] == [];
    ZeroTimes(BEValue([0]), Pow2(8 * |b|), BEValue(b));
  }

  lemma ZeroTimes(z: nat, p: nat, v: nat)
    requires z == 0
    ensures z * p + v == v
  {
  }
}
