/** The digest: the final hash value h0..h4 as 20 bytes, and the way `Sum`
    produces them through `math/big` (shift, OR, minimal byte string, left
    padding with zeros). */
module Digest {
  import opened Bytes
  import opened Words
  import opened Compression

  /** The words of a hash value, h0 first. */
  function HashWords(h: HashValue): (ws: seq<Word>)
    ensures |ws| == 5
  {
    [h.h0, h.h1, h.h2, h.h3, h.h4]
  }

  /** The words laid end to end, each as four big-endian bytes. */
  function WordsBytes(ws: seq<Word>): (r: seq<byte>)
    ensures |r| == 4 * |ws|
  {
    if ws == [] then [] else WordsBytes(ws[..|ws| - 1]) + WordBytes(ws[|ws| - 1])
  }

  /** Bytes 4i..4i+3 of the concatenation are the encoding of word i. */
  lemma {:induction false} WordsBytesAt(ws: seq<Word>, i: nat)
    requires i < |ws|
    ensures WordsBytes(ws)[4 * i .. 4 * i + 4] == WordBytes(ws[i])
  {
    var init := ws[..|ws| - 1];
    if i < |ws| - 1 {
      WordsBytesAt(init, i);
      assert WordsBytes(ws)[4 * i .. 4 * i + 4] == WordsBytes(init)[4 * i .. 4 * i + 4];
    } else {
      assert WordsBytes(ws)[4 * i .. 4 * i + 4] == WordBytes(ws[i]);
    }
  }

  /** The 20-byte digest of a hash value: h0, h1, h2, h3, h4 in turn, each
      most significant byte first (FIPS 180-4 section 6.1.2). */
  function Serialize(h: HashValue): (r: seq<byte>)
    ensures |r| == 20
  {
    WordsBytes(HashWords(h))
  }

  /** The hash value read back from a digest. */
  function Deserialize(r: seq<byte>): HashValue
    requires |r| == 20
  {
    HashValue(WordFromBytes(r[0..4]), WordFromBytes(r[4..8]), WordFromBytes(r[8..12]),
              WordFromBytes(r[12..16]), WordFromBytes(r[16..20]))
  }

  /** Bytes 4i..4i+3 of the digest are the big-endian encoding of hi. */
  lemma SerializeWords(h: HashValue, i: nat)
    requires i < 5
    ensures Serialize(h)[4 * i .. 4 * i + 4] == WordBytes(HashWords(h)[i])
  {
    WordsBytesAt(HashWords(h), i);
  }

  /** Reading a digest back gives the hash value: no two hash values share a digest. */
  lemma DeserializeSerialize(h: HashValue)
    ensures Deserialize(Serialize(h)) == h
  {
    SerializeWords(h, 0);
    SerializeWords(h, 1);
    SerializeWords(h, 2);
    SerializeWords(h, 3);
    SerializeWords(h, 4);
  }

  /** The digest is the five encodings laid end to end. */
  lemma SerializeParts(h: HashValue)
    ensures Serialize(h) == WordBytes(h.h0) + WordBytes(h.h1) + WordBytes(h.h2) + WordBytes(h.h3) + WordBytes(h.h4)
  {
    var w1, w2, w3, w4, w5 := [h.h0], [h.h0, h.h1], [h.h0, h.h1, h.h2], [h.h0, h.h1, h.h2, h.h3], HashWords(h);
    assert w1[..0] == [];
    assert w2[..1] == w1;
    assert w3[..2] == w2;
    assert w4[..3] == w3;
    assert w5[..4] == w4;
    assert WordsBytes(w1) == WordBytes(h.h0);
    assert WordsBytes(w2) == WordsBytes(w1) + WordBytes(h.h1);
    assert WordsBytes(w3) == WordsBytes(w2) + WordBytes(h.h2);
    assert WordsBytes(w4) == WordsBytes(w3) + WordBytes(h.h3);
    assert WordsBytes(w5) == WordsBytes(w4) + WordBytes(h.h4);
  }

  lemma FiveSlices(r: seq<byte>)
    requires |r| == 20
    ensures r == r[0..4] + r[4..8] + r[8..12] + r[12..16] + r[16..20]
  {
    assert r[12..20] == r[12..16] + r[16..20];
    assert r[8..20] == r[8..12] + r[12..20];
    assert r[4..20] == r[4..8] + r[8..20];
    assert r == r[0..4] + r[4..20];
  }

  /** Every 20-byte string is the digest of the hash value read from it. */
  lemma SerializeDeserialize(r: seq<byte>)
    requires |r| == 20
    ensures Serialize(Deserialize(r)) == r
  {
    SerializeParts(Deserialize(r));
    WordBytesOfWordFromBytes(r[0..4]);
    WordBytesOfWordFromBytes(r[4..8]);
    WordBytesOfWordFromBytes(r[8..12]);
    WordBytesOfWordFromBytes(r[12..16]);
    WordBytesOfWordFromBytes(r[16..20]);
    FiveSlices(r);
  }

  /** `big.Int.Lsh`: x shifted left by n bits, one bit at a time. */
  function Lsh(x: nat, n: nat): nat
  {
    if n == 0 then x else 2 * Lsh(x, n - 1)
  }

  /** Shifting left by n bits multiplies by 2^n. */
  lemma {:induction false} LshMul(x: nat, n: nat)
    ensures Lsh(x, n) == x * Pow2(n)
  {
    if n > 0 {
      LshMul(x, n - 1);
    }
  }

  /** `big.Int.Or` on non-negative numbers: bitwise OR, bit by bit from the
      least significant. */
  function Or(x: nat, y: nat): nat
    decreases x + y
  {
    if x == 0 then y
    else if y == 0 then x
    else Or(x / 2, y / 2) * 2 + (if x % 2 == 1 || y % 2 == 1 then 1 else 0)
  }

  lemma MulTwo(a: nat, p: nat)
    ensures a * (2 * p) == (a * p) * 2
  {
  }

  /** OR of numbers with no bit in common is their sum: here a number whose
      low k bits are clear and one below 2^k. */
  lemma {:induction false} OrDisjoint(a: nat, b: nat, k: nat)
    requires b < Pow2(k)
    ensures Or(a * Pow2(k), b) == a * Pow2(k) + b
  {
    if k == 0 {
      assert b == 0;
    } else {
      var p := Pow2(k - 1);
      var m, x := a * p, a * Pow2(k);
      MulTwo(a, p);
      assert x == m * 2;
      if x != 0 && b != 0 {
        OrDisjoint(a, b / 2, k - 1);
        assert Or(x, b) == Or(m, b / 2) * 2 + b % 2;
      }
    }
  }

  lemma MulLess(a: nat, b: nat, c: nat)
    requires a < b && c > 0
    ensures a * c < b * c
  {
  }

  lemma Distribute(v: nat, w: nat, p: nat, q: nat, j: nat)
    requires j == v * p + w
    ensures v * (p * q) + w * q == j * q
  {
  }

  /** v with the 32-bit word w appended as its next, least significant, digit. */
  function Join(v: nat, w: nat): nat
  {
    Lsh(v, 32) + w
  }

  /** One step of the OR loop: v already shifted past word w's place, ORed
      with w shifted into its place, gains w as its next digit. */
  lemma OrStep(v: nat, w: nat, k: nat, a: nat, b: nat)
    requires w < Pow2(32)
    requires a == Lsh(v, 32 + k) && b == Lsh(w, k)
    ensures Or(a, b) == Lsh(Join(v, w), k)
  {
    var p, q, j := Pow2(32), Pow2(k), Join(v, w);
    Pow2Add(32, k);
    LshMul(v, 32 + k);
    assert a == v * (p * q);
    LshMul(w, k);
    assert b == w * q;
    MulLess(w, p, q);
    OrDisjoint(v, w * q, 32 + k);
    assert Or(a, b) == v * (p * q) + w * q;
    LshMul(v, 32);
    LshMul(j, k);
    Distribute(v, w, p, q, j);
  }

  /** `hh.Or(hh, x)` over a list, starting from 0. */
  function OrAll(xs: seq<nat>): nat
  {
    if xs == [] then 0 else Or(OrAll(xs[..|xs| - 1]), xs[|xs| - 1])
  }

  /** ORing a prefix one element longer ORs in that element. */
  lemma OrAllSnoc(xs: seq<nat>, n: nat)
    requires 0 < n <= |xs|
    ensures OrAll(xs[..n]) == Or(OrAll(xs[..n - 1]), xs[n - 1])
  {
    assert xs[..n][..n - 1] == xs[..n - 1];
  }

  /** The loop of `Sum` over h0 << 128, h1 << 96, h2 << 64, h3 << 32 and h4:
      the shifted words have no bit in common, so ORing them lays the five
      words side by side as one 160-bit number. */
  lemma OrAllShifted(a: nat, b: nat, c: nat, d: nat, e: nat)
    requires b < Pow2(32) && c < Pow2(32) && d < Pow2(32) && e < Pow2(32)
    ensures OrAll([Lsh(a, 128), Lsh(b, 96), Lsh(c, 64), Lsh(d, 32), e])
         == Join(Join(Join(Join(a, b), c), d), e)
  {
    var xs := [Lsh(a, 128), Lsh(b, 96), Lsh(c, 64), Lsh(d, 32), e];
    OrAllSnoc(xs, 1);
    assert xs[..0] == [];
    OrAllSnoc(xs, 2);
    OrStep(a, b, 96, OrAll(xs[..1]), xs[1]);
    OrAllSnoc(xs, 3);
    OrStep(Join(a, b), c, 64, OrAll(xs[..2]), xs[2]);
    OrAllSnoc(xs, 4);
    OrStep(Join(Join(a, b), c), d, 32, OrAll(xs[..3]), xs[3]);
    OrAllSnoc(xs, 5);
    assert xs[4] == Lsh(e, 0);
    OrStep(Join(Join(Join(a, b), c), d), e, 0, OrAll(xs[..4]), xs[4]);
    assert xs[..5] == xs;
  }

  /** Appending a word's four bytes appends the word as a base-2^32 digit. */
  lemma AppendWordValue(a: seq<byte>, w: Word)
    ensures BEValue(a + WordBytes(w)) == Join(BEValue(a), w as nat)
  {
    BEValueAppend(a, WordBytes(w));
    LshMul(BEValue(a), 32);
  }

  /** The digest read as a number is the five words side by side. */
  lemma SerializeValue(h: HashValue)
    ensures BEValue(Serialize(h)) == Join(Join(Join(Join(h.h0 as nat, h.h1 as nat), h.h2 as nat), h.h3 as nat), h.h4 as nat)
  {
    SerializeParts(h);
    var b0, b1, b2, b3 := WordBytes(h.h0), WordBytes(h.h1), WordBytes(h.h2), WordBytes(h.h3);
    AppendWordValue(b0, h.h1);
    AppendWordValue(b0 + b1, h.h2);
    AppendWordValue(b0 + b1 + b2, h.h3);
    AppendWordValue(b0 + b1 + b2 + b3, h.h4);
  }

  /** ORing the shifted words of a hash value gives its digest read as a number. */
  lemma OrAllDigest(h: HashValue)
    ensures OrAll([Lsh(h.h0 as nat, 128), Lsh(h.h1 as nat, 96), Lsh(h.h2 as nat, 64), Lsh(h.h3 as nat, 32), h.h4 as nat])
         == BEValue(Serialize(h))
  {
    WordValueBound(h.h1);
    WordValueBound(h.h2);
    WordValueBound(h.h3);
    WordValueBound(h.h4);
    OrAllShifted(h.h0 as nat, h.h1 as nat, h.h2 as nat, h.h3 as nat, h.h4 as nat);
    SerializeValue(h);
  }

  /** `big.Int.Bytes`: the big-endian bytes of n without leading zeros
      (none at all for zero). */
  function MinimalBytes(n: nat): (r: seq<byte>)
    ensures BEValue(r) == n
    ensures r != [] ==> r[0] != 0
  {
    if n == 0 then []
    else
      var r := MinimalBytes(n / 256) + [ByteOf(n % 256)];
      assert r[..|r| - 1] == MinimalBytes(n / 256);
      r
  }

  /** A number below 2^(8k) needs at most k bytes. */
  lemma {:induction false} MinimalBytesFits(n: nat, k: nat)
    requires n < Pow2(8 * k)
    ensures |MinimalBytes(n)| <= k
  {
    if n != 0 {
      assert k != 0;
      Pow2NextByte(k - 1);
      MinimalBytesFits(n / 256, k - 1);
    }
  }

  /** The first half of the final assembly of `Sum`: h0..h4 widened to big
      integers, shifted to their places in a 160-bit number and ORed
      together. The result is the digest read as a number. */
  method CombineWords(h0: Word, h1: Word, h2: Word, h3: Word, h4: Word) returns (hh: nat)
    ensures hh == BEValue(Serialize(HashValue(h0, h1, h2, h3, h4)))
  {
    var hh0 := h0 as nat;
    var hh1 := h1 as nat;
    var hh2 := h2 as nat;
    var hh3 := h3 as nat;
    var hh4 := h4 as nat;

    hh0 := Lsh(hh0, 128);
    hh1 := Lsh(hh1, 96);
    hh2 := Lsh(hh2, 64);
    hh3 := Lsh(hh3, 32);

    var hhs := [hh0, hh1, hh2, hh3, hh4];
    hh := 0;
    for i := 0 to |hhs|
      invariant hh == OrAll(hhs[..i])
    {
      OrAllSnoc(hhs, i + 1);
      hh := Or(hh, hhs[i]);
    }
    assert hhs[..5] == hhs;
    OrAllDigest(HashValue(h0, h1, h2, h3, h4));
  }

  /** The second half: `hh.Bytes()`, then zero bytes added at the front
      until there are 20. A number that needs more than 20 bytes is left
      as it is; one below 2^160 comes out as its 20-byte encoding. */
  method DigestBytes(hh: nat) returns (bytes: seq<byte>)
    ensures BEValue(bytes) == hh
    ensures |bytes| == if |MinimalBytes(hh)| < 20 then 20 else |MinimalBytes(hh)|
    ensures hh < Pow2(160) ==> bytes == BEBytes(hh, 20)
  {
    bytes := MinimalBytes(hh);
    if hh < Pow2(8 * 20) {
      MinimalBytesFits(hh, 20);
    }
    while |bytes| < 20
      invariant BEValue(bytes) == hh
      invariant |bytes| <= 20 || bytes == MinimalBytes(hh)
      invariant |MinimalBytes(hh)| <= |bytes|
    {
      BEValueLeadingZero(bytes);
      bytes := [0] + bytes;
    }
    BEBytesOfBEValue(bytes);
  }

  /** The final assembly of `Sum`: the result is the digest of h0..h4. */
  method FinalHash(h0: Word, h1: Word, h2: Word, h3: Word, h4: Word) returns (bytes: seq<byte>)
    ensures bytes == Serialize(HashValue(h0, h1, h2, h3, h4))
  {
    var hh := CombineWords(h0, h1, h2, h3, h4);
    bytes := DigestBytes(hh);
    BEBytesOfBEValue(Serialize(HashValue(h0, h1, h2, h3, h4)));
  }
}
