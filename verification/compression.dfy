/** The SHA-1 compression function: the message schedule, the 80 rounds
    and the feed-forward into the hash value (the body of the chunk loop of
    `Sum`). */
module Compression {
  import opened Bytes
  import opened Words
  import opened Chunking

  /** The five words h0..h4 that `Sum` carries from chunk to chunk. */
  datatype HashValue = HashValue(h0: Word, h1: Word, h2: Word, h3: Word, h4: Word)

  /** The working registers a..e of one chunk. */
  datatype WorkingVars = WorkingVars(a: Word, b: Word, c: Word, d: Word, e: Word)

  /** The initial hash value (FIPS 180-4 section 5.3.1). */
  const InitialHashValue := HashValue(0x67452301, 0xEFCDAB89, 0x98BADCFE, 0x10325476, 0xC3D2E1F0)

  /** "Choose" (rounds 0-19): bits of y where x is set, bits of z where it
      is clear. */
  function Ch(x: Word, y: Word, z: Word): Word
  {
    (x & y) | (!x & z)
  }

  /** "Parity" (rounds 20-39 and 60-79). */
  function Parity(x: Word, y: Word, z: Word): Word
  {
    x ^ y ^ z
  }

  /** "Majority" (rounds 40-59): each bit is set when at least two of x, y,
      z have it. */
  function Maj(x: Word, y: Word, z: Word): Word
  {
    (x & y) | (x & z) | (y & z)
  }

  /** f for round t. */
  function RoundFunction(t: nat, x: Word, y: Word, z: Word): Word
  {
    if t <= 19 then Ch(x, y, z)
    else if t <= 39 then Parity(x, y, z)
    else if t <= 59 then Maj(x, y, z)
    else Parity(x, y, z)
  }

  /** Go joins the terms of Ch and Maj with OR, FIPS 180-4 section 4.1.1
      with XOR; the two agree, so each range of rounds uses the function the
      standard gives for it. */
  lemma RoundFunctionIsStandard(t: nat, x: Word, y: Word, z: Word)
    ensures t <= 19 ==> RoundFunction(t, x, y, z) == (x & y) ^ (!x & z)
    ensures 20 <= t <= 39 || 60 <= t ==> RoundFunction(t, x, y, z) == x ^ y ^ z
    ensures 40 <= t <= 59 ==> RoundFunction(t, x, y, z) == (x & y) ^ (x & z) ^ (y & z)
  {
  }

  /** k for round t. */
  function RoundConstant(t: nat): Word
  {
    if t <= 19 then 0x5A827999
    else if t <= 39 then 0x6ED9EBA1
    else if t <= 59 then 0x8F1BBCDC
    else 0xCA62C1D6
  }

  /** The constants of FIPS 180-4 section 4.2.1, each used for twenty rounds. */
  lemma RoundConstantIsStandard(t: nat)
    requires t < 80
    ensures RoundConstant(t) == [0x5A827999, 0x6ED9EBA1, 0x8F1BBCDC, 0xCA62C1D6][t / 20]
  {
  }

  /** The intermediate value `temp` of a round: a rotated by 5, plus f, e, k
      and the schedule word, modulo 2^32. */
  function Temp(a: Word, f: Word, e: Word, k: Word, w: Word): Word
  {
    LeftRotate(a, 5) + f + e + k + w
  }

  /** Round t with schedule word w. */
  function Round(v: WorkingVars, t: nat, w: Word): WorkingVars
  {
    WorkingVars(Temp(v.a, RoundFunction(t, v.b, v.c, v.d), v.e, RoundConstant(t), w),
                v.a, LeftRotate(v.b, 30), v.c, v.d)
  }

  /** A round computed, as the main loop does, from register values and the
      f and k chosen for it. */
  lemma RoundStep(a: Word, b: Word, c: Word, d: Word, e: Word, t: nat, wt: Word, f: Word, k: Word)
    requires f == RoundFunction(t, b, c, d) && k == RoundConstant(t)
    ensures Round(WorkingVars(a, b, c, d, e), t, wt) == WorkingVars(Temp(a, f, e, k, wt), a, LeftRotate(b, 30), c, d)
  {
  }

  /** The registers move down the pipeline, each taking the value its
      predecessor had before the round (b rotated by 30 on its way into c),
      so b, c and d of the old registers can be read off the new ones. */
  lemma RoundShifts(v: WorkingVars, t: nat, w: Word)
    ensures var r := Round(v, t, w);
      r.b == v.a && LeftRotate(r.c, 2) == v.b && r.d == v.c && r.e == v.d
  {
    LeftRotateInverse(v.b, 30);
  }

  /** The sixteen words of a 64-byte block, each read big-endian from four bytes. */
  function BlockWords(block: seq<byte>): (m: seq<Word>)
    requires |block| == 64
    ensures |m| == 16
  {
    seq(16, i requires 0 <= i < 16 => WordFromBytes(block[4 * i .. 4 * i + 4]))
  }

  /** Schedule word t: the block's own words first, then each word the XOR
      of the words 3, 8, 14 and 16 places back, rotated left by one. */
  function ScheduleWord(m: seq<Word>, t: nat): Word
    requires |m| == 16 && t < 80
  {
    if t < 16 then m[t]
    else
      LeftRotate(ScheduleWord(m, t - 3) ^ ScheduleWord(m, t - 8)
                 ^ ScheduleWord(m, t - 14) ^ ScheduleWord(m, t - 16), 1)
  }

  /** A word computed from the four earlier schedule words, as the extension
      loop computes it, is the next schedule word. */
  lemma ScheduleWordStep(m: seq<Word>, t: nat, x3: Word, x8: Word, x14: Word, x16: Word)
    requires |m| == 16 && 16 <= t < 80
    requires x3 == ScheduleWord(m, t - 3) && x8 == ScheduleWord(m, t - 8)
    requires x14 == ScheduleWord(m, t - 14) && x16 == ScheduleWord(m, t - 16)
    ensures LeftRotate(x3 ^ x8 ^ x14 ^ x16, 1) == ScheduleWord(m, t)
  {
  }

  /** The eighty schedule words grown from the sixteen words m. */
  function Expand(m: seq<Word>): (w: seq<Word>)
    requires |m| == 16
    ensures |w| == 80
  {
    seq(80, t requires 0 <= t < 80 => ScheduleWord(m, t))
  }

  /** The 80-word message schedule of a block. */
  function Schedule(block: seq<byte>): (w: seq<Word>)
    requires |block| == 64
    ensures |w| == 80
  {
    Expand(BlockWords(block))
  }

  /** Words 0-15 of the schedule are the block read as big-endian numbers,
      four bytes each. */
  lemma ScheduleReadsBlock(block: seq<byte>)
    requires |block| == 64
    ensures forall t | 0 <= t < 16 :: Schedule(block)[t] as int == BEValue(block[4 * t .. 4 * t + 4])
  {
    forall t | 0 <= t < 16
      ensures Schedule(block)[t] as int == BEValue(block[4 * t .. 4 * t + 4])
    {
      var b := block[4 * t .. 4 * t + 4];
      assert b[..4] == b;
      WordFromBytesValue(b);
    }
  }

  /** Every later word is the XOR of the words 3, 8, 14 and 16 places back,
      rotated left by one. */
  lemma ExpandRecurrence(m: seq<Word>, t: nat)
    requires |m| == 16 && 16 <= t < 80
    ensures Expand(m)[t] == LeftRotate(Expand(m)[t - 3] ^ Expand(m)[t - 8] ^ Expand(m)[t - 14] ^ Expand(m)[t - 16], 1)
  {
    var w := Expand(m);
    ScheduleWordStep(m, t, w[t - 3], w[t - 8], w[t - 14], w[t - 16]);
  }

  /** The registers after the first n rounds, starting from v. */
  function Rounds(v: WorkingVars, w: seq<Word>, n: nat): WorkingVars
    requires |w| == 80 && n <= 80
  {
    if n == 0 then v else Round(Rounds(v, w, n - 1), n - 1, w[n - 1])
  }

  function Registers(h: HashValue): WorkingVars
  {
    WorkingVars(h.h0, h.h1, h.h2, h.h3, h.h4)
  }

  /** The 80 rounds of a block, started from the hash value. */
  function BlockRounds(h: HashValue, block: seq<byte>): WorkingVars
    requires |block| == 64
  {
    Rounds(Registers(h), Schedule(block), 80)
  }

  /** Processing one block: each hi is increased, modulo 2^32, by the
      register that ends the 80 rounds in its place. */
  function Compress(h: HashValue, block: seq<byte>): HashValue
    requires |block| == 64
  {
    var v := BlockRounds(h, block);
    HashValue(Add(h.h0, v.a), Add(h.h1, v.b), Add(h.h2, v.c), Add(h.h3, v.d), Add(h.h4, v.e))
  }

  predicate AllBlocks(blocks: seq<seq<byte>>)
  {
    forall i | 0 <= i < |blocks| :: |blocks[i]| == 64
  }

  /** The hash value after processing the blocks in order, starting from h. */
  function HashBlocks(h: HashValue, blocks: seq<seq<byte>>): HashValue
    requires AllBlocks(blocks)
  {
    if blocks == [] then h
    else Compress(HashBlocks(h, blocks[..|blocks| - 1]), blocks[|blocks| - 1])
  }

  /** Blocks are processed strictly one after another: hashing xs and then
      ys from the resulting value is hashing xs + ys. */
  lemma {:induction false} HashBlocksChain(h: HashValue, xs: seq<seq<byte>>, ys: seq<seq<byte>>)
    requires AllBlocks(xs) && AllBlocks(ys)
    ensures AllBlocks(xs + ys)
    ensures HashBlocks(h, xs + ys) == HashBlocks(HashBlocks(h, xs), ys)
  {
    if ys != [] {
      var zs := xs + ys;
      assert zs[..|zs| - 1] == xs + ys[..|ys| - 1];
      HashBlocksChain(h, xs, ys[..|ys| - 1]);
    } else {
      assert xs + ys == xs;
    }
  }

  /** The two message-schedule loops of `Sum`: the chunk is split into
      sixteen 4-byte words, read big-endian, and extended to eighty. */
  method MessageSchedule(chunk: seq<byte>) returns (wordsUint: array<Word>)
    requires |chunk| == 64
    ensures fresh(wordsUint) && wordsUint[..] == Schedule(chunk)
  {
    var wordsByte := BreakMessageIntoChunks(chunk, 32);
    ghost var m := BlockWords(chunk);
    wordsUint := new Word[80](_ => 0);
    for i := 0 to |wordsByte|
      invariant forall j | 0 <= j < i :: wordsUint[j] == m[j]
    {
      wordsUint[i] := WordFromBytes(wordsByte[i]);
    }
    assert wordsUint[..16] == m;
    ExtendSchedule(wordsUint);
  }

  /** The second schedule loop: words 16 to 79 filled in place from the
      sixteen words already in the array. */
  method ExtendSchedule(wordsUint: array<Word>)
    requires wordsUint.Length == 80
    modifies wordsUint
    ensures wordsUint[..] == Expand(old(wordsUint[..16]))
  {
    ghost var m := wordsUint[..16];
    ghost var s := Expand(m);
    for i := 16 to 80
      invariant forall j | 0 <= j < i :: wordsUint[j] == s[j]
    {
      ScheduleWordStep(m, i, wordsUint[i - 3], wordsUint[i - 8], wordsUint[i - 14], wordsUint[i - 16]);
      var x := LeftRotate(wordsUint[i - 3] ^ wordsUint[i - 8] ^ wordsUint[i - 14] ^ wordsUint[i - 16], 1);
      assert x == s[i];
      wordsUint[i] := x;
    }
  }

  /** The main loop of `Sum`: the 80 rounds over the schedule, starting
      from the registers h0..h4. */
  method MainLoop(h: HashValue, wordsUint: array<Word>) returns (a: Word, b: Word, c: Word, d: Word, e: Word)
    requires wordsUint.Length == 80
    ensures WorkingVars(a, b, c, d, e) == Rounds(Registers(h), wordsUint[..], 80)
  {
    a, b, c, d, e := h.h0, h.h1, h.h2, h.h3, h.h4;
    for i := 0 to 80
      invariant WorkingVars(a, b, c, d, e) == Rounds(Registers(h), wordsUint[..], i)
    {
      var f, k := RoundFunction(i, b, c, d), RoundConstant(i);
      RoundStep(a, b, c, d, e, i, wordsUint[i], f, k);
      var temp := Temp(a, f, e, k, wordsUint[i]);
      e := d;
      d := c;
      c := LeftRotate(b, 30);
      b := a;
      a := temp;
    }
  }

  /** One iteration of the chunk loop of `Sum`: schedule, rounds, and each
      hi increased by its register. */
  method ProcessChunk(h0: Word, h1: Word, h2: Word, h3: Word, h4: Word, chunk: seq<byte>)
    returns (r0: Word, r1: Word, r2: Word, r3: Word, r4: Word)
    requires |chunk| == 64
    ensures HashValue(r0, r1, r2, r3, r4) == Compress(HashValue(h0, h1, h2, h3, h4), chunk)
  {
    var wordsUint := MessageSchedule(chunk);
    var a, b, c, d, e := MainLoop(HashValue(h0, h1, h2, h3, h4), wordsUint);
    r0 := Add(h0, a);
    r1 := Add(h1, b);
    r2 := Add(h2, c);
    r3 := Add(h3, d);
    r4 := Add(h4, e);
  }
}
