/** Known answers, the first two messages sha1.go's own tests compare against
    the standard library: the SHA-1 digest of the empty message is
    da39a3ee5e6b4b0d3255bfef95601890afd80709, and that of "Hello World!" is
    2ef7bde608ce5404e97d5f042f95f89f1c232871. Each message is one block; the
    literal values below are its schedule words and the registers after
    every eighth round, each group proved from the ones before it. */
module KnownAnswer {
  import opened Bytes
  import opened Words
  import opened Padding
  import opened Compression
  import opened Digest
  import opened Sha1

  /** The registers at the start of the first block. */
  const Start: WorkingVars := Registers(InitialHashValue)

  /** The encoding of zero in any width is all zeros. */
  lemma {:induction false} BEBytesOfZero(k: nat)
    ensures BEBytes(0, k) == Zeros(k)
  {
    if k > 0 {
      BEBytesOfZero(k - 1);
      assert Zeros(k - 1) + [0] == Zeros(k);
    }
  }

  /** A number below 256 is encoded as zeros and one last byte. */
  lemma BEBytesOfByte(n: nat, k: nat)
    requires n < 256 && k > 0
    ensures BEBytes(n, k) == Zeros(k - 1) + [ByteOf(n)]
  {
    BEBytesOfZero(k - 1);
  }

  /** Word i of a block, read from its four bytes. */
  lemma WordAt(p: seq<byte>, i: nat, b0: byte, b1: byte, b2: byte, b3: byte)
    requires |p| == 64 && i < 16
    requires p[4 * i] == b0 && p[4 * i + 1] == b1 && p[4 * i + 2] == b2 && p[4 * i + 3] == b3
    ensures BlockWords(p)[i] == WordFromBytes([b0, b1, b2, b3])
  {
    assert p[4 * i .. 4 * i + 4] == [b0, b1, b2, b3];
  }

  // ---- the empty message ----

  const EmptyMessage: seq<byte> := []

  /** Its padded form, a single block. */
  const EmptyBlock: seq<byte> := Pad(EmptyMessage)

  /** The sixteen words of that block. */
  const EmptyWords: seq<Word> := BlockWords(EmptyBlock)

  /** The block: the message, the marker, zeros, and the bit length 0 in the last byte. */
  lemma EmptyLayout()
    ensures EmptyBlock == EmptyMessage + [0x80] + Zeros(55) + (Zeros(7) + [0x00])
  {
    assert LengthInBits(0) == 0 && ZeroFillLength(0) == 55;
    BEBytesOfByte(0, 8);
    ByteValueInjective(ByteOf(0), 0x00);
  }

  /** The words that are not zero. */
  lemma EmptyNonzeroWords()
    ensures EmptyWords[0] == 0x8000_0000
  {
    EmptyLayout();
    WordAt(EmptyBlock, 0, 0x80, 0x00, 0x00, 0x00);
  }

  /** Words 1 to 15 are zero. */
  lemma EmptyZeroWords()
    ensures forall t | 1 <= t < 16 :: EmptyWords[t] == 0
  {
    EmptyLayout();
    forall t | 1 <= t < 16
      ensures EmptyWords[t] == 0
    {
      assert EmptyBlock[4 * t .. 4 * t + 4] == [0, 0, 0, 0];
    }
  }

  /** Schedule words 16 to 23. */
  lemma EmptyScheduleWords16To23()
    ensures ScheduleWord(EmptyWords, 16) == 0x0000_0001
    ensures ScheduleWord(EmptyWords, 17) == 0x0000_0000
    ensures ScheduleWord(EmptyWords, 18) == 0x0000_0000
    ensures ScheduleWord(EmptyWords, 19) == 0x0000_0002
    ensures ScheduleWord(EmptyWords, 20) == 0x0000_0000
    ensures ScheduleWord(EmptyWords, 21) == 0x0000_0000
    ensures ScheduleWord(EmptyWords, 22) == 0x0000_0004
    ensures ScheduleWord(EmptyWords, 23) == 0x0000_0000
  {
    EmptyNonzeroWords();
    EmptyZeroWords();
    ScheduleWordStep(EmptyWords, 16, 0x0000_0000, 0x0000_0000, 0x0000_0000, 0x8000_0000);
    ScheduleWordStep(EmptyWords, 17, 0x0000_0000, 0x0000_0000, 0x0000_0000, 0x0000_0000);
    ScheduleWordStep(EmptyWords, 18, 0x0000_0000, 0x0000_0000, 0x0000_0000, 0x0000_0000);
    ScheduleWordStep(EmptyWords, 19, 0x0000_0001, 0x0000_0000, 0x0000_0000, 0x0000_0000);
    ScheduleWordStep(EmptyWords, 20, 0x0000_0000, 0x0000_0000, 0x0000_0000, 0x0000_0000);
    ScheduleWordStep(EmptyWords, 21, 0x0000_0000, 0x0000_0000, 0x0000_0000, 0x0000_0000);
    ScheduleWordStep(EmptyWords, 22, 0x0000_0002, 0x0000_0000, 0x0000_0000, 0x0000_0000);
    ScheduleWordStep(EmptyWords, 23, 0x0000_0000, 0x0000_0000, 0x0000_0000, 0x0000_0000);
  }

  /** Schedule words 24 to 31. */
  lemma EmptyScheduleWords24To31()
    ensures ScheduleWord(EmptyWords, 24) == 0x0000_0002
    ensures ScheduleWord(EmptyWords, 25) == 0x0000_0008
    ensures ScheduleWord(EmptyWords, 26) == 0x0000_0000
    ensures ScheduleWord(EmptyWords, 27) == 0x0000_0000
    ensures ScheduleWord(EmptyWords, 28) == 0x0000_0010
    ensures ScheduleWord(EmptyWords, 29) == 0x0000_0000
    ensures ScheduleWord(EmptyWords, 30) == 0x0000_000A
    ensures ScheduleWord(EmptyWords, 31) == 0x0000_0020
  {
    EmptyNonzeroWords();
    EmptyZeroWords();
    EmptyScheduleWords16To23();
    ScheduleWordStep(EmptyWords, 24, 0x0000_0000, 0x0000_0001, 0x0000_0000, 0x0000_0000);
    ScheduleWordStep(EmptyWords, 25, 0x0000_0004, 0x0000_0000, 0x0000_0000, 0x0000_0000);
    ScheduleWordStep(EmptyWords, 26, 0x0000_0000, 0x0000_0000, 0x0000_0000, 0x0000_0000);
    ScheduleWordStep(EmptyWords, 27, 0x0000_0002, 0x0000_0002, 0x0000_0000, 0x0000_0000);
    ScheduleWordStep(EmptyWords, 28, 0x0000_0008, 0x0000_0000, 0x0000_0000, 0x0000_0000);
    ScheduleWordStep(EmptyWords, 29, 0x0000_0000, 0x0000_0000, 0x0000_0000, 0x0000_0000);
    ScheduleWordStep(EmptyWords, 30, 0x0000_0000, 0x0000_0004, 0x0000_0001, 0x0000_0000);
    ScheduleWordStep(EmptyWords, 31, 0x0000_0010, 0x0000_0000, 0x0000_0000, 0x0000_0000);
  }

  /** Schedule words 32 to 39. */
  lemma EmptyScheduleWords32To39()
    ensures ScheduleWord(EmptyWords, 32) == 0x0000_0006
    ensures ScheduleWord(EmptyWords, 33) == 0x0000_0000
    ensures ScheduleWord(EmptyWords, 34) == 0x0000_0040
    ensures ScheduleWord(EmptyWords, 35) == 0x0000_0008
    ensures ScheduleWord(EmptyWords, 36) == 0x0000_0028
    ensures ScheduleWord(EmptyWords, 37) == 0x0000_0080
    ensures ScheduleWord(EmptyWords, 38) == 0x0000_0008
    ensures ScheduleWord(EmptyWords, 39) == 0x0000_0000
  {
    EmptyScheduleWords16To23();
    EmptyScheduleWords24To31();
    ScheduleWordStep(EmptyWords, 32, 0x0000_0000, 0x0000_0002, 0x0000_0000, 0x0000_0001);
    ScheduleWordStep(EmptyWords, 33, 0x0000_000A, 0x0000_0008, 0x0000_0002, 0x0000_0000);
    ScheduleWordStep(EmptyWords, 34, 0x0000_0020, 0x0000_0000, 0x0000_0000, 0x0000_0000);
    ScheduleWordStep(EmptyWords, 35, 0x0000_0006, 0x0000_0000, 0x0000_0000, 0x0000_0002);
    ScheduleWordStep(EmptyWords, 36, 0x0000_0000, 0x0000_0010, 0x0000_0004, 0x0000_0000);
    ScheduleWordStep(EmptyWords, 37, 0x0000_0040, 0x0000_0000, 0x0000_0000, 0x0000_0000);
    ScheduleWordStep(EmptyWords, 38, 0x0000_0008, 0x0000_000A, 0x0000_0002, 0x0000_0004);
    ScheduleWordStep(EmptyWords, 39, 0x0000_0028, 0x0000_0020, 0x0000_0008, 0x0000_0000);
  }

  /** Schedule words 40 to 47. */
  lemma EmptyScheduleWords40To47()
    ensures ScheduleWord(EmptyWords, 40) == 0x0000_0108
    ensures ScheduleWord(EmptyWords, 41) == 0x0000_0000
    ensures ScheduleWord(EmptyWords, 42) == 0x0000_00A0
    ensures ScheduleWord(EmptyWords, 43) == 0x0000_0200
    ensures ScheduleWord(EmptyWords, 44) == 0x0000_0064
    ensures ScheduleWord(EmptyWords, 45) == 0x0000_0000
    ensures ScheduleWord(EmptyWords, 46) == 0x0000_0408
    ensures ScheduleWord(EmptyWords, 47) == 0x0000_0088
  {
    EmptyScheduleWords24To31();
    EmptyScheduleWords32To39();
    ScheduleWordStep(EmptyWords, 40, 0x0000_0080, 0x0000_0006, 0x0000_0000, 0x0000_0002);
    ScheduleWordStep(EmptyWords, 41, 0x0000_0008, 0x0000_0000, 0x0000_0000, 0x0000_0008);
    ScheduleWordStep(EmptyWords, 42, 0x0000_0000, 0x0000_0040, 0x0000_0010, 0x0000_0000);
    ScheduleWordStep(EmptyWords, 43, 0x0000_0108, 0x0000_0008, 0x0000_0000, 0x0000_0000);
    ScheduleWordStep(EmptyWords, 44, 0x0000_0000, 0x0000_0028, 0x0000_000A, 0x0000_0010);
    ScheduleWordStep(EmptyWords, 45, 0x0000_00A0, 0x0000_0080, 0x0000_0020, 0x0000_0000);
    ScheduleWordStep(EmptyWords, 46, 0x0000_0200, 0x0000_0008, 0x0000_0006, 0x0000_000A);
    ScheduleWordStep(EmptyWords, 47, 0x0000_0064, 0x0000_0000, 0x0000_0000, 0x0000_0020);
  }

  /** Schedule words 48 to 55. */
  lemma EmptyScheduleWords48To55()
    ensures ScheduleWord(EmptyWords, 48) == 0x0000_029C
    ensures ScheduleWord(EmptyWords, 49) == 0x0000_0800
    ensures ScheduleWord(EmptyWords, 50) == 0x0000_0080
    ensures ScheduleWord(EmptyWords, 51) == 0x0000_0028
    ensures ScheduleWord(EmptyWords, 52) == 0x0000_1088
    ensures ScheduleWord(EmptyWords, 53) == 0x0000_0000
    ensures ScheduleWord(EmptyWords, 54) == 0x0000_0A40
    ensures ScheduleWord(EmptyWords, 55) == 0x0000_2000
  {
    EmptyScheduleWords32To39();
    EmptyScheduleWords40To47();
    ScheduleWordStep(EmptyWords, 48, 0x0000_0000, 0x0000_0108, 0x0000_0040, 0x0000_0006);
    ScheduleWordStep(EmptyWords, 49, 0x0000_0408, 0x0000_0000, 0x0000_0008, 0x0000_0000);
    ScheduleWordStep(EmptyWords, 50, 0x0000_0088, 0x0000_00A0, 0x0000_0028, 0x0000_0040);
    ScheduleWordStep(EmptyWords, 51, 0x0000_029C, 0x0000_0200, 0x0000_0080, 0x0000_0008);
    ScheduleWordStep(EmptyWords, 52, 0x0000_0800, 0x0000_0064, 0x0000_0008, 0x0000_0028);
    ScheduleWordStep(EmptyWords, 53, 0x0000_0080, 0x0000_0000, 0x0000_0000, 0x0000_0080);
    ScheduleWordStep(EmptyWords, 54, 0x0000_0028, 0x0000_0408, 0x0000_0108, 0x0000_0008);
    ScheduleWordStep(EmptyWords, 55, 0x0000_1088, 0x0000_0088, 0x0000_0000, 0x0000_0000);
  }

  /** Schedule words 56 to 63. */
  lemma EmptyScheduleWords56To63()
    ensures ScheduleWord(EmptyWords, 56) == 0x0000_0668
    ensures ScheduleWord(EmptyWords, 57) == 0x0000_0080
    ensures ScheduleWord(EmptyWords, 58) == 0x0000_4088
    ensures ScheduleWord(EmptyWords, 59) == 0x0000_0880
    ensures ScheduleWord(EmptyWords, 60) == 0x0000_28C8
    ensures ScheduleWord(EmptyWords, 61) == 0x0000_8000
    ensures ScheduleWord(EmptyWords, 62) == 0x0000_08A8
    ensures ScheduleWord(EmptyWords, 63) == 0x0000_0080
  {
    EmptyScheduleWords40To47();
    EmptyScheduleWords48To55();
    ScheduleWordStep(EmptyWords, 56, 0x0000_0000, 0x0000_029C, 0x0000_00A0, 0x0000_0108);
    ScheduleWordStep(EmptyWords, 57, 0x0000_0A40, 0x0000_0800, 0x0000_0200, 0x0000_0000);
    ScheduleWordStep(EmptyWords, 58, 0x0000_2000, 0x0000_0080, 0x0000_0064, 0x0000_00A0);
    ScheduleWordStep(EmptyWords, 59, 0x0000_0668, 0x0000_0028, 0x0000_0000, 0x0000_0200);
    ScheduleWordStep(EmptyWords, 60, 0x0000_0080, 0x0000_1088, 0x0000_0408, 0x0000_0064);
    ScheduleWordStep(EmptyWords, 61, 0x0000_4088, 0x0000_0000, 0x0000_0088, 0x0000_0000);
    ScheduleWordStep(EmptyWords, 62, 0x0000_0880, 0x0000_0A40, 0x0000_029C, 0x0000_0408);
    ScheduleWordStep(EmptyWords, 63, 0x0000_28C8, 0x0000_2000, 0x0000_0800, 0x0000_0088);
  }

  /** Schedule words 64 to 71. */
  lemma EmptyScheduleWords64To71()
    ensures ScheduleWord(EmptyWords, 64) == 0x0001_08E8
    ensures ScheduleWord(EmptyWords, 65) == 0x0000_0000
    ensures ScheduleWord(EmptyWords, 66) == 0x0000_A000
    ensures ScheduleWord(EmptyWords, 67) == 0x0002_0080
    ensures ScheduleWord(EmptyWords, 68) == 0x0000_6400
    ensures ScheduleWord(EmptyWords, 69) == 0x0000_0000
    ensures ScheduleWord(EmptyWords, 70) == 0x0004_0800
    ensures ScheduleWord(EmptyWords, 71) == 0x0000_8800
  {
    EmptyScheduleWords48To55();
    EmptyScheduleWords56To63();
    ScheduleWordStep(EmptyWords, 64, 0x0000_8000, 0x0000_0668, 0x0000_0080, 0x0000_029C);
    ScheduleWordStep(EmptyWords, 65, 0x0000_08A8, 0x0000_0080, 0x0000_0028, 0x0000_0800);
    ScheduleWordStep(EmptyWords, 66, 0x0000_0080, 0x0000_4088, 0x0000_1088, 0x0000_0080);
    ScheduleWordStep(EmptyWords, 67, 0x0001_08E8, 0x0000_0880, 0x0000_0000, 0x0000_0028);
    ScheduleWordStep(EmptyWords, 68, 0x0000_0000, 0x0000_28C8, 0x0000_0A40, 0x0000_1088);
    ScheduleWordStep(EmptyWords, 69, 0x0000_A000, 0x0000_8000, 0x0000_2000, 0x0000_0000);
    ScheduleWordStep(EmptyWords, 70, 0x0002_0080, 0x0000_08A8, 0x0000_0668, 0x0000_0A40);
    ScheduleWordStep(EmptyWords, 71, 0x0000_6400, 0x0000_0080, 0x0000_0080, 0x0000_2000);
  }

  /** Schedule words 72 to 79. */
  lemma EmptyScheduleWords72To79()
    ensures ScheduleWord(EmptyWords, 72) == 0x0002_9C10
    ensures ScheduleWord(EmptyWords, 73) == 0x0008_0000
    ensures ScheduleWord(EmptyWords, 74) == 0x0000_8080
    ensures ScheduleWord(EmptyWords, 75) == 0x0000_2820
    ensures ScheduleWord(EmptyWords, 76) == 0x0010_88C0
    ensures ScheduleWord(EmptyWords, 77) == 0x0000_0000
    ensures ScheduleWord(EmptyWords, 78) == 0x000A_40C0
    ensures ScheduleWord(EmptyWords, 79) == 0x0020_0080
  {
    EmptyScheduleWords56To63();
    EmptyScheduleWords64To71();
    ScheduleWordStep(EmptyWords, 72, 0x0000_0000, 0x0001_08E8, 0x0000_4088, 0x0000_0668);
    ScheduleWordStep(EmptyWords, 73, 0x0004_0800, 0x0000_0000, 0x0000_0880, 0x0000_0080);
    ScheduleWordStep(EmptyWords, 74, 0x0000_8800, 0x0000_A000, 0x0000_28C8, 0x0000_4088);
    ScheduleWordStep(EmptyWords, 75, 0x0002_9C10, 0x0002_0080, 0x0000_8000, 0x0000_0880);
    ScheduleWordStep(EmptyWords, 76, 0x0008_0000, 0x0000_6400, 0x0000_08A8, 0x0000_28C8);
    ScheduleWordStep(EmptyWords, 77, 0x0000_8080, 0x0000_0000, 0x0000_0080, 0x0000_8000);
    ScheduleWordStep(EmptyWords, 78, 0x0000_2820, 0x0004_0800, 0x0001_08E8, 0x0000_08A8);
    ScheduleWordStep(EmptyWords, 79, 0x0010_88C0, 0x0000_8800, 0x0000_0000, 0x0000_0080);
  }

  /** The registers after 8 rounds. */
  lemma EmptyRoundsTo8()
    ensures Rounds(Start, Schedule(EmptyBlock), 8) == WorkingVars(0x8707_4800, 0xC09D_7F27, 0xB912_ADD9, 0x9254_D597, 0x737B_3ED7)
  {
    EmptyNonzeroWords();
    EmptyZeroWords();
    var w := Schedule(EmptyBlock);
    assert w[1] == 0 && w[2] == 0 && w[3] == 0 && w[4] == 0 && w[5] == 0 && w[6] == 0 && w[7] == 0;
    assert Rounds(Start, w, 1) == Round(WorkingVars(0x6745_2301, 0xEFCD_AB89, 0x98BA_DCFE, 0x1032_5476, 0xC3D2_E1F0), 0, 0x8000_0000);
    assert Rounds(Start, w, 2) == Round(WorkingVars(0x1FB4_98B3, 0x6745_2301, 0x7BF3_6AE2, 0x98BA_DCFE, 0x1032_5476), 1, 0x0000_0000);
    assert Rounds(Start, w, 3) == Round(WorkingVars(0x5D43_E370, 0x1FB4_98B3, 0x59D1_48C0, 0x7BF3_6AE2, 0x98BA_DCFE), 2, 0x0000_0000);
    assert Rounds(Start, w, 4) == Round(WorkingVars(0x158D_2F62, 0x5D43_E370, 0xC7ED_262C, 0x59D1_48C0, 0x7BF3_6AE2), 3, 0x0000_0000);
    assert Rounds(Start, w, 5) == Round(WorkingVars(0xCDEC_FB5D, 0x158D_2F62, 0x1750_F8DC, 0xC7ED_262C, 0x59D1_48C0), 4, 0x0000_0000);
    assert Rounds(Start, w, 6) == Round(WorkingVars(0x4953_565E, 0xCDEC_FB5D, 0x8563_4BD8, 0x1750_F8DC, 0xC7ED_262C), 5, 0x0000_0000);
    assert Rounds(Start, w, 7) == Round(WorkingVars(0xE44A_B766, 0x4953_565E, 0x737B_3ED7, 0x8563_4BD8, 0x1750_F8DC), 6, 0x0000_0000);
    assert Rounds(Start, w, 8) == Round(WorkingVars(0xC09D_7F27, 0xE44A_B766, 0x9254_D597, 0x737B_3ED7, 0x8563_4BD8), 7, 0x0000_0000);
  }

  /** The registers after 16 rounds. */
  lemma EmptyRoundsTo16()
    ensures Rounds(Start, Schedule(EmptyBlock), 16) == WorkingVars(0xD8FD_6547, 0x4018_2905, 0x4544_B22E, 0xA130_17AC, 0xAB70_3832)
  {
    EmptyRoundsTo8();
    EmptyNonzeroWords();
    EmptyZeroWords();
    var w := Schedule(EmptyBlock);
    assert w[8] == 0 && w[9] == 0 && w[10] == 0 && w[11] == 0 && w[12] == 0 && w[13] == 0 && w[14] == 0 && w[15] == 0;
    assert Rounds(Start, w, 9) == Round(WorkingVars(0x8707_4800, 0xC09D_7F27, 0xB912_ADD9, 0x9254_D597, 0x737B_3ED7), 8, 0x0000_0000);
    assert Rounds(Start, w, 10) == Round(WorkingVars(0x4137_6611, 0x8707_4800, 0xF027_5FC9, 0xB912_ADD9, 0x9254_D597), 9, 0x0000_0000);
    assert Rounds(Start, w, 11) == Round(WorkingVars(0xCBDB_FF31, 0x4137_6611, 0x21C1_D200, 0xF027_5FC9, 0xB912_ADD9), 10, 0x0000_0000);
    assert Rounds(Start, w, 12) == Round(WorkingVars(0x4016_6973, 0xCBDB_FF31, 0x504D_D984, 0x21C1_D200, 0xF027_5FC9), 11, 0x0000_0000);
    assert Rounds(Start, w, 13) == Round(WorkingVars(0xADC0_E0CA, 0x4016_6973, 0x72F6_FFCC, 0x504D_D984, 0x21C1_D200), 12, 0x0000_0000);
    assert Rounds(Start, w, 14) == Round(WorkingVars(0x84C0_5EB2, 0xADC0_E0CA, 0xD005_9A5C, 0x72F6_FFCC, 0x504D_D984), 13, 0x0000_0000);
    assert Rounds(Start, w, 15) == Round(WorkingVars(0x1512_C8B9, 0x84C0_5EB2, 0xAB70_3832, 0xD005_9A5C, 0x72F6_FFCC), 14, 0x0000_0000);
    assert Rounds(Start, w, 16) == Round(WorkingVars(0x4018_2905, 0x1512_C8B9, 0xA130_17AC, 0xAB70_3832, 0xD005_9A5C), 15, 0x0000_0000);
  }

  /** The registers after 24 rounds. */
  lemma EmptyRoundsTo24()
    ensures Rounds(Start, Schedule(EmptyBlock), 24) == WorkingVars(0x1E97_B73A, 0x1C64_D028, 0x5F6E_DE1F, 0x243A_E614, 0xB9D6_3A36)
  {
    EmptyRoundsTo16();
    EmptyScheduleWords16To23();
    var w := Schedule(EmptyBlock);
    assert Rounds(Start, w, 17) == Round(WorkingVars(0xD8FD_6547, 0x4018_2905, 0x4544_B22E, 0xA130_17AC, 0xAB70_3832), 16, 0x0000_0001);
    assert Rounds(Start, w, 18) == Round(WorkingVars(0x06BF_9173, 0xD8FD_6547, 0x5006_0A41, 0x4544_B22E, 0xA130_17AC), 17, 0x0000_0000);
    assert Rounds(Start, w, 19) == Round(WorkingVars(0x28A9_520E, 0x06BF_9173, 0xF63F_5951, 0x5006_0A41, 0x4544_B22E), 18, 0x0000_0000);
    assert Rounds(Start, w, 20) == Round(WorkingVars(0x0B30_88DD, 0x28A9_520E, 0xC1AF_E45C, 0xF63F_5951, 0x5006_0A41), 19, 0x0000_0002);
    assert Rounds(Start, w, 21) == Round(WorkingVars(0xE758_E8DA, 0x0B30_88DD, 0x8A2A_5483, 0xC1AF_E45C, 0xF63F_5951), 20, 0x0000_0000);
    assert Rounds(Start, w, 22) == Round(WorkingVars(0x90EB_9850, 0xE758_E8DA, 0x42CC_2237, 0x8A2A_5483, 0xC1AF_E45C), 21, 0x0000_0000);
    assert Rounds(Start, w, 23) == Round(WorkingVars(0x7DBB_787D, 0x90EB_9850, 0xB9D6_3A36, 0x42CC_2237, 0x8A2A_5483), 22, 0x0000_0004);
    assert Rounds(Start, w, 24) == Round(WorkingVars(0x1C64_D028, 0x7DBB_787D, 0x243A_E614, 0xB9D6_3A36, 0x42CC_2237), 23, 0x0000_0000);
  }

  /** The registers after 32 rounds. */
  lemma EmptyRoundsTo32()
    ensures Rounds(Start, Schedule(EmptyBlock), 32) == WorkingVars(0x62EA_3D59, 0x6A2E_466E, 0xF291_55B2, 0xE1D2_DE1B, 0x71EC_478B)
  {
    EmptyRoundsTo24();
    EmptyScheduleWords24To31();
    var w := Schedule(EmptyBlock);
    assert Rounds(Start, w, 25) == Round(WorkingVars(0x1E97_B73A, 0x1C64_D028, 0x5F6E_DE1F, 0x243A_E614, 0xB9D6_3A36), 24, 0x0000_0002);
    assert Rounds(Start, w, 26) == Round(WorkingVars(0x62D7_F53F, 0x1E97_B73A, 0x0719_340A, 0x5F6E_DE1F, 0x243A_E614), 25, 0x0000_0008);
    assert Rounds(Start, w, 27) == Round(WorkingVars(0x34F3_D6D8, 0x62D7_F53F, 0x87A5_EDCE, 0x0719_340A, 0x5F6E_DE1F), 26, 0x0000_0000);
    assert Rounds(Start, w, 28) == Round(WorkingVars(0x4F2E_D1C1, 0x34F3_D6D8, 0xD8B5_FD4F, 0x87A5_EDCE, 0x0719_340A), 27, 0x0000_0000);
    assert Rounds(Start, w, 29) == Round(WorkingVars(0xC7B1_1E2D, 0x4F2E_D1C1, 0x0D3C_F5B6, 0xD8B5_FD4F, 0x87A5_EDCE), 28, 0x0000_0010);
    assert Rounds(Start, w, 30) == Round(WorkingVars(0x874B_786F, 0xC7B1_1E2D, 0x53CB_B470, 0x0D3C_F5B6, 0xD8B5_FD4F), 29, 0x0000_0000);
    assert Rounds(Start, w, 31) == Round(WorkingVars(0xCA45_56CB, 0x874B_786F, 0x71EC_478B, 0x53CB_B470, 0x0D3C_F5B6), 30, 0x0000_000A);
    assert Rounds(Start, w, 32) == Round(WorkingVars(0x6A2E_466E, 0xCA45_56CB, 0xE1D2_DE1B, 0x71EC_478B, 0x53CB_B470), 31, 0x0000_0020);
  }

  /** The registers after 40 rounds. */
  lemma EmptyRoundsTo40()
    ensures Rounds(Start, Schedule(EmptyBlock), 40) == WorkingVars(0x9BDB_DD71, 0x6227_3351, 0xEC80_5E22, 0x413C_1D9A, 0x2AEE_AE62)
  {
    EmptyRoundsTo32();
    EmptyScheduleWords32To39();
    var w := Schedule(EmptyBlock);
    assert Rounds(Start, w, 33) == Round(WorkingVars(0x62EA_3D59, 0x6A2E_466E, 0xF291_55B2, 0xE1D2_DE1B, 0x71EC_478B), 32, 0x0000_0006);
    assert Rounds(Start, w, 34) == Round(WorkingVars(0xB77B_AC25, 0x62EA_3D59, 0x9A8B_919B, 0xF291_55B2, 0xE1D2_DE1B), 33, 0x0000_0000);
    assert Rounds(Start, w, 35) == Round(WorkingVars(0x4B13_47E2, 0xB77B_AC25, 0x58BA_8F56, 0x9A8B_919B, 0xF291_55B2), 34, 0x0000_0040);
    assert Rounds(Start, w, 36) == Round(WorkingVars(0x391E_F0C4, 0x4B13_47E2, 0x6DDE_EB09, 0x58BA_8F56, 0x9A8B_919B), 35, 0x0000_0008);
    assert Rounds(Start, w, 37) == Round(WorkingVars(0xABBA_B988, 0x391E_F0C4, 0x92C4_D1F8, 0x6DDE_EB09, 0x58BA_8F56), 36, 0x0000_0028);
    assert Rounds(Start, w, 38) == Round(WorkingVars(0x04F0_7669, 0xABBA_B988, 0x0E47_BC31, 0x92C4_D1F8, 0x6DDE_EB09), 37, 0x0000_0080);
    assert Rounds(Start, w, 39) == Round(WorkingVars(0xB201_788B, 0x04F0_7669, 0x2AEE_AE62, 0x0E47_BC31, 0x92C4_D1F8), 38, 0x0000_0008);
    assert Rounds(Start, w, 40) == Round(WorkingVars(0x6227_3351, 0xB201_788B, 0x413C_1D9A, 0x2AEE_AE62, 0x0E47_BC31), 39, 0x0000_0000);
  }

  /** The registers after 48 rounds. */
  lemma EmptyRoundsTo48()
    ensures Rounds(Start, Schedule(EmptyBlock), 48) == WorkingVars(0xE6D3_9F43, 0xA195_BA90, 0xEBF9_A56A, 0x7787_8E80, 0xBEA5_42AE)
  {
    EmptyRoundsTo40();
    EmptyScheduleWords40To47();
    var w := Schedule(EmptyBlock);
    assert Rounds(Start, w, 41) == Round(WorkingVars(0x9BDB_DD71, 0x6227_3351, 0xEC80_5E22, 0x413C_1D9A, 0x2AEE_AE62), 40, 0x0000_0108);
    assert Rounds(Start, w, 42) == Round(WorkingVars(0x95AA_398B, 0x9BDB_DD71, 0x5889_CCD4, 0xEC80_5E22, 0x413C_1D9A), 41, 0x0000_0000);
    assert Rounds(Start, w, 43) == Round(WorkingVars(0x5E28_E858, 0x95AA_398B, 0x66F6_F75C, 0x5889_CCD4, 0xEC80_5E22), 42, 0x0000_00A0);
    assert Rounds(Start, w, 44) == Round(WorkingVars(0x9564_2485, 0x5E28_E858, 0xE56A_8E62, 0x66F6_F75C, 0x5889_CCD4), 43, 0x0000_0200);
    assert Rounds(Start, w, 45) == Round(WorkingVars(0xFA95_0ABA, 0x9564_2485, 0x178A_3A16, 0xE56A_8E62, 0x66F6_F75C), 44, 0x0000_0064);
    assert Rounds(Start, w, 46) == Round(WorkingVars(0xDE1E_3A01, 0xFA95_0ABA, 0x6559_0921, 0x178A_3A16, 0xE56A_8E62), 45, 0x0000_0000);
    assert Rounds(Start, w, 47) == Round(WorkingVars(0xAFE6_95AB, 0xDE1E_3A01, 0xBEA5_42AE, 0x6559_0921, 0x178A_3A16), 46, 0x0000_0408);
    assert Rounds(Start, w, 48) == Round(WorkingVars(0xA195_BA90, 0xAFE6_95AB, 0x7787_8E80, 0xBEA5_42AE, 0x6559_0921), 47, 0x0000_0088);
  }

  /** The registers after 56 rounds. */
  lemma EmptyRoundsTo56()
    ensures Rounds(Start, Schedule(EmptyBlock), 56) == WorkingVars(0xBE4A_4BEA, 0x8590_C0E8, 0xAB95_B950, 0xD5B3_9CEA, 0x3896_0738)
  {
    EmptyRoundsTo48();
    EmptyScheduleWords48To55();
    var w := Schedule(EmptyBlock);
    assert Rounds(Start, w, 49) == Round(WorkingVars(0xE6D3_9F43, 0xA195_BA90, 0xEBF9_A56A, 0x7787_8E80, 0xBEA5_42AE), 48, 0x0000_029C);
    assert Rounds(Start, w, 50) == Round(WorkingVars(0x0BCA_9922, 0xE6D3_9F43, 0x2865_6EA4, 0xEBF9_A56A, 0x7787_8E80), 49, 0x0000_0800);
    assert Rounds(Start, w, 51) == Round(WorkingVars(0x6AE8_26FF, 0x0BCA_9922, 0xF9B4_E7D0, 0x2865_6EA4, 0xEBF9_A56A), 50, 0x0000_0080);
    assert Rounds(Start, w, 52) == Round(WorkingVars(0x01FF_3253, 0x6AE8_26FF, 0x82F2_A648, 0xF9B4_E7D0, 0x2865_6EA4), 51, 0x0000_0028);
    assert Rounds(Start, w, 53) == Round(WorkingVars(0xE258_1CE0, 0x01FF_3253, 0xDABA_09BF, 0x82F2_A648, 0xF9B4_E7D0), 52, 0x0000_1088);
    assert Rounds(Start, w, 54) == Round(WorkingVars(0x56CE_73AB, 0xE258_1CE0, 0xC07F_CC94, 0xDABA_09BF, 0x82F2_A648), 53, 0x0000_0000);
    assert Rounds(Start, w, 55) == Round(WorkingVars(0xAE56_E542, 0x56CE_73AB, 0x3896_0738, 0xC07F_CC94, 0xDABA_09BF), 54, 0x0000_0A40);
    assert Rounds(Start, w, 56) == Round(WorkingVars(0x8590_C0E8, 0xAE56_E542, 0xD5B3_9CEA, 0x3896_0738, 0xC07F_CC94), 55, 0x0000_2000);
  }

  /** The registers after 64 rounds. */
  lemma EmptyRoundsTo64()
    ensures Rounds(Start, Schedule(EmptyBlock), 64) == WorkingVars(0xBB0F_226F, 0xCD98_FBB7, 0xE16E_7489, 0xF4DF_6E4D, 0xE6E7_4A44)
  {
    EmptyRoundsTo56();
    EmptyScheduleWords56To63();
    var w := Schedule(EmptyBlock);
    assert Rounds(Start, w, 57) == Round(WorkingVars(0xBE4A_4BEA, 0x8590_C0E8, 0xAB95_B950, 0xD5B3_9CEA, 0x3896_0738), 56, 0x0000_0668);
    assert Rounds(Start, w, 58) == Round(WorkingVars(0x168C_E0BB, 0xBE4A_4BEA, 0x2164_303A, 0xAB95_B950, 0xD5B3_9CEA), 57, 0x0000_0080);
    assert Rounds(Start, w, 59) == Round(WorkingVars(0xE1AF_AB22, 0x168C_E0BB, 0xAF92_92FA, 0x2164_303A, 0xAB95_B950), 58, 0x0000_4088);
    assert Rounds(Start, w, 60) == Round(WorkingVars(0x982B_CBCA, 0xE1AF_AB22, 0xC5A3_382E, 0xAF92_92FA, 0x2164_303A), 59, 0x0000_0880);
    assert Rounds(Start, w, 61) == Round(WorkingVars(0x9B9D_2913, 0x982B_CBCA, 0xB86B_EAC8, 0xC5A3_382E, 0xAF92_92FA), 60, 0x0000_28C8);
    assert Rounds(Start, w, 62) == Round(WorkingVars(0xD37D_B937, 0x9B9D_2913, 0xA60A_F2F2, 0xB86B_EAC8, 0xC5A3_382E), 61, 0x0000_8000);
    assert Rounds(Start, w, 63) == Round(WorkingVars(0x85B9_D227, 0xD37D_B937, 0xE6E7_4A44, 0xA60A_F2F2, 0xB86B_EAC8), 62, 0x0000_08A8);
    assert Rounds(Start, w, 64) == Round(WorkingVars(0xCD98_FBB7, 0x85B9_D227, 0xF4DF_6E4D, 0xE6E7_4A44, 0xA60A_F2F2), 63, 0x0000_0080);
  }

  /** The registers after 72 rounds. */
  lemma EmptyRoundsTo72()
    ensures Rounds(Start, Schedule(EmptyBlock), 72) == WorkingVars(0xB47D_DF0E, 0x3CD5_17F9, 0x140F_1EB8, 0xE2E8_0189, 0x39E6_BEFC)
  {
    EmptyRoundsTo64();
    EmptyScheduleWords64To71();
    var w := Schedule(EmptyBlock);
    assert Rounds(Start, w, 65) == Round(WorkingVars(0xBB0F_226F, 0xCD98_FBB7, 0xE16E_7489, 0xF4DF_6E4D, 0xE6E7_4A44), 64, 0x0001_08E8);
    assert Rounds(Start, w, 66) == Round(WorkingVars(0xEB59_446C, 0xBB0F_226F, 0xF366_3EED, 0xE16E_7489, 0xF4DF_6E4D), 65, 0x0000_0000);
    assert Rounds(Start, w, 67) == Round(WorkingVars(0xD372_25CB, 0xEB59_446C, 0xEEC3_C89B, 0xF366_3EED, 0xE16E_7489), 66, 0x0000_A000);
    assert Rounds(Start, w, 68) == Round(WorkingVars(0x1113_41F3, 0xD372_25CB, 0x3AD6_511B, 0xEEC3_C89B, 0xF366_3EED), 67, 0x0002_0080);
    assert Rounds(Start, w, 69) == Round(WorkingVars(0xE79A_FBF0, 0x1113_41F3, 0xF4DC_8972, 0x3AD6_511B, 0xEEC3_C89B), 68, 0x0000_6400);
    assert Rounds(Start, w, 70) == Round(WorkingVars(0x8BA0_0627, 0xE79A_FBF0, 0xC444_D07C, 0xF4DC_8972, 0x3AD6_511B), 69, 0x0000_0000);
    assert Rounds(Start, w, 71) == Round(WorkingVars(0x503C_7AE0, 0x8BA0_0627, 0x39E6_BEFC, 0xC444_D07C, 0xF4DC_8972), 70, 0x0004_0800);
    assert Rounds(Start, w, 72) == Round(WorkingVars(0x3CD5_17F9, 0x503C_7AE0, 0xE2E8_0189, 0x39E6_BEFC, 0xC444_D07C), 71, 0x0000_8800);
  }

  /** The registers after 80 rounds. */
  lemma EmptyRoundsTo80()
    ensures Rounds(Start, Schedule(EmptyBlock), 80) == WorkingVars(0x72F4_80ED, 0x6E9D_9F84, 0x999A_E2F1, 0x852D_C41A, 0xEC05_2519)
  {
    EmptyRoundsTo72();
    EmptyScheduleWords72To79();
    var w := Schedule(EmptyBlock);
    assert Rounds(Start, w, 73) == Round(WorkingVars(0xB47D_DF0E, 0x3CD5_17F9, 0x140F_1EB8, 0xE2E8_0189, 0x39E6_BEFC), 72, 0x0002_9C10);
    assert Rounds(Start, w, 74) == Round(WorkingVars(0x5E3A_0780, 0xB47D_DF0E, 0x4F35_45FE, 0x140F_1EB8, 0xE2E8_0189), 73, 0x0008_0000);
    assert Rounds(Start, w, 75) == Round(WorkingVars(0x63DB_37B2, 0x5E3A_0780, 0xAD1F_77C3, 0x4F35_45FE, 0x140F_1EB8), 74, 0x0000_8080);
    assert Rounds(Start, w, 76) == Round(WorkingVars(0x15E9_8D17, 0x63DB_37B2, 0x178E_81E0, 0xAD1F_77C3, 0x4F35_45FE), 75, 0x0000_2820);
    assert Rounds(Start, w, 77) == Round(WorkingVars(0xB014_9467, 0x15E9_8D17, 0x98F6_CDEC, 0x178E_81E0, 0xAD1F_77C3), 76, 0x0010_88C0);
    assert Rounds(Start, w, 78) == Round(WorkingVars(0x14B7_106A, 0xB014_9467, 0xC57A_6345, 0x98F6_CDEC, 0x178E_81E0), 77, 0x0000_0000);
    assert Rounds(Start, w, 79) == Round(WorkingVars(0x666B_8BC6, 0x14B7_106A, 0xEC05_2519, 0xC57A_6345, 0x98F6_CDEC), 78, 0x000A_40C0);
    assert Rounds(Start, w, 80) == Round(WorkingVars(0x6E9D_9F84, 0x666B_8BC6, 0x852D_C41A, 0xEC05_2519, 0xC57A_6345), 79, 0x0020_0080);
  }

  /** The hash value after the single block. */
  lemma EmptyHashValue()
    ensures HashBlocks(InitialHashValue, Blocks(EmptyMessage)) == HashValue(0xDA39_A3EE, 0x5E6B_4B0D, 0x3255_BFEF, 0x9560_1890, 0xAFD8_0709)
  {
    assert Pad(EmptyMessage)[..64] == EmptyBlock;
    assert Blocks(EmptyMessage) == [EmptyBlock];
    assert [EmptyBlock][..0] == [];
    EmptyRoundsTo80();
  }

  /** `Sum` of the empty message: 20 bytes that spell, most significant first, the
      number da39a3ee5e6b4b0d3255bfef95601890afd80709, and that read back as the words h0..h4 of that
      hex string. */
  lemma EmptyDigest()
    ensures |Hash(EmptyMessage)| == 20
    ensures BEValue(Hash(EmptyMessage)) == 0xda39a3ee_5e6b4b0d_3255bfef_95601890_afd80709
    ensures Deserialize(Hash(EmptyMessage)) == HashValue(0xDA39_A3EE, 0x5E6B_4B0D, 0x3255_BFEF, 0x9560_1890, 0xAFD8_0709)
  {
    EmptyHashValue();
    var h := HashValue(0xDA39_A3EE, 0x5E6B_4B0D, 0x3255_BFEF, 0x9560_1890, 0xAFD8_0709);
    SerializeValue(h);
    Pow2Of32();
    LshMul(3661210606, 32);
    LshMul(15724779818122431245, 32);
    LshMul(67537415055636670322128044015, 32);
    LshMul(290070988920337519491873734171379636368, 32);
  }

  // ---- "Hello World!" ----

  const HelloMessage: seq<byte> := [0x48, 0x65, 0x6c, 0x6c, 0x6f, 0x20, 0x57, 0x6f, 0x72, 0x6c, 0x64, 0x21]

  /** Its padded form, a single block. */
  const HelloBlock: seq<byte> := Pad(HelloMessage)

  /** The sixteen words of that block. */
  const HelloWords: seq<Word> := BlockWords(HelloBlock)

  /** The block: the message, the marker, zeros, and the bit length 96 in the last byte. */
  lemma HelloLayout()
    ensures HelloBlock == HelloMessage + [0x80] + Zeros(43) + (Zeros(7) + [0x60])
  {
    assert LengthInBits(12) == 96 && ZeroFillLength(12) == 43;
    BEBytesOfByte(96, 8);
    ByteValueInjective(ByteOf(96), 0x60);
  }

  /** The words that are not zero. */
  lemma HelloNonzeroWords()
    ensures HelloWords[0] == 0x4865_6C6C
    ensures HelloWords[1] == 0x6F20_576F
    ensures HelloWords[2] == 0x726C_6421
    ensures HelloWords[3] == 0x8000_0000
    ensures HelloWords[15] == 0x0000_0060
  {
    HelloLayout();
    WordAt(HelloBlock, 0, 0x48, 0x65, 0x6c, 0x6c);
    WordAt(HelloBlock, 1, 0x6f, 0x20, 0x57, 0x6f);
    WordAt(HelloBlock, 2, 0x72, 0x6c, 0x64, 0x21);
    WordAt(HelloBlock, 3, 0x80, 0x00, 0x00, 0x00);
    WordAt(HelloBlock, 15, 0x00, 0x00, 0x00, 0x60);
  }

  /** Words 4 to 14 are zero. */
  lemma HelloZeroWords()
    ensures forall t | 4 <= t < 15 :: HelloWords[t] == 0
  {
    HelloLayout();
    forall t | 4 <= t < 15
      ensures HelloWords[t] == 0
    {
      assert HelloBlock[4 * t .. 4 * t + 4] == [0, 0, 0, 0];
    }
  }

  /** Schedule words 16 to 23. */
  lemma HelloScheduleWords16To23()
    ensures ScheduleWord(HelloWords, 16) == 0x7412_109A
    ensures ScheduleWord(HelloWords, 17) == 0xDE40_AEDF
    ensures ScheduleWord(HelloWords, 18) == 0xE4D8_C882
    ensures ScheduleWord(HelloWords, 19) == 0xE824_2135
    ensures ScheduleWord(HelloWords, 20) == 0xBC81_5DBF
    ensures ScheduleWord(HelloWords, 21) == 0xC9B1_9105
    ensures ScheduleWord(HelloWords, 22) == 0xD048_426B
    ensures ScheduleWord(HelloWords, 23) == 0x7902_BBBF
  {
    HelloNonzeroWords();
    HelloZeroWords();
    ScheduleWordStep(HelloWords, 16, 0x0000_0000, 0x0000_0000, 0x726C_6421, 0x4865_6C6C);
    ScheduleWordStep(HelloWords, 17, 0x0000_0000, 0x0000_0000, 0x8000_0000, 0x6F20_576F);
    ScheduleWordStep(HelloWords, 18, 0x0000_0060, 0x0000_0000, 0x0000_0000, 0x726C_6421);
    ScheduleWordStep(HelloWords, 19, 0x7412_109A, 0x0000_0000, 0x0000_0000, 0x8000_0000);
    ScheduleWordStep(HelloWords, 20, 0xDE40_AEDF, 0x0000_0000, 0x0000_0000, 0x0000_0000);
    ScheduleWordStep(HelloWords, 21, 0xE4D8_C882, 0x0000_0000, 0x0000_0000, 0x0000_0000);
    ScheduleWordStep(HelloWords, 22, 0xE824_2135, 0x0000_0000, 0x0000_0000, 0x0000_0000);
    ScheduleWordStep(HelloWords, 23, 0xBC81_5DBF, 0x0000_0060, 0x0000_0000, 0x0000_0000);
  }

  /** Schedule words 24 to 31. */
  lemma HelloScheduleWords24To31()
    ensures ScheduleWord(HelloWords, 24) == 0x7B47_033F
    ensures ScheduleWord(HelloWords, 25) == 0x1C11_D968
    ensures ScheduleWord(HelloWords, 26) == 0x3BB4_E67B
    ensures ScheduleWord(HelloWords, 27) == 0x26C6_4415
    ensures ScheduleWord(HelloWords, 28) == 0x4121_09AF
    ensures ScheduleWord(HelloWords, 29) == 0xE40A_EE3D
    ensures ScheduleWord(HelloWords, 30) == 0x0538_2DC9
    ensures ScheduleWord(HelloWords, 31) == 0xCCC6_395F
  {
    HelloNonzeroWords();
    HelloZeroWords();
    HelloScheduleWords16To23();
    ScheduleWordStep(HelloWords, 24, 0xC9B1_9105, 0x7412_109A, 0x0000_0000, 0x0000_0000);
    ScheduleWordStep(HelloWords, 25, 0xD048_426B, 0xDE40_AEDF, 0x0000_0000, 0x0000_0000);
    ScheduleWordStep(HelloWords, 26, 0x7902_BBBF, 0xE4D8_C882, 0x0000_0000, 0x0000_0000);
    ScheduleWordStep(HelloWords, 27, 0x7B47_033F, 0xE824_2135, 0x0000_0000, 0x0000_0000);
    ScheduleWordStep(HelloWords, 28, 0x1C11_D968, 0xBC81_5DBF, 0x0000_0000, 0x0000_0000);
    ScheduleWordStep(HelloWords, 29, 0x3BB4_E67B, 0xC9B1_9105, 0x0000_0060, 0x0000_0000);
    ScheduleWordStep(HelloWords, 30, 0x26C6_4415, 0xD048_426B, 0x7412_109A, 0x0000_0000);
    ScheduleWordStep(HelloWords, 31, 0x4121_09AF, 0x7902_BBBF, 0xDE40_AEDF, 0x0000_0060);
  }

  /** Schedule words 32 to 39. */
  lemma HelloScheduleWords32To39()
    ensures ScheduleWord(HelloWords, 32) == 0x1F0E_6A34
    ensures ScheduleWord(HelloWords, 33) == 0x5E9A_F696
    ensures ScheduleWord(HelloWords, 34) == 0x5E56_9433
    ensures ScheduleWord(HelloWords, 35) == 0x30BB_3C22
    ensures ScheduleWord(HelloWords, 36) == 0xE6E5_C1DA
    ensures ScheduleWord(HelloWords, 37) == 0x15DE_A168
    ensures ScheduleWord(HelloWords, 38) == 0x3D18_A17F
    ensures ScheduleWord(HelloWords, 39) == 0x9E61_34A4
  {
    HelloScheduleWords16To23();
    HelloScheduleWords24To31();
    ScheduleWordStep(HelloWords, 32, 0xE40A_EE3D, 0x7B47_033F, 0xE4D8_C882, 0x7412_109A);
    ScheduleWordStep(HelloWords, 33, 0x0538_2DC9, 0x1C11_D968, 0xE824_2135, 0xDE40_AEDF);
    ScheduleWordStep(HelloWords, 34, 0xCCC6_395F, 0x3BB4_E67B, 0xBC81_5DBF, 0xE4D8_C882);
    ScheduleWordStep(HelloWords, 35, 0x1F0E_6A34, 0x26C6_4415, 0xC9B1_9105, 0xE824_2135);
    ScheduleWordStep(HelloWords, 36, 0x5E9A_F696, 0x4121_09AF, 0xD048_426B, 0xBC81_5DBF);
    ScheduleWordStep(HelloWords, 37, 0x5E56_9433, 0xE40A_EE3D, 0x7902_BBBF, 0xC9B1_9105);
    ScheduleWordStep(HelloWords, 38, 0x30BB_3C22, 0x0538_2DC9, 0x7B47_033F, 0xD048_426B);
    ScheduleWordStep(HelloWords, 39, 0xE6E5_C1DA, 0xCCC6_395F, 0x1C11_D968, 0x7902_BBBF);
  }

  /** Schedule words 40 to 47. */
  lemma HelloScheduleWords40To47()
    ensures ScheduleWord(HelloWords, 40) == 0x9446_5C30
    ensures ScheduleWord(HelloWords, 41) == 0xB2AB_9528
    ensures ScheduleWord(HelloWords, 42) == 0x7544_9E87
    ensures ScheduleWord(HelloWords, 43) == 0xCC63_9474
    ensures ScheduleWord(HelloWords, 44) == 0x20AE_E128
    ensures ScheduleWord(HelloWords, 45) == 0x90AD_D11A
    ensures ScheduleWord(HelloWords, 46) == 0xD69A_E5ED
    ensures ScheduleWord(HelloWords, 47) == 0x5926_348A
  {
    HelloScheduleWords24To31();
    HelloScheduleWords32To39();
    ScheduleWordStep(HelloWords, 40, 0x15DE_A168, 0x1F0E_6A34, 0x3BB4_E67B, 0x7B47_033F);
    ScheduleWordStep(HelloWords, 41, 0x3D18_A17F, 0x5E9A_F696, 0x26C6_4415, 0x1C11_D968);
    ScheduleWordStep(HelloWords, 42, 0x9E61_34A4, 0x5E56_9433, 0x4121_09AF, 0x3BB4_E67B);
    ScheduleWordStep(HelloWords, 43, 0x9446_5C30, 0x30BB_3C22, 0xE40A_EE3D, 0x26C6_4415);
    ScheduleWordStep(HelloWords, 44, 0xB2AB_9528, 0xE6E5_C1DA, 0x0538_2DC9, 0x4121_09AF);
    ScheduleWordStep(HelloWords, 45, 0x7544_9E87, 0x15DE_A168, 0xCCC6_395F, 0xE40A_EE3D);
    ScheduleWordStep(HelloWords, 46, 0xCC63_9474, 0x3D18_A17F, 0x1F0E_6A34, 0x0538_2DC9);
    ScheduleWordStep(HelloWords, 47, 0x20AE_E128, 0x9E61_34A4, 0x5E9A_F696, 0xCCC6_395F);
  }

  /** Schedule words 48 to 55. */
  lemma HelloScheduleWords48To55()
    ensures ScheduleWord(HelloWords, 48) == 0x8B66_E65A
    ensures ScheduleWord(HelloWords, 49) == 0x1421_74E2
    ensures ScheduleWord(HelloWords, 50) == 0x29A3_FFC9
    ensures ScheduleWord(HelloWords, 51) == 0xC4C1_DEC8
    ensures ScheduleWord(HelloWords, 52) == 0xDEE5_EADF
    ensures ScheduleWord(HelloWords, 53) == 0x6563_763E
    ensures ScheduleWord(HelloWords, 54) == 0x760B_8CD5
    ensures ScheduleWord(HelloWords, 55) == 0x5612_FFB3
  {
    HelloScheduleWords32To39();
    HelloScheduleWords40To47();
    ScheduleWordStep(HelloWords, 48, 0x90AD_D11A, 0x9446_5C30, 0x5E56_9433, 0x1F0E_6A34);
    ScheduleWordStep(HelloWords, 49, 0xD69A_E5ED, 0xB2AB_9528, 0x30BB_3C22, 0x5E9A_F696);
    ScheduleWordStep(HelloWords, 50, 0x5926_348A, 0x7544_9E87, 0xE6E5_C1DA, 0x5E56_9433);
    ScheduleWordStep(HelloWords, 51, 0x8B66_E65A, 0xCC63_9474, 0x15DE_A168, 0x30BB_3C22);
    ScheduleWordStep(HelloWords, 52, 0x1421_74E2, 0x20AE_E128, 0x3D18_A17F, 0xE6E5_C1DA);
    ScheduleWordStep(HelloWords, 53, 0x29A3_FFC9, 0x90AD_D11A, 0x9E61_34A4, 0x15DE_A168);
    ScheduleWordStep(HelloWords, 54, 0xC4C1_DEC8, 0xD69A_E5ED, 0x9446_5C30, 0x3D18_A17F);
    ScheduleWordStep(HelloWords, 55, 0xDEE5_EADF, 0x5926_348A, 0xB2AB_9528, 0x9E61_34A4);
  }

  /** Schedule words 56 to 63. */
  lemma HelloScheduleWords56To63()
    ensures ScheduleWord(HelloWords, 56) == 0x1E0E_A5A6
    ensures ScheduleWord(HelloWords, 57) == 0x39C5_F2D6
    ensures ScheduleWord(HelloWords, 58) == 0x54B6_FFAA
    ensures ScheduleWord(HelloWords, 59) == 0x0C02_7C01
    ensures ScheduleWord(HelloWords, 60) == 0x2228_3998
    ensures ScheduleWord(HelloWords, 61) == 0xF0BC_D809
    ensures ScheduleWord(HelloWords, 62) == 0x4FEB_E6C6
    ensures ScheduleWord(HelloWords, 63) == 0x727B_0C86
  {
    HelloScheduleWords40To47();
    HelloScheduleWords48To55();
    ScheduleWordStep(HelloWords, 56, 0x6563_763E, 0x8B66_E65A, 0x7544_9E87, 0x9446_5C30);
    ScheduleWordStep(HelloWords, 57, 0x760B_8CD5, 0x1421_74E2, 0xCC63_9474, 0xB2AB_9528);
    ScheduleWordStep(HelloWords, 58, 0x5612_FFB3, 0x29A3_FFC9, 0x20AE_E128, 0x7544_9E87);
    ScheduleWordStep(HelloWords, 59, 0x1E0E_A5A6, 0xC4C1_DEC8, 0x90AD_D11A, 0xCC63_9474);
    ScheduleWordStep(HelloWords, 60, 0x39C5_F2D6, 0xDEE5_EADF, 0xD69A_E5ED, 0x20AE_E128);
    ScheduleWordStep(HelloWords, 61, 0x54B6_FFAA, 0x6563_763E, 0x5926_348A, 0x90AD_D11A);
    ScheduleWordStep(HelloWords, 62, 0x0C02_7C01, 0x760B_8CD5, 0x8B66_E65A, 0xD69A_E5ED);
    ScheduleWordStep(HelloWords, 63, 0x2228_3998, 0x5612_FFB3, 0x1421_74E2, 0x5926_348A);
  }

  /** Schedule words 64 to 71. */
  lemma HelloScheduleWords64To71()
    ensures ScheduleWord(HelloWords, 64) == 0x98EE_C878
    ensures ScheduleWord(HelloWords, 65) == 0x4D9D_7C75
    ensures ScheduleWord(HelloWords, 66) == 0xA317_CC75
    ensures ScheduleWord(HelloWords, 67) == 0x6A9C_391E
    ensures ScheduleWord(HelloWords, 68) == 0x8EB6_47CF
    ensures ScheduleWord(HelloWords, 69) == 0xC1B5_3BE2
    ensures ScheduleWord(HelloWords, 70) == 0x9AE5_ED56
    ensures ScheduleWord(HelloWords, 71) == 0x2634_8C59
  {
    HelloScheduleWords48To55();
    HelloScheduleWords56To63();
    ScheduleWordStep(HelloWords, 64, 0xF0BC_D809, 0x1E0E_A5A6, 0x29A3_FFC9, 0x8B66_E65A);
    ScheduleWordStep(HelloWords, 65, 0x4FEB_E6C6, 0x39C5_F2D6, 0xC4C1_DEC8, 0x1421_74E2);
    ScheduleWordStep(HelloWords, 66, 0x727B_0C86, 0x54B6_FFAA, 0xDEE5_EADF, 0x29A3_FFC9);
    ScheduleWordStep(HelloWords, 67, 0x98EE_C878, 0x0C02_7C01, 0x6563_763E, 0xC4C1_DEC8);
    ScheduleWordStep(HelloWords, 68, 0x4D9D_7C75, 0x2228_3998, 0x760B_8CD5, 0xDEE5_EADF);
    ScheduleWordStep(HelloWords, 69, 0xA317_CC75, 0xF0BC_D809, 0x5612_FFB3, 0x6563_763E);
    ScheduleWordStep(HelloWords, 70, 0x6A9C_391E, 0x4FEB_E6C6, 0x1E0E_A5A6, 0x760B_8CD5);
    ScheduleWordStep(HelloWords, 71, 0x8EB6_47CF, 0x727B_0C86, 0x39C5_F2D6, 0x5612_FFB3);
  }

  /** Schedule words 72 to 79. */
  lemma HelloScheduleWords72To79()
    ensures ScheduleWord(HelloWords, 72) == 0x27C7_532C
    ensures ScheduleWord(HelloWords, 73) == 0xC57E_3FE9
    ensures ScheduleWord(HelloWords, 74) == 0xE77B_0C3D
    ensures ScheduleWord(HelloWords, 75) == 0x63CB_9C75
    ensures ScheduleWord(HelloWords, 76) == 0x4C17_4EF0
    ensures ScheduleWord(HelloWords, 77) == 0x4813_C6A1
    ensures ScheduleWord(HelloWords, 78) == 0x5C56_BF3A
    ensures ScheduleWord(HelloWords, 79) == 0xAB8B_64B4
  {
    HelloScheduleWords56To63();
    HelloScheduleWords64To71();
    ScheduleWordStep(HelloWords, 72, 0xC1B5_3BE2, 0x98EE_C878, 0x54B6_FFAA, 0x1E0E_A5A6);
    ScheduleWordStep(HelloWords, 73, 0x9AE5_ED56, 0x4D9D_7C75, 0x0C02_7C01, 0x39C5_F2D6);
    ScheduleWordStep(HelloWords, 74, 0x2634_8C59, 0xA317_CC75, 0x2228_3998, 0x54B6_FFAA);
    ScheduleWordStep(HelloWords, 75, 0x27C7_532C, 0x6A9C_391E, 0xF0BC_D809, 0x0C02_7C01);
    ScheduleWordStep(HelloWords, 76, 0xC57E_3FE9, 0x8EB6_47CF, 0x4FEB_E6C6, 0x2228_3998);
    ScheduleWordStep(HelloWords, 77, 0xE77B_0C3D, 0xC1B5_3BE2, 0x727B_0C86, 0xF0BC_D809);
    ScheduleWordStep(HelloWords, 78, 0x63CB_9C75, 0x9AE5_ED56, 0x98EE_C878, 0x4FEB_E6C6);
    ScheduleWordStep(HelloWords, 79, 0x4C17_4EF0, 0x2634_8C59, 0x4D9D_7C75, 0x727B_0C86);
  }

  /** The registers after 8 rounds. */
  lemma HelloRoundsTo8()
    ensures Rounds(Start, Schedule(HelloBlock), 8) == WorkingVars(0x2C4C_BC95, 0xE501_2FAE, 0x86B2_9628, 0x198E_9AA1, 0x2A6F_3FEE)
  {
    HelloNonzeroWords();
    HelloZeroWords();
    var w := Schedule(HelloBlock);
    assert w[4] == 0 && w[5] == 0 && w[6] == 0 && w[7] == 0;
    assert Rounds(Start, w, 1) == Round(WorkingVars(0x6745_2301, 0xEFCD_AB89, 0x98BA_DCFE, 0x1032_5476, 0xC3D2_E1F0), 0, 0x4865_6C6C);
    assert Rounds(Start, w, 2) == Round(WorkingVars(0xE81A_051F, 0x6745_2301, 0x7BF3_6AE2, 0x98BA_DCFE, 0x1032_5476), 1, 0x6F20_576F);
    assert Rounds(Start, w, 3) == Round(WorkingVars(0xD911_C879, 0xE81A_051F, 0x59D1_48C0, 0x7BF3_6AE2, 0x98BA_DCFE), 2, 0x726C_6421);
    assert Rounds(Start, w, 4) == Round(WorkingVars(0xE3D4_34D3, 0xD911_C879, 0xFA06_8147, 0x59D1_48C0, 0x7BF3_6AE2), 3, 0x8000_0000);
    assert Rounds(Start, w, 5) == Round(WorkingVars(0xA9BC_FFB8, 0xE3D4_34D3, 0x7644_721E, 0xFA06_8147, 0x59D1_48C0), 4, 0x0000_0000);
    assert Rounds(Start, w, 6) == Round(WorkingVars(0x663A_6A84, 0xA9BC_FFB8, 0xF8F5_0D34, 0x7644_721E, 0xFA06_8147), 5, 0x0000_0000);
    assert Rounds(Start, w, 7) == Round(WorkingVars(0x1ACA_58A2, 0x663A_6A84, 0x2A6F_3FEE, 0xF8F5_0D34, 0x7644_721E), 6, 0x0000_0000);
    assert Rounds(Start, w, 8) == Round(WorkingVars(0xE501_2FAE, 0x1ACA_58A2, 0x198E_9AA1, 0x2A6F_3FEE, 0xF8F5_0D34), 7, 0x0000_0000);
  }

  /** The registers after 16 rounds. */
  lemma HelloRoundsTo16()
    ensures Rounds(Start, Schedule(HelloBlock), 16) == WorkingVars(0xFF89_2196, 0x2B54_F246, 0x6F09_EA9A, 0x2BD3_02BC, 0x3B4D_8110)
  {
    HelloRoundsTo8();
    HelloNonzeroWords();
    HelloZeroWords();
    var w := Schedule(HelloBlock);
    assert w[8] == 0 && w[9] == 0 && w[10] == 0 && w[11] == 0 && w[12] == 0 && w[13] == 0 && w[14] == 0;
    assert Rounds(Start, w, 9) == Round(WorkingVars(0x2C4C_BC95, 0xE501_2FAE, 0x86B2_9628, 0x198E_9AA1, 0x2A6F_3FEE), 8, 0x0000_0000);
    assert Rounds(Start, w, 10) == Round(WorkingVars(0xAB17_E255, 0x2C4C_BC95, 0xB940_4BEB, 0x86B2_9628, 0x198E_9AA1), 9, 0x0000_0000);
    assert Rounds(Start, w, 11) == Round(WorkingVars(0x81FF_6998, 0xAB17_E255, 0x4B13_2F25, 0xB940_4BEB, 0x86B2_9628), 10, 0x0000_0000);
    assert Rounds(Start, w, 12) == Round(WorkingVars(0x3C75_6E80, 0x81FF_6998, 0x6AC5_F895, 0x4B13_2F25, 0xB940_4BEB), 11, 0x0000_0000);
    assert Rounds(Start, w, 13) == Round(WorkingVars(0xED36_0440, 0x3C75_6E80, 0x207F_DA66, 0x6AC5_F895, 0x4B13_2F25), 12, 0x0000_0000);
    assert Rounds(Start, w, 14) == Round(WorkingVars(0xAF4C_0AF0, 0xED36_0440, 0x0F1D_5BA0, 0x207F_DA66, 0x6AC5_F895), 13, 0x0000_0000);
    assert Rounds(Start, w, 15) == Round(WorkingVars(0xBC27_AA69, 0xAF4C_0AF0, 0x3B4D_8110, 0x0F1D_5BA0, 0x207F_DA66), 14, 0x0000_0000);
    assert Rounds(Start, w, 16) == Round(WorkingVars(0x2B54_F246, 0xBC27_AA69, 0x2BD3_02BC, 0x3B4D_8110, 0x0F1D_5BA0), 15, 0x0000_0060);
  }

  /** The registers after 24 rounds. */
  lemma HelloRoundsTo24()
    ensures Rounds(Start, Schedule(HelloBlock), 24) == WorkingVars(0x4006_09E6, 0xEE9F_E9A9, 0xC68C_706A, 0xBA91_7156, 0x495B_2078)
  {
    HelloRoundsTo16();
    HelloScheduleWords16To23();
    var w := Schedule(HelloBlock);
    assert Rounds(Start, w, 17) == Round(WorkingVars(0xFF89_2196, 0x2B54_F246, 0x6F09_EA9A, 0x2BD3_02BC, 0x3B4D_8110), 16, 0x7412_109A);
    assert Rounds(Start, w, 18) == Round(WorkingVars(0x268A_20DC, 0xFF89_2196, 0x8AD5_3C91, 0x6F09_EA9A, 0x2BD3_02BC), 17, 0xDE40_AEDF);
    assert Rounds(Start, w, 19) == Round(WorkingVars(0xC05C_3150, 0x268A_20DC, 0xBFE2_4865, 0x8AD5_3C91, 0x6F09_EA9A), 18, 0xE4D8_C882);
    assert Rounds(Start, w, 20) == Round(WorkingVars(0x68C2_7312, 0xC05C_3150, 0x09A2_8837, 0xBFE2_4865, 0x8AD5_3C91), 19, 0xE824_2135);
    assert Rounds(Start, w, 21) == Round(WorkingVars(0x256C_81E1, 0x68C2_7312, 0x3017_0C54, 0x09A2_8837, 0xBFE2_4865), 20, 0xBC81_5DBF);
    assert Rounds(Start, w, 22) == Round(WorkingVars(0xEA45_C55A, 0x256C_81E1, 0x9A30_9CC4, 0x3017_0C54, 0x09A2_8837), 21, 0xC9B1_9105);
    assert Rounds(Start, w, 23) == Round(WorkingVars(0x1A31_C1AB, 0xEA45_C55A, 0x495B_2078, 0x9A30_9CC4, 0x3017_0C54), 22, 0xD048_426B);
    assert Rounds(Start, w, 24) == Round(WorkingVars(0xEE9F_E9A9, 0x1A31_C1AB, 0xBA91_7156, 0x495B_2078, 0x9A30_9CC4), 23, 0x7902_BBBF);
  }

  /** The registers after 32 rounds. */
  lemma HelloRoundsTo32()
    ensures Rounds(Start, Schedule(HelloBlock), 32) == WorkingVars(0x4B0C_8A5D, 0x06DE_FD2B, 0x543A_95A7, 0x8EE4_3A26, 0xE86F_B8F1)
  {
    HelloRoundsTo24();
    HelloScheduleWords24To31();
    var w := Schedule(HelloBlock);
    assert Rounds(Start, w, 25) == Round(WorkingVars(0x4006_09E6, 0xEE9F_E9A9, 0xC68C_706A, 0xBA91_7156, 0x495B_2078), 24, 0x7B47_033F);
    assert Rounds(Start, w, 26) == Round(WorkingVars(0xC6C0_34B5, 0x4006_09E6, 0x7BA7_FA6A, 0xC68C_706A, 0xBA91_7156), 25, 0x1C11_D968);
    assert Rounds(Start, w, 27) == Round(WorkingVars(0x1AB1_50FD, 0xC6C0_34B5, 0x9001_8279, 0x7BA7_FA6A, 0xC68C_706A), 26, 0x3BB4_E67B);
    assert Rounds(Start, w, 28) == Round(WorkingVars(0xF4AB_AECF, 0x1AB1_50FD, 0x71B0_0D2D, 0x9001_8279, 0x7BA7_FA6A), 27, 0x26C6_4415);
    assert Rounds(Start, w, 29) == Round(WorkingVars(0xA1BE_E3C7, 0xF4AB_AECF, 0x46AC_543F, 0x71B0_0D2D, 0x9001_8279), 28, 0x4121_09AF);
    assert Rounds(Start, w, 30) == Round(WorkingVars(0x3B90_E89A, 0xA1BE_E3C7, 0xFD2A_EBB3, 0x46AC_543F, 0x71B0_0D2D), 29, 0xE40A_EE3D);
    assert Rounds(Start, w, 31) == Round(WorkingVars(0x50EA_569D, 0x3B90_E89A, 0xE86F_B8F1, 0xFD2A_EBB3, 0x46AC_543F), 30, 0x0538_2DC9);
    assert Rounds(Start, w, 32) == Round(WorkingVars(0x06DE_FD2B, 0x50EA_569D, 0x8EE4_3A26, 0xE86F_B8F1, 0xFD2A_EBB3), 31, 0xCCC6_395F);
  }

  /** The registers after 40 rounds. */
  lemma HelloRoundsTo40()
    ensures Rounds(Start, Schedule(HelloBlock), 40) == WorkingVars(0xE8D0_3189, 0x3C31_D9B9, 0xBD7C_5047, 0xEBDA_7EB7, 0xDA7F_F9D9)
  {
    HelloRoundsTo32();
    HelloScheduleWords32To39();
    var w := Schedule(HelloBlock);
    assert Rounds(Start, w, 33) == Round(WorkingVars(0x4B0C_8A5D, 0x06DE_FD2B, 0x543A_95A7, 0x8EE4_3A26, 0xE86F_B8F1), 32, 0x1F0E_6A34);
    assert Rounds(Start, w, 34) == Round(WorkingVars(0xB3E9_AD19, 0x4B0C_8A5D, 0xC1B7_BF4A, 0x543A_95A7, 0x8EE4_3A26), 33, 0x5E9A_F696);
    assert Rounds(Start, w, 35) == Round(WorkingVars(0xB810_6043, 0xB3E9_AD19, 0x52C3_2297, 0xC1B7_BF4A, 0x543A_95A7), 34, 0x5E56_9433);
    assert Rounds(Start, w, 36) == Round(WorkingVars(0x4414_4EB6, 0xB810_6043, 0x6CFA_6B46, 0x52C3_2297, 0xC1B7_BF4A), 35, 0x30BB_3C22);
    assert Rounds(Start, w, 37) == Round(WorkingVars(0x69FF_E767, 0x4414_4EB6, 0xEE04_1810, 0x6CFA_6B46, 0x52C3_2297), 36, 0xE6E5_C1DA);
    assert Rounds(Start, w, 38) == Round(WorkingVars(0xAF69_FADF, 0x69FF_E767, 0x9105_13AD, 0xEE04_1810, 0x6CFA_6B46), 37, 0x15DE_A168);
    assert Rounds(Start, w, 39) == Round(WorkingVars(0xF5F1_411E, 0xAF69_FADF, 0xDA7F_F9D9, 0x9105_13AD, 0xEE04_1810), 38, 0x3D18_A17F);
    assert Rounds(Start, w, 40) == Round(WorkingVars(0x3C31_D9B9, 0xF5F1_411E, 0xEBDA_7EB7, 0xDA7F_F9D9, 0x9105_13AD), 39, 0x9E61_34A4);
  }

  /** The registers after 48 rounds. */
  lemma HelloRoundsTo48()
    ensures Rounds(Start, Schedule(HelloBlock), 48) == WorkingVars(0x499F_7C54, 0xD602_67B8, 0x667C_7BEF, 0xE006_158A, 0x2249_7A69)
  {
    HelloRoundsTo40();
    HelloScheduleWords40To47();
    var w := Schedule(HelloBlock);
    assert Rounds(Start, w, 41) == Round(WorkingVars(0xE8D0_3189, 0x3C31_D9B9, 0xBD7C_5047, 0xEBDA_7EB7, 0xDA7F_F9D9), 40, 0x9446_5C30);
    assert Rounds(Start, w, 42) == Round(WorkingVars(0xD560_9CD9, 0xE8D0_3189, 0x4F0C_766E, 0xBD7C_5047, 0xEBDA_7EB7), 41, 0xB2AB_9528);
    assert Rounds(Start, w, 43) == Round(WorkingVars(0xC711_DC44, 0xD560_9CD9, 0x7A34_0C62, 0x4F0C_766E, 0xBD7C_5047), 42, 0x7544_9E87);
    assert Rounds(Start, w, 44) == Round(WorkingVars(0x033C_50AC, 0xC711_DC44, 0x7558_2736, 0x7A34_0C62, 0x4F0C_766E), 43, 0xCC63_9474);
    assert Rounds(Start, w, 45) == Round(WorkingVars(0x8925_E9A4, 0x033C_50AC, 0x31C4_7711, 0x7558_2736, 0x7A34_0C62), 44, 0x20AE_E128);
    assert Rounds(Start, w, 46) == Round(WorkingVars(0x8018_562B, 0x8925_E9A4, 0x00CF_142B, 0x31C4_7711, 0x7558_2736), 45, 0x90AD_D11A);
    assert Rounds(Start, w, 47) == Round(WorkingVars(0x99F1_EFBD, 0x8018_562B, 0x2249_7A69, 0x00CF_142B, 0x31C4_7711), 46, 0xD69A_E5ED);
    assert Rounds(Start, w, 48) == Round(WorkingVars(0xD602_67B8, 0x99F1_EFBD, 0xE006_158A, 0x2249_7A69, 0x00CF_142B), 47, 0x5926_348A);
  }

  /** The registers after 56 rounds. */
  lemma HelloRoundsTo56()
    ensures Rounds(Start, Schedule(HelloBlock), 56) == WorkingVars(0x1B93_F9E3, 0xFAAB_708D, 0x4056_4749, 0x6E8D_C0F7, 0x5A52_B95C)
  {
    HelloRoundsTo48();
    HelloScheduleWords48To55();
    var w := Schedule(HelloBlock);
    assert Rounds(Start, w, 49) == Round(WorkingVars(0x499F_7C54, 0xD602_67B8, 0x667C_7BEF, 0xE006_158A, 0x2249_7A69), 48, 0x8B66_E65A);
    assert Rounds(Start, w, 50) == Round(WorkingVars(0x56C2_1FD2, 0x499F_7C54, 0x3580_99EE, 0x667C_7BEF, 0xE006_158A), 49, 0x1421_74E2);
    assert Rounds(Start, w, 51) == Round(WorkingVars(0xC123_BB80, 0x56C2_1FD2, 0x1267_DF15, 0x3580_99EE, 0x667C_7BEF), 50, 0x29A3_FFC9);
    assert Rounds(Start, w, 52) == Round(WorkingVars(0x5A76_4882, 0xC123_BB80, 0x95B0_87F4, 0x1267_DF15, 0x3580_99EE), 51, 0xC4C1_DEC8);
    assert Rounds(Start, w, 53) == Round(WorkingVars(0x694A_E571, 0x5A76_4882, 0x3048_EEE0, 0x95B0_87F4, 0x1267_DF15), 52, 0xDEE5_EADF);
    assert Rounds(Start, w, 54) == Round(WorkingVars(0xBA37_03DD, 0x694A_E571, 0x969D_9220, 0x3048_EEE0, 0x95B0_87F4), 53, 0x6563_763E);
    assert Rounds(Start, w, 55) == Round(WorkingVars(0x0159_1D25, 0xBA37_03DD, 0x5A52_B95C, 0x969D_9220, 0x3048_EEE0), 54, 0x760B_8CD5);
    assert Rounds(Start, w, 56) == Round(WorkingVars(0xFAAB_708D, 0x0159_1D25, 0x6E8D_C0F7, 0x5A52_B95C, 0x969D_9220), 55, 0x5612_FFB3);
  }

  /** The registers after 64 rounds. */
  lemma HelloRoundsTo64()
    ensures Rounds(Start, Schedule(HelloBlock), 64) == WorkingVars(0xA4A2_8CD7, 0x3D1F_419D, 0x551B_B536, 0xCA48_AF89, 0xFB5A_68C5)
  {
    HelloRoundsTo56();
    HelloScheduleWords56To63();
    var w := Schedule(HelloBlock);
    assert Rounds(Start, w, 57) == Round(WorkingVars(0x1B93_F9E3, 0xFAAB_708D, 0x4056_4749, 0x6E8D_C0F7, 0x5A52_B95C), 56, 0x1E0E_A5A6);
    assert Rounds(Start, w, 58) == Round(WorkingVars(0xE48B_990E, 0x1B93_F9E3, 0x7EAA_DC23, 0x4056_4749, 0x6E8D_C0F7), 57, 0x39C5_F2D6);
    assert Rounds(Start, w, 59) == Round(WorkingVars(0x2375_6FE8, 0xE48B_990E, 0xC6E4_FE78, 0x7EAA_DC23, 0x4056_4749), 58, 0x54B6_FFAA);
    assert Rounds(Start, w, 60) == Round(WorkingVars(0x7981_DCFD, 0x2375_6FE8, 0xB922_E643, 0xC6E4_FE78, 0x7EAA_DC23), 59, 0x0C02_7C01);
    assert Rounds(Start, w, 61) == Round(WorkingVars(0xED69_A317, 0x7981_DCFD, 0x08DD_5BFA, 0xB922_E643, 0xC6E4_FE78), 60, 0x2228_3998);
    assert Rounds(Start, w, 62) == Round(WorkingVars(0x2922_BE27, 0xED69_A317, 0x5E60_773F, 0x08DD_5BFA, 0xB922_E643), 61, 0xF0BC_D809);
    assert Rounds(Start, w, 63) == Round(WorkingVars(0x546E_D4D9, 0x2922_BE27, 0xFB5A_68C5, 0x5E60_773F, 0x08DD_5BFA), 62, 0x4FEB_E6C6);
    assert Rounds(Start, w, 64) == Round(WorkingVars(0x3D1F_419D, 0x546E_D4D9, 0xCA48_AF89, 0xFB5A_68C5, 0x5E60_773F), 63, 0x727B_0C86);
  }

  /** The registers after 72 rounds. */
  lemma HelloRoundsTo72()
    ensures Rounds(Start, Schedule(HelloBlock), 72) == WorkingVars(0xDC51_C696, 0x309A_6B45, 0xC43C_838F, 0x1393_45A2, 0x85B4_B87D)
  {
    HelloRoundsTo64();
    HelloScheduleWords64To71();
    var w := Schedule(HelloBlock);
    assert Rounds(Start, w, 65) == Round(WorkingVars(0xA4A2_8CD7, 0x3D1F_419D, 0x551B_B536, 0xCA48_AF89, 0xFB5A_68C5), 64, 0x98EE_C878);
    assert Rounds(Start, w, 66) == Round(WorkingVars(0x9549_E929, 0xA4A2_8CD7, 0x4F47_D067, 0x551B_B536, 0xCA48_AF89), 65, 0x4D9D_7C75);
    assert Rounds(Start, w, 67) == Round(WorkingVars(0x4A84_FC8C, 0x9549_E929, 0xE928_A335, 0x4F47_D067, 0x551B_B536), 66, 0xA317_CC75);
    assert Rounds(Start, w, 68) == Round(WorkingVars(0x465C_6F85, 0x4A84_FC8C, 0x6552_7A4A, 0xE928_A335, 0x4F47_D067), 67, 0x6A9C_391E);
    assert Rounds(Start, w, 69) == Round(WorkingVars(0x16D2_E1F6, 0x465C_6F85, 0x12A1_3F23, 0x6552_7A4A, 0xE928_A335), 68, 0x8EB6_47CF);
    assert Rounds(Start, w, 70) == Round(WorkingVars(0x4E4D_1688, 0x16D2_E1F6, 0x5197_1BE1, 0x12A1_3F23, 0x6552_7A4A), 69, 0xC1B5_3BE2);
    assert Rounds(Start, w, 71) == Round(WorkingVars(0x10F2_0E3F, 0x4E4D_1688, 0x85B4_B87D, 0x5197_1BE1, 0x12A1_3F23), 70, 0x9AE5_ED56);
    assert Rounds(Start, w, 72) == Round(WorkingVars(0x309A_6B45, 0x10F2_0E3F, 0x1393_45A2, 0x85B4_B87D, 0x5197_1BE1), 71, 0x2634_8C59);
  }

  /** The registers after 80 rounds. */
  lemma HelloRoundsTo80()
    ensures Rounds(Start, Schedule(HelloBlock), 80) == WorkingVars(0xC7B2_9AE5, 0x1900_A87B, 0x50C2_8206, 0x1F63_A429, 0x5850_4681)
  {
    HelloRoundsTo72();
    HelloScheduleWords72To79();
    var w := Schedule(HelloBlock);
    assert Rounds(Start, w, 73) == Round(WorkingVars(0xDC51_C696, 0x309A_6B45, 0xC43C_838F, 0x1393_45A2, 0x85B4_B87D), 72, 0x27C7_532C);
    assert Rounds(Start, w, 74) == Round(WorkingVars(0xE94D_4DC2, 0xDC51_C696, 0x4C26_9AD1, 0xC43C_838F, 0x1393_45A2), 73, 0xC57E_3FE9);
    assert Rounds(Start, w, 75) == Round(WorkingVars(0x2169_DF86, 0xE94D_4DC2, 0xB714_71A5, 0x4C26_9AD1, 0xC43C_838F), 74, 0xE77B_0C3D);
    assert Rounds(Start, w, 76) == Round(WorkingVars(0xB5D5_E91C, 0x2169_DF86, 0xBA53_5370, 0xB714_71A5, 0x4C26_9AD1), 75, 0x63CB_9C75);
    assert Rounds(Start, w, 77) == Round(WorkingVars(0x6141_1A05, 0xB5D5_E91C, 0x885A_77E1, 0xBA53_5370, 0xB714_71A5), 76, 0x4C17_4EF0);
    assert Rounds(Start, w, 78) == Round(WorkingVars(0x7D8E_90A4, 0x6141_1A05, 0x2D75_7A47, 0x885A_77E1, 0xBA53_5370), 77, 0x4813_C6A1);
    assert Rounds(Start, w, 79) == Round(WorkingVars(0x430A_0819, 0x7D8E_90A4, 0x5850_4681, 0x2D75_7A47, 0x885A_77E1), 78, 0x5C56_BF3A);
    assert Rounds(Start, w, 80) == Round(WorkingVars(0x1900_A87B, 0x430A_0819, 0x1F63_A429, 0x5850_4681, 0x2D75_7A47), 79, 0xAB8B_64B4);
  }

  /** The hash value after the single block. */
  lemma HelloHashValue()
    ensures HashBlocks(InitialHashValue, Blocks(HelloMessage)) == HashValue(0x2EF7_BDE6, 0x08CE_5404, 0xE97D_5F04, 0x2F95_F89F, 0x1C23_2871)
  {
    assert Pad(HelloMessage)[..64] == HelloBlock;
    assert Blocks(HelloMessage) == [HelloBlock];
    assert [HelloBlock][..0] == [];
    HelloRoundsTo80();
  }

  /** `Sum` of "Hello World!": 20 bytes that spell, most significant first, the
      number 2ef7bde608ce5404e97d5f042f95f89f1c232871, and that read back as the words h0..h4 of that
      hex string. */
  lemma HelloDigest()
    ensures |Hash(HelloMessage)| == 20
    ensures BEValue(Hash(HelloMessage)) == 0x2ef7bde6_08ce5404_e97d5f04_2f95f89f_1c232871
    ensures Deserialize(Hash(HelloMessage)) == HashValue(0x2EF7_BDE6, 0x08CE_5404, 0xE97D_5F04, 0x2F95_F89F, 0x1C23_2871)
  {
    HelloHashValue();
    var h := HashValue(0x2EF7_BDE6, 0x08CE_5404, 0xE97D_5F04, 0x2F95_F89F, 0x1C23_2871);
    SerializeValue(h);
    Pow2Of32();
    LshMul(787987942, 32);
    LshMul(3384382440680084484, 32);
    LshMul(14535811899877622861214342916, 32);
    LshMul(62430836730782016591137549671147632799, 32);
  }
}
