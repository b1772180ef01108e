# SHA-1 digest engine (danielost/sha-1), modelled in Dafny

This project models `Sum` from `sha1.go`, the SHA-1 digest of a byte string, together with its helpers:

- `addPadding` appends the 0x80 marker, zero bytes and the 64-bit big-endian bit length.
- `breakMessageIntoChunks` cuts a byte slice into equal pieces.
- `leftRotate` rotates a 32-bit word.

`Sum` uses these in four steps:

1. It pads the message and splits it into 64-byte chunks.
2. For each chunk, it expands the sixteen big-endian words into an 80-word schedule.
3. It runs the 80 rounds and adds the resulting registers into h0..h4, modulo 2^32.
4. It assembles the 20-byte digest through `math/big`. Each hi is shifted by 128, 96, 64, 32 or 0 bits, the five are ORed together, `Bytes()` gives the minimal big-endian byte string, and zeros are prepended until it is 20 bytes long.

Each step of the source has a counterpart here:

- **Loops become methods.** Every imperative loop is a Dafny method with a loop and invariants:
  - `AddPadding`;
  - `BreakMessageIntoChunks`, which fills an array;
  - the two schedule loops: `MessageSchedule`, and `ExtendSchedule`, which updates an array in place;
  - the round loop `MainLoop`;
  - the chunk loop in `Sum`;
  - the OR loop `CombineWords`;
  - the left-padding loop `DigestBytes`.
- **Reference functions.** Each method is proved equal to a function written the way FIPS 180-4 describes the step: `Pad`, `Chunks`, `Schedule`, `Rounds`, `Compress`, `HashBlocks`, `Serialize` and `Hash`. The properties are proved about those functions.
- **Machine integers.**
  - `uint32` is `bv32`, so addition wraps exactly as Go's does.
  - `byte` is `bv8`.
  - The `math/big` values are natural numbers: `Lsh` multiplies by a power of two, `Or` is bitwise OR on naturals, and `Bytes()` is `MinimalBytes`.

The modules, in dependency order:

| module | file | contents |
|---|---|---|
| `Bytes` | bytes.dfy | powers of two; big-endian reading (`BEValue`) and writing (`BEBytes`) of byte strings |
| `Words` | words.dfy | `uint32` words, `leftRotate`, `binary.BigEndian.Uint32` |
| `Chunking` | chunking.dfy | `breakMessageIntoChunks` |
| `Padding` | padding.dfy | `addPadding` |
| `Compression` | compression.dfy | initial values, round functions and constants, schedule, rounds, per-chunk update |
| `Digest` | digest.dfy | the 20-byte digest and its `math/big` assembly |
| `Sha1` | sha1.dfy | `Sum` |
| `KnownAnswer` | kat.dfy | the digests of "" and "Hello World!" |

## Model

| member | source | states |
|---|---|---|
| Bytes.BEBytes | sha1.go:122-123 | the reference big-endian encoding in k bytes (`PutUint64` for k = 8); its contract gives the width k, and `BEValueOfBEBytes` / `BEBytesOfBEValue` state that it inverts `BEValue` |
| Bytes.BEValueOfBEBytes | sha1.go:122-123 | reading back the k-byte big-endian encoding of n (`PutUint64` for k = 8) gives n whenever n < 2^(8k) |
| Bytes.BEBytesOfBEValue | sha1.go:122-123 | every byte string is the big-endian encoding of its own value, in its own width |
| Bytes.BEValueLeadingZero | sha1.go:104-106 | prepending a 0x00 byte leaves the big-endian value unchanged |
| Words.Add | sha1.go:79-83 | reference definition of Go's `+` on `uint32`, the `bv32` sum that wraps modulo 2^32 (no contract of its own); `Compress` and `ProcessChunk` add each register into hi with it (`Temp` at sha1.go:70 uses the same `bv32` `+`) |
| Words.LeftRotate | sha1.go:144-146 | reference definition of `leftRotate` (no contract of its own); its properties are `LeftRotateInverse` and `LeftRotateBit` |
| Words.LeftRotateInverse | sha1.go:144-146 | rotating left by n and then by 32 - n gives back the word |
| Words.LeftRotateBit | sha1.go:144-146 | for every amount 0 < n < 32, bit j of the result is bit (j - n) mod 32 of the input: a rotation, not a shift (the two cases are `LeftRotateBitShifted` and `LeftRotateBitWrapped`) |
| Words.WordFromBytes | sha1.go:37 | reference definition of `binary.BigEndian.Uint32` as the same OR of shifted bytes (no contract of its own); its properties are `WordFromBytesValue` and `WordBytesOfWordFromBytes` |
| Words.WordFromBytesValue | sha1.go:37 | `binary.BigEndian.Uint32` returns the number that its four bytes spell, most significant first |
| Words.WordBytes | sha1.go:37 | every word has a four-byte big-endian encoding, and `Uint32` reads that word back from it |
| Words.WordBytesOfWordFromBytes | sha1.go:37 | every four bytes are the encoding of the word `Uint32` reads from them, so the reading is a bijection |
| Chunking.Chunks | sha1.go:128-141 | the pieces number ⌊\|m\| / size⌋ and each holds exactly size bytes |
| Chunking.ChunksAt | sha1.go:137-139 | piece i is bytes i·size up to (i+1)·size of the message |
| Chunking.ChunksFlatten | sha1.go:128-141 | when the length is a multiple of the size, the pieces laid end to end are the message itself, so no byte is lost |
| Chunking.BreakMessageIntoChunks | sha1.go:128-141 | the loop returns ⌊\|m\| / (chunkSize/8)⌋ pieces, piece i is `message[i*size : i*size+size]`, and the result equals `Chunks` |
| Padding.LengthInBits | sha1.go:112 | `uint64(len*8)` is below 2^64, and it is the exact bit length for messages shorter than 2^61 bytes |
| Padding.ZeroFillLength | sha1.go:117-119 | the number of zero bytes is below 64 and brings \|m\| + 1 up to 56 modulo 64, as the loop's exit condition demands |
| Padding.PaddedLength | sha1.go:113-124 | the padded length is 64·(⌊(\|m\|+8)/64⌋+1): a multiple of 64, between \|m\|+9 and \|m\|+72, and the smallest multiple of 64 that is at least \|m\|+9 |
| Padding.Pad | sha1.go:111-125 | the padded message has the length stated by `PaddedLength` |
| Padding.PadLayout | sha1.go:111-125 | the message is a prefix, followed by 0x80, then only zero bytes, then the 8-byte big-endian bit length |
| Padding.PadLengthField | sha1.go:121-124 | the last eight bytes read back as 8·\|m\| for messages shorter than 2^61 bytes |
| Padding.PadBlockBoundary | sha1.go:117-119 | messages of 0–55 bytes pad to exactly one block, and of 56–119 bytes to exactly two, in both directions |
| Padding.PadFullBlocks | sha1.go:113-124 | a message that already fills whole blocks gets one full extra block |
| Padding.PadInjective | sha1.go:111-125 | distinct messages shorter than 2^61 bytes have distinct padded forms |
| Padding.AddPadding | sha1.go:111-125 | the append loop produces exactly `Pad(message)` |
| Compression.InitialHashValue | sha1.go:16-20 | the constant h0..h4 = 0x67452301, 0xEFCDAB89, 0x98BADCFE, 0x10325476, 0xC3D2E1F0 that `Sum` starts from and `Hash` is defined from; the known answers in `KnownAnswer` check it |
| Compression.RoundFunction | sha1.go:55-66 | reference definition of the f chosen per round range (no contract of its own); its property is `RoundFunctionIsStandard` |
| Compression.RoundConstant | sha1.go:55-67 | reference definition of the k chosen per round range (no contract of its own); its property is `RoundConstantIsStandard` |
| Compression.Temp | sha1.go:70 | reference definition of `temp`, the sum modulo 2^32 of a rotated by 5, f, e, k and the schedule word (no contract of its own); used by `Round` and `MainLoop` alike |
| Compression.Round | sha1.go:70-75 | reference definition of one round (no contract of its own); its properties are `RoundStep` and `RoundShifts` |
| Compression.RoundFunctionIsStandard | sha1.go:55-66 | for rounds 0–19, 20–39, 40–59 and 60–79, Go's f (written with OR) equals the Ch, Parity, Maj and Parity functions of FIPS 180-4 section 4.1.1 (written with XOR) |
| Compression.RoundConstantIsStandard | sha1.go:55-67 | unfolds `RoundConstant`: k is the constant of FIPS 180-4 section 4.2.1 for round t div 20, i.e. the `if` chain picks the standard constant per twenty rounds |
| Compression.RoundStep | sha1.go:69-75 | unfolds `Round` for register values and the f and k chosen for them: a becomes `temp` and the old a, b (rotated by 30), c and d, all taken before the round, move into b, c, d and e; the proof step `MainLoop` uses per iteration |
| Compression.RoundShifts | sha1.go:71-75 | after a round, b is the old a, c rotated back by 2 is the old b, d is the old c, and e is the old d |
| Compression.BlockWords | sha1.go:31-38 | reference definition of the sixteen words read from a chunk; its contract gives their number, and `ScheduleReadsBlock` states their values |
| Compression.ScheduleWord | sha1.go:40-43 | reference definition of schedule word t (no contract of its own); its properties are `ScheduleWordStep` and `ExpandRecurrence` |
| Compression.Expand | sha1.go:40-43 | reference definition of the eighty schedule words grown from sixteen; its contract gives the 80 words, `ExpandRecurrence` states the recurrence they satisfy, and `ExtendSchedule` is proved equal to it |
| Compression.Schedule | sha1.go:30-43 | reference definition of a chunk's 80-word message schedule, `Expand` of its sixteen big-endian words; its contract gives the 80 words, `ScheduleReadsBlock` states words 0–15, and `MessageSchedule` is proved equal to it |
| Compression.Rounds | sha1.go:54-76 | reference definition of the registers after the first n rounds (no contract of its own); `MainLoop` is proved equal to it |
| Compression.ScheduleWordStep | sha1.go:41-43 | unfolds `ScheduleWord` once: given the words 3, 8, 14 and 16 places back, word t ≥ 16 is their XOR rotated by 1; the proof step `ExtendSchedule` uses per iteration |
| Compression.ScheduleReadsBlock | sha1.go:31-38 | schedule words 0–15 are the block's bytes 4t..4t+3 read as big-endian numbers |
| Compression.ExpandRecurrence | sha1.go:40-43 | unfolds `Expand` and `ScheduleWord`: the 80-word schedule satisfies the SHA-1 recurrence at every t in 16..79 |
| Compression.Compress | sha1.go:79-83 | reference definition of one chunk's update, each hi plus its register modulo 2^32 (no contract of its own); `ProcessChunk` is proved equal to it |
| Compression.HashBlocks | sha1.go:29-84 | reference definition of the chunk loop as a fold over the chunks (no contract of its own); its property is `HashBlocksChain`, and `Sum`'s loop invariant is stated with it |
| Compression.HashBlocksChain | sha1.go:29-84 | chunks are processed strictly in sequence: hashing xs then ys from the resulting value is hashing xs + ys |
| Compression.MessageSchedule | sha1.go:30-43 | the two schedule loops fill a fresh 80-word array with `Schedule(chunk)` |
| Compression.ExtendSchedule | sha1.go:40-43 | the in-place loop turns the array into `Expand` of its first sixteen words |
| Compression.MainLoop | sha1.go:45-76 | the 80-iteration loop leaves a..e equal to 80 rounds started from h0..h4 |
| Compression.ProcessChunk | sha1.go:30-83 | one chunk-loop iteration produces `Compress(h, chunk)`: each hi increased modulo 2^32 by its register, not replaced |
| Digest.Serialize | sha1.go:86-107 | reference definition of the digest as h0..h4 in big-endian, laid end to end; its contract gives the 20 bytes, and `SerializeWords`, `SerializeParts`, `DeserializeSerialize` and `SerializeDeserialize` state its layout and invertibility |
| Digest.SerializeWords | sha1.go:86-107 | bytes 4i..4i+3 of the digest are the big-endian encoding of hi |
| Digest.SerializeParts | sha1.go:86-107 | the digest is the five words' big-endian encodings laid end to end, h0 first |
| Digest.DeserializeSerialize | sha1.go:86-107 | the words can be read back from the digest |
| Digest.SerializeDeserialize | sha1.go:86-107 | every 20-byte string is the digest of the words read from it, so the serialization is a bijection |
| Digest.Lsh | sha1.go:93-96 | reference definition of `big.Int.Lsh` on natural numbers, doubling n times (no contract of its own); `LshMul` states that it multiplies by 2^n |
| Digest.LshMul | sha1.go:93-96 | shifting x left by n bits gives x·2^n, for every x and n |
| Digest.Or | sha1.go:99-102 | reference definition of `big.Int.Or` on natural numbers, bit by bit (no contract of its own); its property is `OrDisjoint` |
| Digest.OrAll | sha1.go:99-102 | reference definition of the `hh = hh.Or(hh, currHh)` loop as a fold from 0 over the list (no contract of its own); `CombineWords` keeps `hh == OrAll(hhs[..i])` as its loop invariant, and `OrAllShifted` states its value for the five shifted words |
| Digest.OrDisjoint | sha1.go:99-102 | OR of a·2^k and a number below 2^k is their sum |
| Digest.OrStep | sha1.go:93-102 | ORing v shifted by 32 + k with w shifted by k, where w < 2^32, is v·2^32 + w shifted by k |
| Digest.OrAllShifted | sha1.go:93-102 | ORing the five shifted values in order is the number whose 32-bit digits are the five words |
| Digest.SerializeValue | sha1.go:86-107 | the 20-byte digest, read big-endian, is that same number |
| Digest.OrAllDigest | sha1.go:87-102 | the `big.Int` built by shifting and ORing equals the big-endian value of the concatenated words |
| Digest.MinimalBytes | sha1.go:103 | the minimal byte string of n reads back as n and has no leading zero byte |
| Digest.MinimalBytesFits | sha1.go:103 | a number below 2^(8k) has a minimal byte string of at most k bytes |
| Digest.CombineWords | sha1.go:87-102 | the shift-and-OR loop computes the big-endian value of the 20-byte digest |
| Digest.DigestBytes | sha1.go:103-106 | the left-padding loop keeps the value, stops at max(20, minimal length), and for a value below 2^160 yields exactly its 20-byte big-endian encoding |
| Digest.FinalHash | sha1.go:86-107 | the whole `math/big` tail returns the digest: h0..h4 as big-endian words, laid end to end |
| Sha1.Blocks | sha1.go:23-27 | the padded message splits into ⌊(\|m\|+8)/64⌋+1 blocks of 64 bytes, which laid end to end give back the padded message |
| Sha1.Hash | sha1.go:13-108 | the digest is 20 bytes and reads back as the hash value left after processing all blocks from the initial values |
| Sha1.HashWordsAt | sha1.go:86-107 | bytes 4i..4i+3 of the digest are the big-endian encoding of the final hi |
| Sha1.BlockCount | sha1.go:23-27 | messages of up to 55 bytes are hashed in one block, and of 56–119 bytes in two |
| Sha1.Sum | sha1.go:13-108 | `Sum(message)` returns `Hash(message)` |
| KnownAnswer.EmptyLayout | sha1.go:111-125 | the empty message pads to one block: 0x80, 55 zero bytes, and the length field 0 |
| KnownAnswer.EmptyDigest | hash_test.go:15 | `Sum` of the empty message is 20 bytes spelling da39a3ee5e6b4b0d3255bfef95601890afd80709 |
| KnownAnswer.HelloLayout | sha1.go:111-125 | "Hello World!" pads to one block: the message, 0x80, 43 zero bytes, and the length field 96 (seven zeros and 0x60) |
| KnownAnswer.HelloDigest | hash_test.go:16 | `Sum` of "Hello World!" is 20 bytes spelling 2ef7bde608ce5404e97d5f042f95f89f1c232871 |

## Left out

- Scope: the tests, the benchmark and `rand.go` are not part of this model. The model also proves no cryptographic property, such as collision or preimage resistance.
- Words.LeftRotate: the shift amount is a 6-bit number no larger than 32. In Go it is an `int`, and Go panics on a negative shift count once n exceeds 32; `Sum` only uses 1, 5 and 30.
- Compression.RoundShifts: the new a is not shown to determine the old e, so invertibility of a round is not stated.
- Compression.MainLoop: the `if` chain that picks f and k (sha1.go:55-67) is the body of `RoundFunction` and `RoundConstant`, which the loop calls. It is not a separate branch in the method.
- Padding.AddPadding: Go appends through a pointer to the caller's slice variable, which can write into spare capacity of the caller's backing array. Here the padded message is returned as a new value, so that aliasing is not modelled. Slices that share a backing array elsewhere are not modelled either: `chunks[i]` and `wordsByte[i]` are sub-slices of the message.
- Chunking.BreakMessageIntoChunks: requires chunkSize ≥ 8; `Sum` passes 512 and 32. For smaller sizes Go's truncating division gives a piece size of zero or less. From -7 to 7 the size is 0, and `len/size` panics (division by zero). From -8 down, the size is negative: when the message is shorter than |size|, `numberOfChunks` truncates to 0 and Go returns an empty slice without panicking. Otherwise `numberOfChunks` is negative and `make` panics. None of these cases is modelled.
- Padding.Pad: requires at most 2^63 - 1 bytes, the largest length of a Go slice on a 64-bit platform. For messages of 2^61 bytes or more, Go's `len*8` wraps and the length field is wrong. The model keeps that wrap (`LengthInBits`), but the length-field lemmas are stated only below 2^61 bytes. SHA-1 itself is defined only for messages below 2^64 bits.
- Padding.LengthInBits: assumes Go's `int` is 64 bits wide, as on 64-bit targets. On a 32-bit target, `len(*message) * 8` at sha1.go:112 is a 32-bit product. It wraps for messages of 2^28 bytes (256 MiB) or more, and `uint64(...)` then sign-extends the negative result: a 2^28-byte message gets the length field 2^64 - 2^31 instead of 2^31. The length field, and so the digest, are then wrong for messages SHA-1 does define. The model does not capture that behaviour.
- Digest.MinimalBytes: `math/big` is modelled by what its operations compute on natural numbers, not by its word-array representation.
  - `Lsh` is multiplication by 2^n.
  - `Or` is bitwise OR on naturals.
  - `Bytes()` is the minimal big-endian string.
  - The aliasing of `hh.Or(hh, …)` and `hh0.Lsh(hh0, …)` is not modelled.
- Digest.DigestBytes: requires nothing, as the Go loop does. Its 20-byte result is stated only for values below 2^160, which is what `CombineWords` produces.
- Out-of-memory failures for very large inputs are outside the model, as is the allocation behaviour of `append` and `make`.
