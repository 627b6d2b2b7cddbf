# Table-free AES block cipher

A Dafny model of the constant-time ("bit-sliced") AES single-block cipher of
`crypto/aes/src/crypt_aes_constant_time.c`, with proofs that it computes
AES as FIPS 197 defines it.

The implementation never indexes a table with secret data:

- The S-box is a fixed circuit of masked shifts, ANDs and XORs.
- It is applied to every byte lane of a 32-bit word or 64-bit lane at once.
- Doubling in GF(2^8) (xtime) is done the same lane-parallel way.
- The 16-byte state is two 64-bit lanes, stored column-major.
- The key schedule is filled two 32-bit words (one lane) at a time.
- The round constant is produced by repeated xtime.

The model has two layers.

**The implementation layer** (modules `LaneOps`, `MixLanes` and `Aes`):
- The lane operations are pure functions on `bv32` and `bv64`, with the source's own constants and gate order.
- `ShiftRows`, `MixColumns`, `AddRoundKey`, the two round loops and `KeyExpansion` are methods that update arrays in place.
- The key context is a class `AesKey` holding the round count and the lane buffer.
- The three public entry points are methods on that class.

**The specification layer** (modules `Field`, `SBoxTable`, `Fips197`, `Columns`):
- The algorithm of FIPS 197 on byte sequences.
- The S-box tables of figures 7 and 14.
- GF(2^8) multiplication.
- The key schedule of figure 11.
- The cipher and inverse cipher of figures 5 and 12.

The bridge between the layers (modules `Bytes` and `LaneState`) reads a lane as
its eight bytes in memory order. Byte k of a lane is bits 8k to 8k+7. A key
schedule of lanes is read as a list of 4-byte words, two per lane. Every
implementation method is proved against the specification through these views.

One fact about the specification tables is proved in the implementation layer.
That figure 14 inverts figure 7 (`LaneOps.InvSBoxSBox`, `LaneOps.SBoxInvSBox`)
is shown through the two S-box circuits, which were already proved equal to the
tables on all 256 bytes. This is why `Fips197` imports `LaneOps`.

The core results:
- Each circuit equals its table on all 256 bytes.
- Each round step is its section of FIPS 197.
- `Cipher`/`InvCipher` compute figures 5 and 12 on the round keys in the buffer.
- `KeyExpansion` fills exactly lanes `0 .. 2 (Nr + 1) - 1` with the words of figure 11.
- The inverse cipher undoes the cipher, and conversely.
- The entry points are no-ops on a missing pointer or an unsupported key length.
- Known-answer vectors (module `KnownAnswer`) pin the tables, matrices, row
  offsets and round constants to published values. They cover the key expansions
  of FIPS 197 appendices A.1 (128-bit key) and A.3 (256-bit key), the expansion
  of the all-zero 128-bit key, and the
  cipher of the all-zero block under that key, `66e94bd4ef8a2c3b884cfa59ca342b2e`.
  The cipher vector is checked round by round against every intermediate state.

Module `Forms` supports the MixColumns proofs. It is a small decision procedure
for identities between sums of xtime powers, used to prove that the inverse
column mixing undoes the mixing.

## Model

| member | source | states |
|---|---|---|
| Field.XtimeShiftReduce | crypto/aes/src/crypt_aes_constant_time.c:29-51 | the doubling computed in every lane is section 4.2.1's xtime: shift left, then add {1b} exactly when the top bit was set |
| LaneOps.XtimeWordBytes | crypto/aes/src/crypt_aes_constant_time.c:29-39 | XtimeWord doubles each of the four bytes of the word on its own; no byte affects another |
| LaneOps.XtimeLongBytes | crypto/aes/src/crypt_aes_constant_time.c:41-51 | XtimeLong doubles each of the eight bytes of the lane on its own |
| LaneOps.SubLaneIsSBox | crypto/aes/src/crypt_aes_constant_time.c:143-231 | the gate sequence of the S-box circuit, on one byte, gives the entry of the S-box table of figure 7 for all 256 inputs |
| LaneOps.InvSubLaneIsInvSBox | crypto/aes/src/crypt_aes_constant_time.c:233-325 | the inverse S-box circuit on one byte gives the entry of the table of figure 14 for all 256 inputs |
| LaneOps.SubWordBytes | crypto/aes/src/crypt_aes_constant_time.c:53-141 | SubWord replaces each of the four bytes of the word by its S-box entry, independently per byte |
| LaneOps.SubLongBytes | crypto/aes/src/crypt_aes_constant_time.c:143-231 | SubLong replaces each of the eight bytes of the lane by its S-box entry, independently per byte |
| LaneOps.InvSubLongBytes | crypto/aes/src/crypt_aes_constant_time.c:233-325 | InvSubLong replaces each of the eight bytes by its inverse S-box entry |
| LaneOps.SubWordAgreesWithSubLong | crypto/aes/src/crypt_aes_constant_time.c:53-231 | SubLong on a lane equals SubWord on each of its two 32-bit halves |
| LaneOps.InvSubLongSubLong | crypto/aes/src/crypt_aes_constant_time.c:143-325 | InvSubLong undoes SubLong on every lane |
| LaneOps.SubLongInvSubLong | crypto/aes/src/crypt_aes_constant_time.c:143-325 | SubLong undoes InvSubLong on every lane |
| LaneOps.InvSBoxSBox | crypto/aes/src/crypt_aes_constant_time.c:143-325 | the inverse S-box undoes the S-box on all 256 bytes |
| LaneOps.SBoxInvSBox | crypto/aes/src/crypt_aes_constant_time.c:143-325 | the S-box undoes the inverse S-box on all 256 bytes |
| Fips197.InvSubBytesSubBytes | crypto/aes/src/crypt_aes_constant_time.c:143-325 | InvSubBytes undoes SubBytes on any byte sequence |
| Fips197.SubBytesInvSubBytes | crypto/aes/src/crypt_aes_constant_time.c:143-325 | SubBytes undoes InvSubBytes on any byte sequence |
| LaneState.SubLongState | crypto/aes/src/crypt_aes_constant_time.c:440-441 | SubLong on both lanes of the state is SubBytes on its 16 bytes |
| LaneState.InvSubLongState | crypto/aes/src/crypt_aes_constant_time.c:466-467 | InvSubLong on both lanes is InvSubBytes on the 16 bytes |
| Aes.SubState | crypto/aes/src/crypt_aes_constant_time.c:440-441 | the two SubLong calls of a round turn the state's bytes into SubBytes of the old bytes |
| Aes.InvSubState | crypto/aes/src/crypt_aes_constant_time.c:466-467 | the two InvSubLong calls of an inverse round turn the state's bytes into InvSubBytes of the old bytes |
| Fips197.ShiftRowsBytes | crypto/aes/src/crypt_aes_constant_time.c:327-343 | ShiftRows, byte (row r, column c) at index 4c + r taken from column (c + r) mod 4, is the explicit permutation that keeps row 0 and rotates rows 1, 2, 3 left by 1, 2, 3 |
| Fips197.InvShiftRowsBytes | crypto/aes/src/crypt_aes_constant_time.c:345-361 | InvShiftRows, taking from column (c + 4 - r) mod 4, keeps row 0 and rotates rows 1, 2, 3 right |
| Fips197.InvShiftRowsShiftRows | crypto/aes/src/crypt_aes_constant_time.c:327-361 | InvShiftRows undoes ShiftRows |
| Fips197.ShiftRowsInvShiftRows | crypto/aes/src/crypt_aes_constant_time.c:327-361 | ShiftRows undoes InvShiftRows |
| Aes.ShiftRowStep | crypto/aes/src/crypt_aes_constant_time.c:333-342 | one pass of the row loop, which reads the four bytes of row r and writes back byte (r + c) mod 4 into column c, rotates exactly row r and leaves the others as they were |
| Aes.InvShiftRowStep | crypto/aes/src/crypt_aes_constant_time.c:351-360 | one pass of the inverse row loop rotates exactly row r right by r places |
| Aes.ShiftRows | crypto/aes/src/crypt_aes_constant_time.c:327-343 | the new state bytes are ShiftRows of the old ones (section 5.1.2) |
| Aes.InvShiftRows | crypto/aes/src/crypt_aes_constant_time.c:345-361 | the new state bytes are InvShiftRows of the old ones (section 5.3.1) |
| Columns.MixColumnXtime | crypto/aes/src/crypt_aes_constant_time.c:363-388 | the column product with rows (02 03 01 01) rotated is, byte by byte, the xtime-and-xor form the lane code computes |
| Columns.InvMixColumnXtime | crypto/aes/src/crypt_aes_constant_time.c:390-423 | the column product with rows (0E 0B 0D 09) rotated is, byte by byte, the xtime-and-xor form of the inverse |
| Columns.MixRow0Xtime | crypto/aes/src/crypt_aes_constant_time.c:363-388 | row 0 of a mixed column, 02·b0 + 03·b1 + 01·b2 + 01·b3 in GF(2^8), is the xtime-and-xor sum the lane code computes (rows 1 to 3 are the same with the bytes rotated) |
| Columns.InvMixRow0Xtime | crypto/aes/src/crypt_aes_constant_time.c:390-423 | row 0 of an inversely mixed column, 0E·b0 + 0B·b1 + 0D·b2 + 09·b3 in GF(2^8), is the xtime-and-xor sum the inverse lane code computes |
| MixLanes.MixLaneRows | crypto/aes/src/crypt_aes_constant_time.c:368-386 | the loop body (two swaps, xtime, a byte rotation within each column) sets each byte to the mixing sum of its own column's bytes |
| MixLanes.InvMixLaneRows | crypto/aes/src/crypt_aes_constant_time.c:395-421 | the inverse loop body sets each byte to the inverse mixing sum of its own column's bytes |
| MixLanes.MixLaneColumns | crypto/aes/src/crypt_aes_constant_time.c:363-388 | the loop body mixes the two columns of a lane independently |
| MixLanes.InvMixLaneColumns | crypto/aes/src/crypt_aes_constant_time.c:390-423 | the inverse loop body unmixes the two columns of a lane independently |
| Columns.InvMixMixColumn | crypto/aes/src/crypt_aes_constant_time.c:363-423 | InvMixColumn undoes MixColumn on every column |
| Columns.MixInvMixColumn | crypto/aes/src/crypt_aes_constant_time.c:363-423 | MixColumn undoes InvMixColumn on every column |
| Fips197.InvMixColumnsMixColumns | crypto/aes/src/crypt_aes_constant_time.c:363-423 | InvMixColumns undoes MixColumns on the state |
| Fips197.MixColumnsInvMixColumns | crypto/aes/src/crypt_aes_constant_time.c:363-423 | MixColumns undoes InvMixColumns on the state |
| LaneState.MixLaneState | crypto/aes/src/crypt_aes_constant_time.c:363-388 | the loop body on both lanes is MixColumns of section 5.1.3 on the state bytes |
| LaneState.InvMixLaneState | crypto/aes/src/crypt_aes_constant_time.c:390-423 | the inverse loop body on both lanes is InvMixColumns of section 5.3.3 |
| Aes.MixColumns | crypto/aes/src/crypt_aes_constant_time.c:363-388 | each lane is replaced by its mixed lane, and the state bytes become MixColumns of the old bytes |
| Aes.InvMixColumns | crypto/aes/src/crypt_aes_constant_time.c:390-423 | each lane is replaced by its inversely mixed lane, and the state bytes become InvMixColumns of the old bytes |
| LaneState.XorState | crypto/aes/src/crypt_aes_constant_time.c:425-428 | XOR of the two state lanes with two key lanes is AddRoundKey with the 16 key bytes |
| Aes.AddRoundKey | crypto/aes/src/crypt_aes_constant_time.c:425-428 | exactly the two state lanes are XORed with lanes off and off + 1 of w, and the state bytes become AddRoundKey of the old bytes with that round key |
| Fips197.AddRoundKeyTwice | crypto/aes/src/crypt_aes_constant_time.c:425-428 | adding the same round key twice gives the state back |
| LaneState.LaneKeysRoundKeys | crypto/aes/src/crypt_aes_constant_time.c:437-450 | the round key r read from lanes 2r and 2r + 1 is round key r of section 5.2, read from the words the lanes hold |
| Aes.CipherStep | crypto/aes/src/crypt_aes_constant_time.c:439-450 | a loop round is SubBytes, ShiftRows, MixColumns, AddRoundKey, and the last round has no MixColumns |
| Aes.Cipher | crypto/aes/src/crypt_aes_constant_time.c:430-453 | the output block is figure 5 applied to the input block with the round keys in lanes 0 .. 2 Nr + 1; the rest of the output is untouched, and input and output may be the same block |
| Aes.InvCipherStep | crypto/aes/src/crypt_aes_constant_time.c:464-470 | an inverse round is InvShiftRows, InvSubBytes, AddRoundKey, InvMixColumns on the state built from the later keys |
| Aes.InvCipher | crypto/aes/src/crypt_aes_constant_time.c:455-478 | the output block is figure 12 applied to the input block with the same round keys |
| Fips197.InvCipherRoundsCipherRounds | crypto/aes/src/crypt_aes_constant_time.c:430-478 | the inverse rounds undo the rounds, down to the SubBytes and ShiftRows of the first round |
| Fips197.CipherRoundsInvCipherRounds | crypto/aes/src/crypt_aes_constant_time.c:430-478 | the rounds undo the inverse rounds |
| Fips197.InvCipherCipher | crypto/aes/src/crypt_aes_constant_time.c:430-478 | InvCipher(Cipher(x)) == x for every block and every list of round keys |
| Fips197.CipherInvCipher | crypto/aes/src/crypt_aes_constant_time.c:430-478 | Cipher(InvCipher(x)) == x for every block and every list of round keys |
| Aes.RotWord | crypto/aes/src/crypt_aes_constant_time.c:480-490 | the bytes [a0, a1, a2, a3] of the word become [a1, a2, a3, a0] |
| Fips197.KeyScheduleWords | crypto/aes/src/crypt_aes_constant_time.c:492-518 | the first Nk schedule words are the key's words, and every later word j is w[j - Nk] XOR T(w[j - 1]), with T as figure 11 says |
| Fips197.RconValues | crypto/aes/src/crypt_aes_constant_time.c:500-510 | the round constants built by repeated xtime from {01} are 01, 02, 04, 08, 10, 20, 40, 80, 1b, 36 |
| Aes.KeyLanes | crypto/aes/src/crypt_aes_constant_time.c:499 | lanes packed from the key bytes hold the first Nk schedule words, two per lane |
| Aes.CopyKey | crypto/aes/src/crypt_aes_constant_time.c:499 | the key copy fills lanes 0 .. Nk/2 - 1 with the first Nk schedule words and leaves the other lanes alone |
| Aes.LaneIndex | crypto/aes/src/crypt_aes_constant_time.c:503-512 | the lane tests i mod n == 0 and (nk > 6 and i mod n == 2) are exactly figure 11's tests on word 2i, i mod Nk == 0 and (Nk > 6 and i mod Nk == 4) |
| Aes.TempTransform | crypto/aes/src/crypt_aes_constant_time.c:504-512 | the word temp built from the high word of lane i - 1 (word 2i - 1) is what figure 11 adds to word 2i - Nk to form word 2i, whichever branch was taken |
| Aes.RconAdvance | crypto/aes/src/crypt_aes_constant_time.c:509 | rcon is doubled exactly when used, so it is always the round constant of the next word that needs one |
| Aes.LaneTemp | crypto/aes/src/crypt_aes_constant_time.c:504-512 | the branch on i returns what figure 11 adds to form word 2i, and the round constant of the next lane |
| Aes.TransformOdd | crypto/aes/src/crypt_aes_constant_time.c:515 | at the odd word 2i + 1, figure 11 adds word 2i unchanged, since Nk is even |
| Aes.KeyStep | crypto/aes/src/crypt_aes_constant_time.c:513-516 | lane i - n XORed with temp, low word first, then high word with the new low word, extends the schedule by words 2i and 2i + 1 |
| Aes.StoreLane | crypto/aes/src/crypt_aes_constant_time.c:513-516 | storing the new lane i keeps lanes 0 .. i equal to the first 2i + 2 schedule words and changes no other lane |
| Aes.KeyExpansion | crypto/aes/src/crypt_aes_constant_time.c:492-518 | lanes 0 .. 2 (Nr + 1) - 1 hold the 4 (Nr + 1) words of figure 11 for the key, and every later lane is unchanged |
| Aes.SetAesKeyExpansionConstantTime | crypto/aes/src/crypt_aes_constant_time.c:521-544 | with a missing context or key, or a length other than 128, 192 or 256 bits, nothing changes; otherwise Nr is 10, 12 or 14, and the buffer holds the schedule of the keyLenBits / 32-word key |
| Aes.EncryptConstantTime | crypto/aes/src/crypt_aes_constant_time.c:546-554 | nothing is written when a pointer is missing; otherwise the output block is the cipher of the input block under the context's keys, and len plays no part |
| Aes.DecryptConstantTime | crypto/aes/src/crypt_aes_constant_time.c:556-564 | nothing is written when a pointer is missing; otherwise the output block is the inverse cipher of the input block |
| KnownAnswer.A1Word4 | crypto/aes/src/crypt_aes_constant_time.c:503-516 | the first schedule word that goes through RotWord, SubWord and a round constant is a0fafe17 for the cipher key 2b7e151628aed2a6abf7158809cf4f3c of FIPS 197 appendix A.1 |
| KnownAnswer.A1Word43 | crypto/aes/src/crypt_aes_constant_time.c:492-518 | the expansion of the appendix A.1 key ends with word b6630ca6, as the appendix lists |
| KnownAnswer.A3Word12 | crypto/aes/src/crypt_aes_constant_time.c:503-516 | for the 256-bit key 603deb1015ca71be2b73aef0857d77811f352c073b6108d72d9810a30914dff4 of appendix A.3, word 12, the first one that figure 11 passes through SubWord alone (Nk > 6 and i mod Nk == 4), is a8b09c1a |
| KnownAnswer.A3Word59 | crypto/aes/src/crypt_aes_constant_time.c:492-518 | the expansion of the appendix A.3 key ends with word 706c631e, as the appendix lists |
| KnownAnswer.ZeroRoundKey10 | crypto/aes/src/crypt_aes_constant_time.c:492-518 | the last round key of the all-zero 128-bit key is b4ef5bcb3e92e21123e951cf6f8f188e |
| KnownAnswer.ZeroCipher | crypto/aes/src/crypt_aes_constant_time.c:430-453 | under the all-zero 128-bit key, the cipher of figure 5 maps the all-zero block to 66e94bd4ef8a2c3b884cfa59ca342b2e |
| KnownAnswer.ZeroInvCipher | crypto/aes/src/crypt_aes_constant_time.c:455-478 | under the same key, the inverse cipher of figure 12 maps 66e94bd4ef8a2c3b884cfa59ca342b2e back to the all-zero block |
| Aes.EncryptDecryptInPlace | crypto/aes/src/crypt_aes_constant_time.c:546-564 | encrypting a block in place and then decrypting it in place with the same context gives the block back |

## Left out

- Constant-time execution and freedom from cache-timing leaks: the verifier cannot state timing. The only branches in the model are on loop indices, `n`, `nk` and the key length, as in the source.
- The `U64` literal macro and its platform selection: the model uses plain 64-bit literals.
- The `uni` union: the model reads a lane through its byte view (`Bytes.Unpack64`, `Bytes.Lo`, `Bytes.Hi`) instead of type-punning. Byte k of a lane is bits 8k..8k+7. The source is endian-neutral here: its shifts are masked to a byte, and its 16-bit and 8-bit swaps are symmetric within a column.
- The `memcpy` loads and stores of the state and key: these are modelled as packing bytes into lanes and unpacking them back (`Aes.LoadState`, `Aes.StoreState`, `Aes.CopyKey`).
- Aes.ShiftRows, Aes.InvShiftRows: the source rewrites bytes of the state in place through a byte pointer. The model runs the same row loop on a 16-byte local copy and writes it back into both lanes at the end.
- Aes.KeyExpansion: the loop body is split into `Aes.LaneTemp` (the branch that builds temp and advances rcon) and `Aes.StoreLane` (the XOR with lane i - n and the store). The `prev` union is the pair of its two 32-bit words.
- The 40-bit mask `0x0A0A0A0A0A` at line 100 of SubWord is applied to a 32-bit operand, so it is modelled as `0x0A0A0A0A`, the same value after truncation.
- Aes.SetAesKeyExpansionConstantTime: `isEncrypt` is accepted and ignored, as in the source. The key-length constants are taken to be 128, 192 and 256. The context's key buffer is required to hold at least 30 lanes, enough for 14 rounds. Both are defined in headers that are not part of this model.
- Aes.EncryptConstantTime, Aes.DecryptConstantTime: a context is required to hold a round count of 1 or more whose keys fit its buffer (`AesKey.Ready`), which the key setup establishes. `len` is accepted and ignored, and the block is always 16 bytes.
- The layout of the key context, context allocation, and the chaining modes that call the block cipher: these are not part of this model.
- The remaining known-answer vectors of FIPS 197 are not stated: the key expansion of appendix A.2 and the example ciphers of appendix C. Each cipher vector takes about a hundred small lemmas of evaluation on literal bytes. The key schedule and the cipher are proved for every Nk and Nr against figures 5, 11 and 12, and each step of figure 11 is already checked against published words by appendices A.1 and A.3.
- Build gating by `hitls_build.h` and `crypt_aes_constant_time.h`: declarations only, with no behaviour.
