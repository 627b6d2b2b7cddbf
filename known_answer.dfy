/**
 * Known-answer vectors: the key expansions of FIPS 197 appendices A.1 and A.3
 * (128-bit key 2b7e151628aed2a6abf7158809cf4f3c and 256-bit key
 * 603deb1015ca71be2b73aef0857d77811f352c073b6108d72d9810a30914dff4), and the all-zero 128-bit key with
 * its expansion and the cipher of the all-zero block, whose ciphertext is
 * 66e94bd4ef8a2c3b884cfa59ca342b2e.  They tie the tables, matrices, row
 * offsets and round constants of module Fips197 to published values.
 *
 * Each vector is checked one schedule word or one round step at a time; the
 * lemmas that spell a step out byte by byte let the verifier evaluate it on
 * literal bytes, and the rows of figure 7 give the S-box one byte at a time.
 */
module KnownAnswer {
  import opened Field
  import opened Bytes
  import opened SBoxTable
  import opened Columns
  import opened Fips197

  // ------------------------------------------------ the steps, byte by byte

  /** SubBytes on a state, one S-box entry per byte. */
  lemma SubBytesSpelled(s: seq<bv8>)
    requires |s| == 16
    ensures SubBytes(s) ==
      [SBox(s[0]), SBox(s[1]), SBox(s[2]), SBox(s[3])] +
      [SBox(s[4]), SBox(s[5]), SBox(s[6]), SBox(s[7])] +
      [SBox(s[8]), SBox(s[9]), SBox(s[10]), SBox(s[11])] +
      [SBox(s[12]), SBox(s[13]), SBox(s[14]), SBox(s[15])]
  {
    hide SBox;
  }

  /** MixColumns on a state, one xtime form per byte. */
  lemma MixColumnsSpelled(s: seq<bv8>)
    requires |s| == 16
    ensures MixColumns(s) ==
      [MixRowXtime(s[0], s[1], s[2], s[3]), MixRowXtime(s[1], s[2], s[3], s[0]), MixRowXtime(s[2], s[3], s[0], s[1]), MixRowXtime(s[3], s[0], s[1], s[2])] +
      [MixRowXtime(s[4], s[5], s[6], s[7]), MixRowXtime(s[5], s[6], s[7], s[4]), MixRowXtime(s[6], s[7], s[4], s[5]), MixRowXtime(s[7], s[4], s[5], s[6])] +
      [MixRowXtime(s[8], s[9], s[10], s[11]), MixRowXtime(s[9], s[10], s[11], s[8]), MixRowXtime(s[10], s[11], s[8], s[9]), MixRowXtime(s[11], s[8], s[9], s[10])] +
      [MixRowXtime(s[12], s[13], s[14], s[15]), MixRowXtime(s[13], s[14], s[15], s[12]), MixRowXtime(s[14], s[15], s[12], s[13]), MixRowXtime(s[15], s[12], s[13], s[14])]
  {
    hide MixRowXtime, MixColumn, Row, Mul, Add, Xtime;
    MixColumnXtime(GetColumn(s, 0));
    assert ColumnBytes(MixColumn(GetColumn(s, 0))) == [MixRowXtime(s[0], s[1], s[2], s[3]), MixRowXtime(s[1], s[2], s[3], s[0]), MixRowXtime(s[2], s[3], s[0], s[1]), MixRowXtime(s[3], s[0], s[1], s[2])];
    MixColumnXtime(GetColumn(s, 1));
    assert ColumnBytes(MixColumn(GetColumn(s, 1))) == [MixRowXtime(s[4], s[5], s[6], s[7]), MixRowXtime(s[5], s[6], s[7], s[4]), MixRowXtime(s[6], s[7], s[4], s[5]), MixRowXtime(s[7], s[4], s[5], s[6])];
    MixColumnXtime(GetColumn(s, 2));
    assert ColumnBytes(MixColumn(GetColumn(s, 2))) == [MixRowXtime(s[8], s[9], s[10], s[11]), MixRowXtime(s[9], s[10], s[11], s[8]), MixRowXtime(s[10], s[11], s[8], s[9]), MixRowXtime(s[11], s[8], s[9], s[10])];
    MixColumnXtime(GetColumn(s, 3));
    assert ColumnBytes(MixColumn(GetColumn(s, 3))) == [MixRowXtime(s[12], s[13], s[14], s[15]), MixRowXtime(s[13], s[14], s[15], s[12]), MixRowXtime(s[14], s[15], s[12], s[13]), MixRowXtime(s[15], s[12], s[13], s[14])];
  }

  /** AddRoundKey with a key of four words, one sum per byte. */
  lemma AddRoundKeySpelled(s: seq<bv8>, k0: seq<bv8>, k1: seq<bv8>, k2: seq<bv8>, k3: seq<bv8>)
    requires |s| == 16 && |k0| == 4 && |k1| == 4 && |k2| == 4 && |k3| == 4
    ensures AddRoundKey(s, k0 + k1 + k2 + k3) ==
      [Add(s[0], k0[0]), Add(s[1], k0[1]), Add(s[2], k0[2]), Add(s[3], k0[3])] +
      [Add(s[4], k1[0]), Add(s[5], k1[1]), Add(s[6], k1[2]), Add(s[7], k1[3])] +
      [Add(s[8], k2[0]), Add(s[9], k2[1]), Add(s[10], k2[2]), Add(s[11], k2[3])] +
      [Add(s[12], k3[0]), Add(s[13], k3[1]), Add(s[14], k3[2]), Add(s[15], k3[3])]
  {
  }

  /** What figure 11 adds at word i, byte by byte. */
  lemma TransformSpelled(t: seq<bv8>, i: nat, nk: nat)
    requires |t| == 4 && 0 < nk <= i
    ensures i % nk == 0 ==>
      Transform(t, i, nk) == [Add(SBox(t[1]), XtimePower(i / nk - 1)), SBox(t[2]), SBox(t[3]), SBox(t[0])]
    ensures i % nk != 0 && nk > 6 && i % nk == 4 ==> Transform(t, i, nk) == [SBox(t[0]), SBox(t[1]), SBox(t[2]), SBox(t[3])]
    ensures i % nk != 0 && !(nk > 6 && i % nk == 4) ==> Transform(t, i, nk) == t
  {
    hide SBox, XtimePower, Add;
    if i % nk == 0 {
      var r := XorBytes(SubWord(RotWord(t)), Rcon(i / nk));
      AddZero(SBox(t[2]));
      AddZero(SBox(t[3]));
      AddZero(SBox(t[0]));
      assert r == [Add(SBox(t[1]), XtimePower(i / nk - 1)), SBox(t[2]), SBox(t[3]), SBox(t[0])];
    }
  }

  /** One of the first Nk words of figure 11, byte by byte from the key. */
  lemma KeyWordSpelled(key: seq<bv8>, nk: nat, n: nat, i: nat)
    requires nk > 0 && |key| == 4 * nk && i < nk && i < n
    ensures KeySchedule(key, nk, n)[i] == [key[4 * i], key[4 * i + 1], key[4 * i + 2], key[4 * i + 3]]
  {
    KeyScheduleWords(key, nk, n, i);
  }

  /** The exclusive or of two words, byte by byte. */
  lemma XorWordSpelled(a: seq<bv8>, b: seq<bv8>)
    requires |a| == 4 && |b| == 4
    ensures XorBytes(a, b) == [Add(a[0], b[0]), Add(a[1], b[1]), Add(a[2], b[2]), Add(a[3], b[3])]
  {
  }

  /** Row 0 of figure 7: the S-box entries of the bytes 00 .. 0F. */
  lemma SBoxRow0(b: bv8)
    requires b >> 4 == 0x0
    ensures SBox(b) == [0x63, 0x7C, 0x77, 0x7B, 0xF2, 0x6B, 0x6F, 0xC5, 0x30, 0x01, 0x67, 0x2B, 0xFE, 0xD7, 0xAB, 0x76][b & 0x0F]
  {
  }

  /** Row 1 of figure 7: the S-box entries of the bytes 10 .. 1F. */
  lemma SBoxRow1(b: bv8)
    requires b >> 4 == 0x1
    ensures SBox(b) == [0xCA, 0x82, 0xC9, 0x7D, 0xFA, 0x59, 0x47, 0xF0, 0xAD, 0xD4, 0xA2, 0xAF, 0x9C, 0xA4, 0x72, 0xC0][b & 0x0F]
  {
  }

  /** Row 2 of figure 7: the S-box entries of the bytes 20 .. 2F. */
  lemma SBoxRow2(b: bv8)
    requires b >> 4 == 0x2
    ensures SBox(b) == [0xB7, 0xFD, 0x93, 0x26, 0x36, 0x3F, 0xF7, 0xCC, 0x34, 0xA5, 0xE5, 0xF1, 0x71, 0xD8, 0x31, 0x15][b & 0x0F]
  {
  }

  /** Row 3 of figure 7: the S-box entries of the bytes 30 .. 3F. */
  lemma SBoxRow3(b: bv8)
    requires b >> 4 == 0x3
    ensures SBox(b) == [0x04, 0xC7, 0x23, 0xC3, 0x18, 0x96, 0x05, 0x9A, 0x07, 0x12, 0x80, 0xE2, 0xEB, 0x27, 0xB2, 0x75][b & 0x0F]
  {
  }

  /** Row 4 of figure 7: the S-box entries of the bytes 40 .. 4F. */
  lemma SBoxRow4(b: bv8)
    requires b >> 4 == 0x4
    ensures SBox(b) == [0x09, 0x83, 0x2C, 0x1A, 0x1B, 0x6E, 0x5A, 0xA0, 0x52, 0x3B, 0xD6, 0xB3, 0x29, 0xE3, 0x2F, 0x84][b & 0x0F]
  {
  }

  /** Row 5 of figure 7: the S-box entries of the bytes 50 .. 5F. */
  lemma SBoxRow5(b: bv8)
    requires b >> 4 == 0x5
    ensures SBox(b) == [0x53, 0xD1, 0x00, 0xED, 0x20, 0xFC, 0xB1, 0x5B, 0x6A, 0xCB, 0xBE, 0x39, 0x4A, 0x4C, 0x58, 0xCF][b & 0x0F]
  {
  }

  /** Row 6 of figure 7: the S-box entries of the bytes 60 .. 6F. */
  lemma SBoxRow6(b: bv8)
    requires b >> 4 == 0x6
    ensures SBox(b) == [0xD0, 0xEF, 0xAA, 0xFB, 0x43, 0x4D, 0x33, 0x85, 0x45, 0xF9, 0x02, 0x7F, 0x50, 0x3C, 0x9F, 0xA8][b & 0x0F]
  {
  }

  /** Row 7 of figure 7: the S-box entries of the bytes 70 .. 7F. */
  lemma SBoxRow7(b: bv8)
    requires b >> 4 == 0x7
    ensures SBox(b) == [0x51, 0xA3, 0x40, 0x8F, 0x92, 0x9D, 0x38, 0xF5, 0xBC, 0xB6, 0xDA, 0x21, 0x10, 0xFF, 0xF3, 0xD2][b & 0x0F]
  {
  }

  /** Row 8 of figure 7: the S-box entries of the bytes 80 .. 8F. */
  lemma SBoxRow8(b: bv8)
    requires b >> 4 == 0x8
    ensures SBox(b) == [0xCD, 0x0C, 0x13, 0xEC, 0x5F, 0x97, 0x44, 0x17, 0xC4, 0xA7, 0x7E, 0x3D, 0x64, 0x5D, 0x19, 0x73][b & 0x0F]
  {
  }

  /** Row 9 of figure 7: the S-box entries of the bytes 90 .. 9F. */
  lemma SBoxRow9(b: bv8)
    requires b >> 4 == 0x9
    ensures SBox(b) == [0x60, 0x81, 0x4F, 0xDC, 0x22, 0x2A, 0x90, 0x88, 0x46, 0xEE, 0xB8, 0x14, 0xDE, 0x5E, 0x0B, 0xDB][b & 0x0F]
  {
  }

  /** Row A of figure 7: the S-box entries of the bytes A0 .. AF. */
  lemma SBoxRowA(b: bv8)
    requires b >> 4 == 0xA
    ensures SBox(b) == [0xE0, 0x32, 0x3A, 0x0A, 0x49, 0x06, 0x24, 0x5C, 0xC2, 0xD3, 0xAC, 0x62, 0x91, 0x95, 0xE4, 0x79][b & 0x0F]
  {
  }

  /** Row B of figure 7: the S-box entries of the bytes B0 .. BF. */
  lemma SBoxRowB(b: bv8)
    requires b >> 4 == 0xB
    ensures SBox(b) == [0xE7, 0xC8, 0x37, 0x6D, 0x8D, 0xD5, 0x4E, 0xA9, 0x6C, 0x56, 0xF4, 0xEA, 0x65, 0x7A, 0xAE, 0x08][b & 0x0F]
  {
  }

  /** Row C of figure 7: the S-box entries of the bytes C0 .. CF. */
  lemma SBoxRowC(b: bv8)
    requires b >> 4 == 0xC
    ensures SBox(b) == [0xBA, 0x78, 0x25, 0x2E, 0x1C, 0xA6, 0xB4, 0xC6, 0xE8, 0xDD, 0x74, 0x1F, 0x4B, 0xBD, 0x8B, 0x8A][b & 0x0F]
  {
  }

  /** Row D of figure 7: the S-box entries of the bytes D0 .. DF. */
  lemma SBoxRowD(b: bv8)
    requires b >> 4 == 0xD
    ensures SBox(b) == [0x70, 0x3E, 0xB5, 0x66, 0x48, 0x03, 0xF6, 0x0E, 0x61, 0x35, 0x57, 0xB9, 0x86, 0xC1, 0x1D, 0x9E][b & 0x0F]
  {
  }

  /** Row E of figure 7: the S-box entries of the bytes E0 .. EF. */
  lemma SBoxRowE(b: bv8)
    requires b >> 4 == 0xE
    ensures SBox(b) == [0xE1, 0xF8, 0x98, 0x11, 0x69, 0xD9, 0x8E, 0x94, 0x9B, 0x1E, 0x87, 0xE9, 0xCE, 0x55, 0x28, 0xDF][b & 0x0F]
  {
  }

  /** Row F of figure 7: the S-box entries of the bytes F0 .. FF. */
  lemma SBoxRowF(b: bv8)
    requires b >> 4 == 0xF
    ensures SBox(b) == [0x8C, 0xA1, 0x89, 0x0D, 0xBF, 0xE6, 0x42, 0x68, 0x41, 0x99, 0x2D, 0x0F, 0xB0, 0x54, 0xBB, 0x16][b & 0x0F]
  {
  }

  /** One full round of figure 5, taken off the front of the remaining rounds. */
  lemma CipherRoundsFirst(s: seq<bv8>, ks: seq<seq<bv8>>)
    requires |s| == 16 && Blocks(ks) && |ks| >= 2
    ensures CipherRounds(s, ks) == CipherRounds(AddRoundKey(MixColumns(ShiftRows(SubBytes(s))), ks[0]), ks[1..])
  {
  }

  /** The final round of figure 5, which has no MixColumns. */
  lemma CipherRoundsLast(s: seq<bv8>, ks: seq<seq<bv8>>)
    requires |s| == 16 && Blocks(ks) && |ks| == 1
    ensures CipherRounds(s, ks) == AddRoundKey(ShiftRows(SubBytes(s)), ks[0])
  {
  }

  // ------------------------------------------- the zero key and the zero block

  /** Word 0 of the expansion of the zero key, one of the words of the key itself. */
  lemma ZeroWord0(key: seq<bv8>)
    requires key == [0x00, 0x00, 0x00, 0x00, 0x00, 0x00, 0x00, 0x00, 0x00, 0x00, 0x00, 0x00, 0x00, 0x00, 0x00, 0x00]
    ensures KeySchedule(key, 4, 44)[0] == [0x00, 0x00, 0x00, 0x00]
  {
    hide KeySchedule;
    KeyWordSpelled(key, 4, 44, 0);
  }

  /** Word 1 of the expansion of the zero key, one of the words of the key itself. */
  lemma ZeroWord1(key: seq<bv8>)
    requires key == [0x00, 0x00, 0x00, 0x00, 0x00, 0x00, 0x00, 0x00, 0x00, 0x00, 0x00, 0x00, 0x00, 0x00, 0x00, 0x00]
    ensures KeySchedule(key, 4, 44)[1] == [0x00, 0x00, 0x00, 0x00]
  {
    hide KeySchedule;
    KeyWordSpelled(key, 4, 44, 1);
  }

  /** Word 2 of the expansion of the zero key, one of the words of the key itself. */
  lemma ZeroWord2(key: seq<bv8>)
    requires key == [0x00, 0x00, 0x00, 0x00, 0x00, 0x00, 0x00, 0x00, 0x00, 0x00, 0x00, 0x00, 0x00, 0x00, 0x00, 0x00]
    ensures KeySchedule(key, 4, 44)[2] == [0x00, 0x00, 0x00, 0x00]
  {
    hide KeySchedule;
    KeyWordSpelled(key, 4, 44, 2);
  }

  /** Word 3 of the expansion of the zero key, one of the words of the key itself. */
  lemma ZeroWord3(key: seq<bv8>)
    requires key == [0x00, 0x00, 0x00, 0x00, 0x00, 0x00, 0x00, 0x00, 0x00, 0x00, 0x00, 0x00, 0x00, 0x00, 0x00, 0x00]
    ensures KeySchedule(key, 4, 44)[3] == [0x00, 0x00, 0x00, 0x00]
  {
    hide KeySchedule;
    KeyWordSpelled(key, 4, 44, 3);
  }

  /** Word 4 of the expansion of the zero key. */
  lemma ZeroWord4(key: seq<bv8>)
    requires key == [0x00, 0x00, 0x00, 0x00, 0x00, 0x00, 0x00, 0x00, 0x00, 0x00, 0x00, 0x00, 0x00, 0x00, 0x00, 0x00]
    ensures KeySchedule(key, 4, 44)[4] == [0x62, 0x63, 0x63, 0x63]
  {
    hide KeySchedule, Transform, SBox, XtimePower;
    var w := KeySchedule(key, 4, 44);
    ZeroWord3(key);
    ZeroWord0(key);
    SBoxRow0(w[3][0]);
    SBoxRow0(w[3][1]);
    SBoxRow0(w[3][2]);
    SBoxRow0(w[3][3]);
    XtimePowerValues();
    KeyScheduleWords(key, 4, 44, 4);
    TransformSpelled(w[3], 4, 4);
    XorWordSpelled(w[0], Transform(w[3], 4, 4));
  }

  /** Word 5 of the expansion of the zero key. */
  lemma ZeroWord5(key: seq<bv8>)
    requires key == [0x00, 0x00, 0x00, 0x00, 0x00, 0x00, 0x00, 0x00, 0x00, 0x00, 0x00, 0x00, 0x00, 0x00, 0x00, 0x00]
    ensures KeySchedule(key, 4, 44)[5] == [0x62, 0x63, 0x63, 0x63]
  {
    hide KeySchedule, Transform;
    var w := KeySchedule(key, 4, 44);
    ZeroWord4(key);
    ZeroWord1(key);
    KeyScheduleWords(key, 4, 44, 5);
    TransformSpelled(w[4], 5, 4);
    XorWordSpelled(w[1], Transform(w[4], 5, 4));
  }

  /** Word 6 of the expansion of the zero key. */
  lemma ZeroWord6(key: seq<bv8>)
    requires key == [0x00, 0x00, 0x00, 0x00, 0x00, 0x00, 0x00, 0x00, 0x00, 0x00, 0x00, 0x00, 0x00, 0x00, 0x00, 0x00]
    ensures KeySchedule(key, 4, 44)[6] == [0x62, 0x63, 0x63, 0x63]
  {
    hide KeySchedule, Transform;
    var w := KeySchedule(key, 4, 44);
    ZeroWord5(key);
    ZeroWord2(key);
    KeyScheduleWords(key, 4, 44, 6);
    TransformSpelled(w[5], 6, 4);
    XorWordSpelled(w[2], Transform(w[5], 6, 4));
  }

  /** Word 7 of the expansion of the zero key. */
  lemma ZeroWord7(key: seq<bv8>)
    requires key == [0x00, 0x00, 0x00, 0x00, 0x00, 0x00, 0x00, 0x00, 0x00, 0x00, 0x00, 0x00, 0x00, 0x00, 0x00, 0x00]
    ensures KeySchedule(key, 4, 44)[7] == [0x62, 0x63, 0x63, 0x63]
  {
    hide KeySchedule, Transform;
    var w := KeySchedule(key, 4, 44);
    ZeroWord6(key);
    ZeroWord3(key);
    KeyScheduleWords(key, 4, 44, 7);
    TransformSpelled(w[6], 7, 4);
    XorWordSpelled(w[3], Transform(w[6], 7, 4));
  }

  /** Word 8 of the expansion of the zero key. */
  lemma ZeroWord8(key: seq<bv8>)
    requires key == [0x00, 0x00, 0x00, 0x00, 0x00, 0x00, 0x00, 0x00, 0x00, 0x00, 0x00, 0x00, 0x00, 0x00, 0x00, 0x00]
    ensures KeySchedule(key, 4, 44)[8] == [0x9B, 0x98, 0x98, 0xC9]
  {
    hide KeySchedule, Transform, SBox, XtimePower;
    var w := KeySchedule(key, 4, 44);
    ZeroWord7(key);
    ZeroWord4(key);
    SBoxRow6(w[7][0]);
    SBoxRow6(w[7][1]);
    SBoxRow6(w[7][2]);
    SBoxRow6(w[7][3]);
    XtimePowerValues();
    KeyScheduleWords(key, 4, 44, 8);
    TransformSpelled(w[7], 8, 4);
    XorWordSpelled(w[4], Transform(w[7], 8, 4));
  }

  /** Word 9 of the expansion of the zero key. */
  lemma ZeroWord9(key: seq<bv8>)
    requires key == [0x00, 0x00, 0x00, 0x00, 0x00, 0x00, 0x00, 0x00, 0x00, 0x00, 0x00, 0x00, 0x00, 0x00, 0x00, 0x00]
    ensures KeySchedule(key, 4, 44)[9] == [0xF9, 0xFB, 0xFB, 0xAA]
  {
    hide KeySchedule, Transform;
    var w := KeySchedule(key, 4, 44);
    ZeroWord8(key);
    ZeroWord5(key);
    KeyScheduleWords(key, 4, 44, 9);
    TransformSpelled(w[8], 9, 4);
    XorWordSpelled(w[5], Transform(w[8], 9, 4));
  }

  /** Word 10 of the expansion of the zero key. */
  lemma ZeroWord10(key: seq<bv8>)
    requires key == [0x00, 0x00, 0x00, 0x00, 0x00, 0x00, 0x00, 0x00, 0x00, 0x00, 0x00, 0x00, 0x00, 0x00, 0x00, 0x00]
    ensures KeySchedule(key, 4, 44)[10] == [0x9B, 0x98, 0x98, 0xC9]
  {
    hide KeySchedule, Transform;
    var w := KeySchedule(key, 4, 44);
    ZeroWord9(key);
    ZeroWord6(key);
    KeyScheduleWords(key, 4, 44, 10);
    TransformSpelled(w[9], 10, 4);
    XorWordSpelled(w[6], Transform(w[9], 10, 4));
  }

  /** Word 11 of the expansion of the zero key. */
  lemma ZeroWord11(key: seq<bv8>)
    requires key == [0x00, 0x00, 0x00, 0x00, 0x00, 0x00, 0x00, 0x00, 0x00, 0x00, 0x00, 0x00, 0x00, 0x00, 0x00, 0x00]
    ensures KeySchedule(key, 4, 44)[11] == [0xF9, 0xFB, 0xFB, 0xAA]
  {
    hide KeySchedule, Transform;
    var w := KeySchedule(key, 4, 44);
    ZeroWord10(key);
    ZeroWord7(key);
    KeyScheduleWords(key, 4, 44, 11);
    TransformSpelled(w[10], 11, 4);
    XorWordSpelled(w[7], Transform(w[10], 11, 4));
  }

  /** Word 12 of the expansion of the zero key. */
  lemma ZeroWord12(key: seq<bv8>)
    requires key == [0x00, 0x00, 0x00, 0x00, 0x00, 0x00, 0x00, 0x00, 0x00, 0x00, 0x00, 0x00, 0x00, 0x00, 0x00, 0x00]
    ensures KeySchedule(key, 4, 44)[12] == [0x90, 0x97, 0x34, 0x50]
  {
    hide KeySchedule, Transform, SBox, XtimePower;
    var w := KeySchedule(key, 4, 44);
    ZeroWord11(key);
    ZeroWord8(key);
    SBoxRowF(w[11][0]);
    SBoxRowF(w[11][1]);
    SBoxRowF(w[11][2]);
    SBoxRowA(w[11][3]);
    XtimePowerValues();
    KeyScheduleWords(key, 4, 44, 12);
    TransformSpelled(w[11], 12, 4);
    XorWordSpelled(w[8], Transform(w[11], 12, 4));
  }

  /** Word 13 of the expansion of the zero key. */
  lemma ZeroWord13(key: seq<bv8>)
    requires key == [0x00, 0x00, 0x00, 0x00, 0x00, 0x00, 0x00, 0x00, 0x00, 0x00, 0x00, 0x00, 0x00, 0x00, 0x00, 0x00]
    ensures KeySchedule(key, 4, 44)[13] == [0x69, 0x6C, 0xCF, 0xFA]
  {
    hide KeySchedule, Transform;
    var w := KeySchedule(key, 4, 44);
    ZeroWord12(key);
    ZeroWord9(key);
    KeyScheduleWords(key, 4, 44, 13);
    TransformSpelled(w[12], 13, 4);
    XorWordSpelled(w[9], Transform(w[12], 13, 4));
  }

  /** Word 14 of the expansion of the zero key. */
  lemma ZeroWord14(key: seq<bv8>)
    requires key == [0x00, 0x00, 0x00, 0x00, 0x00, 0x00, 0x00, 0x00, 0x00, 0x00, 0x00, 0x00, 0x00, 0x00, 0x00, 0x00]
    ensures KeySchedule(key, 4, 44)[14] == [0xF2, 0xF4, 0x57, 0x33]
  {
    hide KeySchedule, Transform;
    var w := KeySchedule(key, 4, 44);
    ZeroWord13(key);
    ZeroWord10(key);
    KeyScheduleWords(key, 4, 44, 14);
    TransformSpelled(w[13], 14, 4);
    XorWordSpelled(w[10], Transform(w[13], 14, 4));
  }

  /** Word 15 of the expansion of the zero key. */
  lemma ZeroWord15(key: seq<bv8>)
    requires key == [0x00, 0x00, 0x00, 0x00, 0x00, 0x00, 0x00, 0x00, 0x00, 0x00, 0x00, 0x00, 0x00, 0x00, 0x00, 0x00]
    ensures KeySchedule(key, 4, 44)[15] == [0x0B, 0x0F, 0xAC, 0x99]
  {
    hide KeySchedule, Transform;
    var w := KeySchedule(key, 4, 44);
    ZeroWord14(key);
    ZeroWord11(key);
    KeyScheduleWords(key, 4, 44, 15);
    TransformSpelled(w[14], 15, 4);
    XorWordSpelled(w[11], Transform(w[14], 15, 4));
  }

  /** Word 16 of the expansion of the zero key. */
  lemma ZeroWord16(key: seq<bv8>)
    requires key == [0x00, 0x00, 0x00, 0x00, 0x00, 0x00, 0x00, 0x00, 0x00, 0x00, 0x00, 0x00, 0x00, 0x00, 0x00, 0x00]
    ensures KeySchedule(key, 4, 44)[16] == [0xEE, 0x06, 0xDA, 0x7B]
  {
    hide KeySchedule, Transform, SBox, XtimePower;
    var w := KeySchedule(key, 4, 44);
    ZeroWord15(key);
    ZeroWord12(key);
    SBoxRow0(w[15][0]);
    SBoxRow0(w[15][1]);
    SBoxRowA(w[15][2]);
    SBoxRow9(w[15][3]);
    XtimePowerValues();
    KeyScheduleWords(key, 4, 44, 16);
    TransformSpelled(w[15], 16, 4);
    XorWordSpelled(w[12], Transform(w[15], 16, 4));
  }

  /** Word 17 of the expansion of the zero key. */
  lemma ZeroWord17(key: seq<bv8>)
    requires key == [0x00, 0x00, 0x00, 0x00, 0x00, 0x00, 0x00, 0x00, 0x00, 0x00, 0x00, 0x00, 0x00, 0x00, 0x00, 0x00]
    ensures KeySchedule(key, 4, 44)[17] == [0x87, 0x6A, 0x15, 0x81]
  {
    hide KeySchedule, Transform;
    var w := KeySchedule(key, 4, 44);
    ZeroWord16(key);
    ZeroWord13(key);
    KeyScheduleWords(key, 4, 44, 17);
    TransformSpelled(w[16], 17, 4);
    XorWordSpelled(w[13], Transform(w[16], 17, 4));
  }

  /** Word 18 of the expansion of the zero key. */
  lemma ZeroWord18(key: seq<bv8>)
    requires key == [0x00, 0x00, 0x00, 0x00, 0x00, 0x00, 0x00, 0x00, 0x00, 0x00, 0x00, 0x00, 0x00, 0x00, 0x00, 0x00]
    ensures KeySchedule(key, 4, 44)[18] == [0x75, 0x9E, 0x42, 0xB2]
  {
    hide KeySchedule, Transform;
    var w := KeySchedule(key, 4, 44);
    ZeroWord17(key);
    ZeroWord14(key);
    KeyScheduleWords(key, 4, 44, 18);
    TransformSpelled(w[17], 18, 4);
    XorWordSpelled(w[14], Transform(w[17], 18, 4));
  }

  /** Word 19 of the expansion of the zero key. */
  lemma ZeroWord19(key: seq<bv8>)
    requires key == [0x00, 0x00, 0x00, 0x00, 0x00, 0x00, 0x00, 0x00, 0x00, 0x00, 0x00, 0x00, 0x00, 0x00, 0x00, 0x00]
    ensures KeySchedule(key, 4, 44)[19] == [0x7E, 0x91, 0xEE, 0x2B]
  {
    hide KeySchedule, Transform;
    var w := KeySchedule(key, 4, 44);
    ZeroWord18(key);
    ZeroWord15(key);
    KeyScheduleWords(key, 4, 44, 19);
    TransformSpelled(w[18], 19, 4);
    XorWordSpelled(w[15], Transform(w[18], 19, 4));
  }

  /** Word 20 of the expansion of the zero key. */
  lemma ZeroWord20(key: seq<bv8>)
    requires key == [0x00, 0x00, 0x00, 0x00, 0x00, 0x00, 0x00, 0x00, 0x00, 0x00, 0x00, 0x00, 0x00, 0x00, 0x00, 0x00]
    ensures KeySchedule(key, 4, 44)[20] == [0x7F, 0x2E, 0x2B, 0x88]
  {
    hide KeySchedule, Transform, SBox, XtimePower;
    var w := KeySchedule(key, 4, 44);
    ZeroWord19(key);
    ZeroWord16(key);
    SBoxRow7(w[19][0]);
    SBoxRow9(w[19][1]);
    SBoxRowE(w[19][2]);
    SBoxRow2(w[19][3]);
    XtimePowerValues();
    KeyScheduleWords(key, 4, 44, 20);
    TransformSpelled(w[19], 20, 4);
    XorWordSpelled(w[16], Transform(w[19], 20, 4));
  }

  /** Word 21 of the expansion of the zero key. */
  lemma ZeroWord21(key: seq<bv8>)
    requires key == [0x00, 0x00, 0x00, 0x00, 0x00, 0x00, 0x00, 0x00, 0x00, 0x00, 0x00, 0x00, 0x00, 0x00, 0x00, 0x00]
    ensures KeySchedule(key, 4, 44)[21] == [0xF8, 0x44, 0x3E, 0x09]
  {
    hide KeySchedule, Transform;
    var w := KeySchedule(key, 4, 44);
    ZeroWord20(key);
    ZeroWord17(key);
    KeyScheduleWords(key, 4, 44, 21);
    TransformSpelled(w[20], 21, 4);
    XorWordSpelled(w[17], Transform(w[20], 21, 4));
  }

  /** Word 22 of the expansion of the zero key. */
  lemma ZeroWord22(key: seq<bv8>)
    requires key == [0x00, 0x00, 0x00, 0x00, 0x00, 0x00, 0x00, 0x00, 0x00, 0x00, 0x00, 0x00, 0x00, 0x00, 0x00, 0x00]
    ensures KeySchedule(key, 4, 44)[22] == [0x8D, 0xDA, 0x7C, 0xBB]
  {
    hide KeySchedule, Transform;
    var w := KeySchedule(key, 4, 44);
    ZeroWord21(key);
    ZeroWord18(key);
    KeyScheduleWords(key, 4, 44, 22);
    TransformSpelled(w[21], 22, 4);
    XorWordSpelled(w[18], Transform(w[21], 22, 4));
  }

  /** Word 23 of the expansion of the zero key. */
  lemma ZeroWord23(key: seq<bv8>)
    requires key == [0x00, 0x00, 0x00, 0x00, 0x00, 0x00, 0x00, 0x00, 0x00, 0x00, 0x00, 0x00, 0x00, 0x00, 0x00, 0x00]
    ensures KeySchedule(key, 4, 44)[23] == [0xF3, 0x4B, 0x92, 0x90]
  {
    hide KeySchedule, Transform;
    var w := KeySchedule(key, 4, 44);
    ZeroWord22(key);
    ZeroWord19(key);
    KeyScheduleWords(key, 4, 44, 23);
    TransformSpelled(w[22], 23, 4);
    XorWordSpelled(w[19], Transform(w[22], 23, 4));
  }

  /** Word 24 of the expansion of the zero key. */
  lemma ZeroWord24(key: seq<bv8>)
    requires key == [0x00, 0x00, 0x00, 0x00, 0x00, 0x00, 0x00, 0x00, 0x00, 0x00, 0x00, 0x00, 0x00, 0x00, 0x00, 0x00]
    ensures KeySchedule(key, 4, 44)[24] == [0xEC, 0x61, 0x4B, 0x85]
  {
    hide KeySchedule, Transform, SBox, XtimePower;
    var w := KeySchedule(key, 4, 44);
    ZeroWord23(key);
    ZeroWord20(key);
    SBoxRowF(w[23][0]);
    SBoxRow4(w[23][1]);
    SBoxRow9(w[23][2]);
    SBoxRow9(w[23][3]);
    XtimePowerValues();
    KeyScheduleWords(key, 4, 44, 24);
    TransformSpelled(w[23], 24, 4);
    XorWordSpelled(w[20], Transform(w[23], 24, 4));
  }

  /** Word 25 of the expansion of the zero key. */
  lemma ZeroWord25(key: seq<bv8>)
    requires key == [0x00, 0x00, 0x00, 0x00, 0x00, 0x00, 0x00, 0x00, 0x00, 0x00, 0x00, 0x00, 0x00, 0x00, 0x00, 0x00]
    ensures KeySchedule(key, 4, 44)[25] == [0x14, 0x25, 0x75, 0x8C]
  {
    hide KeySchedule, Transform;
    var w := KeySchedule(key, 4, 44);
    ZeroWord24(key);
    ZeroWord21(key);
    KeyScheduleWords(key, 4, 44, 25);
    TransformSpelled(w[24], 25, 4);
    XorWordSpelled(w[21], Transform(w[24], 25, 4));
  }

  /** Word 26 of the expansion of the zero key. */
  lemma ZeroWord26(key: seq<bv8>)
    requires key == [0x00, 0x00, 0x00, 0x00, 0x00, 0x00, 0x00, 0x00, 0x00, 0x00, 0x00, 0x00, 0x00, 0x00, 0x00, 0x00]
    ensures KeySchedule(key, 4, 44)[26] == [0x99, 0xFF, 0x09, 0x37]
  {
    hide KeySchedule, Transform;
    var w := KeySchedule(key, 4, 44);
    ZeroWord25(key);
    ZeroWord22(key);
    KeyScheduleWords(key, 4, 44, 26);
    TransformSpelled(w[25], 26, 4);
    XorWordSpelled(w[22], Transform(w[25], 26, 4));
  }

  /** Word 27 of the expansion of the zero key. */
  lemma ZeroWord27(key: seq<bv8>)
    requires key == [0x00, 0x00, 0x00, 0x00, 0x00, 0x00, 0x00, 0x00, 0x00, 0x00, 0x00, 0x00, 0x00, 0x00, 0x00, 0x00]
    ensures KeySchedule(key, 4, 44)[27] == [0x6A, 0xB4, 0x9B, 0xA7]
  {
    hide KeySchedule, Transform;
    var w := KeySchedule(key, 4, 44);
    ZeroWord26(key);
    ZeroWord23(key);
    KeyScheduleWords(key, 4, 44, 27);
    TransformSpelled(w[26], 27, 4);
    XorWordSpelled(w[23], Transform(w[26], 27, 4));
  }

  /** Word 28 of the expansion of the zero key. */
  lemma ZeroWord28(key: seq<bv8>)
    requires key == [0x00, 0x00, 0x00, 0x00, 0x00, 0x00, 0x00, 0x00, 0x00, 0x00, 0x00, 0x00, 0x00, 0x00, 0x00, 0x00]
    ensures KeySchedule(key, 4, 44)[28] == [0x21, 0x75, 0x17, 0x87]
  {
    hide KeySchedule, Transform, SBox, XtimePower;
    var w := KeySchedule(key, 4, 44);
    ZeroWord27(key);
    ZeroWord24(key);
    SBoxRow6(w[27][0]);
    SBoxRowB(w[27][1]);
    SBoxRow9(w[27][2]);
    SBoxRowA(w[27][3]);
    XtimePowerValues();
    KeyScheduleWords(key, 4, 44, 28);
    TransformSpelled(w[27], 28, 4);
    XorWordSpelled(w[24], Transform(w[27], 28, 4));
  }

  /** Word 29 of the expansion of the zero key. */
  lemma ZeroWord29(key: seq<bv8>)
    requires key == [0x00, 0x00, 0x00, 0x00, 0x00, 0x00, 0x00, 0x00, 0x00, 0x00, 0x00, 0x00, 0x00, 0x00, 0x00, 0x00]
    ensures KeySchedule(key, 4, 44)[29] == [0x35, 0x50, 0x62, 0x0B]
  {
    hide KeySchedule, Transform;
    var w := KeySchedule(key, 4, 44);
    ZeroWord28(key);
    ZeroWord25(key);
    KeyScheduleWords(key, 4, 44, 29);
    TransformSpelled(w[28], 29, 4);
    XorWordSpelled(w[25], Transform(w[28], 29, 4));
  }

  /** Word 30 of the expansion of the zero key. */
  lemma ZeroWord30(key: seq<bv8>)
    requires key == [0x00, 0x00, 0x00, 0x00, 0x00, 0x00, 0x00, 0x00, 0x00, 0x00, 0x00, 0x00, 0x00, 0x00, 0x00, 0x00]
    ensures KeySchedule(key, 4, 44)[30] == [0xAC, 0xAF, 0x6B, 0x3C]
  {
    hide KeySchedule, Transform;
    var w := KeySchedule(key, 4, 44);
    ZeroWord29(key);
    ZeroWord26(key);
    KeyScheduleWords(key, 4, 44, 30);
    TransformSpelled(w[29], 30, 4);
    XorWordSpelled(w[26], Transform(w[29], 30, 4));
  }

  /** Word 31 of the expansion of the zero key. */
  lemma ZeroWord31(key: seq<bv8>)
    requires key == [0x00, 0x00, 0x00, 0x00, 0x00, 0x00, 0x00, 0x00, 0x00, 0x00, 0x00, 0x00, 0x00, 0x00, 0x00, 0x00]
    ensures KeySchedule(key, 4, 44)[31] == [0xC6, 0x1B, 0xF0, 0x9B]
  {
    hide KeySchedule, Transform;
    var w := KeySchedule(key, 4, 44);
    ZeroWord30(key);
    ZeroWord27(key);
    KeyScheduleWords(key, 4, 44, 31);
    TransformSpelled(w[30], 31, 4);
    XorWordSpelled(w[27], Transform(w[30], 31, 4));
  }

  /** Word 32 of the expansion of the zero key. */
  lemma ZeroWord32(key: seq<bv8>)
    requires key == [0x00, 0x00, 0x00, 0x00, 0x00, 0x00, 0x00, 0x00, 0x00, 0x00, 0x00, 0x00, 0x00, 0x00, 0x00, 0x00]
    ensures KeySchedule(key, 4, 44)[32] == [0x0E, 0xF9, 0x03, 0x33]
  {
    hide KeySchedule, Transform, SBox, XtimePower;
    var w := KeySchedule(key, 4, 44);
    ZeroWord31(key);
    ZeroWord28(key);
    SBoxRowC(w[31][0]);
    SBoxRow1(w[31][1]);
    SBoxRowF(w[31][2]);
    SBoxRow9(w[31][3]);
    XtimePowerValues();
    KeyScheduleWords(key, 4, 44, 32);
    TransformSpelled(w[31], 32, 4);
    XorWordSpelled(w[28], Transform(w[31], 32, 4));
  }

  /** Word 33 of the expansion of the zero key. */
  lemma ZeroWord33(key: seq<bv8>)
    requires key == [0x00, 0x00, 0x00, 0x00, 0x00, 0x00, 0x00, 0x00, 0x00, 0x00, 0x00, 0x00, 0x00, 0x00, 0x00, 0x00]
    ensures KeySchedule(key, 4, 44)[33] == [0x3B, 0xA9, 0x61, 0x38]
  {
    hide KeySchedule, Transform;
    var w := KeySchedule(key, 4, 44);
    ZeroWord32(key);
    ZeroWord29(key);
    KeyScheduleWords(key, 4, 44, 33);
    TransformSpelled(w[32], 33, 4);
    XorWordSpelled(w[29], Transform(w[32], 33, 4));
  }

  /** Word 34 of the expansion of the zero key. */
  lemma ZeroWord34(key: seq<bv8>)
    requires key == [0x00, 0x00, 0x00, 0x00, 0x00, 0x00, 0x00, 0x00, 0x00, 0x00, 0x00, 0x00, 0x00, 0x00, 0x00, 0x00]
    ensures KeySchedule(key, 4, 44)[34] == [0x97, 0x06, 0x0A, 0x04]
  {
    hide KeySchedule, Transform;
    var w := KeySchedule(key, 4, 44);
    ZeroWord33(key);
    ZeroWord30(key);
    KeyScheduleWords(key, 4, 44, 34);
    TransformSpelled(w[33], 34, 4);
    XorWordSpelled(w[30], Transform(w[33], 34, 4));
  }

  /** Word 35 of the expansion of the zero key. */
  lemma ZeroWord35(key: seq<bv8>)
    requires key == [0x00, 0x00, 0x00, 0x00, 0x00, 0x00, 0x00, 0x00, 0x00, 0x00, 0x00, 0x00, 0x00, 0x00, 0x00, 0x00]
    ensures KeySchedule(key, 4, 44)[35] == [0x51, 0x1D, 0xFA, 0x9F]
  {
    hide KeySchedule, Transform;
    var w := KeySchedule(key, 4, 44);
    ZeroWord34(key);
    ZeroWord31(key);
    KeyScheduleWords(key, 4, 44, 35);
    TransformSpelled(w[34], 35, 4);
    XorWordSpelled(w[31], Transform(w[34], 35, 4));
  }

  /** Word 36 of the expansion of the zero key. */
  lemma ZeroWord36(key: seq<bv8>)
    requires key == [0x00, 0x00, 0x00, 0x00, 0x00, 0x00, 0x00, 0x00, 0x00, 0x00, 0x00, 0x00, 0x00, 0x00, 0x00, 0x00]
    ensures KeySchedule(key, 4, 44)[36] == [0xB1, 0xD4, 0xD8, 0xE2]
  {
    hide KeySchedule, Transform, SBox, XtimePower;
    var w := KeySchedule(key, 4, 44);
    ZeroWord35(key);
    ZeroWord32(key);
    SBoxRow5(w[35][0]);
    SBoxRow1(w[35][1]);
    SBoxRowF(w[35][2]);
    SBoxRow9(w[35][3]);
    XtimePowerValues();
    KeyScheduleWords(key, 4, 44, 36);
    TransformSpelled(w[35], 36, 4);
    XorWordSpelled(w[32], Transform(w[35], 36, 4));
  }

  /** Word 37 of the expansion of the zero key. */
  lemma ZeroWord37(key: seq<bv8>)
    requires key == [0x00, 0x00, 0x00, 0x00, 0x00, 0x00, 0x00, 0x00, 0x00, 0x00, 0x00, 0x00, 0x00, 0x00, 0x00, 0x00]
    ensures KeySchedule(key, 4, 44)[37] == [0x8A, 0x7D, 0xB9, 0xDA]
  {
    hide KeySchedule, Transform;
    var w := KeySchedule(key, 4, 44);
    ZeroWord36(key);
    ZeroWord33(key);
    KeyScheduleWords(key, 4, 44, 37);
    TransformSpelled(w[36], 37, 4);
    XorWordSpelled(w[33], Transform(w[36], 37, 4));
  }

  /** Word 38 of the expansion of the zero key. */
  lemma ZeroWord38(key: seq<bv8>)
    requires key == [0x00, 0x00, 0x00, 0x00, 0x00, 0x00, 0x00, 0x00, 0x00, 0x00, 0x00, 0x00, 0x00, 0x00, 0x00, 0x00]
    ensures KeySchedule(key, 4, 44)[38] == [0x1D, 0x7B, 0xB3, 0xDE]
  {
    hide KeySchedule, Transform;
    var w := KeySchedule(key, 4, 44);
    ZeroWord37(key);
    ZeroWord34(key);
    KeyScheduleWords(key, 4, 44, 38);
    TransformSpelled(w[37], 38, 4);
    XorWordSpelled(w[34], Transform(w[37], 38, 4));
  }

  /** Word 39 of the expansion of the zero key. */
  lemma ZeroWord39(key: seq<bv8>)
    requires key == [0x00, 0x00, 0x00, 0x00, 0x00, 0x00, 0x00, 0x00, 0x00, 0x00, 0x00, 0x00, 0x00, 0x00, 0x00, 0x00]
    ensures KeySchedule(key, 4, 44)[39] == [0x4C, 0x66, 0x49, 0x41]
  {
    hide KeySchedule, Transform;
    var w := KeySchedule(key, 4, 44);
    ZeroWord38(key);
    ZeroWord35(key);
    KeyScheduleWords(key, 4, 44, 39);
    TransformSpelled(w[38], 39, 4);
    XorWordSpelled(w[35], Transform(w[38], 39, 4));
  }

  /** Word 40 of the expansion of the zero key. */
  lemma ZeroWord40(key: seq<bv8>)
    requires key == [0x00, 0x00, 0x00, 0x00, 0x00, 0x00, 0x00, 0x00, 0x00, 0x00, 0x00, 0x00, 0x00, 0x00, 0x00, 0x00]
    ensures KeySchedule(key, 4, 44)[40] == [0xB4, 0xEF, 0x5B, 0xCB]
  {
    hide KeySchedule, Transform, SBox, XtimePower;
    var w := KeySchedule(key, 4, 44);
    ZeroWord39(key);
    ZeroWord36(key);
    SBoxRow4(w[39][0]);
    SBoxRow6(w[39][1]);
    SBoxRow4(w[39][2]);
    SBoxRow4(w[39][3]);
    XtimePowerValues();
    KeyScheduleWords(key, 4, 44, 40);
    TransformSpelled(w[39], 40, 4);
    XorWordSpelled(w[36], Transform(w[39], 40, 4));
  }

  /** Word 41 of the expansion of the zero key. */
  lemma ZeroWord41(key: seq<bv8>)
    requires key == [0x00, 0x00, 0x00, 0x00, 0x00, 0x00, 0x00, 0x00, 0x00, 0x00, 0x00, 0x00, 0x00, 0x00, 0x00, 0x00]
    ensures KeySchedule(key, 4, 44)[41] == [0x3E, 0x92, 0xE2, 0x11]
  {
    hide KeySchedule, Transform;
    var w := KeySchedule(key, 4, 44);
    ZeroWord40(key);
    ZeroWord37(key);
    KeyScheduleWords(key, 4, 44, 41);
    TransformSpelled(w[40], 41, 4);
    XorWordSpelled(w[37], Transform(w[40], 41, 4));
  }

  /** Word 42 of the expansion of the zero key. */
  lemma ZeroWord42(key: seq<bv8>)
    requires key == [0x00, 0x00, 0x00, 0x00, 0x00, 0x00, 0x00, 0x00, 0x00, 0x00, 0x00, 0x00, 0x00, 0x00, 0x00, 0x00]
    ensures KeySchedule(key, 4, 44)[42] == [0x23, 0xE9, 0x51, 0xCF]
  {
    hide KeySchedule, Transform;
    var w := KeySchedule(key, 4, 44);
    ZeroWord41(key);
    ZeroWord38(key);
    KeyScheduleWords(key, 4, 44, 42);
    TransformSpelled(w[41], 42, 4);
    XorWordSpelled(w[38], Transform(w[41], 42, 4));
  }

  /** Word 43 of the expansion of the zero key. */
  lemma ZeroWord43(key: seq<bv8>)
    requires key == [0x00, 0x00, 0x00, 0x00, 0x00, 0x00, 0x00, 0x00, 0x00, 0x00, 0x00, 0x00, 0x00, 0x00, 0x00, 0x00]
    ensures KeySchedule(key, 4, 44)[43] == [0x6F, 0x8F, 0x18, 0x8E]
  {
    hide KeySchedule, Transform;
    var w := KeySchedule(key, 4, 44);
    ZeroWord42(key);
    ZeroWord39(key);
    KeyScheduleWords(key, 4, 44, 43);
    TransformSpelled(w[42], 43, 4);
    XorWordSpelled(w[39], Transform(w[42], 43, 4));
  }

  /** Round key 0 of the expansion. */
  lemma ZeroRoundKey0(key: seq<bv8>)
    requires key == [0x00, 0x00, 0x00, 0x00, 0x00, 0x00, 0x00, 0x00, 0x00, 0x00, 0x00, 0x00, 0x00, 0x00, 0x00, 0x00]
    ensures RoundKeys(KeyExpansion(key, 4, 10), 10)[0] == [0x00, 0x00, 0x00, 0x00] + [0x00, 0x00, 0x00, 0x00] + [0x00, 0x00, 0x00, 0x00] + [0x00, 0x00, 0x00, 0x00]
  {
    hide KeySchedule;
    ZeroWord0(key);
    ZeroWord1(key);
    ZeroWord2(key);
    ZeroWord3(key);
  }

  /** Round key 1 of the expansion. */
  lemma ZeroRoundKey1(key: seq<bv8>)
    requires key == [0x00, 0x00, 0x00, 0x00, 0x00, 0x00, 0x00, 0x00, 0x00, 0x00, 0x00, 0x00, 0x00, 0x00, 0x00, 0x00]
    ensures RoundKeys(KeyExpansion(key, 4, 10), 10)[1] == [0x62, 0x63, 0x63, 0x63] + [0x62, 0x63, 0x63, 0x63] + [0x62, 0x63, 0x63, 0x63] + [0x62, 0x63, 0x63, 0x63]
  {
    hide KeySchedule;
    ZeroWord4(key);
    ZeroWord5(key);
    ZeroWord6(key);
    ZeroWord7(key);
  }

  /** Round key 2 of the expansion. */
  lemma ZeroRoundKey2(key: seq<bv8>)
    requires key == [0x00, 0x00, 0x00, 0x00, 0x00, 0x00, 0x00, 0x00, 0x00, 0x00, 0x00, 0x00, 0x00, 0x00, 0x00, 0x00]
    ensures RoundKeys(KeyExpansion(key, 4, 10), 10)[2] == [0x9B, 0x98, 0x98, 0xC9] + [0xF9, 0xFB, 0xFB, 0xAA] + [0x9B, 0x98, 0x98, 0xC9] + [0xF9, 0xFB, 0xFB, 0xAA]
  {
    hide KeySchedule;
    ZeroWord8(key);
    ZeroWord9(key);
    ZeroWord10(key);
    ZeroWord11(key);
  }

  /** Round key 3 of the expansion. */
  lemma ZeroRoundKey3(key: seq<bv8>)
    requires key == [0x00, 0x00, 0x00, 0x00, 0x00, 0x00, 0x00, 0x00, 0x00, 0x00, 0x00, 0x00, 0x00, 0x00, 0x00, 0x00]
    ensures RoundKeys(KeyExpansion(key, 4, 10), 10)[3] == [0x90, 0x97, 0x34, 0x50] + [0x69, 0x6C, 0xCF, 0xFA] + [0xF2, 0xF4, 0x57, 0x33] + [0x0B, 0x0F, 0xAC, 0x99]
  {
    hide KeySchedule;
    ZeroWord12(key);
    ZeroWord13(key);
    ZeroWord14(key);
    ZeroWord15(key);
  }

  /** Round key 4 of the expansion. */
  lemma ZeroRoundKey4(key: seq<bv8>)
    requires key == [0x00, 0x00, 0x00, 0x00, 0x00, 0x00, 0x00, 0x00, 0x00, 0x00, 0x00, 0x00, 0x00, 0x00, 0x00, 0x00]
    ensures RoundKeys(KeyExpansion(key, 4, 10), 10)[4] == [0xEE, 0x06, 0xDA, 0x7B] + [0x87, 0x6A, 0x15, 0x81] + [0x75, 0x9E, 0x42, 0xB2] + [0x7E, 0x91, 0xEE, 0x2B]
  {
    hide KeySchedule;
    ZeroWord16(key);
    ZeroWord17(key);
    ZeroWord18(key);
    ZeroWord19(key);
  }

  /** Round key 5 of the expansion. */
  lemma ZeroRoundKey5(key: seq<bv8>)
    requires key == [0x00, 0x00, 0x00, 0x00, 0x00, 0x00, 0x00, 0x00, 0x00, 0x00, 0x00, 0x00, 0x00, 0x00, 0x00, 0x00]
    ensures RoundKeys(KeyExpansion(key, 4, 10), 10)[5] == [0x7F, 0x2E, 0x2B, 0x88] + [0xF8, 0x44, 0x3E, 0x09] + [0x8D, 0xDA, 0x7C, 0xBB] + [0xF3, 0x4B, 0x92, 0x90]
  {
    hide KeySchedule;
    ZeroWord20(key);
    ZeroWord21(key);
    ZeroWord22(key);
    ZeroWord23(key);
  }

  /** Round key 6 of the expansion. */
  lemma ZeroRoundKey6(key: seq<bv8>)
    requires key == [0x00, 0x00, 0x00, 0x00, 0x00, 0x00, 0x00, 0x00, 0x00, 0x00, 0x00, 0x00, 0x00, 0x00, 0x00, 0x00]
    ensures RoundKeys(KeyExpansion(key, 4, 10), 10)[6] == [0xEC, 0x61, 0x4B, 0x85] + [0x14, 0x25, 0x75, 0x8C] + [0x99, 0xFF, 0x09, 0x37] + [0x6A, 0xB4, 0x9B, 0xA7]
  {
    hide KeySchedule;
    ZeroWord24(key);
    ZeroWord25(key);
    ZeroWord26(key);
    ZeroWord27(key);
  }

  /** Round key 7 of the expansion. */
  lemma ZeroRoundKey7(key: seq<bv8>)
    requires key == [0x00, 0x00, 0x00, 0x00, 0x00, 0x00, 0x00, 0x00, 0x00, 0x00, 0x00, 0x00, 0x00, 0x00, 0x00, 0x00]
    ensures RoundKeys(KeyExpansion(key, 4, 10), 10)[7] == [0x21, 0x75, 0x17, 0x87] + [0x35, 0x50, 0x62, 0x0B] + [0xAC, 0xAF, 0x6B, 0x3C] + [0xC6, 0x1B, 0xF0, 0x9B]
  {
    hide KeySchedule;
    ZeroWord28(key);
    ZeroWord29(key);
    ZeroWord30(key);
    ZeroWord31(key);
  }

  /** Round key 8 of the expansion. */
  lemma ZeroRoundKey8(key: seq<bv8>)
    requires key == [0x00, 0x00, 0x00, 0x00, 0x00, 0x00, 0x00, 0x00, 0x00, 0x00, 0x00, 0x00, 0x00, 0x00, 0x00, 0x00]
    ensures RoundKeys(KeyExpansion(key, 4, 10), 10)[8] == [0x0E, 0xF9, 0x03, 0x33] + [0x3B, 0xA9, 0x61, 0x38] + [0x97, 0x06, 0x0A, 0x04] + [0x51, 0x1D, 0xFA, 0x9F]
  {
    hide KeySchedule;
    ZeroWord32(key);
    ZeroWord33(key);
    ZeroWord34(key);
    ZeroWord35(key);
  }

  /** Round key 9 of the expansion. */
  lemma ZeroRoundKey9(key: seq<bv8>)
    requires key == [0x00, 0x00, 0x00, 0x00, 0x00, 0x00, 0x00, 0x00, 0x00, 0x00, 0x00, 0x00, 0x00, 0x00, 0x00, 0x00]
    ensures RoundKeys(KeyExpansion(key, 4, 10), 10)[9] == [0xB1, 0xD4, 0xD8, 0xE2] + [0x8A, 0x7D, 0xB9, 0xDA] + [0x1D, 0x7B, 0xB3, 0xDE] + [0x4C, 0x66, 0x49, 0x41]
  {
    hide KeySchedule;
    ZeroWord36(key);
    ZeroWord37(key);
    ZeroWord38(key);
    ZeroWord39(key);
  }

  /** Round key 10 of the expansion. */
  lemma ZeroRoundKey10(key: seq<bv8>)
    requires key == [0x00, 0x00, 0x00, 0x00, 0x00, 0x00, 0x00, 0x00, 0x00, 0x00, 0x00, 0x00, 0x00, 0x00, 0x00, 0x00]
    ensures RoundKeys(KeyExpansion(key, 4, 10), 10)[10] == [0xB4, 0xEF, 0x5B, 0xCB] + [0x3E, 0x92, 0xE2, 0x11] + [0x23, 0xE9, 0x51, 0xCF] + [0x6F, 0x8F, 0x18, 0x8E]
  {
    hide KeySchedule;
    ZeroWord40(key);
    ZeroWord41(key);
    ZeroWord42(key);
    ZeroWord43(key);
  }

  /** The initial AddRoundKey of figure 5. */
  lemma ZeroStart(input: seq<bv8>, k: seq<bv8>)
    requires input == [0x00, 0x00, 0x00, 0x00] + [0x00, 0x00, 0x00, 0x00] + [0x00, 0x00, 0x00, 0x00] + [0x00, 0x00, 0x00, 0x00]
    requires k == [0x00, 0x00, 0x00, 0x00] + [0x00, 0x00, 0x00, 0x00] + [0x00, 0x00, 0x00, 0x00] + [0x00, 0x00, 0x00, 0x00]
    ensures AddRoundKey(input, k) == [0x00, 0x00, 0x00, 0x00] + [0x00, 0x00, 0x00, 0x00] + [0x00, 0x00, 0x00, 0x00] + [0x00, 0x00, 0x00, 0x00]
  {
    AddRoundKeySpelled(input, [0x00, 0x00, 0x00, 0x00], [0x00, 0x00, 0x00, 0x00], [0x00, 0x00, 0x00, 0x00], [0x00, 0x00, 0x00, 0x00]);
  }

  /** The S-box entries of column 0 of the state that enters round 1. */
  lemma ZeroSub1Col0(t: seq<bv8>)
    requires t == [0x00, 0x00, 0x00, 0x00]
    ensures SBox(t[0]) == 0x63 && SBox(t[1]) == 0x63 && SBox(t[2]) == 0x63 && SBox(t[3]) == 0x63
  {
    hide SBox;
    SBoxRow0(t[0]);
    SBoxRow0(t[1]);
    SBoxRow0(t[2]);
    SBoxRow0(t[3]);
  }

  /** The S-box entries of column 1 of the state that enters round 1. */
  lemma ZeroSub1Col1(t: seq<bv8>)
    requires t == [0x00, 0x00, 0x00, 0x00]
    ensures SBox(t[0]) == 0x63 && SBox(t[1]) == 0x63 && SBox(t[2]) == 0x63 && SBox(t[3]) == 0x63
  {
    hide SBox;
    SBoxRow0(t[0]);
    SBoxRow0(t[1]);
    SBoxRow0(t[2]);
    SBoxRow0(t[3]);
  }

  /** The S-box entries of column 2 of the state that enters round 1. */
  lemma ZeroSub1Col2(t: seq<bv8>)
    requires t == [0x00, 0x00, 0x00, 0x00]
    ensures SBox(t[0]) == 0x63 && SBox(t[1]) == 0x63 && SBox(t[2]) == 0x63 && SBox(t[3]) == 0x63
  {
    hide SBox;
    SBoxRow0(t[0]);
    SBoxRow0(t[1]);
    SBoxRow0(t[2]);
    SBoxRow0(t[3]);
  }

  /** The S-box entries of column 3 of the state that enters round 1. */
  lemma ZeroSub1Col3(t: seq<bv8>)
    requires t == [0x00, 0x00, 0x00, 0x00]
    ensures SBox(t[0]) == 0x63 && SBox(t[1]) == 0x63 && SBox(t[2]) == 0x63 && SBox(t[3]) == 0x63
  {
    hide SBox;
    SBoxRow0(t[0]);
    SBoxRow0(t[1]);
    SBoxRow0(t[2]);
    SBoxRow0(t[3]);
  }

  /** SubBytes in round 1. */
  lemma ZeroSub1(s: seq<bv8>)
    requires s == [0x00, 0x00, 0x00, 0x00] + [0x00, 0x00, 0x00, 0x00] + [0x00, 0x00, 0x00, 0x00] + [0x00, 0x00, 0x00, 0x00]
    ensures SubBytes(s) == [0x63, 0x63, 0x63, 0x63] + [0x63, 0x63, 0x63, 0x63] + [0x63, 0x63, 0x63, 0x63] + [0x63, 0x63, 0x63, 0x63]
  {
    hide SBox;
    SubBytesSpelled(s);
    ZeroSub1Col0(s[0..4]);
    ZeroSub1Col1(s[4..8]);
    ZeroSub1Col2(s[8..12]);
    ZeroSub1Col3(s[12..16]);
  }

  /** MixColumns in round 1. */
  lemma ZeroMix1(s: seq<bv8>)
    requires s == [0x63, 0x63, 0x63, 0x63] + [0x63, 0x63, 0x63, 0x63] + [0x63, 0x63, 0x63, 0x63] + [0x63, 0x63, 0x63, 0x63]
    ensures MixColumns(s) == [0x63, 0x63, 0x63, 0x63] + [0x63, 0x63, 0x63, 0x63] + [0x63, 0x63, 0x63, 0x63] + [0x63, 0x63, 0x63, 0x63]
  {
    hide MixColumns;
    MixColumnsSpelled(s);
  }

  /** Round 1 of figure 5. */
  lemma ZeroRound1(s: seq<bv8>, k: seq<bv8>)
    requires s == [0x00, 0x00, 0x00, 0x00] + [0x00, 0x00, 0x00, 0x00] + [0x00, 0x00, 0x00, 0x00] + [0x00, 0x00, 0x00, 0x00]
    requires k == [0x62, 0x63, 0x63, 0x63] + [0x62, 0x63, 0x63, 0x63] + [0x62, 0x63, 0x63, 0x63] + [0x62, 0x63, 0x63, 0x63]
    ensures AddRoundKey(MixColumns(ShiftRows(SubBytes(s))), k) == [0x01, 0x00, 0x00, 0x00] + [0x01, 0x00, 0x00, 0x00] + [0x01, 0x00, 0x00, 0x00] + [0x01, 0x00, 0x00, 0x00]
  {
    hide SubBytes, ShiftRows, MixColumns, AddRoundKey;
    ZeroSub1(s);
    ShiftRowsBytes(SubBytes(s));
    ZeroMix1(ShiftRows(SubBytes(s)));
    AddRoundKeySpelled(MixColumns(ShiftRows(SubBytes(s))), [0x62, 0x63, 0x63, 0x63], [0x62, 0x63, 0x63, 0x63], [0x62, 0x63, 0x63, 0x63], [0x62, 0x63, 0x63, 0x63]);
  }

  /** The S-box entries of column 0 of the state that enters round 2. */
  lemma ZeroSub2Col0(t: seq<bv8>)
    requires t == [0x01, 0x00, 0x00, 0x00]
    ensures SBox(t[0]) == 0x7C && SBox(t[1]) == 0x63 && SBox(t[2]) == 0x63 && SBox(t[3]) == 0x63
  {
    hide SBox;
    SBoxRow0(t[0]);
    SBoxRow0(t[1]);
    SBoxRow0(t[2]);
    SBoxRow0(t[3]);
  }

  /** The S-box entries of column 1 of the state that enters round 2. */
  lemma ZeroSub2Col1(t: seq<bv8>)
    requires t == [0x01, 0x00, 0x00, 0x00]
    ensures SBox(t[0]) == 0x7C && SBox(t[1]) == 0x63 && SBox(t[2]) == 0x63 && SBox(t[3]) == 0x63
  {
    hide SBox;
    SBoxRow0(t[0]);
    SBoxRow0(t[1]);
    SBoxRow0(t[2]);
    SBoxRow0(t[3]);
  }

  /** The S-box entries of column 2 of the state that enters round 2. */
  lemma ZeroSub2Col2(t: seq<bv8>)
    requires t == [0x01, 0x00, 0x00, 0x00]
    ensures SBox(t[0]) == 0x7C && SBox(t[1]) == 0x63 && SBox(t[2]) == 0x63 && SBox(t[3]) == 0x63
  {
    hide SBox;
    SBoxRow0(t[0]);
    SBoxRow0(t[1]);
    SBoxRow0(t[2]);
    SBoxRow0(t[3]);
  }

  /** The S-box entries of column 3 of the state that enters round 2. */
  lemma ZeroSub2Col3(t: seq<bv8>)
    requires t == [0x01, 0x00, 0x00, 0x00]
    ensures SBox(t[0]) == 0x7C && SBox(t[1]) == 0x63 && SBox(t[2]) == 0x63 && SBox(t[3]) == 0x63
  {
    hide SBox;
    SBoxRow0(t[0]);
    SBoxRow0(t[1]);
    SBoxRow0(t[2]);
    SBoxRow0(t[3]);
  }

  /** SubBytes in round 2. */
  lemma ZeroSub2(s: seq<bv8>)
    requires s == [0x01, 0x00, 0x00, 0x00] + [0x01, 0x00, 0x00, 0x00] + [0x01, 0x00, 0x00, 0x00] + [0x01, 0x00, 0x00, 0x00]
    ensures SubBytes(s) == [0x7C, 0x63, 0x63, 0x63] + [0x7C, 0x63, 0x63, 0x63] + [0x7C, 0x63, 0x63, 0x63] + [0x7C, 0x63, 0x63, 0x63]
  {
    hide SBox;
    SubBytesSpelled(s);
    ZeroSub2Col0(s[0..4]);
    ZeroSub2Col1(s[4..8]);
    ZeroSub2Col2(s[8..12]);
    ZeroSub2Col3(s[12..16]);
  }

  /** MixColumns in round 2. */
  lemma ZeroMix2(s: seq<bv8>)
    requires s == [0x7C, 0x63, 0x63, 0x63] + [0x7C, 0x63, 0x63, 0x63] + [0x7C, 0x63, 0x63, 0x63] + [0x7C, 0x63, 0x63, 0x63]
    ensures MixColumns(s) == [0x5D, 0x7C, 0x7C, 0x42] + [0x5D, 0x7C, 0x7C, 0x42] + [0x5D, 0x7C, 0x7C, 0x42] + [0x5D, 0x7C, 0x7C, 0x42]
  {
    hide MixColumns;
    MixColumnsSpelled(s);
  }

  /** Round 2 of figure 5. */
  lemma ZeroRound2(s: seq<bv8>, k: seq<bv8>)
    requires s == [0x01, 0x00, 0x00, 0x00] + [0x01, 0x00, 0x00, 0x00] + [0x01, 0x00, 0x00, 0x00] + [0x01, 0x00, 0x00, 0x00]
    requires k == [0x9B, 0x98, 0x98, 0xC9] + [0xF9, 0xFB, 0xFB, 0xAA] + [0x9B, 0x98, 0x98, 0xC9] + [0xF9, 0xFB, 0xFB, 0xAA]
    ensures AddRoundKey(MixColumns(ShiftRows(SubBytes(s))), k) == [0xC6, 0xE4, 0xE4, 0x8B] + [0xA4, 0x87, 0x87, 0xE8] + [0xC6, 0xE4, 0xE4, 0x8B] + [0xA4, 0x87, 0x87, 0xE8]
  {
    hide SubBytes, ShiftRows, MixColumns, AddRoundKey;
    ZeroSub2(s);
    ShiftRowsBytes(SubBytes(s));
    ZeroMix2(ShiftRows(SubBytes(s)));
    AddRoundKeySpelled(MixColumns(ShiftRows(SubBytes(s))), [0x9B, 0x98, 0x98, 0xC9], [0xF9, 0xFB, 0xFB, 0xAA], [0x9B, 0x98, 0x98, 0xC9], [0xF9, 0xFB, 0xFB, 0xAA]);
  }

  /** The S-box entries of column 0 of the state that enters round 3. */
  lemma ZeroSub3Col0(t: seq<bv8>)
    requires t == [0xC6, 0xE4, 0xE4, 0x8B]
    ensures SBox(t[0]) == 0xB4 && SBox(t[1]) == 0x69 && SBox(t[2]) == 0x69 && SBox(t[3]) == 0x3D
  {
    hide SBox;
    SBoxRowC(t[0]);
    SBoxRowE(t[1]);
    SBoxRowE(t[2]);
    SBoxRow8(t[3]);
  }

  /** The S-box entries of column 1 of the state that enters round 3. */
  lemma ZeroSub3Col1(t: seq<bv8>)
    requires t == [0xA4, 0x87, 0x87, 0xE8]
    ensures SBox(t[0]) == 0x49 && SBox(t[1]) == 0x17 && SBox(t[2]) == 0x17 && SBox(t[3]) == 0x9B
  {
    hide SBox;
    SBoxRowA(t[0]);
    SBoxRow8(t[1]);
    SBoxRow8(t[2]);
    SBoxRowE(t[3]);
  }

  /** The S-box entries of column 2 of the state that enters round 3. */
  lemma ZeroSub3Col2(t: seq<bv8>)
    requires t == [0xC6, 0xE4, 0xE4, 0x8B]
    ensures SBox(t[0]) == 0xB4 && SBox(t[1]) == 0x69 && SBox(t[2]) == 0x69 && SBox(t[3]) == 0x3D
  {
    hide SBox;
    SBoxRowC(t[0]);
    SBoxRowE(t[1]);
    SBoxRowE(t[2]);
    SBoxRow8(t[3]);
  }

  /** The S-box entries of column 3 of the state that enters round 3. */
  lemma ZeroSub3Col3(t: seq<bv8>)
    requires t == [0xA4, 0x87, 0x87, 0xE8]
    ensures SBox(t[0]) == 0x49 && SBox(t[1]) == 0x17 && SBox(t[2]) == 0x17 && SBox(t[3]) == 0x9B
  {
    hide SBox;
    SBoxRowA(t[0]);
    SBoxRow8(t[1]);
    SBoxRow8(t[2]);
    SBoxRowE(t[3]);
  }

  /** SubBytes in round 3. */
  lemma ZeroSub3(s: seq<bv8>)
    requires s == [0xC6, 0xE4, 0xE4, 0x8B] + [0xA4, 0x87, 0x87, 0xE8] + [0xC6, 0xE4, 0xE4, 0x8B] + [0xA4, 0x87, 0x87, 0xE8]
    ensures SubBytes(s) == [0xB4, 0x69, 0x69, 0x3D] + [0x49, 0x17, 0x17, 0x9B] + [0xB4, 0x69, 0x69, 0x3D] + [0x49, 0x17, 0x17, 0x9B]
  {
    hide SBox;
    SubBytesSpelled(s);
    ZeroSub3Col0(s[0..4]);
    ZeroSub3Col1(s[4..8]);
    ZeroSub3Col2(s[8..12]);
    ZeroSub3Col3(s[12..16]);
  }

  /** MixColumns in round 3. */
  lemma ZeroMix3(s: seq<bv8>)
    requires s == [0xB4, 0x17, 0x69, 0x9B] + [0x49, 0x69, 0x17, 0x3D] + [0xB4, 0x17, 0x69, 0x9B] + [0x49, 0x69, 0x17, 0x3D]
    ensures MixColumns(s) == [0xB8, 0xBA, 0xC7, 0x94] + [0x03, 0x9F, 0x49, 0xDF] + [0xB8, 0xBA, 0xC7, 0x94] + [0x03, 0x9F, 0x49, 0xDF]
  {
    hide MixColumns;
    MixColumnsSpelled(s);
  }

  /** Round 3 of figure 5. */
  lemma ZeroRound3(s: seq<bv8>, k: seq<bv8>)
    requires s == [0xC6, 0xE4, 0xE4, 0x8B] + [0xA4, 0x87, 0x87, 0xE8] + [0xC6, 0xE4, 0xE4, 0x8B] + [0xA4, 0x87, 0x87, 0xE8]
    requires k == [0x90, 0x97, 0x34, 0x50] + [0x69, 0x6C, 0xCF, 0xFA] + [0xF2, 0xF4, 0x57, 0x33] + [0x0B, 0x0F, 0xAC, 0x99]
    ensures AddRoundKey(MixColumns(ShiftRows(SubBytes(s))), k) == [0x28, 0x2D, 0xF3, 0xC4] + [0x6A, 0xF3, 0x86, 0x25] + [0x4A, 0x4E, 0x90, 0xA7] + [0x08, 0x90, 0xE5, 0x46]
  {
    hide SubBytes, ShiftRows, MixColumns, AddRoundKey;
    ZeroSub3(s);
    ShiftRowsBytes(SubBytes(s));
    ZeroMix3(ShiftRows(SubBytes(s)));
    AddRoundKeySpelled(MixColumns(ShiftRows(SubBytes(s))), [0x90, 0x97, 0x34, 0x50], [0x69, 0x6C, 0xCF, 0xFA], [0xF2, 0xF4, 0x57, 0x33], [0x0B, 0x0F, 0xAC, 0x99]);
  }

  /** The S-box entries of column 0 of the state that enters round 4. */
  lemma ZeroSub4Col0(t: seq<bv8>)
    requires t == [0x28, 0x2D, 0xF3, 0xC4]
    ensures SBox(t[0]) == 0x34 && SBox(t[1]) == 0xD8 && SBox(t[2]) == 0x0D && SBox(t[3]) == 0x1C
  {
    hide SBox;
    SBoxRow2(t[0]);
    SBoxRow2(t[1]);
    SBoxRowF(t[2]);
    SBoxRowC(t[3]);
  }

  /** The S-box entries of column 1 of the state that enters round 4. */
  lemma ZeroSub4Col1(t: seq<bv8>)
    requires t == [0x6A, 0xF3, 0x86, 0x25]
    ensures SBox(t[0]) == 0x02 && SBox(t[1]) == 0x0D && SBox(t[2]) == 0x44 && SBox(t[3]) == 0x3F
  {
    hide SBox;
    SBoxRow6(t[0]);
    SBoxRowF(t[1]);
    SBoxRow8(t[2]);
    SBoxRow2(t[3]);
  }

  /** The S-box entries of column 2 of the state that enters round 4. */
  lemma ZeroSub4Col2(t: seq<bv8>)
    requires t == [0x4A, 0x4E, 0x90, 0xA7]
    ensures SBox(t[0]) == 0xD6 && SBox(t[1]) == 0x2F && SBox(t[2]) == 0x60 && SBox(t[3]) == 0x5C
  {
    hide SBox;
    SBoxRow4(t[0]);
    SBoxRow4(t[1]);
    SBoxRow9(t[2]);
    SBoxRowA(t[3]);
  }

  /** The S-box entries of column 3 of the state that enters round 4. */
  lemma ZeroSub4Col3(t: seq<bv8>)
    requires t == [0x08, 0x90, 0xE5, 0x46]
    ensures SBox(t[0]) == 0x30 && SBox(t[1]) == 0x60 && SBox(t[2]) == 0xD9 && SBox(t[3]) == 0x5A
  {
    hide SBox;
    SBoxRow0(t[0]);
    SBoxRow9(t[1]);
    SBoxRowE(t[2]);
    SBoxRow4(t[3]);
  }

  /** SubBytes in round 4. */
  lemma ZeroSub4(s: seq<bv8>)
    requires s == [0x28, 0x2D, 0xF3, 0xC4] + [0x6A, 0xF3, 0x86, 0x25] + [0x4A, 0x4E, 0x90, 0xA7] + [0x08, 0x90, 0xE5, 0x46]
    ensures SubBytes(s) == [0x34, 0xD8, 0x0D, 0x1C] + [0x02, 0x0D, 0x44, 0x3F] + [0xD6, 0x2F, 0x60, 0x5C] + [0x30, 0x60, 0xD9, 0x5A]
  {
    hide SBox;
    SubBytesSpelled(s);
    ZeroSub4Col0(s[0..4]);
    ZeroSub4Col1(s[4..8]);
    ZeroSub4Col2(s[8..12]);
    ZeroSub4Col3(s[12..16]);
  }

  /** MixColumns in round 4. */
  lemma ZeroMix4(s: seq<bv8>)
    requires s == [0x34, 0x0D, 0x60, 0x5A] + [0x02, 0x2F, 0xD9, 0x1C] + [0xD6, 0x60, 0x0D, 0x3F] + [0x30, 0xD8, 0x44, 0x5C]
    ensures MixColumns(s) == [0x45, 0xD4, 0x17, 0x85] + [0xB0, 0x30, 0xA0, 0xC8] + [0x25, 0x3E, 0xED, 0x72] + [0x0B, 0x0B, 0x84, 0x74]
  {
    hide MixColumns;
    MixColumnsSpelled(s);
  }

  /** Round 4 of figure 5. */
  lemma ZeroRound4(s: seq<bv8>, k: seq<bv8>)
    requires s == [0x28, 0x2D, 0xF3, 0xC4] + [0x6A, 0xF3, 0x86, 0x25] + [0x4A, 0x4E, 0x90, 0xA7] + [0x08, 0x90, 0xE5, 0x46]
    requires k == [0xEE, 0x06, 0xDA, 0x7B] + [0x87, 0x6A, 0x15, 0x81] + [0x75, 0x9E, 0x42, 0xB2] + [0x7E, 0x91, 0xEE, 0x2B]
    ensures AddRoundKey(MixColumns(ShiftRows(SubBytes(s))), k) == [0xAB, 0xD2, 0xCD, 0xFE] + [0x37, 0x5A, 0xB5, 0x49] + [0x50, 0xA0, 0xAF, 0xC0] + [0x75, 0x9A, 0x6A, 0x5F]
  {
    hide SubBytes, ShiftRows, MixColumns, AddRoundKey;
    ZeroSub4(s);
    ShiftRowsBytes(SubBytes(s));
    ZeroMix4(ShiftRows(SubBytes(s)));
    AddRoundKeySpelled(MixColumns(ShiftRows(SubBytes(s))), [0xEE, 0x06, 0xDA, 0x7B], [0x87, 0x6A, 0x15, 0x81], [0x75, 0x9E, 0x42, 0xB2], [0x7E, 0x91, 0xEE, 0x2B]);
  }

  /** The S-box entries of column 0 of the state that enters round 5. */
  lemma ZeroSub5Col0(t: seq<bv8>)
    requires t == [0xAB, 0xD2, 0xCD, 0xFE]
    ensures SBox(t[0]) == 0x62 && SBox(t[1]) == 0xB5 && SBox(t[2]) == 0xBD && SBox(t[3]) == 0xBB
  {
    hide SBox;
    SBoxRowA(t[0]);
    SBoxRowD(t[1]);
    SBoxRowC(t[2]);
    SBoxRowF(t[3]);
  }

  /** The S-box entries of column 1 of the state that enters round 5. */
  lemma ZeroSub5Col1(t: seq<bv8>)
    requires t == [0x37, 0x5A, 0xB5, 0x49]
    ensures SBox(t[0]) == 0x9A && SBox(t[1]) == 0xBE && SBox(t[2]) == 0xD5 && SBox(t[3]) == 0x3B
  {
    hide SBox;
    SBoxRow3(t[0]);
    SBoxRow5(t[1]);
    SBoxRowB(t[2]);
    SBoxRow4(t[3]);
  }

  /** The S-box entries of column 2 of the state that enters round 5. */
  lemma ZeroSub5Col2(t: seq<bv8>)
    requires t == [0x50, 0xA0, 0xAF, 0xC0]
    ensures SBox(t[0]) == 0x53 && SBox(t[1]) == 0xE0 && SBox(t[2]) == 0x79 && SBox(t[3]) == 0xBA
  {
    hide SBox;
    SBoxRow5(t[0]);
    SBoxRowA(t[1]);
    SBoxRowA(t[2]);
    SBoxRowC(t[3]);
  }

  /** The S-box entries of column 3 of the state that enters round 5. */
  lemma ZeroSub5Col3(t: seq<bv8>)
    requires t == [0x75, 0x9A, 0x6A, 0x5F]
    ensures SBox(t[0]) == 0x9D && SBox(t[1]) == 0xB8 && SBox(t[2]) == 0x02 && SBox(t[3]) == 0xCF
  {
    hide SBox;
    SBoxRow7(t[0]);
    SBoxRow9(t[1]);
    SBoxRow6(t[2]);
    SBoxRow5(t[3]);
  }

  /** SubBytes in round 5. */
  lemma ZeroSub5(s: seq<bv8>)
    requires s == [0xAB, 0xD2, 0xCD, 0xFE] + [0x37, 0x5A, 0xB5, 0x49] + [0x50, 0xA0, 0xAF, 0xC0] + [0x75, 0x9A, 0x6A, 0x5F]
    ensures SubBytes(s) == [0x62, 0xB5, 0xBD, 0xBB] + [0x9A, 0xBE, 0xD5, 0x3B] + [0x53, 0xE0, 0x79, 0xBA] + [0x9D, 0xB8, 0x02, 0xCF]
  {
    hide SBox;
    SubBytesSpelled(s);
    ZeroSub5Col0(s[0..4]);
    ZeroSub5Col1(s[4..8]);
    ZeroSub5Col2(s[8..12]);
    ZeroSub5Col3(s[12..16]);
  }

  /** MixColumns in round 5. */
  lemma ZeroMix5(s: seq<bv8>)
    requires s == [0x62, 0xBE, 0x79, 0xCF] + [0x9A, 0xE0, 0x02, 0xBB] + [0x53, 0xB8, 0xBD, 0x3B] + [0x9D, 0xB5, 0xD5, 0xBA]
    ensures MixColumns(s) == [0xAB, 0x41, 0x64, 0xE4] + [0xAD, 0xFC, 0xA8, 0x3A] + [0xF3, 0xDF, 0xC7, 0x86] + [0x8A, 0x32, 0x4C, 0xB3]
  {
    hide MixColumns;
    MixColumnsSpelled(s);
  }

  /** Round 5 of figure 5. */
  lemma ZeroRound5(s: seq<bv8>, k: seq<bv8>)
    requires s == [0xAB, 0xD2, 0xCD, 0xFE] + [0x37, 0x5A, 0xB5, 0x49] + [0x50, 0xA0, 0xAF, 0xC0] + [0x75, 0x9A, 0x6A, 0x5F]
    requires k == [0x7F, 0x2E, 0x2B, 0x88] + [0xF8, 0x44, 0x3E, 0x09] + [0x8D, 0xDA, 0x7C, 0xBB] + [0xF3, 0x4B, 0x92, 0x90]
    ensures AddRoundKey(MixColumns(ShiftRows(SubBytes(s))), k) == [0xD4, 0x6F, 0x4F, 0x6C] + [0x55, 0xB8, 0x96, 0x33] + [0x7E, 0x05, 0xBB, 0x3D] + [0x79, 0x79, 0xDE, 0x23]
  {
    hide SubBytes, ShiftRows, MixColumns, AddRoundKey;
    ZeroSub5(s);
    ShiftRowsBytes(SubBytes(s));
    ZeroMix5(ShiftRows(SubBytes(s)));
    AddRoundKeySpelled(MixColumns(ShiftRows(SubBytes(s))), [0x7F, 0x2E, 0x2B, 0x88], [0xF8, 0x44, 0x3E, 0x09], [0x8D, 0xDA, 0x7C, 0xBB], [0xF3, 0x4B, 0x92, 0x90]);
  }

  /** The S-box entries of column 0 of the state that enters round 6. */
  lemma ZeroSub6Col0(t: seq<bv8>)
    requires t == [0xD4, 0x6F, 0x4F, 0x6C]
    ensures SBox(t[0]) == 0x48 && SBox(t[1]) == 0xA8 && SBox(t[2]) == 0x84 && SBox(t[3]) == 0x50
  {
    hide SBox;
    SBoxRowD(t[0]);
    SBoxRow6(t[1]);
    SBoxRow4(t[2]);
    SBoxRow6(t[3]);
  }

  /** The S-box entries of column 1 of the state that enters round 6. */
  lemma ZeroSub6Col1(t: seq<bv8>)
    requires t == [0x55, 0xB8, 0x96, 0x33]
    ensures SBox(t[0]) == 0xFC && SBox(t[1]) == 0x6C && SBox(t[2]) == 0x90 && SBox(t[3]) == 0xC3
  {
    hide SBox;
    SBoxRow5(t[0]);
    SBoxRowB(t[1]);
    SBoxRow9(t[2]);
    SBoxRow3(t[3]);
  }

  /** The S-box entries of column 2 of the state that enters round 6. */
  lemma ZeroSub6Col2(t: seq<bv8>)
    requires t == [0x7E, 0x05, 0xBB, 0x3D]
    ensures SBox(t[0]) == 0xF3 && SBox(t[1]) == 0x6B && SBox(t[2]) == 0xEA && SBox(t[3]) == 0x27
  {
    hide SBox;
    SBoxRow7(t[0]);
    SBoxRow0(t[1]);
    SBoxRowB(t[2]);
    SBoxRow3(t[3]);
  }

  /** The S-box entries of column 3 of the state that enters round 6. */
  lemma ZeroSub6Col3(t: seq<bv8>)
    requires t == [0x79, 0x79, 0xDE, 0x23]
    ensures SBox(t[0]) == 0xB6 && SBox(t[1]) == 0xB6 && SBox(t[2]) == 0x1D && SBox(t[3]) == 0x26
  {
    hide SBox;
    SBoxRow7(t[0]);
    SBoxRow7(t[1]);
    SBoxRowD(t[2]);
    SBoxRow2(t[3]);
  }

  /** SubBytes in round 6. */
  lemma ZeroSub6(s: seq<bv8>)
    requires s == [0xD4, 0x6F, 0x4F, 0x6C] + [0x55, 0xB8, 0x96, 0x33] + [0x7E, 0x05, 0xBB, 0x3D] + [0x79, 0x79, 0xDE, 0x23]
    ensures SubBytes(s) == [0x48, 0xA8, 0x84, 0x50] + [0xFC, 0x6C, 0x90, 0xC3] + [0xF3, 0x6B, 0xEA, 0x27] + [0xB6, 0xB6, 0x1D, 0x26]
  {
    hide SBox;
    SubBytesSpelled(s);
    ZeroSub6Col0(s[0..4]);
    ZeroSub6Col1(s[4..8]);
    ZeroSub6Col2(s[8..12]);
    ZeroSub6Col3(s[12..16]);
  }

  /** MixColumns in round 6. */
  lemma ZeroMix6(s: seq<bv8>)
    requires s == [0x48, 0x6C, 0xEA, 0x26] + [0xFC, 0x6B, 0x1D, 0x50] + [0xF3, 0xB6, 0x84, 0xC3] + [0xB6, 0xA8, 0x90, 0x27]
    ensures MixColumns(s) == [0xE8, 0x93, 0x81, 0x12] + [0x13, 0x5D, 0x5D, 0xC9] + [0x7B, 0xD0, 0x08, 0xA1] + [0x23, 0x71, 0x4C, 0xB7]
  {
    hide MixColumns;
    MixColumnsSpelled(s);
  }

  /** Round 6 of figure 5. */
  lemma ZeroRound6(s: seq<bv8>, k: seq<bv8>)
    requires s == [0xD4, 0x6F, 0x4F, 0x6C] + [0x55, 0xB8, 0x96, 0x33] + [0x7E, 0x05, 0xBB, 0x3D] + [0x79, 0x79, 0xDE, 0x23]
    requires k == [0xEC, 0x61, 0x4B, 0x85] + [0x14, 0x25, 0x75, 0x8C] + [0x99, 0xFF, 0x09, 0x37] + [0x6A, 0xB4, 0x9B, 0xA7]
    ensures AddRoundKey(MixColumns(ShiftRows(SubBytes(s))), k) == [0x04, 0xF2, 0xCA, 0x97] + [0x07, 0x78, 0x28, 0x45] + [0xE2, 0x2F, 0x01, 0x96] + [0x49, 0xC5, 0xD7, 0x10]
  {
    hide SubBytes, ShiftRows, MixColumns, AddRoundKey;
    ZeroSub6(s);
    ShiftRowsBytes(SubBytes(s));
    ZeroMix6(ShiftRows(SubBytes(s)));
    AddRoundKeySpelled(MixColumns(ShiftRows(SubBytes(s))), [0xEC, 0x61, 0x4B, 0x85], [0x14, 0x25, 0x75, 0x8C], [0x99, 0xFF, 0x09, 0x37], [0x6A, 0xB4, 0x9B, 0xA7]);
  }

  /** The S-box entries of column 0 of the state that enters round 7. */
  lemma ZeroSub7Col0(t: seq<bv8>)
    requires t == [0x04, 0xF2, 0xCA, 0x97]
    ensures SBox(t[0]) == 0xF2 && SBox(t[1]) == 0x89 && SBox(t[2]) == 0x74 && SBox(t[3]) == 0x88
  {
    hide SBox;
    SBoxRow0(t[0]);
    SBoxRowF(t[1]);
    SBoxRowC(t[2]);
    SBoxRow9(t[3]);
  }

  /** The S-box entries of column 1 of the state that enters round 7. */
  lemma ZeroSub7Col1(t: seq<bv8>)
    requires t == [0x07, 0x78, 0x28, 0x45]
    ensures SBox(t[0]) == 0xC5 && SBox(t[1]) == 0xBC && SBox(t[2]) == 0x34 && SBox(t[3]) == 0x6E
  {
    hide SBox;
    SBoxRow0(t[0]);
    SBoxRow7(t[1]);
    SBoxRow2(t[2]);
    SBoxRow4(t[3]);
  }

  /** The S-box entries of column 2 of the state that enters round 7. */
  lemma ZeroSub7Col2(t: seq<bv8>)
    requires t == [0xE2, 0x2F, 0x01, 0x96]
    ensures SBox(t[0]) == 0x98 && SBox(t[1]) == 0x15 && SBox(t[2]) == 0x7C && SBox(t[3]) == 0x90
  {
    hide SBox;
    SBoxRowE(t[0]);
    SBoxRow2(t[1]);
    SBoxRow0(t[2]);
    SBoxRow9(t[3]);
  }

  /** The S-box entries of column 3 of the state that enters round 7. */
  lemma ZeroSub7Col3(t: seq<bv8>)
    requires t == [0x49, 0xC5, 0xD7, 0x10]
    ensures SBox(t[0]) == 0x3B && SBox(t[1]) == 0xA6 && SBox(t[2]) == 0x0E && SBox(t[3]) == 0xCA
  {
    hide SBox;
    SBoxRow4(t[0]);
    SBoxRowC(t[1]);
    SBoxRowD(t[2]);
    SBoxRow1(t[3]);
  }

  /** SubBytes in round 7. */
  lemma ZeroSub7(s: seq<bv8>)
    requires s == [0x04, 0xF2, 0xCA, 0x97] + [0x07, 0x78, 0x28, 0x45] + [0xE2, 0x2F, 0x01, 0x96] + [0x49, 0xC5, 0xD7, 0x10]
    ensures SubBytes(s) == [0xF2, 0x89, 0x74, 0x88] + [0xC5, 0xBC, 0x34, 0x6E] + [0x98, 0x15, 0x7C, 0x90] + [0x3B, 0xA6, 0x0E, 0xCA]
  {
    hide SBox;
    SubBytesSpelled(s);
    ZeroSub7Col0(s[0..4]);
    ZeroSub7Col1(s[4..8]);
    ZeroSub7Col2(s[8..12]);
    ZeroSub7Col3(s[12..16]);
  }

  /** MixColumns in round 7. */
  lemma ZeroMix7(s: seq<bv8>)
    requires s == [0xF2, 0xBC, 0x7C, 0xCA] + [0xC5, 0x15, 0x0E, 0x88] + [0x98, 0xA6, 0x74, 0x6E] + [0x3B, 0x89, 0x34, 0x90]
    ensures MixColumns(s) == [0x96, 0xDF, 0xF3, 0x42] + [0x28, 0x75, 0x4F, 0x44] + [0xC0, 0x3D, 0x64, 0xBD] + [0x52, 0xFE, 0x71, 0xCB]
  {
    hide MixColumns;
    MixColumnsSpelled(s);
  }

  /** Round 7 of figure 5. */
  lemma ZeroRound7(s: seq<bv8>, k: seq<bv8>)
    requires s == [0x04, 0xF2, 0xCA, 0x97] + [0x07, 0x78, 0x28, 0x45] + [0xE2, 0x2F, 0x01, 0x96] + [0x49, 0xC5, 0xD7, 0x10]
    requires k == [0x21, 0x75, 0x17, 0x87] + [0x35, 0x50, 0x62, 0x0B] + [0xAC, 0xAF, 0x6B, 0x3C] + [0xC6, 0x1B, 0xF0, 0x9B]
    ensures AddRoundKey(MixColumns(ShiftRows(SubBytes(s))), k) == [0xB7, 0xAA, 0xE4, 0xC5] + [0x1D, 0x25, 0x2D, 0x4F] + [0x6C, 0x92, 0x0F, 0x81] + [0x94, 0xE5, 0x81, 0x50]
  {
    hide SubBytes, ShiftRows, MixColumns, AddRoundKey;
    ZeroSub7(s);
    ShiftRowsBytes(SubBytes(s));
    ZeroMix7(ShiftRows(SubBytes(s)));
    AddRoundKeySpelled(MixColumns(ShiftRows(SubBytes(s))), [0x21, 0x75, 0x17, 0x87], [0x35, 0x50, 0x62, 0x0B], [0xAC, 0xAF, 0x6B, 0x3C], [0xC6, 0x1B, 0xF0, 0x9B]);
  }

  /** The S-box entries of column 0 of the state that enters round 8. */
  lemma ZeroSub8Col0(t: seq<bv8>)
    requires t == [0xB7, 0xAA, 0xE4, 0xC5]
    ensures SBox(t[0]) == 0xA9 && SBox(t[1]) == 0xAC && SBox(t[2]) == 0x69 && SBox(t[3]) == 0xA6
  {
    hide SBox;
    SBoxRowB(t[0]);
    SBoxRowA(t[1]);
    SBoxRowE(t[2]);
    SBoxRowC(t[3]);
  }

  /** The S-box entries of column 1 of the state that enters round 8. */
  lemma ZeroSub8Col1(t: seq<bv8>)
    requires t == [0x1D, 0x25, 0x2D, 0x4F]
    ensures SBox(t[0]) == 0xA4 && SBox(t[1]) == 0x3F && SBox(t[2]) == 0xD8 && SBox(t[3]) == 0x84
  {
    hide SBox;
    SBoxRow1(t[0]);
    SBoxRow2(t[1]);
    SBoxRow2(t[2]);
    SBoxRow4(t[3]);
  }

  /** The S-box entries of column 2 of the state that enters round 8. */
  lemma ZeroSub8Col2(t: seq<bv8>)
    requires t == [0x6C, 0x92, 0x0F, 0x81]
    ensures SBox(t[0]) == 0x50 && SBox(t[1]) == 0x4F && SBox(t[2]) == 0x76 && SBox(t[3]) == 0x0C
  {
    hide SBox;
    SBoxRow6(t[0]);
    SBoxRow9(t[1]);
    SBoxRow0(t[2]);
    SBoxRow8(t[3]);
  }

  /** The S-box entries of column 3 of the state that enters round 8. */
  lemma ZeroSub8Col3(t: seq<bv8>)
    requires t == [0x94, 0xE5, 0x81, 0x50]
    ensures SBox(t[0]) == 0x22 && SBox(t[1]) == 0xD9 && SBox(t[2]) == 0x0C && SBox(t[3]) == 0x53
  {
    hide SBox;
    SBoxRow9(t[0]);
    SBoxRowE(t[1]);
    SBoxRow8(t[2]);
    SBoxRow5(t[3]);
  }

  /** SubBytes in round 8. */
  lemma ZeroSub8(s: seq<bv8>)
    requires s == [0xB7, 0xAA, 0xE4, 0xC5] + [0x1D, 0x25, 0x2D, 0x4F] + [0x6C, 0x92, 0x0F, 0x81] + [0x94, 0xE5, 0x81, 0x50]
    ensures SubBytes(s) == [0xA9, 0xAC, 0x69, 0xA6] + [0xA4, 0x3F, 0xD8, 0x84] + [0x50, 0x4F, 0x76, 0x0C] + [0x22, 0xD9, 0x0C, 0x53]
  {
    hide SBox;
    SubBytesSpelled(s);
    ZeroSub8Col0(s[0..4]);
    ZeroSub8Col1(s[4..8]);
    ZeroSub8Col2(s[8..12]);
    ZeroSub8Col3(s[12..16]);
  }

  /** MixColumns in round 8. */
  lemma ZeroMix8(s: seq<bv8>)
    requires s == [0xA9, 0x3F, 0x76, 0x53] + [0xA4, 0x4F, 0x0C, 0xA6] + [0x50, 0xD9, 0x69, 0x84] + [0x22, 0xAC, 0xD8, 0x0C]
    ensures MixColumns(s) == [0x2D, 0x1E, 0x8F, 0x0F] + [0x28, 0x88, 0x02, 0xE3] + [0x3D, 0xC6, 0xCC, 0x53] + [0x7F, 0x1E, 0x31, 0x0A]
  {
    hide MixColumns;
    MixColumnsSpelled(s);
  }

  /** Round 8 of figure 5. */
  lemma ZeroRound8(s: seq<bv8>, k: seq<bv8>)
    requires s == [0xB7, 0xAA, 0xE4, 0xC5] + [0x1D, 0x25, 0x2D, 0x4F] + [0x6C, 0x92, 0x0F, 0x81] + [0x94, 0xE5, 0x81, 0x50]
    requires k == [0x0E, 0xF9, 0x03, 0x33] + [0x3B, 0xA9, 0x61, 0x38] + [0x97, 0x06, 0x0A, 0x04] + [0x51, 0x1D, 0xFA, 0x9F]
    ensures AddRoundKey(MixColumns(ShiftRows(SubBytes(s))), k) == [0x23, 0xE7, 0x8C, 0x3C] + [0x13, 0x21, 0x63, 0xDB] + [0xAA, 0xC0, 0xC6, 0x57] + [0x2E, 0x03, 0xCB, 0x95]
  {
    hide SubBytes, ShiftRows, MixColumns, AddRoundKey;
    ZeroSub8(s);
    ShiftRowsBytes(SubBytes(s));
    ZeroMix8(ShiftRows(SubBytes(s)));
    AddRoundKeySpelled(MixColumns(ShiftRows(SubBytes(s))), [0x0E, 0xF9, 0x03, 0x33], [0x3B, 0xA9, 0x61, 0x38], [0x97, 0x06, 0x0A, 0x04], [0x51, 0x1D, 0xFA, 0x9F]);
  }

  /** The S-box entries of column 0 of the state that enters round 9. */
  lemma ZeroSub9Col0(t: seq<bv8>)
    requires t == [0x23, 0xE7, 0x8C, 0x3C]
    ensures SBox(t[0]) == 0x26 && SBox(t[1]) == 0x94 && SBox(t[2]) == 0x64 && SBox(t[3]) == 0xEB
  {
    hide SBox;
    SBoxRow2(t[0]);
    SBoxRowE(t[1]);
    SBoxRow8(t[2]);
    SBoxRow3(t[3]);
  }

  /** The S-box entries of column 1 of the state that enters round 9. */
  lemma ZeroSub9Col1(t: seq<bv8>)
    requires t == [0x13, 0x21, 0x63, 0xDB]
    ensures SBox(t[0]) == 0x7D && SBox(t[1]) == 0xFD && SBox(t[2]) == 0xFB && SBox(t[3]) == 0xB9
  {
    hide SBox;
    SBoxRow1(t[0]);
    SBoxRow2(t[1]);
    SBoxRow6(t[2]);
    SBoxRowD(t[3]);
  }

  /** The S-box entries of column 2 of the state that enters round 9. */
  lemma ZeroSub9Col2(t: seq<bv8>)
    requires t == [0xAA, 0xC0, 0xC6, 0x57]
    ensures SBox(t[0]) == 0xAC && SBox(t[1]) == 0xBA && SBox(t[2]) == 0xB4 && SBox(t[3]) == 0x5B
  {
    hide SBox;
    SBoxRowA(t[0]);
    SBoxRowC(t[1]);
    SBoxRowC(t[2]);
    SBoxRow5(t[3]);
  }

  /** The S-box entries of column 3 of the state that enters round 9. */
  lemma ZeroSub9Col3(t: seq<bv8>)
    requires t == [0x2E, 0x03, 0xCB, 0x95]
    ensures SBox(t[0]) == 0x31 && SBox(t[1]) == 0x7B && SBox(t[2]) == 0x1F && SBox(t[3]) == 0x2A
  {
    hide SBox;
    SBoxRow2(t[0]);
    SBoxRow0(t[1]);
    SBoxRowC(t[2]);
    SBoxRow9(t[3]);
  }

  /** SubBytes in round 9. */
  lemma ZeroSub9(s: seq<bv8>)
    requires s == [0x23, 0xE7, 0x8C, 0x3C] + [0x13, 0x21, 0x63, 0xDB] + [0xAA, 0xC0, 0xC6, 0x57] + [0x2E, 0x03, 0xCB, 0x95]
    ensures SubBytes(s) == [0x26, 0x94, 0x64, 0xEB] + [0x7D, 0xFD, 0xFB, 0xB9] + [0xAC, 0xBA, 0xB4, 0x5B] + [0x31, 0x7B, 0x1F, 0x2A]
  {
    hide SBox;
    SubBytesSpelled(s);
    ZeroSub9Col0(s[0..4]);
    ZeroSub9Col1(s[4..8]);
    ZeroSub9Col2(s[8..12]);
    ZeroSub9Col3(s[12..16]);
  }

  /** MixColumns in round 9. */
  lemma ZeroMix9(s: seq<bv8>)
    requires s == [0x26, 0xFD, 0xB4, 0x2A] + [0x7D, 0xBA, 0x1F, 0xEB] + [0xAC, 0x7B, 0x64, 0xB9] + [0x31, 0x94, 0xFB, 0x5B]
    ensures MixColumns(s) == [0xCE, 0x2A, 0xD6, 0x77] + [0xDB, 0xD8, 0xDF, 0xEF] + [0x13, 0x4F, 0xCF, 0x99] + [0x65, 0x4F, 0xA5, 0x8A]
  {
    hide MixColumns;
    MixColumnsSpelled(s);
  }

  /** Round 9 of figure 5. */
  lemma ZeroRound9(s: seq<bv8>, k: seq<bv8>)
    requires s == [0x23, 0xE7, 0x8C, 0x3C] + [0x13, 0x21, 0x63, 0xDB] + [0xAA, 0xC0, 0xC6, 0x57] + [0x2E, 0x03, 0xCB, 0x95]
    requires k == [0xB1, 0xD4, 0xD8, 0xE2] + [0x8A, 0x7D, 0xB9, 0xDA] + [0x1D, 0x7B, 0xB3, 0xDE] + [0x4C, 0x66, 0x49, 0x41]
    ensures AddRoundKey(MixColumns(ShiftRows(SubBytes(s))), k) == [0x7F, 0xFE, 0x0E, 0x95] + [0x51, 0xA5, 0x66, 0x35] + [0x0E, 0x34, 0x7C, 0x47] + [0x29, 0x29, 0xEC, 0xCB]
  {
    hide SubBytes, ShiftRows, MixColumns, AddRoundKey;
    ZeroSub9(s);
    ShiftRowsBytes(SubBytes(s));
    ZeroMix9(ShiftRows(SubBytes(s)));
    AddRoundKeySpelled(MixColumns(ShiftRows(SubBytes(s))), [0xB1, 0xD4, 0xD8, 0xE2], [0x8A, 0x7D, 0xB9, 0xDA], [0x1D, 0x7B, 0xB3, 0xDE], [0x4C, 0x66, 0x49, 0x41]);
  }

  /** The S-box entries of column 0 of the state that enters round 10. */
  lemma ZeroSub10Col0(t: seq<bv8>)
    requires t == [0x7F, 0xFE, 0x0E, 0x95]
    ensures SBox(t[0]) == 0xD2 && SBox(t[1]) == 0xBB && SBox(t[2]) == 0xAB && SBox(t[3]) == 0x2A
  {
    hide SBox;
    SBoxRow7(t[0]);
    SBoxRowF(t[1]);
    SBoxRow0(t[2]);
    SBoxRow9(t[3]);
  }

  /** The S-box entries of column 1 of the state that enters round 10. */
  lemma ZeroSub10Col1(t: seq<bv8>)
    requires t == [0x51, 0xA5, 0x66, 0x35]
    ensures SBox(t[0]) == 0xD1 && SBox(t[1]) == 0x06 && SBox(t[2]) == 0x33 && SBox(t[3]) == 0x96
  {
    hide SBox;
    SBoxRow5(t[0]);
    SBoxRowA(t[1]);
    SBoxRow6(t[2]);
    SBoxRow3(t[3]);
  }

  /** The S-box entries of column 2 of the state that enters round 10. */
  lemma ZeroSub10Col2(t: seq<bv8>)
    requires t == [0x0E, 0x34, 0x7C, 0x47]
    ensures SBox(t[0]) == 0xAB && SBox(t[1]) == 0x18 && SBox(t[2]) == 0x10 && SBox(t[3]) == 0xA0
  {
    hide SBox;
    SBoxRow0(t[0]);
    SBoxRow3(t[1]);
    SBoxRow7(t[2]);
    SBoxRow4(t[3]);
  }

  /** The S-box entries of column 3 of the state that enters round 10. */
  lemma ZeroSub10Col3(t: seq<bv8>)
    requires t == [0x29, 0x29, 0xEC, 0xCB]
    ensures SBox(t[0]) == 0xA5 && SBox(t[1]) == 0xA5 && SBox(t[2]) == 0xCE && SBox(t[3]) == 0x1F
  {
    hide SBox;
    SBoxRow2(t[0]);
    SBoxRow2(t[1]);
    SBoxRowE(t[2]);
    SBoxRowC(t[3]);
  }

  /** SubBytes in round 10. */
  lemma ZeroSub10(s: seq<bv8>)
    requires s == [0x7F, 0xFE, 0x0E, 0x95] + [0x51, 0xA5, 0x66, 0x35] + [0x0E, 0x34, 0x7C, 0x47] + [0x29, 0x29, 0xEC, 0xCB]
    ensures SubBytes(s) == [0xD2, 0xBB, 0xAB, 0x2A] + [0xD1, 0x06, 0x33, 0x96] + [0xAB, 0x18, 0x10, 0xA0] + [0xA5, 0xA5, 0xCE, 0x1F]
  {
    hide SBox;
    SubBytesSpelled(s);
    ZeroSub10Col0(s[0..4]);
    ZeroSub10Col1(s[4..8]);
    ZeroSub10Col2(s[8..12]);
    ZeroSub10Col3(s[12..16]);
  }

  /** The final round 10 of figure 5. */
  lemma ZeroRound10(s: seq<bv8>, k: seq<bv8>)
    requires s == [0x7F, 0xFE, 0x0E, 0x95] + [0x51, 0xA5, 0x66, 0x35] + [0x0E, 0x34, 0x7C, 0x47] + [0x29, 0x29, 0xEC, 0xCB]
    requires k == [0xB4, 0xEF, 0x5B, 0xCB] + [0x3E, 0x92, 0xE2, 0x11] + [0x23, 0xE9, 0x51, 0xCF] + [0x6F, 0x8F, 0x18, 0x8E]
    ensures AddRoundKey(ShiftRows(SubBytes(s)), k) == [0x66, 0xE9, 0x4B, 0xD4] + [0xEF, 0x8A, 0x2C, 0x3B] + [0x88, 0x4C, 0xFA, 0x59] + [0xCA, 0x34, 0x2B, 0x2E]
  {
    hide SubBytes, ShiftRows, AddRoundKey;
    ZeroSub10(s);
    ShiftRowsBytes(SubBytes(s));
    AddRoundKeySpelled(ShiftRows(SubBytes(s)), [0xB4, 0xEF, 0x5B, 0xCB], [0x3E, 0x92, 0xE2, 0x11], [0x23, 0xE9, 0x51, 0xCF], [0x6F, 0x8F, 0x18, 0x8E]);
  }

  /** The cipher of figure 5 maps the block to the published ciphertext. */
  lemma ZeroCipher(key: seq<bv8>, input: seq<bv8>)
    requires key == [0x00, 0x00, 0x00, 0x00, 0x00, 0x00, 0x00, 0x00, 0x00, 0x00, 0x00, 0x00, 0x00, 0x00, 0x00, 0x00]
    requires input == [0x00, 0x00, 0x00, 0x00] + [0x00, 0x00, 0x00, 0x00] + [0x00, 0x00, 0x00, 0x00] + [0x00, 0x00, 0x00, 0x00]
    ensures Cipher(input, RoundKeys(KeyExpansion(key, 4, 10), 10)) == [0x66, 0xE9, 0x4B, 0xD4] + [0xEF, 0x8A, 0x2C, 0x3B] + [0x88, 0x4C, 0xFA, 0x59] + [0xCA, 0x34, 0x2B, 0x2E]
  {
    hide CipherRounds, SubBytes, ShiftRows, MixColumns, AddRoundKey, KeySchedule;
    var ks := RoundKeys(KeyExpansion(key, 4, 10), 10);
    ZeroRoundKey0(key);
    ZeroRoundKey1(key);
    ZeroRoundKey2(key);
    ZeroRoundKey3(key);
    ZeroRoundKey4(key);
    ZeroRoundKey5(key);
    ZeroRoundKey6(key);
    ZeroRoundKey7(key);
    ZeroRoundKey8(key);
    ZeroRoundKey9(key);
    ZeroRoundKey10(key);
    ZeroStart(input, ks[0]);
    var s0 := AddRoundKey(input, ks[0]);
    ZeroRound1(s0, ks[1]);
    assert ks[1..][1..] == ks[2..];
    CipherRoundsFirst(s0, ks[1..]);
    var s1 := AddRoundKey(MixColumns(ShiftRows(SubBytes(s0))), ks[1]);
    ZeroRound2(s1, ks[2]);
    assert ks[2..][1..] == ks[3..];
    CipherRoundsFirst(s1, ks[2..]);
    var s2 := AddRoundKey(MixColumns(ShiftRows(SubBytes(s1))), ks[2]);
    ZeroRound3(s2, ks[3]);
    assert ks[3..][1..] == ks[4..];
    CipherRoundsFirst(s2, ks[3..]);
    var s3 := AddRoundKey(MixColumns(ShiftRows(SubBytes(s2))), ks[3]);
    ZeroRound4(s3, ks[4]);
    assert ks[4..][1..] == ks[5..];
    CipherRoundsFirst(s3, ks[4..]);
    var s4 := AddRoundKey(MixColumns(ShiftRows(SubBytes(s3))), ks[4]);
    ZeroRound5(s4, ks[5]);
    assert ks[5..][1..] == ks[6..];
    CipherRoundsFirst(s4, ks[5..]);
    var s5 := AddRoundKey(MixColumns(ShiftRows(SubBytes(s4))), ks[5]);
    ZeroRound6(s5, ks[6]);
    assert ks[6..][1..] == ks[7..];
    CipherRoundsFirst(s5, ks[6..]);
    var s6 := AddRoundKey(MixColumns(ShiftRows(SubBytes(s5))), ks[6]);
    ZeroRound7(s6, ks[7]);
    assert ks[7..][1..] == ks[8..];
    CipherRoundsFirst(s6, ks[7..]);
    var s7 := AddRoundKey(MixColumns(ShiftRows(SubBytes(s6))), ks[7]);
    ZeroRound8(s7, ks[8]);
    assert ks[8..][1..] == ks[9..];
    CipherRoundsFirst(s7, ks[8..]);
    var s8 := AddRoundKey(MixColumns(ShiftRows(SubBytes(s7))), ks[8]);
    ZeroRound9(s8, ks[9]);
    assert ks[9..][1..] == ks[10..];
    CipherRoundsFirst(s8, ks[9..]);
    var s9 := AddRoundKey(MixColumns(ShiftRows(SubBytes(s8))), ks[9]);
    ZeroRound10(s9, ks[10]);
    CipherRoundsLast(s9, ks[10..]);
  }

  /** The inverse cipher of figure 12 maps the published ciphertext back to the block. */
  lemma ZeroInvCipher(key: seq<bv8>, output: seq<bv8>)
    requires key == [0x00, 0x00, 0x00, 0x00, 0x00, 0x00, 0x00, 0x00, 0x00, 0x00, 0x00, 0x00, 0x00, 0x00, 0x00, 0x00]
    requires output == [0x66, 0xE9, 0x4B, 0xD4] + [0xEF, 0x8A, 0x2C, 0x3B] + [0x88, 0x4C, 0xFA, 0x59] + [0xCA, 0x34, 0x2B, 0x2E]
    ensures InvCipher(output, RoundKeys(KeyExpansion(key, 4, 10), 10)) == [0x00, 0x00, 0x00, 0x00] + [0x00, 0x00, 0x00, 0x00] + [0x00, 0x00, 0x00, 0x00] + [0x00, 0x00, 0x00, 0x00]
  {
    var input: seq<bv8> := [0x00, 0x00, 0x00, 0x00] + [0x00, 0x00, 0x00, 0x00] + [0x00, 0x00, 0x00, 0x00] + [0x00, 0x00, 0x00, 0x00];
    ZeroCipher(key, input);
    InvCipherCipher(input, RoundKeys(KeyExpansion(key, 4, 10), 10));
  }

  // ------------------------------------------- the key of appendix A.1

  /** Word 0 of the expansion of the key of appendix A.1, one of the words of the key itself. */
  lemma A1Word0(key: seq<bv8>)
    requires key == [0x2B, 0x7E, 0x15, 0x16, 0x28, 0xAE, 0xD2, 0xA6, 0xAB, 0xF7, 0x15, 0x88, 0x09, 0xCF, 0x4F, 0x3C]
    ensures KeySchedule(key, 4, 44)[0] == [0x2B, 0x7E, 0x15, 0x16]
  {
    hide KeySchedule;
    KeyWordSpelled(key, 4, 44, 0);
  }

  /** Word 1 of the expansion of the key of appendix A.1, one of the words of the key itself. */
  lemma A1Word1(key: seq<bv8>)
    requires key == [0x2B, 0x7E, 0x15, 0x16, 0x28, 0xAE, 0xD2, 0xA6, 0xAB, 0xF7, 0x15, 0x88, 0x09, 0xCF, 0x4F, 0x3C]
    ensures KeySchedule(key, 4, 44)[1] == [0x28, 0xAE, 0xD2, 0xA6]
  {
    hide KeySchedule;
    KeyWordSpelled(key, 4, 44, 1);
  }

  /** Word 2 of the expansion of the key of appendix A.1, one of the words of the key itself. */
  lemma A1Word2(key: seq<bv8>)
    requires key == [0x2B, 0x7E, 0x15, 0x16, 0x28, 0xAE, 0xD2, 0xA6, 0xAB, 0xF7, 0x15, 0x88, 0x09, 0xCF, 0x4F, 0x3C]
    ensures KeySchedule(key, 4, 44)[2] == [0xAB, 0xF7, 0x15, 0x88]
  {
    hide KeySchedule;
    KeyWordSpelled(key, 4, 44, 2);
  }

  /** Word 3 of the expansion of the key of appendix A.1, one of the words of the key itself. */
  lemma A1Word3(key: seq<bv8>)
    requires key == [0x2B, 0x7E, 0x15, 0x16, 0x28, 0xAE, 0xD2, 0xA6, 0xAB, 0xF7, 0x15, 0x88, 0x09, 0xCF, 0x4F, 0x3C]
    ensures KeySchedule(key, 4, 44)[3] == [0x09, 0xCF, 0x4F, 0x3C]
  {
    hide KeySchedule;
    KeyWordSpelled(key, 4, 44, 3);
  }

  /** Word 4 of the expansion of the key of appendix A.1. */
  lemma A1Word4(key: seq<bv8>)
    requires key == [0x2B, 0x7E, 0x15, 0x16, 0x28, 0xAE, 0xD2, 0xA6, 0xAB, 0xF7, 0x15, 0x88, 0x09, 0xCF, 0x4F, 0x3C]
    ensures KeySchedule(key, 4, 44)[4] == [0xA0, 0xFA, 0xFE, 0x17]
  {
    hide KeySchedule, Transform, SBox, XtimePower;
    var w := KeySchedule(key, 4, 44);
    A1Word3(key);
    A1Word0(key);
    SBoxRow0(w[3][0]);
    SBoxRowC(w[3][1]);
    SBoxRow4(w[3][2]);
    SBoxRow3(w[3][3]);
    XtimePowerValues();
    KeyScheduleWords(key, 4, 44, 4);
    TransformSpelled(w[3], 4, 4);
    XorWordSpelled(w[0], Transform(w[3], 4, 4));
  }

  /** Word 5 of the expansion of the key of appendix A.1. */
  lemma A1Word5(key: seq<bv8>)
    requires key == [0x2B, 0x7E, 0x15, 0x16, 0x28, 0xAE, 0xD2, 0xA6, 0xAB, 0xF7, 0x15, 0x88, 0x09, 0xCF, 0x4F, 0x3C]
    ensures KeySchedule(key, 4, 44)[5] == [0x88, 0x54, 0x2C, 0xB1]
  {
    hide KeySchedule, Transform;
    var w := KeySchedule(key, 4, 44);
    A1Word4(key);
    A1Word1(key);
    KeyScheduleWords(key, 4, 44, 5);
    TransformSpelled(w[4], 5, 4);
    XorWordSpelled(w[1], Transform(w[4], 5, 4));
  }

  /** Word 6 of the expansion of the key of appendix A.1. */
  lemma A1Word6(key: seq<bv8>)
    requires key == [0x2B, 0x7E, 0x15, 0x16, 0x28, 0xAE, 0xD2, 0xA6, 0xAB, 0xF7, 0x15, 0x88, 0x09, 0xCF, 0x4F, 0x3C]
    ensures KeySchedule(key, 4, 44)[6] == [0x23, 0xA3, 0x39, 0x39]
  {
    hide KeySchedule, Transform;
    var w := KeySchedule(key, 4, 44);
    A1Word5(key);
    A1Word2(key);
    KeyScheduleWords(key, 4, 44, 6);
    TransformSpelled(w[5], 6, 4);
    XorWordSpelled(w[2], Transform(w[5], 6, 4));
  }

  /** Word 7 of the expansion of the key of appendix A.1. */
  lemma A1Word7(key: seq<bv8>)
    requires key == [0x2B, 0x7E, 0x15, 0x16, 0x28, 0xAE, 0xD2, 0xA6, 0xAB, 0xF7, 0x15, 0x88, 0x09, 0xCF, 0x4F, 0x3C]
    ensures KeySchedule(key, 4, 44)[7] == [0x2A, 0x6C, 0x76, 0x05]
  {
    hide KeySchedule, Transform;
    var w := KeySchedule(key, 4, 44);
    A1Word6(key);
    A1Word3(key);
    KeyScheduleWords(key, 4, 44, 7);
    TransformSpelled(w[6], 7, 4);
    XorWordSpelled(w[3], Transform(w[6], 7, 4));
  }

  /** Word 8 of the expansion of the key of appendix A.1. */
  lemma A1Word8(key: seq<bv8>)
    requires key == [0x2B, 0x7E, 0x15, 0x16, 0x28, 0xAE, 0xD2, 0xA6, 0xAB, 0xF7, 0x15, 0x88, 0x09, 0xCF, 0x4F, 0x3C]
    ensures KeySchedule(key, 4, 44)[8] == [0xF2, 0xC2, 0x95, 0xF2]
  {
    hide KeySchedule, Transform, SBox, XtimePower;
    var w := KeySchedule(key, 4, 44);
    A1Word7(key);
    A1Word4(key);
    SBoxRow2(w[7][0]);
    SBoxRow6(w[7][1]);
    SBoxRow7(w[7][2]);
    SBoxRow0(w[7][3]);
    XtimePowerValues();
    KeyScheduleWords(key, 4, 44, 8);
    TransformSpelled(w[7], 8, 4);
    XorWordSpelled(w[4], Transform(w[7], 8, 4));
  }

  /** Word 9 of the expansion of the key of appendix A.1. */
  lemma A1Word9(key: seq<bv8>)
    requires key == [0x2B, 0x7E, 0x15, 0x16, 0x28, 0xAE, 0xD2, 0xA6, 0xAB, 0xF7, 0x15, 0x88, 0x09, 0xCF, 0x4F, 0x3C]
    ensures KeySchedule(key, 4, 44)[9] == [0x7A, 0x96, 0xB9, 0x43]
  {
    hide KeySchedule, Transform;
    var w := KeySchedule(key, 4, 44);
    A1Word8(key);
    A1Word5(key);
    KeyScheduleWords(key, 4, 44, 9);
    TransformSpelled(w[8], 9, 4);
    XorWordSpelled(w[5], Transform(w[8], 9, 4));
  }

  /** Word 10 of the expansion of the key of appendix A.1. */
  lemma A1Word10(key: seq<bv8>)
    requires key == [0x2B, 0x7E, 0x15, 0x16, 0x28, 0xAE, 0xD2, 0xA6, 0xAB, 0xF7, 0x15, 0x88, 0x09, 0xCF, 0x4F, 0x3C]
    ensures KeySchedule(key, 4, 44)[10] == [0x59, 0x35, 0x80, 0x7A]
  {
    hide KeySchedule, Transform;
    var w := KeySchedule(key, 4, 44);
    A1Word9(key);
    A1Word6(key);
    KeyScheduleWords(key, 4, 44, 10);
    TransformSpelled(w[9], 10, 4);
    XorWordSpelled(w[6], Transform(w[9], 10, 4));
  }

  /** Word 11 of the expansion of the key of appendix A.1. */
  lemma A1Word11(key: seq<bv8>)
    requires key == [0x2B, 0x7E, 0x15, 0x16, 0x28, 0xAE, 0xD2, 0xA6, 0xAB, 0xF7, 0x15, 0x88, 0x09, 0xCF, 0x4F, 0x3C]
    ensures KeySchedule(key, 4, 44)[11] == [0x73, 0x59, 0xF6, 0x7F]
  {
    hide KeySchedule, Transform;
    var w := KeySchedule(key, 4, 44);
    A1Word10(key);
    A1Word7(key);
    KeyScheduleWords(key, 4, 44, 11);
    TransformSpelled(w[10], 11, 4);
    XorWordSpelled(w[7], Transform(w[10], 11, 4));
  }

  /** Word 12 of the expansion of the key of appendix A.1. */
  lemma A1Word12(key: seq<bv8>)
    requires key == [0x2B, 0x7E, 0x15, 0x16, 0x28, 0xAE, 0xD2, 0xA6, 0xAB, 0xF7, 0x15, 0x88, 0x09, 0xCF, 0x4F, 0x3C]
    ensures KeySchedule(key, 4, 44)[12] == [0x3D, 0x80, 0x47, 0x7D]
  {
    hide KeySchedule, Transform, SBox, XtimePower;
    var w := KeySchedule(key, 4, 44);
    A1Word11(key);
    A1Word8(key);
    SBoxRow7(w[11][0]);
    SBoxRow5(w[11][1]);
    SBoxRowF(w[11][2]);
    SBoxRow7(w[11][3]);
    XtimePowerValues();
    KeyScheduleWords(key, 4, 44, 12);
    TransformSpelled(w[11], 12, 4);
    XorWordSpelled(w[8], Transform(w[11], 12, 4));
  }

  /** Word 13 of the expansion of the key of appendix A.1. */
  lemma A1Word13(key: seq<bv8>)
    requires key == [0x2B, 0x7E, 0x15, 0x16, 0x28, 0xAE, 0xD2, 0xA6, 0xAB, 0xF7, 0x15, 0x88, 0x09, 0xCF, 0x4F, 0x3C]
    ensures KeySchedule(key, 4, 44)[13] == [0x47, 0x16, 0xFE, 0x3E]
  {
    hide KeySchedule, Transform;
    var w := KeySchedule(key, 4, 44);
    A1Word12(key);
    A1Word9(key);
    KeyScheduleWords(key, 4, 44, 13);
    TransformSpelled(w[12], 13, 4);
    XorWordSpelled(w[9], Transform(w[12], 13, 4));
  }

  /** Word 14 of the expansion of the key of appendix A.1. */
  lemma A1Word14(key: seq<bv8>)
    requires key == [0x2B, 0x7E, 0x15, 0x16, 0x28, 0xAE, 0xD2, 0xA6, 0xAB, 0xF7, 0x15, 0x88, 0x09, 0xCF, 0x4F, 0x3C]
    ensures KeySchedule(key, 4, 44)[14] == [0x1E, 0x23, 0x7E, 0x44]
  {
    hide KeySchedule, Transform;
    var w := KeySchedule(key, 4, 44);
    A1Word13(key);
    A1Word10(key);
    KeyScheduleWords(key, 4, 44, 14);
    TransformSpelled(w[13], 14, 4);
    XorWordSpelled(w[10], Transform(w[13], 14, 4));
  }

  /** Word 15 of the expansion of the key of appendix A.1. */
  lemma A1Word15(key: seq<bv8>)
    requires key == [0x2B, 0x7E, 0x15, 0x16, 0x28, 0xAE, 0xD2, 0xA6, 0xAB, 0xF7, 0x15, 0x88, 0x09, 0xCF, 0x4F, 0x3C]
    ensures KeySchedule(key, 4, 44)[15] == [0x6D, 0x7A, 0x88, 0x3B]
  {
    hide KeySchedule, Transform;
    var w := KeySchedule(key, 4, 44);
    A1Word14(key);
    A1Word11(key);
    KeyScheduleWords(key, 4, 44, 15);
    TransformSpelled(w[14], 15, 4);
    XorWordSpelled(w[11], Transform(w[14], 15, 4));
  }

  /** Word 16 of the expansion of the key of appendix A.1. */
  lemma A1Word16(key: seq<bv8>)
    requires key == [0x2B, 0x7E, 0x15, 0x16, 0x28, 0xAE, 0xD2, 0xA6, 0xAB, 0xF7, 0x15, 0x88, 0x09, 0xCF, 0x4F, 0x3C]
    ensures KeySchedule(key, 4, 44)[16] == [0xEF, 0x44, 0xA5, 0x41]
  {
    hide KeySchedule, Transform, SBox, XtimePower;
    var w := KeySchedule(key, 4, 44);
    A1Word15(key);
    A1Word12(key);
    SBoxRow6(w[15][0]);
    SBoxRow7(w[15][1]);
    SBoxRow8(w[15][2]);
    SBoxRow3(w[15][3]);
    XtimePowerValues();
    KeyScheduleWords(key, 4, 44, 16);
    TransformSpelled(w[15], 16, 4);
    XorWordSpelled(w[12], Transform(w[15], 16, 4));
  }

  /** Word 17 of the expansion of the key of appendix A.1. */
  lemma A1Word17(key: seq<bv8>)
    requires key == [0x2B, 0x7E, 0x15, 0x16, 0x28, 0xAE, 0xD2, 0xA6, 0xAB, 0xF7, 0x15, 0x88, 0x09, 0xCF, 0x4F, 0x3C]
    ensures KeySchedule(key, 4, 44)[17] == [0xA8, 0x52, 0x5B, 0x7F]
  {
    hide KeySchedule, Transform;
    var w := KeySchedule(key, 4, 44);
    A1Word16(key);
    A1Word13(key);
    KeyScheduleWords(key, 4, 44, 17);
    TransformSpelled(w[16], 17, 4);
    XorWordSpelled(w[13], Transform(w[16], 17, 4));
  }

  /** Word 18 of the expansion of the key of appendix A.1. */
  lemma A1Word18(key: seq<bv8>)
    requires key == [0x2B, 0x7E, 0x15, 0x16, 0x28, 0xAE, 0xD2, 0xA6, 0xAB, 0xF7, 0x15, 0x88, 0x09, 0xCF, 0x4F, 0x3C]
    ensures KeySchedule(key, 4, 44)[18] == [0xB6, 0x71, 0x25, 0x3B]
  {
    hide KeySchedule, Transform;
    var w := KeySchedule(key, 4, 44);
    A1Word17(key);
    A1Word14(key);
    KeyScheduleWords(key, 4, 44, 18);
    TransformSpelled(w[17], 18, 4);
    XorWordSpelled(w[14], Transform(w[17], 18, 4));
  }

  /** Word 19 of the expansion of the key of appendix A.1. */
  lemma A1Word19(key: seq<bv8>)
    requires key == [0x2B, 0x7E, 0x15, 0x16, 0x28, 0xAE, 0xD2, 0xA6, 0xAB, 0xF7, 0x15, 0x88, 0x09, 0xCF, 0x4F, 0x3C]
    ensures KeySchedule(key, 4, 44)[19] == [0xDB, 0x0B, 0xAD, 0x00]
  {
    hide KeySchedule, Transform;
    var w := KeySchedule(key, 4, 44);
    A1Word18(key);
    A1Word15(key);
    KeyScheduleWords(key, 4, 44, 19);
    TransformSpelled(w[18], 19, 4);
    XorWordSpelled(w[15], Transform(w[18], 19, 4));
  }

  /** Word 20 of the expansion of the key of appendix A.1. */
  lemma A1Word20(key: seq<bv8>)
    requires key == [0x2B, 0x7E, 0x15, 0x16, 0x28, 0xAE, 0xD2, 0xA6, 0xAB, 0xF7, 0x15, 0x88, 0x09, 0xCF, 0x4F, 0x3C]
    ensures KeySchedule(key, 4, 44)[20] == [0xD4, 0xD1, 0xC6, 0xF8]
  {
    hide KeySchedule, Transform, SBox, XtimePower;
    var w := KeySchedule(key, 4, 44);
    A1Word19(key);
    A1Word16(key);
    SBoxRowD(w[19][0]);
    SBoxRow0(w[19][1]);
    SBoxRowA(w[19][2]);
    SBoxRow0(w[19][3]);
    XtimePowerValues();
    KeyScheduleWords(key, 4, 44, 20);
    TransformSpelled(w[19], 20, 4);
    XorWordSpelled(w[16], Transform(w[19], 20, 4));
  }

  /** Word 21 of the expansion of the key of appendix A.1. */
  lemma A1Word21(key: seq<bv8>)
    requires key == [0x2B, 0x7E, 0x15, 0x16, 0x28, 0xAE, 0xD2, 0xA6, 0xAB, 0xF7, 0x15, 0x88, 0x09, 0xCF, 0x4F, 0x3C]
    ensures KeySchedule(key, 4, 44)[21] == [0x7C, 0x83, 0x9D, 0x87]
  {
    hide KeySchedule, Transform;
    var w := KeySchedule(key, 4, 44);
    A1Word20(key);
    A1Word17(key);
    KeyScheduleWords(key, 4, 44, 21);
    TransformSpelled(w[20], 21, 4);
    XorWordSpelled(w[17], Transform(w[20], 21, 4));
  }

  /** Word 22 of the expansion of the key of appendix A.1. */
  lemma A1Word22(key: seq<bv8>)
    requires key == [0x2B, 0x7E, 0x15, 0x16, 0x28, 0xAE, 0xD2, 0xA6, 0xAB, 0xF7, 0x15, 0x88, 0x09, 0xCF, 0x4F, 0x3C]
    ensures KeySchedule(key, 4, 44)[22] == [0xCA, 0xF2, 0xB8, 0xBC]
  {
    hide KeySchedule, Transform;
    var w := KeySchedule(key, 4, 44);
    A1Word21(key);
    A1Word18(key);
    KeyScheduleWords(key, 4, 44, 22);
    TransformSpelled(w[21], 22, 4);
    XorWordSpelled(w[18], Transform(w[21], 22, 4));
  }

  /** Word 23 of the expansion of the key of appendix A.1. */
  lemma A1Word23(key: seq<bv8>)
    requires key == [0x2B, 0x7E, 0x15, 0x16, 0x28, 0xAE, 0xD2, 0xA6, 0xAB, 0xF7, 0x15, 0x88, 0x09, 0xCF, 0x4F, 0x3C]
    ensures KeySchedule(key, 4, 44)[23] == [0x11, 0xF9, 0x15, 0xBC]
  {
    hide KeySchedule, Transform;
    var w := KeySchedule(key, 4, 44);
    A1Word22(key);
    A1Word19(key);
    KeyScheduleWords(key, 4, 44, 23);
    TransformSpelled(w[22], 23, 4);
    XorWordSpelled(w[19], Transform(w[22], 23, 4));
  }

  /** Word 24 of the expansion of the key of appendix A.1. */
  lemma A1Word24(key: seq<bv8>)
    requires key == [0x2B, 0x7E, 0x15, 0x16, 0x28, 0xAE, 0xD2, 0xA6, 0xAB, 0xF7, 0x15, 0x88, 0x09, 0xCF, 0x4F, 0x3C]
    ensures KeySchedule(key, 4, 44)[24] == [0x6D, 0x88, 0xA3, 0x7A]
  {
    hide KeySchedule, Transform, SBox, XtimePower;
    var w := KeySchedule(key, 4, 44);
    A1Word23(key);
    A1Word20(key);
    SBoxRow1(w[23][0]);
    SBoxRowF(w[23][1]);
    SBoxRow1(w[23][2]);
    SBoxRowB(w[23][3]);
    XtimePowerValues();
    KeyScheduleWords(key, 4, 44, 24);
    TransformSpelled(w[23], 24, 4);
    XorWordSpelled(w[20], Transform(w[23], 24, 4));
  }

  /** Word 25 of the expansion of the key of appendix A.1. */
  lemma A1Word25(key: seq<bv8>)
    requires key == [0x2B, 0x7E, 0x15, 0x16, 0x28, 0xAE, 0xD2, 0xA6, 0xAB, 0xF7, 0x15, 0x88, 0x09, 0xCF, 0x4F, 0x3C]
    ensures KeySchedule(key, 4, 44)[25] == [0x11, 0x0B, 0x3E, 0xFD]
  {
    hide KeySchedule, Transform;
    var w := KeySchedule(key, 4, 44);
    A1Word24(key);
    A1Word21(key);
    KeyScheduleWords(key, 4, 44, 25);
    TransformSpelled(w[24], 25, 4);
    XorWordSpelled(w[21], Transform(w[24], 25, 4));
  }

  /** Word 26 of the expansion of the key of appendix A.1. */
  lemma A1Word26(key: seq<bv8>)
    requires key == [0x2B, 0x7E, 0x15, 0x16, 0x28, 0xAE, 0xD2, 0xA6, 0xAB, 0xF7, 0x15, 0x88, 0x09, 0xCF, 0x4F, 0x3C]
    ensures KeySchedule(key, 4, 44)[26] == [0xDB, 0xF9, 0x86, 0x41]
  {
    hide KeySchedule, Transform;
    var w := KeySchedule(key, 4, 44);
    A1Word25(key);
    A1Word22(key);
    KeyScheduleWords(key, 4, 44, 26);
    TransformSpelled(w[25], 26, 4);
    XorWordSpelled(w[22], Transform(w[25], 26, 4));
  }

  /** Word 27 of the expansion of the key of appendix A.1. */
  lemma A1Word27(key: seq<bv8>)
    requires key == [0x2B, 0x7E, 0x15, 0x16, 0x28, 0xAE, 0xD2, 0xA6, 0xAB, 0xF7, 0x15, 0x88, 0x09, 0xCF, 0x4F, 0x3C]
    ensures KeySchedule(key, 4, 44)[27] == [0xCA, 0x00, 0x93, 0xFD]
  {
    hide KeySchedule, Transform;
    var w := KeySchedule(key, 4, 44);
    A1Word26(key);
    A1Word23(key);
    KeyScheduleWords(key, 4, 44, 27);
    TransformSpelled(w[26], 27, 4);
    XorWordSpelled(w[23], Transform(w[26], 27, 4));
  }

  /** Word 28 of the expansion of the key of appendix A.1. */
  lemma A1Word28(key: seq<bv8>)
    requires key == [0x2B, 0x7E, 0x15, 0x16, 0x28, 0xAE, 0xD2, 0xA6, 0xAB, 0xF7, 0x15, 0x88, 0x09, 0xCF, 0x4F, 0x3C]
    ensures KeySchedule(key, 4, 44)[28] == [0x4E, 0x54, 0xF7, 0x0E]
  {
    hide KeySchedule, Transform, SBox, XtimePower;
    var w := KeySchedule(key, 4, 44);
    A1Word27(key);
    A1Word24(key);
    SBoxRowC(w[27][0]);
    SBoxRow0(w[27][1]);
    SBoxRow9(w[27][2]);
    SBoxRowF(w[27][3]);
    XtimePowerValues();
    KeyScheduleWords(key, 4, 44, 28);
    TransformSpelled(w[27], 28, 4);
    XorWordSpelled(w[24], Transform(w[27], 28, 4));
  }

  /** Word 29 of the expansion of the key of appendix A.1. */
  lemma A1Word29(key: seq<bv8>)
    requires key == [0x2B, 0x7E, 0x15, 0x16, 0x28, 0xAE, 0xD2, 0xA6, 0xAB, 0xF7, 0x15, 0x88, 0x09, 0xCF, 0x4F, 0x3C]
    ensures KeySchedule(key, 4, 44)[29] == [0x5F, 0x5F, 0xC9, 0xF3]
  {
    hide KeySchedule, Transform;
    var w := KeySchedule(key, 4, 44);
    A1Word28(key);
    A1Word25(key);
    KeyScheduleWords(key, 4, 44, 29);
    TransformSpelled(w[28], 29, 4);
    XorWordSpelled(w[25], Transform(w[28], 29, 4));
  }

  /** Word 30 of the expansion of the key of appendix A.1. */
  lemma A1Word30(key: seq<bv8>)
    requires key == [0x2B, 0x7E, 0x15, 0x16, 0x28, 0xAE, 0xD2, 0xA6, 0xAB, 0xF7, 0x15, 0x88, 0x09, 0xCF, 0x4F, 0x3C]
    ensures KeySchedule(key, 4, 44)[30] == [0x84, 0xA6, 0x4F, 0xB2]
  {
    hide KeySchedule, Transform;
    var w := KeySchedule(key, 4, 44);
    A1Word29(key);
    A1Word26(key);
    KeyScheduleWords(key, 4, 44, 30);
    TransformSpelled(w[29], 30, 4);
    XorWordSpelled(w[26], Transform(w[29], 30, 4));
  }

  /** Word 31 of the expansion of the key of appendix A.1. */
  lemma A1Word31(key: seq<bv8>)
    requires key == [0x2B, 0x7E, 0x15, 0x16, 0x28, 0xAE, 0xD2, 0xA6, 0xAB, 0xF7, 0x15, 0x88, 0x09, 0xCF, 0x4F, 0x3C]
    ensures KeySchedule(key, 4, 44)[31] == [0x4E, 0xA6, 0xDC, 0x4F]
  {
    hide KeySchedule, Transform;
    var w := KeySchedule(key, 4, 44);
    A1Word30(key);
    A1Word27(key);
    KeyScheduleWords(key, 4, 44, 31);
    TransformSpelled(w[30], 31, 4);
    XorWordSpelled(w[27], Transform(w[30], 31, 4));
  }

  /** Word 32 of the expansion of the key of appendix A.1. */
  lemma A1Word32(key: seq<bv8>)
    requires key == [0x2B, 0x7E, 0x15, 0x16, 0x28, 0xAE, 0xD2, 0xA6, 0xAB, 0xF7, 0x15, 0x88, 0x09, 0xCF, 0x4F, 0x3C]
    ensures KeySchedule(key, 4, 44)[32] == [0xEA, 0xD2, 0x73, 0x21]
  {
    hide KeySchedule, Transform, SBox, XtimePower;
    var w := KeySchedule(key, 4, 44);
    A1Word31(key);
    A1Word28(key);
    SBoxRow4(w[31][0]);
    SBoxRowA(w[31][1]);
    SBoxRowD(w[31][2]);
    SBoxRow4(w[31][3]);
    XtimePowerValues();
    KeyScheduleWords(key, 4, 44, 32);
    TransformSpelled(w[31], 32, 4);
    XorWordSpelled(w[28], Transform(w[31], 32, 4));
  }

  /** Word 33 of the expansion of the key of appendix A.1. */
  lemma A1Word33(key: seq<bv8>)
    requires key == [0x2B, 0x7E, 0x15, 0x16, 0x28, 0xAE, 0xD2, 0xA6, 0xAB, 0xF7, 0x15, 0x88, 0x09, 0xCF, 0x4F, 0x3C]
    ensures KeySchedule(key, 4, 44)[33] == [0xB5, 0x8D, 0xBA, 0xD2]
  {
    hide KeySchedule, Transform;
    var w := KeySchedule(key, 4, 44);
    A1Word32(key);
    A1Word29(key);
    KeyScheduleWords(key, 4, 44, 33);
    TransformSpelled(w[32], 33, 4);
    XorWordSpelled(w[29], Transform(w[32], 33, 4));
  }

  /** Word 34 of the expansion of the key of appendix A.1. */
  lemma A1Word34(key: seq<bv8>)
    requires key == [0x2B, 0x7E, 0x15, 0x16, 0x28, 0xAE, 0xD2, 0xA6, 0xAB, 0xF7, 0x15, 0x88, 0x09, 0xCF, 0x4F, 0x3C]
    ensures KeySchedule(key, 4, 44)[34] == [0x31, 0x2B, 0xF5, 0x60]
  {
    hide KeySchedule, Transform;
    var w := KeySchedule(key, 4, 44);
    A1Word33(key);
    A1Word30(key);
    KeyScheduleWords(key, 4, 44, 34);
    TransformSpelled(w[33], 34, 4);
    XorWordSpelled(w[30], Transform(w[33], 34, 4));
  }

  /** Word 35 of the expansion of the key of appendix A.1. */
  lemma A1Word35(key: seq<bv8>)
    requires key == [0x2B, 0x7E, 0x15, 0x16, 0x28, 0xAE, 0xD2, 0xA6, 0xAB, 0xF7, 0x15, 0x88, 0x09, 0xCF, 0x4F, 0x3C]
    ensures KeySchedule(key, 4, 44)[35] == [0x7F, 0x8D, 0x29, 0x2F]
  {
    hide KeySchedule, Transform;
    var w := KeySchedule(key, 4, 44);
    A1Word34(key);
    A1Word31(key);
    KeyScheduleWords(key, 4, 44, 35);
    TransformSpelled(w[34], 35, 4);
    XorWordSpelled(w[31], Transform(w[34], 35, 4));
  }

  /** Word 36 of the expansion of the key of appendix A.1. */
  lemma A1Word36(key: seq<bv8>)
    requires key == [0x2B, 0x7E, 0x15, 0x16, 0x28, 0xAE, 0xD2, 0xA6, 0xAB, 0xF7, 0x15, 0x88, 0x09, 0xCF, 0x4F, 0x3C]
    ensures KeySchedule(key, 4, 44)[36] == [0xAC, 0x77, 0x66, 0xF3]
  {
    hide KeySchedule, Transform, SBox, XtimePower;
    var w := KeySchedule(key, 4, 44);
    A1Word35(key);
    A1Word32(key);
    SBoxRow7(w[35][0]);
    SBoxRow8(w[35][1]);
    SBoxRow2(w[35][2]);
    SBoxRow2(w[35][3]);
    XtimePowerValues();
    KeyScheduleWords(key, 4, 44, 36);
    TransformSpelled(w[35], 36, 4);
    XorWordSpelled(w[32], Transform(w[35], 36, 4));
  }

  /** Word 37 of the expansion of the key of appendix A.1. */
  lemma A1Word37(key: seq<bv8>)
    requires key == [0x2B, 0x7E, 0x15, 0x16, 0x28, 0xAE, 0xD2, 0xA6, 0xAB, 0xF7, 0x15, 0x88, 0x09, 0xCF, 0x4F, 0x3C]
    ensures KeySchedule(key, 4, 44)[37] == [0x19, 0xFA, 0xDC, 0x21]
  {
    hide KeySchedule, Transform;
    var w := KeySchedule(key, 4, 44);
    A1Word36(key);
    A1Word33(key);
    KeyScheduleWords(key, 4, 44, 37);
    TransformSpelled(w[36], 37, 4);
    XorWordSpelled(w[33], Transform(w[36], 37, 4));
  }

  /** Word 38 of the expansion of the key of appendix A.1. */
  lemma A1Word38(key: seq<bv8>)
    requires key == [0x2B, 0x7E, 0x15, 0x16, 0x28, 0xAE, 0xD2, 0xA6, 0xAB, 0xF7, 0x15, 0x88, 0x09, 0xCF, 0x4F, 0x3C]
    ensures KeySchedule(key, 4, 44)[38] == [0x28, 0xD1, 0x29, 0x41]
  {
    hide KeySchedule, Transform;
    var w := KeySchedule(key, 4, 44);
    A1Word37(key);
    A1Word34(key);
    KeyScheduleWords(key, 4, 44, 38);
    TransformSpelled(w[37], 38, 4);
    XorWordSpelled(w[34], Transform(w[37], 38, 4));
  }

  /** Word 39 of the expansion of the key of appendix A.1. */
  lemma A1Word39(key: seq<bv8>)
    requires key == [0x2B, 0x7E, 0x15, 0x16, 0x28, 0xAE, 0xD2, 0xA6, 0xAB, 0xF7, 0x15, 0x88, 0x09, 0xCF, 0x4F, 0x3C]
    ensures KeySchedule(key, 4, 44)[39] == [0x57, 0x5C, 0x00, 0x6E]
  {
    hide KeySchedule, Transform;
    var w := KeySchedule(key, 4, 44);
    A1Word38(key);
    A1Word35(key);
    KeyScheduleWords(key, 4, 44, 39);
    TransformSpelled(w[38], 39, 4);
    XorWordSpelled(w[35], Transform(w[38], 39, 4));
  }

  /** Word 40 of the expansion of the key of appendix A.1. */
  lemma A1Word40(key: seq<bv8>)
    requires key == [0x2B, 0x7E, 0x15, 0x16, 0x28, 0xAE, 0xD2, 0xA6, 0xAB, 0xF7, 0x15, 0x88, 0x09, 0xCF, 0x4F, 0x3C]
    ensures KeySchedule(key, 4, 44)[40] == [0xD0, 0x14, 0xF9, 0xA8]
  {
    hide KeySchedule, Transform, SBox, XtimePower;
    var w := KeySchedule(key, 4, 44);
    A1Word39(key);
    A1Word36(key);
    SBoxRow5(w[39][0]);
    SBoxRow5(w[39][1]);
    SBoxRow0(w[39][2]);
    SBoxRow6(w[39][3]);
    XtimePowerValues();
    KeyScheduleWords(key, 4, 44, 40);
    TransformSpelled(w[39], 40, 4);
    XorWordSpelled(w[36], Transform(w[39], 40, 4));
  }

  /** Word 41 of the expansion of the key of appendix A.1. */
  lemma A1Word41(key: seq<bv8>)
    requires key == [0x2B, 0x7E, 0x15, 0x16, 0x28, 0xAE, 0xD2, 0xA6, 0xAB, 0xF7, 0x15, 0x88, 0x09, 0xCF, 0x4F, 0x3C]
    ensures KeySchedule(key, 4, 44)[41] == [0xC9, 0xEE, 0x25, 0x89]
  {
    hide KeySchedule, Transform;
    var w := KeySchedule(key, 4, 44);
    A1Word40(key);
    A1Word37(key);
    KeyScheduleWords(key, 4, 44, 41);
    TransformSpelled(w[40], 41, 4);
    XorWordSpelled(w[37], Transform(w[40], 41, 4));
  }

  /** Word 42 of the expansion of the key of appendix A.1. */
  lemma A1Word42(key: seq<bv8>)
    requires key == [0x2B, 0x7E, 0x15, 0x16, 0x28, 0xAE, 0xD2, 0xA6, 0xAB, 0xF7, 0x15, 0x88, 0x09, 0xCF, 0x4F, 0x3C]
    ensures KeySchedule(key, 4, 44)[42] == [0xE1, 0x3F, 0x0C, 0xC8]
  {
    hide KeySchedule, Transform;
    var w := KeySchedule(key, 4, 44);
    A1Word41(key);
    A1Word38(key);
    KeyScheduleWords(key, 4, 44, 42);
    TransformSpelled(w[41], 42, 4);
    XorWordSpelled(w[38], Transform(w[41], 42, 4));
  }

  /** Word 43 of the expansion of the key of appendix A.1. */
  lemma A1Word43(key: seq<bv8>)
    requires key == [0x2B, 0x7E, 0x15, 0x16, 0x28, 0xAE, 0xD2, 0xA6, 0xAB, 0xF7, 0x15, 0x88, 0x09, 0xCF, 0x4F, 0x3C]
    ensures KeySchedule(key, 4, 44)[43] == [0xB6, 0x63, 0x0C, 0xA6]
  {
    hide KeySchedule, Transform;
    var w := KeySchedule(key, 4, 44);
    A1Word42(key);
    A1Word39(key);
    KeyScheduleWords(key, 4, 44, 43);
    TransformSpelled(w[42], 43, 4);
    XorWordSpelled(w[39], Transform(w[42], 43, 4));
  }

  // ------------------------------------------- the key of appendix A.3

  /** Word 0 of the expansion of the key of appendix A.3, one of the words of the key itself. */
  lemma A3Word0(key: seq<bv8>)
    requires key == [0x60, 0x3D, 0xEB, 0x10, 0x15, 0xCA, 0x71, 0xBE, 0x2B, 0x73, 0xAE, 0xF0, 0x85, 0x7D, 0x77, 0x81, 0x1F, 0x35, 0x2C, 0x07, 0x3B, 0x61, 0x08, 0xD7, 0x2D, 0x98, 0x10, 0xA3, 0x09, 0x14, 0xDF, 0xF4]
    ensures KeySchedule(key, 8, 60)[0] == [0x60, 0x3D, 0xEB, 0x10]
  {
    hide KeySchedule;
    KeyWordSpelled(key, 8, 60, 0);
  }

  /** Word 1 of the expansion of the key of appendix A.3, one of the words of the key itself. */
  lemma A3Word1(key: seq<bv8>)
    requires key == [0x60, 0x3D, 0xEB, 0x10, 0x15, 0xCA, 0x71, 0xBE, 0x2B, 0x73, 0xAE, 0xF0, 0x85, 0x7D, 0x77, 0x81, 0x1F, 0x35, 0x2C, 0x07, 0x3B, 0x61, 0x08, 0xD7, 0x2D, 0x98, 0x10, 0xA3, 0x09, 0x14, 0xDF, 0xF4]
    ensures KeySchedule(key, 8, 60)[1] == [0x15, 0xCA, 0x71, 0xBE]
  {
    hide KeySchedule;
    KeyWordSpelled(key, 8, 60, 1);
  }

  /** Word 2 of the expansion of the key of appendix A.3, one of the words of the key itself. */
  lemma A3Word2(key: seq<bv8>)
    requires key == [0x60, 0x3D, 0xEB, 0x10, 0x15, 0xCA, 0x71, 0xBE, 0x2B, 0x73, 0xAE, 0xF0, 0x85, 0x7D, 0x77, 0x81, 0x1F, 0x35, 0x2C, 0x07, 0x3B, 0x61, 0x08, 0xD7, 0x2D, 0x98, 0x10, 0xA3, 0x09, 0x14, 0xDF, 0xF4]
    ensures KeySchedule(key, 8, 60)[2] == [0x2B, 0x73, 0xAE, 0xF0]
  {
    hide KeySchedule;
    KeyWordSpelled(key, 8, 60, 2);
  }

  /** Word 3 of the expansion of the key of appendix A.3, one of the words of the key itself. */
  lemma A3Word3(key: seq<bv8>)
    requires key == [0x60, 0x3D, 0xEB, 0x10, 0x15, 0xCA, 0x71, 0xBE, 0x2B, 0x73, 0xAE, 0xF0, 0x85, 0x7D, 0x77, 0x81, 0x1F, 0x35, 0x2C, 0x07, 0x3B, 0x61, 0x08, 0xD7, 0x2D, 0x98, 0x10, 0xA3, 0x09, 0x14, 0xDF, 0xF4]
    ensures KeySchedule(key, 8, 60)[3] == [0x85, 0x7D, 0x77, 0x81]
  {
    hide KeySchedule;
    KeyWordSpelled(key, 8, 60, 3);
  }

  /** Word 4 of the expansion of the key of appendix A.3, one of the words of the key itself. */
  lemma A3Word4(key: seq<bv8>)
    requires key == [0x60, 0x3D, 0xEB, 0x10, 0x15, 0xCA, 0x71, 0xBE, 0x2B, 0x73, 0xAE, 0xF0, 0x85, 0x7D, 0x77, 0x81, 0x1F, 0x35, 0x2C, 0x07, 0x3B, 0x61, 0x08, 0xD7, 0x2D, 0x98, 0x10, 0xA3, 0x09, 0x14, 0xDF, 0xF4]
    ensures KeySchedule(key, 8, 60)[4] == [0x1F, 0x35, 0x2C, 0x07]
  {
    hide KeySchedule;
    KeyWordSpelled(key, 8, 60, 4);
  }

  /** Word 5 of the expansion of the key of appendix A.3, one of the words of the key itself. */
  lemma A3Word5(key: seq<bv8>)
    requires key == [0x60, 0x3D, 0xEB, 0x10, 0x15, 0xCA, 0x71, 0xBE, 0x2B, 0x73, 0xAE, 0xF0, 0x85, 0x7D, 0x77, 0x81, 0x1F, 0x35, 0x2C, 0x07, 0x3B, 0x61, 0x08, 0xD7, 0x2D, 0x98, 0x10, 0xA3, 0x09, 0x14, 0xDF, 0xF4]
    ensures KeySchedule(key, 8, 60)[5] == [0x3B, 0x61, 0x08, 0xD7]
  {
    hide KeySchedule;
    KeyWordSpelled(key, 8, 60, 5);
  }

  /** Word 6 of the expansion of the key of appendix A.3, one of the words of the key itself. */
  lemma A3Word6(key: seq<bv8>)
    requires key == [0x60, 0x3D, 0xEB, 0x10, 0x15, 0xCA, 0x71, 0xBE, 0x2B, 0x73, 0xAE, 0xF0, 0x85, 0x7D, 0x77, 0x81, 0x1F, 0x35, 0x2C, 0x07, 0x3B, 0x61, 0x08, 0xD7, 0x2D, 0x98, 0x10, 0xA3, 0x09, 0x14, 0xDF, 0xF4]
    ensures KeySchedule(key, 8, 60)[6] == [0x2D, 0x98, 0x10, 0xA3]
  {
    hide KeySchedule;
    KeyWordSpelled(key, 8, 60, 6);
  }

  /** Word 7 of the expansion of the key of appendix A.3, one of the words of the key itself. */
  lemma A3Word7(key: seq<bv8>)
    requires key == [0x60, 0x3D, 0xEB, 0x10, 0x15, 0xCA, 0x71, 0xBE, 0x2B, 0x73, 0xAE, 0xF0, 0x85, 0x7D, 0x77, 0x81, 0x1F, 0x35, 0x2C, 0x07, 0x3B, 0x61, 0x08, 0xD7, 0x2D, 0x98, 0x10, 0xA3, 0x09, 0x14, 0xDF, 0xF4]
    ensures KeySchedule(key, 8, 60)[7] == [0x09, 0x14, 0xDF, 0xF4]
  {
    hide KeySchedule;
    KeyWordSpelled(key, 8, 60, 7);
  }

  /** Word 8 of the expansion of the key of appendix A.3. */
  lemma A3Word8(key: seq<bv8>)
    requires key == [0x60, 0x3D, 0xEB, 0x10, 0x15, 0xCA, 0x71, 0xBE, 0x2B, 0x73, 0xAE, 0xF0, 0x85, 0x7D, 0x77, 0x81, 0x1F, 0x35, 0x2C, 0x07, 0x3B, 0x61, 0x08, 0xD7, 0x2D, 0x98, 0x10, 0xA3, 0x09, 0x14, 0xDF, 0xF4]
    ensures KeySchedule(key, 8, 60)[8] == [0x9B, 0xA3, 0x54, 0x11]
  {
    hide KeySchedule, Transform, SBox, XtimePower;
    var w := KeySchedule(key, 8, 60);
    A3Word7(key);
    A3Word0(key);
    SBoxRow0(w[7][0]);
    SBoxRow1(w[7][1]);
    SBoxRowD(w[7][2]);
    SBoxRowF(w[7][3]);
    XtimePowerValues();
    KeyScheduleWords(key, 8, 60, 8);
    TransformSpelled(w[7], 8, 8);
    XorWordSpelled(w[0], Transform(w[7], 8, 8));
  }

  /** Word 9 of the expansion of the key of appendix A.3. */
  lemma A3Word9(key: seq<bv8>)
    requires key == [0x60, 0x3D, 0xEB, 0x10, 0x15, 0xCA, 0x71, 0xBE, 0x2B, 0x73, 0xAE, 0xF0, 0x85, 0x7D, 0x77, 0x81, 0x1F, 0x35, 0x2C, 0x07, 0x3B, 0x61, 0x08, 0xD7, 0x2D, 0x98, 0x10, 0xA3, 0x09, 0x14, 0xDF, 0xF4]
    ensures KeySchedule(key, 8, 60)[9] == [0x8E, 0x69, 0x25, 0xAF]
  {
    hide KeySchedule, Transform;
    var w := KeySchedule(key, 8, 60);
    A3Word8(key);
    A3Word1(key);
    KeyScheduleWords(key, 8, 60, 9);
    TransformSpelled(w[8], 9, 8);
    XorWordSpelled(w[1], Transform(w[8], 9, 8));
  }

  /** Word 10 of the expansion of the key of appendix A.3. */
  lemma A3Word10(key: seq<bv8>)
    requires key == [0x60, 0x3D, 0xEB, 0x10, 0x15, 0xCA, 0x71, 0xBE, 0x2B, 0x73, 0xAE, 0xF0, 0x85, 0x7D, 0x77, 0x81, 0x1F, 0x35, 0x2C, 0x07, 0x3B, 0x61, 0x08, 0xD7, 0x2D, 0x98, 0x10, 0xA3, 0x09, 0x14, 0xDF, 0xF4]
    ensures KeySchedule(key, 8, 60)[10] == [0xA5, 0x1A, 0x8B, 0x5F]
  {
    hide KeySchedule, Transform;
    var w := KeySchedule(key, 8, 60);
    A3Word9(key);
    A3Word2(key);
    KeyScheduleWords(key, 8, 60, 10);
    TransformSpelled(w[9], 10, 8);
    XorWordSpelled(w[2], Transform(w[9], 10, 8));
  }

  /** Word 11 of the expansion of the key of appendix A.3. */
  lemma A3Word11(key: seq<bv8>)
    requires key == [0x60, 0x3D, 0xEB, 0x10, 0x15, 0xCA, 0x71, 0xBE, 0x2B, 0x73, 0xAE, 0xF0, 0x85, 0x7D, 0x77, 0x81, 0x1F, 0x35, 0x2C, 0x07, 0x3B, 0x61, 0x08, 0xD7, 0x2D, 0x98, 0x10, 0xA3, 0x09, 0x14, 0xDF, 0xF4]
    ensures KeySchedule(key, 8, 60)[11] == [0x20, 0x67, 0xFC, 0xDE]
  {
    hide KeySchedule, Transform;
    var w := KeySchedule(key, 8, 60);
    A3Word10(key);
    A3Word3(key);
    KeyScheduleWords(key, 8, 60, 11);
    TransformSpelled(w[10], 11, 8);
    XorWordSpelled(w[3], Transform(w[10], 11, 8));
  }

  /** Word 12 of the expansion of the key of appendix A.3. */
  lemma A3Word12(key: seq<bv8>)
    requires key == [0x60, 0x3D, 0xEB, 0x10, 0x15, 0xCA, 0x71, 0xBE, 0x2B, 0x73, 0xAE, 0xF0, 0x85, 0x7D, 0x77, 0x81, 0x1F, 0x35, 0x2C, 0x07, 0x3B, 0x61, 0x08, 0xD7, 0x2D, 0x98, 0x10, 0xA3, 0x09, 0x14, 0xDF, 0xF4]
    ensures KeySchedule(key, 8, 60)[12] == [0xA8, 0xB0, 0x9C, 0x1A]
  {
    hide KeySchedule, Transform, SBox;
    var w := KeySchedule(key, 8, 60);
    A3Word11(key);
    A3Word4(key);
    SBoxRow2(w[11][0]);
    SBoxRow6(w[11][1]);
    SBoxRowF(w[11][2]);
    SBoxRowD(w[11][3]);
    KeyScheduleWords(key, 8, 60, 12);
    TransformSpelled(w[11], 12, 8);
    XorWordSpelled(w[4], Transform(w[11], 12, 8));
  }

  /** Word 13 of the expansion of the key of appendix A.3. */
  lemma A3Word13(key: seq<bv8>)
    requires key == [0x60, 0x3D, 0xEB, 0x10, 0x15, 0xCA, 0x71, 0xBE, 0x2B, 0x73, 0xAE, 0xF0, 0x85, 0x7D, 0x77, 0x81, 0x1F, 0x35, 0x2C, 0x07, 0x3B, 0x61, 0x08, 0xD7, 0x2D, 0x98, 0x10, 0xA3, 0x09, 0x14, 0xDF, 0xF4]
    ensures KeySchedule(key, 8, 60)[13] == [0x93, 0xD1, 0x94, 0xCD]
  {
    hide KeySchedule, Transform;
    var w := KeySchedule(key, 8, 60);
    A3Word12(key);
    A3Word5(key);
    KeyScheduleWords(key, 8, 60, 13);
    TransformSpelled(w[12], 13, 8);
    XorWordSpelled(w[5], Transform(w[12], 13, 8));
  }

  /** Word 14 of the expansion of the key of appendix A.3. */
  lemma A3Word14(key: seq<bv8>)
    requires key == [0x60, 0x3D, 0xEB, 0x10, 0x15, 0xCA, 0x71, 0xBE, 0x2B, 0x73, 0xAE, 0xF0, 0x85, 0x7D, 0x77, 0x81, 0x1F, 0x35, 0x2C, 0x07, 0x3B, 0x61, 0x08, 0xD7, 0x2D, 0x98, 0x10, 0xA3, 0x09, 0x14, 0xDF, 0xF4]
    ensures KeySchedule(key, 8, 60)[14] == [0xBE, 0x49, 0x84, 0x6E]
  {
    hide KeySchedule, Transform;
    var w := KeySchedule(key, 8, 60);
    A3Word13(key);
    A3Word6(key);
    KeyScheduleWords(key, 8, 60, 14);
    TransformSpelled(w[13], 14, 8);
    XorWordSpelled(w[6], Transform(w[13], 14, 8));
  }

  /** Word 15 of the expansion of the key of appendix A.3. */
  lemma A3Word15(key: seq<bv8>)
    requires key == [0x60, 0x3D, 0xEB, 0x10, 0x15, 0xCA, 0x71, 0xBE, 0x2B, 0x73, 0xAE, 0xF0, 0x85, 0x7D, 0x77, 0x81, 0x1F, 0x35, 0x2C, 0x07, 0x3B, 0x61, 0x08, 0xD7, 0x2D, 0x98, 0x10, 0xA3, 0x09, 0x14, 0xDF, 0xF4]
    ensures KeySchedule(key, 8, 60)[15] == [0xB7, 0x5D, 0x5B, 0x9A]
  {
    hide KeySchedule, Transform;
    var w := KeySchedule(key, 8, 60);
    A3Word14(key);
    A3Word7(key);
    KeyScheduleWords(key, 8, 60, 15);
    TransformSpelled(w[14], 15, 8);
    XorWordSpelled(w[7], Transform(w[14], 15, 8));
  }

  /** Word 16 of the expansion of the key of appendix A.3. */
  lemma A3Word16(key: seq<bv8>)
    requires key == [0x60, 0x3D, 0xEB, 0x10, 0x15, 0xCA, 0x71, 0xBE, 0x2B, 0x73, 0xAE, 0xF0, 0x85, 0x7D, 0x77, 0x81, 0x1F, 0x35, 0x2C, 0x07, 0x3B, 0x61, 0x08, 0xD7, 0x2D, 0x98, 0x10, 0xA3, 0x09, 0x14, 0xDF, 0xF4]
    ensures KeySchedule(key, 8, 60)[16] == [0xD5, 0x9A, 0xEC, 0xB8]
  {
    hide KeySchedule, Transform, SBox, XtimePower;
    var w := KeySchedule(key, 8, 60);
    A3Word15(key);
    A3Word8(key);
    SBoxRowB(w[15][0]);
    SBoxRow5(w[15][1]);
    SBoxRow5(w[15][2]);
    SBoxRow9(w[15][3]);
    XtimePowerValues();
    KeyScheduleWords(key, 8, 60, 16);
    TransformSpelled(w[15], 16, 8);
    XorWordSpelled(w[8], Transform(w[15], 16, 8));
  }

  /** Word 17 of the expansion of the key of appendix A.3. */
  lemma A3Word17(key: seq<bv8>)
    requires key == [0x60, 0x3D, 0xEB, 0x10, 0x15, 0xCA, 0x71, 0xBE, 0x2B, 0x73, 0xAE, 0xF0, 0x85, 0x7D, 0x77, 0x81, 0x1F, 0x35, 0x2C, 0x07, 0x3B, 0x61, 0x08, 0xD7, 0x2D, 0x98, 0x10, 0xA3, 0x09, 0x14, 0xDF, 0xF4]
    ensures KeySchedule(key, 8, 60)[17] == [0x5B, 0xF3, 0xC9, 0x17]
  {
    hide KeySchedule, Transform;
    var w := KeySchedule(key, 8, 60);
    A3Word16(key);
    A3Word9(key);
    KeyScheduleWords(key, 8, 60, 17);
    TransformSpelled(w[16], 17, 8);
    XorWordSpelled(w[9], Transform(w[16], 17, 8));
  }

  /** Word 18 of the expansion of the key of appendix A.3. */
  lemma A3Word18(key: seq<bv8>)
    requires key == [0x60, 0x3D, 0xEB, 0x10, 0x15, 0xCA, 0x71, 0xBE, 0x2B, 0x73, 0xAE, 0xF0, 0x85, 0x7D, 0x77, 0x81, 0x1F, 0x35, 0x2C, 0x07, 0x3B, 0x61, 0x08, 0xD7, 0x2D, 0x98, 0x10, 0xA3, 0x09, 0x14, 0xDF, 0xF4]
    ensures KeySchedule(key, 8, 60)[18] == [0xFE, 0xE9, 0x42, 0x48]
  {
    hide KeySchedule, Transform;
    var w := KeySchedule(key, 8, 60);
    A3Word17(key);
    A3Word10(key);
    KeyScheduleWords(key, 8, 60, 18);
    TransformSpelled(w[17], 18, 8);
    XorWordSpelled(w[10], Transform(w[17], 18, 8));
  }

  /** Word 19 of the expansion of the key of appendix A.3. */
  lemma A3Word19(key: seq<bv8>)
    requires key == [0x60, 0x3D, 0xEB, 0x10, 0x15, 0xCA, 0x71, 0xBE, 0x2B, 0x73, 0xAE, 0xF0, 0x85, 0x7D, 0x77, 0x81, 0x1F, 0x35, 0x2C, 0x07, 0x3B, 0x61, 0x08, 0xD7, 0x2D, 0x98, 0x10, 0xA3, 0x09, 0x14, 0xDF, 0xF4]
    ensures KeySchedule(key, 8, 60)[19] == [0xDE, 0x8E, 0xBE, 0x96]
  {
    hide KeySchedule, Transform;
    var w := KeySchedule(key, 8, 60);
    A3Word18(key);
    A3Word11(key);
    KeyScheduleWords(key, 8, 60, 19);
    TransformSpelled(w[18], 19, 8);
    XorWordSpelled(w[11], Transform(w[18], 19, 8));
  }

  /** Word 20 of the expansion of the key of appendix A.3. */
  lemma A3Word20(key: seq<bv8>)
    requires key == [0x60, 0x3D, 0xEB, 0x10, 0x15, 0xCA, 0x71, 0xBE, 0x2B, 0x73, 0xAE, 0xF0, 0x85, 0x7D, 0x77, 0x81, 0x1F, 0x35, 0x2C, 0x07, 0x3B, 0x61, 0x08, 0xD7, 0x2D, 0x98, 0x10, 0xA3, 0x09, 0x14, 0xDF, 0xF4]
    ensures KeySchedule(key, 8, 60)[20] == [0xB5, 0xA9, 0x32, 0x8A]
  {
    hide KeySchedule, Transform, SBox;
    var w := KeySchedule(key, 8, 60);
    A3Word19(key);
    A3Word12(key);
    SBoxRowD(w[19][0]);
    SBoxRow8(w[19][1]);
    SBoxRowB(w[19][2]);
    SBoxRow9(w[19][3]);
    KeyScheduleWords(key, 8, 60, 20);
    TransformSpelled(w[19], 20, 8);
    XorWordSpelled(w[12], Transform(w[19], 20, 8));
  }

  /** Word 21 of the expansion of the key of appendix A.3. */
  lemma A3Word21(key: seq<bv8>)
    requires key == [0x60, 0x3D, 0xEB, 0x10, 0x15, 0xCA, 0x71, 0xBE, 0x2B, 0x73, 0xAE, 0xF0, 0x85, 0x7D, 0x77, 0x81, 0x1F, 0x35, 0x2C, 0x07, 0x3B, 0x61, 0x08, 0xD7, 0x2D, 0x98, 0x10, 0xA3, 0x09, 0x14, 0xDF, 0xF4]
    ensures KeySchedule(key, 8, 60)[21] == [0x26, 0x78, 0xA6, 0x47]
  {
    hide KeySchedule, Transform;
    var w := KeySchedule(key, 8, 60);
    A3Word20(key);
    A3Word13(key);
    KeyScheduleWords(key, 8, 60, 21);
    TransformSpelled(w[20], 21, 8);
    XorWordSpelled(w[13], Transform(w[20], 21, 8));
  }

  /** Word 22 of the expansion of the key of appendix A.3. */
  lemma A3Word22(key: seq<bv8>)
    requires key == [0x60, 0x3D, 0xEB, 0x10, 0x15, 0xCA, 0x71, 0xBE, 0x2B, 0x73, 0xAE, 0xF0, 0x85, 0x7D, 0x77, 0x81, 0x1F, 0x35, 0x2C, 0x07, 0x3B, 0x61, 0x08, 0xD7, 0x2D, 0x98, 0x10, 0xA3, 0x09, 0x14, 0xDF, 0xF4]
    ensures KeySchedule(key, 8, 60)[22] == [0x98, 0x31, 0x22, 0x29]
  {
    hide KeySchedule, Transform;
    var w := KeySchedule(key, 8, 60);
    A3Word21(key);
    A3Word14(key);
    KeyScheduleWords(key, 8, 60, 22);
    TransformSpelled(w[21], 22, 8);
    XorWordSpelled(w[14], Transform(w[21], 22, 8));
  }

  /** Word 23 of the expansion of the key of appendix A.3. */
  lemma A3Word23(key: seq<bv8>)
    requires key == [0x60, 0x3D, 0xEB, 0x10, 0x15, 0xCA, 0x71, 0xBE, 0x2B, 0x73, 0xAE, 0xF0, 0x85, 0x7D, 0x77, 0x81, 0x1F, 0x35, 0x2C, 0x07, 0x3B, 0x61, 0x08, 0xD7, 0x2D, 0x98, 0x10, 0xA3, 0x09, 0x14, 0xDF, 0xF4]
    ensures KeySchedule(key, 8, 60)[23] == [0x2F, 0x6C, 0x79, 0xB3]
  {
    hide KeySchedule, Transform;
    var w := KeySchedule(key, 8, 60);
    A3Word22(key);
    A3Word15(key);
    KeyScheduleWords(key, 8, 60, 23);
    TransformSpelled(w[22], 23, 8);
    XorWordSpelled(w[15], Transform(w[22], 23, 8));
  }

  /** Word 24 of the expansion of the key of appendix A.3. */
  lemma A3Word24(key: seq<bv8>)
    requires key == [0x60, 0x3D, 0xEB, 0x10, 0x15, 0xCA, 0x71, 0xBE, 0x2B, 0x73, 0xAE, 0xF0, 0x85, 0x7D, 0x77, 0x81, 0x1F, 0x35, 0x2C, 0x07, 0x3B, 0x61, 0x08, 0xD7, 0x2D, 0x98, 0x10, 0xA3, 0x09, 0x14, 0xDF, 0xF4]
    ensures KeySchedule(key, 8, 60)[24] == [0x81, 0x2C, 0x81, 0xAD]
  {
    hide KeySchedule, Transform, SBox, XtimePower;
    var w := KeySchedule(key, 8, 60);
    A3Word23(key);
    A3Word16(key);
    SBoxRow2(w[23][0]);
    SBoxRow6(w[23][1]);
    SBoxRow7(w[23][2]);
    SBoxRowB(w[23][3]);
    XtimePowerValues();
    KeyScheduleWords(key, 8, 60, 24);
    TransformSpelled(w[23], 24, 8);
    XorWordSpelled(w[16], Transform(w[23], 24, 8));
  }

  /** Word 25 of the expansion of the key of appendix A.3. */
  lemma A3Word25(key: seq<bv8>)
    requires key == [0x60, 0x3D, 0xEB, 0x10, 0x15, 0xCA, 0x71, 0xBE, 0x2B, 0x73, 0xAE, 0xF0, 0x85, 0x7D, 0x77, 0x81, 0x1F, 0x35, 0x2C, 0x07, 0x3B, 0x61, 0x08, 0xD7, 0x2D, 0x98, 0x10, 0xA3, 0x09, 0x14, 0xDF, 0xF4]
    ensures KeySchedule(key, 8, 60)[25] == [0xDA, 0xDF, 0x48, 0xBA]
  {
    hide KeySchedule, Transform;
    var w := KeySchedule(key, 8, 60);
    A3Word24(key);
    A3Word17(key);
    KeyScheduleWords(key, 8, 60, 25);
    TransformSpelled(w[24], 25, 8);
    XorWordSpelled(w[17], Transform(w[24], 25, 8));
  }

  /** Word 26 of the expansion of the key of appendix A.3. */
  lemma A3Word26(key: seq<bv8>)
    requires key == [0x60, 0x3D, 0xEB, 0x10, 0x15, 0xCA, 0x71, 0xBE, 0x2B, 0x73, 0xAE, 0xF0, 0x85, 0x7D, 0x77, 0x81, 0x1F, 0x35, 0x2C, 0x07, 0x3B, 0x61, 0x08, 0xD7, 0x2D, 0x98, 0x10, 0xA3, 0x09, 0x14, 0xDF, 0xF4]
    ensures KeySchedule(key, 8, 60)[26] == [0x24, 0x36, 0x0A, 0xF2]
  {
    hide KeySchedule, Transform;
    var w := KeySchedule(key, 8, 60);
    A3Word25(key);
    A3Word18(key);
    KeyScheduleWords(key, 8, 60, 26);
    TransformSpelled(w[25], 26, 8);
    XorWordSpelled(w[18], Transform(w[25], 26, 8));
  }

  /** Word 27 of the expansion of the key of appendix A.3. */
  lemma A3Word27(key: seq<bv8>)
    requires key == [0x60, 0x3D, 0xEB, 0x10, 0x15, 0xCA, 0x71, 0xBE, 0x2B, 0x73, 0xAE, 0xF0, 0x85, 0x7D, 0x77, 0x81, 0x1F, 0x35, 0x2C, 0x07, 0x3B, 0x61, 0x08, 0xD7, 0x2D, 0x98, 0x10, 0xA3, 0x09, 0x14, 0xDF, 0xF4]
    ensures KeySchedule(key, 8, 60)[27] == [0xFA, 0xB8, 0xB4, 0x64]
  {
    hide KeySchedule, Transform;
    var w := KeySchedule(key, 8, 60);
    A3Word26(key);
    A3Word19(key);
    KeyScheduleWords(key, 8, 60, 27);
    TransformSpelled(w[26], 27, 8);
    XorWordSpelled(w[19], Transform(w[26], 27, 8));
  }

  /** Word 28 of the expansion of the key of appendix A.3. */
  lemma A3Word28(key: seq<bv8>)
    requires key == [0x60, 0x3D, 0xEB, 0x10, 0x15, 0xCA, 0x71, 0xBE, 0x2B, 0x73, 0xAE, 0xF0, 0x85, 0x7D, 0x77, 0x81, 0x1F, 0x35, 0x2C, 0x07, 0x3B, 0x61, 0x08, 0xD7, 0x2D, 0x98, 0x10, 0xA3, 0x09, 0x14, 0xDF, 0xF4]
    ensures KeySchedule(key, 8, 60)[28] == [0x98, 0xC5, 0xBF, 0xC9]
  {
    hide KeySchedule, Transform, SBox;
    var w := KeySchedule(key, 8, 60);
    A3Word27(key);
    A3Word20(key);
    SBoxRowF(w[27][0]);
    SBoxRowB(w[27][1]);
    SBoxRowB(w[27][2]);
    SBoxRow6(w[27][3]);
    KeyScheduleWords(key, 8, 60, 28);
    TransformSpelled(w[27], 28, 8);
    XorWordSpelled(w[20], Transform(w[27], 28, 8));
  }

  /** Word 29 of the expansion of the key of appendix A.3. */
  lemma A3Word29(key: seq<bv8>)
    requires key == [0x60, 0x3D, 0xEB, 0x10, 0x15, 0xCA, 0x71, 0xBE, 0x2B, 0x73, 0xAE, 0xF0, 0x85, 0x7D, 0x77, 0x81, 0x1F, 0x35, 0x2C, 0x07, 0x3B, 0x61, 0x08, 0xD7, 0x2D, 0x98, 0x10, 0xA3, 0x09, 0x14, 0xDF, 0xF4]
    ensures KeySchedule(key, 8, 60)[29] == [0xBE, 0xBD, 0x19, 0x8E]
  {
    hide KeySchedule, Transform;
    var w := KeySchedule(key, 8, 60);
    A3Word28(key);
    A3Word21(key);
    KeyScheduleWords(key, 8, 60, 29);
    TransformSpelled(w[28], 29, 8);
    XorWordSpelled(w[21], Transform(w[28], 29, 8));
  }

  /** Word 30 of the expansion of the key of appendix A.3. */
  lemma A3Word30(key: seq<bv8>)
    requires key == [0x60, 0x3D, 0xEB, 0x10, 0x15, 0xCA, 0x71, 0xBE, 0x2B, 0x73, 0xAE, 0xF0, 0x85, 0x7D, 0x77, 0x81, 0x1F, 0x35, 0x2C, 0x07, 0x3B, 0x61, 0x08, 0xD7, 0x2D, 0x98, 0x10, 0xA3, 0x09, 0x14, 0xDF, 0xF4]
    ensures KeySchedule(key, 8, 60)[30] == [0x26, 0x8C, 0x3B, 0xA7]
  {
    hide KeySchedule, Transform;
    var w := KeySchedule(key, 8, 60);
    A3Word29(key);
    A3Word22(key);
    KeyScheduleWords(key, 8, 60, 30);
    TransformSpelled(w[29], 30, 8);
    XorWordSpelled(w[22], Transform(w[29], 30, 8));
  }

  /** Word 31 of the expansion of the key of appendix A.3. */
  lemma A3Word31(key: seq<bv8>)
    requires key == [0x60, 0x3D, 0xEB, 0x10, 0x15, 0xCA, 0x71, 0xBE, 0x2B, 0x73, 0xAE, 0xF0, 0x85, 0x7D, 0x77, 0x81, 0x1F, 0x35, 0x2C, 0x07, 0x3B, 0x61, 0x08, 0xD7, 0x2D, 0x98, 0x10, 0xA3, 0x09, 0x14, 0xDF, 0xF4]
    ensures KeySchedule(key, 8, 60)[31] == [0x09, 0xE0, 0x42, 0x14]
  {
    hide KeySchedule, Transform;
    var w := KeySchedule(key, 8, 60);
    A3Word30(key);
    A3Word23(key);
    KeyScheduleWords(key, 8, 60, 31);
    TransformSpelled(w[30], 31, 8);
    XorWordSpelled(w[23], Transform(w[30], 31, 8));
  }

  /** Word 32 of the expansion of the key of appendix A.3. */
  lemma A3Word32(key: seq<bv8>)
    requires key == [0x60, 0x3D, 0xEB, 0x10, 0x15, 0xCA, 0x71, 0xBE, 0x2B, 0x73, 0xAE, 0xF0, 0x85, 0x7D, 0x77, 0x81, 0x1F, 0x35, 0x2C, 0x07, 0x3B, 0x61, 0x08, 0xD7, 0x2D, 0x98, 0x10, 0xA3, 0x09, 0x14, 0xDF, 0xF4]
    ensures KeySchedule(key, 8, 60)[32] == [0x68, 0x00, 0x7B, 0xAC]
  {
    hide KeySchedule, Transform, SBox, XtimePower;
    var w := KeySchedule(key, 8, 60);
    A3Word31(key);
    A3Word24(key);
    SBoxRow0(w[31][0]);
    SBoxRowE(w[31][1]);
    SBoxRow4(w[31][2]);
    SBoxRow1(w[31][3]);
    XtimePowerValues();
    KeyScheduleWords(key, 8, 60, 32);
    TransformSpelled(w[31], 32, 8);
    XorWordSpelled(w[24], Transform(w[31], 32, 8));
  }

  /** Word 33 of the expansion of the key of appendix A.3. */
  lemma A3Word33(key: seq<bv8>)
    requires key == [0x60, 0x3D, 0xEB, 0x10, 0x15, 0xCA, 0x71, 0xBE, 0x2B, 0x73, 0xAE, 0xF0, 0x85, 0x7D, 0x77, 0x81, 0x1F, 0x35, 0x2C, 0x07, 0x3B, 0x61, 0x08, 0xD7, 0x2D, 0x98, 0x10, 0xA3, 0x09, 0x14, 0xDF, 0xF4]
    ensures KeySchedule(key, 8, 60)[33] == [0xB2, 0xDF, 0x33, 0x16]
  {
    hide KeySchedule, Transform;
    var w := KeySchedule(key, 8, 60);
    A3Word32(key);
    A3Word25(key);
    KeyScheduleWords(key, 8, 60, 33);
    TransformSpelled(w[32], 33, 8);
    XorWordSpelled(w[25], Transform(w[32], 33, 8));
  }

  /** Word 34 of the expansion of the key of appendix A.3. */
  lemma A3Word34(key: seq<bv8>)
    requires key == [0x60, 0x3D, 0xEB, 0x10, 0x15, 0xCA, 0x71, 0xBE, 0x2B, 0x73, 0xAE, 0xF0, 0x85, 0x7D, 0x77, 0x81, 0x1F, 0x35, 0x2C, 0x07, 0x3B, 0x61, 0x08, 0xD7, 0x2D, 0x98, 0x10, 0xA3, 0x09, 0x14, 0xDF, 0xF4]
    ensures KeySchedule(key, 8, 60)[34] == [0x96, 0xE9, 0x39, 0xE4]
  {
    hide KeySchedule, Transform;
    var w := KeySchedule(key, 8, 60);
    A3Word33(key);
    A3Word26(key);
    KeyScheduleWords(key, 8, 60, 34);
    TransformSpelled(w[33], 34, 8);
    XorWordSpelled(w[26], Transform(w[33], 34, 8));
  }

  /** Word 35 of the expansion of the key of appendix A.3. */
  lemma A3Word35(key: seq<bv8>)
    requires key == [0x60, 0x3D, 0xEB, 0x10, 0x15, 0xCA, 0x71, 0xBE, 0x2B, 0x73, 0xAE, 0xF0, 0x85, 0x7D, 0x77, 0x81, 0x1F, 0x35, 0x2C, 0x07, 0x3B, 0x61, 0x08, 0xD7, 0x2D, 0x98, 0x10, 0xA3, 0x09, 0x14, 0xDF, 0xF4]
    ensures KeySchedule(key, 8, 60)[35] == [0x6C, 0x51, 0x8D, 0x80]
  {
    hide KeySchedule, Transform;
    var w := KeySchedule(key, 8, 60);
    A3Word34(key);
    A3Word27(key);
    KeyScheduleWords(key, 8, 60, 35);
    TransformSpelled(w[34], 35, 8);
    XorWordSpelled(w[27], Transform(w[34], 35, 8));
  }

  /** Word 36 of the expansion of the key of appendix A.3. */
  lemma A3Word36(key: seq<bv8>)
    requires key == [0x60, 0x3D, 0xEB, 0x10, 0x15, 0xCA, 0x71, 0xBE, 0x2B, 0x73, 0xAE, 0xF0, 0x85, 0x7D, 0x77, 0x81, 0x1F, 0x35, 0x2C, 0x07, 0x3B, 0x61, 0x08, 0xD7, 0x2D, 0x98, 0x10, 0xA3, 0x09, 0x14, 0xDF, 0xF4]
    ensures KeySchedule(key, 8, 60)[36] == [0xC8, 0x14, 0xE2, 0x04]
  {
    hide KeySchedule, Transform, SBox;
    var w := KeySchedule(key, 8, 60);
    A3Word35(key);
    A3Word28(key);
    SBoxRow6(w[35][0]);
    SBoxRow5(w[35][1]);
    SBoxRow8(w[35][2]);
    SBoxRow8(w[35][3]);
    KeyScheduleWords(key, 8, 60, 36);
    TransformSpelled(w[35], 36, 8);
    XorWordSpelled(w[28], Transform(w[35], 36, 8));
  }

  /** Word 37 of the expansion of the key of appendix A.3. */
  lemma A3Word37(key: seq<bv8>)
    requires key == [0x60, 0x3D, 0xEB, 0x10, 0x15, 0xCA, 0x71, 0xBE, 0x2B, 0x73, 0xAE, 0xF0, 0x85, 0x7D, 0x77, 0x81, 0x1F, 0x35, 0x2C, 0x07, 0x3B, 0x61, 0x08, 0xD7, 0x2D, 0x98, 0x10, 0xA3, 0x09, 0x14, 0xDF, 0xF4]
    ensures KeySchedule(key, 8, 60)[37] == [0x76, 0xA9, 0xFB, 0x8A]
  {
    hide KeySchedule, Transform;
    var w := KeySchedule(key, 8, 60);
    A3Word36(key);
    A3Word29(key);
    KeyScheduleWords(key, 8, 60, 37);
    TransformSpelled(w[36], 37, 8);
    XorWordSpelled(w[29], Transform(w[36], 37, 8));
  }

  /** Word 38 of the expansion of the key of appendix A.3. */
  lemma A3Word38(key: seq<bv8>)
    requires key == [0x60, 0x3D, 0xEB, 0x10, 0x15, 0xCA, 0x71, 0xBE, 0x2B, 0x73, 0xAE, 0xF0, 0x85, 0x7D, 0x77, 0x81, 0x1F, 0x35, 0x2C, 0x07, 0x3B, 0x61, 0x08, 0xD7, 0x2D, 0x98, 0x10, 0xA3, 0x09, 0x14, 0xDF, 0xF4]
    ensures KeySchedule(key, 8, 60)[38] == [0x50, 0x25, 0xC0, 0x2D]
  {
    hide KeySchedule, Transform;
    var w := KeySchedule(key, 8, 60);
    A3Word37(key);
    A3Word30(key);
    KeyScheduleWords(key, 8, 60, 38);
    TransformSpelled(w[37], 38, 8);
    XorWordSpelled(w[30], Transform(w[37], 38, 8));
  }

  /** Word 39 of the expansion of the key of appendix A.3. */
  lemma A3Word39(key: seq<bv8>)
    requires key == [0x60, 0x3D, 0xEB, 0x10, 0x15, 0xCA, 0x71, 0xBE, 0x2B, 0x73, 0xAE, 0xF0, 0x85, 0x7D, 0x77, 0x81, 0x1F, 0x35, 0x2C, 0x07, 0x3B, 0x61, 0x08, 0xD7, 0x2D, 0x98, 0x10, 0xA3, 0x09, 0x14, 0xDF, 0xF4]
    ensures KeySchedule(key, 8, 60)[39] == [0x59, 0xC5, 0x82, 0x39]
  {
    hide KeySchedule, Transform;
    var w := KeySchedule(key, 8, 60);
    A3Word38(key);
    A3Word31(key);
    KeyScheduleWords(key, 8, 60, 39);
    TransformSpelled(w[38], 39, 8);
    XorWordSpelled(w[31], Transform(w[38], 39, 8));
  }

  /** Word 40 of the expansion of the key of appendix A.3. */
  lemma A3Word40(key: seq<bv8>)
    requires key == [0x60, 0x3D, 0xEB, 0x10, 0x15, 0xCA, 0x71, 0xBE, 0x2B, 0x73, 0xAE, 0xF0, 0x85, 0x7D, 0x77, 0x81, 0x1F, 0x35, 0x2C, 0x07, 0x3B, 0x61, 0x08, 0xD7, 0x2D, 0x98, 0x10, 0xA3, 0x09, 0x14, 0xDF, 0xF4]
    ensures KeySchedule(key, 8, 60)[40] == [0xDE, 0x13, 0x69, 0x67]
  {
    hide KeySchedule, Transform, SBox, XtimePower;
    var w := KeySchedule(key, 8, 60);
    A3Word39(key);
    A3Word32(key);
    SBoxRow5(w[39][0]);
    SBoxRowC(w[39][1]);
    SBoxRow8(w[39][2]);
    SBoxRow3(w[39][3]);
    XtimePowerValues();
    KeyScheduleWords(key, 8, 60, 40);
    TransformSpelled(w[39], 40, 8);
    XorWordSpelled(w[32], Transform(w[39], 40, 8));
  }

  /** Word 41 of the expansion of the key of appendix A.3. */
  lemma A3Word41(key: seq<bv8>)
    requires key == [0x60, 0x3D, 0xEB, 0x10, 0x15, 0xCA, 0x71, 0xBE, 0x2B, 0x73, 0xAE, 0xF0, 0x85, 0x7D, 0x77, 0x81, 0x1F, 0x35, 0x2C, 0x07, 0x3B, 0x61, 0x08, 0xD7, 0x2D, 0x98, 0x10, 0xA3, 0x09, 0x14, 0xDF, 0xF4]
    ensures KeySchedule(key, 8, 60)[41] == [0x6C, 0xCC, 0x5A, 0x71]
  {
    hide KeySchedule, Transform;
    var w := KeySchedule(key, 8, 60);
    A3Word40(key);
    A3Word33(key);
    KeyScheduleWords(key, 8, 60, 41);
    TransformSpelled(w[40], 41, 8);
    XorWordSpelled(w[33], Transform(w[40], 41, 8));
  }

  /** Word 42 of the expansion of the key of appendix A.3. */
  lemma A3Word42(key: seq<bv8>)
    requires key == [0x60, 0x3D, 0xEB, 0x10, 0x15, 0xCA, 0x71, 0xBE, 0x2B, 0x73, 0xAE, 0xF0, 0x85, 0x7D, 0x77, 0x81, 0x1F, 0x35, 0x2C, 0x07, 0x3B, 0x61, 0x08, 0xD7, 0x2D, 0x98, 0x10, 0xA3, 0x09, 0x14, 0xDF, 0xF4]
    ensures KeySchedule(key, 8, 60)[42] == [0xFA, 0x25, 0x63, 0x95]
  {
    hide KeySchedule, Transform;
    var w := KeySchedule(key, 8, 60);
    A3Word41(key);
    A3Word34(key);
    KeyScheduleWords(key, 8, 60, 42);
    TransformSpelled(w[41], 42, 8);
    XorWordSpelled(w[34], Transform(w[41], 42, 8));
  }

  /** Word 43 of the expansion of the key of appendix A.3. */
  lemma A3Word43(key: seq<bv8>)
    requires key == [0x60, 0x3D, 0xEB, 0x10, 0x15, 0xCA, 0x71, 0xBE, 0x2B, 0x73, 0xAE, 0xF0, 0x85, 0x7D, 0x77, 0x81, 0x1F, 0x35, 0x2C, 0x07, 0x3B, 0x61, 0x08, 0xD7, 0x2D, 0x98, 0x10, 0xA3, 0x09, 0x14, 0xDF, 0xF4]
    ensures KeySchedule(key, 8, 60)[43] == [0x96, 0x74, 0xEE, 0x15]
  {
    hide KeySchedule, Transform;
    var w := KeySchedule(key, 8, 60);
    A3Word42(key);
    A3Word35(key);
    KeyScheduleWords(key, 8, 60, 43);
    TransformSpelled(w[42], 43, 8);
    XorWordSpelled(w[35], Transform(w[42], 43, 8));
  }

  /** Word 44 of the expansion of the key of appendix A.3. */
  lemma A3Word44(key: seq<bv8>)
    requires key == [0x60, 0x3D, 0xEB, 0x10, 0x15, 0xCA, 0x71, 0xBE, 0x2B, 0x73, 0xAE, 0xF0, 0x85, 0x7D, 0x77, 0x81, 0x1F, 0x35, 0x2C, 0x07, 0x3B, 0x61, 0x08, 0xD7, 0x2D, 0x98, 0x10, 0xA3, 0x09, 0x14, 0xDF, 0xF4]
    ensures KeySchedule(key, 8, 60)[44] == [0x58, 0x86, 0xCA, 0x5D]
  {
    hide KeySchedule, Transform, SBox;
    var w := KeySchedule(key, 8, 60);
    A3Word43(key);
    A3Word36(key);
    SBoxRow9(w[43][0]);
    SBoxRow7(w[43][1]);
    SBoxRowE(w[43][2]);
    SBoxRow1(w[43][3]);
    KeyScheduleWords(key, 8, 60, 44);
    TransformSpelled(w[43], 44, 8);
    XorWordSpelled(w[36], Transform(w[43], 44, 8));
  }

  /** Word 45 of the expansion of the key of appendix A.3. */
  lemma A3Word45(key: seq<bv8>)
    requires key == [0x60, 0x3D, 0xEB, 0x10, 0x15, 0xCA, 0x71, 0xBE, 0x2B, 0x73, 0xAE, 0xF0, 0x85, 0x7D, 0x77, 0x81, 0x1F, 0x35, 0x2C, 0x07, 0x3B, 0x61, 0x08, 0xD7, 0x2D, 0x98, 0x10, 0xA3, 0x09, 0x14, 0xDF, 0xF4]
    ensures KeySchedule(key, 8, 60)[45] == [0x2E, 0x2F, 0x31, 0xD7]
  {
    hide KeySchedule, Transform;
    var w := KeySchedule(key, 8, 60);
    A3Word44(key);
    A3Word37(key);
    KeyScheduleWords(key, 8, 60, 45);
    TransformSpelled(w[44], 45, 8);
    XorWordSpelled(w[37], Transform(w[44], 45, 8));
  }

  /** Word 46 of the expansion of the key of appendix A.3. */
  lemma A3Word46(key: seq<bv8>)
    requires key == [0x60, 0x3D, 0xEB, 0x10, 0x15, 0xCA, 0x71, 0xBE, 0x2B, 0x73, 0xAE, 0xF0, 0x85, 0x7D, 0x77, 0x81, 0x1F, 0x35, 0x2C, 0x07, 0x3B, 0x61, 0x08, 0xD7, 0x2D, 0x98, 0x10, 0xA3, 0x09, 0x14, 0xDF, 0xF4]
    ensures KeySchedule(key, 8, 60)[46] == [0x7E, 0x0A, 0xF1, 0xFA]
  {
    hide KeySchedule, Transform;
    var w := KeySchedule(key, 8, 60);
    A3Word45(key);
    A3Word38(key);
    KeyScheduleWords(key, 8, 60, 46);
    TransformSpelled(w[45], 46, 8);
    XorWordSpelled(w[38], Transform(w[45], 46, 8));
  }

  /** Word 47 of the expansion of the key of appendix A.3. */
  lemma A3Word47(key: seq<bv8>)
    requires key == [0x60, 0x3D, 0xEB, 0x10, 0x15, 0xCA, 0x71, 0xBE, 0x2B, 0x73, 0xAE, 0xF0, 0x85, 0x7D, 0x77, 0x81, 0x1F, 0x35, 0x2C, 0x07, 0x3B, 0x61, 0x08, 0xD7, 0x2D, 0x98, 0x10, 0xA3, 0x09, 0x14, 0xDF, 0xF4]
    ensures KeySchedule(key, 8, 60)[47] == [0x27, 0xCF, 0x73, 0xC3]
  {
    hide KeySchedule, Transform;
    var w := KeySchedule(key, 8, 60);
    A3Word46(key);
    A3Word39(key);
    KeyScheduleWords(key, 8, 60, 47);
    TransformSpelled(w[46], 47, 8);
    XorWordSpelled(w[39], Transform(w[46], 47, 8));
  }

  /** Word 48 of the expansion of the key of appendix A.3. */
  lemma A3Word48(key: seq<bv8>)
    requires key == [0x60, 0x3D, 0xEB, 0x10, 0x15, 0xCA, 0x71, 0xBE, 0x2B, 0x73, 0xAE, 0xF0, 0x85, 0x7D, 0x77, 0x81, 0x1F, 0x35, 0x2C, 0x07, 0x3B, 0x61, 0x08, 0xD7, 0x2D, 0x98, 0x10, 0xA3, 0x09, 0x14, 0xDF, 0xF4]
    ensures KeySchedule(key, 8, 60)[48] == [0x74, 0x9C, 0x47, 0xAB]
  {
    hide KeySchedule, Transform, SBox, XtimePower;
    var w := KeySchedule(key, 8, 60);
    A3Word47(key);
    A3Word40(key);
    SBoxRow2(w[47][0]);
    SBoxRowC(w[47][1]);
    SBoxRow7(w[47][2]);
    SBoxRowC(w[47][3]);
    XtimePowerValues();
    KeyScheduleWords(key, 8, 60, 48);
    TransformSpelled(w[47], 48, 8);
    XorWordSpelled(w[40], Transform(w[47], 48, 8));
  }

  /** Word 49 of the expansion of the key of appendix A.3. */
  lemma A3Word49(key: seq<bv8>)
    requires key == [0x60, 0x3D, 0xEB, 0x10, 0x15, 0xCA, 0x71, 0xBE, 0x2B, 0x73, 0xAE, 0xF0, 0x85, 0x7D, 0x77, 0x81, 0x1F, 0x35, 0x2C, 0x07, 0x3B, 0x61, 0x08, 0xD7, 0x2D, 0x98, 0x10, 0xA3, 0x09, 0x14, 0xDF, 0xF4]
    ensures KeySchedule(key, 8, 60)[49] == [0x18, 0x50, 0x1D, 0xDA]
  {
    hide KeySchedule, Transform;
    var w := KeySchedule(key, 8, 60);
    A3Word48(key);
    A3Word41(key);
    KeyScheduleWords(key, 8, 60, 49);
    TransformSpelled(w[48], 49, 8);
    XorWordSpelled(w[41], Transform(w[48], 49, 8));
  }

  /** Word 50 of the expansion of the key of appendix A.3. */
  lemma A3Word50(key: seq<bv8>)
    requires key == [0x60, 0x3D, 0xEB, 0x10, 0x15, 0xCA, 0x71, 0xBE, 0x2B, 0x73, 0xAE, 0xF0, 0x85, 0x7D, 0x77, 0x81, 0x1F, 0x35, 0x2C, 0x07, 0x3B, 0x61, 0x08, 0xD7, 0x2D, 0x98, 0x10, 0xA3, 0x09, 0x14, 0xDF, 0xF4]
    ensures KeySchedule(key, 8, 60)[50] == [0xE2, 0x75, 0x7E, 0x4F]
  {
    hide KeySchedule, Transform;
    var w := KeySchedule(key, 8, 60);
    A3Word49(key);
    A3Word42(key);
    KeyScheduleWords(key, 8, 60, 50);
    TransformSpelled(w[49], 50, 8);
    XorWordSpelled(w[42], Transform(w[49], 50, 8));
  }

  /** Word 51 of the expansion of the key of appendix A.3. */
  lemma A3Word51(key: seq<bv8>)
    requires key == [0x60, 0x3D, 0xEB, 0x10, 0x15, 0xCA, 0x71, 0xBE, 0x2B, 0x73, 0xAE, 0xF0, 0x85, 0x7D, 0x77, 0x81, 0x1F, 0x35, 0x2C, 0x07, 0x3B, 0x61, 0x08, 0xD7, 0x2D, 0x98, 0x10, 0xA3, 0x09, 0x14, 0xDF, 0xF4]
    ensures KeySchedule(key, 8, 60)[51] == [0x74, 0x01, 0x90, 0x5A]
  {
    hide KeySchedule, Transform;
    var w := KeySchedule(key, 8, 60);
    A3Word50(key);
    A3Word43(key);
    KeyScheduleWords(key, 8, 60, 51);
    TransformSpelled(w[50], 51, 8);
    XorWordSpelled(w[43], Transform(w[50], 51, 8));
  }

  /** Word 52 of the expansion of the key of appendix A.3. */
  lemma A3Word52(key: seq<bv8>)
    requires key == [0x60, 0x3D, 0xEB, 0x10, 0x15, 0xCA, 0x71, 0xBE, 0x2B, 0x73, 0xAE, 0xF0, 0x85, 0x7D, 0x77, 0x81, 0x1F, 0x35, 0x2C, 0x07, 0x3B, 0x61, 0x08, 0xD7, 0x2D, 0x98, 0x10, 0xA3, 0x09, 0x14, 0xDF, 0xF4]
    ensures KeySchedule(key, 8, 60)[52] == [0xCA, 0xFA, 0xAA, 0xE3]
  {
    hide KeySchedule, Transform, SBox;
    var w := KeySchedule(key, 8, 60);
    A3Word51(key);
    A3Word44(key);
    SBoxRow7(w[51][0]);
    SBoxRow0(w[51][1]);
    SBoxRow9(w[51][2]);
    SBoxRow5(w[51][3]);
    KeyScheduleWords(key, 8, 60, 52);
    TransformSpelled(w[51], 52, 8);
    XorWordSpelled(w[44], Transform(w[51], 52, 8));
  }

  /** Word 53 of the expansion of the key of appendix A.3. */
  lemma A3Word53(key: seq<bv8>)
    requires key == [0x60, 0x3D, 0xEB, 0x10, 0x15, 0xCA, 0x71, 0xBE, 0x2B, 0x73, 0xAE, 0xF0, 0x85, 0x7D, 0x77, 0x81, 0x1F, 0x35, 0x2C, 0x07, 0x3B, 0x61, 0x08, 0xD7, 0x2D, 0x98, 0x10, 0xA3, 0x09, 0x14, 0xDF, 0xF4]
    ensures KeySchedule(key, 8, 60)[53] == [0xE4, 0xD5, 0x9B, 0x34]
  {
    hide KeySchedule, Transform;
    var w := KeySchedule(key, 8, 60);
    A3Word52(key);
    A3Word45(key);
    KeyScheduleWords(key, 8, 60, 53);
    TransformSpelled(w[52], 53, 8);
    XorWordSpelled(w[45], Transform(w[52], 53, 8));
  }

  /** Word 54 of the expansion of the key of appendix A.3. */
  lemma A3Word54(key: seq<bv8>)
    requires key == [0x60, 0x3D, 0xEB, 0x10, 0x15, 0xCA, 0x71, 0xBE, 0x2B, 0x73, 0xAE, 0xF0, 0x85, 0x7D, 0x77, 0x81, 0x1F, 0x35, 0x2C, 0x07, 0x3B, 0x61, 0x08, 0xD7, 0x2D, 0x98, 0x10, 0xA3, 0x09, 0x14, 0xDF, 0xF4]
    ensures KeySchedule(key, 8, 60)[54] == [0x9A, 0xDF, 0x6A, 0xCE]
  {
    hide KeySchedule, Transform;
    var w := KeySchedule(key, 8, 60);
    A3Word53(key);
    A3Word46(key);
    KeyScheduleWords(key, 8, 60, 54);
    TransformSpelled(w[53], 54, 8);
    XorWordSpelled(w[46], Transform(w[53], 54, 8));
  }

  /** Word 55 of the expansion of the key of appendix A.3. */
  lemma A3Word55(key: seq<bv8>)
    requires key == [0x60, 0x3D, 0xEB, 0x10, 0x15, 0xCA, 0x71, 0xBE, 0x2B, 0x73, 0xAE, 0xF0, 0x85, 0x7D, 0x77, 0x81, 0x1F, 0x35, 0x2C, 0x07, 0x3B, 0x61, 0x08, 0xD7, 0x2D, 0x98, 0x10, 0xA3, 0x09, 0x14, 0xDF, 0xF4]
    ensures KeySchedule(key, 8, 60)[55] == [0xBD, 0x10, 0x19, 0x0D]
  {
    hide KeySchedule, Transform;
    var w := KeySchedule(key, 8, 60);
    A3Word54(key);
    A3Word47(key);
    KeyScheduleWords(key, 8, 60, 55);
    TransformSpelled(w[54], 55, 8);
    XorWordSpelled(w[47], Transform(w[54], 55, 8));
  }

  /** Word 56 of the expansion of the key of appendix A.3. */
  lemma A3Word56(key: seq<bv8>)
    requires key == [0x60, 0x3D, 0xEB, 0x10, 0x15, 0xCA, 0x71, 0xBE, 0x2B, 0x73, 0xAE, 0xF0, 0x85, 0x7D, 0x77, 0x81, 0x1F, 0x35, 0x2C, 0x07, 0x3B, 0x61, 0x08, 0xD7, 0x2D, 0x98, 0x10, 0xA3, 0x09, 0x14, 0xDF, 0xF4]
    ensures KeySchedule(key, 8, 60)[56] == [0xFE, 0x48, 0x90, 0xD1]
  {
    hide KeySchedule, Transform, SBox, XtimePower;
    var w := KeySchedule(key, 8, 60);
    A3Word55(key);
    A3Word48(key);
    SBoxRowB(w[55][0]);
    SBoxRow1(w[55][1]);
    SBoxRow1(w[55][2]);
    SBoxRow0(w[55][3]);
    XtimePowerValues();
    KeyScheduleWords(key, 8, 60, 56);
    TransformSpelled(w[55], 56, 8);
    XorWordSpelled(w[48], Transform(w[55], 56, 8));
  }

  /** Word 57 of the expansion of the key of appendix A.3. */
  lemma A3Word57(key: seq<bv8>)
    requires key == [0x60, 0x3D, 0xEB, 0x10, 0x15, 0xCA, 0x71, 0xBE, 0x2B, 0x73, 0xAE, 0xF0, 0x85, 0x7D, 0x77, 0x81, 0x1F, 0x35, 0x2C, 0x07, 0x3B, 0x61, 0x08, 0xD7, 0x2D, 0x98, 0x10, 0xA3, 0x09, 0x14, 0xDF, 0xF4]
    ensures KeySchedule(key, 8, 60)[57] == [0xE6, 0x18, 0x8D, 0x0B]
  {
    hide KeySchedule, Transform;
    var w := KeySchedule(key, 8, 60);
    A3Word56(key);
    A3Word49(key);
    KeyScheduleWords(key, 8, 60, 57);
    TransformSpelled(w[56], 57, 8);
    XorWordSpelled(w[49], Transform(w[56], 57, 8));
  }

  /** Word 58 of the expansion of the key of appendix A.3. */
  lemma A3Word58(key: seq<bv8>)
    requires key == [0x60, 0x3D, 0xEB, 0x10, 0x15, 0xCA, 0x71, 0xBE, 0x2B, 0x73, 0xAE, 0xF0, 0x85, 0x7D, 0x77, 0x81, 0x1F, 0x35, 0x2C, 0x07, 0x3B, 0x61, 0x08, 0xD7, 0x2D, 0x98, 0x10, 0xA3, 0x09, 0x14, 0xDF, 0xF4]
    ensures KeySchedule(key, 8, 60)[58] == [0x04, 0x6D, 0xF3, 0x44]
  {
    hide KeySchedule, Transform;
    var w := KeySchedule(key, 8, 60);
    A3Word57(key);
    A3Word50(key);
    KeyScheduleWords(key, 8, 60, 58);
    TransformSpelled(w[57], 58, 8);
    XorWordSpelled(w[50], Transform(w[57], 58, 8));
  }

  /** Word 59 of the expansion of the key of appendix A.3. */
  lemma A3Word59(key: seq<bv8>)
    requires key == [0x60, 0x3D, 0xEB, 0x10, 0x15, 0xCA, 0x71, 0xBE, 0x2B, 0x73, 0xAE, 0xF0, 0x85, 0x7D, 0x77, 0x81, 0x1F, 0x35, 0x2C, 0x07, 0x3B, 0x61, 0x08, 0xD7, 0x2D, 0x98, 0x10, 0xA3, 0x09, 0x14, 0xDF, 0xF4]
    ensures KeySchedule(key, 8, 60)[59] == [0x70, 0x6C, 0x63, 0x1E]
  {
    hide KeySchedule, Transform;
    var w := KeySchedule(key, 8, 60);
    A3Word58(key);
    A3Word51(key);
    KeyScheduleWords(key, 8, 60, 59);
    TransformSpelled(w[58], 59, 8);
    XorWordSpelled(w[51], Transform(w[58], 59, 8));
  }
}
