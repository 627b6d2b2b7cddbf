/**
 * The AES algorithm of FIPS 197 on byte sequences: the reference the
 * table-free implementation is proved against.
 *
 * A state is 16 bytes in the order of the input block: byte 4c + r holds
 * s[r,c] (section 3.4), so the bytes of column c are 4c .. 4c + 3.  A key
 * schedule word is a sequence of 4 bytes (section 3.5).
 */
module Fips197 {
  import opened Field
  import opened Bytes
  import opened SBoxTable
  import opened Columns
  import LaneOps

  /** A sequence of well-formed key schedule words. */
  predicate Words(w: seq<seq<bv8>>)
  {
    forall i :: 0 <= i < |w| ==> |w[i]| == 4
  }

  // ---------------------------------------------------------------- SubBytes

  /** Section 5.1.1: the S-box applied to every byte of the state. */
  function SubBytes(s: seq<bv8>): (r: seq<bv8>)
    ensures |r| == |s|
  {
    MapBytes(SBox, s)
  }

  /** Section 5.3.2: the inverse S-box applied to every byte of the state. */
  function InvSubBytes(s: seq<bv8>): (r: seq<bv8>)
    ensures |r| == |s|
  {
    MapBytes(InvSBox, s)
  }

  lemma InvSubBytesSubBytes(s: seq<bv8>)
    ensures InvSubBytes(SubBytes(s)) == s
  {
    var t := InvSubBytes(SubBytes(s));
    forall i | 0 <= i < |s|
      ensures t[i] == s[i]
    {
      LaneOps.InvSBoxSBox(s[i]);
    }
  }

  lemma SubBytesInvSubBytes(s: seq<bv8>)
    ensures SubBytes(InvSubBytes(s)) == s
  {
    var t := SubBytes(InvSubBytes(s));
    forall i | 0 <= i < |s|
      ensures t[i] == s[i]
    {
      LaneOps.SBoxInvSBox(s[i]);
    }
  }

  // --------------------------------------------------------------- ShiftRows

  /** Section 5.1.2: row r is rotated left by r places, so s'[r,c] = s[r,(c + r) mod 4]. */
  function ShiftRows(s: seq<bv8>): (t: seq<bv8>)
    requires |s| == 16
    ensures |t| == 16
  {
    seq(16, i requires 0 <= i < 16 => s[4 * ((i / 4 + i % 4) % 4) + i % 4])
  }

  /** Section 5.3.1: row r is rotated right by r places, so s'[r,c] = s[r,(c + 4 - r) mod 4]. */
  function InvShiftRows(s: seq<bv8>): (t: seq<bv8>)
    requires |s| == 16
    ensures |t| == 16
  {
    seq(16, i requires 0 <= i < 16 => s[4 * ((i / 4 + 4 - i % 4) % 4) + i % 4])
  }

  /** ShiftRows spelled out: row 0 stays, rows 1, 2 and 3 rotate left by 1, 2 and 3. */
  lemma ShiftRowsBytes(s: seq<bv8>)
    requires |s| == 16
    ensures ShiftRows(s) == [s[0], s[5], s[10], s[15], s[4], s[9], s[14], s[3],
                             s[8], s[13], s[2], s[7], s[12], s[1], s[6], s[11]]
  {
  }

  /** InvShiftRows spelled out: row 0 stays, rows 1, 2 and 3 rotate right by 1, 2 and 3. */
  lemma InvShiftRowsBytes(s: seq<bv8>)
    requires |s| == 16
    ensures InvShiftRows(s) == [s[0], s[13], s[10], s[7], s[4], s[1], s[14], s[11],
                                s[8], s[5], s[2], s[15], s[12], s[9], s[6], s[3]]
  {
  }

  lemma InvShiftRowsShiftRows(s: seq<bv8>)
    requires |s| == 16
    ensures InvShiftRows(ShiftRows(s)) == s
  {
    ShiftRowsBytes(s);
    InvShiftRowsBytes(ShiftRows(s));
  }

  lemma ShiftRowsInvShiftRows(s: seq<bv8>)
    requires |s| == 16
    ensures ShiftRows(InvShiftRows(s)) == s
  {
    InvShiftRowsBytes(s);
    ShiftRowsBytes(InvShiftRows(s));
  }

  // -------------------------------------------------------------- MixColumns

  /** Column c of the state. */
  function GetColumn(s: seq<bv8>, c: nat): Column
    requires |s| == 16 && c < 4
  {
    Column(s[4 * c], s[4 * c + 1], s[4 * c + 2], s[4 * c + 3])
  }

  /** Section 5.1.3: every column is multiplied by a(x) = {03}x^3 + {01}x^2 + {01}x + {02}. */
  function MixColumns(s: seq<bv8>): (t: seq<bv8>)
    requires |s| == 16
    ensures |t| == 16
  {
    ColumnBytes(MixColumn(GetColumn(s, 0))) + ColumnBytes(MixColumn(GetColumn(s, 1))) +
    ColumnBytes(MixColumn(GetColumn(s, 2))) + ColumnBytes(MixColumn(GetColumn(s, 3)))
  }

  /** Section 5.3.3: every column is multiplied by a^-1(x) = {0b}x^3 + {0d}x^2 + {09}x + {0e}. */
  function InvMixColumns(s: seq<bv8>): (t: seq<bv8>)
    requires |s| == 16
    ensures |t| == 16
  {
    ColumnBytes(InvMixColumn(GetColumn(s, 0))) + ColumnBytes(InvMixColumn(GetColumn(s, 1))) +
    ColumnBytes(InvMixColumn(GetColumn(s, 2))) + ColumnBytes(InvMixColumn(GetColumn(s, 3)))
  }

  /** A state is the concatenation of its columns. */
  lemma StateColumns(s: seq<bv8>)
    requires |s| == 16
    ensures s == ColumnBytes(GetColumn(s, 0)) + ColumnBytes(GetColumn(s, 1)) +
                 ColumnBytes(GetColumn(s, 2)) + ColumnBytes(GetColumn(s, 3))
  {
  }

  /** The columns of four columns laid out one after another. */
  lemma ConcatColumns(m0: Column, m1: Column, m2: Column, m3: Column)
    ensures var s := ColumnBytes(m0) + ColumnBytes(m1) + ColumnBytes(m2) + ColumnBytes(m3);
      GetColumn(s, 0) == m0 && GetColumn(s, 1) == m1 && GetColumn(s, 2) == m2 && GetColumn(s, 3) == m3
  {
  }

  /** Each column of MixColumns(s) and InvMixColumns(s) depends on the same column of s alone. */
  lemma MixColumnsColumns(s: seq<bv8>)
    requires |s| == 16
    ensures GetColumn(MixColumns(s), 0) == MixColumn(GetColumn(s, 0))
    ensures GetColumn(MixColumns(s), 1) == MixColumn(GetColumn(s, 1))
    ensures GetColumn(MixColumns(s), 2) == MixColumn(GetColumn(s, 2))
    ensures GetColumn(MixColumns(s), 3) == MixColumn(GetColumn(s, 3))
    ensures GetColumn(InvMixColumns(s), 0) == InvMixColumn(GetColumn(s, 0))
    ensures GetColumn(InvMixColumns(s), 1) == InvMixColumn(GetColumn(s, 1))
    ensures GetColumn(InvMixColumns(s), 2) == InvMixColumn(GetColumn(s, 2))
    ensures GetColumn(InvMixColumns(s), 3) == InvMixColumn(GetColumn(s, 3))
  {
    ConcatColumns(MixColumn(GetColumn(s, 0)), MixColumn(GetColumn(s, 1)), MixColumn(GetColumn(s, 2)), MixColumn(GetColumn(s, 3)));
    ConcatColumns(InvMixColumn(GetColumn(s, 0)), InvMixColumn(GetColumn(s, 1)), InvMixColumn(GetColumn(s, 2)), InvMixColumn(GetColumn(s, 3)));
  }

  lemma InvMixColumnsMixColumns(s: seq<bv8>)
    requires |s| == 16
    ensures InvMixColumns(MixColumns(s)) == s
  {
    MixColumnsColumns(s);
    MixColumnsColumns(MixColumns(s));
    InvMixMixColumn(GetColumn(s, 0)); InvMixMixColumn(GetColumn(s, 1));
    InvMixMixColumn(GetColumn(s, 2)); InvMixMixColumn(GetColumn(s, 3));
    StateColumns(s);
  }

  lemma MixColumnsInvMixColumns(s: seq<bv8>)
    requires |s| == 16
    ensures MixColumns(InvMixColumns(s)) == s
  {
    MixColumnsColumns(s);
    MixColumnsColumns(InvMixColumns(s));
    MixInvMixColumn(GetColumn(s, 0)); MixInvMixColumn(GetColumn(s, 1));
    MixInvMixColumn(GetColumn(s, 2)); MixInvMixColumn(GetColumn(s, 3));
    StateColumns(s);
  }

  // ------------------------------------------------------------- AddRoundKey

  /** Section 5.1.4: the round key is added (exclusive or) to the state, byte by byte. */
  function AddRoundKey(s: seq<bv8>, k: seq<bv8>): (t: seq<bv8>)
    requires |s| == 16 && |k| == 16
    ensures |t| == 16
  {
    XorBytes(s, k)
  }

  /** AddRoundKey is its own inverse (section 5.3.4). */
  lemma AddRoundKeyTwice(s: seq<bv8>, k: seq<bv8>)
    requires |s| == 16 && |k| == 16
    ensures AddRoundKey(AddRoundKey(s, k), k) == s
  {
    XorBytesCancel(s, k);
  }

  // ------------------------------------------------------------ KeyExpansion

  /** Section 5.2: RotWord takes [a0, a1, a2, a3] to [a1, a2, a3, a0]. */
  function RotWord(w: seq<bv8>): (r: seq<bv8>)
    requires |w| == 4
    ensures |r| == 4
  {
    [w[1], w[2], w[3], w[0]]
  }

  /** Section 5.2: SubWord applies the S-box to each byte of a word. */
  function SubWord(w: seq<bv8>): (r: seq<bv8>)
    requires |w| == 4
    ensures |r| == 4
  {
    MapBytes(SBox, w)
  }

  /** Section 5.2: Rcon[j] = [x^(j-1), {00}, {00}, {00}]. */
  function Rcon(j: nat): (r: seq<bv8>)
    requires j >= 1
    ensures |r| == 4
  {
    [XtimePower(j - 1), 0, 0, 0]
  }

  /** The key lengths of section 5: Nk words of key and Nr rounds. */
  predicate KeyShape(nk: int, nr: int)
  {
    (nk == 4 && nr == 10) || (nk == 6 && nr == 12) || (nk == 8 && nr == 14)
  }

  /** What figure 11 adds to w[i - Nk] to form w[i], given temp = w[i - 1]. */
  function Transform(temp: seq<bv8>, i: nat, nk: nat): (r: seq<bv8>)
    requires |temp| == 4 && 0 < nk <= i
    ensures |r| == 4
  {
    if i % nk == 0 then XorBytes(SubWord(RotWord(temp)), Rcon(i / nk))
    else if nk > 6 && i % nk == 4 then SubWord(temp)
    else temp
  }

  /** The first n words of the key schedule of figure 11. */
  function KeySchedule(key: seq<bv8>, nk: nat, n: nat): (w: seq<seq<bv8>>)
    requires nk > 0 && |key| == 4 * nk
    ensures |w| == n && Words(w)
  {
    if n == 0 then []
    else
      var w := KeySchedule(key, nk, n - 1);
      var i := n - 1;
      if i < nk then w + [key[4 * i .. 4 * i + 4]]
      else w + [XorBytes(w[i - nk], Transform(w[i - 1], i, nk))]
  }

  /** The schedule grows by appending: a shorter schedule is a prefix of a longer one. */
  lemma {:induction false} KeySchedulePrefix(key: seq<bv8>, nk: nat, m: nat, n: nat)
    requires nk > 0 && |key| == 4 * nk && m <= n
    ensures KeySchedule(key, nk, m) == KeySchedule(key, nk, n)[..m]
    decreases n
  {
    if m < n {
      KeySchedulePrefix(key, nk, m, n - 1);
      assert KeySchedule(key, nk, n)[..n - 1] == KeySchedule(key, nk, n - 1);
    }
  }

  /** The first Nk words are the cipher key, and every later word follows the recurrence of figure 11. */
  lemma KeyScheduleWords(key: seq<bv8>, nk: nat, n: nat, i: nat)
    requires nk > 0 && |key| == 4 * nk && i < n
    ensures var w := KeySchedule(key, nk, n);
      (i < nk ==> w[i] == key[4 * i .. 4 * i + 4]) &&
      (i >= nk ==> w[i] == XorBytes(w[i - nk], Transform(w[i - 1], i, nk)))
  {
    KeySchedulePrefix(key, nk, i + 1, n);
  }

  /** The round constants Rcon[1] .. Rcon[10] begin {01}, {02}, {04}, {08}, {10}, {20}, {40}, {80}, {1b}, {36}. */
  lemma RconValues()
    ensures Rcon(1)[0] == 0x01 && Rcon(2)[0] == 0x02 && Rcon(3)[0] == 0x04 && Rcon(4)[0] == 0x08
    ensures Rcon(5)[0] == 0x10 && Rcon(6)[0] == 0x20 && Rcon(7)[0] == 0x40 && Rcon(8)[0] == 0x80
    ensures Rcon(9)[0] == 0x1B && Rcon(10)[0] == 0x36
  {
    XtimePowerValues();
  }

  /** Section 5.2: the Nb (Nr + 1) words of the expanded key. */
  function KeyExpansion(key: seq<bv8>, nk: nat, nr: nat): (w: seq<seq<bv8>>)
    requires nk > 0 && |key| == 4 * nk
    ensures |w| == 4 * (nr + 1) && Words(w)
  {
    KeySchedule(key, nk, 4 * (nr + 1))
  }

  /** The expanded key is the first 4 (Nr + 1) words of the schedule. */
  lemma KeyExpansionSchedule(key: seq<bv8>, nk: nat, nr: nat)
    requires nk > 0 && |key| == 4 * nk
    ensures KeyExpansion(key, nk, nr) == KeySchedule(key, nk, 4 * (nr + 1))
  {
  }

  /** Round key r: words 4r .. 4r + 3 of the schedule, as 16 state bytes. */
  function RoundKey(w: seq<seq<bv8>>, r: nat): (k: seq<bv8>)
    requires Words(w) && 4 * r + 3 < |w|
    ensures |k| == 16
  {
    w[4 * r] + w[4 * r + 1] + w[4 * r + 2] + w[4 * r + 3]
  }

  // ------------------------------------------------------------------ Cipher

  /** A sequence of round keys, 16 bytes each. */
  predicate Blocks(ks: seq<seq<bv8>>)
  {
    forall i :: 0 <= i < |ks| ==> |ks[i]| == 16
  }

  /** The round keys K0 .. KNr of an expanded key. */
  function RoundKeys(w: seq<seq<bv8>>, nr: nat): (ks: seq<seq<bv8>>)
    requires Words(w) && |w| == 4 * (nr + 1)
    ensures |ks| == nr + 1 && Blocks(ks)
    ensures forall r :: 0 <= r <= nr ==> ks[r] == RoundKey(w, r)
  {
    seq(nr + 1, r requires 0 <= r <= nr => RoundKey(w, r))
  }

  /** Rounds 1 .. Nr of figure 5 applied to state s, with ks = [K1, .., KNr]:
      every round but the last ends with MixColumns. */
  function CipherRounds(s: seq<bv8>, ks: seq<seq<bv8>>): (t: seq<bv8>)
    requires |s| == 16 && Blocks(ks) && |ks| >= 1
    ensures |t| == 16
    decreases |ks|
  {
    if |ks| == 1 then AddRoundKey(ShiftRows(SubBytes(s)), ks[0])
    else CipherRounds(AddRoundKey(MixColumns(ShiftRows(SubBytes(s))), ks[0]), ks[1..])
  }

  /** The state of figure 12 once the round keys ks = [Kr, .., KNr] have been
      added to the ciphertext c, last key first, each but KNr followed by InvMixColumns. */
  function InvCipherRounds(c: seq<bv8>, ks: seq<seq<bv8>>): (t: seq<bv8>)
    requires |c| == 16 && Blocks(ks) && |ks| >= 1
    ensures |t| == 16
    decreases |ks|
  {
    if |ks| == 1 then AddRoundKey(c, ks[0])
    else InvMixColumns(AddRoundKey(InvSubBytes(InvShiftRows(InvCipherRounds(c, ks[1..]))), ks[0]))
  }

  /** Figure 5 with round keys ks = [K0, .., KNr]. */
  function Cipher(input: seq<bv8>, ks: seq<seq<bv8>>): (out: seq<bv8>)
    requires |input| == 16 && Blocks(ks) && |ks| >= 2
    ensures |out| == 16
  {
    CipherRounds(AddRoundKey(input, ks[0]), ks[1..])
  }

  /** Figure 12 with round keys ks = [K0, .., KNr]. */
  function InvCipher(input: seq<bv8>, ks: seq<seq<bv8>>): (out: seq<bv8>)
    requires |input| == 16 && Blocks(ks) && |ks| >= 2
    ensures |out| == 16
  {
    AddRoundKey(InvSubBytes(InvShiftRows(InvCipherRounds(input, ks[1..]))), ks[0])
  }

  /** One inverse round undoes one full round of the cipher with the same round key. */
  lemma InvRoundRound(a: seq<bv8>, k: seq<bv8>)
    requires |a| == 16 && |k| == 16
    ensures InvMixColumns(AddRoundKey(InvSubBytes(InvShiftRows(ShiftRows(SubBytes(AddRoundKey(MixColumns(a), k))))), k)) == a
  {
    InvShiftRowsShiftRows(SubBytes(AddRoundKey(MixColumns(a), k)));
    InvSubBytesSubBytes(AddRoundKey(MixColumns(a), k));
    AddRoundKeyTwice(MixColumns(a), k);
    InvMixColumnsMixColumns(a);
  }

  /** One full round undoes one inverse round with the same round key. */
  lemma RoundInvRound(b: seq<bv8>, k: seq<bv8>)
    requires |b| == 16 && |k| == 16
    ensures AddRoundKey(MixColumns(ShiftRows(SubBytes(InvSubBytes(InvShiftRows(InvMixColumns(AddRoundKey(b, k))))))), k) == b
  {
    ShiftRowsInvShiftRows(InvMixColumns(AddRoundKey(b, k)));
    SubBytesInvSubBytes(InvShiftRows(InvMixColumns(AddRoundKey(b, k))));
    MixColumnsInvMixColumns(AddRoundKey(b, k));
    AddRoundKeyTwice(b, k);
  }

  /** The inverse rounds undo the rounds, down to the SubBytes and ShiftRows of the first. */
  lemma {:induction false} InvCipherRoundsCipherRounds(s: seq<bv8>, ks: seq<seq<bv8>>)
    requires |s| == 16 && Blocks(ks) && |ks| >= 1
    ensures InvCipherRounds(CipherRounds(s, ks), ks) == ShiftRows(SubBytes(s))
    decreases |ks|
  {
    hide SubBytes, InvSubBytes, ShiftRows, InvShiftRows, MixColumns, InvMixColumns, AddRoundKey;
    if |ks| == 1 {
      AddRoundKeyTwice(ShiftRows(SubBytes(s)), ks[0]);
    } else {
      InvCipherRoundsCipherRounds(AddRoundKey(MixColumns(ShiftRows(SubBytes(s))), ks[0]), ks[1..]);
      InvRoundRound(ShiftRows(SubBytes(s)), ks[0]);
    }
  }

  /** The rounds undo the inverse rounds, once InvShiftRows and InvSubBytes have been applied. */
  lemma {:induction false} CipherRoundsInvCipherRounds(c: seq<bv8>, ks: seq<seq<bv8>>)
    requires |c| == 16 && Blocks(ks) && |ks| >= 1
    ensures CipherRounds(InvSubBytes(InvShiftRows(InvCipherRounds(c, ks))), ks) == c
    decreases |ks|
  {
    hide SubBytes, InvSubBytes, ShiftRows, InvShiftRows, MixColumns, InvMixColumns, AddRoundKey;
    if |ks| == 1 {
      ShiftRowsInvShiftRows(AddRoundKey(c, ks[0]));
      SubBytesInvSubBytes(InvShiftRows(AddRoundKey(c, ks[0])));
      AddRoundKeyTwice(c, ks[0]);
    } else {
      CipherRoundsInvCipherRounds(c, ks[1..]);
      RoundInvRound(InvSubBytes(InvShiftRows(InvCipherRounds(c, ks[1..]))), ks[0]);
    }
  }

  /** Figure 12 inverts figure 5. */
  lemma InvCipherCipher(input: seq<bv8>, ks: seq<seq<bv8>>)
    requires |input| == 16 && Blocks(ks) && |ks| >= 2
    ensures InvCipher(Cipher(input, ks), ks) == input
  {
    InvCipherRoundsCipherRounds(AddRoundKey(input, ks[0]), ks[1..]);
    InvShiftRowsShiftRows(SubBytes(AddRoundKey(input, ks[0])));
    InvSubBytesSubBytes(AddRoundKey(input, ks[0]));
    AddRoundKeyTwice(input, ks[0]);
  }

  /** Figure 5 inverts figure 12. */
  lemma CipherInvCipher(input: seq<bv8>, ks: seq<seq<bv8>>)
    requires |input| == 16 && Blocks(ks) && |ks| >= 2
    ensures Cipher(InvCipher(input, ks), ks) == input
  {
    CipherRoundsInvCipherRounds(input, ks[1..]);
    AddRoundKeyTwice(InvSubBytes(InvShiftRows(InvCipherRounds(input, ks[1..]))), ks[0]);
  }
}
