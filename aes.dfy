/**
 * The table-free AES block cipher as the implementation runs it: a state of
 * two 64-bit lanes changed in place by the round steps, round loops over a
 * key schedule of 64-bit lanes, the key schedule filled lane by lane, and the
 * three public entry points on a key context.
 *
 * Every method is proved against the byte-sequence algorithm of module
 * Fips197, through the byte views of module Bytes.
 */
module Aes {
  import opened Field
  import opened Bytes
  import opened LaneOps
  import opened MixLanes
  import opened LaneState
  import Fips197

  // ------------------------------------------------------------ round steps

  /** Writes a 16-byte view back into the two lanes. */
  method StoreBytes(state: array<bv64>, s0: seq<bv8>)
    requires state.Length == 2 && |s0| == 16
    modifies state
    ensures StateBytes(state[0], state[1]) == s0
  {
    state[0] := Pack64(s0[..8]);
    state[1] := Pack64(s0[8..]);
    Unpack64Pack64(s0[..8]);
    Unpack64Pack64(s0[8..]);
    assert s0 == s0[..8] + s0[8..];
  }

  /** The byte view once rows 0 .. r - 1 have been rotated by ShiftRows. */
  ghost function RowsShifted(v: seq<bv8>, r: int): (p: seq<bv8>)
    requires |v| == 16
    ensures |p| == 16
  {
    seq(16, i requires 0 <= i < 16 => if i % 4 < r then Fips197.ShiftRows(v)[i] else v[i])
  }

  /** The byte view once rows 0 .. r - 1 have been rotated by InvShiftRows. */
  ghost function RowsInvShifted(v: seq<bv8>, r: int): (p: seq<bv8>)
    requires |v| == 16
    ensures |p| == 16
  {
    seq(16, i requires 0 <= i < 16 => if i % 4 < r then Fips197.InvShiftRows(v)[i] else v[i])
  }

  /** No row rotated is the input; all four rotated is ShiftRows. */
  lemma RowsShiftedEnds(v: seq<bv8>)
    requires |v| == 16
    ensures RowsShifted(v, 0) == v && RowsShifted(v, 4) == Fips197.ShiftRows(v)
  {
  }

  /** No row rotated is the input; all four rotated is InvShiftRows. */
  lemma RowsInvShiftedEnds(v: seq<bv8>)
    requires |v| == 16
    ensures RowsInvShifted(v, 0) == v && RowsInvShifted(v, 4) == Fips197.InvShiftRows(v)
  {
  }

  /** One pass of the ShiftRows loop rotates row r left by r places. */
  lemma ShiftRowStep(v: seq<bv8>, r: int)
    requires |v| == 16 && 0 <= r < 4
    ensures var p := RowsShifted(v, r);
      var s := [p[0 * 4 + r], p[1 * 4 + r], p[2 * 4 + r], p[3 * 4 + r]];
      RowsShifted(v, r + 1) ==
        p[0 * 4 + r := s[(r + 0) % 4]][1 * 4 + r := s[(r + 1) % 4]][2 * 4 + r := s[(r + 2) % 4]][3 * 4 + r := s[(r + 3) % 4]]
  {
    hide RowsShifted;
    if r == 0 {
      ShiftRow0(v);
    } else if r == 1 {
      ShiftRow1(v);
    } else if r == 2 {
      ShiftRow2(v);
    } else {
      ShiftRow3(v);
    }
  }

  /** ShiftRows on row 0. */
  lemma ShiftRow0(v: seq<bv8>)
    requires |v| == 16
    ensures var p := RowsShifted(v, 0); RowsShifted(v, 1) == p[0 * 4 + 0 := p[4 * 0 + 0]][1 * 4 + 0 := p[4 * 1 + 0]][2 * 4 + 0 := p[4 * 2 + 0]][3 * 4 + 0 := p[4 * 3 + 0]]
  {
  }

  /** ShiftRows on row 1. */
  lemma ShiftRow1(v: seq<bv8>)
    requires |v| == 16
    ensures var p := RowsShifted(v, 1); RowsShifted(v, 2) == p[0 * 4 + 1 := p[4 * 1 + 1]][1 * 4 + 1 := p[4 * 2 + 1]][2 * 4 + 1 := p[4 * 3 + 1]][3 * 4 + 1 := p[4 * 0 + 1]]
  {
  }

  /** ShiftRows on row 2. */
  lemma ShiftRow2(v: seq<bv8>)
    requires |v| == 16
    ensures var p := RowsShifted(v, 2); RowsShifted(v, 3) == p[0 * 4 + 2 := p[4 * 2 + 2]][1 * 4 + 2 := p[4 * 3 + 2]][2 * 4 + 2 := p[4 * 0 + 2]][3 * 4 + 2 := p[4 * 1 + 2]]
  {
  }

  /** ShiftRows on row 3. */
  lemma ShiftRow3(v: seq<bv8>)
    requires |v| == 16
    ensures var p := RowsShifted(v, 3); RowsShifted(v, 4) == p[0 * 4 + 3 := p[4 * 3 + 3]][1 * 4 + 3 := p[4 * 0 + 3]][2 * 4 + 3 := p[4 * 1 + 3]][3 * 4 + 3 := p[4 * 2 + 3]]
  {
  }

  /** One pass of the InvShiftRows loop rotates row r right by r places. */
  lemma InvShiftRowStep(v: seq<bv8>, r: int)
    requires |v| == 16 && 0 <= r < 4
    ensures var p := RowsInvShifted(v, r);
      var s := [p[0 * 4 + r], p[1 * 4 + r], p[2 * 4 + r], p[3 * 4 + r]];
      RowsInvShifted(v, r + 1) ==
        p[0 * 4 + r := s[(4 - r) % 4]][1 * 4 + r := s[(5 - r) % 4]][2 * 4 + r := s[(6 - r) % 4]][3 * 4 + r := s[(7 - r) % 4]]
  {
    hide RowsInvShifted;
    if r == 0 {
      InvShiftRow0(v);
    } else if r == 1 {
      InvShiftRow1(v);
    } else if r == 2 {
      InvShiftRow2(v);
    } else {
      InvShiftRow3(v);
    }
  }

  /** InvShiftRows on row 0. */
  lemma InvShiftRow0(v: seq<bv8>)
    requires |v| == 16
    ensures var p := RowsInvShifted(v, 0); RowsInvShifted(v, 1) == p[0 * 4 + 0 := p[4 * 0 + 0]][1 * 4 + 0 := p[4 * 1 + 0]][2 * 4 + 0 := p[4 * 2 + 0]][3 * 4 + 0 := p[4 * 3 + 0]]
  {
  }

  /** InvShiftRows on row 1. */
  lemma InvShiftRow1(v: seq<bv8>)
    requires |v| == 16
    ensures var p := RowsInvShifted(v, 1); RowsInvShifted(v, 2) == p[0 * 4 + 1 := p[4 * 3 + 1]][1 * 4 + 1 := p[4 * 0 + 1]][2 * 4 + 1 := p[4 * 1 + 1]][3 * 4 + 1 := p[4 * 2 + 1]]
  {
  }

  /** InvShiftRows on row 2. */
  lemma InvShiftRow2(v: seq<bv8>)
    requires |v| == 16
    ensures var p := RowsInvShifted(v, 2); RowsInvShifted(v, 3) == p[0 * 4 + 2 := p[4 * 2 + 2]][1 * 4 + 2 := p[4 * 3 + 2]][2 * 4 + 2 := p[4 * 0 + 2]][3 * 4 + 2 := p[4 * 1 + 2]]
  {
  }

  /** InvShiftRows on row 3. */
  lemma InvShiftRow3(v: seq<bv8>)
    requires |v| == 16
    ensures var p := RowsInvShifted(v, 3); RowsInvShifted(v, 4) == p[0 * 4 + 3 := p[4 * 1 + 3]][1 * 4 + 3 := p[4 * 2 + 3]][2 * 4 + 3 := p[4 * 3 + 3]][3 * 4 + 3 := p[4 * 0 + 3]]
  {
  }

  /** Section 5.1.2, row by row on the byte view s0 of the state: byte 4c + r
      takes the byte of row r that was (c + r) mod 4 columns along. */
  method ShiftRows(state: array<bv64>)
    requires state.Length == 2
    modifies state
    ensures StateBytes(state[0], state[1]) == Fips197.ShiftRows(old(StateBytes(state[0], state[1])))
  {
    var s0 := StateBytes(state[0], state[1]);
    ghost var v := s0;
    hide RowsShifted, StateBytes;
    RowsShiftedEnds(v);
    var r := 0;
    while r < 4
      invariant 0 <= r <= 4
      invariant s0 == RowsShifted(v, r)
    {
      ShiftRowStep(v, r);
      var s := [s0[0 * 4 + r], s0[1 * 4 + r], s0[2 * 4 + r], s0[3 * 4 + r]];
      s0 := s0[0 * 4 + r := s[(r + 0) % 4]];
      s0 := s0[1 * 4 + r := s[(r + 1) % 4]];
      s0 := s0[2 * 4 + r := s[(r + 2) % 4]];
      s0 := s0[3 * 4 + r := s[(r + 3) % 4]];
      r := r + 1;
    }
    StoreBytes(state, s0);
  }

  /** Section 5.3.1, row by row on the byte view s0 of the state: byte 4c + r
      takes the byte of row r that was (c + 4 - r) mod 4 columns along. */
  method InvShiftRows(state: array<bv64>)
    requires state.Length == 2
    modifies state
    ensures StateBytes(state[0], state[1]) == Fips197.InvShiftRows(old(StateBytes(state[0], state[1])))
  {
    var s0 := StateBytes(state[0], state[1]);
    ghost var v := s0;
    hide RowsInvShifted, StateBytes;
    RowsInvShiftedEnds(v);
    var r := 0;
    while r < 4
      invariant 0 <= r <= 4
      invariant s0 == RowsInvShifted(v, r)
    {
      InvShiftRowStep(v, r);
      var s := [s0[0 * 4 + r], s0[1 * 4 + r], s0[2 * 4 + r], s0[3 * 4 + r]];
      s0 := s0[0 * 4 + r := s[(4 - r) % 4]];
      s0 := s0[1 * 4 + r := s[(5 - r) % 4]];
      s0 := s0[2 * 4 + r := s[(6 - r) % 4]];
      s0 := s0[3 * 4 + r := s[(7 - r) % 4]];
      r := r + 1;
    }
    StoreBytes(state, s0);
  }

  /** Section 5.1.3 on each of the two lanes in turn. */
  method MixColumns(state: array<bv64>)
    requires state.Length == 2
    modifies state
    ensures state[0] == MixLane(old(state[0])) && state[1] == MixLane(old(state[1]))
    ensures StateBytes(state[0], state[1]) == Fips197.MixColumns(old(StateBytes(state[0], state[1])))
  {
    hide StateBytes, Fips197.MixColumns, MixLane;
    var c := 0;
    while c < 2
      invariant 0 <= c <= 2
      invariant forall j :: 0 <= j < c ==> state[j] == MixLane(old(state[j]))
      invariant forall j :: c <= j < 2 ==> state[j] == old(state[j])
    {
      state[c] := MixLane(state[c]);
      c := c + 1;
    }
    MixLaneState(old(state[0]), old(state[1]));
  }

  /** Section 5.3.3 on each of the two lanes in turn. */
  method InvMixColumns(state: array<bv64>)
    requires state.Length == 2
    modifies state
    ensures state[0] == InvMixLane(old(state[0])) && state[1] == InvMixLane(old(state[1]))
    ensures StateBytes(state[0], state[1]) == Fips197.InvMixColumns(old(StateBytes(state[0], state[1])))
  {
    hide StateBytes, Fips197.InvMixColumns, InvMixLane;
    var c := 0;
    while c < 2
      invariant 0 <= c <= 2
      invariant forall j :: 0 <= j < c ==> state[j] == InvMixLane(old(state[j]))
      invariant forall j :: c <= j < 2 ==> state[j] == old(state[j])
    {
      state[c] := InvMixLane(state[c]);
      c := c + 1;
    }
    InvMixLaneState(old(state[0]), old(state[1]));
  }

  /** Section 5.1.4: the two key lanes at w + off are added to the two state lanes. */
  method AddRoundKey(state: array<bv64>, w: array<bv64>, off: int)
    requires state.Length == 2 && state != w && 0 <= off && off + 1 < w.Length
    modifies state
    ensures state[0] == XorLane(old(state[0]), w[off]) && state[1] == XorLane(old(state[1]), w[off + 1])
    ensures StateBytes(state[0], state[1]) == Fips197.AddRoundKey(old(StateBytes(state[0], state[1])), StateBytes(w[off], w[off + 1]))
  {
    hide StateBytes, Fips197.AddRoundKey, XorLane;
    state[0] := XorLane(state[0], w[off]);
    state[1] := XorLane(state[1], w[off + 1]);
    XorState(old(state[0]), old(state[1]), w[off], w[off + 1]);
  }

  /** SubLong on both lanes of the state: SubBytes. */
  method SubState(state: array<bv64>)
    requires state.Length == 2
    modifies state
    ensures StateBytes(state[0], state[1]) == Fips197.SubBytes(old(StateBytes(state[0], state[1])))
  {
    hide StateBytes, Fips197.SubBytes, SubLong;
    SubLongState(state[0], state[1]);
    state[0] := SubLong(state[0]);
    state[1] := SubLong(state[1]);
  }

  /** InvSubLong on both lanes of the state: InvSubBytes. */
  method InvSubState(state: array<bv64>)
    requires state.Length == 2
    modifies state
    ensures StateBytes(state[0], state[1]) == Fips197.InvSubBytes(old(StateBytes(state[0], state[1])))
  {
    hide StateBytes, Fips197.InvSubBytes, InvSubLong;
    InvSubLongState(state[0], state[1]);
    state[0] := InvSubLong(state[0]);
    state[1] := InvSubLong(state[1]);
  }

  // ----------------------------------------------------------------- rounds

  /** A full round, and the round that ends the cipher, as steps of CipherRounds. */
  lemma CipherStep(s: seq<bv8>, ks: seq<seq<bv8>>, i: nat)
    requires |s| == 16 && Fips197.Blocks(ks) && i < |ks|
    ensures i + 1 < |ks| ==>
      Fips197.CipherRounds(s, ks[i..]) ==
      Fips197.CipherRounds(Fips197.AddRoundKey(Fips197.MixColumns(Fips197.ShiftRows(Fips197.SubBytes(s))), ks[i]), ks[i + 1..])
    ensures i + 1 == |ks| ==>
      Fips197.CipherRounds(s, ks[i..]) == Fips197.AddRoundKey(Fips197.ShiftRows(Fips197.SubBytes(s)), ks[i])
  {
    hide Fips197.SubBytes, Fips197.InvSubBytes, Fips197.ShiftRows, Fips197.InvShiftRows, Fips197.MixColumns, Fips197.InvMixColumns, Fips197.AddRoundKey;
    assert ks[i..][0] == ks[i];
    if i + 1 < |ks| {
      assert ks[i..][1..] == ks[i + 1..];
    }
  }

  /** Every suffix of a list of round keys is a list of round keys. */
  lemma BlocksFrom(ks: seq<seq<bv8>>, i: nat)
    requires Fips197.Blocks(ks) && i <= |ks|
    ensures Fips197.Blocks(ks[i..])
  {
  }

  /** The cipher starts with the key addition of K0. */
  lemma CipherStart(input: seq<bv8>, ks: seq<seq<bv8>>)
    requires |input| == 16 && Fips197.Blocks(ks) && |ks| >= 2
    ensures Fips197.Cipher(input, ks) == Fips197.CipherRounds(Fips197.AddRoundKey(input, ks[0]), ks[1..])
  {
  }

  /** The inverse cipher starts with the key addition of KNr. */
  lemma InvCipherStart(c: seq<bv8>, ks: seq<seq<bv8>>)
    requires |c| == 16 && Fips197.Blocks(ks) && |ks| >= 2
    ensures Fips197.InvCipherRounds(c, ks[|ks| - 1..]) == Fips197.AddRoundKey(c, ks[|ks| - 1])
  {
    assert ks[|ks| - 1..][0] == ks[|ks| - 1];
  }

  /** The inverse cipher ends with InvShiftRows, InvSubBytes and the key addition of K0. */
  lemma InvCipherEnd(c: seq<bv8>, ks: seq<seq<bv8>>)
    requires |c| == 16 && Fips197.Blocks(ks) && |ks| >= 2
    ensures Fips197.InvCipher(c, ks) ==
      Fips197.AddRoundKey(Fips197.InvSubBytes(Fips197.InvShiftRows(Fips197.InvCipherRounds(c, ks[1..]))), ks[0])
  {
  }

  /** One more round key taken into InvCipherRounds. */
  lemma InvCipherStep(c: seq<bv8>, ks: seq<seq<bv8>>, i: nat)
    requires |c| == 16 && Fips197.Blocks(ks) && i + 1 < |ks|
    ensures Fips197.InvCipherRounds(c, ks[i..]) ==
      Fips197.InvMixColumns(Fips197.AddRoundKey(Fips197.InvSubBytes(Fips197.InvShiftRows(Fips197.InvCipherRounds(c, ks[i + 1..]))), ks[i]))
  {
    hide Fips197.SubBytes, Fips197.InvSubBytes, Fips197.ShiftRows, Fips197.InvShiftRows, Fips197.MixColumns, Fips197.InvMixColumns, Fips197.AddRoundKey;
    assert ks[i..][0] == ks[i];
    assert ks[i..][1..] == ks[i + 1..];
  }

  /** The state loaded from a 16-byte block. */
  method LoadState(input: array<bv8>) returns (state: array<bv64>)
    requires input.Length >= 16
    ensures fresh(state) && state.Length == 2 && StateBytes(state[0], state[1]) == input[..16]
  {
    state := new bv64[2];
    state[0] := Pack64(input[..8]);
    state[1] := Pack64(input[8..16]);
    Unpack64Pack64(input[..8]);
    Unpack64Pack64(input[8..16]);
    assert input[..16] == input[..8] + input[8..16];
  }

  /** The state stored into the first 16 bytes of a block. */
  method StoreState(state: array<bv64>, output: array<bv8>)
    requires state.Length == 2 && output.Length >= 16
    modifies output
    ensures output[..16] == StateBytes(state[0], state[1]) && output[16..] == old(output[16..])
  {
    var b := StateBytes(state[0], state[1]);
    forall j | 0 <= j < 16 {
      output[j] := b[j];
    }
  }

  /** Figure 5: the initial key addition, Nr - 1 full rounds and a last round
      without MixColumns, with round key r in lanes 2r and 2r + 1 of w.  The
      input is read before the output is written, so they may be the same block. */
  method Cipher(input: array<bv8>, output: array<bv8>, w: array<bv64>, nr: int)
    requires input.Length >= 16 && output.Length >= 16
    requires 1 <= nr && 2 * nr + 1 < w.Length
    modifies output
    ensures output[..16] == Fips197.Cipher(old(input[..16]), LaneKeys(w[..], nr))
    ensures output[16..] == old(output[16..])
  {
    hide *;
    ghost var ks := LaneKeys(w[..], nr);
    ghost var inp := input[..16];
    var state := LoadState(input);
    AddRoundKey(state, w, 0);
    CipherStart(inp, ks);
    var i := 1;
    BlocksFrom(ks, i);
    while i < nr
      invariant 1 <= i <= nr
      invariant output[..] == old(output[..])
      invariant Fips197.Blocks(ks[i..])
      invariant Fips197.CipherRounds(StateBytes(state[0], state[1]), ks[i..]) == Fips197.Cipher(inp, ks)
    {
      CipherStep(StateBytes(state[0], state[1]), ks, i);
      SubState(state);
      ShiftRows(state);
      MixColumns(state);
      AddRoundKey(state, w, i * 2);
      BlocksFrom(ks, i + 1);
      i := i + 1;
    }
    CipherStep(StateBytes(state[0], state[1]), ks, nr);
    SubState(state);
    ShiftRows(state);
    AddRoundKey(state, w, nr * 2);
    StoreState(state, output);
  }

  /** Figure 12: the straightforward inverse cipher, taking the round keys
      last first, with InvMixColumns after every key addition but the last. */
  method InvCipher(input: array<bv8>, output: array<bv8>, w: array<bv64>, nr: int)
    requires input.Length >= 16 && output.Length >= 16
    requires 1 <= nr && 2 * nr + 1 < w.Length
    modifies output
    ensures output[..16] == Fips197.InvCipher(old(input[..16]), LaneKeys(w[..], nr))
    ensures output[16..] == old(output[16..])
  {
    hide *;
    ghost var ks := LaneKeys(w[..], nr);
    ghost var c := input[..16];
    var state := LoadState(input);
    AddRoundKey(state, w, nr * 2);
    InvCipherStart(c, ks);
    var i := nr - 1;
    BlocksFrom(ks, i + 1);
    while i > 0
      invariant 0 <= i <= nr - 1
      invariant output[..] == old(output[..])
      invariant Fips197.Blocks(ks[i + 1..])
      invariant StateBytes(state[0], state[1]) == Fips197.InvCipherRounds(c, ks[i + 1..])
    {
      InvCipherStep(c, ks, i);
      InvShiftRows(state);
      InvSubState(state);
      AddRoundKey(state, w, i * 2);
      InvMixColumns(state);
      BlocksFrom(ks, i);
      i := i - 1;
    }
    InvShiftRows(state);
    InvSubState(state);
    AddRoundKey(state, w, 0);
    InvCipherEnd(c, ks);
    StoreState(state, output);
  }

  // ----------------------------------------------------------- key schedule

  /** RotWord on the byte view of a word: bytes [a0, a1, a2, a3] become [a1, a2, a3, a0]. */
  function RotWord(x: bv32): (r: bv32)
    ensures Unpack32(r) == Fips197.RotWord(Unpack32(x))
  {
    var w0 := Unpack32(x);
    Unpack32Pack32([w0[1], w0[2], w0[3], w0[0]]);
    Pack32([w0[1], w0[2], w0[3], w0[0]])
  }

  /** The halves of a lane packed from eight bytes are the first and last four of them. */
  lemma PackHalves(b: seq<bv8>)
    requires |b| == 8
    ensures Unpack32(Lo(Pack64(b))) == b[..4] && Unpack32(Hi(Pack64(b))) == b[4..]
  {
    Unpack64Split(Pack64(b));
    Unpack64Pack64(b);
  }

  /** Appending a lane appends its two words. */
  lemma LaneWordsAppend(ws: seq<bv64>, d: bv64)
    ensures LaneWords(ws + [d]) == LaneWords(ws) + [Unpack32(Lo(d)), Unpack32(Hi(d))]
  {
    var l := LaneWords(ws + [d]);
    var r := LaneWords(ws) + [Unpack32(Lo(d)), Unpack32(Hi(d))];
    forall j | 0 <= j < |l|
      ensures l[j] == r[j]
    {
    }
  }

  /** Lanes packed from the key bytes hold the first Nk words of figure 11, two to a lane. */
  lemma KeyLanes(key: seq<bv8>, nk: nat, ws: seq<bv64>)
    requires nk > 0 && nk % 2 == 0 && |key| == 4 * nk && 2 * |ws| == nk
    requires forall j :: 0 <= j < |ws| ==> ws[j] == Pack64(key[8 * j .. 8 * j + 8])
    ensures LaneWords(ws) == Fips197.KeySchedule(key, nk, nk)
  {
    hide *;
    var l := LaneWords(ws);
    var w := Fips197.KeySchedule(key, nk, nk);
    forall m | 0 <= m < nk
      ensures l[m] == w[m]
    {
      var j := m / 2;
      var b := key[8 * j .. 8 * j + 8];
      LaneWordsAt(ws, j);
      Fips197.KeyScheduleWords(key, nk, nk, m);
      PackHalves(b);
      if m % 2 == 0 {
        assert m == 2 * j;
        assert b[..4] == key[4 * m .. 4 * m + 4];
      } else {
        assert m == 2 * j + 1;
        assert b[4..] == key[4 * m .. 4 * m + 4];
      }
    }
  }

  /** The copy of the Nk key words into the first Nk / 2 lanes. */
  method CopyKey(key: array<bv8>, w: array<bv64>, nk: int)
    requires nk > 0 && nk % 2 == 0 && key.Length >= 4 * nk && nk / 2 <= w.Length
    modifies w
    ensures LaneWords(w[..nk / 2]) == Fips197.KeySchedule(key[..4 * nk], nk, nk)
    ensures forall j :: nk / 2 <= j < w.Length ==> w[j] == old(w[j])
  {
    var k := key[..4 * nk];
    var n := nk / 2;
    assert 2 * n == nk;
    forall j | 0 <= j < n {
      w[j] := Pack64(k[8 * j .. 8 * j + 8]);
    }
    hide Pack64, LaneWords, Fips197.KeySchedule;
    KeyLanes(k, nk, w[..n]);
    assert key[..4 * nk] == k;
    assert w[..nk / 2] == w[..n];
  }

  /** The index arithmetic of the lane loop: lane i holds words 2i and 2i + 1,
      and with Nk = 2n the tests on i mod n are the tests of figure 11 on 2i mod Nk. */
  lemma LaneIndex(i: nat, n: nat, nk: nat)
    requires nk == 2 * n && (n == 2 || n == 3 || n == 4) && i >= n
    ensures (2 * i) % nk == 0 <==> i % n == 0
    ensures (nk > 6 && (2 * i) % nk == 4) <==> (nk > 6 && i % n == 2)
    ensures i % n == 0 ==> (2 * i) / nk == i / n && (i - 1) / n + 1 == i / n
    ensures i % n != 0 ==> i / n == (i - 1) / n
    ensures (2 * i + 1) % nk != 0 && (2 * i + 1) % nk != 4
  {
    if n == 2 {
      LaneIndex2(i);
    } else if n == 3 {
      LaneIndex3(i);
    } else {
      LaneIndex4(i);
    }
  }

  /** LaneIndex for n = 2, where the arithmetic is linear. */
  lemma LaneIndex2(i: nat)
    requires i >= 2
    ensures (2 * i) % 4 == 0 <==> i % 2 == 0
    ensures i % 2 == 0 ==> (2 * i) / 4 == i / 2 && (i - 1) / 2 + 1 == i / 2
    ensures i % 2 != 0 ==> i / 2 == (i - 1) / 2
    ensures (2 * i + 1) % 4 != 0 && (2 * i + 1) % 4 != 4
  {
    var q, r := i / 2, i % 2;
    assert i == 2 * q + r && 0 <= r < 2;
  }

  /** LaneIndex for n = 3, where the arithmetic is linear. */
  lemma LaneIndex3(i: nat)
    requires i >= 3
    ensures (2 * i) % 6 == 0 <==> i % 3 == 0
    ensures i % 3 == 0 ==> (2 * i) / 6 == i / 3 && (i - 1) / 3 + 1 == i / 3
    ensures i % 3 != 0 ==> i / 3 == (i - 1) / 3
    ensures (2 * i + 1) % 6 != 0 && (2 * i + 1) % 6 != 4
  {
    var q, r := i / 3, i % 3;
    assert i == 3 * q + r && 0 <= r < 3;
  }

  /** LaneIndex for n = 4, where the arithmetic is linear. */
  lemma LaneIndex4(i: nat)
    requires i >= 4
    ensures (2 * i) % 8 == 0 <==> i % 4 == 0
    ensures (2 * i) % 8 == 4 <==> i % 4 == 2
    ensures i % 4 == 0 ==> (2 * i) / 8 == i / 4 && (i - 1) / 4 + 1 == i / 4
    ensures i % 4 != 0 ==> i / 4 == (i - 1) / 4
    ensures (2 * i + 1) % 8 != 0 && (2 * i + 1) % 8 != 4
  {
    var q, r := i / 4, i % 4;
    assert i == 4 * q + r && 0 <= r < 4;
  }

  /** The next round constant: Rcon[j + 1] is Rcon[j] times {02}. */
  lemma RconNext(rcon: bv32, j: nat)
    requires j >= 1 && Unpack32(rcon) == Fips197.Rcon(j)
    ensures Unpack32(XtimeWord(rcon)) == Fips197.Rcon(j + 1)
  {
    XtimeWordBytes(rcon);
    XtimeZero();
  }

  /** The index j of the round constant Rcon[j] in rcon when lane i is computed. */
  function RconIndex(i: nat, n: nat): (j: nat)
    requires n > 0 && i >= n
    ensures j >= 1
  {
    (i - 1) / n + 1
  }

  /** rcon is doubled exactly when it has been used, at lanes i with i mod n = 0. */
  lemma RconAdvance(rcon0: bv32, rcon: bv32, i: nat, n: nat, nk: nat)
    requires nk == 2 * n && (n == 2 || n == 3 || n == 4) && i >= n
    requires Unpack32(rcon0) == Fips197.Rcon(RconIndex(i, n))
    requires i % n == 0 ==> rcon == XtimeWord(rcon0)
    requires i % n != 0 ==> rcon == rcon0
    ensures Unpack32(rcon) == Fips197.Rcon(RconIndex(i + 1, n))
  {
    hide Unpack32, XtimeWord;
    LaneIndex(i, n, nk);
    if i % n == 0 {
      RconNext(rcon0, i / n);
    }
  }

  /** The word temp computed for lane i is what figure 11 adds for word 2i. */
  lemma TempTransform(prev1: bv32, temp: bv32, rcon: bv32, i: nat, n: nat, nk: nat)
    requires nk == 2 * n && (n == 2 || n == 3 || n == 4) && i >= n
    requires Unpack32(rcon) == Fips197.Rcon(RconIndex(i, n))
    requires i % n == 0 ==> temp == XorWord(SubWord(RotWord(prev1)), rcon)
    requires i % n != 0 && nk > 6 && i % n == 2 ==> temp == SubWord(prev1)
    requires i % n != 0 && !(nk > 6 && i % n == 2) ==> temp == prev1
    ensures Unpack32(temp) == Fips197.Transform(Unpack32(prev1), 2 * i, nk)
  {
    hide Unpack32, SubWord, RotWord, XorWord;
    LaneIndex(i, n, nk);
    if i % n == 0 {
      SubWordBytes(RotWord(prev1));
    } else if nk > 6 && i % n == 2 {
      SubWordBytes(prev1);
    }
  }

  /** One more word of the schedule of figure 11, past the words copied from the key. */
  lemma KeyScheduleNext(key: seq<bv8>, nk: nat, m: nat)
    requires 0 < nk <= m && |key| == 4 * nk
    ensures var w := Fips197.KeySchedule(key, nk, m);
      Fips197.KeySchedule(key, nk, m + 1) == w + [XorBytes(w[m - nk], Fips197.Transform(w[m - 1], m, nk))]
  {
  }

  /** At the odd word 2i + 1 figure 11 adds w[2i] unchanged, since Nk is even. */
  lemma TransformOdd(temp: seq<bv8>, i: nat, n: nat, nk: nat)
    requires |temp| == 4 && nk == 2 * n && (n == 2 || n == 3 || n == 4) && i >= n
    ensures Fips197.Transform(temp, 2 * i + 1, nk) == temp
  {
    LaneIndex(i, n, nk);
  }

  /** Lane i of the schedule from lanes i - n and i - 1: word 2i is word 2i - Nk
      plus temp, and word 2i + 1 is word 2i + 1 - Nk plus word 2i. */
  lemma KeyStep(key: seq<bv8>, nk: nat, n: nat, ws: seq<bv64>, temp: bv32)
    requires nk == 2 * n && (n == 2 || n == 3 || n == 4) && |key| == 4 * nk
    requires |ws| >= n && LaneWords(ws) == Fips197.KeySchedule(key, nk, 2 * |ws|)
    requires Unpack32(temp) == Fips197.Transform(Unpack32(Hi(ws[|ws| - 1])), 2 * |ws|, nk)
    ensures var lo := XorWord(Lo(ws[|ws| - n]), temp);
      LaneWords(ws + [Join(lo, XorWord(Hi(ws[|ws| - n]), lo))]) == Fips197.KeySchedule(key, nk, 2 * |ws| + 2)
  {
    hide *;
    var i := |ws|;
    var back := ws[i - n];
    var lo := XorWord(Lo(back), temp);
    var hi := XorWord(Hi(back), lo);
    var w := Fips197.KeySchedule(key, nk, 2 * i);
    LaneWordsAt(ws, i - 1);
    LaneWordsAt(ws, i - n);
    assert w[2 * i - 1] == Unpack32(Hi(ws[i - 1]));
    assert w[2 * i - nk] == Unpack32(Lo(back));
    assert w[2 * i + 1 - nk] == Unpack32(Hi(back));
    KeyScheduleNext(key, nk, 2 * i);
    var w1 := Fips197.KeySchedule(key, nk, 2 * i + 1);
    assert w1[2 * i] == Unpack32(lo);
    assert w1[2 * i + 1 - nk] == Unpack32(Hi(back));
    KeyScheduleNext(key, nk, 2 * i + 1);
    TransformOdd(Unpack32(lo), i, n, nk);
    LoHiJoin(lo, hi);
    LaneWordsAppend(ws, Join(lo, hi));
  }

  /** The round constant used first, at lane n, is Rcon[1] = {01}. */
  lemma RconFirst(n: nat)
    requires n > 0
    ensures Fips197.Rcon(RconIndex(n, n)) == [1, 0, 0, 0]
  {
  }

  /** The lane facts a valid key shape gives: an even nk of 4, 6 or 8 words, at least one round. */
  lemma KeyShapeLanes(nk: int, nr: int)
    requires Fips197.KeyShape(nk, nr)
    ensures nk > 0 && nk % 2 == 0 && nk == 2 * (nk / 2) && (nk / 2 == 2 || nk / 2 == 3 || nk / 2 == 4) && nr >= 1
  {
  }

  /** The first half of a pass of the KeyExpansion loop: temp is the high word
      of lane i - 1 transformed as figure 11 transforms word 2i - 1 (RotWord,
      SubWord and Rcon at the start of a key-length block, SubWord alone half way
      through one for 256-bit keys); the round constant is doubled once used. */
  method LaneTemp(prev1: bv32, rcon: bv32, i: int, n: int, nk: int) returns (temp: bv32, rconNext: bv32)
    requires nk == 2 * n && (n == 2 || n == 3 || n == 4) && i >= n
    requires Unpack32(rcon) == Fips197.Rcon(RconIndex(i, n))
    ensures Unpack32(temp) == Fips197.Transform(Unpack32(prev1), 2 * i, nk)
    ensures Unpack32(rconNext) == Fips197.Rcon(RconIndex(i + 1, n))
  {
    hide *;
    temp := prev1;
    rconNext := rcon;
    if i % n == 0 {
      temp := RotWord(temp);
      temp := SubWord(temp);
      temp := XorWord(temp, rconNext);
      rconNext := XtimeWord(rconNext);
    } else if nk > 6 && i % n == 2 {
      temp := SubWord(temp);
    }
    TempTransform(prev1, temp, rcon, i, n, nk);
    RconAdvance(rcon, rconNext, i, n, nk);
  }

  /** The second half of a pass: the union prev is loaded with lane i - n, its
      low word takes in temp, its high word takes in the new low word, and the
      result is stored as lane i.  Returns the two words of prev. */
  method StoreLane(ghost key: seq<bv8>, w: array<bv64>, i: int, n: int, nk: int, temp: bv32) returns (prev0: bv32, prev1: bv32)
    requires nk == 2 * n && (n == 2 || n == 3 || n == 4) && |key| == 4 * nk
    requires n <= i < w.Length && LaneWords(w[..i]) == Fips197.KeySchedule(key, nk, 2 * i)
    requires Unpack32(temp) == Fips197.Transform(Unpack32(Hi(w[i - 1])), 2 * i, nk)
    modifies w
    ensures LaneWords(w[..i + 1]) == Fips197.KeySchedule(key, nk, 2 * i + 2)
    ensures prev1 == Hi(w[i])
    ensures forall j :: 0 <= j < w.Length && j != i ==> w[j] == old(w[j])
  {
    hide *;
    ghost var ws := w[..i];
    KeyStep(key, nk, n, ws, temp);
    assert ws[i - n] == w[i - n];
    prev0, prev1 := Lo(w[i - n]), Hi(w[i - n]);
    prev0 := XorWord(prev0, temp);
    prev1 := XorWord(prev1, prev0);
    w[i] := Join(prev0, prev1);
    LoHiJoin(prev0, prev1);
    assert w[..i + 1] == ws + [Join(prev0, prev1)];
  }

  /** Section 5.2 two words at a time: the key is copied into the first Nk / 2
      lanes, and each later lane i is made from lane i - Nk / 2 and the high
      word of lane i - 1, carried in prev; the round constant starts at {01}
      and is doubled each time it is used.  Lanes from 2 (Nr + 1) on are left alone. */
  method KeyExpansion(key: array<bv8>, w: array<bv64>, nr: int, nk: int)
    requires Fips197.KeyShape(nk, nr)
    requires key.Length >= 4 * nk && 2 * (nr + 1) <= w.Length
    modifies w
    ensures LaneWords(w[..2 * (nr + 1)]) == Fips197.KeyExpansion(key[..4 * nk], nk, nr)
    ensures forall j :: 2 * (nr + 1) <= j < w.Length ==> w[j] == old(w[j])
  {
    hide *;
    KeyShapeLanes(nk, nr);
    ghost var k := key[..4 * nk];
    CopyKey(key, w, nk);
    var rcon := Pack32([1, 0, 0, 0]);
    Unpack32Pack32([1, 0, 0, 0]);
    var n := nk / 2;
    RconFirst(n);
    Fips197.KeyExpansionSchedule(k, nk, nr);
    var prev0, prev1 := Lo(w[n - 1]), Hi(w[n - 1]);
    var i := n;
    while i < (nr + 1) * 2
      invariant n <= i <= (nr + 1) * 2
      invariant LaneWords(w[..i]) == Fips197.KeySchedule(k, nk, 2 * i)
      invariant prev1 == Hi(w[i - 1])
      invariant Unpack32(rcon) == Fips197.Rcon(RconIndex(i, n))
      invariant forall j :: i <= j < w.Length ==> w[j] == old(w[j])
    {
      var temp;
      temp, rcon := LaneTemp(prev1, rcon, i, n, nk);
      prev0, prev1 := StoreLane(k, w, i, n, nk, temp);
      i := i + 1;
    }
  }

  // ------------------------------------------------------------ entry points

  /** The key lengths in bits accepted by the key setup. */
  const AES128: bv32 := 128
  const AES192: bv32 := 192
  const AES256: bv32 := 256

  /** A key context: the number of rounds and the expanded key in 64-bit lanes. */
  class AesKey {
    var rounds: int
    const key: array<bv64>

    /** A context whose key buffer holds `lanes` lanes, not yet keyed. */
    constructor (lanes: nat)
      ensures rounds == 0 && key.Length == lanes && fresh(key)
    {
      rounds := 0;
      key := new bv64[lanes];
    }

    /** What the block functions need of a context: rounds 1 or more, all of whose keys are in the buffer. */
    predicate Ready()
      reads this
    {
      1 <= rounds && 2 * rounds + 1 < key.Length
    }
  }

  /** Key setup: nothing happens for a missing context or key or for a length
      other than 128, 192 or 256 bits; otherwise Nr is set to 10, 12 or 14 and
      the key of keyLenBits / 32 words is expanded into the context.  isEncrypt
      is ignored: encryption and decryption use the same schedule. */
  method SetAesKeyExpansionConstantTime(ctx: AesKey?, keyLenBits: bv32, key: array?<bv8>, isEncrypt: bool)
    requires ctx != null ==> ctx.key.Length >= 30
    requires key != null && (keyLenBits == AES128 || keyLenBits == AES192 || keyLenBits == AES256) ==>
      key.Length >= keyLenBits as int / 8
    modifies if ctx == null then {} else {ctx as object, ctx.key}
    ensures ctx != null && (key == null || (keyLenBits != AES128 && keyLenBits != AES192 && keyLenBits != AES256)) ==>
      ctx.rounds == old(ctx.rounds) && ctx.key[..] == old(ctx.key[..])
    ensures ctx != null && key != null && (keyLenBits == AES128 || keyLenBits == AES192 || keyLenBits == AES256) ==>
      Fips197.KeyShape(keyLenBits as int / 32, ctx.rounds) && ctx.Ready() &&
      LaneWords(ctx.key[..2 * (ctx.rounds + 1)]) == Fips197.KeyExpansion(key[..keyLenBits as int / 8], keyLenBits as int / 32, ctx.rounds) &&
      forall j :: 2 * (ctx.rounds + 1) <= j < ctx.key.Length ==> ctx.key[j] == old(ctx.key[j])
  {
    if ctx == null || key == null {
      return;
    }
    if keyLenBits != AES128 && keyLenBits != AES192 && keyLenBits != AES256 {
      return;
    }
    if keyLenBits == AES128 {
      ctx.rounds := 10;
    } else if keyLenBits == AES192 {
      ctx.rounds := 12;
    } else {
      ctx.rounds := 14;
    }
    KeyExpansion(key, ctx.key, ctx.rounds, (keyLenBits / 32) as int);
  }

  /** Encrypts the 16-byte block at input into output with the context's schedule;
      len is ignored, and nothing is written when a pointer is missing. */
  method EncryptConstantTime(ctx: AesKey?, input: array?<bv8>, output: array?<bv8>, len: bv32)
    requires ctx != null ==> ctx.Ready()
    requires input != null ==> input.Length >= 16
    requires output != null ==> output.Length >= 16
    modifies output
    ensures output != null && (ctx == null || input == null) ==> output[..] == old(output[..])
    ensures ctx != null && input != null && output != null ==>
      output[..16] == Fips197.Cipher(old(input[..16]), LaneKeys(ctx.key[..], ctx.rounds)) &&
      output[16..] == old(output[16..])
  {
    if ctx == null || input == null || output == null {
      return;
    }
    Cipher(input, output, ctx.key, ctx.rounds);
  }

  /** Decrypts the 16-byte block at input into output with the context's schedule;
      len is ignored, and nothing is written when a pointer is missing. */
  method DecryptConstantTime(ctx: AesKey?, input: array?<bv8>, output: array?<bv8>, len: bv32)
    requires ctx != null ==> ctx.Ready()
    requires input != null ==> input.Length >= 16
    requires output != null ==> output.Length >= 16
    modifies output
    ensures output != null && (ctx == null || input == null) ==> output[..] == old(output[..])
    ensures ctx != null && input != null && output != null ==>
      output[..16] == Fips197.InvCipher(old(input[..16]), LaneKeys(ctx.key[..], ctx.rounds)) &&
      output[16..] == old(output[16..])
  {
    if ctx == null || input == null || output == null {
      return;
    }
    InvCipher(input, output, ctx.key, ctx.rounds);
  }

  /** Encrypting a block in place and decrypting it in place with the same
      context gives the block back. */
  method EncryptDecryptInPlace(ctx: AesKey, block: array<bv8>)
    requires ctx.Ready() && block.Length >= 16
    modifies block
    ensures block[..] == old(block[..])
  {
    hide LaneKeys, StateBytes, Fips197.Cipher, Fips197.InvCipher;
    EncryptConstantTime(ctx, block, block, 16);
    DecryptConstantTime(ctx, block, block, 16);
    Fips197.InvCipherCipher(old(block[..16]), LaneKeys(ctx.key[..], ctx.rounds));
    assert block[..] == block[..16] + block[16..];
    assert old(block[..]) == old(block[..16]) + old(block[16..]);
  }
}
