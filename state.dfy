/**
 * The bridge between the two-lane state of the implementation and the 16-byte
 * state of FIPS 197: what each lane operation does to StateBytes, and how the
 * round keys of the lane-format key schedule are read.
 */
module LaneState {
  import opened Field
  import opened Bytes
  import opened Columns
  import opened LaneOps
  import opened MixLanes
  import Fips197

  /** SubLong on both lanes is SubBytes on the state. */
  lemma SubLongState(a: bv64, b: bv64)
    ensures StateBytes(SubLong(a), SubLong(b)) == Fips197.SubBytes(StateBytes(a, b))
  {
    SubLongBytes(a);
    SubLongBytes(b);
    MapBytesAppend(SBoxTable.SBox, Unpack64(a), Unpack64(b));
  }

  /** InvSubLong on both lanes is InvSubBytes on the state. */
  lemma InvSubLongState(a: bv64, b: bv64)
    ensures StateBytes(InvSubLong(a), InvSubLong(b)) == Fips197.InvSubBytes(StateBytes(a, b))
  {
    InvSubLongBytes(a);
    InvSubLongBytes(b);
    MapBytesAppend(SBoxTable.InvSBox, Unpack64(a), Unpack64(b));
  }

  /** Exclusive or of the lanes with two key lanes is AddRoundKey with their bytes. */
  lemma XorState(a: bv64, b: bv64, k0: bv64, k1: bv64)
    ensures StateBytes(XorLane(a, k0), XorLane(b, k1)) == Fips197.AddRoundKey(StateBytes(a, b), StateBytes(k0, k1))
  {
    UnpackXor64(a, k0);
    UnpackXor64(b, k1);
    XorBytesAppend(Unpack64(a), Unpack64(b), Unpack64(k0), Unpack64(k1));
  }

  /** The columns of the state are the two columns of each lane. */
  lemma StateColumnsOfLanes(a: bv64, b: bv64)
    ensures Fips197.GetColumn(StateBytes(a, b), 0) == LowColumn(a)
    ensures Fips197.GetColumn(StateBytes(a, b), 1) == HighColumn(a)
    ensures Fips197.GetColumn(StateBytes(a, b), 2) == LowColumn(b)
    ensures Fips197.GetColumn(StateBytes(a, b), 3) == HighColumn(b)
  {
  }

  /** The MixColumns loop body on both lanes is MixColumns on the state. */
  lemma MixLaneState(a: bv64, b: bv64)
    ensures StateBytes(MixLane(a), MixLane(b)) == Fips197.MixColumns(StateBytes(a, b))
  {
    hide MixLane, MixColumn;
    MixLaneColumns(a);
    MixLaneColumns(b);
    StateColumnsOfLanes(a, b);
  }

  /** The InvMixColumns loop body on both lanes is InvMixColumns on the state. */
  lemma InvMixLaneState(a: bv64, b: bv64)
    ensures StateBytes(InvMixLane(a), InvMixLane(b)) == Fips197.InvMixColumns(StateBytes(a, b))
  {
    hide InvMixLane, InvMixColumn;
    InvMixLaneColumns(a);
    InvMixLaneColumns(b);
    StateColumnsOfLanes(a, b);
  }

  /** The round keys K0 .. KNr held in lanes 2r and 2r + 1 of a lane-format schedule. */
  function LaneKeys(ws: seq<bv64>, nr: nat): (ks: seq<seq<bv8>>)
    requires 2 * nr + 1 < |ws|
    ensures |ks| == nr + 1 && Fips197.Blocks(ks)
    ensures forall r :: 0 <= r <= nr ==> ks[r] == StateBytes(ws[2 * r], ws[2 * r + 1])
  {
    seq(nr + 1, r requires 0 <= r <= nr => StateBytes(ws[2 * r], ws[2 * r + 1]))
  }

  /** The round keys read from the lanes are those of section 5.2 read from the words the lanes hold. */
  lemma LaneKeysRoundKeys(ws: seq<bv64>, nr: nat)
    requires 2 * nr + 1 < |ws|
    ensures LaneKeys(ws, nr) == Fips197.RoundKeys(LaneWords(ws[..2 * (nr + 1)]), nr)
  {
    var w := LaneWords(ws[..2 * (nr + 1)]);
    forall r | 0 <= r <= nr
      ensures LaneKeys(ws, nr)[r] == Fips197.RoundKey(w, r)
    {
      LaneWordsRoundKey(ws[..2 * (nr + 1)], r);
    }
  }
}
