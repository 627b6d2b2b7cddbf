/**
 * The column mixing of the table-free AES on one 64-bit lane, which holds two
 * state columns (bytes 0..3 and 4..7).  The source mixes a lane with two
 * byte-swapping masks, the eight-fold xtime of XtimeLong and eight byte-wise
 * exclusive ors through the lane's byte view; this module proves that this
 * computes equations (5.6) and (5.10) of FIPS 197 (sections 5.1.3 and 5.3.3)
 * on both columns.
 *
 * The proofs go one byte at a time: first, decided on bits, what a byte of
 * each stage is in terms of the bytes of the lanes it is computed from; then,
 * with the bit-level definitions hidden, the sums these give for each byte of
 * the result; last, the field algebra of module Forms shows these sums are
 * the rows of MixColumns and InvMixColumns.
 */
module MixLanes {
  import opened Field
  import opened Forms
  import opened Bytes
  import opened Columns
  import opened LaneOps

  /** Swaps the two 16-bit halves of each 32-bit word of a lane: byte k moves to byte k ^ 2. */
  function Swap16(d: bv64): bv64
  {
    ((d & 0xFFFF0000FFFF0000) >> 16) | ((d & 0x0000FFFF0000FFFF) << 16)
  }

  /** Swaps the two bytes of each 16-bit half-word of a lane: byte k moves to byte k ^ 1. */
  function Swap8(d: bv64): bv64
  {
    ((d & 0xFF00FF00FF00FF00) >> 8) | ((d & 0x00FF00FF00FF00FF) << 8)
  }

  /** The eight byte-wise exclusive ors at the end of the MixColumns loop body,
      through the byte view of the lanes: byte k of s plus the next byte of the
      same column of s1. */
  function AddNextRow(s: bv64, s1: bv64): bv64
  {
    Pack64([Add(Byte0(s), Byte1(s1)), Add(Byte1(s), Byte2(s1)),
            Add(Byte2(s), Byte3(s1)), Add(Byte3(s), Byte0(s1)),
            Add(Byte4(s), Byte5(s1)), Add(Byte5(s), Byte6(s1)),
            Add(Byte6(s), Byte7(s1)), Add(Byte7(s), Byte4(s1))])
  }

  /** The body of the MixColumns loop on one lane d: every byte becomes the sum
      of its column, plus itself, plus {02} times itself, plus {02} times the
      next byte of its column. */
  function MixLane(d: bv64): bv64
  {
    var s := d;
    var s := XorLane(s, Swap16(s));
    var s := XorLane(s, Swap8(s));
    var s := XorLane(s, d);
    var s1 := XtimeLong(d);
    var s := XorLane(s, s1);
    AddNextRow(s, s1)
  }

  /** The body of the InvMixColumns loop on one lane d.  It begins with the
      statements of MixLane, then adds {04} times the byte plus the byte two
      rows away, and {02} times the sum of those for the byte and its partner
      under the 8-bit swap. */
  function InvMixLane(d: bv64): bv64
  {
    var s := MixLane(d);
    var s1 := XtimeLong(XtimeLong(d));
    var s1 := XorLane(s1, Swap16(s1));
    var s := XorLane(s, s1);
    var s1 := XtimeLong(s1);
    var s1 := XorLane(s1, Swap8(s1));
    XorLane(s, s1)
  }

  // What each stage does to the bytes of a lane, decided on bits.

  lemma Swap16Bytes(d: bv64)
    ensures Byte0(Swap16(d)) == Byte2(d)
    ensures Byte1(Swap16(d)) == Byte3(d)
    ensures Byte2(Swap16(d)) == Byte0(d)
    ensures Byte3(Swap16(d)) == Byte1(d)
    ensures Byte4(Swap16(d)) == Byte6(d)
    ensures Byte5(Swap16(d)) == Byte7(d)
    ensures Byte6(Swap16(d)) == Byte4(d)
    ensures Byte7(Swap16(d)) == Byte5(d)
  {
  }

  lemma Swap8Bytes(d: bv64)
    ensures Byte0(Swap8(d)) == Byte1(d)
    ensures Byte1(Swap8(d)) == Byte0(d)
    ensures Byte2(Swap8(d)) == Byte3(d)
    ensures Byte3(Swap8(d)) == Byte2(d)
    ensures Byte4(Swap8(d)) == Byte5(d)
    ensures Byte5(Swap8(d)) == Byte4(d)
    ensures Byte6(Swap8(d)) == Byte7(d)
    ensures Byte7(Swap8(d)) == Byte6(d)
  {
  }

  lemma XtimeLaneBytes(d: bv64)
    ensures Byte0(XtimeLong(d)) == Xtime(Byte0(d))
    ensures Byte1(XtimeLong(d)) == Xtime(Byte1(d))
    ensures Byte2(XtimeLong(d)) == Xtime(Byte2(d))
    ensures Byte3(XtimeLong(d)) == Xtime(Byte3(d))
    ensures Byte4(XtimeLong(d)) == Xtime(Byte4(d))
    ensures Byte5(XtimeLong(d)) == Xtime(Byte5(d))
    ensures Byte6(XtimeLong(d)) == Xtime(Byte6(d))
    ensures Byte7(XtimeLong(d)) == Xtime(Byte7(d))
  {
    XtimeLongLane0(d);
    XtimeLongLane1(d);
    XtimeLongLane2(d);
    XtimeLongLane3(d);
    XtimeLongLane4(d);
    XtimeLongLane5(d);
    XtimeLongLane6(d);
    XtimeLongLane7(d);
  }

  lemma AddNextRowBytes(s: bv64, s1: bv64)
    ensures Byte0(AddNextRow(s, s1)) == Add(Byte0(s), Byte1(s1))
    ensures Byte1(AddNextRow(s, s1)) == Add(Byte1(s), Byte2(s1))
    ensures Byte2(AddNextRow(s, s1)) == Add(Byte2(s), Byte3(s1))
    ensures Byte3(AddNextRow(s, s1)) == Add(Byte3(s), Byte0(s1))
    ensures Byte4(AddNextRow(s, s1)) == Add(Byte4(s), Byte5(s1))
    ensures Byte5(AddNextRow(s, s1)) == Add(Byte5(s), Byte6(s1))
    ensures Byte6(AddNextRow(s, s1)) == Add(Byte6(s), Byte7(s1))
    ensures Byte7(AddNextRow(s, s1)) == Add(Byte7(s), Byte4(s1))
  {
    hide Add;
    Unpack64Pack64([Add(Byte0(s), Byte1(s1)), Add(Byte1(s), Byte2(s1)),
      Add(Byte2(s), Byte3(s1)), Add(Byte3(s), Byte0(s1)),
      Add(Byte4(s), Byte5(s1)), Add(Byte5(s), Byte6(s1)),
      Add(Byte6(s), Byte7(s1)), Add(Byte7(s), Byte4(s1))]);
  }

  // The sums each byte of the result is made of.

  /** What the MixColumns body leaves in a byte o whose partner under the 16-bit
      swap is t, whose partner under the 8-bit swap is p (with 16-bit partner q),
      and whose next row holds n. */
  function MixByte(o: bv8, t: bv8, p: bv8, q: bv8, n: bv8): bv8
  {
    Add(Add(Add(Add(Add(o, t), Add(p, q)), o), Xtime(o)), Xtime(n))
  }

  /** What the InvMixColumns body adds to the result m of its MixColumns statements
      in a byte whose {04} multiple is e0, with e2, e1 and e3 the {04} multiples of
      its partners under the 16-bit swap, the 8-bit swap and both. */
  function InvMixByte(m: bv8, e0: bv8, e2: bv8, e1: bv8, e3: bv8): bv8
  {
    Add(Add(m, Add(e0, e2)), Add(Xtime(Add(e0, e2)), Xtime(Add(e1, e3))))
  }

  lemma MixLaneByte0(d: bv64)
    ensures Byte0(MixLane(d)) == MixByte(Byte0(d), Byte2(d), Byte1(d), Byte3(d), Byte1(d))
  {
    hide Add, Xtime, XtimeLong, Swap16, Swap8, AddNextRow, XorLane;
    hide Byte0, Byte1, Byte2, Byte3, Byte4, Byte5, Byte6, Byte7;
    var s0 := XorLane(d, Swap16(d));
    var s1 := XorLane(s0, Swap8(s0));
    var s2 := XorLane(s1, d);
    var x := XtimeLong(d);
    var s3 := XorLane(s2, x);
    Swap16Bytes(d);
    Swap8Bytes(s0);
    XtimeLaneBytes(d);
    AddNextRowBytes(s3, x);
  }

  lemma MixLaneByte1(d: bv64)
    ensures Byte1(MixLane(d)) == MixByte(Byte1(d), Byte3(d), Byte0(d), Byte2(d), Byte2(d))
  {
    hide Add, Xtime, XtimeLong, Swap16, Swap8, AddNextRow, XorLane;
    hide Byte0, Byte1, Byte2, Byte3, Byte4, Byte5, Byte6, Byte7;
    var s0 := XorLane(d, Swap16(d));
    var s1 := XorLane(s0, Swap8(s0));
    var s2 := XorLane(s1, d);
    var x := XtimeLong(d);
    var s3 := XorLane(s2, x);
    Swap16Bytes(d);
    Swap8Bytes(s0);
    XtimeLaneBytes(d);
    AddNextRowBytes(s3, x);
  }

  lemma MixLaneByte2(d: bv64)
    ensures Byte2(MixLane(d)) == MixByte(Byte2(d), Byte0(d), Byte3(d), Byte1(d), Byte3(d))
  {
    hide Add, Xtime, XtimeLong, Swap16, Swap8, AddNextRow, XorLane;
    hide Byte0, Byte1, Byte2, Byte3, Byte4, Byte5, Byte6, Byte7;
    var s0 := XorLane(d, Swap16(d));
    var s1 := XorLane(s0, Swap8(s0));
    var s2 := XorLane(s1, d);
    var x := XtimeLong(d);
    var s3 := XorLane(s2, x);
    Swap16Bytes(d);
    Swap8Bytes(s0);
    XtimeLaneBytes(d);
    AddNextRowBytes(s3, x);
  }

  lemma MixLaneByte3(d: bv64)
    ensures Byte3(MixLane(d)) == MixByte(Byte3(d), Byte1(d), Byte2(d), Byte0(d), Byte0(d))
  {
    hide Add, Xtime, XtimeLong, Swap16, Swap8, AddNextRow, XorLane;
    hide Byte0, Byte1, Byte2, Byte3, Byte4, Byte5, Byte6, Byte7;
    var s0 := XorLane(d, Swap16(d));
    var s1 := XorLane(s0, Swap8(s0));
    var s2 := XorLane(s1, d);
    var x := XtimeLong(d);
    var s3 := XorLane(s2, x);
    Swap16Bytes(d);
    Swap8Bytes(s0);
    XtimeLaneBytes(d);
    AddNextRowBytes(s3, x);
  }

  lemma MixLaneByte4(d: bv64)
    ensures Byte4(MixLane(d)) == MixByte(Byte4(d), Byte6(d), Byte5(d), Byte7(d), Byte5(d))
  {
    hide Add, Xtime, XtimeLong, Swap16, Swap8, AddNextRow, XorLane;
    hide Byte0, Byte1, Byte2, Byte3, Byte4, Byte5, Byte6, Byte7;
    var s0 := XorLane(d, Swap16(d));
    var s1 := XorLane(s0, Swap8(s0));
    var s2 := XorLane(s1, d);
    var x := XtimeLong(d);
    var s3 := XorLane(s2, x);
    Swap16Bytes(d);
    Swap8Bytes(s0);
    XtimeLaneBytes(d);
    AddNextRowBytes(s3, x);
  }

  lemma MixLaneByte5(d: bv64)
    ensures Byte5(MixLane(d)) == MixByte(Byte5(d), Byte7(d), Byte4(d), Byte6(d), Byte6(d))
  {
    hide Add, Xtime, XtimeLong, Swap16, Swap8, AddNextRow, XorLane;
    hide Byte0, Byte1, Byte2, Byte3, Byte4, Byte5, Byte6, Byte7;
    var s0 := XorLane(d, Swap16(d));
    var s1 := XorLane(s0, Swap8(s0));
    var s2 := XorLane(s1, d);
    var x := XtimeLong(d);
    var s3 := XorLane(s2, x);
    Swap16Bytes(d);
    Swap8Bytes(s0);
    XtimeLaneBytes(d);
    AddNextRowBytes(s3, x);
  }

  lemma MixLaneByte6(d: bv64)
    ensures Byte6(MixLane(d)) == MixByte(Byte6(d), Byte4(d), Byte7(d), Byte5(d), Byte7(d))
  {
    hide Add, Xtime, XtimeLong, Swap16, Swap8, AddNextRow, XorLane;
    hide Byte0, Byte1, Byte2, Byte3, Byte4, Byte5, Byte6, Byte7;
    var s0 := XorLane(d, Swap16(d));
    var s1 := XorLane(s0, Swap8(s0));
    var s2 := XorLane(s1, d);
    var x := XtimeLong(d);
    var s3 := XorLane(s2, x);
    Swap16Bytes(d);
    Swap8Bytes(s0);
    XtimeLaneBytes(d);
    AddNextRowBytes(s3, x);
  }

  lemma MixLaneByte7(d: bv64)
    ensures Byte7(MixLane(d)) == MixByte(Byte7(d), Byte5(d), Byte6(d), Byte4(d), Byte4(d))
  {
    hide Add, Xtime, XtimeLong, Swap16, Swap8, AddNextRow, XorLane;
    hide Byte0, Byte1, Byte2, Byte3, Byte4, Byte5, Byte6, Byte7;
    var s0 := XorLane(d, Swap16(d));
    var s1 := XorLane(s0, Swap8(s0));
    var s2 := XorLane(s1, d);
    var x := XtimeLong(d);
    var s3 := XorLane(s2, x);
    Swap16Bytes(d);
    Swap8Bytes(s0);
    XtimeLaneBytes(d);
    AddNextRowBytes(s3, x);
  }

  lemma InvMixLaneByte0(d: bv64)
    ensures Byte0(InvMixLane(d)) == InvMixByte(Byte0(MixLane(d)), Xtime(Xtime(Byte0(d))), Xtime(Xtime(Byte2(d))), Xtime(Xtime(Byte1(d))), Xtime(Xtime(Byte3(d))))
  {
    hide Add, Xtime, XtimeLong, Swap16, Swap8, MixLane, XorLane;
    hide Byte0, Byte1, Byte2, Byte3, Byte4, Byte5, Byte6, Byte7;
    var m := MixLane(d);
    var e := XtimeLong(XtimeLong(d));
    var u := XorLane(e, Swap16(e));
    var s := XorLane(m, u);
    var t := XtimeLong(u);
    var v := XorLane(t, Swap8(t));
    XtimeLaneBytes(d);
    XtimeLaneBytes(XtimeLong(d));
    Swap16Bytes(e);
    XtimeLaneBytes(u);
    Swap8Bytes(t);
  }

  lemma InvMixLaneByte1(d: bv64)
    ensures Byte1(InvMixLane(d)) == InvMixByte(Byte1(MixLane(d)), Xtime(Xtime(Byte1(d))), Xtime(Xtime(Byte3(d))), Xtime(Xtime(Byte0(d))), Xtime(Xtime(Byte2(d))))
  {
    hide Add, Xtime, XtimeLong, Swap16, Swap8, MixLane, XorLane;
    hide Byte0, Byte1, Byte2, Byte3, Byte4, Byte5, Byte6, Byte7;
    var m := MixLane(d);
    var e := XtimeLong(XtimeLong(d));
    var u := XorLane(e, Swap16(e));
    var s := XorLane(m, u);
    var t := XtimeLong(u);
    var v := XorLane(t, Swap8(t));
    XtimeLaneBytes(d);
    XtimeLaneBytes(XtimeLong(d));
    Swap16Bytes(e);
    XtimeLaneBytes(u);
    Swap8Bytes(t);
  }

  lemma InvMixLaneByte2(d: bv64)
    ensures Byte2(InvMixLane(d)) == InvMixByte(Byte2(MixLane(d)), Xtime(Xtime(Byte2(d))), Xtime(Xtime(Byte0(d))), Xtime(Xtime(Byte3(d))), Xtime(Xtime(Byte1(d))))
  {
    hide Add, Xtime, XtimeLong, Swap16, Swap8, MixLane, XorLane;
    hide Byte0, Byte1, Byte2, Byte3, Byte4, Byte5, Byte6, Byte7;
    var m := MixLane(d);
    var e := XtimeLong(XtimeLong(d));
    var u := XorLane(e, Swap16(e));
    var s := XorLane(m, u);
    var t := XtimeLong(u);
    var v := XorLane(t, Swap8(t));
    XtimeLaneBytes(d);
    XtimeLaneBytes(XtimeLong(d));
    Swap16Bytes(e);
    XtimeLaneBytes(u);
    Swap8Bytes(t);
  }

  lemma InvMixLaneByte3(d: bv64)
    ensures Byte3(InvMixLane(d)) == InvMixByte(Byte3(MixLane(d)), Xtime(Xtime(Byte3(d))), Xtime(Xtime(Byte1(d))), Xtime(Xtime(Byte2(d))), Xtime(Xtime(Byte0(d))))
  {
    hide Add, Xtime, XtimeLong, Swap16, Swap8, MixLane, XorLane;
    hide Byte0, Byte1, Byte2, Byte3, Byte4, Byte5, Byte6, Byte7;
    var m := MixLane(d);
    var e := XtimeLong(XtimeLong(d));
    var u := XorLane(e, Swap16(e));
    var s := XorLane(m, u);
    var t := XtimeLong(u);
    var v := XorLane(t, Swap8(t));
    XtimeLaneBytes(d);
    XtimeLaneBytes(XtimeLong(d));
    Swap16Bytes(e);
    XtimeLaneBytes(u);
    Swap8Bytes(t);
  }

  lemma InvMixLaneByte4(d: bv64)
    ensures Byte4(InvMixLane(d)) == InvMixByte(Byte4(MixLane(d)), Xtime(Xtime(Byte4(d))), Xtime(Xtime(Byte6(d))), Xtime(Xtime(Byte5(d))), Xtime(Xtime(Byte7(d))))
  {
    hide Add, Xtime, XtimeLong, Swap16, Swap8, MixLane, XorLane;
    hide Byte0, Byte1, Byte2, Byte3, Byte4, Byte5, Byte6, Byte7;
    var m := MixLane(d);
    var e := XtimeLong(XtimeLong(d));
    var u := XorLane(e, Swap16(e));
    var s := XorLane(m, u);
    var t := XtimeLong(u);
    var v := XorLane(t, Swap8(t));
    XtimeLaneBytes(d);
    XtimeLaneBytes(XtimeLong(d));
    Swap16Bytes(e);
    XtimeLaneBytes(u);
    Swap8Bytes(t);
  }

  lemma InvMixLaneByte5(d: bv64)
    ensures Byte5(InvMixLane(d)) == InvMixByte(Byte5(MixLane(d)), Xtime(Xtime(Byte5(d))), Xtime(Xtime(Byte7(d))), Xtime(Xtime(Byte4(d))), Xtime(Xtime(Byte6(d))))
  {
    hide Add, Xtime, XtimeLong, Swap16, Swap8, MixLane, XorLane;
    hide Byte0, Byte1, Byte2, Byte3, Byte4, Byte5, Byte6, Byte7;
    var m := MixLane(d);
    var e := XtimeLong(XtimeLong(d));
    var u := XorLane(e, Swap16(e));
    var s := XorLane(m, u);
    var t := XtimeLong(u);
    var v := XorLane(t, Swap8(t));
    XtimeLaneBytes(d);
    XtimeLaneBytes(XtimeLong(d));
    Swap16Bytes(e);
    XtimeLaneBytes(u);
    Swap8Bytes(t);
  }

  lemma InvMixLaneByte6(d: bv64)
    ensures Byte6(InvMixLane(d)) == InvMixByte(Byte6(MixLane(d)), Xtime(Xtime(Byte6(d))), Xtime(Xtime(Byte4(d))), Xtime(Xtime(Byte7(d))), Xtime(Xtime(Byte5(d))))
  {
    hide Add, Xtime, XtimeLong, Swap16, Swap8, MixLane, XorLane;
    hide Byte0, Byte1, Byte2, Byte3, Byte4, Byte5, Byte6, Byte7;
    var m := MixLane(d);
    var e := XtimeLong(XtimeLong(d));
    var u := XorLane(e, Swap16(e));
    var s := XorLane(m, u);
    var t := XtimeLong(u);
    var v := XorLane(t, Swap8(t));
    XtimeLaneBytes(d);
    XtimeLaneBytes(XtimeLong(d));
    Swap16Bytes(e);
    XtimeLaneBytes(u);
    Swap8Bytes(t);
  }

  lemma InvMixLaneByte7(d: bv64)
    ensures Byte7(InvMixLane(d)) == InvMixByte(Byte7(MixLane(d)), Xtime(Xtime(Byte7(d))), Xtime(Xtime(Byte5(d))), Xtime(Xtime(Byte6(d))), Xtime(Xtime(Byte4(d))))
  {
    hide Add, Xtime, XtimeLong, Swap16, Swap8, MixLane, XorLane;
    hide Byte0, Byte1, Byte2, Byte3, Byte4, Byte5, Byte6, Byte7;
    var m := MixLane(d);
    var e := XtimeLong(XtimeLong(d));
    var u := XorLane(e, Swap16(e));
    var s := XorLane(m, u);
    var t := XtimeLong(u);
    var v := XorLane(t, Swap8(t));
    XtimeLaneBytes(d);
    XtimeLaneBytes(XtimeLong(d));
    Swap16Bytes(e);
    XtimeLaneBytes(u);
    Swap8Bytes(t);
  }

  // The field algebra: these sums are the rows of equations (5.6) and (5.10).

  function MixByteForm(o: Form, t: Form, p: Form, q: Form, n: Form): Form
  {
    Sum(Sum(Sum(Sum(Sum(o, t), Sum(p, q)), o), Dbl(o)), Dbl(n))
  }

  /** A byte at an even row (whose 8-bit partner is the next row) and one at an
      odd row (whose 8-bit partner is the previous row) both get the row of (5.6). */
  lemma MixByteRow(a: bv8, b: bv8, c: bv8, d: bv8)
    ensures MixByte(a, c, b, d, b) == MixRowXtime(a, b, c, d)
    ensures MixByte(a, c, d, b, b) == MixRowXtime(a, b, c, d)
  {
    hide Add, Xtime;
    EquivalentValue(MixByteForm(V0, V2, V1, V3, V1), MixRowForm(V0, V1, V2, V3), a, b, c, d);
    EquivalentValue(MixByteForm(V0, V2, V3, V1, V1), MixRowForm(V0, V1, V2, V3), a, b, c, d);
  }

  lemma InvMixByteRow(a: bv8, b: bv8, c: bv8, d: bv8)
    ensures var m := MixRowXtime(a, b, c, d);
      InvMixByte(m, Xtime(Xtime(a)), Xtime(Xtime(c)), Xtime(Xtime(b)), Xtime(Xtime(d))) == InvMixRowXtime(a, b, c, d)
    ensures var m := MixRowXtime(a, b, c, d);
      InvMixByte(m, Xtime(Xtime(a)), Xtime(Xtime(c)), Xtime(Xtime(d)), Xtime(Xtime(b))) == InvMixRowXtime(a, b, c, d)
  {
    hide Add, Xtime, MixRowXtime;
    AddComm(Xtime(Xtime(b)), Xtime(Xtime(d)));
  }

  /** Byte k of MixLane is the row of equation (5.6) that starts at byte k of its column. */
  lemma MixLaneRows(d: bv64)
    ensures Byte0(MixLane(d)) == MixRowXtime(Byte0(d), Byte1(d), Byte2(d), Byte3(d))
    ensures Byte1(MixLane(d)) == MixRowXtime(Byte1(d), Byte2(d), Byte3(d), Byte0(d))
    ensures Byte2(MixLane(d)) == MixRowXtime(Byte2(d), Byte3(d), Byte0(d), Byte1(d))
    ensures Byte3(MixLane(d)) == MixRowXtime(Byte3(d), Byte0(d), Byte1(d), Byte2(d))
    ensures Byte4(MixLane(d)) == MixRowXtime(Byte4(d), Byte5(d), Byte6(d), Byte7(d))
    ensures Byte5(MixLane(d)) == MixRowXtime(Byte5(d), Byte6(d), Byte7(d), Byte4(d))
    ensures Byte6(MixLane(d)) == MixRowXtime(Byte6(d), Byte7(d), Byte4(d), Byte5(d))
    ensures Byte7(MixLane(d)) == MixRowXtime(Byte7(d), Byte4(d), Byte5(d), Byte6(d))
  {
    hide Add, Xtime, XtimeLong, Swap16, Swap8, MixLane, MixByte, MixRowXtime;
    hide Byte0, Byte1, Byte2, Byte3, Byte4, Byte5, Byte6, Byte7;
    MixLaneByte0(d);
    MixLaneByte1(d);
    MixLaneByte2(d);
    MixLaneByte3(d);
    MixLaneByte4(d);
    MixLaneByte5(d);
    MixLaneByte6(d);
    MixLaneByte7(d);
    MixByteRow(Byte0(d), Byte1(d), Byte2(d), Byte3(d));
    MixByteRow(Byte1(d), Byte2(d), Byte3(d), Byte0(d));
    MixByteRow(Byte2(d), Byte3(d), Byte0(d), Byte1(d));
    MixByteRow(Byte3(d), Byte0(d), Byte1(d), Byte2(d));
    MixByteRow(Byte4(d), Byte5(d), Byte6(d), Byte7(d));
    MixByteRow(Byte5(d), Byte6(d), Byte7(d), Byte4(d));
    MixByteRow(Byte6(d), Byte7(d), Byte4(d), Byte5(d));
    MixByteRow(Byte7(d), Byte4(d), Byte5(d), Byte6(d));
  }

  /** Byte k of InvMixLane is the row of equation (5.10) that starts at byte k of its column. */
  lemma InvMixLaneRows(d: bv64)
    ensures Byte0(InvMixLane(d)) == InvMixRowXtime(Byte0(d), Byte1(d), Byte2(d), Byte3(d))
    ensures Byte1(InvMixLane(d)) == InvMixRowXtime(Byte1(d), Byte2(d), Byte3(d), Byte0(d))
    ensures Byte2(InvMixLane(d)) == InvMixRowXtime(Byte2(d), Byte3(d), Byte0(d), Byte1(d))
    ensures Byte3(InvMixLane(d)) == InvMixRowXtime(Byte3(d), Byte0(d), Byte1(d), Byte2(d))
    ensures Byte4(InvMixLane(d)) == InvMixRowXtime(Byte4(d), Byte5(d), Byte6(d), Byte7(d))
    ensures Byte5(InvMixLane(d)) == InvMixRowXtime(Byte5(d), Byte6(d), Byte7(d), Byte4(d))
    ensures Byte6(InvMixLane(d)) == InvMixRowXtime(Byte6(d), Byte7(d), Byte4(d), Byte5(d))
    ensures Byte7(InvMixLane(d)) == InvMixRowXtime(Byte7(d), Byte4(d), Byte5(d), Byte6(d))
  {
    hide Add, Xtime, XtimeLong, Swap16, Swap8, MixLane, InvMixLane, InvMixByte, MixRowXtime, InvMixRowXtime;
    hide Byte0, Byte1, Byte2, Byte3, Byte4, Byte5, Byte6, Byte7;
    MixLaneRows(d);
    InvMixLaneByte0(d);
    InvMixLaneByte1(d);
    InvMixLaneByte2(d);
    InvMixLaneByte3(d);
    InvMixLaneByte4(d);
    InvMixLaneByte5(d);
    InvMixLaneByte6(d);
    InvMixLaneByte7(d);
    InvMixByteRow(Byte0(d), Byte1(d), Byte2(d), Byte3(d));
    InvMixByteRow(Byte1(d), Byte2(d), Byte3(d), Byte0(d));
    InvMixByteRow(Byte2(d), Byte3(d), Byte0(d), Byte1(d));
    InvMixByteRow(Byte3(d), Byte0(d), Byte1(d), Byte2(d));
    InvMixByteRow(Byte4(d), Byte5(d), Byte6(d), Byte7(d));
    InvMixByteRow(Byte5(d), Byte6(d), Byte7(d), Byte4(d));
    InvMixByteRow(Byte6(d), Byte7(d), Byte4(d), Byte5(d));
    InvMixByteRow(Byte7(d), Byte4(d), Byte5(d), Byte6(d));
  }

  /** The two columns of a lane: bytes 0..3 and bytes 4..7. */
  function LowColumn(d: bv64): Column
  {
    Column(Byte0(d), Byte1(d), Byte2(d), Byte3(d))
  }

  function HighColumn(d: bv64): Column
  {
    Column(Byte4(d), Byte5(d), Byte6(d), Byte7(d))
  }

  /** The MixColumns body transforms each of the two columns of its lane by equation (5.6). */
  lemma MixLaneColumns(d: bv64)
    ensures Unpack64(MixLane(d)) == ColumnBytes(MixColumn(LowColumn(d))) + ColumnBytes(MixColumn(HighColumn(d)))
  {
    hide MixLane, MixRowXtime, Row;
    MixLaneRows(d);
    MixColumnXtime(LowColumn(d));
    MixColumnXtime(HighColumn(d));
  }

  /** The InvMixColumns body transforms each of the two columns of its lane by equation (5.10). */
  lemma InvMixLaneColumns(d: bv64)
    ensures Unpack64(InvMixLane(d)) == ColumnBytes(InvMixColumn(LowColumn(d))) + ColumnBytes(InvMixColumn(HighColumn(d)))
  {
    hide InvMixLane, InvMixRowXtime, Row;
    InvMixLaneRows(d);
    InvMixColumnXtime(LowColumn(d));
    InvMixColumnXtime(HighColumn(d));
  }
}
