/**
 * One column of the AES state as a four-term polynomial with coefficients in
 * GF(2^8) (FIPS 197 section 4.3), and the column mixing of sections 5.1.3
 * and 5.3.3: multiplication modulo x^4 + 1 by a(x) = {03}x^3 + {01}x^2 +
 * {01}x + {02} and by its inverse a^-1(x) = {0b}x^3 + {0d}x^2 + {09}x + {0e}.
 */
module Columns {
  import opened Field
  import opened Forms

  /** The bytes of one column, top (row 0) to bottom (row 3). */
  datatype Column = Column(b0: bv8, b1: bv8, b2: bv8, b3: bv8)

  /** The four bytes of a column, top to bottom. */
  function ColumnBytes(col: Column): (b: seq<bv8>)
    ensures |b| == 4
  {
    [col.b0, col.b1, col.b2, col.b3]
  }

  /** k0•b0 + k1•b1 + k2•b2 + k3•b3: one row of a matrix times the column. */
  function Row(k0: bv8, k1: bv8, k2: bv8, k3: bv8, c: Column): bv8
  {
    Add(Add(Mul(k0, c.b0), Mul(k1, c.b1)), Add(Mul(k2, c.b2), Mul(k3, c.b3)))
  }

  /** Section 5.1.3, equation (5.6): s'_r = {02}•s_r + {03}•s_(r+1) + s_(r+2) + s_(r+3). */
  function MixColumn(c: Column): Column
  {
    Column(Row(0x02, 0x03, 0x01, 0x01, c), Row(0x01, 0x02, 0x03, 0x01, c),
           Row(0x01, 0x01, 0x02, 0x03, c), Row(0x03, 0x01, 0x01, 0x02, c))
  }

  /** Section 5.3.3, equation (5.10): s'_r = {0e}•s_r + {0b}•s_(r+1) + {0d}•s_(r+2) + {09}•s_(r+3). */
  function InvMixColumn(c: Column): Column
  {
    Column(Row(0x0E, 0x0B, 0x0D, 0x09, c), Row(0x09, 0x0E, 0x0B, 0x0D, c),
           Row(0x0D, 0x09, 0x0E, 0x0B, c), Row(0x0B, 0x0D, 0x09, 0x0E, c))
  }

  // The rows with the products by constants written with xtime (section 4.2.1),
  // in the form the table-free implementation computes them.

  /** {02}•a + {03}•b + c + d, with {02} as xtime and {03} as the byte plus its xtime. */
  function MixRowXtime(a: bv8, b: bv8, c: bv8, d: bv8): bv8
  {
    Add(Add(Xtime(a), Add(b, Xtime(b))), Add(c, d))
  }

  /** {0e}•a + {0b}•b + {0d}•c + {09}•d, computed as the row of equation (5.6)
      plus {04}•(a + c) plus {02}•{04}•(a + c) plus {02}•{04}•(b + d), since
      {0e} = {02} + {04} + {08}, {0b} = {03} + {08}, {0d} = {01} + {04} + {08}
      and {09} = {01} + {08}. */
  function InvMixRowXtime(a: bv8, b: bv8, c: bv8, d: bv8): bv8
  {
    var e := Add(Xtime(Xtime(a)), Xtime(Xtime(c)));
    var o := Add(Xtime(Xtime(b)), Xtime(Xtime(d)));
    Add(Add(MixRowXtime(a, b, c, d), e), Add(Xtime(e), Xtime(o)))
  }

  // Forms (see module Forms) of the rows above.

  // The forms of the products by the coefficients, as Field.MulBy01 ... MulBy0E expand them.

  function Form02(f: Form): Form { Dbl(f) }
  function Form03(f: Form): Form { Sum(f, Dbl(f)) }
  function Form09(f: Form): Form { Sum(f, Dbl(Dbl(Dbl(f)))) }
  function Form0B(f: Form): Form { Sum(f, Sum(Dbl(f), Dbl(Dbl(Dbl(f))))) }
  function Form0D(f: Form): Form { Sum(f, Sum(Dbl(Dbl(f)), Dbl(Dbl(Dbl(f))))) }
  function Form0E(f: Form): Form { Sum(Dbl(f), Sum(Dbl(Dbl(f)), Dbl(Dbl(Dbl(f))))) }

  /** The form of a row p0 + p1 + p2 + p3 of products. */
  function SumForm(p0: Form, p1: Form, p2: Form, p3: Form): Form
  {
    Sum(Sum(p0, p1), Sum(p2, p3))
  }

  function MixRowForm(f0: Form, f1: Form, f2: Form, f3: Form): Form
  {
    Sum(Sum(Dbl(f0), Sum(f1, Dbl(f1))), Sum(f2, f3))
  }

  function InvMixRowForm(f0: Form, f1: Form, f2: Form, f3: Form): Form
  {
    var e := Sum(Dbl(Dbl(f0)), Dbl(Dbl(f2)));
    var o := Sum(Dbl(Dbl(f1)), Dbl(Dbl(f3)));
    Sum(Sum(MixRowForm(f0, f1, f2, f3), e), Sum(Dbl(e), Dbl(o)))
  }

  // Each row of equations (5.6) and (5.10) computed with xtime: row r starts
  // its coefficients at byte r.

  lemma MixRow0Xtime(a: bv8, b: bv8, c: bv8, d: bv8)
    ensures Row(0x02, 0x03, 0x01, 0x01, Column(a, b, c, d)) == MixRowXtime(a, b, c, d)
  {
    hide Add, Xtime, Mul;
    MulBy02(a);
    MulBy03(b);
    MulBy01(c);
    MulBy01(d);
    EquivalentValue(SumForm(Form02(V0), Form03(V1), V2, V3), MixRowForm(V0, V1, V2, V3), a, b, c, d);
  }

  lemma MixRow1Xtime(a: bv8, b: bv8, c: bv8, d: bv8)
    ensures Row(0x01, 0x02, 0x03, 0x01, Column(a, b, c, d)) == MixRowXtime(b, c, d, a)
  {
    hide Add, Xtime, Mul;
    MulBy01(a);
    MulBy02(b);
    MulBy03(c);
    MulBy01(d);
    EquivalentValue(SumForm(V0, Form02(V1), Form03(V2), V3), MixRowForm(V1, V2, V3, V0), a, b, c, d);
  }

  lemma MixRow2Xtime(a: bv8, b: bv8, c: bv8, d: bv8)
    ensures Row(0x01, 0x01, 0x02, 0x03, Column(a, b, c, d)) == MixRowXtime(c, d, a, b)
  {
    hide Add, Xtime, Mul;
    MulBy01(a);
    MulBy01(b);
    MulBy02(c);
    MulBy03(d);
    EquivalentValue(SumForm(V0, V1, Form02(V2), Form03(V3)), MixRowForm(V2, V3, V0, V1), a, b, c, d);
  }

  lemma MixRow3Xtime(a: bv8, b: bv8, c: bv8, d: bv8)
    ensures Row(0x03, 0x01, 0x01, 0x02, Column(a, b, c, d)) == MixRowXtime(d, a, b, c)
  {
    hide Add, Xtime, Mul;
    MulBy03(a);
    MulBy01(b);
    MulBy01(c);
    MulBy02(d);
    EquivalentValue(SumForm(Form03(V0), V1, V2, Form02(V3)), MixRowForm(V3, V0, V1, V2), a, b, c, d);
  }

  lemma InvMixRow0Xtime(a: bv8, b: bv8, c: bv8, d: bv8)
    ensures Row(0x0E, 0x0B, 0x0D, 0x09, Column(a, b, c, d)) == InvMixRowXtime(a, b, c, d)
  {
    hide Add, Xtime, Mul;
    MulBy0E(a);
    MulBy0B(b);
    MulBy0D(c);
    MulBy09(d);
    EquivalentValue(SumForm(Form0E(V0), Form0B(V1), Form0D(V2), Form09(V3)), InvMixRowForm(V0, V1, V2, V3), a, b, c, d);
  }

  lemma InvMixRow1Xtime(a: bv8, b: bv8, c: bv8, d: bv8)
    ensures Row(0x09, 0x0E, 0x0B, 0x0D, Column(a, b, c, d)) == InvMixRowXtime(b, c, d, a)
  {
    hide Add, Xtime, Mul;
    MulBy09(a);
    MulBy0E(b);
    MulBy0B(c);
    MulBy0D(d);
    EquivalentValue(SumForm(Form09(V0), Form0E(V1), Form0B(V2), Form0D(V3)), InvMixRowForm(V1, V2, V3, V0), a, b, c, d);
  }

  lemma InvMixRow2Xtime(a: bv8, b: bv8, c: bv8, d: bv8)
    ensures Row(0x0D, 0x09, 0x0E, 0x0B, Column(a, b, c, d)) == InvMixRowXtime(c, d, a, b)
  {
    hide Add, Xtime, Mul;
    MulBy0D(a);
    MulBy09(b);
    MulBy0E(c);
    MulBy0B(d);
    EquivalentValue(SumForm(Form0D(V0), Form09(V1), Form0E(V2), Form0B(V3)), InvMixRowForm(V2, V3, V0, V1), a, b, c, d);
  }

  lemma InvMixRow3Xtime(a: bv8, b: bv8, c: bv8, d: bv8)
    ensures Row(0x0B, 0x0D, 0x09, 0x0E, Column(a, b, c, d)) == InvMixRowXtime(d, a, b, c)
  {
    hide Add, Xtime, Mul;
    MulBy0B(a);
    MulBy0D(b);
    MulBy09(c);
    MulBy0E(d);
    EquivalentValue(SumForm(Form0B(V0), Form0D(V1), Form09(V2), Form0E(V3)), InvMixRowForm(V3, V0, V1, V2), a, b, c, d);
  }

  /** Equation (5.6) row by row: row r starts its coefficients {02}, {03}, {01}, {01} at byte r. */
  lemma MixColumnXtime(c: Column)
    ensures MixColumn(c) == Column(MixRowXtime(c.b0, c.b1, c.b2, c.b3), MixRowXtime(c.b1, c.b2, c.b3, c.b0),
                                   MixRowXtime(c.b2, c.b3, c.b0, c.b1), MixRowXtime(c.b3, c.b0, c.b1, c.b2))
  {
    hide Row, MixRowXtime;
    MixRow0Xtime(c.b0, c.b1, c.b2, c.b3);
    MixRow1Xtime(c.b0, c.b1, c.b2, c.b3);
    MixRow2Xtime(c.b0, c.b1, c.b2, c.b3);
    MixRow3Xtime(c.b0, c.b1, c.b2, c.b3);
  }

  /** Equation (5.10) row by row: row r starts its coefficients {0e}, {0b}, {0d}, {09} at byte r. */
  lemma InvMixColumnXtime(c: Column)
    ensures InvMixColumn(c) == Column(InvMixRowXtime(c.b0, c.b1, c.b2, c.b3), InvMixRowXtime(c.b1, c.b2, c.b3, c.b0),
                                      InvMixRowXtime(c.b2, c.b3, c.b0, c.b1), InvMixRowXtime(c.b3, c.b0, c.b1, c.b2))
  {
    hide Row, InvMixRowXtime;
    InvMixRow0Xtime(c.b0, c.b1, c.b2, c.b3);
    InvMixRow1Xtime(c.b0, c.b1, c.b2, c.b3);
    InvMixRow2Xtime(c.b0, c.b1, c.b2, c.b3);
    InvMixRow3Xtime(c.b0, c.b1, c.b2, c.b3);
  }

  /** InvMixColumns undoes MixColumns on the top byte of the column (a, b, c, d). */
  lemma InvMixMixRow(a: bv8, b: bv8, c: bv8, d: bv8)
    ensures InvMixRowXtime(MixRowXtime(a, b, c, d), MixRowXtime(b, c, d, a),
                           MixRowXtime(c, d, a, b), MixRowXtime(d, a, b, c)) == a
  {
    hide Add, Xtime;
    EquivalentValue(InvMixRowForm(MixRowForm(V0, V1, V2, V3), MixRowForm(V1, V2, V3, V0),
                                  MixRowForm(V2, V3, V0, V1), MixRowForm(V3, V0, V1, V2)), V0, a, b, c, d);
  }

  /** MixColumns undoes InvMixColumns on the top byte of the column (a, b, c, d). */
  lemma MixInvMixRow(a: bv8, b: bv8, c: bv8, d: bv8)
    ensures MixRowXtime(InvMixRowXtime(a, b, c, d), InvMixRowXtime(b, c, d, a),
                        InvMixRowXtime(c, d, a, b), InvMixRowXtime(d, a, b, c)) == a
  {
    hide Add, Xtime;
    EquivalentValue(MixRowForm(InvMixRowForm(V0, V1, V2, V3), InvMixRowForm(V1, V2, V3, V0),
                               InvMixRowForm(V2, V3, V0, V1), InvMixRowForm(V3, V0, V1, V2)), V0, a, b, c, d);
  }

  /** Section 5.3.3: InvMixColumns is the inverse of MixColumns on every column. */
  lemma InvMixMixColumn(c: Column)
    ensures InvMixColumn(MixColumn(c)) == c
  {
    hide InvMixRowXtime, MixRowXtime, MixColumn, InvMixColumn;
    MixColumnXtime(c);
    InvMixColumnXtime(MixColumn(c));
    InvMixMixRow(c.b0, c.b1, c.b2, c.b3);
    InvMixMixRow(c.b1, c.b2, c.b3, c.b0);
    InvMixMixRow(c.b2, c.b3, c.b0, c.b1);
    InvMixMixRow(c.b3, c.b0, c.b1, c.b2);
  }

  /** And the other way round: MixColumns undoes InvMixColumns. */
  lemma MixInvMixColumn(c: Column)
    ensures MixColumn(InvMixColumn(c)) == c
  {
    hide InvMixRowXtime, MixRowXtime, MixColumn, InvMixColumn;
    InvMixColumnXtime(c);
    MixColumnXtime(InvMixColumn(c));
    MixInvMixRow(c.b0, c.b1, c.b2, c.b3);
    MixInvMixRow(c.b1, c.b2, c.b3, c.b0);
    MixInvMixRow(c.b2, c.b3, c.b0, c.b1);
    MixInvMixRow(c.b3, c.b0, c.b1, c.b2);
  }
}
