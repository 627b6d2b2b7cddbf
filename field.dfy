/**
 * Arithmetic in the finite field GF(2^8) of FIPS 197 section 4: a byte is a
 * polynomial over GF(2) of degree below 8, the sum of two bytes is their
 * exclusive or, and products are reduced modulo m(x) = x^8 + x^4 + x^3 + x + 1.
 */
module Field {

  /** Section 4.1: addition is the bitwise exclusive or. */
  function Add(x: bv8, y: bv8): bv8
  {
    x ^ y
  }

  /** Section 4.2.1: multiplication by x ({02}), a shift left followed by an
      exclusive or with {1b} exactly when bit 7 was set.  The reduction is
      written without a branch: 0 - (b >> 7) is all ones exactly when bit 7
      is set. */
  function Xtime(b: bv8): bv8
  {
    (b << 1) ^ ((0 - (b >> 7)) & 0x1B)
  }

  /** Section 4.2: the product a • b, built as in section 4.2.1: b is added
      once for the low bit of a, and the rest of a multiplies xtime(b). */
  function Mul(a: bv8, b: bv8): bv8
    decreases a
  {
    if a == 0 then 0
    else Add(if a & 1 == 0 then 0 else b, Mul(a >> 1, Xtime(b)))
  }

  /** The powers x^n of x: {01}, {02}, {04}, ... (the round-constant bytes of section 5.2). */
  function XtimePower(n: nat): bv8
  {
    if n == 0 then 1 else Xtime(XtimePower(n - 1))
  }

  /** Section 4.2.1 in its own words: shift left, and reduce by {1b} when the
      top bit was set. */
  lemma XtimeShiftReduce(b: bv8)
    ensures Xtime(b) == if b & 0x80 == 0 then b << 1 else (b << 1) ^ 0x1B
  {
  }

  // The laws of addition: an abelian group in which every byte is its own
  // negative.

  lemma AddComm(x: bv8, y: bv8)
    ensures Add(x, y) == Add(y, x)
  {
  }

  lemma AddAssoc(x: bv8, y: bv8, z: bv8)
    ensures Add(Add(x, y), z) == Add(x, Add(y, z))
  {
  }

  lemma AddSelf(x: bv8)
    ensures Add(x, x) == 0
  {
  }

  lemma AddZero(x: bv8)
    ensures Add(x, 0) == x && Add(0, x) == x
  {
  }

  /** Two bytes whose sum is zero are equal. */
  lemma AddCancel(x: bv8, y: bv8)
    requires Add(x, y) == 0
    ensures x == y
  {
  }

  /** Regrouping four summands, from the group laws alone. */
  lemma AddSwap(p: bv8, q: bv8, r: bv8, s: bv8)
    ensures Add(Add(p, q), Add(r, s)) == Add(Add(p, r), Add(q, s))
  {
    hide Add;
    AddAssoc(p, q, Add(r, s));
    AddAssoc(q, r, s);
    AddComm(q, r);
    AddAssoc(r, q, s);
    AddAssoc(p, r, Add(q, s));
  }

  /** xtime distributes over addition (multiplication by {02} is linear). */
  lemma XtimeAdd(x: bv8, y: bv8)
    ensures Xtime(Add(x, y)) == Add(Xtime(x), Xtime(y))
  {
  }

  lemma XtimeZero()
    ensures Xtime(0) == 0
  {
  }

  // The products by the coefficients of MixColumns and InvMixColumns, written
  // as sums of xtime powers (the method of section 4.2.1).

  /** One step of the product: the low bit of a selects b, the rest of a multiplies xtime(b). */
  lemma MulStep(a: bv8, b: bv8)
    requires a != 0
    ensures Mul(a, b) == Add(if a & 1 == 0 then 0 else b, Mul(a >> 1, Xtime(b)))
  {
  }

  lemma MulBy01(b: bv8)
    ensures Mul(0x01, b) == b
  {
  }

  lemma MulBy02(b: bv8)
    ensures Mul(0x02, b) == Xtime(b)
  {
    MulStep(0x02, b);
    MulBy01(Xtime(b));
  }

  lemma MulBy03(b: bv8)
    ensures Mul(0x03, b) == Add(b, Xtime(b))
  {
    MulStep(0x03, b);
    MulBy01(Xtime(b));
  }

  lemma MulBy04(b: bv8)
    ensures Mul(0x04, b) == Xtime(Xtime(b))
  {
    MulStep(0x04, b);
    MulBy02(Xtime(b));
  }

  lemma MulBy05(b: bv8)
    ensures Mul(0x05, b) == Add(b, Xtime(Xtime(b)))
  {
    MulStep(0x05, b);
    MulBy02(Xtime(b));
  }

  lemma MulBy06(b: bv8)
    ensures Mul(0x06, b) == Add(Xtime(b), Xtime(Xtime(b)))
  {
    MulStep(0x06, b);
    MulBy03(Xtime(b));
  }

  lemma MulBy07(b: bv8)
    ensures Mul(0x07, b) == Add(b, Add(Xtime(b), Xtime(Xtime(b))))
  {
    MulStep(0x07, b);
    MulBy03(Xtime(b));
  }

  lemma MulBy09(b: bv8)
    ensures Mul(0x09, b) == Add(b, Xtime(Xtime(Xtime(b))))
  {
    MulStep(0x09, b);
    MulBy04(Xtime(b));
  }

  lemma MulBy0B(b: bv8)
    ensures Mul(0x0B, b) == Add(b, Add(Xtime(b), Xtime(Xtime(Xtime(b)))))
  {
    MulStep(0x0B, b);
    MulBy05(Xtime(b));
  }

  lemma MulBy0D(b: bv8)
    ensures Mul(0x0D, b) == Add(b, Add(Xtime(Xtime(b)), Xtime(Xtime(Xtime(b)))))
  {
    MulStep(0x0D, b);
    MulBy06(Xtime(b));
  }

  lemma MulBy0E(b: bv8)
    ensures Mul(0x0E, b) == Add(Xtime(b), Add(Xtime(Xtime(b)), Xtime(Xtime(Xtime(b)))))
  {
    MulStep(0x0E, b);
    MulBy07(Xtime(b));
  }

  /** Multiplying zero gives zero. */
  lemma {:induction false} MulZero(a: bv8)
    ensures Mul(a, 0) == 0
    decreases a
  {
    if a != 0 {
      MulZero(a >> 1);
      XtimeZero();
    }
  }

  /** The first ten powers of x are the round-constant bytes listed in section 5.2. */
  lemma XtimePowerValues()
    ensures XtimePower(0) == 0x01 && XtimePower(1) == 0x02 && XtimePower(2) == 0x04
    ensures XtimePower(3) == 0x08 && XtimePower(4) == 0x10 && XtimePower(5) == 0x20
    ensures XtimePower(6) == 0x40 && XtimePower(7) == 0x80 && XtimePower(8) == 0x1B
    ensures XtimePower(9) == 0x36
  {
  }
}
