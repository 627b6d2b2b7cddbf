/**
 * Linear forms over GF(2^8) in four bytes, and a decision procedure for their
 * equality.
 *
 * MixColumns, InvMixColumns and their bit-sliced versions all compute, for
 * each output byte, a sum of xtime powers of the four bytes of a column.  A
 * Form is the syntax of such a sum; its Coefficients are, for each of the
 * four input bytes, the polynomial in x (a list of bits) by which that byte
 * is multiplied.  Two forms with the same coefficients have the same value
 * (EquivalentValue), so an identity between two such sums is proved by
 * writing both as forms and letting Dafny compute their coefficients.
 */
module Forms {
  import opened Field

  /** The four column bytes, zero, a sum, and a product by x. */
  datatype Form = V0 | V1 | V2 | V3 | Zero | Sum(l: Form, r: Form) | Dbl(f: Form)

  /** The value of a form when the column holds a, b, c, d. */
  function Value(f: Form, a: bv8, b: bv8, c: bv8, d: bv8): bv8
    decreases f
  {
    match f
    case V0 => a
    case V1 => b
    case V2 => c
    case V3 => d
    case Zero => 0
    case Sum(l, r) => Add(Value(l, a, b, c, d), Value(r, a, b, c, d))
    case Dbl(g) => Xtime(Value(g, a, b, c, d))
  }

  /** A polynomial over GF(2), lowest coefficient first. */
  datatype Bits = Nil | Cons(low: bool, high: Bits)

  /** The product of the polynomial p with the byte a. */
  function Times(p: Bits, a: bv8): bv8
    decreases p
  {
    match p
    case Nil => 0
    case Cons(low, high) => Add(if low then a else 0, Times(high, Xtime(a)))
  }

  /** The sum of two polynomials over GF(2). */
  function XorBits(p: Bits, q: Bits): Bits
  {
    match p
    case Nil => q
    case Cons(pl, ph) =>
      match q
      case Nil => p
      case Cons(ql, qh) => Cons(pl != ql, XorBits(ph, qh))
  }

  predicate IsZero(p: Bits)
  {
    match p
    case Nil => true
    case Cons(low, high) => !low && IsZero(high)
  }

  /** The multipliers of the four column bytes. */
  datatype Coeffs = Coeffs(p0: Bits, p1: Bits, p2: Bits, p3: Bits)

  function Coefficients(f: Form): Coeffs
  {
    match f
    case V0 => Coeffs(Cons(true, Nil), Nil, Nil, Nil)
    case V1 => Coeffs(Nil, Cons(true, Nil), Nil, Nil)
    case V2 => Coeffs(Nil, Nil, Cons(true, Nil), Nil)
    case V3 => Coeffs(Nil, Nil, Nil, Cons(true, Nil))
    case Zero => Coeffs(Nil, Nil, Nil, Nil)
    case Sum(l, r) => CoeffsAdd(Coefficients(l), Coefficients(r))
    case Dbl(g) => CoeffsDbl(Coefficients(g))
  }

  function CoeffsAdd(x: Coeffs, y: Coeffs): Coeffs
  {
    Coeffs(XorBits(x.p0, y.p0), XorBits(x.p1, y.p1), XorBits(x.p2, y.p2), XorBits(x.p3, y.p3))
  }

  function CoeffsDbl(x: Coeffs): Coeffs
  {
    Coeffs(Cons(false, x.p0), Cons(false, x.p1), Cons(false, x.p2), Cons(false, x.p3))
  }

  /** The value of a coefficient vector on a column. */
  function Combine(x: Coeffs, a: bv8, b: bv8, c: bv8, d: bv8): bv8
  {
    Add(Add(Times(x.p0, a), Times(x.p1, b)), Add(Times(x.p2, c), Times(x.p3, d)))
  }

  /** Two forms are equivalent when their coefficients agree. */
  predicate Equivalent(f: Form, g: Form)
  {
    var x := CoeffsAdd(Coefficients(f), Coefficients(g));
    IsZero(x.p0) && IsZero(x.p1) && IsZero(x.p2) && IsZero(x.p3)
  }

  lemma SelectXor(p: bool, q: bool, a: bv8)
    ensures (if p != q then a else 0) == Add(if p then a else 0, if q then a else 0)
  {
  }

  lemma {:induction false} TimesXor(p: Bits, q: Bits, a: bv8)
    ensures Times(XorBits(p, q), a) == Add(Times(p, a), Times(q, a))
  {
    hide Add, Xtime;
    match p
    case Nil => AddZero(Times(q, a));
    case Cons(pl, ph) =>
      match q
      case Nil => AddZero(Times(p, a));
      case Cons(ql, qh) =>
        TimesXor(ph, qh, Xtime(a));
        SelectXor(pl, ql, a);
        AddSwap(if pl then a else 0, Times(ph, Xtime(a)), if ql then a else 0, Times(qh, Xtime(a)));
  }

  lemma {:induction false} TimesXtime(p: Bits, a: bv8)
    ensures Times(p, Xtime(a)) == Xtime(Times(p, a))
  {
    hide Add, Xtime;
    match p
    case Nil => XtimeZero();
    case Cons(low, high) =>
      TimesXtime(high, Xtime(a));
      XtimeAdd(if low then a else 0, Times(high, Xtime(a)));
      XtimeZero();
  }

  lemma {:induction false} TimesZero(p: Bits, a: bv8)
    requires IsZero(p)
    ensures Times(p, a) == 0
  {
    hide Add, Xtime;
    match p
    case Nil =>
    case Cons(low, high) =>
      TimesZero(high, Xtime(a));
      AddZero(0);
  }

  lemma CombineAdd(x: Coeffs, y: Coeffs, a: bv8, b: bv8, c: bv8, d: bv8)
    ensures Combine(CoeffsAdd(x, y), a, b, c, d) == Add(Combine(x, a, b, c, d), Combine(y, a, b, c, d))
  {
    hide Add, Xtime, Times, XorBits;
    TimesXor(x.p0, y.p0, a);
    TimesXor(x.p1, y.p1, b);
    TimesXor(x.p2, y.p2, c);
    TimesXor(x.p3, y.p3, d);
    var u0, u1, u2, u3 := Times(x.p0, a), Times(x.p1, b), Times(x.p2, c), Times(x.p3, d);
    var v0, v1, v2, v3 := Times(y.p0, a), Times(y.p1, b), Times(y.p2, c), Times(y.p3, d);
    AddSwap(u0, v0, u1, v1);
    AddSwap(u2, v2, u3, v3);
    AddSwap(Add(u0, u1), Add(v0, v1), Add(u2, u3), Add(v2, v3));
  }

  lemma CombineDbl(x: Coeffs, a: bv8, b: bv8, c: bv8, d: bv8)
    ensures Combine(CoeffsDbl(x), a, b, c, d) == Xtime(Combine(x, a, b, c, d))
  {
    hide Add, Xtime;
    TimesXtime(x.p0, a);
    TimesXtime(x.p1, b);
    TimesXtime(x.p2, c);
    TimesXtime(x.p3, d);
    var u0, u1, u2, u3 := Times(x.p0, a), Times(x.p1, b), Times(x.p2, c), Times(x.p3, d);
    AddZero(Xtime(u0));
    AddZero(Xtime(u1));
    AddZero(Xtime(u2));
    AddZero(Xtime(u3));
    XtimeAdd(Add(u0, u1), Add(u2, u3));
    XtimeAdd(u0, u1);
    XtimeAdd(u2, u3);
  }

  lemma CombineUnit(a: bv8, b: bv8, c: bv8, d: bv8)
    ensures Combine(Coeffs(Cons(true, Nil), Nil, Nil, Nil), a, b, c, d) == a
    ensures Combine(Coeffs(Nil, Cons(true, Nil), Nil, Nil), a, b, c, d) == b
    ensures Combine(Coeffs(Nil, Nil, Cons(true, Nil), Nil), a, b, c, d) == c
    ensures Combine(Coeffs(Nil, Nil, Nil, Cons(true, Nil)), a, b, c, d) == d
    ensures Combine(Coeffs(Nil, Nil, Nil, Nil), a, b, c, d) == 0
  {
    hide Add, Xtime;
    AddZero(a);
    AddZero(b);
    AddZero(c);
    AddZero(d);
    AddZero(0);
  }

  /** The value of a form is the value of its coefficients. */
  lemma {:induction false} ValueCoefficients(f: Form, a: bv8, b: bv8, c: bv8, d: bv8)
    ensures Value(f, a, b, c, d) == Combine(Coefficients(f), a, b, c, d)
  {
    hide Add, Xtime, Combine, CoeffsAdd, CoeffsDbl;
    match f
    case Sum(l, r) =>
      ValueCoefficients(l, a, b, c, d);
      ValueCoefficients(r, a, b, c, d);
      CombineAdd(Coefficients(l), Coefficients(r), a, b, c, d);
    case Dbl(g) =>
      ValueCoefficients(g, a, b, c, d);
      CombineDbl(Coefficients(g), a, b, c, d);
    case _ =>
      CombineUnit(a, b, c, d);
  }

  /** Equivalent forms have equal values on every column. */
  lemma EquivalentValue(f: Form, g: Form, a: bv8, b: bv8, c: bv8, d: bv8)
    requires Equivalent(f, g)
    ensures Value(f, a, b, c, d) == Value(g, a, b, c, d)
  {
    hide Add, Xtime, Value, Coefficients, CoeffsAdd, Times, IsZero;
    var x := CoeffsAdd(Coefficients(f), Coefficients(g));
    ValueCoefficients(f, a, b, c, d);
    ValueCoefficients(g, a, b, c, d);
    CombineAdd(Coefficients(f), Coefficients(g), a, b, c, d);
    TimesZero(x.p0, a);
    TimesZero(x.p1, b);
    TimesZero(x.p2, c);
    TimesZero(x.p3, d);
    AddZero(0);
    AddCancel(Value(f, a, b, c, d), Value(g, a, b, c, d));
  }
}
