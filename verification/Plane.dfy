/** Plane vectors as complex numbers, and the laws of the trigonometric functions that the arm
    kinematics relies on. Angles are degrees. */
module Plane {
  datatype Cx = Cx(re: real, im: real)

  const ONE := Cx(1.0, 0.0)

  function Mul(a: Cx, b: Cx): Cx {
    Cx(a.re * b.re - a.im * b.im, a.re * b.im + a.im * b.re)
  }

  function Add(a: Cx, b: Cx): Cx {
    Cx(a.re + b.re, a.im + b.im)
  }

  function Scale(k: real, a: Cx): Cx {
    Cx(k * a.re, k * a.im)
  }

  function Conj(a: Cx): Cx {
    Cx(a.re, -a.im)
  }

  function Norm2(a: Cx): real {
    a.re * a.re + a.im * a.im
  }

  // ----- small facts of real arithmetic

  lemma ProductSign(a: real, b: real)
    ensures a > 0.0 && b > 0.0 ==> a * b > 0.0
    ensures a >= 0.0 && b >= 0.0 ==> a * b >= 0.0
  {
  }

  lemma SquareNonneg(x: real)
    ensures x * x >= 0.0
  {
    ProductSign(x, x);
    ProductSign(-x, -x);
    assert (-x) * (-x) == x * x;
  }

  lemma NormNonneg(a: Cx)
    ensures Norm2(a) >= 0.0
  {
    SquareNonneg(a.re);
    SquareNonneg(a.im);
  }

  lemma ZeroProduct(a: real, b: real)
    requires a * b == 0.0
    ensures a == 0.0 || b == 0.0
  {
  }

  lemma EqualSquares(a: real, b: real)
    requires a >= 0.0 && b >= 0.0 && a * a == b * b
    ensures a == b
  {
    assert (a - b) * (a + b) == a * a - b * b;
    ZeroProduct(a - b, a + b);
  }

  lemma ZeroNorm()
    ensures Norm2(Cx(0.0, 0.0)) == 0.0
  {
  }

  lemma PositiveNorm(p: Cx, n: real)
    requires Norm2(p) == n && n > 0.0
    ensures p != Cx(0.0, 0.0)
  {
    ZeroNorm();
  }

  lemma SquarePositive(r: real, n: real)
    requires r > 0.0 && n == r * r
    ensures n > 0.0
  {
    SquareNonneg(r);
    if n == 0.0 {
      ZeroProduct(r, r);
    }
  }

  lemma NotOrigin(p: Cx, r: real)
    requires Norm2(p) == r * r && r > 0.0
    ensures p != Cx(0.0, 0.0)
  {
    var n := Norm2(p);
    SquarePositive(r, n);
    PositiveNorm(p, n);
  }

  lemma Assoc(a: real, b: real, c: real)
    ensures (a * b) * c == a * (b * c)
  {
  }

  lemma Distribute(k: real, p: real, q: real)
    ensures k * (p + q) == k * p + k * q && k * (p - q) == k * p - k * q
    ensures (p + q) * k == p * k + q * k && (p - q) * k == p * k - q * k
  {
  }

  // ----- complex arithmetic

  /** The triple products of three vectors' components, grouped either way. */
  lemma AssocAll(a: Cx, b: Cx, c: Cx)
    ensures (a.re * b.re) * c.re == a.re * (b.re * c.re) && (a.re * b.re) * c.im == a.re * (b.re * c.im)
    ensures (a.re * b.im) * c.re == a.re * (b.im * c.re) && (a.re * b.im) * c.im == a.re * (b.im * c.im)
    ensures (a.im * b.re) * c.re == a.im * (b.re * c.re) && (a.im * b.re) * c.im == a.im * (b.re * c.im)
    ensures (a.im * b.im) * c.re == a.im * (b.im * c.re) && (a.im * b.im) * c.im == a.im * (b.im * c.im)
  {
    Assoc(a.re, b.re, c.re);
    Assoc(a.re, b.re, c.im);
    Assoc(a.re, b.im, c.re);
    Assoc(a.re, b.im, c.im);
    Assoc(a.im, b.re, c.re);
    Assoc(a.im, b.re, c.im);
    Assoc(a.im, b.im, c.re);
    Assoc(a.im, b.im, c.im);
  }

  lemma MulAssoc(a: Cx, b: Cx, c: Cx)
    ensures Mul(Mul(a, b), c) == Mul(a, Mul(b, c))
  {
    AssocAll(a, b, c);
    Distribute(c.re, a.re * b.re, a.im * b.im);
    Distribute(c.im, a.re * b.re, a.im * b.im);
    Distribute(c.re, a.re * b.im, a.im * b.re);
    Distribute(c.im, a.re * b.im, a.im * b.re);
    Distribute(a.re, b.re * c.re, b.im * c.im);
    Distribute(a.im, b.re * c.re, b.im * c.im);
    Distribute(a.re, b.re * c.im, b.im * c.re);
    Distribute(a.im, b.re * c.im, b.im * c.re);
  }

  lemma MulCommutes(a: Cx, b: Cx)
    ensures Mul(a, b) == Mul(b, a)
  {
  }

  lemma ConjMul(a: Cx, b: Cx)
    ensures Conj(Mul(a, b)) == Mul(Conj(a), Conj(b))
  {
  }

  lemma MulAdd(a: Cx, b: Cx, c: Cx)
    ensures Mul(a, Add(b, c)) == Add(Mul(a, b), Mul(a, c)) && Mul(Add(b, c), a) == Add(Mul(b, a), Mul(c, a))
  {
    Distribute(a.re, b.re, c.re);
    Distribute(a.im, b.im, c.im);
    Distribute(a.re, b.im, c.im);
    Distribute(a.im, b.re, c.re);
  }

  lemma MulConj(a: Cx)
    ensures Mul(a, Conj(a)) == Cx(Norm2(a), 0.0)
  {
  }

  /** The norm is multiplicative, because a product times its conjugate regroups. */
  lemma NormMul(a: Cx, b: Cx)
    ensures Norm2(Mul(a, b)) == Norm2(a) * Norm2(b)
  {
    var ca, cb, n := Conj(a), Conj(b), Cx(Norm2(b), 0.0);
    ConjMul(a, b);
    MulConj(Mul(a, b));
    MulCommutes(ca, cb);
    MulAssoc(a, b, Mul(cb, ca));
    MulAssoc(b, cb, ca);
    MulConj(b);
    MulCommutes(n, ca);
    MulAssoc(a, ca, n);
    MulConj(a);
    assert Mul(Cx(Norm2(a), 0.0), n) == Cx(Norm2(a) * Norm2(b), 0.0);
  }

  lemma MulScale(k: real, a: Cx, b: Cx)
    ensures Mul(Scale(k, a), b) == Scale(k, Mul(a, b)) && Mul(a, Scale(k, b)) == Scale(k, Mul(a, b))
  {
    var c := Cx(k, 0.0);
    assert Scale(k, a) == Mul(c, a) && Scale(k, b) == Mul(c, b) && Scale(k, Mul(a, b)) == Mul(c, Mul(a, b));
    MulAssoc(c, a, b);
    MulCommutes(a, c);
    MulAssoc(a, c, b);
  }

  /** Trigonometric functions in degrees; `Cis(a)` is the unit vector at angle `a`. */
  datatype Trig = Trig(
    unit: real -> Cx,
    polar: (real, real) -> real,
    arccos: real -> real,
    arcsin: real -> real,
    root: real -> real)
  {
    function Cis(a: real): Cx { unit(a) }

    function Atan2(y: real, x: real): real { polar(y, x) }

    function Acos(v: real): real { arccos(v) }

    function Asin(v: real): real { arcsin(v) }

    function Sqrt(v: real): real { root(v) }
  }

  function Turns(n: int): real {
    360.0 * n as real
  }

  ghost predicate SumLaw(t: Trig, a: real, b: real) {
    t.Cis(a + b) == Mul(t.Cis(a), t.Cis(b))
  }

  ghost predicate UnitLaw(t: Trig, a: real) {
    Norm2(t.Cis(a)) == 1.0
  }

  /** Equal directions differ by full turns. */
  ghost predicate TurnLaw(t: Trig, a: real, b: real) {
    t.Cis(a) == t.Cis(b) ==> exists n :: a == b + Turns(n)
  }

  ghost predicate PolarLaw(t: Trig, y: real, x: real) {
    x != 0.0 || y != 0.0 ==> Scale(t.Sqrt(Norm2(Cx(x, y))), t.Cis(t.Atan2(y, x))) == Cx(x, y)
  }

  ghost predicate AcosLaw(t: Trig, v: real) {
    -1.0 <= v <= 1.0 ==> t.Cis(t.Acos(v)).re == v
  }

  ghost predicate SqrtLaw(t: Trig, v: real) {
    0.0 <= v ==> 0.0 <= t.Sqrt(v) && t.Sqrt(v) * t.Sqrt(v) == v
  }

  ghost predicate Lawful(t: Trig) {
    && t.Cis(360.0) == ONE
    && (forall a, b :: SumLaw(t, a, b)) && (forall a :: UnitLaw(t, a)) && (forall a, b :: TurnLaw(t, a, b))
    && (forall y, x :: PolarLaw(t, y, x)) && (forall v :: AcosLaw(t, v)) && (forall v :: SqrtLaw(t, v))
  }

  lemma IdempotentUnit(z: Cx)
    requires Mul(z, z) == z && Norm2(z) == 1.0
    ensures z == ONE
  {
    MulConj(z);
    MulAssoc(z, z, Conj(z));
  }

  lemma CisZero(t: Trig)
    requires Lawful(t)
    ensures t.Cis(0.0) == ONE
  {
    assert SumLaw(t, 0.0, 0.0) && UnitLaw(t, 0.0);
    IdempotentUnit(t.Cis(0.0));
  }

  lemma CisNeg(t: Trig, a: real)
    requires Lawful(t)
    ensures t.Cis(-a) == Conj(t.Cis(a))
  {
    var u, v := t.Cis(a), t.Cis(-a);
    CisZero(t);
    assert SumLaw(t, a, -a) && UnitLaw(t, a);
    assert a + (-a) == 0.0;
    MulConj(u);
    MulCommutes(Conj(u), u);
    MulAssoc(Conj(u), u, v);
    assert Mul(ONE, v) == v && Mul(Conj(u), ONE) == Conj(u);
  }

  lemma {:induction false} CisTurns(t: Trig, a: real, n: int)
    requires Lawful(t)
    ensures t.Cis(a + Turns(n)) == t.Cis(a)
    decreases if n < 0 then -n else n
  {
    if n == 0 {
      assert a + Turns(0) == a;
    } else if n > 0 {
      CisTurns(t, a, n - 1);
      assert a + Turns(n) == (a + Turns(n - 1)) + 360.0;
      assert SumLaw(t, a + Turns(n - 1), 360.0);
    } else {
      CisTurns(t, a, n + 1);
      assert a + Turns(n + 1) == (a + Turns(n)) + 360.0;
      assert SumLaw(t, a + Turns(n), 360.0);
    }
  }
}
