/** Unit quaternions of controller poses and the wrist rotation between two of them. */
module Quaternions {
  import opened Plane
  import opened Kinematics

  datatype Quat = Quat(x: real, y: real, z: real, w: real)

  const IDENTITY := Quat(0.0, 0.0, 0.0, 1.0)

  function Times(a: Quat, b: Quat): Quat {
    Quat(a.w * b.x + a.x * b.w + a.y * b.z - a.z * b.y,
         a.w * b.y - a.x * b.z + a.y * b.w + a.z * b.x,
         a.w * b.z + a.x * b.y - a.y * b.x + a.z * b.w,
         a.w * b.w - a.x * b.x - a.y * b.y - a.z * b.z)
  }

  function Inverse(a: Quat): Quat {
    Quat(-a.x, -a.y, -a.z, a.w)
  }

  function Norm2(a: Quat): real {
    a.x * a.x + a.y * a.y + a.z * a.z + a.w * a.w
  }

  function Dot(a: Quat, b: Quat): real {
    a.x * b.x + a.y * b.y + a.z * b.z + a.w * b.w
  }

  /** The quaternion that `relative_wrist_angles` builds component by component. */
  function Relative(q: Quat, r: Quat): Quat {
    Quat(r.w * q.x - r.x * q.w - r.y * q.z + r.z * q.y,
         r.w * q.y + r.x * q.z - r.y * q.w - r.z * q.x,
         r.w * q.z - r.x * q.y + r.y * q.x - r.z * q.w,
         r.w * q.w + r.x * q.x + r.y * q.y + r.z * q.z)
  }

  datatype Wrist = Wrist(pitch: real, roll: real)

  function PitchSine(q: Quat): real {
    2.0 * (q.w * q.x - q.y * q.z)
  }

  function RollSine(q: Quat): real {
    2.0 * (q.w * q.z + q.x * q.y)
  }

  function RollCosine(q: Quat): real {
    1.0 - 2.0 * (q.x * q.x + q.z * q.z)
  }

  function WristAngles(t: Trig, q: Quat): Wrist {
    Wrist(t.Asin(Clamp(PitchSine(q), -1.0, 1.0)), t.Atan2(RollSine(q), RollCosine(q)))
  }

  function RelativeWristAngles(t: Trig, q: Quat, reference: Quat): Wrist {
    WristAngles(t, Relative(q, reference))
  }

  lemma RelativeIsProduct(q: Quat, r: Quat)
    ensures Relative(q, r) == Times(Inverse(r), q)
  {
  }

  /** A quaternion is a pair of complex numbers, and its product is built from complex products. */
  function First(a: Quat): Cx {
    Cx(a.w, a.x)
  }

  function Second(a: Quat): Cx {
    Cx(a.y, a.z)
  }

  lemma TimesConj(a: Cx, b: Cx)
    ensures Mul(a, Conj(b)) == Cx(a.re * b.re + a.im * b.im, a.im * b.re - a.re * b.im)
  {
    NegProducts(a.re, b.im);
    NegProducts(a.im, b.im);
  }

  lemma NegProducts(a: real, b: real)
    ensures a * -b == -(a * b)
  {
  }

  lemma FirstOfTimes(a: Quat, b: Quat)
    ensures First(Times(a, b)) == Add(Mul(First(a), First(b)), Scale(-1.0, Mul(Second(a), Conj(Second(b)))))
  {
    TimesConj(Second(a), Second(b));
    var m := Mul(Second(a), Conj(Second(b)));
    assert Scale(-1.0, m) == Cx(-m.re, -m.im);
  }

  lemma SecondOfTimes(a: Quat, b: Quat)
    ensures Second(Times(a, b)) == Add(Mul(First(a), Second(b)), Mul(Second(a), Conj(First(b))))
  {
    TimesConj(Second(a), First(b));
  }

  lemma TimesByHalves(a: Quat, b: Quat)
    ensures First(Times(a, b)) == Add(Mul(First(a), First(b)), Scale(-1.0, Mul(Second(a), Conj(Second(b)))))
    ensures Second(Times(a, b)) == Add(Mul(First(a), Second(b)), Mul(Second(a), Conj(First(b))))
  {
    FirstOfTimes(a, b);
    SecondOfTimes(a, b);
  }

  lemma ConjAdd(a: Cx, b: Cx)
    ensures Conj(Add(a, b)) == Add(Conj(a), Conj(b)) && Conj(Scale(-1.0, a)) == Scale(-1.0, Conj(a)) && Conj(Conj(a)) == a
  {
  }

  /** The two halves of an associativity proof, over complex numbers only. */
  lemma HalvesAssoc(a: Cx, b: Cx, c: Cx, d: Cx, e: Cx, f: Cx)
    ensures var p, q := Add(Mul(a, c), Scale(-1.0, Mul(b, Conj(d)))), Add(Mul(a, d), Mul(b, Conj(c)));
      var u, v := Add(Mul(c, e), Scale(-1.0, Mul(d, Conj(f)))), Add(Mul(c, f), Mul(d, Conj(e)));
      && Add(Mul(p, e), Scale(-1.0, Mul(q, Conj(f)))) == Add(Mul(a, u), Scale(-1.0, Mul(b, Conj(v))))
      && Add(Mul(p, f), Mul(q, Conj(e))) == Add(Mul(a, v), Mul(b, Conj(u)))
  {
    var cd, cc, ce, cf := Conj(d), Conj(c), Conj(e), Conj(f);
    MulAdd(e, Mul(a, c), Scale(-1.0, Mul(b, cd)));
    MulAdd(cf, Mul(a, d), Mul(b, cc));
    MulAdd(f, Mul(a, c), Scale(-1.0, Mul(b, cd)));
    MulAdd(ce, Mul(a, d), Mul(b, cc));
    MulScale(-1.0, Mul(b, cd), e);
    MulScale(-1.0, Mul(b, cd), f);
    MulAssoc(a, c, e);
    MulAssoc(b, cd, e);
    MulAssoc(a, d, cf);
    MulAssoc(b, cc, cf);
    MulAssoc(a, c, f);
    MulAssoc(b, cd, f);
    MulAssoc(a, d, ce);
    MulAssoc(b, cc, ce);
    MulAdd(a, Mul(c, e), Scale(-1.0, Mul(d, cf)));
    MulScale(-1.0, a, Mul(d, cf));
    MulAdd(a, Mul(c, f), Mul(d, ce));
    ConjAdd(Mul(c, f), Mul(d, ce));
    ConjAdd(Mul(c, e), Scale(-1.0, Mul(d, cf)));
    ConjAdd(Mul(d, cf), Mul(d, cf));
    ConjMul(c, f);
    ConjMul(d, ce);
    ConjMul(c, e);
    ConjMul(d, cf);
    ConjAdd(e, f);
    ConjAdd(f, e);
    MulAdd(b, Mul(cc, cf), Mul(cd, e));
    MulAdd(b, Mul(cc, ce), Scale(-1.0, Mul(cd, f)));
    MulScale(-1.0, b, Mul(cd, f));
  }

  lemma TimesAssoc(a: Quat, b: Quat, c: Quat)
    ensures Times(Times(a, b), c) == Times(a, Times(b, c))
  {
    TimesByHalves(a, b);
    TimesByHalves(b, c);
    TimesByHalves(Times(a, b), c);
    TimesByHalves(a, Times(b, c));
    HalvesAssoc(First(a), Second(a), First(b), Second(b), First(c), Second(c));
  }

  lemma InverseByHalves(a: Quat)
    ensures First(Inverse(a)) == Conj(First(a)) && Second(Inverse(a)) == Scale(-1.0, Second(a))
  {
  }

  lemma HalvesInverseFirst(a: Cx, b: Cx, c: Cx, d: Cx)
    ensures Conj(Add(Mul(a, c), Scale(-1.0, Mul(b, Conj(d))))) ==
            Add(Mul(Conj(c), Conj(a)), Scale(-1.0, Mul(Scale(-1.0, d), Conj(Scale(-1.0, b)))))
  {
    MulCommutes(a, c);
    ConjMul(c, a);
    assert Conj(Scale(-1.0, b)) == Scale(-1.0, Conj(b));
    MulScale(-1.0, d, Scale(-1.0, Conj(b)));
    MulScale(-1.0, d, Conj(b));
    MulCommutes(d, Conj(b));
    ConjMul(b, Conj(d));
    assert Conj(Conj(d)) == d;
    Collect(Mul(a, c), Mul(b, Conj(d)), Mul(Conj(b), d));
  }

  lemma Collect(m: Cx, n: Cx, k: Cx)
    requires k == Conj(n)
    ensures Conj(Add(m, Scale(-1.0, n))) == Add(Conj(m), Scale(-1.0, Scale(-1.0, Scale(-1.0, k))))
  {
  }

  lemma HalvesInverseSecond(a: Cx, b: Cx, c: Cx, d: Cx)
    ensures Scale(-1.0, Add(Mul(a, d), Mul(b, Conj(c)))) ==
            Add(Mul(Conj(c), Scale(-1.0, b)), Mul(Scale(-1.0, d), Conj(Conj(a))))
  {
    MulScale(-1.0, Conj(c), b);
    MulCommutes(Conj(c), b);
    MulScale(-1.0, d, a);
    MulCommutes(d, a);
    assert Conj(Conj(a)) == a;
    NegatedSum(Mul(a, d), Mul(b, Conj(c)));
  }

  lemma NegatedSum(m: Cx, n: Cx)
    ensures Scale(-1.0, Add(m, n)) == Add(Scale(-1.0, n), Scale(-1.0, m))
  {
  }

  lemma HalvesInverse(a: Cx, b: Cx, c: Cx, d: Cx)
    ensures Conj(Add(Mul(a, c), Scale(-1.0, Mul(b, Conj(d))))) ==
            Add(Mul(Conj(c), Conj(a)), Scale(-1.0, Mul(Scale(-1.0, d), Conj(Scale(-1.0, b)))))
    ensures Scale(-1.0, Add(Mul(a, d), Mul(b, Conj(c)))) ==
            Add(Mul(Conj(c), Scale(-1.0, b)), Mul(Scale(-1.0, d), Conj(Conj(a))))
  {
    HalvesInverseFirst(a, b, c, d);
    HalvesInverseSecond(a, b, c, d);
  }

  lemma SameHalves(p: Quat, q: Quat)
    requires First(p) == First(q) && Second(p) == Second(q)
    ensures p == q
  {
  }

  lemma InverseTimes(a: Quat, b: Quat)
    ensures Inverse(Times(a, b)) == Times(Inverse(b), Inverse(a))
  {
    TimesByHalves(a, b);
    InverseByHalves(Times(a, b));
    InverseByHalves(a);
    InverseByHalves(b);
    TimesByHalves(Inverse(b), Inverse(a));
    HalvesInverse(First(a), Second(a), First(b), Second(b));
    SameHalves(Inverse(Times(a, b)), Times(Inverse(b), Inverse(a)));
  }

  lemma InverseCancels(a: Quat)
    requires Norm2(a) == 1.0
    ensures Times(Inverse(a), a) == IDENTITY
  {
  }

  /** The wrist rotation is measured in the gripped controller's own frame: turning the world by any unit
      quaternion changes neither angle, and an unmoved controller is the identity. */
  lemma WristIgnoresWorldFrame(t: Trig, p: Quat, q: Quat, r: Quat)
    requires Norm2(p) == 1.0
    ensures RelativeWristAngles(t, Times(p, q), Times(p, r)) == RelativeWristAngles(t, q, r)
    ensures Norm2(r) == 1.0 ==> Relative(r, r) == IDENTITY
  {
    RelativeIsProduct(Times(p, q), Times(p, r));
    RelativeIsProduct(q, r);
    InverseTimes(p, r);
    TimesAssoc(Inverse(r), Inverse(p), Times(p, q));
    TimesAssoc(Inverse(p), p, q);
    InverseCancels(p);
    assert Times(IDENTITY, q) == q;
    if Norm2(r) == 1.0 {
      RelativeIsProduct(r, r);
      InverseCancels(r);
    }
  }
}
