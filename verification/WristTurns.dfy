/** What the two wrist angles of a controller's rotation are. */
module WristTurns {
  import opened Plane
  import opened Kinematics
  import Q = Quaternions

  function AboutX(h: Cx): Q.Quat {
    Q.Quat(h.im, 0.0, 0.0, h.re)
  }

  function AboutY(h: Cx): Q.Quat {
    Q.Quat(0.0, h.im, 0.0, h.re)
  }

  function AboutZ(h: Cx): Q.Quat {
    Q.Quat(0.0, 0.0, h.im, h.re)
  }

  /** A quaternion in two other halves: a turn about y turns one forwards and the other backwards. */
  function Upright(a: Q.Quat): Cx {
    Cx(a.w, a.y)
  }

  function Level(a: Q.Quat): Cx {
    Cx(a.x, a.z)
  }

  lemma AboutYTurns(h: Cx, q: Q.Quat)
    ensures Upright(Q.Times(AboutY(h), q)) == Mul(h, Upright(q)) && Level(Q.Times(AboutY(h), q)) == Mul(Conj(h), Level(q))
  {
    Q.NegProducts(h.im, q.z);
    Q.NegProducts(h.im, q.x);
  }

  /** What the wrist angles are computed from. */
  lemma AnglesByHalves(q: Q.Quat)
    ensures var m := Mul(Upright(q), Level(q));
      Q.PitchSine(q) == 2.0 * m.re && Q.RollSine(q) == 2.0 * m.im && Q.RollCosine(q) == 1.0 - 2.0 * Norm2(Level(q))
  {
    Commutes(q.x, q.y);
  }

  lemma Commutes(a: real, b: real)
    ensures a * b == b * a
  {
  }

  lemma HeadingIsIgnored(t: Trig, h: Cx, q: Q.Quat)
    requires Norm2(h) == 1.0
    ensures Q.WristAngles(t, Q.Times(AboutY(h), q)) == Q.WristAngles(t, q)
  {
    AboutYTurns(h, q);
    var turned := Q.Times(AboutY(h), q);
    AnglesByHalves(q);
    AnglesByHalves(turned);
    var u, v, c := Upright(q), Level(q), Conj(h);
    MulCommutes(h, u);
    MulAssoc(u, h, Mul(c, v));
    MulAssoc(h, c, v);
    MulConj(h);
    assert Mul(ONE, v) == v;
    NormMul(c, v);
    assert Norm2(c) == 1.0;
  }

  lemma FourProducts(a: real, b: real, c: real, d: real)
    ensures (a * c) * (b * c) == (a * b) * (c * c) && (b * d) * (a * d) == (a * b) * (d * d)
    ensures (a * c) * (a * d) == (a * a) * (c * d) && (b * d) * (b * c) == (b * b) * (c * d)
    ensures (b * c) * (b * c) == (b * b) * (c * c) && (a * d) * (a * d) == (a * a) * (d * d)
  {
    Regroup(a, c, b, c);
    Regroup(b, d, a, d);
    Regroup(a, c, a, d);
    Regroup(b, d, b, c);
    Regroup(b, c, b, c);
    Regroup(a, d, a, d);
  }

  lemma Regroup(a: real, b: real, c: real, d: real)
    ensures (a * b) * (c * d) == (a * c) * (b * d)
  {
    assert (a * b) * (c * d) == a * (b * (c * d));
    assert b * (c * d) == c * (b * d);
    assert a * (c * (b * d)) == (a * c) * (b * d);
  }

  /** The three products, for the sines and cosines of two half angles. */
  lemma SineProduct(a: real, b: real, c: real, d: real)
    requires c * c + d * d == 1.0
    ensures (a * c) * (b * c) + (b * d) * (a * d) == a * b
  {
    FourProducts(a, b, c, d);
    Spread(a * b, c * c, d * d);
  }

  lemma CrossProduct(a: real, b: real, c: real, d: real)
    ensures (a * c) * (a * d) - (b * d) * (b * c) == (a * a - b * b) * (c * d)
  {
    FourProducts(a, b, c, d);
    Spread(c * d, a * a, b * b);
  }

  lemma CosineProduct(a: real, b: real, c: real, d: real)
    requires a * a + b * b == 1.0 && c * c + d * d == 1.0
    ensures 1.0 - 2.0 * ((b * c) * (b * c) + (a * d) * (a * d)) == (a * a - b * b) * (c * c - d * d)
  {
    FourProducts(a, b, c, d);
    Difference(a * a, b * b, c * c, d * d);
  }

  lemma MulOf(w: real, y: real, x: real, z: real)
    ensures Mul(Cx(w, -y), Cx(x, z)) == Cx(w * x + y * z, w * z - y * x)
  {
    NegFirst(y, z);
    NegFirst(y, x);
  }

  /** A turn about x and then about z, by the half angles' unit vectors. */
  lemma PitchThenRoll(p: Cx, o: Cx)
    requires Norm2(p) == 1.0 && Norm2(o) == 1.0
    ensures var q := Q.Times(AboutX(p), AboutZ(o));
      && Q.PitchSine(q) == 2.0 * (p.re * p.im)
      && Q.RollSine(q) == 2.0 * ((p.re * p.re - p.im * p.im) * (o.re * o.im))
      && Q.RollCosine(q) == (p.re * p.re - p.im * p.im) * (o.re * o.re - o.im * o.im)
  {
    PartsOfTurn(p, o);
    AnglesByHalves(Q.Times(AboutX(p), AboutZ(o)));
    TurnProducts(p.re, p.im, o.re, o.im);
  }

  lemma TurnProducts(a: real, b: real, c: real, d: real)
    requires a * a + b * b == 1.0 && c * c + d * d == 1.0
    ensures Mul(Cx(a * c, -(b * d)), Cx(b * c, a * d)) == Cx(a * b, (a * a - b * b) * (c * d))
    ensures 1.0 - 2.0 * Norm2(Cx(b * c, a * d)) == (a * a - b * b) * (c * c - d * d)
  {
    MulOf(a * c, b * d, b * c, a * d);
    SineProduct(a, b, c, d);
    CrossProduct(a, b, c, d);
    CosineProduct(a, b, c, d);
  }

  lemma PartsOfTurn(p: Cx, o: Cx)
    ensures var q := Q.Times(AboutX(p), AboutZ(o));
      Upright(q) == Cx(p.re * o.re, -(p.im * o.im)) && Level(q) == Cx(p.im * o.re, p.re * o.im)
  {
    Q.NegProducts(p.im, o.im);
  }

  lemma NegFirst(a: real, b: real)
    ensures -a * b == -(a * b)
  {
  }

  lemma Spread(m: real, x: real, y: real)
    ensures m * x + m * y == m * (x + y) && x * m - y * m == (x - y) * m && m * x - m * y == (x - y) * m
  {
  }

  lemma Difference(a: real, b: real, c: real, d: real)
    requires a + b == 1.0 && c + d == 1.0
    ensures 1.0 - 2.0 * (b * c + a * d) == (a - b) * (c - d)
  {
    Spread(c, a, b);
    Spread(d, a, b);
    Spread(c - d, a, b);
  }

  lemma DoubleAngle(t: Trig, angle: real)
    requires Lawful(t)
    ensures var h := t.Cis(angle / 2.0);
      Norm2(h) == 1.0 && t.Cis(angle).re == h.re * h.re - h.im * h.im && t.Cis(angle).im == 2.0 * (h.re * h.im)
  {
    var h := t.Cis(angle / 2.0);
    assert angle / 2.0 + angle / 2.0 == angle;
    assert SumLaw(t, angle / 2.0, angle / 2.0) && UnitLaw(t, angle / 2.0);
    assert t.Cis(angle) == Mul(h, h);
  }

  lemma SineBounds(z: Cx)
    requires Norm2(z) == 1.0
    ensures -1.0 <= z.im <= 1.0
  {
    SquareNonneg(z.re);
    if z.im > 1.0 {
      SquareGrows(1.0, z.im);
    }
    if z.im < -1.0 {
      SquareGrows(1.0, -z.im);
    }
  }

  lemma SquareGrows(a: real, b: real)
    requires 0.0 < a < b
    ensures a * a < b * b && a * a < (-b) * (-b)
  {
    assert b * b - a * a == (b - a) * (b + a);
  }

  /** The direction of a positive multiple of a unit vector is that of the vector. */
  lemma DirectionOf(t: Trig, k: real, z: Cx, y: real, x: real)
    requires Lawful(t) && k > 0.0 && Norm2(z) == 1.0 && y == k * z.im && x == k * z.re
    ensures t.Cis(t.Atan2(y, x)) == z
  {
    var v, r, u := Scale(k, z), t.Sqrt(Norm2(Scale(k, z))), t.Cis(t.Atan2(y, x));
    assert v == Cx(x, y);
    ScaledNorm(k, z);
    ProductSign(k, k);
    assert SqrtLaw(t, Norm2(v));
    EqualSquares(r, k);
    if x == 0.0 && y == 0.0 {
      ZeroProduct(k, z.re);
      ZeroProduct(k, z.im);
      ZeroNorm();
    }
    assert PolarLaw(t, y, x);
    SameScaled(k, u, z);
  }

  lemma ScaledNorm(k: real, z: Cx)
    requires Norm2(z) == 1.0
    ensures Norm2(Scale(k, z)) == k * k
  {
    Regroup(k, z.re, k, z.re);
    Regroup(k, z.im, k, z.im);
    Spread(k * k, z.re * z.re, z.im * z.im);
  }

  lemma SameScaled(k: real, a: Cx, b: Cx)
    requires k > 0.0 && Scale(k, a) == Scale(k, b)
    ensures a == b
  {
    Spread(k, a.re, -b.re);
    Spread(k, a.im, -b.im);
    Q.NegProducts(k, b.re);
    Q.NegProducts(k, b.im);
    ZeroProduct(k, a.re - b.re);
    ZeroProduct(k, a.im - b.im);
  }

  lemma RelativeUndoes(r: Q.Quat, q: Q.Quat)
    requires Q.Norm2(r) == 1.0
    ensures Q.Relative(Q.Times(r, q), r) == q
  {
    Q.RelativeIsProduct(Q.Times(r, q), r);
    Q.TimesAssoc(Q.Inverse(r), r, q);
    Q.InverseCancels(r);
    assert Q.Times(Q.IDENTITY, q) == q;
  }

  /** What the two angles are: of a controller that has turned by a heading about its y axis, then by a pitch of
      less than a right angle about x, then by a roll about z, the first is the arc sine of the pitch's sine, the
      second has the roll's direction, and the heading changes neither. */
  lemma WristOfTurns(t: Trig, r: Q.Quat, heading: real, pitch: real, roll: real)
    requires Lawful(t) && Q.Norm2(r) == 1.0 && t.Cis(pitch).re > 0.0
    ensures var turned := Q.Times(AboutY(t.Cis(heading / 2.0)),
                                Q.Times(AboutX(t.Cis(pitch / 2.0)), AboutZ(t.Cis(roll / 2.0))));
      var w := Q.RelativeWristAngles(t, Q.Times(r, turned), r);
      w.pitch == t.Asin(t.Cis(pitch).im) && t.Cis(w.roll) == t.Cis(roll)
  {
    var h, p, o := t.Cis(heading / 2.0), t.Cis(pitch / 2.0), t.Cis(roll / 2.0);
    var q := Q.Times(AboutX(p), AboutZ(o));
    DoubleAngle(t, heading);
    RelativeUndoes(r, Q.Times(AboutY(h), q));
    HeadingIsIgnored(t, h, q);
    WristOfTwo(t, pitch, roll);
    assert UnitLaw(t, pitch) && UnitLaw(t, roll);
    SineBounds(t.Cis(pitch));
    DirectionOf(t, t.Cis(pitch).re, t.Cis(roll), Q.RollSine(q), Q.RollCosine(q));
  }

  lemma WristOfTwo(t: Trig, pitch: real, roll: real)
    requires Lawful(t)
    ensures var q, p, o := Q.Times(AboutX(t.Cis(pitch / 2.0)), AboutZ(t.Cis(roll / 2.0))), t.Cis(pitch), t.Cis(roll);
      Q.PitchSine(q) == p.im && Q.RollSine(q) == p.re * o.im && Q.RollCosine(q) == p.re * o.re
  {
    var p, o := t.Cis(pitch / 2.0), t.Cis(roll / 2.0);
    DoubleAngle(t, pitch);
    DoubleAngle(t, roll);
    PitchThenRoll(p, o);
    TwiceSame(p.re * p.re - p.im * p.im, o.re * o.im, t.Cis(pitch).re, t.Cis(roll).im);
    SameProduct(p.re * p.re - p.im * p.im, o.re * o.re - o.im * o.im, t.Cis(pitch).re, t.Cis(roll).re);
  }

  lemma SameProduct(a: real, b: real, k: real, s: real)
    requires k == a && s == b
    ensures a * b == k * s
  {
  }

  lemma TwiceSame(a: real, b: real, k: real, s: real)
    requires k == a && s == 2.0 * b
    ensures 2.0 * (a * b) == k * s
  {
  }
}
