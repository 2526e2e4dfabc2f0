/** Two-link planar kinematics of the SO101 arm. */
module Kinematics {
  import opened Wrappers
  import opened Plane

  const L1 := 0.1159
  const L2 := 0.1350

  function Offset1(t: Trig): real {
    t.Atan2(0.028, 0.11257)
  }

  function Offset2(t: Trig): real {
    t.Atan2(0.0052, 0.1349) + Offset1(t)
  }

  function Clamp(value: real, low: real, high: real): real {
    var capped := if high < value then high else value;
    if capped > low then capped else low
  }

  /** Python's `%` on floats: the result has the sign of a positive modulus. */
  function PyMod(v: real, m: real): real
    requires m > 0.0
  {
    v - m * (v / m).Floor as real
  }

  function AngleDelta(value: real, reference: real): real {
    PyMod(value - reference + 180.0, 360.0) - 180.0
  }

  datatype Pair = Pair(shoulder: real, elbow: real)

  function Forward(t: Trig, p: Pair): Cx {
    var t1 := 90.0 - p.shoulder - Offset1(t);
    var t2 := p.elbow + 90.0 - Offset2(t);
    Cx(L1 * t.Cis(t1).re + L2 * t.Cis(t1 - t2).re, L1 * t.Cis(t1).im + L2 * t.Cis(t1 - t2).im)
  }

  const INNER := L2 - L1 + 0.00001
  const OUTER := L1 + L2 - 0.00001

  function Radius(t: Trig, p: Cx): real {
    t.Sqrt(Norm2(p))
  }

  predicate Reachable(t: Trig, p: Cx) {
    INNER < Radius(t, p) < OUTER
  }

  /** The law of cosines for the elbow, before the clamp. */
  function RawCosine(r: real): real {
    (r * r - L1 * L1 - L2 * L2) / (2.0 * L1 * L2)
  }

  function Bend(t: Trig, p: Cx): real {
    t.Acos(Clamp(RawCosine(Radius(t, p)), -1.0, 1.0))
  }

  /** Joint angles for one elbow branch. */
  function Branch(t: Trig, p: Cx, bend: real): Pair {
    var b := t.Cis(bend);
    var t1 := t.Atan2(p.im, p.re) + t.Atan2(L2 * b.im, L1 + L2 * b.re);
    Pair(90.0 - (t1 + Offset1(t)), (bend + Offset2(t)) - 90.0)
  }

  function Rewrap(p: Pair, reference: Pair): Pair {
    Pair(reference.shoulder + AngleDelta(p.shoulder, reference.shoulder),
         reference.elbow + AngleDelta(p.elbow, reference.elbow))
  }

  function Dist2(p: Pair, q: Pair): real {
    (p.shoulder - q.shoulder) * (p.shoulder - q.shoulder) + (p.elbow - q.elbow) * (p.elbow - q.elbow)
  }

  /** The branch nearest to the reference; the first one on a tie. */
  function Nearest(a: Pair, b: Pair, reference: Pair): Pair {
    if Dist2(b, reference) < Dist2(a, reference) then b else a
  }

  /** `SO101Kinematics.inverse`; an error outside the reachable annulus. */
  function Inverse(t: Trig, p: Cx, reference: Option<Pair>): Option<Pair> {
    if !Reachable(t, p) then None
    else
      var bend := Bend(t, p);
      if reference.None? then Some(Branch(t, p, bend))
      else
        var ref := reference.value;
        Some(Nearest(Rewrap(Branch(t, p, bend), ref), Rewrap(Branch(t, p, -bend), ref), ref))
  }

  /** The correction bridge's `_inverse`: the same branches without the rewrap. */
  function InversePlain(t: Trig, p: Cx, reference: Pair): Option<Pair> {
    if !Reachable(t, p) then None
    else Some(Nearest(Branch(t, p, Bend(t, p)), Branch(t, p, -Bend(t, p)), reference))
  }

  // ----- the annulus

  lemma RadiusSquared(t: Trig, p: Cx)
    requires Lawful(t)
    ensures Radius(t, p) >= 0.0 && Radius(t, p) * Radius(t, p) == Norm2(p)
  {
    NormNonneg(p);
    assert SqrtLaw(t, Norm2(p));
  }

  lemma CosineBounds(r: real)
    requires INNER < r < OUTER
    ensures -1.0 < RawCosine(r) < 1.0
    ensures 2.0 * L1 * L2 * RawCosine(r) == r * r - L1 * L1 - L2 * L2
  {
    assert INNER * INNER < r * r < OUTER * OUTER by {
      SquareGrows(INNER, r);
      SquareGrows(r, OUTER);
    }
  }

  lemma SquareGrows(a: real, b: real)
    requires 0.0 < a < b
    ensures a * a < b * b
  {
    assert b * b - a * a == (b - a) * (b + a);
  }

  /** In the annulus the clamp is a no-op and both branches have the exact elbow cosine. */
  lemma ClampIsNoOp(t: Trig, p: Cx)
    requires Lawful(t) && Reachable(t, p)
    ensures Clamp(RawCosine(Radius(t, p)), -1.0, 1.0) == RawCosine(Radius(t, p))
    ensures t.Cis(Bend(t, p)).re == RawCosine(Radius(t, p)) && t.Cis(-Bend(t, p)).re == RawCosine(Radius(t, p))
  {
    CosineBounds(Radius(t, p));
    assert AcosLaw(t, RawCosine(Radius(t, p)));
    CisNeg(t, Bend(t, p));
  }

  // ----- round trip

  /** The elbow vector `l1 + l2 b`: its length is the radius when the cosine law holds. */
  function Elbow(b: Cx): Cx {
    Cx(L1 + L2 * b.re, L2 * b.im)
  }

  lemma ElbowNorm(b: Cx)
    requires Norm2(b) == 1.0
    ensures Norm2(Elbow(b)) == L1 * L1 + L2 * L2 + 2.0 * L1 * L2 * b.re
  {
    assert L2 * b.re * (L2 * b.re) + L2 * b.im * (L2 * b.im) == L2 * L2 * (b.re * b.re + b.im * b.im);
  }

  /** The hand is at `u` times the conjugate elbow vector, for the upper arm's direction `u`. */
  lemma ForwardIsProduct(t: Trig, p: Pair)
    requires Lawful(t)
    ensures var t1, t2 := 90.0 - p.shoulder - Offset1(t), p.elbow + 90.0 - Offset2(t);
      Forward(t, p) == Mul(t.Cis(t1), Conj(Elbow(t.Cis(t2))))
  {
    var t1, t2 := 90.0 - p.shoulder - Offset1(t), p.elbow + 90.0 - Offset2(t);
    assert SumLaw(t, t1, -t2) && t1 + (-t2) == t1 - t2;
    CisNeg(t, t2);
    ProductExpands(t.Cis(t1), t.Cis(t2));
  }

  lemma ProductExpands(u: Cx, b: Cx)
    ensures Mul(u, Conj(Elbow(b))) == Add(Scale(L1, u), Scale(L2, Mul(u, Conj(b))))
  {
  }

  /** Turning the elbow vector onto its own direction leaves its length. */
  lemma UnitTimesConj(psi: Cx, rho: real)
    requires Norm2(psi) == 1.0
    ensures Mul(psi, Conj(Scale(rho, psi))) == Cx(rho, 0.0)
  {
    assert Conj(Scale(rho, psi)) == Scale(rho, Conj(psi));
    MulScale(rho, psi, Conj(psi));
    MulConj(psi);
  }

  lemma BranchReaches(t: Trig, p: Cx, bend: real)
    requires Lawful(t) && Reachable(t, p) && t.Cis(bend).re == RawCosine(Radius(t, p))
    ensures Forward(t, Branch(t, p, bend)) == p
  {
    var r, b := Radius(t, p), t.Cis(bend);
    var w := Elbow(b);
    var a1, a2 := t.Atan2(p.im, p.re), t.Atan2(w.im, w.re);
    var phi, psi := t.Cis(a1), t.Cis(a2);
    assert UnitLaw(t, bend) && UnitLaw(t, a2) && SumLaw(t, a1, a2);
    assert PolarLaw(t, p.im, p.re) && PolarLaw(t, w.im, w.re);
    RadiusSquared(t, p);
    ElbowLength(t, b, r);
    NotOrigin(p, r);
    NotOrigin(w, r);
    var c := Branch(t, p, bend);
    assert 90.0 - c.shoulder - Offset1(t) == a1 + a2;
    assert c.elbow + 90.0 - Offset2(t) == bend;
    ForwardIsProduct(t, c);
    ReachAlgebra(phi, psi, r);
    assert p == Cx(p.re, p.im) && w == Cx(w.re, w.im);
    assert w == Scale(r, psi) && p == Scale(r, phi);
  }

  lemma ReachAlgebra(phi: Cx, psi: Cx, r: real)
    requires Norm2(psi) == 1.0
    ensures Mul(Mul(phi, psi), Conj(Scale(r, psi))) == Scale(r, phi)
  {
    MulAssoc(phi, psi, Conj(Scale(r, psi)));
    UnitTimesConj(psi, r);
  }

  lemma ElbowLength(t: Trig, b: Cx, r: real)
    requires Lawful(t) && INNER < r < OUTER && Norm2(b) == 1.0 && b.re == RawCosine(r)
    ensures Norm2(Elbow(b)) == r * r
    ensures t.Sqrt(Norm2(Elbow(b))) == r
  {
    CosineBounds(r);
    ElbowNorm(b);
    SquareNonneg(r);
    assert SqrtLaw(t, Norm2(Elbow(b)));
    EqualSquares(t.Sqrt(Norm2(Elbow(b))), r);
  }

  /** Adding the wrap changes an angle by full turns and brings it within half a turn of the reference. */
  lemma RewrapTurns(value: real, reference: real) returns (n: int)
    ensures reference + AngleDelta(value, reference) == value + Turns(n)
    ensures -180.0 <= AngleDelta(value, reference) < 180.0
  {
    var v := value - reference + 180.0;
    var k := (v / 360.0).Floor;
    n := -k;
    assert k as real <= v / 360.0 < k as real + 1.0;
    assert 360.0 * k as real <= v < 360.0 * (k as real + 1.0);
  }

  lemma ForwardTurns(t: Trig, p: Pair, n: int, m: int)
    requires Lawful(t)
    ensures Forward(t, Pair(p.shoulder + Turns(n), p.elbow + Turns(m))) == Forward(t, p)
  {
    var q := Pair(p.shoulder + Turns(n), p.elbow + Turns(m));
    var t1, t2 := 90.0 - p.shoulder - Offset1(t), p.elbow + 90.0 - Offset2(t);
    ForwardIsProduct(t, p);
    ForwardIsProduct(t, q);
    assert 90.0 - q.shoulder - Offset1(t) == t1 + Turns(-n);
    assert q.elbow + 90.0 - Offset2(t) == t2 + Turns(m);
    CisTurns(t, t1, -n);
    CisTurns(t, t2, m);
  }

  lemma RewrapReaches(t: Trig, p: Pair, reference: Pair)
    requires Lawful(t)
    ensures Forward(t, Rewrap(p, reference)) == Forward(t, p)
  {
    var n := RewrapTurns(p.shoulder, reference.shoulder);
    var m := RewrapTurns(p.elbow, reference.elbow);
    ForwardTurns(t, p, n, m);
  }

  /** Forward kinematics undoes inverse kinematics on the whole annulus, for both elbow branches, with or
      without a reference to wrap to. */
  lemma ForwardOfInverse(t: Trig, p: Cx, reference: Option<Pair>)
    requires Lawful(t)
    ensures Inverse(t, p, reference).Some? <==> Reachable(t, p)
    ensures Reachable(t, p) ==>
              && Forward(t, Inverse(t, p, reference).value) == p
              && Forward(t, Branch(t, p, Bend(t, p))) == p
              && Forward(t, Branch(t, p, -Bend(t, p))) == p
  {
    if Reachable(t, p) {
      ClampIsNoOp(t, p);
      BranchReaches(t, p, Bend(t, p));
      BranchReaches(t, p, -Bend(t, p));
      if reference.Some? {
        RewrapReaches(t, Branch(t, p, Bend(t, p)), reference.value);
        RewrapReaches(t, Branch(t, p, -Bend(t, p)), reference.value);
      }
    }
  }

  /** The same for the correction bridge. */
  lemma ForwardOfInversePlain(t: Trig, p: Cx, reference: Pair)
    requires Lawful(t)
    ensures InversePlain(t, p, reference).Some? <==> Reachable(t, p)
    ensures Reachable(t, p) ==> Forward(t, InversePlain(t, p, reference).value) == p
  {
    ForwardOfInverse(t, p, None);
  }

  // ----- nearest of all solutions

  /** Two unit vectors with equal real parts are equal or conjugate. */
  /** Of its two elbow positions, which bend the same way up to the sign, the bridge takes the one nearer to the
      reference. */
  lemma PlainIsNearer(t: Trig, p: Cx, reference: Pair)
    requires Lawful(t) && Reachable(t, p)
    ensures InversePlain(t, p, reference).Some?
    ensures forall bend :: bend in [Bend(t, p), -Bend(t, p)] ==>
              Forward(t, Branch(t, p, bend)) == p && Dist2(InversePlain(t, p, reference).value, reference) <= Dist2(Branch(t, p, bend), reference)
  {
    ClampIsNoOp(t, p);
    BranchReaches(t, p, Bend(t, p));
    BranchReaches(t, p, -Bend(t, p));
  }

  lemma UnitsByCosine(a: Cx, b: Cx)
    requires Norm2(a) == 1.0 && Norm2(b) == 1.0 && a.re == b.re
    ensures a == b || a == Conj(b)
  {
    assert (a.im - b.im) * (a.im + b.im) == a.im * a.im - b.im * b.im;
    ZeroProduct(a.im - b.im, a.im + b.im);
  }

  /** The upper arm's direction is determined by the elbow and the hand. */
  lemma UpperArmUnique(u: Cx, v: Cx, w: Cx)
    requires Mul(u, Conj(w)) == Mul(v, Conj(w)) && Norm2(w) > 0.0
    ensures u == v
  {
    MulAssoc(u, Conj(w), w);
    MulAssoc(v, Conj(w), w);
    MulCommutes(Conj(w), w);
    MulConj(w);
    var n := Norm2(w);
    assert Mul(u, Cx(n, 0.0)) == Mul(v, Cx(n, 0.0));
    assert u.re * n == v.re * n && u.im * n == v.im * n;
    assert (u.re - v.re) * n == 0.0 && (u.im - v.im) * n == 0.0;
    ZeroProduct(u.re - v.re, n);
    ZeroProduct(u.im - v.im, n);
  }

  /** Any joint pair whose hand is at `p` has the elbow cosine of the cosine law. */
  lemma SolutionCosine(t: Trig, p: Cx, q: Pair)
    requires Lawful(t) && Forward(t, q) == p
    ensures t.Cis(q.elbow + 90.0 - Offset2(t)).re == RawCosine(Radius(t, p))
  {
    var t1, t2 := 90.0 - q.shoulder - Offset1(t), q.elbow + 90.0 - Offset2(t);
    var u, b := t.Cis(t1), t.Cis(t2);
    assert UnitLaw(t, t1) && UnitLaw(t, t2);
    ForwardIsProduct(t, q);
    NormMul(u, Conj(Elbow(b)));
    assert Norm2(Conj(Elbow(b))) == Norm2(Elbow(b)) by {
      var w := Elbow(b);
      assert (-w.im) * (-w.im) == w.im * w.im;
    }
    ElbowNorm(b);
    RadiusSquared(t, p);
  }

  /** Any joint pair that reaches `p` equals one of the two branches up to full turns. */
  lemma SolutionIsBranch(t: Trig, p: Cx, q: Pair, bend: real) returns (n: int, m: int)
    requires Lawful(t) && Reachable(t, p) && Forward(t, q) == p
    requires t.Cis(q.elbow + 90.0 - Offset2(t)) == t.Cis(bend)
    requires Forward(t, Branch(t, p, bend)) == p
    ensures q == Pair(Branch(t, p, bend).shoulder + Turns(n), Branch(t, p, bend).elbow + Turns(m))
  {
    var c := Branch(t, p, bend);
    var q1, q2 := 90.0 - q.shoulder - Offset1(t), q.elbow + 90.0 - Offset2(t);
    var c1, c2 := 90.0 - c.shoulder - Offset1(t), c.elbow + 90.0 - Offset2(t);
    assert c2 == bend;
    ForwardIsProduct(t, q);
    ForwardIsProduct(t, c);
    assert UnitLaw(t, q2);
    SolutionCosine(t, p, q);
    ElbowLength(t, t.Cis(q2), Radius(t, p));
    ProductSign(Radius(t, p), Radius(t, p));
    UpperArmUnique(t.Cis(q1), t.Cis(c1), Elbow(t.Cis(q2)));
    assert TurnLaw(t, q2, c2) && TurnLaw(t, c1, q1);
    m :| q2 == c2 + Turns(m);
    n :| c1 == q1 + Turns(n);
  }

  /** Among an angle's full-turn copies the wrapped one is nearest to the reference. */
  lemma RewrapNearest(value: real, reference: real, n: int)
    ensures var d, e := AngleDelta(value, reference), value + Turns(n) - reference;
      d * d <= e * e
  {
    var k := RewrapTurns(value, reference);
    var d, e := AngleDelta(value, reference), value + Turns(n) - reference;
    assert e == d + Turns(n - k);
    if n == k {
    } else {
      assert e <= d - 360.0 || e >= d + 360.0;
      SmallerSquare(d, e);
    }
  }

  lemma SmallerSquare(d: real, e: real)
    requires -180.0 <= d < 180.0 && (e <= d - 360.0 || e >= d + 360.0)
    ensures d * d <= e * e
  {
    assert e * e - d * d == (e - d) * (e + d);
    ProductSign(e - d, e + d);
    ProductSign(d - e, -(e + d));
    assert (d - e) * -(e + d) == (e - d) * (e + d);
  }

  /** The inverse returns, of all joint pairs that put the hand at `p`, one that is nearest to the
      reference. */
  lemma InverseIsNearest(t: Trig, p: Cx, reference: Pair, q: Pair)
    requires Lawful(t) && Reachable(t, p) && Forward(t, q) == p
    ensures Inverse(t, p, Some(reference)).Some?
    ensures Dist2(Inverse(t, p, Some(reference)).value, reference) <= Dist2(q, reference)
  {
    var bend := Bend(t, p);
    ClampIsNoOp(t, p);
    SolutionCosine(t, p, q);
    ForwardOfInverse(t, p, None);
    CisNeg(t, bend);
    var b := t.Cis(q.elbow + 90.0 - Offset2(t));
    assert UnitLaw(t, q.elbow + 90.0 - Offset2(t)) && UnitLaw(t, bend);
    UnitsByCosine(b, t.Cis(bend));
    var sign := if b == t.Cis(bend) then bend else -bend;
    var n, m := SolutionIsBranch(t, p, q, sign);
    RewrapNearest(Branch(t, p, sign).shoulder, reference.shoulder, n);
    RewrapNearest(Branch(t, p, sign).elbow, reference.elbow, m);
    assert Dist2(Rewrap(Branch(t, p, sign), reference), reference) <= Dist2(q, reference);
  }
}
