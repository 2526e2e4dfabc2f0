/** What one arm step does, in terms of the joints before and after and of where they put the hand. */
module ArmMotion {
  import opened Wrappers
  import opened Plane
  import opened Kinematics
  import opened FractionSearch
  import opened ArmStep

  // ----- shoulder and elbow

  /** The joint is inside its limits, and no further from where it was than the speed allows. */
  predicate Allowed(mv: Move, j: Joint, before: real, after: real) {
    Within(after, RangeOf(mv.limits, mv.side, j)) && Abs(after - before) <= mv.cfg.maxJointSpeed * mv.dt + 0.000000001
  }

  predicate BothAllowed(mv: Move, p: Pair) {
    Allowed(mv, Shoulder, mv.joints.shoulder, p.shoulder) && Allowed(mv, Elbow, mv.joints.elbow, p.elbow)
  }

  /** Of all joint pairs that displace the hand by the fraction, this one turns the joints least. */
  ghost predicate LeastTurn(mv: Move, p: Pair, f: real) {
    && Displaced(mv, p, f)
    && forall q: Pair | Displaced(mv, q, f) ::
         Dist2(p, Pair(mv.joints.shoulder, mv.joints.elbow)) <= Dist2(q, Pair(mv.joints.shoulder, mv.joints.elbow))
  }

  /** The arm can be sent to the fraction with these joints. */
  ghost predicate Gets(mv: Move, p: Pair, f: real) {
    LeastTurn(mv, p, f) && BothAllowed(mv, p)
  }

  /** The displaced point is off the annulus that the arm reaches, or getting there with least turning breaks a
      joint limit or the speed. */
  ghost predicate Blocked(mv: Move, f: real) {
    || !OnAnnulus(mv, f)
    || exists p :: LeastTurn(mv, p, f) && !BothAllowed(mv, p)
  }

  /** The hand's position after a fraction of the displacement. */
  function Point(mv: Move, f: real): Cx {
    var before := Forward(mv.t, Pair(mv.joints.shoulder, mv.joints.elbow));
    Cx(before.re - mv.cfg.positionScale * f * mv.delta.z, before.im + mv.cfg.positionScale * f * mv.delta.y)
  }

  /** Nothing is asked of the planar joints, or the displaced point is reachable. */
  predicate OnAnnulus(mv: Move, f: real) {
    (mv.delta.y == 0.0 && mv.delta.z == 0.0) || Reachable(mv.t, Point(mv, f))
  }

  lemma FitsIsAllowed(mv: Move, p: Pair)
    ensures Fits(StartOf(mv), GoalsOf(mv).step, p) <==> BothAllowed(mv, p)
  {
  }

  lemma StillIsLeast(mv: Move, f: real)
    requires mv.delta.y == 0.0 && mv.delta.z == 0.0
    ensures LeastTurn(mv, Current(mv.joints), f)
  {
    forall q: Pair
      ensures Dist2(Current(mv.joints), Current(mv.joints)) <= Dist2(q, Current(mv.joints))
    {
      SquareNonneg(q.shoulder - mv.joints.shoulder);
      SquareNonneg(q.elbow - mv.joints.elbow);
    }
  }

  lemma InverseIsLeast(mv: Move, f: real)
    requires Lawful(mv.t) && Reachable(mv.t, Target(mv, f))
    ensures Inverse(mv.t, Target(mv, f), Some(Current(mv.joints))).Some?
    ensures LeastTurn(mv, Inverse(mv.t, Target(mv, f), Some(Current(mv.joints))).value, f)
  {
    var current := Current(mv.joints);
    ForwardOfInverse(mv.t, Target(mv, f), Some(current));
    var p := Inverse(mv.t, Target(mv, f), Some(current)).value;
    TargetIsDisplaced(mv, p, f);
    forall q: Pair | Displaced(mv, q, f)
      ensures Dist2(p, current) <= Dist2(q, current)
    {
      TargetIsDisplaced(mv, q, f);
      InverseIsNearest(mv.t, Target(mv, f), current, q);
    }
  }

  lemma TargetIsPoint(mv: Move, f: real)
    ensures Target(mv, f) == Point(mv, f)
  {
    Products(mv.delta.z, mv.cfg.positionScale, f);
    Products(mv.delta.y, mv.cfg.positionScale, f);
  }

  /** A fraction is accepted only if the arm gets there, and rejected only if it is blocked. */
  lemma CandidateMeans(mv: Move, f: real)
    requires Lawful(mv.t)
    ensures Candidate(mv, f).Some? ==> Gets(mv, Candidate(mv, f).value, f)
    ensures Candidate(mv, f).None? ==> Blocked(mv, f)
  {
    TargetIsPoint(mv, f);
    var current := Current(mv.joints);
    ForwardOfInverse(mv.t, Target(mv, f), Some(current));
    if mv.delta.y == 0.0 && mv.delta.z == 0.0 {
      StillIsLeast(mv, f);
      FitsIsAllowed(mv, current);
    } else if Reachable(mv.t, Target(mv, f)) {
      InverseIsLeast(mv, f);
      FitsIsAllowed(mv, Inverse(mv.t, Target(mv, f), Some(current)).value);
    }
  }

  /** The whole planar result: at a positive fraction the arm gets there by the least turning; a fraction below one
      has a blocked one at most a 1024th of it above, and every larger halving is blocked; at zero nothing moves. */
  lemma PlanarMotion(mv: Move)
    requires Lawful(mv.t)
    ensures var (a, _, f) := Step(mv);
      && 0.0 <= f <= 1.0
      && (f > 0.0 ==> Gets(mv, Pair(a.shoulder, a.elbow), f))
      && (f == 0.0 ==> a.shoulder == mv.joints.shoulder && a.elbow == mv.joints.elbow)
      && (0.0 < f < 1.0 ==> exists blocked :: f < blocked <= f + f / 1024.0 && Blocked(mv, blocked))
      && (forall n: nat | n <= HALVINGS && Half(n) > f :: Blocked(mv, Half(n)))
  {
    var (a, _, f) := Step(mv);
    SearchIsTight(Attempt(mv), Current(mv.joints));
    FractionIsTight(mv);
    CandidateMeans(mv, f);
    if 0.0 < f < 1.0 {
      var rejected :| f < rejected <= f + f / 1024.0 && Candidate(mv, rejected).None?;
      CandidateMeans(mv, rejected);
    }
    forall n: nat | n <= HALVINGS && Half(n) > f
      ensures Blocked(mv, Half(n))
    {
      CandidateMeans(mv, Half(n));
    }
  }

  // ----- pan, wrist and roll

  /** The joint does what it is asked if that is inside its limits and near enough; otherwise it goes that way
      until a limit or the speed stops it. */
  predicate Follows(r: Range, step: real, before: real, wanted: real, after: real) {
    && (after == wanted <==> Within(wanted, r) && Abs(wanted - before) <= step)
    && (before <= after <= wanted || wanted <= after <= before)
    && (after < wanted ==> after == r.high || after == before + step)
    && (after > wanted ==> after == r.low || after == before - step)
  }

  lemma IndependentFollows(r: Range, step: real, before: real, wanted: real)
    requires step >= 0.0 && Within(before, r)
    ensures Follows(r, step, before, wanted, Independent(before, wanted, r, step))
  {
    IndependentReaches(before, wanted, r, step);
  }

  /** The side's sign of the pan joint. */
  function PanSign(mv: Move): real {
    match mv.side
    case Left => mv.cfg.panSignLeft
    case Right => mv.cfg.panSignRight
  }

  lemma GoalsAre(mv: Move, g: Goals)
    requires g.step == mv.cfg.maxJointSpeed * mv.dt && g.turn == mv.pitch * mv.cfg.wristScale
    requires g.pan == mv.joints.pan + mv.delta.x * mv.cfg.panDegPerM * PanSign(mv)
    requires g.roll == mv.joints.roll + mv.roll * mv.cfg.wristScale
    ensures g == GoalsOf(mv)
  {
  }

  /** From joints inside their limits, pan follows the lateral displacement and roll the rolled wrist, each by its
      own scale, and the wrist follows the pitched one less what shoulder and elbow turned, all no faster than
      the joint speed allows; the gripper rests. */
  lemma OtherJointsFollow(mv: Move, g: Goals)
    requires ConfigOk(mv.cfg) && mv.dt >= 0.0 && Inside(StartOf(mv), mv.joints)
    requires g.step == mv.cfg.maxJointSpeed * mv.dt && g.turn == mv.pitch * mv.cfg.wristScale
    requires g.pan == mv.joints.pan + mv.delta.x * mv.cfg.panDegPerM * PanSign(mv)
    requires g.roll == mv.joints.roll + mv.roll * mv.cfg.wristScale
    ensures var a, b := Step(mv).0, mv.joints;
      && Follows(RangeOf(mv.limits, mv.side, Pan), g.step, b.pan, g.pan, a.pan)
      && Follows(RangeOf(mv.limits, mv.side, Wrist), g.step, b.wrist,
                 b.wrist + g.turn - (a.shoulder - b.shoulder) - (a.elbow - b.elbow), a.wrist)
      && Follows(RangeOf(mv.limits, mv.side, Roll), g.step, b.roll, g.roll, a.roll)
      && a.gripper == b.gripper
  {
    StepNonneg(mv);
    GoalsAre(mv, g);
    StepIsAround(mv, g);
    AroundFollows(StartOf(mv), g, Planar(mv).1);
  }

  lemma StepIsAround(mv: Move, g: Goals)
    requires g == GoalsOf(mv)
    ensures Step(mv).0 == Around(StartOf(mv), g, Planar(mv).1)
  {
  }

  lemma AroundFollows(s: Start, g: Goals, p: Pair)
    requires g.step >= 0.0 && Inside(s, s.joints)
    ensures var a, b := Around(s, g, p), s.joints;
      && Follows(Bounds(s, Pan), g.step, b.pan, g.pan, a.pan)
      && Follows(Bounds(s, Wrist), g.step, b.wrist, b.wrist + g.turn - (a.shoulder - b.shoulder) - (a.elbow - b.elbow), a.wrist)
      && Follows(Bounds(s, Roll), g.step, b.roll, g.roll, a.roll)
      && a.gripper == b.gripper
  {
    var b := s.joints;
    IndependentFollows(Bounds(s, Pan), g.step, b.pan, g.pan);
    IndependentFollows(Bounds(s, Wrist), g.step, b.wrist, WristTarget(b, g.turn, p));
    IndependentFollows(Bounds(s, Roll), g.step, b.roll, g.roll);
  }

  // ----- the achieved share

  /** A joint that was asked to turn by more than the tolerance has done at least this share of it. */
  predicate Did(share: real, asked: real, done: real) {
    Abs(asked) > TOLERANCE ==> Abs(done) >= share * Abs(asked)
  }

  predicate DidExactly(share: real, asked: real, done: real) {
    Abs(asked) > TOLERANCE && Abs(done) == share * Abs(asked)
  }

  lemma AchievedIs(joint: real, target: real, value: real, share: real)
    requires share <= Achieved(joint, target, value)
    ensures Did(share, target - joint, value - joint)
    ensures Abs(target - joint) > TOLERANCE && share == Achieved(joint, target, value) ==>
      DidExactly(share, target - joint, value - joint)
    ensures Abs(target - joint) <= TOLERANCE ==> Achieved(joint, target, value) == 1.0
  {
    var asked, done := target - joint, value - joint;
    if Abs(asked) > TOLERANCE {
      var q := done / asked;
      assert q * asked == done;
      AbsTimes(q, asked);
      TimesOrder(share, Abs(q), Abs(asked));
    }
  }

  lemma AbsTimes(a: real, b: real)
    ensures Abs(a * b) == Abs(a) * Abs(b)
  {
    ProductSign(a, b);
    ProductSign(-a, b);
    ProductSign(a, -b);
    ProductSign(-a, -b);
  }

  lemma TimesOrder(a: real, b: real, c: real)
    requires a <= b && c >= 0.0
    ensures a * c <= b * c
  {
  }

  /** A share is the least of those of a motion's parts: no more than the planar fraction, and no joint has done less
      of what it was asked; and it is that fraction or exactly what one joint has done. */
  predicate LeastShare(share: real, b: Arm, g: Goals, f: real, a: Arm) {
    var wrist := b.wrist + g.turn - (a.shoulder - b.shoulder) - (a.elbow - b.elbow);
    && share <= f
    && Did(share, g.pan - b.pan, a.pan - b.pan) && Did(share, g.roll - b.roll, a.roll - b.roll)
    && Did(share, wrist - b.wrist, a.wrist - b.wrist)
    && (share == f || DidExactly(share, g.pan - b.pan, a.pan - b.pan) || DidExactly(share, g.roll - b.roll, a.roll - b.roll)
        || DidExactly(share, wrist - b.wrist, a.wrist - b.wrist))
  }

  lemma LeastIsShare(s: Start, g: Goals, f: real, a: Arm)
    requires f <= 1.0
    ensures LeastShare(Least(s, g, f, a), s.joints, g, f, a)
  {
    var b, share := s.joints, Least(s, g, f, a);
    AchievedIs(b.pan, g.pan, a.pan, share);
    AchievedIs(b.roll, g.roll, a.roll, share);
    AchievedIs(b.wrist, WristTarget(b, g.turn, Current(a)), a.wrist, share);
  }

  lemma StepReports(mv: Move, g: Goals)
    requires g == GoalsOf(mv)
    ensures var (a, share, f) := Step(mv); share == Least(StartOf(mv), g, f, a) && f == Planar(mv).0
  {
  }

  /** What a step reports is the least share that any part of the motion achieved. */
  lemma ReportedShare(mv: Move, g: Goals)
    requires g.step == mv.cfg.maxJointSpeed * mv.dt && g.turn == mv.pitch * mv.cfg.wristScale
    requires g.pan == mv.joints.pan + mv.delta.x * mv.cfg.panDegPerM * PanSign(mv)
    requires g.roll == mv.joints.roll + mv.roll * mv.cfg.wristScale
    ensures var (a, share, f) := Step(mv); LeastShare(share, mv.joints, g, f, a)
  {
    GoalsAre(mv, g);
    StepReports(mv, g);
    SearchIsTight(Attempt(mv), Current(mv.joints));
    LeastIsShare(StartOf(mv), g, Step(mv).2, Step(mv).0);
  }

  /** A joint without limits may turn half a turn either way, and a gripper without limits closes at 0 and opens at
      100; given limits are those that hold. */
  lemma RangesAre(limits: Limits, side: Side, j: Joint, v: real)
    ensures Within(v, RangeOf(limits, side, j)) <==>
      if (side, j) in limits then limits[(side, j)].low <= v <= limits[(side, j)].high
      else if j == Gripper then 0.0 <= v <= 100.0 else Abs(v) <= 180.0
  {
  }
}
