/** One motion step of an arm: how far along a requested hand displacement the planar joints may go, and
    the independently limited pan and wrist joints. */
module ArmStep {
  import opened Wrappers
  import opened Plane
  import opened Kinematics
  import opened FractionSearch

  datatype Side = Left | Right

  datatype Joint = Pan | Shoulder | Elbow | Wrist | Roll | Gripper

  datatype Arm = Arm(pan: real, shoulder: real, elbow: real, wrist: real, roll: real, gripper: real)

  function JointOf(a: Arm, j: Joint): real {
    match j
    case Pan => a.pan
    case Shoulder => a.shoulder
    case Elbow => a.elbow
    case Wrist => a.wrist
    case Roll => a.roll
    case Gripper => a.gripper
  }

  datatype Range = Range(low: real, high: real)

  type Limits = map<(Side, Joint), Range>

  /** A joint without limits is taken to turn half a turn either way; a gripper to go from 0 to 100. */
  function RangeOf(limits: Limits, side: Side, j: Joint): Range {
    if (side, j) in limits then limits[(side, j)]
    else if j.Gripper? then Range(0.0, 100.0) else Range(-180.0, 180.0)
  }

  predicate Within(v: real, r: Range) {
    r.low <= v <= r.high
  }

  datatype Vec3 = Vec3(x: real, y: real, z: real)

  datatype Config = Config(
    positionScale: real,
    panDegPerM: real,
    thumbstickPanDegS: real,
    wristScale: real,
    maxJointSpeed: real,
    maxGripperSpeed: real,
    maxControllerJump: real,
    maxWristJump: real,
    enabled: set<Side>,
    gripperOpen: real,
    gripperClosed: real,
    panSignLeft: real,
    panSignRight: real)

  /** Construction rejects any other configuration. */
  predicate ConfigOk(c: Config) {
    && c.positionScale > 0.0 && c.panDegPerM > 0.0 && c.thumbstickPanDegS > 0.0 && c.wristScale > 0.0
    && c.maxJointSpeed > 0.0 && c.maxGripperSpeed > 0.0 && c.maxControllerJump > 0.0 && c.maxWristJump > 0.0
    && 0.0 <= c.gripperOpen <= 100.0 && 0.0 <= c.gripperClosed <= 100.0
    && (c.panSignLeft == 1.0 || c.panSignLeft == -1.0) && (c.panSignRight == 1.0 || c.panSignRight == -1.0)
  }

  /** The arguments of one step. `pitch` and `roll` are the requested wrist rotation. */
  datatype Move = Move(
    t: Trig,
    cfg: Config,
    joints: Arm,
    delta: Vec3,
    pitch: real,
    roll: real,
    dt: real,
    limits: Limits,
    side: Side)

  function Abs(v: real): real {
    if v < 0.0 then -v else v
  }

  const TOLERANCE := 0.000000001

  /** How far a joint may turn in one step, and what the independent joints are asked for: the pan angle,
      the change of wrist pitch and the roll angle. */
  datatype Goals = Goals(step: real, pan: real, turn: real, roll: real)

  function GoalsOf(mv: Move): Goals {
    var sign := if mv.side.Left? then mv.cfg.panSignLeft else mv.cfg.panSignRight;
    Goals(mv.cfg.maxJointSpeed * mv.dt,
          mv.joints.pan + mv.delta.x * mv.cfg.panDegPerM * sign,
          mv.pitch * mv.cfg.wristScale,
          mv.joints.roll + mv.roll * mv.cfg.wristScale)
  }

  /** The joints a step starts from and their ranges. */
  datatype Start = Start(joints: Arm, limits: Limits, side: Side)

  function StartOf(mv: Move): Start {
    Start(mv.joints, mv.limits, mv.side)
  }

  function Bounds(s: Start, j: Joint): Range {
    RangeOf(s.limits, s.side, j)
  }

  function Current(a: Arm): Pair {
    Pair(a.shoulder, a.elbow)
  }

  function Hand(mv: Move): Cx {
    Forward(mv.t, Current(mv.joints))
  }

  /** Where the hand should be after a fraction of the displacement. */
  function Target(mv: Move, fraction: real): Cx {
    Cx(Hand(mv).re - mv.delta.z * mv.cfg.positionScale * fraction,
       Hand(mv).im + mv.delta.y * mv.cfg.positionScale * fraction)
  }

  function Solve(mv: Move, fraction: real): Option<Pair> {
    if mv.delta.y == 0.0 && mv.delta.z == 0.0 then Some(Current(mv.joints))
    else Inverse(mv.t, Target(mv, fraction), Some(Current(mv.joints)))
  }

  predicate Fits(s: Start, step: real, p: Pair) {
    && Within(p.shoulder, Bounds(s, Shoulder)) && Abs(p.shoulder - s.joints.shoulder) <= step + TOLERANCE
    && Within(p.elbow, Bounds(s, Elbow)) && Abs(p.elbow - s.joints.elbow) <= step + TOLERANCE
  }

  /** Joint angles at a fraction, if reachable, inside the limits and slow enough. */
  function Candidate(mv: Move, fraction: real): Option<Pair> {
    var solved := Solve(mv, fraction);
    if solved.Some? && Fits(StartOf(mv), GoalsOf(mv).step, solved.value) then solved else None
  }

  // ----- one step

  /** How far the hand may go, and the planar joint angles there. */
  function Planar(mv: Move): (real, Pair) {
    Search(Attempt(mv), Current(mv.joints))
  }

  function Attempt(mv: Move): Attempts<Pair> {
    f => Candidate(mv, f)
  }

  /** A joint that moves on its own: towards its target, inside its limits and no faster than allowed. */
  function Independent(joint: real, target: real, r: Range, step: real): real {
    var low := if joint - step > r.low then joint - step else r.low;
    var high := if joint + step < r.high then joint + step else r.high;
    Clamp(target, low, high)
  }

  function Achieved(joint: real, target: real, value: real): real {
    if Abs(target - joint) > TOLERANCE then Abs((value - joint) / (target - joint)) else 1.0
  }

  function Min(a: real, b: real): real {
    if b < a then b else a
  }

  /** The wrist makes up for what the planar joints turn. */
  function WristTarget(joints: Arm, turn: real, p: Pair): real {
    joints.wrist + turn - (p.shoulder - joints.shoulder) - (p.elbow - joints.elbow)
  }

  /** The independent joints around a planar result. */
  function Around(s: Start, g: Goals, p: Pair): Arm {
    Arm(Independent(s.joints.pan, g.pan, Bounds(s, Pan), g.step),
        p.shoulder,
        p.elbow,
        Independent(s.joints.wrist, WristTarget(s.joints, g.turn, p), Bounds(s, Wrist), g.step),
        Independent(s.joints.roll, g.roll, Bounds(s, Roll), g.step),
        s.joints.gripper)
  }

  /** The smallest fraction that any part of the motion achieved. */
  function Least(s: Start, g: Goals, f: real, a: Arm): real {
    Min(Min(f, Achieved(s.joints.pan, g.pan, a.pan)),
        Min(Achieved(s.joints.wrist, WristTarget(s.joints, g.turn, Current(a)), a.wrist),
            Achieved(s.joints.roll, g.roll, a.roll)))
  }

  /** The new joints, the smallest achieved fraction, and the planar fraction. */
  function Step(mv: Move): (Arm, real, real) {
    var (f, p) := Planar(mv);
    var a := Around(StartOf(mv), GoalsOf(mv), p);
    (a, Least(StartOf(mv), GoalsOf(mv), f, a), f)
  }

  method MoveArm(mv: Move) returns (arm: Arm, least: real, fraction: real)
    ensures (arm, least, fraction) == Step(mv)
  {
    var g, s := GoalsOf(mv), StartOf(mv);
    var planar;
    fraction, planar := FindFraction(Attempt(mv), Current(mv.joints));
    arm := mv.joints.(shoulder := planar.shoulder, elbow := planar.elbow);
    arm := arm.(pan := Independent(mv.joints.pan, g.pan, Bounds(s, Pan), g.step));
    least := Min(fraction, Achieved(mv.joints.pan, g.pan, arm.pan));
    var wrist := WristTarget(mv.joints, g.turn, planar);
    arm := arm.(wrist := Independent(mv.joints.wrist, wrist, Bounds(s, Wrist), g.step));
    arm := arm.(roll := Independent(mv.joints.roll, g.roll, Bounds(s, Roll), g.step));
    least := Min(least, Min(Achieved(mv.joints.wrist, wrist, arm.wrist), Achieved(mv.joints.roll, g.roll, arm.roll)));
  }

  predicate Inside(s: Start, a: Arm) {
    && Within(a.pan, Bounds(s, Pan)) && Within(a.shoulder, Bounds(s, Shoulder)) && Within(a.elbow, Bounds(s, Elbow))
    && Within(a.wrist, Bounds(s, Wrist)) && Within(a.roll, Bounds(s, Roll))
  }

  /** An independent joint ends inside its limits and within one speed step for every target exactly when
      its range can be reached in one step at all; a joint that starts inside always can. */
  lemma IndependentSafeIff(joint: real, r: Range, step: real)
    ensures (forall target :: Within(Independent(joint, target, r, step), r) && Abs(Independent(joint, target, r, step) - joint) <= step)
            <==> r.low <= r.high && step >= 0.0 && r.low <= joint + step && joint - step <= r.high
  {
    if !(r.low <= r.high && step >= 0.0 && r.low <= joint + step && joint - step <= r.high) {
      var v := Independent(joint, joint, r, step);
      assert !(Within(v, r) && Abs(v - joint) <= step);
    }
  }

  /** An independent joint reaches its target whenever that is inside the limits and near enough, and never
      passes it when it starts inside. */
  lemma IndependentReaches(joint: real, target: real, r: Range, step: real)
    requires Within(joint, r) && step >= 0.0
    ensures var v := Independent(joint, target, r, step);
      && (v == target <==> Within(target, r) && Abs(target - joint) <= step)
      && (joint <= v <= target || target <= v <= joint)
  {
  }

  lemma AchievedIsFraction(joint: real, target: real, value: real)
    requires joint <= value <= target || target <= value <= joint
    ensures 0.0 <= Achieved(joint, target, value) <= 1.0
  {
    if Abs(target - joint) > TOLERANCE {
      Quotient(value - joint, target - joint);
    }
  }

  lemma Quotient(a: real, b: real)
    requires b != 0.0 && (0.0 <= a <= b || b <= a <= 0.0)
    ensures 0.0 <= Abs(a / b) <= 1.0
  {
    var q := a / b;
    assert q * b == a && (q - 1.0) * b == a - b;
    ProductSign(q - 1.0, b);
    ProductSign(q - 1.0, -b);
    ProductSign(-q, b);
    ProductSign(-q, -b);
    assert (q - 1.0) * -b == b - a && -q * b == -a && -q * -b == a;
  }

  /** The new joints are inside the limits and near enough to the old ones. */
  predicate Safe(s: Start, step: real, a: Arm) {
    && Inside(s, a)
    && Abs(a.pan - s.joints.pan) <= step && Abs(a.wrist - s.joints.wrist) <= step && Abs(a.roll - s.joints.roll) <= step
    && Abs(a.shoulder - s.joints.shoulder) <= step + TOLERANCE && Abs(a.elbow - s.joints.elbow) <= step + TOLERANCE
    && a.gripper == s.joints.gripper
  }

  lemma AroundIsSafe(s: Start, g: Goals, p: Pair)
    requires g.step >= 0.0 && Inside(s, s.joints) && Fits(s, g.step, p)
    ensures Safe(s, g.step, Around(s, g, p))
  {
    IndependentReaches(s.joints.pan, g.pan, Bounds(s, Pan), g.step);
    IndependentReaches(s.joints.wrist, WristTarget(s.joints, g.turn, p), Bounds(s, Wrist), g.step);
    IndependentReaches(s.joints.roll, g.roll, Bounds(s, Roll), g.step);
  }

  lemma AroundAchieves(s: Start, g: Goals, f: real, p: Pair)
    requires g.step >= 0.0 && Inside(s, s.joints) && 0.0 <= f <= 1.0
    ensures 0.0 <= Least(s, g, f, Around(s, g, p)) <= f
  {
    PartAchieves(s.joints.pan, g.pan, Bounds(s, Pan), g.step);
    PartAchieves(s.joints.wrist, WristTarget(s.joints, g.turn, p), Bounds(s, Wrist), g.step);
    PartAchieves(s.joints.roll, g.roll, Bounds(s, Roll), g.step);
    assert Current(Around(s, g, p)) == p;
  }

  lemma PartAchieves(joint: real, target: real, r: Range, step: real)
    requires Within(joint, r) && step >= 0.0
    ensures 0.0 <= Achieved(joint, target, Independent(joint, target, r, step)) <= 1.0
  {
    IndependentReaches(joint, target, r, step);
    AchievedIsFraction(joint, target, Independent(joint, target, r, step));
  }

  lemma PlanarFits(mv: Move)
    requires GoalsOf(mv).step >= 0.0 && Inside(StartOf(mv), mv.joints)
    ensures 0.0 <= Planar(mv).0 <= 1.0 && Fits(StartOf(mv), GoalsOf(mv).step, Planar(mv).1)
  {
    SearchIsTight(Attempt(mv), Current(mv.joints));
  }

  lemma StepNonneg(mv: Move)
    requires ConfigOk(mv.cfg) && mv.dt >= 0.0
    ensures GoalsOf(mv).step >= 0.0
  {
    ProductSign(mv.cfg.maxJointSpeed, mv.dt);
  }

  /** From joints inside their limits a step ends inside them, no joint turns further than the speed allows,
      and the gripper does not move. */
  lemma StepIsSafe(mv: Move)
    requires ConfigOk(mv.cfg) && mv.dt >= 0.0 && Inside(StartOf(mv), mv.joints)
    ensures Safe(StartOf(mv), GoalsOf(mv).step, Step(mv).0) && 0.0 <= Step(mv).1 <= Step(mv).2 <= 1.0
  {
    StepNonneg(mv);
    PlanarFits(mv);
    AroundIsSafe(StartOf(mv), GoalsOf(mv), Planar(mv).1);
    AroundAchieves(StartOf(mv), GoalsOf(mv), Planar(mv).0, Planar(mv).1);
  }

  /** With these shoulder and elbow angles the hand is where the fraction of the requested displacement puts it:
      as much higher as the controller was raised and as much nearer as it was pulled back, both scaled. */
  predicate Displaced(mv: Move, p: Pair, f: real) {
    var before, after := Forward(mv.t, Pair(mv.joints.shoulder, mv.joints.elbow)), Forward(mv.t, p);
    && after.re - before.re == -(mv.cfg.positionScale * f * mv.delta.z)
    && after.im - before.im == mv.cfg.positionScale * f * mv.delta.y
  }

  lemma TargetIsDisplaced(mv: Move, p: Pair, f: real)
    ensures Forward(mv.t, p) == Target(mv, f) <==> Displaced(mv, p, f)
  {
    Products(mv.delta.z, mv.cfg.positionScale, f);
    Products(mv.delta.y, mv.cfg.positionScale, f);
  }

  lemma Products(a: real, b: real, c: real)
    ensures a * b * c == b * c * a
  {
    Assoc(a, b, c);
  }

  /** The hand goes along the straight line of the requested displacement, by exactly the chosen fraction,
      whatever the limits, the speed and the edge of the workspace cut off. */
  lemma HandFollowsLine(mv: Move)
    requires Lawful(mv.t) && ConfigOk(mv.cfg)
    ensures var (a, _, f) := Step(mv); Displaced(mv, Pair(a.shoulder, a.elbow), f)
  {
    PlanarReaches(mv);
    TargetIsDisplaced(mv, Planar(mv).1, Planar(mv).0);
  }

  lemma PlanarReaches(mv: Move)
    requires Lawful(mv.t) && ConfigOk(mv.cfg)
    ensures Forward(mv.t, Planar(mv).1) == Target(mv, Planar(mv).0)
  {
    var (f, p) := Planar(mv);
    SearchIsTight(Attempt(mv), Current(mv.joints));
    if mv.delta.y == 0.0 && mv.delta.z == 0.0 {
      assert p == Current(mv.joints);
    } else if f > 0.0 {
      ForwardOfInverse(mv.t, Target(mv, f), Some(Current(mv.joints)));
    }
  }

  /** The fraction is the largest the search can resolve; see `SearchIsTight`. */
  lemma FractionIsTight(mv: Move)
    ensures var (a, _, f) := Step(mv);
      && (f == 1.0 <==> Candidate(mv, 1.0).Some?)
      && (f > 0.0 ==> Candidate(mv, f) == Some(Current(a)))
      && (f == 0.0 ==> Current(a) == Current(mv.joints) && forall n: nat | n <= HALVINGS :: Candidate(mv, Half(n)).None?)
      && (0.0 < f < 1.0 ==> exists rejected :: f < rejected <= f + f / 1024.0 && Candidate(mv, rejected).None?)
      && (forall n: nat | n <= HALVINGS && Half(n) > f :: Candidate(mv, Half(n)).None?)
  {
    var attempt := Attempt(mv);
    SearchIsTight(attempt, Current(mv.joints));
    var (f, p) := Planar(mv);
    if 0.0 < f < 1.0 {
      var rejected :| f < rejected <= f + f / 1024.0 && attempt(rejected).None?;
      assert Candidate(mv, rejected).None?;
    }
    forall n: nat | n <= HALVINGS && (f == 0.0 || Half(n) > f)
      ensures Candidate(mv, Half(n)).None?
    {
      if Half(n) > f {
        LargerHalfRejected(attempt, Current(mv.joints), n);
      }
      assert attempt(Half(n)).None?;
    }
  }

  function Pitch(a: Arm): real {
    a.shoulder + a.elbow + a.wrist
  }

  lemma PitchSum(s: Start, g: Goals, p: Pair)
    requires g.step >= 0.0 && Inside(s, s.joints)
    ensures var wanted := WristTarget(s.joints, g.turn, p);
      Within(wanted, Bounds(s, Wrist)) && Abs(wanted - s.joints.wrist) <= g.step <==>
      Pitch(Around(s, g, p)) == Pitch(s.joints) + g.turn
  {
    IndependentReaches(s.joints.wrist, WristTarget(s.joints, g.turn, p), Bounds(s, Wrist), g.step);
  }

  /** When the wrist is not limited, and only then, the gripper's pitch (the sum of the three planar joints)
      changes by the requested rotation alone, however the hand moved. */
  lemma WristKeepsPitch(mv: Move)
    requires ConfigOk(mv.cfg) && mv.dt >= 0.0 && Inside(StartOf(mv), mv.joints)
    ensures var a, g := Step(mv).0, GoalsOf(mv);
      var wanted := WristTarget(mv.joints, g.turn, Current(a));
      Within(wanted, Bounds(StartOf(mv), Wrist)) && Abs(wanted - mv.joints.wrist) <= g.step <==>
      Pitch(a) == Pitch(mv.joints) + g.turn
  {
    StepNonneg(mv);
    PitchSum(StartOf(mv), GoalsOf(mv), Planar(mv).1);
    assert Current(Step(mv).0) == Planar(mv).1;
  }
}
