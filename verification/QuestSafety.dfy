/** What holds of every command over whole runs of the mapper: samples of both hands, mode changes, receipts
    and resets in any order. */
module QuestSafety {
  import opened Wrappers
  import opened Plane
  import opened Kinematics
  import Q = Quaternions
  import opened ArmStep
  import opened QuestModel
  import R = QuestRuns

  /** What a mapper is built with, and the joint limits its caller passes. */
  datatype Setting = Setting(cfg: Config, base: Base, t: Trig, limits: Limits)

  datatype Event =
    | Sampled(frame: Frame, current: Arms, dt: real)
    | Receipt(applied: map<(Side, Joint), real>)
    | ModeSet(wanted: Mode)
    | Cleared

  const INITIAL := Mapper(map[], None, ArmMode, None)

  /** One event; only a sample that is accepted commands anything. */
  function Next(s: Setting, m: Mapper, e: Event): (Mapper, Option<Command>)
    requires s.cfg.panDegPerM != 0.0
  {
    match e
    case Sampled(f, current, dt) =>
      var (m', r) := MapFrame(s.cfg, s.base, s.t, m, f, current, dt, s.limits);
      (m', if r.Ok? then Some(r.value) else None)
    case Receipt(applied) => (Received(m, applied), None)
    case ModeSet(wanted) => (Switched(s.base, m, wanted).0, None)
    case Cleared => (Reset(m), None)
  }

  function After(s: Setting, run: seq<Event>): Mapper
    requires s.cfg.panDegPerM != 0.0
    decreases |run|
  {
    if run == [] then INITIAL else Next(s, After(s, run[..|run| - 1]), run[|run| - 1]).0
  }

  // ----- limits

  predicate ArmInside(s: Setting, side: Side, a: Arm) {
    Inside(Start(a, s.limits, side), a) && Within(a.gripper, RangeOf(s.limits, side, Gripper))
  }

  predicate ArmsInside(s: Setting, a: Arms) {
    ArmInside(s, Left, a.left) && ArmInside(s, Right, a.right)
  }

  predicate ReceiptInside(s: Setting, applied: map<(Side, Joint), real>) {
    forall k | k in applied :: Within(applied[k], RangeOf(s.limits, k.0, k.1))
  }

  /** The robot measures and accepts only positions inside the limits, and controllers are well formed. */
  predicate EventOk(s: Setting, e: Event) {
    match e
    case Sampled(f, current, _) => ArmsInside(s, current) && ControllerOk(f.left) && ControllerOk(f.right)
    case Receipt(applied) => ReceiptInside(s, applied)
    case _ => true
  }

  predicate RunOk(s: Setting, run: seq<Event>) {
    forall i | 0 <= i < |run| :: EventOk(s, run[i])
  }

  predicate MapperInside(s: Setting, m: Mapper) {
    && (m.targets.Some? ==> ArmsInside(s, m.targets.value))
    && (m.driveHold.Some? ==> ArmsInside(s, m.driveHold.value))
  }

  predicate Near(step: real, held: Arm, a: Arm) {
    && Abs(a.pan - held.pan) <= step && Abs(a.shoulder - held.shoulder) <= step && Abs(a.elbow - held.elbow) <= step
    && Abs(a.wrist - held.wrist) <= step && Abs(a.roll - held.roll) <= step
  }

  function Reach(s: Setting, dt: real): real {
    s.cfg.maxJointSpeed * dt + TOLERANCE
  }

  /** No joint of an arm that keeps its grip turns further from its last target than its speed allows. */
  predicate SlowEnough(s: Setting, dt: real, held: Arm, a: Arm) {
    Near(Reach(s, dt), held, a)
  }

  lemma MovedIsSafe(s: Setting, mv: Move)
    requires ConfigOk(s.cfg) && mv.cfg == s.cfg && mv.limits == s.limits && mv.dt >= 0.0 && ArmInside(s, mv.side, mv.joints)
    ensures ArmInside(s, mv.side, Moved(mv)) && SlowEnough(s, mv.dt, mv.joints, Moved(mv))
  {
    var step := GoalsOf(mv).step;
    assert Reach(s, mv.dt) == step + TOLERANCE;
    StepNonneg(mv);
    if Moving(mv.delta) || mv.pitch != 0.0 || mv.roll != 0.0 {
      StepIsSafe(mv);
      SafeIsInside(s, mv.joints, step, mv.side, Step(mv).0);
    }
  }

  lemma SafeIsInside(s: Setting, joints: Arm, step: real, side: Side, a: Arm)
    requires step >= 0.0 && Safe(Start(joints, s.limits, side), step, a) && ArmInside(s, side, joints)
    ensures ArmInside(s, side, a) && Near(step + TOLERANCE, joints, a)
  {
  }

  lemma WithGripper(s: Setting, dt: real, held: Arm, a: Arm, side: Side, gripper: real)
    requires ArmInside(s, side, a) && SlowEnough(s, dt, held, a) && Within(gripper, RangeOf(s.limits, side, Gripper))
    ensures ArmInside(s, side, a.(gripper := gripper)) && SlowEnough(s, dt, held, a.(gripper := gripper))
  {
  }

  lemma DrivenIsSafe(s: Setting, g: Grip, c: Controller, held: Arm, dt: real, side: Side)
    requires ConfigOk(s.cfg) && ControllerOk(c) && dt >= 0.0 && ArmInside(s, side, held)
    ensures var a := Driven(s.cfg, s.t, g, c, held, dt, s.limits, side);
      ArmInside(s, side, a) && SlowEnough(s, dt, held, a)
  {
    var mv, r := MoveOf(s.cfg, s.t, g, c, held, dt, s.limits, side), RangeOf(s.limits, side, Gripper);
    MovedIsSafe(s, mv);
    R.GripperMovesBounded(s.cfg, g, c, held.gripper, dt, r);
    WithGripper(s, dt, held, Moved(mv), side, Gripped(s.cfg, g, c, held.gripper, dt, r));
  }

  lemma SideIsSafe(s: Setting, g: Option<Grip>, c: Controller, held: Arm, current: Arm, dt: real, side: Side)
    requires ConfigOk(s.cfg) && ControllerOk(c) && dt >= 0.0 && ArmInside(s, side, held) && ArmInside(s, side, current)
    ensures var r := MapSide(s.cfg, s.t, g, c, held, current, dt, s.limits, side);
      r.Some? ==> ArmInside(s, side, r.value.1)
    ensures var r := MapSide(s.cfg, s.t, g, c, held, current, dt, s.limits, side);
      r.Some? && (g.Some? || r.value.0.None?) ==> SlowEnough(s, dt, held, r.value.1)
  {
    StepNonneg(Move(s.t, s.cfg, held, Vec3(0.0, 0.0, 0.0), 0.0, 0.0, dt, s.limits, side));
    if g.Some? && side in s.cfg.enabled && c.grip {
      DrivenIsSafe(s, g.value, c, held, dt, side);
    }
  }

  lemma NextIsSafe(s: Setting, m: Mapper, e: Event)
    requires ConfigOk(s.cfg) && EventOk(s, e) && MapperInside(s, m)
    ensures var (m', out) := Next(s, m, e);
      && MapperInside(s, m')
      && (out.Some? ==> ArmsInside(s, out.value.arms))
  {
    if e.Sampled? && m.mode.ArmMode? {
      var held := if m.targets.Some? then m.targets.value else e.current;
      var dt := BoundedDt(e.dt);
      SideIsSafe(s, GripOf(m, Left), e.frame.left, held.left, e.current.left, dt, Left);
      SideIsSafe(s, GripOf(m, Right), e.frame.right, held.right, e.current.right, dt, Right);
    } else if e.Receipt? && m.targets.Some? {
      MergedInside(s, m.targets.value.left, e.applied, Left);
      MergedInside(s, m.targets.value.right, e.applied, Right);
    }
  }

  lemma MergedInside(s: Setting, a: Arm, applied: map<(Side, Joint), real>, side: Side)
    requires ArmInside(s, side, a) && ReceiptInside(s, applied)
    ensures ArmInside(s, side, Merged(a, applied, side))
  {
    forall j: Joint, v | Within(v, RangeOf(s.limits, side, j))
      ensures Within(Applied(applied, side, j, v), RangeOf(s.limits, side, j))
    {
    }
  }

  /** Over every run in which the robot measures and accepts positions inside its joint limits, every command
      keeps all joints of both arms and both grippers inside them. */
  lemma {:induction false} CommandsStayInside(s: Setting, run: seq<Event>, e: Event)
    requires ConfigOk(s.cfg) && RunOk(s, run + [e])
    ensures MapperInside(s, After(s, run))
    ensures var out := Next(s, After(s, run), e).1; out.Some? ==> ArmsInside(s, out.value.arms)
    decreases |run|
  {
    assert (run + [e])[|run|] == e;
    if run != [] {
      var n := |run| - 1;
      assert run[..n] + [run[n]] == run == (run + [e])[..|run|];
      assert RunOk(s, run[..n] + [run[n]]);
      CommandsStayInside(s, run[..n], run[n]);
      NextIsSafe(s, After(s, run[..n]), run[n]);
    }
    NextIsSafe(s, After(s, run), e);
  }

  /** On every such run, an arm whose grip goes on, or that is not gripped, is never sent further from its last
      target than the joint speed allows in the time of the sample, at most a tenth of a second. */
  lemma CommandsMoveSlowly(s: Setting, run: seq<Event>, e: Event, side: Side)
    requires ConfigOk(s.cfg) && RunOk(s, run + [e]) && e.Sampled?
    requires var m := After(s, run); m.mode.ArmMode? && m.targets.Some?
    ensures var m, (m', out) := After(s, run), Next(s, After(s, run), e);
      out.Some? && (side in m.grips || side !in m'.grips) ==>
        SlowEnough(s, BoundedDt(e.dt), ArmOf(m.targets.value, side), ArmOf(out.value.arms, side)) && BoundedDt(e.dt) <= 0.1
  {
    CommandsStayInside(s, run, e);
    assert EventOk(s, (run + [e])[|run|]);
    var m := After(s, run);
    SideIsSafe(s, GripOf(m, side), ControllerOf(e.frame, side), ArmOf(m.targets.value, side), ArmOf(e.current, side),
               BoundedDt(e.dt), side);
  }

  // ----- holding still

  predicate Gone(m: Mapper) {
    m.grips == map[] && m.targets.None? && m.driveHold.None?
  }

  function AfterAll(s: Setting, m: Mapper, run: seq<Event>): Mapper
    requires s.cfg.panDegPerM != 0.0
    decreases |run|
  {
    if run == [] then m else Next(s, AfterAll(s, m, run[..|run| - 1]), run[|run| - 1]).0
  }

  lemma {:induction false} StaysGone(s: Setting, m: Mapper, run: seq<Event>)
    requires s.cfg.panDegPerM != 0.0 && Gone(m) && forall i | 0 <= i < |run| :: !run[i].Sampled?
    ensures Gone(AfterAll(s, m, run))
    decreases |run|
  {
    if run != [] {
      StaysGone(s, m, run[..|run| - 1]);
    }
  }

  /** In drive mode the arms are held: every command until the mode changes or a reset repeats the pose that
      the first one commanded, whatever is measured and received meanwhile. */
  lemma {:induction false} DriveHoldsArms(s: Setting, m: Mapper, pose: Arms, run: seq<Event>, e: Event)
    requires s.cfg.panDegPerM != 0.0 && m.mode.DriveMode? && m.driveHold == Some(pose)
    requires forall i | 0 <= i < |run| :: Undisturbed(run[i])
    ensures var m' := AfterAll(s, m, run);
      && m'.mode.DriveMode? && m'.driveHold == Some(pose)
      && (Next(s, m', e).1.Some? ==> Next(s, m', e).1.value.arms == pose)
    decreases |run|
  {
    if run != [] {
      DriveHoldsArms(s, m, pose, run[..|run| - 1], run[|run| - 1]);
    }
  }

  predicate Undisturbed(e: Event) {
    match e
    case Sampled(f, _, _) => f.left.tracked && f.right.tracked
    case Receipt(_) => true
    case ModeSet(wanted) => wanted.DriveMode?
    case Cleared => false
  }

  predicate TurnsWheel(c: Command) {
    c.xVel != 0.0 || c.thetaVel != 0.0
  }

  /** A command drives the base or moves an arm, never both: a command that turns a wheel comes in drive mode only,
      with the base enabled and the right hand gripping, and from any command in drive mode on, turning a wheel
      or not, all commands up to a disturbance send the arms to one and the same pose. */
  lemma BaseOrArms(s: Setting, m: Mapper, first: Event, between: seq<Event>, later: Event)
    requires s.cfg.panDegPerM != 0.0 && first.Sampled? && Next(s, m, first).1.Some?
    requires forall i | 0 <= i < |between| :: Undisturbed(between[i])
    ensures TurnsWheel(Next(s, m, first).1.value) ==> m.mode.DriveMode? && s.base.enabled && first.frame.right.grip
    ensures var out := Next(s, AfterAll(s, Next(s, m, first).0, between), later).1;
      m.mode.DriveMode? && out.Some? ==> out.value.arms == Next(s, m, first).1.value.arms
  {
    if m.mode.DriveMode? {
      DriveHoldsArms(s, Next(s, m, first).0, Next(s, m, first).1.value.arms, between, later);
    }
  }

  /** The hand is not gripped, or disabled, and nothing else touches the target of its arm. */
  predicate HandRests(s: Setting, e: Event, side: Side) {
    match e
    case Sampled(f, _, _) => !ControllerOf(f, side).grip || side !in s.cfg.enabled
    case Receipt(applied) => forall j :: (side, j) !in applied
    case ModeSet(wanted) => wanted.ArmMode?
    case Cleared => false
  }

  /** No sample of the run was refused. */
  predicate AllCommand(s: Setting, m: Mapper, run: seq<Event>)
    requires s.cfg.panDegPerM != 0.0
    decreases |run|
  {
    run == [] ||
    var n := |run| - 1;
    AllCommand(s, m, run[..n]) && (run[n].Sampled? ==> Next(s, AfterAll(s, m, run[..n]), run[n]).1.Some?)
  }

  predicate TargetIs(m: Mapper, arm: Arm, side: Side) {
    m.mode.ArmMode? && m.targets.Some? && ArmOf(m.targets.value, side) == arm
  }

  lemma RestKeepsTarget(s: Setting, m: Mapper, arm: Arm, e: Event, side: Side)
    requires s.cfg.panDegPerM != 0.0 && TargetIs(m, arm, side) && HandRests(s, e, side)
    requires e.Sampled? ==> Next(s, m, e).1.Some?
    ensures TargetIs(Next(s, m, e).0, arm, side)
    ensures e.Sampled? ==> ArmOf(Next(s, m, e).1.value.arms, side) == arm && side !in Next(s, m, e).0.grips
  {
    if e.Receipt? {
      assert forall j: Joint, v :: Applied(e.applied, side, j, v) == v;
    }
  }

  lemma {:induction false} RestsKeepTarget(s: Setting, m: Mapper, arm: Arm, run: seq<Event>, side: Side)
    requires s.cfg.panDegPerM != 0.0 && TargetIs(m, arm, side) && AllCommand(s, m, run)
    requires forall i | 0 <= i < |run| :: HandRests(s, run[i], side)
    ensures TargetIs(AfterAll(s, m, run), arm, side)
    decreases |run|
  {
    if run != [] {
      var n := |run| - 1;
      RestsKeepTarget(s, m, arm, run[..n], side);
      RestKeepsTarget(s, AfterAll(s, m, run[..n]), arm, run[n], side);
    }
  }

  /** While a hand rests, its arm and gripper stay where the last command before sent them, whatever the other
      hand does, whatever is measured and whatever the robot reports about the other arm. */
  lemma UngrippedHolds(s: Setting, m: Mapper, first: Event, between: seq<Event>, later: Event, side: Side)
    requires s.cfg.panDegPerM != 0.0 && m.mode.ArmMode? && first.Sampled? && Next(s, m, first).1.Some?
    requires AllCommand(s, Next(s, m, first).0, between)
    requires (forall i | 0 <= i < |between| :: HandRests(s, between[i], side)) && HandRests(s, later, side)
    ensures var out := Next(s, AfterAll(s, Next(s, m, first).0, between), later).1;
      out.Some? ==> ArmOf(out.value.arms, side) == ArmOf(Next(s, m, first).1.value.arms, side)
  {
    var m1, arm := Next(s, m, first).0, ArmOf(Next(s, m, first).1.value.arms, side);
    RestsKeepTarget(s, m1, arm, between, side);
    var m2 := AfterAll(s, m1, between);
    if Next(s, m2, later).1.Some? {
      RestKeepsTarget(s, m2, arm, later, side);
    }
  }
}
