/** Quest controller samples mapped to arm motion: one function per part of a sample, and runs of the
    samples of one grip. */
module QuestModel {
  import opened Wrappers
  import opened Plane
  import opened Kinematics
  import Q = Quaternions
  import opened ArmStep

  /** `opening` is the selected gripper direction. */
  datatype Controller = Controller(
    position: Vec3,
    orientation: Q.Quat,
    tracked: bool,
    grip: bool,
    trigger: real,
    stickX: real,
    stickY: real,
    opening: bool)

  /** Parsing rejects any other controller. */
  predicate ControllerOk(c: Controller) {
    Q.Norm2(c.orientation) == 1.0 && 0.0 <= c.trigger <= 1.0 && -1.0 <= c.stickX <= 1.0 && -1.0 <= c.stickY <= 1.0
  }

  /** What is remembered about a gripped controller: the last sample, the pose up to which motion has been
      consumed, and whether the trigger may move the gripper. */
  datatype Grip = Grip(anchor: Controller, anchorArm: Arm, previous: Controller, reference: Controller, ready: bool)

  const DEADBAND := 0.001
  const WRIST_DEADBAND := 0.5
  const TRIGGER := 0.1
  const STICK := 0.15

  function Deadened(v: real, band: real): real {
    if Abs(v) >= band then v else 0.0
  }

  function Minus(a: Vec3, b: Vec3): Vec3 {
    Vec3(a.x - b.x, a.y - b.y, a.z - b.z)
  }

  function StickValue(v: real): real {
    if Abs(v) > STICK then (if v < 0.0 then -(Abs(v) - STICK) / 0.85 else (Abs(v) - STICK) / 0.85) else 0.0
  }

  function SquaredLength(v: Vec3): real {
    v.x * v.x + v.y * v.y + v.z * v.z
  }

  function Distance(t: Trig, a: Vec3, b: Vec3): real {
    t.Sqrt(SquaredLength(Minus(a, b)))
  }

  function RotationStep(t: Trig, a: Q.Quat, b: Q.Quat): real {
    2.0 * t.Acos(Clamp(Abs(Q.Dot(a, b)), 0.0, 1.0))
  }

  predicate Jumps(cfg: Config, t: Trig, g: Grip, c: Controller) {
    || Distance(t, c.position, g.previous.position) > cfg.maxControllerJump
    || RotationStep(t, c.orientation, g.previous.orientation) > cfg.maxWristJump
  }

  /** The displacement handed to the arm step. A deflected stick replaces the lateral part. */
  function Fed(cfg: Config, g: Grip, c: Controller, dt: real): Vec3
    requires cfg.panDegPerM != 0.0
  {
    var raw := Minus(c.position, g.reference.position);
    var stick := StickValue(c.stickX);
    Vec3(if stick != 0.0 then stick * cfg.thumbstickPanDegS * dt / cfg.panDegPerM else Deadened(raw.x, DEADBAND),
         Deadened(raw.y, DEADBAND),
         Deadened(raw.z, DEADBAND))
  }

  function FedRotation(t: Trig, g: Grip, c: Controller): Q.Wrist {
    var raw := Q.RelativeWristAngles(t, c.orientation, g.reference.orientation);
    Q.Wrist(Deadened(raw.pitch, WRIST_DEADBAND), Deadened(raw.roll, WRIST_DEADBAND))
  }

  predicate Moving(v: Vec3) {
    v.x != 0.0 || v.y != 0.0 || v.z != 0.0
  }

  predicate Rotating(w: Q.Wrist) {
    w.pitch != 0.0 || w.roll != 0.0
  }

  /** Consumed components are taken from the sample, the others stay for later samples. */
  function Consumed(g: Grip, c: Controller, fed: Vec3, turn: Q.Wrist): Controller {
    if !Moving(fed) && !Rotating(turn) then g.reference
    else
      var p := g.reference.position;
      g.reference.(
        position := Vec3(if fed.x != 0.0 then c.position.x else p.x,
                         if fed.y != 0.0 then c.position.y else p.y,
                         if fed.z != 0.0 then c.position.z else p.z),
        orientation := if Rotating(turn) then c.orientation else g.reference.orientation)
  }

  /** A direction change disarms the trigger, a released trigger arms it. */
  function Ready(g: Grip, c: Controller): bool {
    if c.trigger < TRIGGER then true
    else if c.opening != g.previous.opening then false
    else g.ready
  }

  function Begin(c: Controller, arm: Arm): Grip {
    Grip(c, arm, c, c, c.trigger < TRIGGER)
  }

  function Track(cfg: Config, t: Trig, g: Grip, c: Controller, dt: real): Grip
    requires cfg.panDegPerM != 0.0
  {
    g.(previous := c, reference := Consumed(g, c, Fed(cfg, g, c, dt), FedRotation(t, g, c)), ready := Ready(g, c))
  }

  predicate Squeezes(g: Grip, c: Controller) {
    Ready(g, c) && c.trigger >= TRIGGER
  }

  function GripperTarget(cfg: Config, c: Controller, r: Range): real {
    Clamp(if c.opening then cfg.gripperOpen else cfg.gripperClosed, r.low, r.high)
  }

  function GripperStep(cfg: Config, c: Controller, dt: real): real {
    cfg.maxGripperSpeed * dt * c.trigger
  }

  /** The gripper after a sample that squeezes the trigger. */
  function Squeezed(held: real, target: real, step: real): real {
    Clamp(target, held - step, held + step)
  }

  function MoveOf(cfg: Config, t: Trig, g: Grip, c: Controller, held: Arm, dt: real, limits: Limits, side: Side): Move
    requires cfg.panDegPerM != 0.0
  {
    var turn := FedRotation(t, g, c);
    Move(t, cfg, held, Fed(cfg, g, c, dt), turn.pitch, turn.roll, dt, limits, side)
  }

  /** The arm after the hand and wrist motion of a sample; its gripper has not moved. */
  function Moved(mv: Move): Arm {
    if Moving(mv.delta) || mv.pitch != 0.0 || mv.roll != 0.0 then Step(mv).0 else mv.joints
  }

  /** The gripper after a sample. */
  function Gripped(cfg: Config, g: Grip, c: Controller, held: real, dt: real, r: Range): real {
    if Squeezes(g, c) then Squeezed(held, GripperTarget(cfg, c, r), GripperStep(cfg, c, dt)) else held
  }

  /** The arm after one sample of a grip that goes on. */
  function Driven(cfg: Config, t: Trig, g: Grip, c: Controller, held: Arm, dt: real, limits: Limits, side: Side): Arm
    requires cfg.panDegPerM != 0.0
  {
    Moved(MoveOf(cfg, t, g, c, held, dt, limits, side))
      .(gripper := Gripped(cfg, g, c, held.gripper, dt, RangeOf(limits, side, Gripper)))
  }

  /** The first sample of a grip takes the measured joints, but not the gripper, as its targets. */
  function Anchored(held: Arm, current: Arm): Arm {
    current.(gripper := held.gripper)
  }

  // ----- both arms

  datatype Arms = Arms(left: Arm, right: Arm)

  function ArmOf(a: Arms, side: Side): Arm {
    if side.Left? then a.left else a.right
  }

  datatype Frame = Frame(left: Controller, right: Controller)

  function ControllerOf(f: Frame, side: Side): Controller {
    if side.Left? then f.left else f.right
  }

  datatype Mode = ArmMode | DriveMode

  /** `targets` is the last command of the arms, empty after a reset. */
  datatype Mapper = Mapper(grips: map<Side, Grip>, targets: Option<Arms>, mode: Mode, driveHold: Option<Arms>)

  /** A command for both arms and the base. */
  datatype Command = Command(arms: Arms, xVel: real, thetaVel: real)

  datatype MapError = TrackingLost | PoseJumped | BaseDisabled

  function Reset(m: Mapper): Mapper {
    m.(grips := map[], targets := None, driveHold := None)
  }

  /** One side of a sample: its new grip, if it keeps one, and its arm; `None` for a pose jump. */
  function MapSide(cfg: Config, t: Trig, g: Option<Grip>, c: Controller, held: Arm, current: Arm, dt: real, limits: Limits, side: Side)
    : Option<(Option<Grip>, Arm)>
    requires cfg.panDegPerM != 0.0
  {
    if side !in cfg.enabled || !c.grip then Some((None, held))
    else if g.None? then Some((Some(Begin(c, current)), Anchored(held, current)))
    else if Jumps(cfg, t, g.value, c) then None
    else Some((Some(Track(cfg, t, g.value, c, dt)), Driven(cfg, t, g.value, c, held, dt, limits, side)))
  }

  function GripOf(m: Mapper, side: Side): Option<Grip> {
    if side in m.grips then Some(m.grips[side]) else None
  }

  function BoundedDt(dt: real): real {
    Clamp(dt, 0.0, 0.1)
  }

  function Keep(grips: map<Side, Grip>, side: Side, g: Option<Grip>): map<Side, Grip> {
    if g.Some? then grips[side := g.value] else grips - {side}
  }

  /** `QuestMapper.map` in arm mode, once both controllers are tracked. */
  function MapArms(cfg: Config, t: Trig, m: Mapper, f: Frame, current: Arms, dt: real, limits: Limits)
    : (Mapper, Result<Command, MapError>)
    requires cfg.panDegPerM != 0.0
  {
    var held := if m.targets.Some? then m.targets.value else current;
    var left := MapSide(cfg, t, GripOf(m, Left), f.left, held.left, current.left, dt, limits, Left);
    if left.None? then (Reset(m), Err(PoseJumped))
    else
      var right := MapSide(cfg, t, GripOf(m, Right), f.right, held.right, current.right, dt, limits, Right);
      if right.None? then (Reset(m), Err(PoseJumped))
      else
        var arms := Arms(left.value.1, right.value.1);
        var grips := Keep(Keep(m.grips, Left, left.value.0), Right, right.value.0);
        (m.(grips := grips, targets := Some(arms)), Ok(Command(arms, 0.0, 0.0)))
  }

  function DriveAxis(c: Controller, v: real, scale: real): real {
    if c.grip && Abs(v) > STICK then -v * scale else 0.0
  }

  function MapDrive(m: Mapper, f: Frame, current: Arms, maxLinear: real, maxAngular: real): (Mapper, Result<Command, MapError>) {
    var hold := if m.driveHold.Some? then m.driveHold.value else current;
    var command := Command(hold, DriveAxis(f.right, f.right.stickY, maxLinear), DriveAxis(f.right, f.right.stickX, maxAngular));
    (m.(driveHold := Some(hold), targets := Some(hold)), Ok(command))
  }

  datatype Base = Base(enabled: bool, maxLinear: real, maxAngular: real)

  function MapFrame(cfg: Config, base: Base, t: Trig, m: Mapper, f: Frame, current: Arms, dt: real, limits: Limits)
    : (Mapper, Result<Command, MapError>)
    requires cfg.panDegPerM != 0.0
  {
    if !f.left.tracked || !f.right.tracked then (Reset(m), Err(TrackingLost))
    else if m.mode.DriveMode? then
      if !base.enabled then (m, Err(BaseDisabled)) else MapDrive(m, f, current, base.maxLinear, base.maxAngular)
    else MapArms(cfg, t, m, f, current, BoundedDt(dt), limits)
  }

  /** `set_control_mode`: a change of mode forgets everything; driving needs the base. */
  function Switched(base: Base, m: Mapper, wanted: Mode): (Mapper, bool) {
    if wanted.DriveMode? && !base.enabled then (m, false)
    else if wanted == m.mode then (m, true)
    else (Reset(m).(mode := wanted), true)
  }

  function Applied(applied: map<(Side, Joint), real>, side: Side, j: Joint, before: real): real {
    if (side, j) in applied then applied[(side, j)] else before
  }

  function Merged(a: Arm, applied: map<(Side, Joint), real>, side: Side): Arm {
    Arm(Applied(applied, side, Pan, a.pan), Applied(applied, side, Shoulder, a.shoulder),
        Applied(applied, side, Elbow, a.elbow), Applied(applied, side, Wrist, a.wrist),
        Applied(applied, side, Roll, a.roll), Applied(applied, side, Gripper, a.gripper))
  }

  /** `accept_applied_action`: the next sample starts from what the robot accepted, joint by joint; a receipt
      after a reset is ignored. */
  function Received(m: Mapper, applied: map<(Side, Joint), real>): Mapper {
    if m.targets.None? then m
    else
      var a := m.targets.value;
      m.(targets := Some(Arms(Merged(a.left, applied, Left), Merged(a.right, applied, Right))))
  }
}
