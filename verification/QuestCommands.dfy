/** What an accepted sample commands, in terms of the frame, the last command and the measured pose. */
module QuestCommands {
  import opened Wrappers
  import opened Plane
  import opened Kinematics
  import Q = Quaternions
  import opened ArmStep
  import opened ArmMotion
  import opened QuestModel
  import R = QuestRuns
  import opened QuestSafety
  import opened QuestRefusals

  /** The pose that an arm-mode sample starts from: the last command, or, after a reset, the measured one. */
  function StartPose(s: Setting, run: seq<Event>, e: Event, side: Side): Arm
    requires s.cfg.panDegPerM != 0.0 && e.Sampled?
  {
    var m := After(s, run);
    ArmOf(if m.targets.Some? then m.targets.value else e.current, side)
  }

  // ----- arm mode

  /** A command becomes the next sample's starting pose. */
  lemma CommandsAreTargets(s: Setting, run: seq<Event>, e: Event)
    requires Lawful(s.t) && ConfigOk(s.cfg) && e.Sampled? && !Refused(s, run, e.frame)
    ensures Next(s, After(s, run), e).1.Some?
    ensures After(s, run + [e]).targets == Some(Next(s, After(s, run), e).1.value.arms)
  {
    RefusedIff(s, run, e);
    assert (run + [e])[..|run|] == run;
  }

  /** In every run an accepted arm-mode sample commands each arm on its own: a hand that begins a grip takes over the
      measured joints and keeps the gripper, one that does not grip leaves everything, and the base stands. */
  lemma GripBeginsAtMeasuredPose(s: Setting, run: seq<Event>, e: Event, side: Side)
    requires Lawful(s.t) && ConfigOk(s.cfg) && e.Sampled? && !Refused(s, run, e.frame) && LastMode(s, run).ArmMode?
    ensures Next(s, After(s, run), e).1.Some?
    ensures var c, arm := ControllerOf(e.frame, side), ArmOf(Next(s, After(s, run), e).1.value.arms, side);
      && (side !in s.cfg.enabled || !c.grip ==> arm == StartPose(s, run, e, side))
      && (side in s.cfg.enabled && c.grip && side !in Held(s, run) ==>
            arm == ArmOf(e.current, side).(gripper := StartPose(s, run, e, side).gripper))
    ensures Next(s, After(s, run), e).1.value.xVel == 0.0 && Next(s, After(s, run), e).1.value.thetaVel == 0.0
  {
    RefusedIff(s, run, e);
    AgreesAfter(s, run);
  }

  /** The motion of one sample of a grip that goes on: displacement and rotation of the controller since the poses up
      to which they were consumed, small ones dropped, a deflected stick in place of the lateral part. */
  predicate Handed(s: Setting, g: Grip, c: Controller, dt: real, fed: Vec3, turn: Q.Wrist)
    requires s.cfg.panDegPerM != 0.0
  {
    var p, q := g.reference.position, c.position;
    var raw := Q.RelativeWristAngles(s.t, c.orientation, g.reference.orientation);
    && fed.y == (if Abs(q.y - p.y) >= 0.001 then q.y - p.y else 0.0)
    && fed.z == (if Abs(q.z - p.z) >= 0.001 then q.z - p.z else 0.0)
    && HandedSideways(s.cfg, q.x - p.x, c.stickX, dt, fed.x)
    && turn.pitch == (if Abs(raw.pitch) >= 0.5 then raw.pitch else 0.0)
    && turn.roll == (if Abs(raw.roll) >= 0.5 then raw.roll else 0.0)
  }

  /** Sideways it is the hand's motion, or, while the stick is deflected, the pan speed for what is left of the
      deflection, in metres. */
  predicate HandedSideways(cfg: Config, raw: real, stick: real, dt: real, x: real)
    requires cfg.panDegPerM != 0.0
  {
    if Abs(stick) <= 0.15 then x == if Abs(raw) >= 0.001 then raw else 0.0
    else x == (stick - (if stick > 0.0 then 0.15 else -0.15)) / 0.85 * cfg.thumbstickPanDegS * dt / cfg.panDegPerM
  }

  lemma HandedIs(s: Setting, g: Grip, c: Controller, dt: real)
    requires ConfigOk(s.cfg)
    ensures Handed(s, g, c, dt, Fed(s.cfg, g, c, dt), FedRotation(s.t, g, c))
  {
    SidewaysIs(s.cfg, g, c, dt);
    RestIs(s, g, c, dt, Fed(s.cfg, g, c, dt), FedRotation(s.t, g, c));
  }

  lemma RestIs(s: Setting, g: Grip, c: Controller, dt: real, fed: Vec3, turn: Q.Wrist)
    requires ConfigOk(s.cfg) && turn == FedRotation(s.t, g, c)
    requires fed.y == Deadened(c.position.y - g.reference.position.y, DEADBAND)
    requires fed.z == Deadened(c.position.z - g.reference.position.z, DEADBAND)
    requires HandedSideways(s.cfg, c.position.x - g.reference.position.x, c.stickX, dt, fed.x)
    ensures Handed(s, g, c, dt, fed, turn)
  {
  }

  lemma SidewaysIs(cfg: Config, g: Grip, c: Controller, dt: real)
    requires cfg.panDegPerM != 0.0
    ensures HandedSideways(cfg, c.position.x - g.reference.position.x, c.stickX, dt, Fed(cfg, g, c, dt).x)
  {
    StickIs(c.stickX);
  }

  lemma StickIs(v: real)
    ensures Abs(v) > 0.15 ==> StickValue(v) == (v - (if v > 0.0 then 0.15 else -0.15)) / 0.85 && StickValue(v) != 0.0
    ensures Abs(v) <= 0.15 ==> StickValue(v) == 0.0
  {
  }

  /** In every run, from joints inside their limits, a hand that goes on with its grip moves its own arm from the last
      command: shoulder and elbow take the hand up and back by one common fraction of what was handed over, pan,
      wrist and roll follow what was handed over for them, and the gripper follows the trigger. */
  lemma GripMovesArm(s: Setting, run: seq<Event>, e: Event, side: Side) returns (g: Grip, mv: Move, f: real)
    requires Lawful(s.t) && ConfigOk(s.cfg) && e.Sampled? && !Refused(s, run, e.frame) && LastMode(s, run).ArmMode?
    requires side in s.cfg.enabled && ControllerOf(e.frame, side).grip && side in Held(s, run) && ControllerOk(ControllerOf(e.frame, side))
    requires Inside(Start(StartPose(s, run, e, side), s.limits, side), StartPose(s, run, e, side))
    ensures Next(s, After(s, run), e).1.Some?
    ensures After(s, run).grips.Keys == Held(s, run).Keys && g == After(s, run).grips[side] && g.previous == Held(s, run)[side]
    ensures mv.t == s.t && mv.cfg == s.cfg && mv.limits == s.limits && mv.side == side && mv.dt == BoundedDt(e.dt)
    ensures mv.joints == StartPose(s, run, e, side)
    ensures Handed(s, g, ControllerOf(e.frame, side), BoundedDt(e.dt), mv.delta, Q.Wrist(mv.pitch, mv.roll))
    ensures var a := ArmOf(Next(s, After(s, run), e).1.value.arms, side);
      && 0.0 <= f <= 1.0 && Displaced(mv, Pair(a.shoulder, a.elbow), f)
      && a == Moved(mv).(gripper := a.gripper)
      && (Moving(mv.delta) || mv.pitch != 0.0 || mv.roll != 0.0 ==> Moved(mv) == Step(mv).0 && f == Step(mv).2)
      && (!Moving(mv.delta) && mv.pitch == 0.0 && mv.roll == 0.0 ==> Moved(mv) == mv.joints)
      && a.gripper == Gripped(s.cfg, g, ControllerOf(e.frame, side), mv.joints.gripper, BoundedDt(e.dt), RangeOf(s.limits, side, Gripper))
  {
    RefusedIff(s, run, e);
    AgreesAfter(s, run);
    g := After(s, run).grips[side];
    var c := ControllerOf(e.frame, side);
    mv := MoveOf(s.cfg, s.t, g, c, StartPose(s, run, e, side), BoundedDt(e.dt), s.limits, side);
    HandedIs(s, g, c, BoundedDt(e.dt));
    f := Step(mv).2;
    DrivenMoves(s, g, c, StartPose(s, run, e, side), BoundedDt(e.dt), side, mv);
    if !(Moving(mv.delta) || mv.pitch != 0.0 || mv.roll != 0.0) {
      f := 0.0;
    }
    SampledDrives(s, run, e, side, g);
  }

  lemma SampledDrives(s: Setting, run: seq<Event>, e: Event, side: Side, g: Grip)
    requires Lawful(s.t) && ConfigOk(s.cfg) && e.Sampled? && Agrees(s, run, After(s, run)) && Next(s, After(s, run), e).1.Some?
    requires After(s, run).mode.ArmMode? && side in s.cfg.enabled && ControllerOf(e.frame, side).grip
    requires side in After(s, run).grips && g == After(s, run).grips[side]
    ensures ArmOf(Next(s, After(s, run), e).1.value.arms, side) ==
            Driven(s.cfg, s.t, g, ControllerOf(e.frame, side), StartPose(s, run, e, side), BoundedDt(e.dt), s.limits, side)
  {
  }

  lemma DrivenMoves(s: Setting, g: Grip, c: Controller, held: Arm, dt: real, side: Side, mv: Move)
    requires Lawful(s.t) && ConfigOk(s.cfg) && dt >= 0.0 && Inside(Start(held, s.limits, side), held)
    requires mv == MoveOf(s.cfg, s.t, g, c, held, dt, s.limits, side)
    ensures var a := Driven(s.cfg, s.t, g, c, held, dt, s.limits, side);
      && a == Moved(mv).(gripper := Gripped(s.cfg, g, c, held.gripper, dt, RangeOf(s.limits, side, Gripper)))
      && (Moving(mv.delta) || mv.pitch != 0.0 || mv.roll != 0.0 ==>
            Displaced(mv, Pair(a.shoulder, a.elbow), Step(mv).2) && 0.0 <= Step(mv).2 <= 1.0)
      && (!Moving(mv.delta) && mv.pitch == 0.0 && mv.roll == 0.0 ==> Displaced(mv, Pair(a.shoulder, a.elbow), 0.0))
  {
    HandFollowsLine(mv);
    StepIsSafe(mv);
  }

  // ----- drive mode

  /** In every run a drive-mode sample turns the wheels exactly while the right hand grips and its stick is deflected:
      the vertical stick drives and the horizontal one turns, each against its sign and at its share of top speed. */
  lemma DriveSpeeds(s: Setting, run: seq<Event>, e: Event)
    requires Lawful(s.t) && ConfigOk(s.cfg) && e.Sampled? && !Refused(s, run, e.frame) && LastMode(s, run).DriveMode?
    requires s.base.maxLinear > 0.0 && s.base.maxAngular > 0.0
    ensures Next(s, After(s, run), e).1.Some?
    ensures var c, out := e.frame.right, Next(s, After(s, run), e).1.value;
      && (out.xVel != 0.0 <==> c.grip && Abs(c.stickY) > 0.15) && (out.thetaVel != 0.0 <==> c.grip && Abs(c.stickX) > 0.15)
      && (out.xVel != 0.0 ==> out.xVel / s.base.maxLinear == -c.stickY)
      && (out.thetaVel != 0.0 ==> out.thetaVel / s.base.maxAngular == -c.stickX)
  {
    RefusedIff(s, run, e);
    AgreesAfter(s, run);
    AxisIs(e.frame.right, e.frame.right.stickY, s.base.maxLinear);
    AxisIs(e.frame.right, e.frame.right.stickX, s.base.maxAngular);
  }

  lemma AxisIs(c: Controller, v: real, scale: real)
    requires scale > 0.0
    ensures DriveAxis(c, v, scale) != 0.0 <==> c.grip && Abs(v) > 0.15
    ensures DriveAxis(c, v, scale) != 0.0 ==> DriveAxis(c, v, scale) / scale == -v
  {
    if c.grip && Abs(v) > 0.15 {
      NonzeroProduct(-v, scale);
      assert DriveAxis(c, v, scale) == -v * scale;
      Divides(-v, scale);
    }
  }

  lemma NonzeroProduct(a: real, b: real)
    requires a != 0.0 && b != 0.0
    ensures a * b != 0.0
  {
    if a * b == 0.0 {
      ZeroProduct(a, b);
    }
  }

  lemma Divides(a: real, b: real)
    requires b != 0.0
    ensures a * b / b == a
  {
  }

  // ----- the mode and the receipts

  /** A mode is refused exactly if it drives and there is no base; a mode taken anew forgets all motion, the current
      one changes nothing. */
  lemma SwitchAnswers(base: Base, m: Mapper, wanted: Mode)
    ensures var (m', ok) := Switched(base, m, wanted);
      && (ok <==> wanted.ArmMode? || base.enabled)
      && (!ok || wanted == m.mode ==> m' == m)
      && (ok && wanted != m.mode ==> m' == Mapper(map[], None, wanted, None))
  {
  }

  /** A receipt replaces the known target of exactly the joints it names, and only while targets are known. */
  lemma ReceiptIsTaken(m: Mapper, applied: map<(Side, Joint), real>, side: Side, j: Joint)
    ensures var m' := Received(m, applied);
      && m' == m.(targets := m'.targets) && (m'.targets.Some? <==> m.targets.Some?)
      && (m.targets.Some? ==>
            JointOf(ArmOf(m'.targets.value, side), j) ==
            if (side, j) in applied then applied[(side, j)] else JointOf(ArmOf(m.targets.value, side), j))
  {
  }
}
