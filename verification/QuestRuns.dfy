/** What holds over every run of samples of one grip, and over every mapped frame. */
module QuestRuns {
  import opened Wrappers
  import opened Plane
  import opened Kinematics
  import Q = Quaternions
  import opened ArmStep
  import opened QuestModel

  /** A later sample of a grip, with the time it covers. */
  datatype Sample = Sample(c: Controller, dt: real)

  /** The grip after its first sample and `later` ones. */
  function GripAfter(cfg: Config, t: Trig, g: Grip, later: seq<Sample>): Grip
    requires cfg.panDegPerM != 0.0
    decreases |later|
  {
    if later == [] then g
    else
      var s, before := later[|later| - 1], GripAfter(cfg, t, g, later[..|later| - 1]);
      Track(cfg, t, before, s.c, s.dt)
  }

  function Plus(a: Vec3, b: Vec3): Vec3 {
    Vec3(a.x + b.x, a.y + b.y, a.z + b.z)
  }

  const NOWHERE := Vec3(0.0, 0.0, 0.0)

  /** The sum of all displacements handed to the arm step. */
  function TotalFed(cfg: Config, t: Trig, g: Grip, later: seq<Sample>): Vec3
    requires cfg.panDegPerM != 0.0
    decreases |later|
  {
    if later == [] then NOWHERE
    else
      var n := |later| - 1;
      Plus(TotalFed(cfg, t, g, later[..n]), Fed(cfg, GripAfter(cfg, t, g, later[..n]), later[n].c, later[n].dt))
  }

  /** How far the controller is from the pose up to which its motion has been consumed. */
  function Residual(g: Grip): Vec3 {
    Minus(g.previous.position, g.reference.position)
  }

  // ----- displacement

  /** During a grip the height and depth displacement of the controller is what the arm step was given plus
      a residual under a millimetre, whatever limits, speed or workspace cut off: motion is consumed once and
      never saved up. */
  lemma {:induction false} DisplacementAccounted(cfg: Config, t: Trig, c: Controller, arm: Arm, later: seq<Sample>)
    requires cfg.panDegPerM != 0.0
    ensures var g, total := GripAfter(cfg, t, Begin(c, arm), later), TotalFed(cfg, t, Begin(c, arm), later);
      var moved := Minus(g.previous.position, c.position);
      && moved.y == total.y + Residual(g).y && Abs(Residual(g).y) < DEADBAND
      && moved.z == total.z + Residual(g).z && Abs(Residual(g).z) < DEADBAND
    decreases |later|
  {
    if later != [] {
      var n := |later| - 1;
      DisplacementAccounted(cfg, t, c, arm, later[..n]);
      TrackConsumes(cfg, t, GripAfter(cfg, t, Begin(c, arm), later[..n]), later[n].c, later[n].dt);
    }
  }

  lemma TrackConsumes(cfg: Config, t: Trig, g: Grip, c: Controller, dt: real)
    requires cfg.panDegPerM != 0.0
    ensures var g', fed := Track(cfg, t, g, c, dt), Fed(cfg, g, c, dt);
      && g'.previous == c
      && c.position.y - g.reference.position.y == fed.y + Residual(g').y && Abs(Residual(g').y) < DEADBAND
      && c.position.z - g.reference.position.z == fed.z + Residual(g').z && Abs(Residual(g').z) < DEADBAND
  {
  }

  /** Sideways the same bound holds after a sample unless a deflected stick moved the arm by nothing, which
      takes a sample of no duration, while the controller was a millimetre or more off. */
  lemma LateralResidualIff(cfg: Config, t: Trig, g: Grip, c: Controller, dt: real)
    requires ConfigOk(cfg) && dt >= 0.0
    ensures Abs(Residual(Track(cfg, t, g, c, dt)).x) < DEADBAND <==>
            !(Abs(c.stickX) > STICK && dt == 0.0 && Abs(c.position.x - g.reference.position.x) >= DEADBAND)
  {
    var fed := Fed(cfg, g, c, dt);
    var stick := StickValue(c.stickX);
    assert stick != 0.0 <==> Abs(c.stickX) > STICK;
    if stick != 0.0 {
      StickFeeds(stick, cfg.thumbstickPanDegS, dt, cfg.panDegPerM);
    }
  }

  lemma StickFeeds(stick: real, speed: real, dt: real, scale: real)
    requires stick != 0.0 && speed > 0.0 && dt >= 0.0 && scale > 0.0
    ensures stick * speed * dt / scale == 0.0 <==> dt == 0.0
  {
    var v := stick * speed * dt / scale;
    assert v * scale == stick * speed * dt;
    if dt == 0.0 {
      assert stick * speed * 0.0 == 0.0;
      ZeroProduct(v, scale);
    } else if v == 0.0 {
      ZeroProduct(stick * speed, dt);
      ZeroProduct(stick, speed);
    }
  }

  predicate Deflected(s: Sample) {
    Abs(s.c.stickX) > STICK
  }

  /** The lateral displacement that the stick commands in one sample. */
  function StickPart(cfg: Config, s: Sample): real
    requires cfg.panDegPerM != 0.0
  {
    if Deflected(s) then StickValue(s.c.stickX) * cfg.thumbstickPanDegS * s.dt / cfg.panDegPerM else 0.0
  }

  /** The lateral hand motion that a deflected stick replaces, and so uses up, in one sample. */
  function SwallowedPart(g: Grip, s: Sample): real {
    if Deflected(s) && s.dt != 0.0 then s.c.position.x - g.reference.position.x else 0.0
  }

  function StickFed(cfg: Config, later: seq<Sample>): real
    requires cfg.panDegPerM != 0.0
  {
    if later == [] then 0.0 else StickFed(cfg, later[..|later| - 1]) + StickPart(cfg, later[|later| - 1])
  }

  function Swallowed(cfg: Config, t: Trig, g: Grip, later: seq<Sample>): real
    requires cfg.panDegPerM != 0.0
    decreases |later|
  {
    if later == [] then 0.0
    else
      var n := |later| - 1;
      Swallowed(cfg, t, g, later[..n]) + SwallowedPart(GripAfter(cfg, t, g, later[..n]), later[n])
  }

  /** The last sample had a deflected stick and no duration, with the hand a millimetre or more off. */
  predicate EndsStalled(cfg: Config, t: Trig, g: Grip, later: seq<Sample>)
    requires cfg.panDegPerM != 0.0
  {
    later != [] &&
    var n := |later| - 1;
    && Deflected(later[n]) && later[n].dt == 0.0
    && Abs(later[n].c.position.x - GripAfter(cfg, t, g, later[..n]).reference.position.x) >= DEADBAND
  }

  lemma TrackSideways(cfg: Config, t: Trig, g: Grip, c: Controller, dt: real)
    requires cfg.panDegPerM != 0.0
    ensures Residual(Track(cfg, t, g, c, dt)).x == if Fed(cfg, g, c, dt).x != 0.0 then 0.0 else c.position.x - g.reference.position.x
  {
  }

  lemma FedSideways(cfg: Config, g: Grip, s: Sample)
    requires ConfigOk(cfg) && s.dt >= 0.0
    ensures Deflected(s) ==> Fed(cfg, g, s.c, s.dt).x == StickPart(cfg, s) && (StickPart(cfg, s) == 0.0 <==> s.dt == 0.0)
    ensures !Deflected(s) ==> Fed(cfg, g, s.c, s.dt).x == Deadened(s.c.position.x - g.reference.position.x, DEADBAND)
  {
    var stick := StickValue(s.c.stickX);
    assert stick != 0.0 <==> Deflected(s);
    if stick != 0.0 {
      StickFeeds(stick, cfg.thumbstickPanDegS, s.dt, cfg.panDegPerM);
    }
  }

  lemma TrackLateral(cfg: Config, t: Trig, g: Grip, s: Sample)
    requires ConfigOk(cfg) && s.dt >= 0.0
    ensures var g', fed := Track(cfg, t, g, s.c, s.dt), Fed(cfg, g, s.c, s.dt);
      s.c.position.x - g.reference.position.x == fed.x - StickPart(cfg, s) + SwallowedPart(g, s) + Residual(g').x
  {
    FedSideways(cfg, g, s);
    TrackSideways(cfg, t, g, s.c, s.dt);
    var part, fed := StickPart(cfg, s), Fed(cfg, g, s.c, s.dt).x;
    assert !Deflected(s) ==> part == 0.0;
    assert Deflected(s) ==> fed == part;
  }

  /** During a whole grip the sideways displacement of the controller is what the arm step was given for hand
      motion, plus the hand motion that the deflected stick replaced, plus a residual; the residual is under a
      millimetre exactly if the grip does not end stalled. */
  lemma {:induction false} LateralAccounted(cfg: Config, t: Trig, c: Controller, arm: Arm, later: seq<Sample>)
    requires ConfigOk(cfg) && forall i | 0 <= i < |later| :: later[i].dt >= 0.0
    ensures var g0 := Begin(c, arm);
      var g := GripAfter(cfg, t, g0, later);
      && g.previous.position.x - c.position.x ==
         (TotalFed(cfg, t, g0, later).x - StickFed(cfg, later)) + Swallowed(cfg, t, g0, later) + Residual(g).x
      && (Abs(Residual(g).x) < DEADBAND <==> !EndsStalled(cfg, t, g0, later))
    decreases |later|
  {
    if later != [] {
      var n := |later| - 1;
      var g := GripAfter(cfg, t, Begin(c, arm), later[..n]);
      LateralAccounted(cfg, t, c, arm, later[..n]);
      TrackLateral(cfg, t, g, later[n]);
      LateralResidualIff(cfg, t, g, later[n].c, later[n].dt);
    }
  }

  // ----- rotation

  function OrientationAt(c: Controller, later: seq<Sample>, n: nat): Q.Quat
    requires n <= |later|
  {
    if n == 0 then c.orientation else later[n - 1].c.orientation
  }

  /** From one sample to another the wrist turned by less than half a degree in pitch and in roll. */
  predicate HardlyTurned(t: Trig, c: Controller, later: seq<Sample>, m: nat, n: nat)
    requires m <= |later| && n <= |later|
  {
    var w := Q.RelativeWristAngles(t, OrientationAt(c, later, n), OrientationAt(c, later, m));
    Abs(w.pitch) < 0.5 && Abs(w.roll) < 0.5
  }

  /** The wrist rotation of a sample is measured from sample `m`, the last one whose rotation was handed to the arm
      step: since then it never reached half a degree in pitch or roll. */
  predicate TurnedLastAt(t: Trig, c: Controller, later: seq<Sample>, m: nat) {
    m <= |later| && forall n | m < n <= |later| :: HardlyTurned(t, c, later, m, n)
  }

  /** During a grip no rotation is handed over twice or lost: what a sample hands over is its rotation from such a
      sample, each part from half a degree on, and if it hands over anything it becomes the next one. */
  lemma {:induction false} RotationConsumedOnce(cfg: Config, t: Trig, c: Controller, arm: Arm, later: seq<Sample>) returns (m: nat)
    requires cfg.panDegPerM != 0.0
    ensures TurnedLastAt(t, c, later, m)
    ensures GripAfter(cfg, t, Begin(c, arm), later).reference.orientation == OrientationAt(c, later, m)
    ensures later != [] && m < |later| ==> FedRotation(t, GripAfter(cfg, t, Begin(c, arm), later[..|later| - 1]), later[|later| - 1].c) == Q.Wrist(0.0, 0.0)
    decreases |later|
  {
    if later == [] {
      m := 0;
    } else {
      var n := |later| - 1;
      m := RotationConsumedOnce(cfg, t, c, arm, later[..n]);
      var g := GripAfter(cfg, t, Begin(c, arm), later[..n]);
      TrackTurns(cfg, t, g, later[n].c, later[n].dt);
      if Rotating(FedRotation(t, g, later[n].c)) {
        m := |later|;
      } else {
        StillHardly(t, c, later, m);
      }
    }
  }

  lemma StillHardly(t: Trig, c: Controller, later: seq<Sample>, m: nat)
    requires later != [] && m < |later| && TurnedLastAt(t, c, later[..|later| - 1], m) && HardlyTurned(t, c, later, m, |later|)
    ensures TurnedLastAt(t, c, later, m)
  {
    var n := |later| - 1;
    forall k | m < k <= n
      ensures HardlyTurned(t, c, later, m, k)
    {
      assert HardlyTurned(t, c, later[..n], m, k);
      assert OrientationAt(c, later, k) == OrientationAt(c, later[..n], k) && OrientationAt(c, later, m) == OrientationAt(c, later[..n], m);
    }
  }

  lemma TrackTurns(cfg: Config, t: Trig, g: Grip, c: Controller, dt: real)
    requires cfg.panDegPerM != 0.0
    ensures var raw, fed := Q.RelativeWristAngles(t, c.orientation, g.reference.orientation), FedRotation(t, g, c);
      && fed.pitch == (if Abs(raw.pitch) >= 0.5 then raw.pitch else 0.0) && fed.roll == (if Abs(raw.roll) >= 0.5 then raw.roll else 0.0)
      && Track(cfg, t, g, c, dt).reference.orientation == (if Rotating(fed) then c.orientation else g.reference.orientation)
  {
  }

  // ----- trigger

  function DirectionAt(c: Controller, later: seq<Sample>, n: nat): bool
    requires n <= |later|
  {
    if n == 0 then c.opening else later[n - 1].c.opening
  }

  function TriggerAt(c: Controller, later: seq<Sample>, n: nat): real
    requires n <= |later|
  {
    if n == 0 then c.trigger else later[n - 1].c.trigger
  }

  /** At sample `m` the trigger was released, and the direction has not changed since. */
  predicate ArmedAt(c: Controller, later: seq<Sample>, m: nat)
    requires m <= |later|
  {
    && TriggerAt(c, later, m) < TRIGGER
    && forall j | m < j <= |later| :: DirectionAt(c, later, j) == DirectionAt(c, later, j - 1)
  }

  predicate Armed(c: Controller, later: seq<Sample>) {
    exists m :: 0 <= m <= |later| && ArmedAt(c, later, m)
  }

  /** The interlock: after any samples of a grip the trigger is ready exactly if it was released at some
      sample of this grip since the last change of direction. */
  lemma {:induction false} ReadyIffArmed(cfg: Config, t: Trig, c: Controller, arm: Arm, later: seq<Sample>)
    requires cfg.panDegPerM != 0.0
    ensures GripAfter(cfg, t, Begin(c, arm), later).ready <==> Armed(c, later)
    ensures GripAfter(cfg, t, Begin(c, arm), later).previous == if later == [] then c else later[|later| - 1].c
    decreases |later|
  {
    if later == [] {
      assert ArmedAt(c, later, 0) <==> c.trigger < TRIGGER;
    } else {
      var n := |later| - 1;
      ReadyIffArmed(cfg, t, c, arm, later[..n]);
      ArmedStep(c, later[..n], later[n]);
      assert later == later[..n] + [later[n]];
    }
  }

  lemma ArmedStep(c: Controller, before: seq<Sample>, s: Sample)
    ensures Armed(c, before + [s]) <==>
            s.c.trigger < TRIGGER || (s.c.opening == DirectionAt(c, before, |before|) && Armed(c, before))
  {
    var later := before + [s];
    forall m: nat | m <= |before|
      ensures DirectionAt(c, later, m) == DirectionAt(c, before, m) && TriggerAt(c, later, m) == TriggerAt(c, before, m)
    {
    }
    if s.c.trigger < TRIGGER {
      assert ArmedAt(c, later, |later|);
    }
    if m: nat :| m <= |before| && ArmedAt(c, before, m) && s.c.opening == DirectionAt(c, before, |before|) {
      assert ArmedAt(c, later, m);
    }
    if m: nat :| m <= |later| && ArmedAt(c, later, m) && m < |later| {
      assert DirectionAt(c, later, |later|) == DirectionAt(c, later, |later| - 1);
      assert forall j | m < j <= |before| :: DirectionAt(c, before, j) == DirectionAt(c, later, j) == DirectionAt(c, later, j - 1);
      assert ArmedAt(c, before, m);
    }
  }

  /** So a sample moves the gripper only after a released one in the same grip and direction. */
  lemma SqueezeNeedsRelease(cfg: Config, t: Trig, c: Controller, arm: Arm, later: seq<Sample>, s: Sample)
    requires cfg.panDegPerM != 0.0 && Squeezes(GripAfter(cfg, t, Begin(c, arm), later), s.c)
    ensures exists m :: 0 <= m <= |later| && ArmedAt(c, later, m) && s.c.opening == DirectionAt(c, later, |later|)
  {
    ReadyIffArmed(cfg, t, c, arm, later);
  }

  lemma GripperStepNonneg(cfg: Config, c: Controller, dt: real)
    requires ConfigOk(cfg) && ControllerOk(c) && dt >= 0.0
    ensures GripperStep(cfg, c, dt) >= 0.0
  {
    ProductSign(cfg.maxGripperSpeed, dt);
    ProductSign(cfg.maxGripperSpeed * dt, c.trigger);
  }

  /** The value of the range that is nearest to the wanted one. */
  predicate NearestIn(r: Range, wanted: real, v: real) {
    Within(v, r) && (v < wanted ==> v == r.high) && (v > wanted ==> v == r.low)
  }

  /** A gripper move goes towards the configured opening, or closing, as far as the limits let it, never past it,
      and by exactly what speed, time and trigger allow until it is there; a sample that does not squeeze
      leaves the gripper. */
  lemma GripperMovesBounded(cfg: Config, g: Grip, c: Controller, held: real, dt: real, r: Range)
    requires ConfigOk(cfg) && ControllerOk(c) && dt >= 0.0
    ensures var v, target, step := Gripped(cfg, g, c, held, dt, r), GripperTarget(cfg, c, r), cfg.maxGripperSpeed * dt * c.trigger;
      && (r.low <= r.high ==> NearestIn(r, if c.opening then cfg.gripperOpen else cfg.gripperClosed, target))
      && (!(Ready(g, c) && c.trigger >= 0.1) ==> v == held)
      && (Ready(g, c) && c.trigger >= 0.1 ==> Approaches(held, target, step, v))
  {
    TargetIsNearest(cfg, c, r);
    GripperStepNonneg(cfg, c, dt);
    GrippedApproaches(cfg, g, c, held, dt, r, GripperTarget(cfg, c, r), GripperStep(cfg, c, dt));
  }

  lemma TargetIsNearest(cfg: Config, c: Controller, r: Range)
    ensures r.low <= r.high ==> NearestIn(r, if c.opening then cfg.gripperOpen else cfg.gripperClosed, GripperTarget(cfg, c, r))
  {
  }

  lemma GrippedApproaches(cfg: Config, g: Grip, c: Controller, held: real, dt: real, r: Range, target: real, step: real)
    requires step >= 0.0 && step == GripperStep(cfg, c, dt) && target == GripperTarget(cfg, c, r)
    ensures !(Ready(g, c) && c.trigger >= 0.1) ==> Gripped(cfg, g, c, held, dt, r) == held
    ensures Ready(g, c) && c.trigger >= 0.1 ==> Approaches(held, target, step, Gripped(cfg, g, c, held, dt, r))
  {
    SqueezedBounds(held, target, step);
  }

  /** From `held` one step towards the target, or to it if it is no further. */
  predicate Approaches(held: real, target: real, step: real, v: real) {
    && (held <= v <= target || target <= v <= held)
    && (Abs(target - held) <= step ==> v == target) && (Abs(target - held) > step ==> Abs(v - held) == step)
  }

  lemma SqueezedBounds(held: real, target: real, step: real)
    requires step >= 0.0
    ensures Approaches(held, target, step, Squeezed(held, target, step))
  {
  }
}
