/** When a sample is refused, in terms of the frames seen so far: which hands hold on to their last pose, and how far
    a hand that does may move and turn from one sample to the next. */
module QuestRefusals {
  import opened Wrappers
  import opened Plane
  import opened Kinematics
  import Q = Quaternions
  import opened ArmStep
  import opened QuestModel
  import opened QuestSafety

  // ----- what the frames say

  /** The mode asked for last that could be entered. */
  function LastMode(s: Setting, run: seq<Event>): Mode
    decreases |run|
  {
    if run == [] then ArmMode
    else
      var n := |run| - 1;
      match run[n]
      case ModeSet(wanted) => if wanted.ArmMode? || s.base.enabled then wanted else LastMode(s, run[..n])
      case _ => LastMode(s, run[..n])
  }

  /** Between two poses of a controller lies more than the allowed distance. */
  predicate MovedTooFar(s: Setting, a: Controller, b: Controller) {
    var x, y, z := b.position.x - a.position.x, b.position.y - a.position.y, b.position.z - a.position.z;
    x * x + y * y + z * z > s.cfg.maxControllerJump * s.cfg.maxControllerJump
  }

  /** The rotation from one pose to the other turns by more than allowed: its scalar part is the cosine of half
      its angle, up to the sign that both quaternions of a rotation differ in. */
  predicate TurnedTooFar(s: Setting, a: Controller, b: Controller) {
    var cosine := Abs(Q.Relative(b.orientation, a.orientation).w);
    2.0 * s.t.Acos(if cosine > 1.0 then 1.0 else cosine) > s.cfg.maxWristJump
  }

  predicate JumpedFrom(s: Setting, held: map<Side, Controller>, f: Frame, side: Side) {
    && side in held && side in s.cfg.enabled && ControllerOf(f, side).grip
    && (MovedTooFar(s, held[side], ControllerOf(f, side)) || TurnedTooFar(s, held[side], ControllerOf(f, side)))
  }

  /** The hands that keep a grip after a run, with the pose of the sample that they were last seen in. */
  function Held(s: Setting, run: seq<Event>): map<Side, Controller>
    decreases |run|, 0
  {
    if run == [] then map[]
    else
      var n := |run| - 1;
      match run[n]
      case Sampled(f, _, _) =>
        if Refused(s, run[..n], f) || LastMode(s, run[..n]).DriveMode? then map[]
        else map side | side in s.cfg.enabled && ControllerOf(f, side).grip :: ControllerOf(f, side)
      case Receipt(_) => Held(s, run[..n])
      case ModeSet(_) => if LastMode(s, run) == LastMode(s, run[..n]) then Held(s, run[..n]) else map[]
      case Cleared => map[]
  }

  /** A sample is refused if a hand is not tracked, or, in arm mode, if a hand that goes on with its grip jumped. */
  predicate Refused(s: Setting, run: seq<Event>, f: Frame)
    decreases |run|, 1
  {
    || !f.left.tracked || !f.right.tracked
    || (LastMode(s, run).ArmMode? && (JumpedFrom(s, Held(s, run), f, Left) || JumpedFrom(s, Held(s, run), f, Right)))
  }

  // ----- and the mapper agrees

  lemma DistanceSquared(t: Trig, a: Vec3, b: Vec3)
    requires Lawful(t)
    ensures Distance(t, a, b) >= 0.0 && Distance(t, a, b) * Distance(t, a, b) == SquaredLength(Minus(a, b))
  {
    var d := Minus(a, b);
    SquareNonneg(d.x);
    SquareNonneg(d.y);
    SquareNonneg(d.z);
    assert SqrtLaw(t, SquaredLength(d));
  }

  lemma FarIff(s: Setting, a: Controller, b: Controller)
    requires Lawful(s.t) && s.cfg.maxControllerJump > 0.0
    ensures Distance(s.t, b.position, a.position) > s.cfg.maxControllerJump <==> MovedTooFar(s, a, b)
  {
    DistanceSquared(s.t, b.position, a.position);
    RootOrder(Distance(s.t, b.position, a.position), s.cfg.maxControllerJump);
  }

  lemma RootOrder(r: real, limit: real)
    requires r >= 0.0 && limit > 0.0
    ensures r > limit <==> r * r > limit * limit
  {
    if r > limit {
      SquareGrows(limit, r);
    } else if 0.0 < r < limit {
      SquareGrows(r, limit);
    } else if r == 0.0 {
      ProductSign(limit, limit);
    }
  }

  lemma JumpsIff(s: Setting, g: Grip, c: Controller)
    requires Lawful(s.t) && ConfigOk(s.cfg)
    ensures Jumps(s.cfg, s.t, g, c) <==> MovedTooFar(s, g.previous, c) || TurnedTooFar(s, g.previous, c)
  {
    FarIff(s, g.previous, c);
    TurnIs(s, g.previous, c);
  }

  /** The scalar part of the relative rotation is the product of the two orientations. */
  lemma TurnIs(s: Setting, a: Controller, b: Controller)
    ensures RotationStep(s.t, b.orientation, a.orientation) > s.cfg.maxWristJump <==> TurnedTooFar(s, a, b)
  {
    ScalarIsDot(b.orientation, a.orientation);
  }

  lemma ScalarIsDot(q: Q.Quat, r: Q.Quat)
    ensures Q.Relative(q, r).w == Q.Dot(q, r)
  {
  }

  /** The mapper keeps exactly the grips of the hands that hold, at their last poses. */
  predicate Agrees(s: Setting, run: seq<Event>, m: Mapper) {
    && m.mode == LastMode(s, run) && m.grips.Keys == Held(s, run).Keys
    && (forall side | side in m.grips :: m.grips[side].previous == Held(s, run)[side])
    && (m.mode.DriveMode? ==> s.base.enabled && m.grips == map[])
  }

  lemma SideJumps(s: Setting, run: seq<Event>, m: Mapper, f: Frame, held: Arm, current: Arm, dt: real, side: Side)
    requires Lawful(s.t) && ConfigOk(s.cfg) && Agrees(s, run, m)
    ensures var r := MapSide(s.cfg, s.t, GripOf(m, side), ControllerOf(f, side), held, current, dt, s.limits, side);
      && (r.None? <==> JumpedFrom(s, Held(s, run), f, side))
      && (r.Some? ==>
            && (r.value.0.Some? <==> side in s.cfg.enabled && ControllerOf(f, side).grip)
            && (r.value.0.Some? ==> r.value.0.value.previous == ControllerOf(f, side)))
  {
    if side in m.grips {
      JumpsIff(s, m.grips[side], ControllerOf(f, side));
    }
  }

  lemma ArmSampleAgrees(s: Setting, run: seq<Event>, m: Mapper, f: Frame, current: Arms, dt: real)
    requires Lawful(s.t) && ConfigOk(s.cfg) && Agrees(s, run, m) && m.mode.ArmMode? && f.left.tracked && f.right.tracked
    ensures var (m', r) := MapArms(s.cfg, s.t, m, f, current, BoundedDt(dt), s.limits);
      && (r.Err? <==> Refused(s, run, f)) && (r.Err? ==> r.error == PoseJumped && m' == Reset(m))
      && (r.Ok? ==>
            && m'.mode == m.mode
            && (forall side :: side in m'.grips <==> side in s.cfg.enabled && ControllerOf(f, side).grip)
            && (forall side | side in m'.grips :: m'.grips[side].previous == ControllerOf(f, side)))
  {
    var held := if m.targets.Some? then m.targets.value else current;
    SideJumps(s, run, m, f, held.left, current.left, BoundedDt(dt), Left);
    SideJumps(s, run, m, f, held.right, current.right, BoundedDt(dt), Right);
    var (m', r) := MapArms(s.cfg, s.t, m, f, current, BoundedDt(dt), s.limits);
    if r.Ok? {
      forall side
        ensures side in m'.grips <==> side in s.cfg.enabled && ControllerOf(f, side).grip
        ensures side in m'.grips ==> m'.grips[side].previous == ControllerOf(f, side)
      {
        match side
        case Left =>
        case Right =>
      }
    }
  }

  lemma SampleAgrees(s: Setting, run: seq<Event>, m: Mapper, e: Event)
    requires Lawful(s.t) && ConfigOk(s.cfg) && Agrees(s, run, m) && e.Sampled?
    ensures Next(s, m, e).1.None? <==> Refused(s, run, e.frame)
    ensures Refused(s, run, e.frame) ==> Next(s, m, e).0 == Reset(m)
    ensures Agrees(s, run + [e], Next(s, m, e).0)
  {
    assert (run + [e])[..|run|] == run;
    if e.frame.left.tracked && e.frame.right.tracked && m.mode.ArmMode? {
      ArmSampleAgrees(s, run, m, e.frame, e.current, e.dt);
    }
  }

  lemma OtherAgrees(s: Setting, run: seq<Event>, m: Mapper, e: Event)
    requires s.cfg.panDegPerM != 0.0 && Agrees(s, run, m) && !e.Sampled?
    ensures Agrees(s, run + [e], Next(s, m, e).0)
  {
    assert (run + [e])[..|run|] == run;
  }

  lemma {:induction false} AgreesAfter(s: Setting, run: seq<Event>)
    requires Lawful(s.t) && ConfigOk(s.cfg)
    ensures Agrees(s, run, After(s, run))
    decreases |run|
  {
    if run != [] {
      var n := |run| - 1;
      AgreesAfter(s, run[..n]);
      assert run == run[..n] + [run[n]];
      if run[n].Sampled? {
        SampleAgrees(s, run[..n], After(s, run[..n]), run[n]);
      } else {
        OtherAgrees(s, run[..n], After(s, run[..n]), run[n]);
      }
    }
  }

  /** In every run a sample commands something exactly if both hands are tracked and, in arm mode, no enabled and
      gripped hand that goes on with its grip has moved or turned too far since that grip's previous sample; a
      refused sample makes the mapper forget all grips and targets of both hands. */
  lemma RefusedIff(s: Setting, run: seq<Event>, e: Event)
    requires Lawful(s.t) && ConfigOk(s.cfg) && e.Sampled?
    ensures Next(s, After(s, run), e).1.None? <==> Refused(s, run, e.frame)
    ensures Refused(s, run, e.frame) ==> Gone(Next(s, After(s, run), e).0) && Held(s, run + [e]) == map[]
    ensures var r := MapFrame(s.cfg, s.base, s.t, After(s, run), e.frame, e.current, e.dt, s.limits).1;
      && (r == Err(TrackingLost) <==> !e.frame.left.tracked || !e.frame.right.tracked)
      && (r == Err(PoseJumped) <==> e.frame.left.tracked && e.frame.right.tracked && Refused(s, run, e.frame))
      && r != Err(BaseDisabled)
  {
    AgreesAfter(s, run);
    SampleAgrees(s, run, After(s, run), e);
    assert (run + [e])[..|run|] == run;
    var m := After(s, run);
    if e.frame.left.tracked && e.frame.right.tracked && m.mode.ArmMode? {
      ArmSampleAgrees(s, run, m, e.frame, e.current, e.dt);
    }
  }

  /** After a sample that is refused for lost tracking of either hand or for a jump, whatever the mode, the next
      command holds the measured pose exactly, whatever the hands do; receipts, mode changes and resets in between
      do not bring an old target back. */
  lemma RearmsFromMeasuredPose(s: Setting, run: seq<Event>, e: Event, between: seq<Event>, next: Event)
    requires Lawful(s.t) && ConfigOk(s.cfg) && e.Sampled? && next.Sampled? && Refused(s, run, e.frame)
    requires forall i | 0 <= i < |between| :: !between[i].Sampled?
    ensures var m := AfterAll(s, Next(s, After(s, run), e).0, between);
      && Gone(m) && (Next(s, m, next).1.Some? ==> Next(s, m, next).1.value.arms == next.current)
  {
    RefusedIff(s, run, e);
    StaysGone(s, Next(s, After(s, run), e).0, between);
  }
}
