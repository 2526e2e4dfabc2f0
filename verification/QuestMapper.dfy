/** The mapper object: the dictionaries it keeps per side, updated in place, proved against `QuestModel`. */
module QuestMappers {
  import opened Wrappers
  import opened Plane
  import opened Kinematics
  import Q = Quaternions
  import opened ArmStep
  import opened QuestModel

  class QuestMapper {
    const cfg: Config
    const base: Base
    const t: Trig
    var anchors: map<Side, (Controller, Arm)>
    var previous: map<Side, Controller>
    var motionReference: map<Side, Controller>
    var triggerReady: map<Side, bool>
    var lastTargets: Option<Arms>
    var mode: Mode
    var driveHold: Option<Arms>

    /** The four dictionaries always hold the same sides. */
    ghost predicate Valid()
      reads this
    {
      ConfigOk(cfg) && anchors.Keys == previous.Keys == motionReference.Keys == triggerReady.Keys
    }

    ghost function Grips(): map<Side, Grip>
      reads this
      requires Valid()
    {
      map side | side in anchors ::
        Grip(anchors[side].0, anchors[side].1, previous[side], motionReference[side], triggerReady[side])
    }

    ghost function View(): Mapper
      reads this
      requires Valid()
    {
      Mapper(Grips(), lastTargets, mode, driveHold)
    }

    constructor (cfg: Config, base: Base, t: Trig)
      requires ConfigOk(cfg)
      ensures Valid() && View() == Mapper(map[], None, ArmMode, None)
      ensures this.cfg == cfg && this.base == base && this.t == t
    {
      this.cfg, this.base, this.t := cfg, base, t;
      anchors, previous, motionReference, triggerReady := map[], map[], map[], map[];
      lastTargets, mode, driveHold := None, ArmMode, None;
    }

    method Clear()
      requires Valid()
      modifies this
      ensures Valid() && View() == Reset(old(View()))
    {
      anchors, previous, motionReference, triggerReady := map[], map[], map[], map[];
      lastTargets, driveHold := None, None;
    }

    method SetControlMode(wanted: Mode) returns (ok: bool)
      requires Valid()
      modifies this
      ensures Valid() && (View(), ok) == Switched(base, old(View()), wanted)
    {
      if wanted.DriveMode? && !base.enabled {
        return false;
      }
      if wanted != mode {
        Clear();
        mode := wanted;
      }
      return true;
    }

    method AcceptAppliedAction(applied: map<(Side, Joint), real>)
      requires Valid()
      modifies this`lastTargets
      ensures Valid() && View() == Received(old(View()), applied)
    {
      if lastTargets.Some? {
        lastTargets := Some(Arms(Merged(lastTargets.value.left, applied, Left),
                                 Merged(lastTargets.value.right, applied, Right)));
      }
    }

    method Drop(side: Side)
      requires Valid()
      modifies this`anchors, this`previous, this`motionReference, this`triggerReady
      ensures Valid() && Grips() == old(Grips()) - {side}
    {
      anchors, previous := anchors - {side}, previous - {side};
      motionReference, triggerReady := motionReference - {side}, triggerReady - {side};
    }

    method Store(side: Side, g: Grip)
      requires Valid()
      modifies this`anchors, this`previous, this`motionReference, this`triggerReady
      ensures Valid() && Grips() == old(Grips())[side := g]
    {
      anchors, previous := anchors[side := (g.anchor, g.anchorArm)], previous[side := g.previous];
      motionReference, triggerReady := motionReference[side := g.reference], triggerReady[side := g.ready];
    }

    /** One side of a sample; false for a pose jump, which changes nothing yet. */
    method SampleSide(side: Side, c: Controller, held: Arm, current: Arm, dt: real, limits: Limits)
      returns (ok: bool, arm: Arm)
      requires Valid()
      modifies this`anchors, this`previous, this`motionReference, this`triggerReady
      ensures Valid()
      ensures var r := MapSide(cfg, t, GripOf(old(View()), side), c, held, current, dt, limits, side);
        && ok == r.Some?
        && (ok ==> arm == r.value.1 && Grips() == Keep(old(Grips()), side, r.value.0))
        && (!ok ==> Grips() == old(Grips()))
    {
      ok, arm := true, held;
      if side !in cfg.enabled || !c.grip {
        Drop(side);
        return;
      }
      if side !in anchors {
        Store(side, Grip(c, current, c, c, c.trigger < TRIGGER));
        arm := current.(gripper := held.gripper);
        return;
      }
      var g := Grip(anchors[side].0, anchors[side].1, previous[side], motionReference[side], triggerReady[side]);
      if Jumps(cfg, t, g, c) {
        ok := false;
        return;
      }
      var g';
      g', arm := DriveArm(side, g, c, held, dt, limits);
      Store(side, g');
    }

    method MoveJoints(mv: Move) returns (arm: Arm)
      ensures arm == Moved(mv)
    {
      arm := mv.joints;
      if Moving(mv.delta) || mv.pitch != 0.0 || mv.roll != 0.0 {
        var least, fraction;
        arm, least, fraction := MoveArm(mv);
      }
    }

    /** The trigger's part of a sample: whether it may move the gripper from now on, and the gripper. */
    method PullTrigger(g: Grip, c: Controller, held: real, dt: real, r: Range) returns (ready: bool, gripper: real)
      ensures ready == Ready(g, c) && gripper == Gripped(cfg, g, c, held, dt, r)
    {
      ready, gripper := g.ready, held;
      if c.opening != g.previous.opening {
        ready := false;
      }
      if c.trigger < TRIGGER {
        ready := true;
      }
      if ready && c.trigger >= TRIGGER {
        var step := GripperStep(cfg, c, dt);
        gripper := Clamp(GripperTarget(cfg, c, r), held - step, held + step);
      }
    }

    method DriveArm(side: Side, g: Grip, c: Controller, held: Arm, dt: real, limits: Limits) returns (g': Grip, arm: Arm)
      requires cfg.panDegPerM != 0.0
      ensures g' == Track(cfg, t, g, c, dt)
      ensures arm == Driven(cfg, t, g, c, held, dt, limits, side)
    {
      var mv := MoveOf(cfg, t, g, c, held, dt, limits, side);
      arm := MoveJoints(mv);
      var ready, gripper := PullTrigger(g, c, held.gripper, dt, RangeOf(limits, side, Gripper));
      arm := arm.(gripper := gripper);
      g' := Grip(g.anchor, g.anchorArm, c, Consumed(g, c, mv.delta, Q.Wrist(mv.pitch, mv.roll)), ready);
    }

    /** A sample in arm mode. */
    method SampleArms(f: Frame, current: Arms, dt: real, limits: Limits) returns (r: Result<Command, MapError>)
      requires Valid()
      modifies this
      ensures Valid() && (View(), r) == MapArms(cfg, t, old(View()), f, current, dt, limits)
    {
      var held := if lastTargets.Some? then lastTargets.value else current;
      var ok, left := SampleSide(Left, f.left, held.left, current.left, dt, limits);
      if !ok {
        Clear();
        return Err(PoseJumped);
      }
      assert GripOf(View(), Right) == GripOf(old(View()), Right);
      var right;
      ok, right := SampleSide(Right, f.right, held.right, current.right, dt, limits);
      if !ok {
        Clear();
        return Err(PoseJumped);
      }
      lastTargets := Some(Arms(left, right));
      return Ok(Command(Arms(left, right), 0.0, 0.0));
    }

    method Sample(f: Frame, current: Arms, dt: real, limits: Limits) returns (r: Result<Command, MapError>)
      requires Valid()
      modifies this
      ensures Valid() && (View(), r) == MapFrame(cfg, base, t, old(View()), f, current, dt, limits)
    {
      if !f.left.tracked || !f.right.tracked {
        Clear();
        return Err(TrackingLost);
      }
      if mode.DriveMode? {
        if !base.enabled {
          return Err(BaseDisabled);
        }
        if driveHold.None? {
          driveHold := Some(current);
        }
        lastTargets := driveHold;
        return Ok(Command(driveHold.value,
                          DriveAxis(f.right, f.right.stickY, base.maxLinear),
                          DriveAxis(f.right, f.right.stickX, base.maxAngular)));
      }
      r := SampleArms(f, current, BoundedDt(dt), limits);
    }
  }
}
