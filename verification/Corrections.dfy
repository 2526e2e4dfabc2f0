/** The correction bridge: corrective waypoints in the shoulder plane become rows of joint targets for both
    arms, each row starting from the one before, and each row becomes a public action. */
module Corrections {
  import opened Wrappers
  import C = Contracts
  import opened Plane
  import opened Kinematics
  import opened ArmStep
  import opened QuestModel

  /** Where one hand should be, and the joints that are given directly. */
  datatype Target = Target(reach: real, height: real, pan: real, wristFlex: real, wristRoll: real, gripper: real)

  datatype Waypoint = Waypoint(left: Option<Target>, right: Option<Target>, duration: real)

  /** What an action encoder makes of a row, its time and its metadata; `None` if that is not a mapping. */
  type Encoder = (Arms, real, C.Fields) -> Option<C.Fields>

  /** `names` are the public names of the left and then the right joints, and `ranges` is the raw calibrated
      range of every arm joint, 0 to 4095. */
  datatype Bridge = Bridge(
    names: seq<string>,
    encoder: Option<Encoder>,
    ranges: map<(Side, Joint), Range>,
    controlHz: real,
    maxDuration: real,
    maxDelta: Option<real>)

  predicate NamesOk(names: seq<string>) {
    && |names| == 12 && (forall i | 0 <= i < 12 :: names[i] != "")
    && forall i, j | 0 <= i < j < 12 :: names[i] != names[j]
  }

  /** Construction rejects any other bridge. */
  predicate BridgeOk(b: Bridge) {
    && NamesOk(b.names) && b.controlHz > 0.0 && b.maxDuration > 0.0 && (b.maxDelta.Some? ==> b.maxDelta.value > 0.0)
    && forall s: Side, j: Joint :: (s, j) in b.ranges && 0.0 <= b.ranges[(s, j)].low < b.ranges[(s, j)].high <= 4095.0
  }

  /** The symmetric envelope in degrees that the raw range of a joint stands for. */
  function Envelope(b: Bridge, s: Side, j: Joint): Range
    requires BridgeOk(b)
  {
    var r := b.ranges[(s, j)];
    var limit := (r.high - r.low) * 180.0 / 4095.0;
    Range(-limit, limit)
  }

  predicate Calibrated(b: Bridge, s: Side, a: Arm)
    requires BridgeOk(b)
  {
    && 0.0 <= a.gripper <= 100.0
    && forall j: Joint | !j.Gripper? :: Within(JointOf(a, j), Envelope(b, s, j))
  }

  predicate Close(b: Bridge, from: Arm, to: Arm) {
    b.maxDelta.Some? ==> forall j: Joint | !j.Gripper? :: Abs(JointOf(to, j) - JointOf(from, j)) <= b.maxDelta.value
  }

  function Max(a: real, b: real): real {
    if b > a then b else a
  }

  /** `math.isclose` with the same relative and absolute tolerance. */
  predicate IsClose(a: real, b: real, tolerance: real) {
    Abs(a - b) <= Max(tolerance * Max(Abs(a), Abs(b)), tolerance)
  }

  predicate DurationOk(b: Bridge, duration: real)
    requires b.controlHz != 0.0
  {
    0.0 < duration <= b.maxDuration && IsClose(duration, 1.0 / b.controlHz, 0.000001)
  }

  /** One arm of a row: as it was, or at its target. */
  function Aim(t: Trig, a: Arm, target: Option<Target>): Option<Arm> {
    if target.None? then Some(a)
    else
      var g := target.value;
      var p :- InversePlain(t, Cx(g.reach, g.height), Current(a));
      if 0.0 <= g.gripper <= 100.0 then Some(Arm(g.pan, p.shoulder, p.elbow, g.wristFlex, g.wristRoll, g.gripper)) else None
  }

  /** One waypoint; `None` where it is refused. */
  function Row(b: Bridge, t: Trig, current: Arms, w: Waypoint): Option<Arms>
    requires BridgeOk(b)
  {
    var _ :- if DurationOk(b, w.duration) then Some(()) else None;
    var left :- Aim(t, current.left, w.left);
    var right :- Aim(t, current.right, w.right);
    if w.left.None? && w.right.None? then None
    else if !Close(b, current.left, left) || !Close(b, current.right, right) then None
    else if Calibrated(b, Left, left) && Calibrated(b, Right, right) then Some(Arms(left, right))
    else None
  }

  /** All rows from some state on, or none. */
  function Rows(b: Bridge, t: Trig, current: Arms, ws: seq<Waypoint>): Option<seq<Arms>>
    requires BridgeOk(b)
    decreases |ws|
  {
    if ws == [] then Some([])
    else
      var row :- Row(b, t, current, ws[0]);
      var rest :- Rows(b, t, row, ws[1..]);
      Some([row] + rest)
  }

  predicate StateOk(a: Arm) {
    0.0 <= a.gripper <= 100.0 && forall j: Joint | !j.Gripper? :: -180.0 <= JointOf(a, j) <= 180.0
  }

  // ----- public actions

  function FlatArm(a: Arm): seq<real> {
    [a.pan, a.shoulder, a.elbow, a.wrist, a.roll, a.gripper]
  }

  /** The twelve targets of a row, in the order of their names. */
  function Flat(row: Arms): (r: seq<real>)
    ensures |r| == 12
  {
    FlatArm(row.left) + FlatArm(row.right)
  }

  function Named(names: seq<string>, row: Arms): C.Fields
    requires NamesOk(names)
  {
    map i | 0 <= i < 12 :: names[i] := C.Float(Flat(row)[i])
  }

  function TimeOf(b: Bridge, index: nat): real
    requires BridgeOk(b)
  {
    index as real * (1.0 / b.controlHz)
  }

  function MetadataOf(b: Bridge, duration: real): C.Fields {
    map["action_semantics" := C.Str("biso101_so101_v1"),
        "action_layout" := C.Str("left6_right6"),
        "action_encoding" := C.Str("absolute"),
        "joint_position_unit" := C.Str("degrees"),
        "correction" := C.Bool(true),
        "control_hz" := C.Float(b.controlHz),
        "duration_s" := C.Float(duration),
        "duration_semantics" := C.Str("public_control_hz_step")]
  }

  /** The time an encoder declares, if any, is a number and the scheduled one. */
  predicate TimeAgrees(declared: C.Json, time: real) {
    (declared.Int? || declared.Float?) && IsClose(C.NumberOf(declared), time, 0.000000001)
  }

  /** What becomes of an encoder's action: its time and metadata are completed. */
  function Completed(action: C.Fields, time: real, metadata: C.Fields): Option<C.Fields> {
    var own := C.Get(action, "metadata", C.EMPTY);
    if TimeAgrees(C.Get(action, "timestamp_s", C.Float(time)), time) && C.Get(action, "values", C.Null).Obj? && own.Obj? then
      Some(action["timestamp_s" := C.Float(time)]["metadata" := C.Obj(metadata + own.fields)])
    else None
  }

  /** The public action of a row; `None` where the encoder's is refused. */
  function ActionOf(b: Bridge, index: nat, row: Arms, duration: real): Option<C.Fields>
    requires BridgeOk(b)
  {
    var time, metadata := TimeOf(b, index), MetadataOf(b, duration);
    if b.encoder.None? then
      Some(map["timestamp_s" := C.Float(time), "values" := C.Obj(Named(b.names, row)), "metadata" := C.Obj(metadata)])
    else
      var action :- b.encoder.value(row, time, metadata);
      Completed(action, time, metadata)
  }

  /** All of the first `n` values, or none. */
  function Each<T>(n: nat, f: nat -> Option<T>): Option<seq<T>> {
    if forall i: nat | i < n :: f(i).Some? then Some(seq(n, i requires 0 <= i < n && f(i).Some? => f(i).value)) else None
  }

  function ActionAt(b: Bridge, rows: seq<Arms>, ws: seq<Waypoint>): nat -> Option<C.Fields>
    requires BridgeOk(b)
  {
    (i: nat) => if i < |rows| && i < |ws| then ActionOf(b, i, rows[i], ws[i].duration) else None
  }

  /** The actions of all rows, one for each waypoint, or none. */
  function Actions(b: Bridge, t: Trig, current: Arms, ws: seq<Waypoint>): Option<seq<C.Fields>>
    requires BridgeOk(b)
  {
    var rows :- Rows(b, t, current, ws);
    Each(|rows|, ActionAt(b, rows, ws))
  }

  /** A call of the bridge: one to five waypoints from a state inside the bounds of an observation. */
  function Corrected(b: Bridge, t: Trig, current: Arms, ws: seq<Waypoint>): Option<seq<C.Fields>>
    requires BridgeOk(b)
  {
    if 1 <= |ws| <= 5 && StateOk(current.left) && StateOk(current.right) then Actions(b, t, current, ws) else None
  }

  /** Rows that are done, before those still to come. */
  function Joined(done: seq<Arms>, rest: Option<seq<Arms>>): Option<seq<Arms>> {
    if rest.None? then None else Some(done + rest.value)
  }

  lemma JoinedEmpty(rows: Option<seq<Arms>>)
    ensures Joined([], rows) == rows
  {
    if rows.Some? {
      assert [] + rows.value == rows.value;
    }
  }

  lemma RowsNext(b: Bridge, t: Trig, current: Arms, ws: seq<Waypoint>, i: nat, done: seq<Arms>)
    requires BridgeOk(b) && i < |ws|
    ensures var row := Row(b, t, current, ws[i]);
      Joined(done, Rows(b, t, current, ws[i..])) ==
      if row.None? then None else Joined(done + [row.value], Rows(b, t, row.value, ws[i + 1..]))
  {
    assert ws[i..][0] == ws[i] && ws[i..][1..] == ws[i + 1..];
    var row := Row(b, t, current, ws[i]);
    if row.Some? && Rows(b, t, row.value, ws[i + 1..]).Some? {
      var rest := Rows(b, t, row.value, ws[i + 1..]).value;
      assert done + ([row.value] + rest) == done + [row.value] + rest;
    }
  }

  /** The actions made so far are those of the rows so far. */
  predicate DoneSoFar(b: Bridge, ws: seq<Waypoint>, rows: seq<Arms>, done: seq<C.Fields>)
    requires BridgeOk(b)
  {
    |rows| == |done| <= |ws| && forall j: nat | j < |rows| :: ActionAt(b, rows, ws)(j) == Some(done[j])
  }

  lemma ActionAtGrows(b: Bridge, ws: seq<Waypoint>, rows: seq<Arms>, more: seq<Arms>)
    requires BridgeOk(b)
    ensures forall j: nat | j < |rows| :: ActionAt(b, rows + more, ws)(j) == ActionAt(b, rows, ws)(j)
  {
  }

  lemma DoneNext(b: Bridge, ws: seq<Waypoint>, rows: seq<Arms>, done: seq<C.Fields>, row: Arms, action: C.Fields)
    requires BridgeOk(b) && DoneSoFar(b, ws, rows, done) && |rows| < |ws|
    requires ActionOf(b, |rows|, row, ws[|rows|].duration) == Some(action)
    ensures DoneSoFar(b, ws, rows + [row], done + [action])
  {
    ActionAtGrows(b, ws, rows, [row]);
  }

  /** A refused action refuses the call, whether or not the rows after it exist. */
  lemma RefusedRefusesAll(b: Bridge, t: Trig, start: Arms, ws: seq<Waypoint>, rows: seq<Arms>, row: Arms, rest: Option<seq<Arms>>)
    requires BridgeOk(b) && |rows| < |ws| && Rows(b, t, start, ws) == Joined(rows + [row], rest)
    requires ActionOf(b, |rows|, row, ws[|rows|].duration).None?
    ensures Actions(b, t, start, ws).None?
  {
    if rest.Some? {
      ActionAtGrows(b, ws, rows + [row], rest.value);
      assert ActionAt(b, Rows(b, t, start, ws).value, ws)(|rows|).None?;
    }
  }

  lemma AllDone(b: Bridge, t: Trig, start: Arms, ws: seq<Waypoint>, rows: seq<Arms>, done: seq<C.Fields>)
    requires BridgeOk(b) && DoneSoFar(b, ws, rows, done) && Rows(b, t, start, ws) == Some(rows)
    ensures Actions(b, t, start, ws) == Some(done)
  {
    assert Actions(b, t, start, ws).value == done;
  }

  method MapActions(b: Bridge, t: Trig, start: Arms, ws: seq<Waypoint>) returns (r: Option<seq<C.Fields>>)
    requires BridgeOk(b)
    ensures r == Actions(b, t, start, ws)
  {
    var current := start;
    var result: seq<C.Fields> := [];
    ghost var rows: seq<Arms> := [];
    JoinedEmpty(Rows(b, t, start, ws));
    assert ws[0..] == ws;
    for i := 0 to |ws|
      invariant |rows| == i && DoneSoFar(b, ws, rows, result)
      invariant Rows(b, t, start, ws) == Joined(rows, Rows(b, t, current, ws[i..]))
    {
      RowsNext(b, t, current, ws, i, rows);
      var row := Row(b, t, current, ws[i]);
      if row.None? {
        return None;
      }
      var action := ActionOf(b, i, row.value, ws[i].duration);
      if action.None? {
        RefusedRefusesAll(b, t, start, ws, rows, row.value, Rows(b, t, row.value, ws[i + 1..]));
        return None;
      }
      DoneNext(b, ws, rows, result, row.value, action.value);
      current := row.value;
      rows, result := rows + [current], result + [action.value];
    }
    assert ws[|ws|..] == [] && rows + [] == rows;
    AllDone(b, t, start, ws, rows, result);
    return Some(result);
  }

  method MapCorrections(b: Bridge, t: Trig, observed: Arms, ws: seq<Waypoint>) returns (r: Option<seq<C.Fields>>)
    requires BridgeOk(b)
    ensures r == Corrected(b, t, observed, ws)
  {
    if !(1 <= |ws| <= 5) || !StateOk(observed.left) || !StateOk(observed.right) {
      return None;
    }
    r := MapActions(b, t, observed, ws);
  }

  // ----- what accepted corrections do

  function Before(current: Arms, rows: seq<Arms>, i: nat): Arms
    requires i <= |rows|
  {
    if i == 0 then current else rows[i - 1]
  }

  function TargetOf(w: Waypoint, s: Side): Option<Target> {
    if s.Left? then w.left else w.right
  }

  /** One side of one row: calibrated and near the row before; at its target if it has one, otherwise still. */
  predicate SideDone(b: Bridge, t: Trig, from: Arm, to: Arm, s: Side, target: Option<Target>)
    requires BridgeOk(b)
  {
    && Calibrated(b, s, to) && Close(b, from, to)
    && (target.None? ==> to == from)
    && (target.Some? ==>
          && Forward(t, Current(to)) == Cx(target.value.reach, target.value.height)
          && to.pan == target.value.pan && to.wrist == target.value.wristFlex && to.roll == target.value.wristRoll
          && to.gripper == target.value.gripper)
  }

  lemma AimReaches(t: Trig, a: Arm, g: Target)
    requires Lawful(t) && Aim(t, a, Some(g)).Some?
    ensures var to := Aim(t, a, Some(g)).value;
      && Forward(t, Current(to)) == Cx(g.reach, g.height)
      && to.pan == g.pan && to.wrist == g.wristFlex && to.roll == g.wristRoll && to.gripper == g.gripper
  {
    ForwardOfInversePlain(t, Cx(g.reach, g.height), Current(a));
    var p := InversePlain(t, Cx(g.reach, g.height), Current(a)).value;
    assert Current(Aim(t, a, Some(g)).value) == p;
  }

  lemma RowDone(b: Bridge, t: Trig, current: Arms, w: Waypoint, s: Side)
    requires Lawful(t) && BridgeOk(b) && Row(b, t, current, w).Some?
    ensures SideDone(b, t, ArmOf(current, s), ArmOf(Row(b, t, current, w).value, s), s, TargetOf(w, s))
  {
    if TargetOf(w, s).Some? {
      AimReaches(t, ArmOf(current, s), TargetOf(w, s).value);
    }
  }

  /** Accepted corrections give one row for each waypoint, and in every row the forward kinematics of each
      targeted arm is exactly the waypoint's hand position, the other arm has not moved, no joint leaves its
      calibrated envelope or goes further than the bound from the row before. */
  lemma {:induction false} CorrectionsReach(b: Bridge, t: Trig, current: Arms, ws: seq<Waypoint>, i: nat, s: Side)
    requires Lawful(t) && BridgeOk(b) && Rows(b, t, current, ws).Some? && i < |ws|
    ensures var rows := Rows(b, t, current, ws).value;
      && |rows| == |ws|
      && SideDone(b, t, ArmOf(Before(current, rows, i), s), ArmOf(rows[i], s), s, TargetOf(ws[i], s))
    decreases |ws|
  {
    var row := Row(b, t, current, ws[0]).value;
    RowDone(b, t, current, ws[0], s);
    if i > 0 {
      CorrectionsReach(b, t, row, ws[1..], i - 1, s);
    } else {
      RowsLength(b, t, current, ws);
    }
  }

  lemma {:induction false} RowsLength(b: Bridge, t: Trig, current: Arms, ws: seq<Waypoint>)
    requires BridgeOk(b) && Rows(b, t, current, ws).Some?
    ensures |Rows(b, t, current, ws).value| == |ws|
    decreases |ws|
  {
    if ws != [] {
      RowsLength(b, t, Row(b, t, current, ws[0]).value, ws[1..]);
    }
  }

  // ----- which waypoints are accepted

  /** The arm with its hand at a target, by the bridge's solution for shoulder and elbow. */
  function AtTarget(g: Target, p: Pair): Arm {
    Arm(g.pan, p.shoulder, p.elbow, g.wristFlex, g.wristRoll, g.gripper)
  }

  /** A joint lies in the envelope that its raw range stands for: 4095 steps are a full turn, half to each side. */
  predicate InEnvelope(b: Bridge, s: Side, j: Joint, v: real)
    requires BridgeOk(b)
  {
    Abs(v) * 4095.0 <= (b.ranges[(s, j)].high - b.ranges[(s, j)].low) * 180.0
  }

  /** An arm may take a pose: calibrated, and no joint but the gripper further than the bound from before. */
  predicate MayTake(b: Bridge, s: Side, from: Arm, to: Arm)
    requires BridgeOk(b)
  {
    && 0.0 <= to.gripper <= 100.0
    && (forall j: Joint | !j.Gripper? :: InEnvelope(b, s, j, JointOf(to, j)))
    && (b.maxDelta.Some? ==>
          forall j: Joint | !j.Gripper? :: -b.maxDelta.value <= JointOf(to, j) - JointOf(from, j) <= b.maxDelta.value)
  }

  /** One side of a waypoint is met: its target can be reached and taken, or the arm may stay as it is. */
  predicate SideMeets(b: Bridge, t: Trig, s: Side, a: Arm, target: Option<Target>)
    requires BridgeOk(b)
  {
    if target.None? then MayTake(b, s, a, a)
    else
      var g := target.value;
      Reachable(t, Cx(g.reach, g.height))
      && var p := InversePlain(t, Cx(g.reach, g.height), Current(a));
         p.Some? && MayTake(b, s, a, AtTarget(g, p.value))
  }

  /** A waypoint lasts one control step, up to a millionth, and no longer than allowed. */
  predicate Timed(b: Bridge, duration: real)
    requires b.controlHz != 0.0
  {
    var period := 1.0 / b.controlHz;
    var off := if duration < period then period - duration else duration - period;
    && 0.0 < duration <= b.maxDuration
    && (off <= 0.000001 * duration || off <= 0.000001 * period || off <= 0.000001)
  }

  lemma EnvelopeIs(b: Bridge, s: Side, j: Joint, v: real)
    requires BridgeOk(b)
    ensures Within(v, Envelope(b, s, j)) <==> InEnvelope(b, s, j, v)
  {
    var r := b.ranges[(s, j)];
    var limit := (r.high - r.low) * 180.0 / 4095.0;
    assert limit * 4095.0 == (r.high - r.low) * 180.0;
  }

  lemma MayTakeIs(b: Bridge, s: Side, from: Arm, to: Arm)
    requires BridgeOk(b)
    ensures Calibrated(b, s, to) && Close(b, from, to) <==> MayTake(b, s, from, to)
  {
    forall j: Joint
      ensures Within(JointOf(to, j), Envelope(b, s, j)) <==> InEnvelope(b, s, j, JointOf(to, j))
    {
      EnvelopeIs(b, s, j, JointOf(to, j));
    }
  }

  lemma TimedIs(b: Bridge, duration: real)
    requires b.controlHz > 0.0
    ensures DurationOk(b, duration) <==> Timed(b, duration)
  {
    assert 1.0 / b.controlHz > 0.0;
  }

  lemma SideMeetsIff(b: Bridge, t: Trig, s: Side, a: Arm, target: Option<Target>)
    requires Lawful(t) && BridgeOk(b)
    ensures SideMeets(b, t, s, a, target) <==>
      var to := Aim(t, a, target); to.Some? && Close(b, a, to.value) && Calibrated(b, s, to.value)
    ensures Aim(t, a, target).Some? && target.Some? ==>
      var p := InversePlain(t, Cx(target.value.reach, target.value.height), Current(a));
      p.Some? && Aim(t, a, target).value == AtTarget(target.value, p.value)
  {
    if target.None? {
      MayTakeIs(b, s, a, a);
    } else {
      var g := target.value;
      ForwardOfInversePlain(t, Cx(g.reach, g.height), Current(a));
      var p := InversePlain(t, Cx(g.reach, g.height), Current(a));
      if p.Some? {
        MayTakeIs(b, s, a, AtTarget(g, p.value));
      }
    }
  }

  /** A waypoint is accepted exactly if it lasts one control step, has a target, and both sides can be met. */
  lemma RowIff(b: Bridge, t: Trig, current: Arms, w: Waypoint)
    requires Lawful(t) && BridgeOk(b)
    ensures Row(b, t, current, w).Some? <==>
      && Timed(b, w.duration) && (w.left.Some? || w.right.Some?)
      && SideMeets(b, t, Left, current.left, w.left) && SideMeets(b, t, Right, current.right, w.right)
  {
    TimedIs(b, w.duration);
    SideMeetsIff(b, t, Left, current.left, w.left);
    SideMeetsIff(b, t, Right, current.right, w.right);
  }

  /** A call is refused before any waypoint is looked at exactly if there are none or more than five, or the
      observed state is not one. */
  lemma CorrectedIff(b: Bridge, t: Trig, current: Arms, ws: seq<Waypoint>)
    requires BridgeOk(b)
    ensures Corrected(b, t, current, ws).Some? <==>
      && |ws| > 0 && |ws| < 6
      && (forall s: Side, j: Joint | !j.Gripper? :: Abs(JointOf(ArmOf(current, s), j)) <= 180.0)
      && (forall s: Side :: 0.0 <= JointOf(ArmOf(current, s), Gripper) <= 100.0)
      && Actions(b, t, current, ws).Some?
  {
    StateIs(ArmOf(current, Left));
    StateIs(ArmOf(current, Right));
    assert ArmOf(current, Left) == current.left && ArmOf(current, Right) == current.right;
  }

  lemma StateIs(a: Arm)
    ensures StateOk(a) <==>
      0.0 <= JointOf(a, Gripper) <= 100.0 && forall j: Joint | !j.Gripper? :: Abs(JointOf(a, j)) <= 180.0
  {
  }

  // ----- what the actions say

  /** The joints of an arm in the order of their public names. */
  function JointAt(i: nat): Joint {
    match i
    case 0 => Pan
    case 1 => Shoulder
    case 2 => Elbow
    case 3 => Wrist
    case 4 => Roll
    case _ => Gripper
  }

  /** Action `index` of a call is due after that many control steps; the twelve values are the left joints and then
      the right ones; and the metadata name the encoding, the control rate and the waypoint's duration. */
  lemma ActionParts(b: Bridge, index: nat, row: Arms, duration: real, i: nat)
    requires BridgeOk(b) && i < 12
    ensures TimeOf(b, index) * b.controlHz == index as real
    ensures Flat(row)[i] == if i < 6 then JointOf(row.left, JointAt(i)) else JointOf(row.right, JointAt(i - 6))
    ensures var f := MetadataOf(b, duration);
      && C.Get(f, "control_hz", C.Null) == C.Float(b.controlHz) && C.Get(f, "duration_s", C.Null) == C.Float(duration)
      && C.Get(f, "action_encoding", C.Null) == C.Str("absolute")
      && C.Get(f, "joint_position_unit", C.Null) == C.Str("degrees")
      && C.Get(f, "action_layout", C.Null) == C.Str("left6_right6") && C.Get(f, "correction", C.Null) == C.Bool(true)
  {
    var period := 1.0 / b.controlHz;
    assert period * b.controlHz == 1.0;
    assert index as real * period * b.controlHz == index as real * (period * b.controlHz);
  }

  /** The action of a row at its time: the time is the scheduled one and the metadata are complete. Without an
      encoder the configured names carry exactly the row; otherwise the values are what the encoder made of it,
      and it declared no other time. */
  predicate Says(b: Bridge, index: nat, row: Arms, duration: real, action: C.Fields)
    requires BridgeOk(b)
  {
    && C.Get(action, "timestamp_s", C.Null) == C.Float(TimeOf(b, index))
    && C.Get(action, "values", C.Null).Obj? && C.Get(action, "metadata", C.Null).Obj?
    && MetadataOf(b, duration).Keys <= action["metadata"].fields.Keys
    && (b.encoder.None? ==>
          && SaysJoints(b.names, row, action["values"].fields)
          && action["metadata"].fields == MetadataOf(b, duration))
    && (b.encoder.Some? ==>
          var encoded := b.encoder.value(row, TimeOf(b, index), MetadataOf(b, duration));
          && encoded.Some? && TimeAgrees(C.Get(encoded.value, "timestamp_s", C.Float(TimeOf(b, index))), TimeOf(b, index))
          && "values" in encoded.value && action["values"] == encoded.value["values"])
  }

  predicate SaysJoints(names: seq<string>, row: Arms, values: C.Fields)
    requires NamesOk(names)
  {
    && values.Keys == (set i | 0 <= i < 12 :: names[i])
    && forall i | 0 <= i < 12 :: values[names[i]] == C.Float(Flat(row)[i])
  }

  lemma ActionSays(b: Bridge, index: nat, row: Arms, duration: real)
    requires BridgeOk(b) && ActionOf(b, index, row, duration).Some?
    ensures Says(b, index, row, duration, ActionOf(b, index, row, duration).value)
  {
    if b.encoder.None? {
      var values := Named(b.names, row);
      forall i | 0 <= i < 12
        ensures b.names[i] in values && values[b.names[i]] == C.Float(Flat(row)[i])
      {
      }
      assert values.Keys == (set i | 0 <= i < 12 :: b.names[i]);
    }
  }

  /** Every accepted call gives the actions of the rows, one for each waypoint, at successive control steps; without
      an encoder a call is accepted exactly if all its rows are. */
  lemma ActionsSayRows(b: Bridge, t: Trig, current: Arms, ws: seq<Waypoint>)
    requires BridgeOk(b)
    ensures Actions(b, t, current, ws).Some? ==>
              && Rows(b, t, current, ws).Some?
              && |Actions(b, t, current, ws).value| == |Rows(b, t, current, ws).value| == |ws|
              && forall i: nat | i < |ws| ::
                   Says(b, i, Rows(b, t, current, ws).value[i], ws[i].duration, Actions(b, t, current, ws).value[i])
    ensures b.encoder.None? ==> (Actions(b, t, current, ws).Some? <==> Rows(b, t, current, ws).Some?)
  {
    if Rows(b, t, current, ws).Some? {
      RowsLength(b, t, current, ws);
      var rows := Rows(b, t, current, ws).value;
      EachSays(b, rows, ws);
    }
  }

  lemma EachSays(b: Bridge, rows: seq<Arms>, ws: seq<Waypoint>)
    requires BridgeOk(b) && |rows| == |ws|
    ensures var actions := Each(|rows|, ActionAt(b, rows, ws));
      && (actions.Some? ==>
            && |actions.value| == |ws|
            && forall i: nat | i < |ws| :: Says(b, i, rows[i], ws[i].duration, actions.value[i]))
      && (b.encoder.None? ==> actions.Some?)
  {
    forall i: nat | i < |ws|
      ensures ActionAt(b, rows, ws)(i).Some? ==> Says(b, i, rows[i], ws[i].duration, ActionAt(b, rows, ws)(i).value)
      ensures b.encoder.None? ==> ActionAt(b, rows, ws)(i).Some?
    {
      if ActionOf(b, i, rows[i], ws[i].duration).Some? {
        ActionSays(b, i, rows[i], ws[i].duration);
      }
    }
  }
}
