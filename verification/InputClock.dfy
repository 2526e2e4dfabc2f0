/** Rejection of reordered and buffered controller input. */
module InputClocks {
  import opened Wrappers

  /** A frame's sequence number and client time in seconds; parsing makes both nonnegative. */
  datatype Stamp = Stamp(seqNo: int, client: real)

  datatype ClockError = Reordered | ClockChanged | Delayed

  datatype State = State(seqNo: int, client: real, offset: Option<real>)

  const FRESH := State(-1, -1.0, None)

  function Min(a: real, b: real): real {
    if b < a then b else a
  }

  predicate Ordered(s: State, f: Stamp) {
    f.seqNo > s.seqNo && f.client > s.client
  }

  /** The offset the comparison uses; the first ordered frame sets it, even if it is then rejected. */
  function Base(s: State, f: Stamp, now: real): real {
    if s.offset.None? then now - f.client else s.offset.value
  }

  /** `InputClock.accept`: the new state, and the frame's time on the local clock or an error. */
  function Accept(s: State, f: Stamp, now: real, maxAge: real): (State, Result<real, ClockError>) {
    if !Ordered(s, f) then (s, Err(Reordered))
    else
      var offset, base := now - f.client, Base(s, f, now);
      if offset < base - maxAge then (s.(offset := Some(base)), Err(ClockChanged))
      else
        var least := Min(offset, base);
        var s' := State(f.seqNo, f.client, Some(least));
        if offset - least > maxAge then (s', Err(Delayed)) else (s', Ok(f.client + least))
  }

  /** A frame counts as processed when it moves the clock on: accepted, or delayed and dropped. */
  predicate Processed(s: State, f: Stamp, now: real, maxAge: real) {
    var r := Accept(s, f, now, maxAge).1;
    r.Ok? || r.error.Delayed?
  }

  class InputClock {
    const maxAge: real
    var seqNo: int
    var client: real
    var offset: Option<real>

    ghost function View(): State
      reads this
    {
      State(seqNo, client, offset)
    }

    constructor (maxAge: real)
      ensures View() == FRESH && this.maxAge == maxAge
    {
      this.maxAge, seqNo, client, offset := maxAge, -1, -1.0, None;
    }

    method AcceptFrame(f: Stamp, now: real) returns (r: Result<real, ClockError>)
      modifies this
      ensures (View(), r) == Accept(old(View()), f, now, maxAge)
    {
      if f.seqNo <= seqNo || f.client <= client {
        return Err(Reordered);
      }
      var measured := now - f.client;
      if offset.None? {
        offset := Some(measured);
      }
      if measured < offset.value - maxAge {
        return Err(ClockChanged);
      }
      offset := Some(Min(measured, offset.value));
      seqNo, client := f.seqNo, f.client;
      if measured - offset.value > maxAge {
        return Err(Delayed);
      }
      return Ok(f.client + offset.value);
    }
  }

  // ----- runs

  datatype Arrival = Arrival(frame: Stamp, now: real)

  function After(s: State, run: seq<Arrival>, maxAge: real): State
    decreases |run|
  {
    if run == [] then s else After(Accept(s, run[0].frame, run[0].now, maxAge).0, run[1..], maxAge)
  }

  /** The frames of a run that moved the clock on, in order. */
  function ProcessedFrames(s: State, run: seq<Arrival>, maxAge: real): seq<Arrival>
    decreases |run|
  {
    if run == [] then []
    else
      var rest := ProcessedFrames(Accept(s, run[0].frame, run[0].now, maxAge).0, run[1..], maxAge);
      if Processed(s, run[0].frame, run[0].now, maxAge) then [run[0]] + rest else rest
  }

  predicate Increasing(s: State, frames: seq<Arrival>) {
    && (forall i | 0 <= i < |frames| :: Ordered(s, frames[i].frame))
    && (forall i, j | 0 <= i < j < |frames| ::
          frames[i].frame.seqNo < frames[j].frame.seqNo && frames[i].frame.client < frames[j].frame.client)
  }

  function Offset(a: Arrival): real {
    a.now - a.frame.client
  }

  lemma ProcessedFirst(s: State, run: seq<Arrival>, maxAge: real)
    requires run != []
    ensures var s1 := Accept(s, run[0].frame, run[0].now, maxAge).0;
      ProcessedFrames(s, run, maxAge) ==
      (if Processed(s, run[0].frame, run[0].now, maxAge) then [run[0]] else []) + ProcessedFrames(s1, run[1..], maxAge)
  {
  }

  lemma IncreasingGrows(s: State, a: Arrival, s1: State, rest: seq<Arrival>)
    requires Ordered(s, a.frame) && s1.seqNo == a.frame.seqNo && s1.client == a.frame.client && Increasing(s1, rest)
    ensures Increasing(s, [a] + rest)
  {
    var frames := [a] + rest;
    forall i | 0 <= i < |frames|
      ensures Ordered(s, frames[i].frame) && (i > 0 ==> Ordered(s1, frames[i].frame))
    {
      if i > 0 {
        assert frames[i] == rest[i - 1];
      }
    }
  }

  /** A processed frame becomes the clock's last one; any other leaves number and time. */
  lemma AcceptMoves(s: State, f: Stamp, now: real, maxAge: real)
    ensures var s1 := Accept(s, f, now, maxAge).0;
      if Processed(s, f, now, maxAge) then Ordered(s, f) && s1.seqNo == f.seqNo && s1.client == f.client
      else s1.seqNo == s.seqNo && s1.client == s.client
  {
  }

  /** The clock stands on the last of these frames, if there is one. */
  predicate EndsOn(s: State, frames: seq<Arrival>, s': State) {
    if frames == [] then s'.seqNo == s.seqNo && s'.client == s.client
    else
      var last := frames[|frames| - 1].frame;
      s'.seqNo == last.seqNo && s'.client == last.client
  }

  lemma EndsOnGrows(s: State, a: Arrival, s1: State, rest: seq<Arrival>, s': State)
    requires s1.seqNo == a.frame.seqNo && s1.client == a.frame.client && EndsOn(s1, rest, s')
    ensures EndsOn(s, [a] + rest, s')
  {
  }

  /** From any state on, the processed frames have strictly increasing numbers and times, and the clock ends
      on the last of them. */
  lemma {:induction false} RunIsOrdered(s: State, run: seq<Arrival>, maxAge: real)
    ensures Increasing(s, ProcessedFrames(s, run, maxAge))
    ensures EndsOn(s, ProcessedFrames(s, run, maxAge), After(s, run, maxAge))
    decreases |run|
  {
    if run != [] {
      var a := run[0];
      var s1 := Accept(s, a.frame, a.now, maxAge).0;
      var rest := ProcessedFrames(s1, run[1..], maxAge);
      RunIsOrdered(s1, run[1..], maxAge);
      ProcessedFirst(s, run, maxAge);
      AcceptMoves(s, a.frame, a.now, maxAge);
      if Processed(s, a.frame, a.now, maxAge) {
        IncreasingGrows(s, a, s1, rest);
        EndsOnGrows(s, a, s1, rest, After(s, run, maxAge));
      } else {
        SamePosition(s, s1, rest, After(s, run, maxAge));
      }
    }
  }

  lemma SamePosition(s: State, s1: State, frames: seq<Arrival>, s': State)
    requires s1.seqNo == s.seqNo && s1.client == s.client
    ensures Increasing(s1, frames) ==> Increasing(s, [] + frames)
    ensures EndsOn(s1, frames, s') ==> EndsOn(s, [] + frames, s')
  {
    assert [] + frames == frames;
  }

  /** Some processed frame had this offset. */
  predicate OffsetOf(frames: seq<Arrival>, v: real) {
    exists i :: 0 <= i < |frames| && v == Offset(frames[i])
  }

  lemma OffsetOfGrows(a: Arrival, frames: seq<Arrival>, v: real)
    ensures OffsetOf(frames, v) ==> OffsetOf([a] + frames, v)
    ensures OffsetOf([a] + frames, Offset(a))
  {
    assert ([a] + frames)[0] == a;
    if i :| 0 <= i < |frames| && v == Offset(frames[i]) {
      assert ([a] + frames)[i + 1] == frames[i];
    }
  }

  /** The offset is the least one processed so far: no processed frame had a smaller one, and a changed offset
      is that of a processed frame. */
  lemma {:induction false} OffsetIsLeast(s: State, run: seq<Arrival>, maxAge: real)
    requires s.offset.Some?
    ensures var frames, s' := ProcessedFrames(s, run, maxAge), After(s, run, maxAge);
      && s'.offset.Some? && s'.offset.value <= s.offset.value
      && (forall i | 0 <= i < |frames| :: s'.offset.value <= Offset(frames[i]))
      && (s'.offset == s.offset || OffsetOf(frames, s'.offset.value))
    decreases |run|
  {
    if run != [] {
      var a := run[0];
      var s1 := Accept(s, a.frame, a.now, maxAge).0;
      var rest := ProcessedFrames(s1, run[1..], maxAge);
      OffsetIsLeast(s1, run[1..], maxAge);
      ProcessedFirst(s, run, maxAge);
      if Processed(s, a.frame, a.now, maxAge) {
        OffsetOfGrows(a, rest, After(s, run, maxAge).offset.value);
      }
    }
  }

  /** On a clock without an offset the offset is that of some processed frame and the least of all of them,
      and it is there exactly if a frame was processed. */
  lemma {:induction false} OffsetIsLeastProcessed(s: State, run: seq<Arrival>, maxAge: real)
    requires maxAge >= 0.0 && s.offset.None?
    ensures var frames, s' := ProcessedFrames(s, run, maxAge), After(s, run, maxAge);
      && (s'.offset.Some? <==> frames != [])
      && (frames != [] ==> OffsetOf(frames, s'.offset.value) && forall i | 0 <= i < |frames| :: s'.offset.value <= Offset(frames[i]))
    decreases |run|
  {
    if run != [] {
      var a := run[0];
      var s1 := Accept(s, a.frame, a.now, maxAge).0;
      var rest, s' := ProcessedFrames(s1, run[1..], maxAge), After(s, run, maxAge);
      ProcessedFirst(s, run, maxAge);
      if Ordered(s, a.frame) {
        assert Processed(s, a.frame, a.now, maxAge) && s1.offset == Some(Offset(a));
        OffsetIsLeast(s1, run[1..], maxAge);
        OffsetOfGrows(a, rest, s'.offset.value);
      } else {
        OffsetIsLeastProcessed(s1, run[1..], maxAge);
        assert [] + rest == rest;
      }
    }
  }

  /** An accepted frame gets a time that is neither in the future nor more than `maxAge` old, so a delayed
      one is never executed; and it will not be executed later, because its number is used up. */
  lemma AcceptedIsFresh(s: State, f: Stamp, now: real, maxAge: real, later: seq<Arrival>)
    ensures var (s', r) := Accept(s, f, now, maxAge);
      && (r.Ok? ==> 0.0 <= now - r.value <= maxAge)
      && (r == Err(Delayed) ==> now - f.client - s'.offset.value > maxAge)
      && (r.Ok? || r == Err(Delayed) ==> forall a | a in ProcessedFrames(s', later, maxAge) :: a.frame.seqNo != f.seqNo)
  {
    var (s', r) := Accept(s, f, now, maxAge);
    RunIsOrdered(s', later, maxAge);
    forall a | a in ProcessedFrames(s', later, maxAge)
      ensures Ordered(s', a.frame)
    {
      var frames := ProcessedFrames(s', later, maxAge);
      var i :| 0 <= i < |frames| && frames[i] == a;
    }
  }

  // ----- the answers

  /** The least offset of some frames. */
  predicate LeastOf(frames: seq<Arrival>, v: real) {
    OffsetOf(frames, v) && forall i | 0 <= i < |frames| :: v <= Offset(frames[i])
  }

  /** What a clock answers after any run, by the frames it has processed: a frame whose number or time is not above
      those of the last one is reordered; of the others the first is taken at its arrival, and a later one by how
      its offset compares to the least so far: more than `maxAge` below it the clock has changed, more than
      `maxAge` above it the frame is delayed, and otherwise its time is put on the local clock by the lesser
      offset. */
  lemma AnswersIff(run: seq<Arrival>, maxAge: real, f: Stamp, now: real, least: real)
    requires maxAge >= 0.0 && f.seqNo >= 0 && f.client >= 0.0
    ensures var frames, r := ProcessedFrames(FRESH, run, maxAge), Accept(After(FRESH, run, maxAge), f, now, maxAge).1;
      && (frames == [] ==> r == Ok(now))
      && (frames != [] && LeastOf(frames, least) ==>
            var last, offset := frames[|frames| - 1].frame, now - f.client;
            r == if f.seqNo <= last.seqNo || f.client <= last.client then Err(Reordered)
                 else if offset < least - maxAge then Err(ClockChanged)
                 else if offset > least + maxAge then Err(Delayed)
                 else Ok(f.client + if offset < least then offset else least))
  {
    var frames, s := ProcessedFrames(FRESH, run, maxAge), After(FRESH, run, maxAge);
    RunIsOrdered(FRESH, run, maxAge);
    OffsetIsLeastProcessed(FRESH, run, maxAge);
    if frames != [] && LeastOf(frames, least) {
      LeastIsOne(frames, least, s.offset.value);
    }
  }

  lemma LeastIsOne(frames: seq<Arrival>, a: real, b: real)
    requires LeastOf(frames, a) && LeastOf(frames, b)
    ensures a == b
  {
    var i :| 0 <= i < |frames| && a == Offset(frames[i]);
    var j :| 0 <= j < |frames| && b == Offset(frames[j]);
  }
}
