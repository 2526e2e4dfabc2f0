/** What a recording says about itself: its phase, its counters and its mark are those of what happened. */
module RecorderMarks {
  import opened Wrappers
  import opened RecorderModel
  import opened RecorderRuns
  import opened RecorderTheorems

  // ----- the phase

  /** Which calls and failures lead to which phase. */
  predicate PhaseTold(w: World) {
    var h, phase := w.h, w.rec.phase;
    && (phase.Created? <==> !h.started && !h.asked && !h.failed)
    && (phase.Running? <==> h.started && !h.asked && !h.failed)
    && (phase.Stopping? <==> h.started && h.asked && !h.failed && !w.pc.Done?)
    && (phase.Stopped? <==> h.asked && !h.failed && (h.started ==> w.pc.Done?))
    && (phase.Failed? <==> h.failed)
  }

  lemma NextTellsPhase(b: Bounds, w: World, a: Step)
    requires PhaseTold(w) && Lifecycle(b, w)
    ensures PhaseTold(Next(b, w, a))
  {
  }

  lemma {:induction false} PhaseIff(b: Bounds, run: seq<Step>)
    ensures PhaseTold(Run(b, INITIAL, run))
    decreases |run|
  {
    if run != [] {
      var n := |run| - 1;
      PhaseIff(b, run[..n]);
      RunKeeps(b, run[..n]);
      NextTellsPhase(b, Run(b, INITIAL, run[..n]), run[n]);
    }
  }

  /** An event is taken until a stop is asked for or the recording fails; it goes to the end of the queue, and
      displaces the oldest event exactly if the queue is full. */
  lemma OfferAnswers(b: Bounds, run: seq<Step>, e: Event)
    ensures var w := Run(b, INITIAL, run);
      var (r, kept) := Offer(b, w.rec, e);
      var full := |w.rec.queue| == b.queueSize;
      && (kept <==> !w.h.asked && !w.h.failed && !full)
      && (w.h.asked || w.h.failed ==> r == w.rec)
      && (!w.h.asked && !w.h.failed ==>
            r.queue == (if full then w.rec.queue[1..] else w.rec.queue) + [e]
            && r.droppedActions == w.rec.droppedActions + if full then 1 else 0)
  {
    PhaseIff(b, run);
  }

  /** Writing an event raises exactly if its write fails or leaves the byte limit; writing a snapshot also if as
      many as the limit are kept already. */
  lemma WriteAnswers(b: Bounds, run: seq<Step>, x: Write, s: Snapshot)
    ensures var w := Run(b, INITIAL, run);
      && (ActionWritten(b, w.rec, x).1 <==> x.ok && w.h.disk + x.size <= b.maxBytes)
      && (SnapshotWritten(b, w.rec, s).1 <==>
            && |w.h.kept| < b.maxRecords
            && (forall y :: y in Needed(w.h, s) ==> y.ok)
            && w.h.disk + Total(Needed(w.h, s)) <= b.maxBytes)
  {
    RunKeeps(b, run);
    SnapshotLands(b, Run(b, INITIAL, run), s);
  }

  // ----- what the snapshots lacked

  function FramesLacked(noted: seq<Snapshot>): nat {
    if noted == [] then 0 else FramesLacked(noted[..|noted| - 1]) + noted[|noted| - 1].missingFrames
  }

  function StatesLacked(noted: seq<Snapshot>): nat {
    if noted == [] then 0
    else StatesLacked(noted[..|noted| - 1]) + if noted[|noted| - 1].missingState then 1 else 0
  }

  predicate MissingTold(w: World) {
    w.rec.missingFrames == FramesLacked(w.h.noted) && w.rec.missingStates == StatesLacked(w.h.noted)
  }

  lemma NextTellsMissing(b: Bounds, w: World, a: Step)
    requires MissingTold(w) && Told(w)
    ensures MissingTold(Next(b, w, a))
  {
    if !a.WriteTaken? {
      OthersNoteNothing(b, w, a);
    } else if w.pc.Taken? {
      assert (w.h.noted + [w.pc.snapshot])[..|w.h.noted|] == w.h.noted;
    }
  }

  /** The counters of missing frames and states are the sums over the snapshots noted. */
  lemma {:induction false} MissingCounted(b: Bounds, run: seq<Step>)
    ensures var w := Run(b, INITIAL, run);
      w.rec.missingFrames == FramesLacked(w.h.noted) && w.rec.missingStates == StatesLacked(w.h.noted)
    decreases |run|
  {
    if run != [] {
      var n := |run| - 1;
      MissingCounted(b, run[..n]);
      RunKeeps(b, run[..n]);
      NextTellsMissing(b, Run(b, INITIAL, run[..n]), run[n]);
    }
  }

  // ----- the mark

  predicate Lacks(s: Snapshot) {
    s.missingFrames > 0 || s.missingState || s.errors
  }

  /** Some snapshot lacks a part or carries errors, or a number is left out. */
  predicate Faulty(noted: seq<Snapshot>) {
    Broken(noted) || exists i :: 0 <= i < |noted| && Lacks(noted[i])
  }

  /** An event displaced, a stop timed out, the shutdown budget spent, or the recording failed. */
  predicate Cut(b: Bounds, h: History) {
    h.dropped != [] || h.timedOut || h.checked > b.queueSize || h.failed
  }

  predicate MarkTold(b: Bounds, w: World) {
    w.rec.incomplete <==> Cut(b, w.h) || Faulty(w.h.noted)
  }

  lemma FaultyGrows(noted: seq<Snapshot>, s: Snapshot)
    ensures Faulty(noted + [s]) <==>
      Faulty(noted) || Lacks(s) || (noted != [] && s.sequence > noted[|noted| - 1].sequence + 1)
  {
    var more := noted + [s];
    assert more[|noted|] == s;
    assert forall i :: 0 <= i < |noted| ==> more[i] == noted[i];
    if noted != [] {
      OneMore(noted, s);
    }
  }

  lemma WriteMarks(b: Bounds, w: World)
    requires MarkTold(b, w) && Told(w) && Sequenced(w) && w.pc.Taken?
    ensures MarkTold(b, WriteTakenStep(b, w))
  {
    FaultyGrows(w.h.noted, w.pc.snapshot);
  }

  lemma CheckMarks(b: Bounds, w: World)
    requires MarkTold(b, w) && Budgeted(b, w)
    ensures MarkTold(b, CheckStep(b, w))
  {
  }

  lemma OfferMarks(b: Bounds, w: World, e: Event)
    requires MarkTold(b, w)
    ensures MarkTold(b, OfferStep(b, w, e))
  {
  }

  lemma OthersMark(b: Bounds, w: World, a: Step)
    requires !a.WriteTaken? && !a.CheckStop? && !a.Offered? && MarkTold(b, w) && PhaseTold(w)
    ensures MarkTold(b, Next(b, w, a))
  {
    var w' := Next(b, w, a);
    assert w'.h.noted == w.h.noted && w'.h.dropped == w.h.dropped && w'.h.checked == w.h.checked;
  }

  lemma NextMarks(b: Bounds, w: World, a: Step)
    requires MarkTold(b, w) && Told(w) && Sequenced(w) && Budgeted(b, w) && PhaseTold(w)
    ensures MarkTold(b, Next(b, w, a))
  {
    if a.WriteTaken? {
      if w.pc.Taken? {
        WriteMarks(b, w);
      }
    } else if a.CheckStop? {
      if w.pc.Check? {
        CheckMarks(b, w);
      }
    } else if a.Offered? {
      OfferMarks(b, w, a.e);
    } else {
      OthersMark(b, w, a);
    }
  }

  /** A recording is marked incomplete exactly if an event was displaced, a stop timed out, the shutdown budget
      was spent, the recording failed, a snapshot noted lacked a frame or its state or carried errors, or a
      sequence number was left out. */
  lemma {:induction false} IncompleteIff(b: Bounds, run: seq<Step>)
    ensures var w := Run(b, INITIAL, run);
      w.rec.incomplete <==> Cut(b, w.h) || Faulty(w.h.noted)
    decreases |run|
  {
    if run != [] {
      var n := |run| - 1;
      IncompleteIff(b, run[..n]);
      RunKeeps(b, run[..n]);
      PhaseIff(b, run[..n]);
      NextMarks(b, Run(b, INITIAL, run[..n]), run[n]);
    }
  }

  // ----- the snapshots kept

  /** All snapshots noted are kept, but for one on which the recording failed or is about to. */
  predicate KeptTold(w: World) {
    || w.h.kept == w.h.noted
    || (w.h.noted != [] && w.h.kept == w.h.noted[..|w.h.noted| - 1]
        && (w.pc.Raised? || (w.h.failed && (Ending(w.pc) || w.pc.Raised?))))
  }

  lemma NextKeepsSnapshots(b: Bounds, w: World, a: Step)
    requires KeptTold(w) && Told(w) && Limited(b, w) && Sequenced(w) && Lifecycle(b, w)
    ensures KeptTold(Next(b, w, a))
  {
    if a.WriteTaken? && w.pc.Taken? {
      var s := w.pc.snapshot;
      SnapshotLands(b, w, s);
      assert (w.h.noted + [s])[..|w.h.noted|] == w.h.noted;
    }
  }

  lemma {:induction false} NotedAreKept(b: Bounds, run: seq<Step>)
    ensures KeptTold(Run(b, INITIAL, run))
    decreases |run|
  {
    if run != [] {
      var n := |run| - 1;
      NotedAreKept(b, run[..n]);
      RunKeeps(b, run[..n]);
      NextKeepsSnapshots(b, Run(b, INITIAL, run[..n]), run[n]);
    }
  }

  /** A recording that ends unmarked holds every accepted event and every snapshot noted, in order, with no part
      missing and no number left out. */
  lemma UnmarkedIsWhole(b: Bounds, run: seq<Step>)
    ensures var w := Run(b, INITIAL, run);
      w.pc.Done? && !w.rec.incomplete ==>
        && w.h.written == w.h.offered && w.h.kept == w.h.noted
        && w.rec.actions == |w.h.offered| && w.rec.observations == |w.h.noted|
        && w.rec.missingFrames == 0 && w.rec.missingStates == 0 && w.h.skipped == 0
  {
    RunKeeps(b, run);
    CompleteMeansAllWritten(b, run);
    IncompleteIff(b, run);
    NotedAreKept(b, run);
    MissingCounted(b, run);
    var noted := Run(b, INITIAL, run).h.noted;
    if !Faulty(noted) {
      NoneLacked(noted);
    }
  }

  lemma {:induction false} NoneLacked(noted: seq<Snapshot>)
    requires forall i :: 0 <= i < |noted| ==> !Lacks(noted[i])
    ensures FramesLacked(noted) == 0 && StatesLacked(noted) == 0
    decreases |noted|
  {
    if noted != [] {
      assert !Lacks(noted[|noted| - 1]);
      NoneLacked(noted[..|noted| - 1]);
    }
  }
}
