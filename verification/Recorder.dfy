/** The recorder object, one method per locked section or write of its source, proved against `RecorderModel`. */
module Recorders {
  import opened Wrappers
  import opened RecorderModel

  class ObservationRecorder {
    const b: Bounds
    var phase: Phase
    var queue: seq<Event>
    var incomplete: bool
    var observations: nat
    var actions: nat
    var droppedActions: nat
    var missingFrames: nat
    var missingStates: nat
    var bytes: nat
    var lastSequence: Option<int>
    var stopSet: bool

    ghost function View(): Rec
      reads this
    {
      Rec(phase, queue, incomplete, observations, actions, droppedActions, missingFrames, missingStates, bytes,
          lastSequence, stopSet)
    }

    constructor (b: Bounds)
      ensures View() == FRESH && this.b == b
    {
      this.b, phase, queue, incomplete := b, Created, [], false;
      observations, actions, droppedActions, missingFrames, missingStates, bytes := 0, 0, 0, 0, 0, 0;
      lastSequence, stopSet := None, false;
    }

    method RecordAction(e: Event) returns (kept: bool)
      modifies this
      ensures (View(), kept) == Offer(b, old(View()), e)
    {
      if !phase.Created? && !phase.Running? {
        return false;
      }
      var displaced := |queue| == b.queueSize;
      if displaced {
        droppedActions, incomplete := droppedActions + 1, true;
        queue := queue[1..];
      }
      queue := queue + [e];
      return !displaced;
    }

    method Start(ready: bool) returns (ok: bool)
      modifies this
      ensures View() == if old(phase).Created? then Started(old(View()), ready) else old(View())
      ensures ok <==> old(phase).Created? && ready
    {
      ok := phase.Created? && ready;
      if phase.Created? {
        phase := Running;
        if !ready {
          phase, incomplete := Failed, true;
        }
      }
    }

    /** The locked part of `stop`; true if there is no writer to wait for. */
    method AskStop() returns (ended: bool)
      modifies this
      ensures View() == StopAsked(old(View()))
      ensures ended <==> !phase.Stopping?
    {
      if phase.Created? {
        phase := Stopped;
        return true;
      }
      if phase.Stopped? || phase.Failed? {
        return true;
      }
      phase, stopSet := Stopping, true;
      return false;
    }

    method Pop() returns (e: Option<Event>)
      modifies this`queue
      ensures old(queue) == [] ==> e.None? && queue == []
      ensures old(queue) != [] ==> e == Some(old(queue)[0]) && old(queue) == [e.value] + queue
    {
      if queue == [] {
        return None;
      }
      e := Some(queue[0]);
      queue := queue[1..];
    }

    /** One checked write: the bytes are counted only when it succeeds. */
    method AppendOne(w: Write) returns (ok: bool)
      modifies this`bytes
      ensures ok == Append(b, old(bytes), w).Some?
      ensures bytes == if ok then Append(b, old(bytes), w).value else old(bytes)
    {
      if bytes + w.size > b.maxBytes || !w.ok {
        return false;
      }
      bytes := bytes + w.size;
      return true;
    }

    method WriteAction(w: Write) returns (ok: bool)
      modifies this
      ensures (View(), ok) == ActionWritten(b, old(View()), w)
    {
      ok := AppendOne(w);
      if ok {
        actions := actions + 1;
      }
    }

    /** The writes of one snapshot, up to the first that fails. */
    method AppendEach(ws: seq<Write>) returns (ok: bool)
      modifies this`bytes
      ensures (bytes, ok) == AppendAll(b, old(bytes), ws)
    {
      ok := true;
      for i := 0 to |ws|
        invariant ok && AppendAll(b, bytes, ws[i..]) == AppendAll(b, old(bytes), ws)
      {
        ok := AppendOne(ws[i]);
        if !ok {
          return;
        }
        assert ws[i..][1..] == ws[i + 1..];
      }
    }

    /** The locked part of `_write_snapshot`: what the snapshot lacks, and how many numbers were skipped. */
    method NoteSnapshot(s: Snapshot) returns (gap: nat)
      modifies this
      ensures View() == Noted(old(View()), s) && gap == Gap(old(View()), s)
    {
      gap := 0;
      if lastSequence.Some? && s.sequence > lastSequence.value + 1 {
        gap := s.sequence - lastSequence.value - 1;
        incomplete := true;
      }
      lastSequence := Some(s.sequence);
      if s.missingFrames > 0 {
        missingFrames, incomplete := missingFrames + s.missingFrames, true;
      }
      if s.missingState {
        missingStates, incomplete := missingStates + 1, true;
      }
      if s.errors {
        incomplete := true;
      }
    }

    method WriteSnapshot(s: Snapshot) returns (ok: bool)
      modifies this
      ensures (View(), ok) == SnapshotWritten(b, old(View()), s)
    {
      if observations >= b.maxRecords {
        return false;
      }
      var gap := NoteSnapshot(s);
      var writes := s.writes;
      if gap > 0 {
        writes := [s.gapWrite] + writes;
      }
      assert writes == WritesOf(old(View()), s);
      ok := AppendEach(writes);
      if ok {
        observations := observations + 1;
      }
    }

    method Fail()
      modifies this
      ensures View() == FailedRec(old(View()))
    {
      phase, incomplete, stopSet := Failed, true, true;
    }

    method Finish(manifest: bool)
      modifies this
      ensures View() == Finished(old(View()), manifest)
    {
      if !phase.Failed? {
        phase := Stopped;
      }
      if !manifest {
        phase, incomplete := Failed, true;
      }
    }
  }
}
