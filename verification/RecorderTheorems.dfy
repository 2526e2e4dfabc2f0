/** What the recorder keeps over every interleaving of its callers, the publisher and its writer. */
module RecorderTheorems {
  import opened Wrappers
  import opened RecorderModel
  import opened RecorderRuns

  /** Every accepted event is written, dropped, lost, in the writer's hand or queued, and nowhere twice. */
  predicate Conserved(w: World) {
    Kept(w) + multiset(w.h.dropped) + multiset(w.rec.queue) == multiset(w.h.offered)
  }

  /** What has left the queue at its front. */
  function Kept(w: World): multiset<Event> {
    multiset(w.h.written) + multiset(w.h.lost) + multiset(InHand(w))
  }

  /** What is written, in hand and queued is in the order of acceptance. */
  predicate InOrder(w: World) {
    Sub(w.h.written + InHand(w) + w.rec.queue, w.h.offered)
  }

  predicate Counted(w: World) {
    && w.rec.actions == |w.h.written| && w.rec.droppedActions == |w.h.dropped|
    && (w.h.dropped != [] ==> w.rec.incomplete)
    && (w.h.lost != [] ==> w.rec.phase.Failed? || w.pc.Raised?)
    && (w.rec.phase.Failed? ==> w.rec.incomplete)
  }

  /** The counters tell what the files hold. */
  predicate Told(w: World) {
    w.rec.bytes == w.h.disk && w.rec.observations == |w.h.kept|
  }

  predicate Limited(b: Bounds, w: World) {
    w.rec.bytes <= b.maxBytes && w.rec.observations <= b.maxRecords && |w.rec.queue| <= b.queueSize
  }

  predicate Ending(pc: Pc) {
    pc.Closing? || pc.Done? || ((pc.Drain? || pc.Holding? || pc.Raised?) && pc.last)
  }

  /** How phase, stop flag, writer and queue go together. */
  predicate Lifecycle(b: Bounds, w: World) {
    && (w.h.started <==> !w.pc.Absent?)
    && (!w.h.started ==> !w.rec.stopSet && (w.rec.phase.Created? || w.rec.phase.Stopped? || w.rec.phase.Failed?))
    && (!w.h.started ==> w.h.written == [] && w.h.lost == [] && |w.h.dropped| + |w.rec.queue| == |w.h.offered|)
    && (!w.h.started && w.rec.queue == [] ==> w.h.offered == [])
    && (w.h.started ==> !w.rec.phase.Created? && (w.rec.stopSet <==> !w.rec.phase.Running?))
    && (w.h.started && w.rec.phase.Stopped? ==> w.pc.Done?)
    && (w.pc.Done? ==> w.rec.phase.Stopped? || w.rec.phase.Failed?)
    && (Ending(w.pc) ==> w.rec.stopSet)
    && (w.pc.Drain? && w.pc.last ==> w.pc.count + |w.rec.queue| <= b.queueSize)
    && (w.pc.Holding? && w.pc.last ==> w.pc.count + |w.rec.queue| < b.queueSize)
    && (w.pc.Closing? || w.pc.Done? ==> w.rec.queue == [] || w.rec.phase.Failed?)
  }

  /** How many of the snapshots taken after the stop the writer has in work. */
  function Held(w: World): nat {
    if w.pc.Taken? || w.pc.Check? then 1 else 0
  }

  predicate Budgeted(b: Bounds, w: World) {
    && (w.budget.None? <==> w.h.checked == 0)
    && (w.budget.Some? ==> w.rec.stopSet && 0 <= w.budget.value == b.queueSize + 1 - w.h.checked)
    && (w.budget.Some? && w.budget.value == 0 ==> Ending(w.pc))
    && (!w.rec.stopSet ==> w.h.afterStop == 0)
    && (w.h.afterStop <= w.h.checked + Held(w) || ((Ending(w.pc) || w.pc.Raised?) && w.h.afterStop <= b.queueSize + 1))
  }

  /** Each number is above the one before it. */
  predicate Rising(noted: seq<Snapshot>) {
    forall i :: 0 < i < |noted| ==> noted[i].sequence > noted[i - 1].sequence
  }

  /** Some number is left out between neighbours. */
  predicate Broken(noted: seq<Snapshot>) {
    exists i :: 0 < i < |noted| && noted[i].sequence > noted[i - 1].sequence + 1
  }

  /** While sequence numbers only rise, those from the first to the last are all noted or reported missing. */
  predicate Sequenced(w: World) {
    var noted := w.h.noted;
    && w.rec.lastSequence == (if noted == [] then None else Some(noted[|noted| - 1].sequence))
    && (noted != [] && Rising(noted) ==> noted[|noted| - 1].sequence - noted[0].sequence + 1 == |noted| + w.h.skipped)
    && (w.h.skipped > 0 <==> Broken(noted))
  }

  ghost predicate Inv(b: Bounds, w: World) {
    && Conserved(w) && InOrder(w) && Counted(w) && Told(w) && Limited(b, w) && Lifecycle(b, w) && Budgeted(b, w)
    && Sequenced(w)
  }

  // ----- one step at a time

  lemma PushBack(q: seq<Event>, e: Event)
    ensures multiset(q + [e]) == multiset(q) + multiset{e}
  {
  }

  lemma PopFront(q: seq<Event>)
    requires q != []
    ensures multiset(q) == multiset{q[0]} + multiset(q[1..])
  {
    assert q == [q[0]] + q[1..];
  }

  lemma DisplaceSum(rest: multiset<Event>, dropped: multiset<Event>, tail: multiset<Event>, x: Event, e: Event)
    ensures rest + (dropped + multiset{x}) + (tail + multiset{e}) == rest + dropped + (multiset{x} + tail) + multiset{e}
  {
  }

  lemma OfferConserves(b: Bounds, w: World, e: Event)
    requires Conserved(w)
    ensures Conserved(OfferStep(b, w, e))
  {
    if Open(w.rec) {
      var q, dropped := w.rec.queue, w.h.dropped;
      PushBack(w.h.offered, e);
      if |q| == b.queueSize {
        PopFront(q);
        PushBack(q[1..], e);
        PushBack(dropped, q[0]);
        DisplaceSum(Kept(w), multiset(dropped), multiset(q[1..]), q[0], e);
      } else {
        PushBack(q, e);
      }
    }
  }

  lemma PopConserves(b: Bounds, w: World)
    requires Conserved(w) && w.pc.Drain?
    ensures Conserved(PopStep(b, w))
  {
    var q := w.rec.queue;
    if q != [] {
      assert q == [q[0]] + q[1..];
    }
  }

  lemma WriteConserves(b: Bounds, w: World, x: Write)
    requires Conserved(w) && w.pc.Holding?
    ensures Conserved(WriteActionStep(b, w, x))
  {
  }

  /** Steps that move no event. */
  predicate SameEvents(w: World, w': World) {
    && w'.h.written == w.h.written && w'.h.dropped == w.h.dropped && w'.h.lost == w.h.lost && w'.h.offered == w.h.offered
    && w'.rec.queue == w.rec.queue && InHand(w') == InHand(w)
  }

  lemma OthersMoveNothing(b: Bounds, w: World, a: Step)
    requires Lifecycle(b, w)
    requires !a.Offered? && !a.Pop? && !a.WriteAction?
    ensures SameEvents(w, Next(b, w, a))
  {
  }

  lemma NextConserves(b: Bounds, w: World, a: Step)
    requires Conserved(w) && Lifecycle(b, w)
    ensures Conserved(Next(b, w, a))
  {
    if a.Offered? {
      OfferConserves(b, w, a.e);
    } else if a.Pop? {
      if w.pc.Drain? {
        PopConserves(b, w);
      }
    } else if a.WriteAction? {
      if w.pc.Holding? {
        WriteConserves(b, w, a.w);
      }
    } else {
      OthersMoveNothing(b, w, a);
    }
  }

  lemma AcceptKeepsOrder(done: seq<Event>, q: seq<Event>, whole: seq<Event>, e: Event)
    requires Sub(done + q, whole)
    ensures Sub(done + (q + [e]), whole + [e])
    ensures q != [] ==> Sub(done + (q[1..] + [e]), whole + [e])
  {
    var all := done + q + [e];
    SubGrow(done + q, whole, e);
    assert all == done + (q + [e]);
    if q != [] {
      SubRemove(all, |done|, whole + [e]);
      assert all[..|done|] + all[|done| + 1..] == done + (q[1..] + [e]);
    }
  }

  lemma OfferKeepsOrder(b: Bounds, w: World, e: Event)
    requires InOrder(w)
    ensures InOrder(OfferStep(b, w, e))
  {
    AcceptKeepsOrder(w.h.written + InHand(w), w.rec.queue, w.h.offered, e);
  }

  lemma PopKeepsOrder(b: Bounds, w: World)
    requires InOrder(w) && w.pc.Drain?
    ensures InOrder(PopStep(b, w))
  {
    var w' := PopStep(b, w);
    if w'.pc.Holding? {
      assert w.h.written + [w.rec.queue[0]] + w.rec.queue[1..] == w.h.written + [] + w.rec.queue;
    }
  }

  lemma FrontLeaves(written: seq<Event>, e: Event, q: seq<Event>, whole: seq<Event>)
    requires Sub(written + [e] + q, whole)
    ensures Sub(written + [e] + [] + q, whole) && Sub(written + [] + q, whole)
  {
    var all := written + [e] + q;
    assert written + [e] + [] + q == all;
    SubRemove(all, |written|, whole);
    assert all[..|written|] + all[|written| + 1..] == written + [] + q;
  }

  lemma WriteKeepsOrder(b: Bounds, w: World, x: Write)
    requires InOrder(w) && w.pc.Holding?
    ensures InOrder(WriteActionStep(b, w, x))
  {
    FrontLeaves(w.h.written, w.pc.event, w.rec.queue, w.h.offered);
  }

  lemma NextKeepsOrder(b: Bounds, w: World, a: Step)
    requires InOrder(w) && Lifecycle(b, w)
    ensures InOrder(Next(b, w, a))
  {
    if a.Offered? {
      OfferKeepsOrder(b, w, a.e);
    } else if a.Pop? {
      if w.pc.Drain? {
        PopKeepsOrder(b, w);
      }
    } else if a.WriteAction? {
      if w.pc.Holding? {
        WriteKeepsOrder(b, w, a.w);
      }
    } else {
      OthersMoveNothing(b, w, a);
    }
  }

  lemma OfferCounts(b: Bounds, w: World, e: Event)
    requires Counted(w)
    ensures Counted(OfferStep(b, w, e))
  {
  }

  lemma WriteCounts(b: Bounds, w: World, x: Write)
    requires Counted(w) && Told(w) && w.pc.Holding?
    ensures Counted(WriteActionStep(b, w, x))
  {
  }

  lemma OthersCount(b: Bounds, w: World, a: Step)
    requires Counted(w) && Lifecycle(b, w) && !a.Offered? && !a.WriteAction?
    ensures Counted(Next(b, w, a))
  {
  }

  lemma NextCounts(b: Bounds, w: World, a: Step)
    requires Counted(w) && Lifecycle(b, w) && Told(w)
    ensures Counted(Next(b, w, a))
  {
    if a.Offered? {
      OfferCounts(b, w, a.e);
    } else if a.WriteAction? {
      if w.pc.Holding? {
        WriteCounts(b, w, a.w);
      }
    } else {
      OthersCount(b, w, a);
    }
  }

  /** Writes of which all succeed and fit are all made; otherwise they are made up to the first that does not. */
  lemma {:induction false} AppendAllLands(b: Bounds, bytes: nat, ws: seq<Write>)
    requires bytes <= b.maxBytes
    ensures AppendAll(b, bytes, ws) == (bytes + Landed(b.maxBytes - bytes, ws), AllLand(b.maxBytes - bytes, ws))
    decreases |ws|
  {
    if ws != [] {
      assert ws == [ws[0]] + ws[1..];
      if Append(b, bytes, ws[0]).Some? {
        AppendAllLands(b, bytes + ws[0].size, ws[1..]);
      }
    }
  }

  lemma SnapshotLands(b: Bounds, w: World, s: Snapshot)
    requires Told(w) && Limited(b, w) && Sequenced(w)
    ensures var (r, ok) := SnapshotWritten(b, w.rec, s);
      var room, ws := Room(b, w.h), Needed(w.h, s);
      && (ok <==> |w.h.kept| < b.maxRecords && AllLand(room, ws))
      && (|w.h.kept| < b.maxRecords ==> r.bytes == w.h.disk + Landed(room, ws))
      && r.observations == |w.h.kept| + (if ok then 1 else 0)
      && (|w.h.kept| >= b.maxRecords ==> r == w.rec)
  {
    assert WritesOf(w.rec, s) == Needed(w.h, s);
    AppendAllLands(b, w.rec.bytes, Needed(w.h, s));
  }

  lemma WriteTells(b: Bounds, w: World)
    requires Told(w) && Limited(b, w) && Sequenced(w) && w.pc.Taken?
    ensures Told(WriteTakenStep(b, w))
  {
    SnapshotLands(b, w, w.pc.snapshot);
  }

  lemma OthersTell(b: Bounds, w: World, a: Step)
    requires Told(w) && !a.WriteTaken?
    ensures Told(Next(b, w, a))
  {
  }

  lemma NextTells(b: Bounds, w: World, a: Step)
    requires Told(w) && Limited(b, w) && Sequenced(w)
    ensures Told(Next(b, w, a))
  {
    if !a.WriteTaken? {
      OthersTell(b, w, a);
    } else if w.pc.Taken? {
      WriteTells(b, w);
    }
  }

  lemma NextLimits(b: Bounds, w: World, a: Step)
    requires Limited(b, w)
    ensures Limited(b, Next(b, w, a))
  {
    if a.WriteTaken? && w.pc.Taken? {
      AppendAllBounded(b, w.rec.bytes, WritesOf(w.rec, w.pc.snapshot));
    }
  }

  lemma CallerLives(b: Bounds, w: World, a: Step)
    requires Lifecycle(b, w) && Limited(b, w) && !OfWriter(a)
    ensures Lifecycle(b, Next(b, w, a))
  {
  }

  lemma WriterLives(b: Bounds, w: World, a: Step)
    requires Lifecycle(b, w) && Limited(b, w) && OfWriter(a)
    ensures Lifecycle(b, Next(b, w, a))
  {
  }

  lemma NextLives(b: Bounds, w: World, a: Step)
    requires Lifecycle(b, w) && Limited(b, w)
    ensures Lifecycle(b, Next(b, w, a))
  {
    if OfWriter(a) {
      WriterLives(b, w, a);
    } else {
      CallerLives(b, w, a);
    }
  }

  lemma NextBudgets(b: Bounds, w: World, a: Step)
    requires Budgeted(b, w) && Lifecycle(b, w)
    ensures Budgeted(b, Next(b, w, a))
  {
  }

  lemma OneMore(noted: seq<Snapshot>, s: Snapshot)
    requires noted != []
    ensures var last := noted[|noted| - 1].sequence;
      && (Rising(noted + [s]) <==> Rising(noted) && s.sequence > last)
      && (Broken(noted + [s]) <==> Broken(noted) || s.sequence > last + 1)
  {
    var more := noted + [s];
    assert forall i :: 0 <= i < |noted| ==> more[i] == noted[i];
    assert more[|noted|] == s;
    if Broken(noted) {
      var i :| 0 < i < |noted| && noted[i].sequence > noted[i - 1].sequence + 1;
      assert more[i].sequence > more[i - 1].sequence + 1;
    }
  }

  lemma WriteSequences(b: Bounds, w: World)
    requires Sequenced(w) && Told(w) && w.pc.Taken?
    ensures Sequenced(WriteTakenStep(b, w))
  {
    var w', s := WriteTakenStep(b, w), w.pc.snapshot;
    if w.rec.observations < b.maxRecords {
      assert w'.h.noted == w.h.noted + [s] && w'.h.skipped == w.h.skipped + Gap(w.rec, s);
      assert w'.rec.lastSequence == Some(s.sequence);
      GapAccounts(w.h.noted, s, w.h.skipped, Gap(w.rec, s));
    }
  }

  lemma GapAccounts(noted: seq<Snapshot>, s: Snapshot, skipped: nat, gap: nat)
    requires noted != [] && Rising(noted) ==>
      noted[|noted| - 1].sequence - noted[0].sequence + 1 == |noted| + skipped
    requires skipped > 0 <==> Broken(noted)
    requires noted == [] ==> gap == 0
    requires noted != [] ==>
      var step := s.sequence - noted[|noted| - 1].sequence;
      gap == if step > 1 then step - 1 else 0
    ensures Rising(noted + [s]) ==> s.sequence - (noted + [s])[0].sequence + 1 == |noted| + 1 + skipped + gap
    ensures skipped + gap > 0 <==> Broken(noted + [s])
  {
    if noted != [] {
      OneMore(noted, s);
    }
  }

  lemma OthersNoteNothing(b: Bounds, w: World, a: Step)
    requires !a.WriteTaken?
    ensures var w' := Next(b, w, a);
      && w'.rec.lastSequence == w.rec.lastSequence && w'.h.noted == w.h.noted && w'.h.skipped == w.h.skipped
      && w'.rec.missingFrames == w.rec.missingFrames && w'.rec.missingStates == w.rec.missingStates
  {
  }

  lemma NextSequences(b: Bounds, w: World, a: Step)
    requires Sequenced(w) && Told(w)
    ensures Sequenced(Next(b, w, a))
  {
    if !a.WriteTaken? {
      OthersNoteNothing(b, w, a);
    } else if w.pc.Taken? {
      WriteSequences(b, w);
    }
  }

  lemma {:induction false} RunKeeps(b: Bounds, run: seq<Step>)
    ensures Inv(b, Run(b, INITIAL, run))
    decreases |run|
  {
    if run != [] {
      var n := |run| - 1;
      RunKeeps(b, run[..n]);
      var w := Run(b, INITIAL, run[..n]);
      NextConserves(b, w, run[n]);
      NextKeepsOrder(b, w, run[n]);
      NextCounts(b, w, run[n]);
      NextTells(b, w, run[n]);
      NextLimits(b, w, run[n]);
      NextLives(b, w, run[n]);
      NextBudgets(b, w, run[n]);
      NextSequences(b, w, run[n]);
    }
  }

  // ----- theorems

  lemma {:induction false} SubPrefix<T>(part: seq<T>, more: seq<T>, whole: seq<T>)
    requires Sub(part + more, whole)
    ensures Sub(part, whole)
    decreases |more|
  {
    if more == [] {
      assert part + more == part;
    } else {
      var all, n := part + more, |part + more| - 1;
      SubRemove(all, n, whole);
      assert all[..n] + all[n + 1..] == part + more[..|more| - 1];
      SubPrefix(part, more[..|more| - 1], whole);
    }
  }

  /** At every point of every run each accepted event is in exactly one place, the counters say how many are
      written and dropped, and an event taken but not written means that the recording has failed or is about
      to. */
  lemma ActionsConserved(b: Bounds, run: seq<Step>)
    ensures var w := Run(b, INITIAL, run);
      && Conserved(w)
      && w.rec.actions == |w.h.written| && w.rec.droppedActions == |w.h.dropped|
      && (w.h.lost != [] ==> w.pc.Raised? || (w.rec.phase.Failed? && w.rec.incomplete))
  {
    RunKeeps(b, run);
  }

  /** The file holds events in the order they were accepted. */
  lemma WrittenInOrder(b: Bounds, run: seq<Step>)
    ensures Sub(Run(b, INITIAL, run).h.written, Run(b, INITIAL, run).h.offered)
  {
    RunKeeps(b, run);
    FrontInOrder(Run(b, INITIAL, run));
  }

  lemma FrontInOrder(w: World)
    requires InOrder(w)
    ensures Sub(w.h.written, w.h.offered)
  {
    var written, rest := w.h.written, InHand(w) + w.rec.queue;
    assert written + InHand(w) + w.rec.queue == written + rest;
    SubPrefix(written, rest, w.h.offered);
  }

  /** The counters tell the bytes and snapshots the files hold, and with the queue they never exceed their
      limits. */
  lemma LimitsHold(b: Bounds, run: seq<Step>)
    ensures var w := Run(b, INITIAL, run);
      && w.rec.bytes == w.h.disk <= b.maxBytes && w.rec.observations == |w.h.kept| <= b.maxRecords
      && |w.rec.queue| <= b.queueSize
  {
    RunKeeps(b, run);
  }

  /** A recording that ends without being marked incomplete has written every accepted event, in order. */
  lemma CompleteMeansAllWritten(b: Bounds, run: seq<Step>)
    ensures var w := Run(b, INITIAL, run);
      w.pc.Done? && !w.rec.incomplete ==> w.rec.phase.Stopped? && w.h.written == w.h.offered
  {
    RunKeeps(b, run);
    var w := Run(b, INITIAL, run);
    if w.pc.Done? && !w.rec.incomplete {
      assert w.h.written + [] + [] == w.h.written;
      assert multiset(w.h.written) == multiset(w.h.offered);
      assert |multiset(w.h.written)| == |w.h.written| && |multiset(w.h.offered)| == |w.h.offered|;
      SubFull(w.h.written, w.h.offered);
    }
  }

  /** A stopped recorder has emptied its queue exactly if it was started or never given an event: events
      accepted before a start that never comes stay unwritten, and nothing marks them. */
  lemma StoppedQueueIff(b: Bounds, run: seq<Step>)
    ensures var w := Run(b, INITIAL, run);
      w.rec.phase.Stopped? ==> (w.rec.queue == [] <==> w.h.started || w.h.offered == [])
  {
    RunKeeps(b, run);
  }

  lemma StoppedUnstartedKeepsEvent(b: Bounds, e: Event)
    ensures var w := Run(b, INITIAL, [Offered(e), StopCall]);
      w.rec.phase.Stopped? && w.rec.queue == [e] && !w.rec.incomplete
  {
    var run := [Offered(e), StopCall];
    assert run[..1] == [Offered(e)] && run[..1][..0] == [];
    assert Run(b, INITIAL, run[..1]) == Next(b, INITIAL, Offered(e));
  }

  /** After a stop the writer takes at most one snapshot more than the queue holds, whatever is published; once
      it has written that many it takes no more, and before that only an empty subscription or an error ends
      its loop. */
  lemma FewSnapshotsAfterStop(b: Bounds, run: seq<Step>)
    ensures var w := Run(b, INITIAL, run);
      && w.h.afterStop <= b.queueSize + 1 && w.h.checked <= b.queueSize + 1
      && (w.pc.Check? && w.rec.stopSet ==>
            (Next(b, w, CheckStop).pc == Drain(true, 0) <==> w.h.checked == b.queueSize))
  {
    RunKeeps(b, run);
  }

  /** Snapshots with rising sequence numbers: every number between the first and the last was noted or reported
      as missing; some are reported exactly if neighbours leave some out. */
  lemma SequencesAccounted(b: Bounds, run: seq<Step>)
    ensures var w := Run(b, INITIAL, run);
      var noted := w.h.noted;
      && (noted != [] && Rising(noted) ==>
            noted[|noted| - 1].sequence - noted[0].sequence + 1 == |noted| + w.h.skipped)
      && (w.h.skipped > 0 <==> Broken(noted))
  {
    RunSequences(b, run);
  }

  lemma RunSequences(b: Bounds, run: seq<Step>)
    ensures Sequenced(Run(b, INITIAL, run))
  {
    RunKeeps(b, run);
  }

  /** What a later world may not take back. */
  predicate Later(w: World, w': World) {
    && (w.rec.incomplete ==> w'.rec.incomplete)
    && (w.rec.phase.Failed? ==> w'.rec.phase.Failed?)
    && (w.rec.phase.Stopped? ==> w'.rec.phase.Stopped?)
    && (!Open(w.rec) ==> !Open(w'.rec) && w'.h.offered == w.h.offered)
  }

  lemma NextIsLater(b: Bounds, w: World, a: Step)
    requires Lifecycle(b, w)
    ensures Later(w, Next(b, w, a))
  {
  }

  /** A failed recording stays failed, a stopped one stays stopped, neither accepts events, and a mark of
      incompleteness is for good. */
  lemma {:induction false} EndIsForGood(b: Bounds, run: seq<Step>, more: seq<Step>)
    ensures Later(Run(b, INITIAL, run), Run(b, Run(b, INITIAL, run), more))
    decreases |more|
  {
    if more != [] {
      var n := |more| - 1;
      EndIsForGood(b, run, more[..n]);
      RunsJoin(b, INITIAL, run, more[..n]);
      RunKeeps(b, run + more[..n]);
      NextIsLater(b, Run(b, INITIAL, run + more[..n]), more[n]);
    }
  }

  lemma {:induction false} RunsJoin(b: Bounds, w: World, run: seq<Step>, more: seq<Step>)
    ensures Run(b, Run(b, w, run), more) == Run(b, w, run + more)
    decreases |more|
  {
    if more == [] {
      assert run + more == run;
    } else {
      var n := |more| - 1;
      RunsJoin(b, w, run, more[..n]);
      assert (run + more)[..|run + more| - 1] == run + more[..n];
    }
  }

  // ----- the writer ends

  /** Bounds the writer's remaining steps once events are no longer accepted. */
  function Rank(b: Bounds, w: World): int {
    var n := 2 * |w.rec.queue|;
    var loop := n + 4 * (if w.budget.None? then b.queueSize + 1 else w.budget.value);
    match w.pc
    case Absent => 0
    case Done => 0
    case Closing => 1
    case Raised(last) => if last then 2 else n + 4
    case Drain(last, _) => if last then n + 3 else loop + 8
    case Holding(last, _, _) => if last then n + 4 else loop + 9
    case Poll => loop + 7
    case Taken(_) => loop + 6
    case Check => loop + 5
  }

  lemma StepRanks(b: Bounds, w: World, a: Step)
    requires Lifecycle(b, w) && Limited(b, w) && Budgeted(b, w) && !Open(w.rec)
    ensures OfWriter(a) && Enabled(w, a) ==> 0 <= Rank(b, Next(b, w, a)) < Rank(b, w)
    ensures !OfWriter(a) ==> Rank(b, Next(b, w, a)) == Rank(b, w)
  {
    if !OfWriter(a) {
      assert Next(b, w, a).rec.queue == w.rec.queue && Next(b, w, a).pc == w.pc && Next(b, w, a).budget == w.budget;
    }
  }

  /** How often the writer moved in a run. */
  function Moves(b: Bounds, w: World, run: seq<Step>): nat
    decreases |run|
  {
    if run == [] then 0
    else
      var n := |run| - 1;
      Moves(b, w, run[..n]) + if OfWriter(run[n]) && Enabled(Run(b, w, run[..n]), run[n]) then 1 else 0
  }

  /** Whenever the writer has not ended, some step of its own is possible. */
  lemma WriterNeverStuck(w: World)
    requires !w.pc.Absent? && !w.pc.Done?
    ensures exists a :: OfWriter(a) && Enabled(w, a)
  {
    var write := Write(0, true);
    var a := match w.pc
      case Drain(_, _) => Pop
      case Holding(_, _, _) => WriteAction(write)
      case Poll => PollEmpty
      case Taken(_) => WriteTaken
      case Check => CheckStop
      case Raised(_) => FailStep
      case _ => Close(true);
    assert OfWriter(a) && Enabled(w, a);
  }

  /** Once events are no longer accepted, the writer makes at most `6 * queueSize + 13` moves until it is done,
      however callers and the publisher go on. */
  lemma {:induction false} ShutdownBounded(b: Bounds, run: seq<Step>, more: seq<Step>)
    requires !Open(Run(b, INITIAL, run).rec)
    ensures var w := Run(b, INITIAL, run);
      Moves(b, w, more) + Rank(b, Run(b, w, more)) <= Rank(b, w) <= 6 * b.queueSize + 13
      && 0 <= Rank(b, Run(b, w, more))
    decreases |more|
  {
    var w := Run(b, INITIAL, run);
    RunKeeps(b, run);
    if more != [] {
      var n := |more| - 1;
      ShutdownBounded(b, run, more[..n]);
      EndIsForGood(b, run, more[..n]);
      RunsJoin(b, INITIAL, run, more[..n]);
      RunKeeps(b, run + more[..n]);
      StepRanks(b, Run(b, w, more[..n]), more[n]);
    }
  }
}
