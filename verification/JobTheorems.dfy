/** What the job registry promises over whole runs. */
module JobTheorems {
  import opened Wrappers
  import opened JobModel
  import opened JobRuns
  import opened JobProofs

  ghost function Reached(actions: seq<Action>): World {
    Run(INIT, actions)
  }

  lemma ReachedInv(actions: seq<Action>)
    ensures Inv(Reached(actions))
  {
    InitHolds();
    RunKeeps(INIT, actions);
  }

  // ----- callbacks

  /** In every interleaving of every incarnation, no key's execute callback and no key's cancel
      callback is entered twice, and a cancel callback runs only for a recorded cancel. */
  lemma CallbacksEnteredAtMostOnce(actions: seq<Action>)
    ensures EnteredAtMostOnce(Reached(actions).calls)
    ensures CancelledAtMostOnce(Reached(actions).calls)
    ensures forall c | c in Reached(actions).calls && c.CancelIn? ::
              c.key in Reached(actions).rows && Reached(actions).rows[c.key].cancelRequested
  {
    ReachedInv(actions);
    var w := Reached(actions);
    forall c | c in w.calls && c.CancelIn?
      ensures c.key in w.rows && w.rows[c.key].cancelRequested
    {
      assert CancelInFits(w, c);
    }
  }

  /** Incarnation `i` is inside a callback of key `k`. */
  predicate Inside(w: World, i: nat, k: Key) {
    && i in w.incs
    && ((k in w.incs[i].workers && w.incs[i].workers[k].Executing?) || (k in w.incs[i].cancels && w.incs[i].cancels[k].Calling?))
  }

  /** Only the lock holder is ever inside a callback, so two incarnations never are; while it is,
      opening the database again is refused. */
  lemma OneIncarnationInside(actions: seq<Action>, i: nat, j: nat, k: Key, m: Key)
    requires Inside(Reached(actions), i, k) && Inside(Reached(actions), j, m)
    ensures i == j && Reached(actions).flock == Some(i)
    ensures forall a: Action | a.Open? :: Next(Reached(actions), a) == Reached(actions)
  {
    ReachedInv(actions);
  }

  // ----- rows over time

  /** What later steps can never change about an accepted row, and what they can no longer change
      once it is terminal. */
  predicate Later(r: Row, r': Row) {
    && r'.runId == r.runId && r'.parameters == r.parameters
    && r.events <= r'.events && (r.truncated ==> r'.truncated)
    && (r.cancelRequested ==> r'.cancelRequested)
    && (r.started.Some? ==> r'.started == r.started)
    && (Terminal(r.status) ==>
          && r'.status == r.status && r'.dispatch == r.dispatch && r'.inference == r.inference
          && r'.result == r.result && r'.cancelRequested == r.cancelRequested
          && r'.started == r.started && r'.finished == r.finished
          && (!r.status.Cancelled? ==> r'.physical == r.physical && r'.error == r.error))
  }

  /** The part of the invariant that one step on one row needs. */
  predicate RowFacts(w: World, a: Action, k: Key) {
    && k in w.rows && RowOk(w.rows[k])
    && (!a.Open? && a.inc in w.incs ==> Fits(w, a.inc, k))
  }

  /** `Later`, and unless `posting` a terminal row keeps its physical status and error as well. */
  predicate LaterStep(r: Row, r': Row, posting: bool) {
    && Later(r, r')
    && (Terminal(r.status) && !posting ==> r'.physical == r.physical && r'.error == r.error)
  }

  lemma StartLater(r: Row, hasCancel: bool, now: real, maxEvents: nat)
    requires RowOk(r)
    ensures r.status.CancelRequested? ==> LaterStep(r, CancelledBeforeDispatch(r, hasCancel, now, maxEvents), false)
    ensures r.status.Accepted? ==> LaterStep(r, StartedRow(r, now, maxEvents), false)
  {
  }

  lemma FinishLater(r: Row, cancelled: bool, o: Outcome, now: real, maxEvents: nat)
    requires !Terminal(r.status)
    ensures LaterStep(r, FinishedRow(r, cancelled, o, now, maxEvents), false)
  {
  }

  lemma WorkerStartLater(l: Local, j: Key, now: real, k: Key)
    requires k in l.rows && RowOk(l.rows[k])
    ensures k in StartWorker(l, j, now).rows && LaterStep(l.rows[k], StartWorker(l, j, now).rows[k], false)
  {
    if j == k {
      StartLater(l.rows[k], k in l.reg.runtimes && l.reg.runtimes[k].hasCancel, now, l.reg.maxEvents);
    }
  }

  lemma WorkerFinishLater(l: Local, j: Key, now: real, k: Key)
    requires k in l.rows && (!l.reg.closed && k in l.reg.workers ==> WorkerFits(l.rows[k], l.reg.workers[k]))
    ensures k in FinishWorker(l, j, now).rows && LaterStep(l.rows[k], FinishWorker(l, j, now).rows[k], false)
  {
    if j == k && k in l.reg.workers && l.reg.workers[k].Left? && !l.reg.closed {
      var event := k in l.reg.runtimes && l.reg.runtimes[k].cancelEvent;
      FinishLater(l.rows[k], event || l.rows[k].cancelRequested, l.reg.workers[k].outcome, now, l.reg.maxEvents);
    }
  }

  lemma WorkerStepLater(w: World, a: Action, k: Key)
    requires RowFacts(w, a, k) && (a.DoStart? || a.DoLeave? || a.DoFinish?)
    ensures k in Next(w, a).rows && LaterStep(w.rows[k], Next(w, a).rows[k], false)
  {
    if a.inc in w.incs {
      if a.DoStart? {
        WorkerStartLater(At(w, a.inc), a.key, a.now, k);
      } else if a.DoFinish? {
        WorkerFinishLater(At(w, a.inc), a.key, a.now, k);
      }
    }
  }

  lemma CancelLater(l: Local, j: Key, k: Key)
    requires k in l.rows && RowOk(l.rows[k])
    ensures k in Cancel(l, j).rows && LaterStep(l.rows[k], Cancel(l, j).rows[k], false)
  {
  }

  lemma PostLater(l: Local, j: Key, k: Key)
    requires k in l.rows && RowOk(l.rows[k]) && (k in l.reg.cancels ==> l.rows[k].cancelRequested)
    ensures k in PostCancel(l, j).rows && LaterStep(l.rows[k], PostCancel(l, j).rows[k], j == k)
  {
  }

  lemma CancelStepLater(w: World, a: Action, k: Key)
    requires RowFacts(w, a, k)
    requires a.DoCancel? || a.DoRegister? || a.DoEnterCancel? || a.DoLeaveCancel? || a.DoPost? || a.DoExitCancel?
    ensures k in Next(w, a).rows && LaterStep(w.rows[k], Next(w, a).rows[k], a.DoPost? && a.key == k)
  {
    if a.inc in w.incs {
      if a.DoCancel? {
        CancelLater(At(w, a.inc), a.key, k);
      } else if a.DoPost? {
        PostLater(At(w, a.inc), a.key, k);
      } else {
        assert Next(w, a).rows == w.rows;
      }
    }
  }

  lemma AbandonLater(r: Row, event: string, maxEvents: nat)
    ensures LaterStep(r, AbandonedRow(r, event, maxEvents), false)
  {
  }

  lemma AppendLater(r: Row, e: Event, maxEvents: nat)
    ensures LaterStep(r, AppendEvent(r, e, maxEvents), false)
  {
  }

  lemma OtherStepLater(w: World, a: Action, k: Key)
    requires RowFacts(w, a, k)
    requires a.Open? || a.Crash? || a.DoSubmit? || a.DoStage? || a.DoClose? || a.DoCloseStore?
    ensures k in Next(w, a).rows && LaterStep(w.rows[k], Next(w, a).rows[k], false)
  {
    if a.Open? {
      AbandonLater(w.rows[k], "recovered_unknown", a.maxEvents);
    } else if a.DoClose? && a.inc in w.incs {
      AbandonLater(w.rows[k], "closed_unknown", w.incs[a.inc].maxEvents);
    } else if a.DoStage? && a.inc in w.incs {
      AppendLater(w.rows[k], a.event, w.incs[a.inc].maxEvents);
    }
  }

  lemma StepLater(w: World, a: Action, k: Key)
    requires RowFacts(w, a, k)
    ensures k in Next(w, a).rows && LaterStep(w.rows[k], Next(w, a).rows[k], a.DoPost? && a.key == k)
  {
    if a.DoStart? || a.DoLeave? || a.DoFinish? {
      WorkerStepLater(w, a, k);
    } else if a.Open? || a.Crash? || a.DoSubmit? || a.DoStage? || a.DoClose? || a.DoCloseStore? {
      OtherStepLater(w, a, k);
    } else {
      CancelStepLater(w, a, k);
    }
  }

  /** Over any later run, through any number of crashes and restarts, a row keeps its identity, and
      a terminal row keeps its status, dispatch, inference, result and times. */
  lemma {:induction false} RunLater(w: World, actions: seq<Action>, k: Key)
    requires Inv(w) && k in w.rows
    ensures k in Run(w, actions).rows && Later(w.rows[k], Run(w, actions).rows[k])
    decreases |actions|
  {
    if actions != [] {
      assert !actions[0].Open? && actions[0].inc in w.incs ==> Fits(w, actions[0].inc, k);
      StepLater(w, actions[0], k);
      NextKeeps(w, actions[0]);
      RunLater(Next(w, actions[0]), actions[1..], k);
    }
  }

  // ----- rows that no thread can reach

  /** No thread and no listing of this registry is about job `k`. */
  predicate Idle(reg: Registry, k: Key) {
    k !in reg.workers && k !in reg.listed && k !in reg.cancels
  }

  /** The job is over, and every registry that still takes requests has nothing to do with it. */
  predicate Settled(w: World, k: Key) {
    && k in w.rows && Terminal(w.rows[k].status)
    && forall i | i in w.incs && !w.incs[i].closed :: Idle(w.incs[i], k)
  }

  /** Only stage events were added. */
  predicate OnlyEvents(r: Row, r': Row) {
    r' == r.(events := r'.events, truncated := r'.truncated) && r.events <= r'.events
  }

  predicate SettledIn(l: Local, k: Key) {
    k in l.rows && Terminal(l.rows[k].status) && (l.reg.closed || Idle(l.reg, k))
  }

  predicate StaysSettled(l: Local, l': Local, k: Key) {
    k in l.rows && SettledIn(l', k) && OnlyEvents(l.rows[k], l'.rows[k])
  }

  lemma WorkerSettled(l: Local, j: Key, now: real, o: Outcome, k: Key)
    requires SettledIn(l, k)
    ensures StaysSettled(l, StartWorker(l, j, now), k) && StaysSettled(l, FinishWorker(l, j, now), k)
    ensures StaysSettled(l, l.(reg := LeaveExecute(l.reg, j, o)), k)
  {
  }

  lemma CancelSettled(l: Local, j: Key, o: Outcome, k: Key)
    requires SettledIn(l, k)
    ensures StaysSettled(l, Cancel(l, j), k) && StaysSettled(l, PostCancel(l, j), k)
    ensures StaysSettled(l, l.(reg := RegisterCancel(l.reg, j)), k) && StaysSettled(l, l.(reg := EnterCancel(l.reg, j)), k)
    ensures StaysSettled(l, l.(reg := LeaveCancel(l.reg, j, o)), k) && StaysSettled(l, l.(reg := ExitCancel(l.reg, j)), k)
  {
  }

  lemma CallerSettled(l: Local, j: Key, parameters: string, hasCancel: bool, inference: bool, runId: nat, e: Event, k: Key)
    requires SettledIn(l, k)
    ensures StaysSettled(l, Submit(l, j, parameters, hasCancel, inference, runId), k) && StaysSettled(l, RecordStage(l, j, e), k)
    ensures StaysSettled(l, BeginClose(l), k) && StaysSettled(l, l.(reg := CloseStore(l.reg)), k)
  {
  }

  /** The step works on the registry `a.inc` alone, and there it keeps the job settled. */
  predicate LocalSettles(w: World, a: Action, k: Key)
    requires !a.Open? && !a.Crash?
  {
    var w' := Next(w, a);
    && a.inc in w.incs && w'.incs == w.incs[a.inc := w'.incs[a.inc]]
    && StaysSettled(At(w, a.inc), At(w', a.inc), k)
  }

  lemma ThreadSettles(w: World, a: Action, k: Key)
    requires a.DoStart? || a.DoLeave? || a.DoFinish?
    requires a.inc in w.incs && SettledIn(At(w, a.inc), k)
    ensures LocalSettles(w, a, k)
  {
    var l := At(w, a.inc);
    match a
    case DoStart(_, j, now) => WorkerSettled(l, j, now, Raises(""), k);
    case DoLeave(_, j, o) => WorkerSettled(l, j, 0.0, o, k);
    case DoFinish(_, j, now) => WorkerSettled(l, j, now, Raises(""), k);
  }

  lemma CancelSettles(w: World, a: Action, k: Key)
    requires a.DoCancel? || a.DoPost?
    requires a.inc in w.incs && SettledIn(At(w, a.inc), k)
    ensures LocalSettles(w, a, k)
  {
    CancelSettled(At(w, a.inc), a.key, Raises(""), k);
  }

  lemma CancelThreadSettles(w: World, a: Action, k: Key)
    requires a.DoRegister? || a.DoEnterCancel? || a.DoLeaveCancel? || a.DoExitCancel?
    requires a.inc in w.incs && SettledIn(At(w, a.inc), k)
    ensures LocalSettles(w, a, k)
  {
    CancelSettled(At(w, a.inc), a.key, if a.DoLeaveCancel? then a.outcome else Raises(""), k);
  }

  lemma CallerSettles(w: World, a: Action, k: Key)
    requires a.DoSubmit? || a.DoStage?
    requires a.inc in w.incs && SettledIn(At(w, a.inc), k)
    ensures LocalSettles(w, a, k)
  {
    if a.DoSubmit? {
      CallerSettled(At(w, a.inc), a.key, a.parameters, a.hasCancel, a.inference, w.nextRun, Plain(""), k);
    } else {
      CallerSettled(At(w, a.inc), a.key, "", false, false, 0, a.event, k);
    }
  }

  lemma CloseSettles(w: World, a: Action, k: Key)
    requires a.DoClose? || a.DoCloseStore?
    requires a.inc in w.incs && SettledIn(At(w, a.inc), k)
    ensures LocalSettles(w, a, k)
  {
    CallerSettled(At(w, a.inc), k, "", false, false, 0, Plain(""), k);
  }

  lemma OpenSettled(w: World, a: Action, k: Key)
    requires Settled(w, k) && (a.Open? || a.Crash?)
    ensures Settled(Next(w, a), k) && OnlyEvents(w.rows[k], Next(w, a).rows[k])
  {
  }

  lemma SettledStep(w: World, a: Action, k: Key)
    requires Settled(w, k)
    ensures Settled(Next(w, a), k) && OnlyEvents(w.rows[k], Next(w, a).rows[k])
  {
    if a.Open? || a.Crash? {
      OpenSettled(w, a, k);
    } else if a.inc in w.incs {
      if a.DoStart? || a.DoLeave? || a.DoFinish? {
        ThreadSettles(w, a, k);
      } else if a.DoSubmit? || a.DoStage? {
        CallerSettles(w, a, k);
      } else if a.DoClose? || a.DoCloseStore? {
        CloseSettles(w, a, k);
      } else if a.DoCancel? || a.DoPost? {
        CancelSettles(w, a, k);
      } else {
        CancelThreadSettles(w, a, k);
      }
    }
  }

  lemma {:induction false} SettledForGood(w: World, actions: seq<Action>, k: Key)
    requires Settled(w, k)
    ensures Settled(Run(w, actions), k) && OnlyEvents(w.rows[k], Run(w, actions).rows[k])
    decreases |actions|
  {
    if actions != [] {
      SettledStep(w, actions[0], k);
      SettledForGood(Next(w, actions[0]), actions[1..], k);
    }
  }

  /** The step abandons whatever is unfinished: it recovers an unlocked database, or shuts its registry down. */
  predicate Abandons(w: World, a: Action) {
    (a.Open? && w.flock.None?) || (a.DoClose? && a.inc in w.incs && !w.incs[a.inc].closed)
  }

  /** What was decided about row `r`, up to its event log: a finished job keeps everything, and an unfinished one
      is `unknown`, with the physical status that its recorded cancel left it. */
  predicate AbandonedAs(r: Row, r': Row) {
    OnlyEvents(if Terminal(r.status) then r
               else r.(status := Status.Unknown,
                       dispatch := Dispatch.Unknown,
                       inference := if r.inference.NotRequested? then Inference.NotRequested else Inference.Unknown,
                       physical := if r.cancelRequested then StopUnconfirmed else Physical.Unknown),
               r')
  }

  lemma AbandonDecides(r: Row, event: string, maxEvents: nat)
    ensures AbandonedAs(r, AbandonedRow(r, event, maxEvents)) && Terminal(AbandonedRow(r, event, maxEvents).status)
  {
  }

  lemma AbandonSettles(w: World, a: Action, k: Key)
    requires LockOk(w) && k in w.rows && Abandons(w, a)
    ensures Settled(Next(w, a), k) && AbandonedAs(w.rows[k], Next(w, a).rows[k])
  {
    AbandonDecides(w.rows[k], "recovered_unknown", if a.Open? then a.maxEvents else 0);
    AbandonDecides(w.rows[k], "closed_unknown", if a.DoClose? then w.incs[a.inc].maxEvents else 0);
  }

  lemma StaysDecided(r: Row, r1: Row, r2: Row)
    requires AbandonedAs(r, r1) && OnlyEvents(r1, r2)
    ensures AbandonedAs(r, r2)
  {
  }

  /** What recovery and shutdown decide about a job is final, through any number of later crashes, restarts,
      cancels and late answers of its callbacks; only its event log grows. */
  lemma AbandonedForGood(w: World, a: Action, actions: seq<Action>, k: Key)
    requires Inv(w) && k in w.rows && Abandons(w, a)
    ensures k in Run(Next(w, a), actions).rows && AbandonedAs(w.rows[k], Run(Next(w, a), actions).rows[k])
  {
    AbandonSettles(w, a, k);
    SettledForGood(Next(w, a), actions, k);
    StaysDecided(w.rows[k], Next(w, a).rows[k], Run(Next(w, a), actions).rows[k]);
  }

  /** A job that was accepted before a restart is never replayed: whatever happens after the open,
      its execute callback has been entered afterwards exactly if it had been entered before. */
  lemma NeverReplayed(w: World, maxJobs: nat, maxEvents: nat, actions: seq<Action>, k: Key)
    requires Inv(w) && w.flock.None? && k in w.rows
    ensures EnteredBy(Run(Next(w, Open(maxJobs, maxEvents)), actions).calls, k) <==> EnteredBy(w.calls, k)
  {
    var w1 := Next(w, Open(maxJobs, maxEvents));
    NextKeeps(w, Open(maxJobs, maxEvents));
    AbandonSettles(w, Open(maxJobs, maxEvents), k);
    RunLater(w1, actions, k);
    RunKeeps(w1, actions);
    assert RowTrue(w, k) && RowTrue(w1, k) && RowTrue(Run(w1, actions), k);
  }

  /** A retry of an accepted request, in this or any later incarnation, gets the first run's handle
      if its parameters are equal and a conflict if they are not. */
  lemma RetryGetsSameRun(w: World, actions: seq<Action>, i: nat, k: Key, parameters: string, runId: nat)
    requires Inv(w) && k in w.rows
    requires i in Run(w, actions).incs && !Run(w, actions).incs[i].closed
    ensures SubmitReplyOf(At(Run(w, actions), i), k, parameters, runId) ==
            if parameters == w.rows[k].parameters then Handle(w.rows[k].runId) else Conflict
  {
    RunLater(w, actions, k);
  }

  // ----- what a row says in every reachable state

  /** Dispatch mirrors status, a recorded cancel excludes `completed` and `failed`, and a result is
      stored exactly for `completed`. */
  lemma RowsConsistent(actions: seq<Action>, k: Key)
    requires k in Reached(actions).rows
    ensures var r := Reached(actions).rows[k];
      && r.dispatch == SameName(r.status)
      && (r.cancelRequested ==> r.status.CancelRequested? || r.status.Cancelled? || r.status.Unknown?)
      && (r.status.CancelRequested? || r.status.Cancelled? ==> r.cancelRequested)
      && (r.result.Some? <==> r.status.Completed?)
      && (r.finished.Some? <==> r.status.Completed? || r.status.Failed? || r.status.Cancelled?)
  {
    ReachedInv(actions);
    assert RowOk(Reached(actions).rows[k]);
  }

  /** `completed`, `failed`, a start time and a `stopped` robot are each backed by what this job's own
      callbacks did and said. */
  lemma RowsTruthful(actions: seq<Action>, k: Key)
    requires k in Reached(actions).rows
    ensures k in Reached(actions).accepted
    ensures var w := Reached(actions);
      var r, i := w.rows[k], w.accepted[k].inc;
      && (r.started.Some? <==> EnteredBy(w.calls, k))
      && (r.physical.Stopped? ==> StopReported(w.calls, i, k))
      && (r.status.Completed? ==> r.result.Some? && ExecuteOut(i, k, Returns(r.result.value)) in w.calls)
      && (r.status.Failed? ==> exists e :: ExecuteOut(i, k, Raises(e)) in w.calls && r.error == ErrorText(Raises(e)))
  {
    ReachedInv(actions);
    assert RowTrue(Reached(actions), k);
  }

  /** `not_requested` inference is kept exactly until a cancel is recorded. */
  lemma NotRequestedUntilCancelled(actions: seq<Action>, k: Key)
    requires k in Reached(actions).rows
    ensures k in Reached(actions).accepted
    ensures Reached(actions).rows[k].inference.NotRequested? <==>
            !Reached(actions).accepted[k].inference && !Reached(actions).rows[k].cancelRequested
  {
    ReachedInv(actions);
  }

  lemma {:induction false} RunAppend(w: World, actions: seq<Action>, a: Action)
    ensures Run(w, actions + [a]) == Next(Run(w, actions), a)
    decreases |actions|
  {
    if actions == [] {
      assert Run(w, [a]) == Run(Next(w, a), []);
    } else {
      assert (actions + [a])[1..] == actions[1..] + [a];
      RunAppend(Next(w, actions[0]), actions[1..], a);
    }
  }
}
