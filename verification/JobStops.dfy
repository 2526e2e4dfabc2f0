/** When a confirmed stop of the robot is still on record at the end of a run. */
module JobStops {
  import opened Wrappers
  import opened JobModel
  import opened JobRuns
  import opened JobProofs
  import opened JobTheorems
  import opened Histories

  // ----- worlds along a run

  /** The world after the first `n` actions. */
  ghost function Upto(actions: seq<Action>, n: nat): World {
    Reached(if n <= |actions| then actions[..n] else actions)
  }

  lemma UptoNext(actions: seq<Action>, n: nat)
    requires n < |actions|
    ensures Upto(actions, n + 1) == Next(Upto(actions, n), actions[n])
  {
    RunAppend(INIT, actions[..n], actions[n]);
    assert actions[..n + 1] == actions[..n] + [actions[n]];
  }

  // ----- one step

  predicate StopIn(l: Local, k: Key) {
    k in l.rows && l.rows[k].physical.Stopped?
  }

  predicate StopOnRecord(w: World, k: Key) {
    k in w.rows && w.rows[k].physical.Stopped?
  }

  predicate ReportsStop(o: Outcome) {
    o.Returns? && CancelReportsStop(o.value)
  }

  /** The worker completes its job, which no cancel reached, and its callback reported a stop. */
  predicate CompletesStopped(l: Local, k: Key) {
    && k in l.reg.workers && l.reg.workers[k].Left?
    && !l.reg.closed && k in l.rows && !l.rows[k].cancelRequested
    && l.reg.workers[k].outcome.Returns? && ExecuteReportsStop(l.reg.workers[k].outcome.value)
  }

  /** The steps that put `stopped` on record: an answer of the cancel callback that confirms it, and a completed
      job that reports it. */
  predicate Confirms(w: World, a: Action, k: Key) {
    match a
    case DoPost(i, m) => m == k && i in w.incs && Posts(At(w, i), k) && ReportsStop(w.incs[i].cancels[k].outcome)
    case DoFinish(i, m, _) => m == k && i in w.incs && CompletesStopped(At(w, i), k)
    case _ => false
  }

  /** The steps after which the row says something else: recovery and shutdown while the job is unfinished,
      another cancel, a worker that finds the cancel before it began, and an answer that confirms nothing. */
  predicate Overwrites(w: World, a: Action, k: Key) {
    match a
    case Open(_, _) => w.flock.None? && k in w.rows && !Terminal(w.rows[k].status)
    case DoClose(i) => i in w.incs && !w.incs[i].closed && k in w.rows && !Terminal(w.rows[k].status)
    case DoCancel(i, m) => m == k && i in w.incs && Cancels(At(w, i), k)
    case DoStart(i, m, _) => m == k && i in w.incs && FindsCancel(At(w, i), k)
    case DoPost(i, m) => m == k && i in w.incs && Posts(At(w, i), k) && !ReportsStop(w.incs[i].cancels[k].outcome)
    case _ => false
  }

  predicate FindsCancel(l: Local, k: Key) {
    && !l.reg.closed && k in l.reg.listed && k in l.reg.workers && l.reg.workers[k].Spawned?
    && k in l.rows && l.rows[k].status.CancelRequested?
  }

  lemma StopAfterCancel(l: Local, j: Key, k: Key)
    ensures StopIn(Cancel(l, j), k) <==> StopIn(l, k) && !(j == k && Cancels(l, k))
  {
  }

  lemma StopAfterPost(l: Local, j: Key, k: Key)
    ensures StopIn(PostCancel(l, j), k) <==>
            if j == k && Posts(l, k) then ReportsStop(l.reg.cancels[k].outcome) else StopIn(l, k)
  {
    if k in l.reg.cancels && l.reg.cancels[k].Answered? && l.reg.cancels[k].outcome.Returns? {
      ParsersReadStops(l.reg.cancels[k].outcome.value);
    }
  }

  lemma StopAfterStart(l: Local, j: Key, now: real, k: Key)
    ensures StopIn(StartWorker(l, j, now), k) <==> StopIn(l, k) && !(j == k && FindsCancel(l, k))
  {
  }

  lemma StopAfterFinish(l: Local, j: Key, now: real, k: Key)
    requires k in l.rows ==> RowOk(l.rows[k])
    requires !l.reg.closed && k in l.reg.workers && k in l.rows ==> WorkerFits(l.rows[k], l.reg.workers[k])
    requires !l.reg.closed && k in l.reg.runtimes && l.reg.runtimes[k].cancelEvent && k in l.rows ==> l.rows[k].cancelRequested
    ensures StopIn(FinishWorker(l, j, now), k) <==> StopIn(l, k) || (j == k && CompletesStopped(l, k))
  {
    if k in l.reg.workers && l.reg.workers[k].Left? && l.reg.workers[k].outcome.Returns? {
      ParsersReadStops(l.reg.workers[k].outcome.value);
    }
  }

  lemma StopAfterCaller(l: Local, j: Key, parameters: string, hasCancel: bool, inference: bool, runId: nat, e: Event, k: Key)
    ensures StopIn(Submit(l, j, parameters, hasCancel, inference, runId), k) == StopIn(l, k)
    ensures StopIn(RecordStage(l, j, e), k) == StopIn(l, k)
    ensures StopIn(BeginClose(l), k) <==> StopIn(l, k) && (l.reg.closed || Terminal(l.rows[k].status))
  {
  }

  predicate StopStepOk(w: World, a: Action, k: Key) {
    StopOnRecord(Next(w, a), k) == (!Overwrites(w, a, k) && (StopOnRecord(w, k) || Confirms(w, a, k)))
  }

  lemma ThreadStopStep(w: World, a: Action, k: Key)
    requires k in w.rows ==> RowFacts(w, a, k)
    requires a.DoStart? || a.DoFinish? || a.DoCancel? || a.DoPost?
    ensures StopStepOk(w, a, k)
  {
    if a.inc in w.incs {
      var l := At(w, a.inc);
      match a
      case DoStart(_, j, now) => StopAfterStart(l, j, now, k);
      case DoFinish(_, j, now) => StopAfterFinish(l, j, now, k);
      case DoCancel(_, j) => StopAfterCancel(l, j, k);
      case DoPost(_, j) => StopAfterPost(l, j, k);
    }
  }

  lemma OtherStopStep(w: World, a: Action, k: Key)
    requires !a.DoStart? && !a.DoFinish? && !a.DoCancel? && !a.DoPost?
    ensures StopStepOk(w, a, k)
  {
    if !a.Open? && a.inc in w.incs {
      var l := At(w, a.inc);
      match a
      case DoSubmit(_, j, p, c, inf) => StopAfterCaller(l, j, p, c, inf, w.nextRun, Plain(""), k);
      case DoStage(_, j, e) => StopAfterCaller(l, j, "", false, false, 0, e, k);
      case DoClose(_) => StopAfterCaller(l, k, "", false, false, 0, Plain(""), k);
      case _ =>
    }
  }

  lemma StopStep(w: World, a: Action, k: Key)
    requires k in w.rows ==> RowFacts(w, a, k)
    ensures StopStepOk(w, a, k)
  {
    if a.DoStart? || a.DoFinish? || a.DoCancel? || a.DoPost? {
      ThreadStopStep(w, a, k);
    } else {
      OtherStopStep(w, a, k);
    }
  }

  // ----- whole runs

  ghost function ConfirmSteps(actions: seq<Action>, k: Key): nat -> bool {
    (j: nat) => j < |actions| && Confirms(Upto(actions, j), actions[j], k)
  }

  ghost function OverwriteSteps(actions: seq<Action>, k: Key): nat -> bool {
    (j: nat) => j < |actions| && Overwrites(Upto(actions, j), actions[j], k)
  }

  lemma StopStepAt(actions: seq<Action>, j: nat, k: Key)
    requires j < |actions|
    ensures StopOnRecord(Upto(actions, j + 1), k) ==
            (!OverwriteSteps(actions, k)(j) && (StopOnRecord(Upto(actions, j), k) || ConfirmSteps(actions, k)(j)))
  {
    UptoNext(actions, j);
    ReachedInv(actions[..j]);
    var w, a := Upto(actions, j), actions[j];
    assert k in w.rows && !a.Open? && a.inc in w.incs ==> Fits(w, a.inc, k);
    StopStep(w, a, k);
  }

  /** `stopped` is on record at the end of a run exactly if some step confirmed a stop and no later one
      overwrote it. */
  lemma StoppedIff(actions: seq<Action>, k: Key)
    ensures StopOnRecord(Reached(actions), k) <==>
            exists j: nat :: LastOn(|actions|, ConfirmSteps(actions, k), OverwriteSteps(actions, k), j)
  {
    var n := |actions|;
    var on := (j: nat) => StopOnRecord(Upto(actions, j), k);
    forall j: nat | j < n
      ensures on(j + 1) == (!OverwriteSteps(actions, k)(j) && (on(j) || ConfirmSteps(actions, k)(j)))
    {
      StopStepAt(actions, j, k);
    }
    assert actions[..n] == actions;
    assert !on(0);
    FlagIff(0, n, on, ConfirmSteps(actions, k), OverwriteSteps(actions, k));
  }

  // ----- a confirmed stop is lost

  /** The worker has not looked at its row yet, a cancel is recorded, and its callback stands at `p`. */
  predicate CancelAhead(w: World, k: Key, p: CancelPhase) {
    && 0 in w.incs && !w.incs[0].closed && k in w.rows && w.rows[k].status.CancelRequested?
    && k in w.incs[0].listed && k in w.incs[0].workers && w.incs[0].workers[k].Spawned?
    && k in w.incs[0].runtimes && w.incs[0].runtimes[k].hasCancel
    && k in w.incs[0].cancels && w.incs[0].cancels[k] == p
  }

  lemma CancelDecided(k: Key) returns (actions: seq<Action>)
    ensures CancelAhead(Reached(actions), k, Decided)
  {
    actions := [Open(8, 8)] + [DoSubmit(0, k, "", true, true)] + [DoCancel(0, k)];
    var w1 := Next(INIT, Open(8, 8));
    var w2 := Next(w1, DoSubmit(0, k, "", true, true));
    RunAppend(INIT, [], Open(8, 8));
    RunAppend(INIT, [Open(8, 8)], DoSubmit(0, k, "", true, true));
    RunAppend(INIT, [Open(8, 8)] + [DoSubmit(0, k, "", true, true)], DoCancel(0, k));
    assert Accepts(At(w1, 0), k);
    assert Cancels(At(w2, 0), k);
  }

  lemma CancelMoves(w: World, k: Key)
    ensures CancelAhead(w, k, Decided) ==> CancelAhead(Next(w, DoRegister(0, k)), k, Registered)
    ensures CancelAhead(w, k, Registered) ==> CancelAhead(Next(w, DoEnterCancel(0, k)), k, Calling)
  {
  }

  lemma CancelAnswers(w: World, k: Key, o: Outcome)
    ensures CancelAhead(w, k, Calling) ==> CancelAhead(Next(w, DoLeaveCancel(0, k, o)), k, Answered(o))
    ensures CancelAhead(w, k, Answered(o)) ==> CancelAhead(Next(w, DoPost(0, k)), k, Posted)
    ensures CancelAhead(w, k, Answered(Returns(Boolean(true)))) ==> Next(w, DoPost(0, k)).rows[k].physical.Stopped?
  {
  }

  /** The overwriting is reachable: the cancel callback confirms the stop before the worker thread gets
      to its first critical section, which then writes `stop_requested` into the final record. */
  lemma ConfirmedStopIsLost(k: Key)
    ensures exists actions, a ::
      && k in Reached(actions).rows && Reached(actions).rows[k].physical.Stopped?
      && k in Next(Reached(actions), a).rows
      && Next(Reached(actions), a).rows[k].status.Cancelled?
      && Next(Reached(actions), a).rows[k].physical.StopRequested?
  {
    var o := Returns(Boolean(true));
    var a0 := CancelDecided(k);
    RunAppend(INIT, a0, DoRegister(0, k));
    CancelMoves(Reached(a0), k);
    var a1 := a0 + [DoRegister(0, k)];
    RunAppend(INIT, a1, DoEnterCancel(0, k));
    CancelMoves(Reached(a1), k);
    var a2 := a1 + [DoEnterCancel(0, k)];
    RunAppend(INIT, a2, DoLeaveCancel(0, k, o));
    CancelAnswers(Reached(a2), k, o);
    var a3 := a2 + [DoLeaveCancel(0, k, o)];
    RunAppend(INIT, a3, DoPost(0, k));
    CancelAnswers(Reached(a3), k, o);
    var a4 := a3 + [DoPost(0, k)];
    StartOverwrites(Reached(a4), k);
    var last := DoStart(0, k, 0.0);
    assert Next(Reached(a4), last).rows[k].status.Cancelled?;
  }

  lemma StartOverwrites(w: World, k: Key)
    requires CancelAhead(w, k, Posted)
    ensures k in Next(w, DoStart(0, k, 0.0)).rows
    ensures Next(w, DoStart(0, k, 0.0)).rows[k].status.Cancelled?
    ensures Next(w, DoStart(0, k, 0.0)).rows[k].physical.StopRequested?
  {
  }
}
