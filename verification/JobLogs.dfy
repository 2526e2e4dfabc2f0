/** The event logs of jobs: what each step adds to them, and under which bound. */
module JobLogs {
  import opened Wrappers
  import opened JobModel
  import opened JobRuns
  import opened JobProofs
  import opened JobTheorems
  import opened JobSignals

  // ----- the bound

  /** What a row's log becomes when at most one event is added to it under a bound. */
  predicate Logs(r: Row, r': Row, bound: nat) {
    || (r'.events == r.events && r'.truncated == r.truncated)
    || (|r.events| < bound && |r'.events| == |r.events| + 1 && r.events <= r'.events && r'.truncated == r.truncated)
    || (|r.events| >= bound && r'.events == r.events && r'.truncated)
  }

  lemma WorkerLogs(l: Local, k: Key, now: real)
    requires k in l.rows
    ensures Logs(l.rows[k], StartWorker(l, k, now).rows[k], l.reg.maxEvents)
    ensures Logs(l.rows[k], FinishWorker(l, k, now).rows[k], l.reg.maxEvents)
  {
  }

  lemma CallerLogs(l: Local, k: Key, e: Event)
    requires k in l.rows
    ensures Logs(l.rows[k], Cancel(l, k).rows[k], l.reg.maxEvents)
    ensures Logs(l.rows[k], PostCancel(l, k).rows[k], l.reg.maxEvents)
    ensures Logs(l.rows[k], RecordStage(l, k, e).rows[k], l.reg.maxEvents)
    ensures Logs(l.rows[k], BeginClose(l).rows[k], l.reg.maxEvents)
  {
  }

  /** The bound under which a step writes events. */
  function BoundOf(w: World, a: Action): nat {
    if a.Open? then a.maxEvents else if a.inc in w.incs then w.incs[a.inc].maxEvents else 0
  }

  lemma OtherRowsStay(w: World, a: Action, k: Key)
    requires k in w.rows && !a.Open? && !a.DoClose? && !a.Crash? && (a.DoCloseStore? || a.key != k)
    ensures k in Next(w, a).rows && Next(w, a).rows[k] == w.rows[k]
  {
  }

  lemma WorkerRowLogs(w: World, a: Action, k: Key)
    requires k in w.rows && (a.DoStart? || a.DoFinish?) && a.key == k && a.inc in w.incs
    ensures k in Next(w, a).rows && Logs(w.rows[k], Next(w, a).rows[k], w.incs[a.inc].maxEvents)
  {
    WorkerLogs(At(w, a.inc), k, a.now);
  }

  lemma CancelRowLogs(w: World, a: Action, k: Key)
    requires k in w.rows && (a.DoCancel? || a.DoPost?) && a.key == k && a.inc in w.incs
    ensures k in Next(w, a).rows && Logs(w.rows[k], Next(w, a).rows[k], w.incs[a.inc].maxEvents)
  {
    CallerLogs(At(w, a.inc), k, Plain(""));
  }

  lemma StageRowLogs(w: World, a: Action, k: Key)
    requires k in w.rows && (a.DoClose? || (a.DoStage? && a.key == k)) && a.inc in w.incs
    ensures k in Next(w, a).rows && Logs(w.rows[k], Next(w, a).rows[k], w.incs[a.inc].maxEvents)
  {
    CallerLogs(At(w, a.inc), k, if a.DoStage? then a.event else Plain(""));
  }

  /** A submit writes no row that is there, and the steps of callbacks and cancel threads write none. */
  lemma SilentStep(w: World, a: Action, k: Key)
    requires a.DoSubmit? || a.DoLeave? || a.DoRegister? || a.DoEnterCancel? || a.DoLeaveCancel? || a.DoExitCancel?
    requires k in w.rows && a.inc in w.incs
    ensures k in Next(w, a).rows && Next(w, a).rows[k] == w.rows[k]
  {
  }

  lemma CallerRowLogs(w: World, a: Action, k: Key)
    requires k in w.rows && !a.Open? && !a.Crash? && !a.DoCloseStore? && !a.DoStart? && !a.DoFinish?
    requires (a.DoClose? || a.key == k) && a.inc in w.incs
    ensures k in Next(w, a).rows && Logs(w.rows[k], Next(w, a).rows[k], w.incs[a.inc].maxEvents)
  {
    if a.DoCancel? || a.DoPost? {
      CancelRowLogs(w, a, k);
    } else if a.DoClose? || a.DoStage? {
      StageRowLogs(w, a, k);
    } else {
      SilentStep(w, a, k);
    }
  }

  /** Every step adds at most one event to a row: one if there is room, and a mark on the row if not. */
  lemma NextLogs(w: World, a: Action, k: Key)
    requires k in w.rows
    ensures k in Next(w, a).rows && Logs(w.rows[k], Next(w, a).rows[k], BoundOf(w, a))
  {
    if a.Open? || a.Crash? {
    } else if a.inc in w.incs {
      if a.DoCloseStore? || (!a.DoClose? && a.key != k) {
        OtherRowsStay(w, a, k);
      } else if a.DoStart? || a.DoFinish? {
        WorkerRowLogs(w, a, k);
      } else {
        CallerRowLogs(w, a, k);
      }
    }
  }

  predicate LogBounded(w: World, least: nat, most: nat) {
    && (forall k | k in w.rows :: |w.rows[k].events| <= most && (w.rows[k].truncated ==> |w.rows[k].events| >= least))
    && (forall i | i in w.incs :: least <= w.incs[i].maxEvents <= most)
  }

  lemma LogStep(w: World, a: Action, least: nat, most: nat)
    requires most >= 1 && LogBounded(w, least, most) && (a.Open? ==> least <= a.maxEvents <= most)
    ensures LogBounded(Next(w, a), least, most)
  {
    var w' := Next(w, a);
    forall k | k in w'.rows
      ensures |w'.rows[k].events| <= most && (w'.rows[k].truncated ==> |w'.rows[k].events| >= least)
    {
      if k in w.rows {
        NextLogs(w, a, k);
      } else {
        NewRowOnly(w, a, k);
      }
    }
    forall i | i in w'.incs
      ensures least <= w'.incs[i].maxEvents <= most
    {
      SameBounds(w, a, i);
    }
  }

  lemma NewRowOnly(w: World, a: Action, k: Key)
    requires k in Next(w, a).rows && k !in w.rows
    ensures !Next(w, a).rows[k].truncated && |Next(w, a).rows[k].events| == 1
  {
  }

  lemma SameBounds(w: World, a: Action, i: nat)
    requires i in Next(w, a).incs
    ensures || (i in w.incs && Next(w, a).incs[i].maxEvents == w.incs[i].maxEvents)
            || (a.Open? && Next(w, a).incs[i].maxEvents == a.maxEvents)
  {
  }

  /** A log holds no more events than the largest bound any process was given, and it is marked as cut off only
      where it has reached the smallest. */
  lemma {:induction false} LogHolds(w: World, actions: seq<Action>, least: nat, most: nat)
    requires most >= 1 && LogBounded(w, least, most)
    requires forall n | 0 <= n < |actions| && actions[n].Open? :: least <= actions[n].maxEvents <= most
    ensures LogBounded(Run(w, actions), least, most)
    decreases |actions|
  {
    if actions != [] {
      LogStep(w, actions[0], least, most);
      LogHolds(Next(w, actions[0]), actions[1..], least, most);
    }
  }

  /** An error is kept with at most 1024 of its characters. */
  lemma ErrorIsCut(o: Outcome)
    ensures ErrorText(o).Some? <==> o.Raises?
    ensures o.Raises? ==> var text := ErrorText(o).value;
      text <= o.error && |text| == if |o.error| > 1024 then 1024 else |o.error|
  {
  }

  // ----- what is added

  /** One event is added to a row's log if there is room, and the log is marked as cut off if not. */
  predicate Adds(r: Row, r': Row, e: Event, bound: nat) {
    if |r.events| < bound then r'.events == r.events + [e] && r'.truncated == r.truncated
    else r'.events == r.events && r'.truncated
  }

  /** In every run a stage of a job of an open registry is added to its log, and changes nothing else. */
  lemma StageIsLogged(actions: seq<Action>, i: nat, k: Key, e: Event)
    requires i in Reached(actions).incs && !Reached(actions).incs[i].closed && k in Reached(actions).rows
    ensures var w, w' := Reached(actions), Next(Reached(actions), DoStage(i, k, e));
      && k in w'.rows && Adds(w.rows[k], w'.rows[k], e, w.incs[i].maxEvents)
      && w'.rows[k] == w.rows[k].(events := w'.rows[k].events, truncated := w'.rows[k].truncated)
      && w' == w.(rows := w.rows[k := w'.rows[k]])
  {
    var w := Reached(actions);
    assert w.incs[i := w.incs[i]] == w.incs;
  }

  /** In every run the answer of a cancel callback of an open registry reaches its row: it says what is known of the
      robot, an exception is the job's error, and both are logged. */
  lemma AnswerIsPosted(actions: seq<Action>, i: nat, k: Key)
    requires i in Reached(actions).incs && !Reached(actions).incs[i].closed
    requires k in Reached(actions).incs[i].cancels && Reached(actions).incs[i].cancels[k].Answered?
    ensures k in Reached(actions).rows && k in Next(Reached(actions), DoPost(i, k)).rows
    ensures var w, o := Reached(actions), Reached(actions).incs[i].cancels[k].outcome;
      var r, r' := w.rows[k], Next(w, DoPost(i, k)).rows[k];
      && r'.physical == (if o.Returns? then PhysicalFromCancel(o.value) else StopUnconfirmed)
      && r'.error == (if o.Raises? then ErrorText(o) else r.error)
      && Adds(r, r', Event("cancel_result", None, ErrorText(o)), w.incs[i].maxEvents)
      && r' == r.(physical := r'.physical, error := r'.error, events := r'.events, truncated := r'.truncated)
  {
    ReachedSignals(actions, i, k);
    assert ThreadFacts(At(Reached(actions), i), k);
    ReachedInv(actions);
    assert Fits(Reached(actions), i, k);
    AnswerReaches(At(Reached(actions), i), k);
  }

  lemma AnswerReaches(l: Local, k: Key)
    requires ThreadFacts(l, k) && Signals(l, k) && !l.reg.closed && k in l.reg.runtimes && k in l.rows
    requires k in l.reg.cancels && l.reg.cancels[k].Answered? && l.rows[k].cancelRequested
    ensures Posts(l, k)
  {
  }

  /** An open logs in every unfinished row that it was recovered, a shutdown that it was closed; finished rows they
      leave alone. */
  lemma AbandonIsLogged(w: World, i: nat, maxJobs: nat, maxEvents: nat, k: Key)
    requires k in w.rows
    ensures k in Next(w, Open(maxJobs, maxEvents)).rows && k in Next(w, DoClose(i)).rows
    ensures Terminal(w.rows[k].status) ==>
      Next(w, Open(maxJobs, maxEvents)).rows[k] == Next(w, DoClose(i)).rows[k] == w.rows[k]
    ensures !Terminal(w.rows[k].status) && w.flock.None? ==>
      Adds(w.rows[k], Next(w, Open(maxJobs, maxEvents)).rows[k], Plain("recovered_unknown"), maxEvents)
    ensures !Terminal(w.rows[k].status) && i in w.incs && !w.incs[i].closed ==>
      Adds(w.rows[k], Next(w, DoClose(i)).rows[k], Plain("closed_unknown"), w.incs[i].maxEvents)
  {
  }
}
