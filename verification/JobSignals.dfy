/** How a recorded cancel reaches the threads of a live registry: the event that a running callback looks at, the
    cancel callback, and which jobs a cancel can still reach. */
module JobSignals {
  import opened Wrappers
  import opened JobModel
  import opened JobRuns
  import opened JobProofs
  import opened JobTheorems

  // ----- one registry

  predicate Working(reg: Registry, k: Key) {
    k in reg.workers && !reg.workers[k].Exited?
  }

  predicate Unfinished(l: Local, k: Key) {
    k in l.rows && !Terminal(l.rows[k].status)
  }

  /** The cancel callback has answered, and the answer was dealt with. */
  predicate AnswerPosted(reg: Registry, k: Key) {
    k in reg.cancels && (reg.cancels[k].Posted? || reg.cancels[k].Gone?)
  }

  /** What is true of the threads whether the registry is open or closed. */
  predicate ThreadsListed(reg: Registry, k: Key) {
    && (k in reg.workers <==> k in reg.runtimes)
    && (Working(reg, k) ==> k in reg.listed)
    && (reg.closed && k in reg.listed ==> k in reg.runtimes && reg.runtimes[k].cancelEvent)
  }

  /** In an open registry the unfinished jobs are exactly those with a worker, and each of the three records of a
      cancel says the same. */
  predicate OpenSignals(l: Local, k: Key) {
    var reg := l.reg;
    && (k in reg.listed <==> Unfinished(l, k)) && (k in reg.listed <==> Working(reg, k))
    && (k in reg.workers && reg.workers[k].Spawned? && k in l.rows ==> l.rows[k].started.None?)
    && (k in reg.runtimes ==>
          && k in l.rows && !l.rows[k].status.Unknown?
          && reg.runtimes[k].cancelEvent == reg.runtimes[k].cancelInvoked == l.rows[k].cancelRequested
          && (k in reg.cancels <==> reg.runtimes[k].hasCancel && l.rows[k].cancelRequested)
          && (l.rows[k].cancelRequested && !AnswerPosted(reg, k) ==> l.rows[k].physical == Awaited(l.rows[k], reg.runtimes[k].hasCancel)))
  }

  /** The physical status of a cancelled job that no answer of its cancel callback has reached. */
  function Awaited(r: Row, hasCancel: bool): Physical {
    if r.status.CancelRequested? || (r.started.None? && hasCancel) then StopRequested else StopUnconfirmed
  }

  predicate Signals(l: Local, k: Key) {
    ThreadsListed(l.reg, k) && (!l.reg.closed ==> OpenSignals(l, k))
  }

  /** The part of the invariant that is needed about the key. */
  predicate ThreadFacts(l: Local, k: Key) {
    && (k in l.rows ==> RowOk(l.rows[k]))
    && (!l.reg.closed && k in l.reg.workers ==> k in l.rows && WorkerFits(l.rows[k], l.reg.workers[k]))
    && (k in l.reg.workers || k in l.reg.runtimes || k in l.reg.cancels || k in l.reg.listed ==> k in l.rows)
  }

  lemma SubmitSignals(l: Local, j: Key, p: string, hasCancel: bool, inference: bool, runId: nat, k: Key)
    requires ThreadFacts(l, k) && Signals(l, k)
    ensures Signals(Submit(l, j, p, hasCancel, inference, runId), k)
  {
  }

  lemma StartSignals(l: Local, j: Key, now: real, k: Key)
    requires ThreadFacts(l, k) && Signals(l, k)
    ensures Signals(StartWorker(l, j, now), k)
  {
  }

  lemma LeaveSignals(l: Local, j: Key, o: Outcome, k: Key)
    requires ThreadFacts(l, k) && Signals(l, k)
    ensures Signals(l.(reg := LeaveExecute(l.reg, j, o)), k)
  {
  }

  lemma FinishSignals(l: Local, j: Key, now: real, k: Key)
    requires ThreadFacts(l, k) && Signals(l, k)
    ensures Signals(FinishWorker(l, j, now), k)
  {
  }

  lemma CancelSignals(l: Local, j: Key, k: Key)
    requires ThreadFacts(l, k) && Signals(l, k)
    ensures Signals(Cancel(l, j), k)
  {
  }

  lemma PostSignals(l: Local, j: Key, k: Key)
    requires ThreadFacts(l, k) && Signals(l, k)
    ensures Signals(PostCancel(l, j), k)
  {
  }

  lemma CancelThreadSignals(l: Local, j: Key, o: Outcome, k: Key)
    requires ThreadFacts(l, k) && Signals(l, k)
    ensures Signals(l.(reg := RegisterCancel(l.reg, j)), k) && Signals(l.(reg := EnterCancel(l.reg, j)), k)
    ensures Signals(l.(reg := LeaveCancel(l.reg, j, o)), k) && Signals(l.(reg := ExitCancel(l.reg, j)), k)
  {
  }

  lemma StageSignals(l: Local, j: Key, e: Event, k: Key)
    requires ThreadFacts(l, k) && Signals(l, k)
    ensures Signals(RecordStage(l, j, e), k)
  {
  }

  lemma CloseSignals(l: Local, k: Key)
    requires ThreadFacts(l, k) && Signals(l, k)
    ensures Signals(BeginClose(l), k) && Signals(l.(reg := CloseStore(l.reg)), k)
  {
  }

  lemma RecoverSignals(rows: map<Key, Row>, maxJobs: nat, maxEvents: nat, k: Key)
    ensures Signals(Recover(rows, maxJobs, maxEvents), k)
  {
  }

  // ----- every step

  ghost predicate SignalsOk(w: World) {
    forall i, k | i in w.incs :: Signals(At(w, i), k)
  }

  lemma FactsAt(w: World, i: nat, k: Key)
    requires Inv(w) && i in w.incs
    ensures ThreadFacts(At(w, i), k)
  {
    assert Fits(w, i, k);
  }

  /** What one step does to the registry it belongs to and to the rows. */
  function LocalAfter(w: World, a: Action): Local
    requires !a.Open? && !a.Crash? && a.inc in w.incs && a.inc in Next(w, a).incs
  {
    At(Next(w, a), a.inc)
  }

  lemma ThreadStepSignals(w: World, a: Action, k: Key)
    requires a.DoStart? || a.DoLeave? || a.DoFinish?
    requires a.inc in w.incs && ThreadFacts(At(w, a.inc), k) && Signals(At(w, a.inc), k)
    ensures a.inc in Next(w, a).incs && Signals(LocalAfter(w, a), k)
  {
    var l := At(w, a.inc);
    match a
    case DoStart(_, j, now) => StartSignals(l, j, now, k);
    case DoLeave(_, j, o) => LeaveSignals(l, j, o, k);
    case DoFinish(_, j, now) => FinishSignals(l, j, now, k);
  }

  lemma CancelStepSignals(w: World, a: Action, k: Key)
    requires a.DoCancel? || a.DoPost?
    requires a.inc in w.incs && ThreadFacts(At(w, a.inc), k) && Signals(At(w, a.inc), k)
    ensures a.inc in Next(w, a).incs && Signals(LocalAfter(w, a), k)
  {
    match a
    case DoCancel(_, j) => CancelSignals(At(w, a.inc), j, k);
    case DoPost(_, j) => PostSignals(At(w, a.inc), j, k);
  }

  lemma CancelThreadStepSignals(w: World, a: Action, k: Key)
    requires a.DoRegister? || a.DoEnterCancel? || a.DoLeaveCancel? || a.DoExitCancel?
    requires a.inc in w.incs && ThreadFacts(At(w, a.inc), k) && Signals(At(w, a.inc), k)
    ensures a.inc in Next(w, a).incs && Signals(LocalAfter(w, a), k)
  {
    CancelThreadSignals(At(w, a.inc), a.key, if a.DoLeaveCancel? then a.outcome else Raises(""), k);
  }

  lemma CallerStepSignals(w: World, a: Action, k: Key)
    requires a.DoSubmit? || a.DoStage? || a.DoClose? || a.DoCloseStore?
    requires a.inc in w.incs && ThreadFacts(At(w, a.inc), k) && Signals(At(w, a.inc), k)
    ensures a.inc in Next(w, a).incs && Signals(LocalAfter(w, a), k)
  {
    var l := At(w, a.inc);
    match a
    case DoSubmit(_, j, p, c, inf) => SubmitSignals(l, j, p, c, inf, w.nextRun, k);
    case DoStage(_, j, e) => StageSignals(l, j, e, k);
    case DoClose(_) => CloseSignals(l, k);
    case DoCloseStore(_) => CloseSignals(l, k);
  }

  /** A step of one registry leaves the others alone, and a closed one writes no rows. */
  lemma StepFrame(w: World, a: Action)
    requires !a.Open? && !a.Crash? && a.inc in w.incs
    ensures Next(w, a).incs.Keys == w.incs.Keys
    ensures forall i | i in w.incs && i != a.inc :: Next(w, a).incs[i] == w.incs[i]
    ensures w.incs[a.inc].closed ==> Next(w, a).rows == w.rows
  {
    OnlyOwnRegistry(w, a);
    if w.incs[a.inc].closed {
      ClosedWritesNothing(At(w, a.inc), a);
    }
  }

  lemma OnlyOwnRegistry(w: World, a: Action)
    requires !a.Open? && !a.Crash? && a.inc in w.incs
    ensures Next(w, a).incs == w.incs || (a.inc in Next(w, a).incs && Next(w, a).incs == w.incs[a.inc := Next(w, a).incs[a.inc]])
  {
  }

  lemma ClosedWritesNothing(l: Local, a: Action)
    requires l.reg.closed
    ensures forall j, now :: StartWorker(l, j, now).rows == l.rows && FinishWorker(l, j, now).rows == l.rows
    ensures forall j :: Cancel(l, j).rows == l.rows && PostCancel(l, j).rows == l.rows
    ensures forall j, e :: RecordStage(l, j, e).rows == l.rows
    ensures forall j :: !Accepts(l, j)
    ensures BeginClose(l).rows == l.rows
  {
  }

  lemma LocalStepSignals(w: World, a: Action, k: Key)
    requires !a.Open? && !a.Crash? && a.inc in w.incs && ThreadFacts(At(w, a.inc), k) && Signals(At(w, a.inc), k)
    ensures a.inc in Next(w, a).incs && Signals(LocalAfter(w, a), k)
  {
    if a.DoStart? || a.DoLeave? || a.DoFinish? {
      ThreadStepSignals(w, a, k);
    } else if a.DoCancel? || a.DoPost? {
      CancelStepSignals(w, a, k);
    } else if a.DoSubmit? || a.DoStage? || a.DoClose? || a.DoCloseStore? {
      CallerStepSignals(w, a, k);
    } else {
      CancelThreadStepSignals(w, a, k);
    }
  }

  lemma OtherRegistry(w: World, a: Action, i: nat, k: Key)
    requires Inv(w) && !a.Open? && !a.Crash? && a.inc in w.incs && i in w.incs && i != a.inc && Signals(At(w, i), k)
    ensures i in Next(w, a).incs && Signals(At(Next(w, a), i), k)
  {
    StepFrame(w, a);
    assert w.incs[i].closed || w.incs[a.inc].closed;
  }

  lemma OpenCrashSignals(w: World, a: Action)
    requires Inv(w) && SignalsOk(w) && (a.Open? || a.Crash?)
    ensures SignalsOk(Next(w, a))
  {
    forall i, k | i in Next(w, a).incs
      ensures Signals(At(Next(w, a), i), k)
    {
      if a.Open? && w.flock.None? && i == w.nextInc {
        RecoverSignals(w.rows, a.maxJobs, a.maxEvents, k);
      } else {
        assert i in w.incs && Signals(At(w, i), k);
      }
    }
  }

  lemma NextSignals(w: World, a: Action)
    requires Inv(w) && SignalsOk(w)
    ensures SignalsOk(Next(w, a))
  {
    if a.Open? || a.Crash? {
      OpenCrashSignals(w, a);
    } else if a.inc in w.incs {
      StepFrame(w, a);
      forall i, k | i in Next(w, a).incs
        ensures Signals(At(Next(w, a), i), k)
      {
        assert Signals(At(w, i), k);
        if i == a.inc {
          FactsAt(w, i, k);
          LocalStepSignals(w, a, k);
        } else {
          OtherRegistry(w, a, i, k);
        }
      }
    }
  }

  lemma {:induction false} RunSignals(w: World, actions: seq<Action>)
    requires Inv(w) && SignalsOk(w)
    ensures SignalsOk(Run(w, actions))
    decreases |actions|
  {
    if actions != [] {
      NextSignals(w, actions[0]);
      NextKeeps(w, actions[0]);
      RunSignals(Next(w, actions[0]), actions[1..]);
    }
  }

  lemma ReachedSignals(actions: seq<Action>, i: nat, k: Key)
    requires i in Reached(actions).incs
    ensures Signals(At(Reached(actions), i), k) && ThreadFacts(At(Reached(actions), i), k)
  {
    InitHolds();
    RunSignals(INIT, actions);
    ReachedInv(actions);
    FactsAt(Reached(actions), i, k);
  }

  // ----- what callbacks and callers see

  /** In every run, an execute callback that is running sees its cancel event set exactly if a cancel of its job is
      on record or its registry has been shut down; and while the registry is open, every object of a job says
      what the row says. */
  lemma CallbackSeesCancel(actions: seq<Action>, i: nat, k: Key)
    requires i in Reached(actions).incs
    ensures var w := Reached(actions); var reg := w.incs[i];
      && (k in reg.workers && reg.workers[k].Executing? ==>
            k in w.rows && k in reg.runtimes && (reg.runtimes[k].cancelEvent <==> reg.closed || w.rows[k].cancelRequested))
      && (!reg.closed && k in reg.runtimes ==> k in w.rows && (reg.runtimes[k].cancelEvent <==> w.rows[k].cancelRequested))
      && (reg.closed && k in reg.listed ==> k in reg.runtimes && reg.runtimes[k].cancelEvent)
  {
    ReachedSignals(actions, i, k);
  }

  /** In every run, a cancel callback is on its way, running or done in an open registry exactly if its job has one
      and a cancel is on record; until its answer is written the row says that a stop was requested, or, once the
      job has ended, that it is unconfirmed. */
  lemma CancelCallbackIff(actions: seq<Action>, i: nat, k: Key)
    requires i in Reached(actions).incs && !Reached(actions).incs[i].closed && k in Reached(actions).incs[i].runtimes
    ensures k in Reached(actions).rows
    ensures var reg, r := Reached(actions).incs[i], Reached(actions).rows[k];
      && (k in reg.cancels <==> reg.runtimes[k].hasCancel && r.cancelRequested)
      && (r.cancelRequested && !AnswerPosted(reg, k) ==>
            r.physical == if r.status.CancelRequested? || (r.started.None? && reg.runtimes[k].hasCancel) then StopRequested else StopUnconfirmed)
  {
    ReachedSignals(actions, i, k);
  }

  /** In every run, a cancel in an open registry reaches exactly the unfinished jobs: it is recorded, the callback's
      event is set, and the cancel callback is called if there is one and this is the first cancel. Any other
      cancel changes nothing. */
  lemma CancelReachesUnfinished(actions: seq<Action>, i: nat, k: Key)
    requires i in Reached(actions).incs && !Reached(actions).incs[i].closed
    ensures var w, w' := Reached(actions), Next(Reached(actions), DoCancel(i, k));
      if k in w.rows && !Terminal(w.rows[k].status) then
        && k in w'.rows && w'.rows[k].cancelRequested && w'.rows[k].status.CancelRequested? && w'.rows[k].physical.StopRequested?
        && i in w'.incs && k in w'.incs[i].runtimes && w'.incs[i].runtimes[k].cancelEvent
        && k in w.incs[i].runtimes
        && (w.incs[i].runtimes[k].hasCancel && !w.rows[k].cancelRequested ==> k in w'.incs[i].cancels && w'.incs[i].cancels[k].Decided?)
        && (!w.incs[i].runtimes[k].hasCancel || w.rows[k].cancelRequested ==> w'.incs[i].cancels == w.incs[i].cancels)
      else w' == w
  {
    ReachedSignals(actions, i, k);
    var w := Reached(actions);
    assert w.incs[i := w.incs[i]] == w.incs;
  }
}
