/** What every column of a job's row says in every reachable state, as a function of the job's status, of whether a
    cancel is on record and of what its execute callback returned. */
module JobRows {
  import opened Wrappers
  import opened JobModel
  import opened JobRuns
  import opened JobProofs
  import opened JobTheorems
  import opened JobSignals

  // ----- the columns

  /** The inference status that goes with a job status once inference was asked for. */
  function InferenceFor(s: Status): Inference {
    match s
    case Accepted => NotStarted
    case Running => Inference.Running
    case Completed => Inference.Completed
    case CancelRequested => Inference.CancelRequested
    case Cancelled => Inference.Cancelled
    case Failed => Inference.Failed
    case Unknown => Inference.Unknown
  }

  predicate InferenceOk(r: Row, asked: bool) {
    r.inference == if !asked && !r.cancelRequested then Inference.NotRequested else InferenceFor(r.status)
  }

  /** Without a cancel nothing is known of the robot until the job has ended; then its result may tell. */
  predicate OutcomeOk(r: Row) {
    !r.cancelRequested ==>
      && (r.error.Some? <==> r.status.Failed?)
      && (r.status.Accepted? || r.status.Running? ==> r.physical.NotRequested?)
      && (r.status.Failed? || r.status.Unknown? ==> r.physical.Unknown?)
      && (r.status.Completed? ==> r.result.Some? && r.physical == PhysicalFromValue(r.result.value))
  }

  /** Unless the event log is cut off, it has an entry for everything that happened to the job. */
  predicate LogOk(r: Row) {
    !r.truncated ==>
      && Plain("accepted") in r.events
      && (r.started.Some? ==> Plain("running") in r.events)
      && (r.cancelRequested ==> Plain("cancel_requested") in r.events)
      && (r.status.Completed? ==> Plain("completed") in r.events)
      && (r.status.Failed? ==> Plain("failed") in r.events)
      && (r.status.Cancelled? ==> Plain(if r.started.Some? then "cancelled" else "cancelled_before_dispatch") in r.events)
      && (r.status.Unknown? ==> Plain("recovered_unknown") in r.events || Plain("closed_unknown") in r.events)
  }

  predicate RowSays(r: Row, asked: bool) {
    InferenceOk(r, asked) && OutcomeOk(r) && LogOk(r)
  }

  // ----- each way in which a row is written

  lemma Appended(r: Row, e: Event, maxEvents: nat)
    ensures var r' := AppendEvent(r, e, maxEvents);
      && r' == r.(events := r'.events, truncated := r'.truncated) && r.events <= r'.events
      && (!r'.truncated ==> !r.truncated && e in r'.events && forall x | x in r.events :: x in r'.events)
  {
  }

  lemma NewSays(runId: nat, p: string, asked: bool)
    ensures RowSays(NewRow(runId, p, asked), asked)
  {
  }

  lemma StartedSays(r: Row, now: real, maxEvents: nat, asked: bool)
    requires RowSays(r, asked) && RowOk(r) && r.status.Accepted?
    ensures RowSays(StartedRow(r, now, maxEvents), asked)
  {
    Appended(r, Plain("running"), maxEvents);
  }

  lemma BeforeDispatchSays(r: Row, hasCancel: bool, now: real, maxEvents: nat, asked: bool)
    requires RowSays(r, asked) && RowOk(r) && r.status.CancelRequested? && r.started.None?
    ensures RowSays(CancelledBeforeDispatch(r, hasCancel, now, maxEvents), asked)
  {
    Appended(r, Plain("cancelled_before_dispatch"), maxEvents);
  }

  lemma FinishedSays(r: Row, o: Outcome, now: real, maxEvents: nat, asked: bool)
    requires RowSays(r, asked) && RowOk(r) && (r.status.Running? || r.status.CancelRequested?) && r.started.Some?
    ensures RowSays(FinishedRow(r, r.cancelRequested, o, now, maxEvents), asked)
  {
    Appended(r, Plain("cancelled"), maxEvents);
    Appended(r, Plain("failed"), maxEvents);
    Appended(r, Plain("completed"), maxEvents);
  }

  lemma CancelledSays(r: Row, maxEvents: nat, asked: bool)
    requires RowSays(r, asked) && RowOk(r) && !Terminal(r.status)
    ensures RowSays(CancelledRow(r, maxEvents), asked)
  {
    Appended(r, Plain("cancel_requested"), maxEvents);
  }

  lemma AnsweredSays(r: Row, o: Outcome, maxEvents: nat, asked: bool)
    requires RowSays(r, asked) && r.cancelRequested
    ensures RowSays(AnsweredRow(r, o, maxEvents), asked)
  {
    Appended(r, Event("cancel_result", None, ErrorText(o)), maxEvents);
  }

  lemma StageSays(r: Row, e: Event, maxEvents: nat, asked: bool)
    requires RowSays(r, asked)
    ensures RowSays(AppendEvent(r, e, maxEvents), asked)
  {
    Appended(r, e, maxEvents);
  }

  lemma AbandonedSays(r: Row, event: string, maxEvents: nat, asked: bool)
    requires RowSays(r, asked) && RowOk(r) && (event == "recovered_unknown" || event == "closed_unknown")
    ensures RowSays(AbandonedRow(r, event, maxEvents), asked)
  {
    Appended(r, Plain(event), maxEvents);
  }

  // ----- every step

  predicate SaysAt(l: Local, k: Key, asked: bool) {
    k in l.rows ==> RowSays(l.rows[k], asked)
  }

  predicate RowReady(l: Local, k: Key, asked: bool) {
    && k in l.rows && RowSays(l.rows[k], asked) && ThreadFacts(l, k) && Signals(l, k)
    && (k in l.reg.cancels ==> l.rows[k].cancelRequested)
  }

  lemma StartWorkerSays(l: Local, j: Key, now: real, k: Key, asked: bool)
    requires RowReady(l, k, asked)
    ensures SaysAt(StartWorker(l, j, now), k, asked)
  {
    if j == k && !l.reg.closed && k in l.reg.workers && l.reg.workers[k].Spawned? {
      if l.rows[k].status.CancelRequested? {
        BeforeDispatchSays(l.rows[k], k in l.reg.runtimes && l.reg.runtimes[k].hasCancel, now, l.reg.maxEvents, asked);
      } else {
        StartedSays(l.rows[k], now, l.reg.maxEvents, asked);
      }
    }
  }

  lemma FinishWorkerSays(l: Local, j: Key, now: real, k: Key, asked: bool)
    requires RowReady(l, k, asked)
    ensures SaysAt(FinishWorker(l, j, now), k, asked)
  {
    if j == k && !l.reg.closed && k in l.reg.workers && l.reg.workers[k].Left? {
      FinishedSays(l.rows[k], l.reg.workers[k].outcome, now, l.reg.maxEvents, asked);
    }
  }

  lemma CancelSays(l: Local, j: Key, k: Key, asked: bool)
    requires RowReady(l, k, asked)
    ensures SaysAt(Cancel(l, j), k, asked) && SaysAt(PostCancel(l, j), k, asked)
  {
    if Cancels(l, k) {
      CancelledSays(l.rows[k], l.reg.maxEvents, asked);
    }
    if Posts(l, k) {
      AnsweredSays(l.rows[k], l.reg.cancels[k].outcome, l.reg.maxEvents, asked);
    }
  }

  lemma CallerSays(l: Local, j: Key, p: string, hasCancel: bool, inference: bool, runId: nat, e: Event, k: Key, asked: bool)
    requires RowReady(l, k, asked)
    ensures SaysAt(Submit(l, j, p, hasCancel, inference, runId), k, asked) && SaysAt(RecordStage(l, j, e), k, asked)
    ensures SaysAt(BeginClose(l), k, asked)
  {
    StageSays(l.rows[k], e, l.reg.maxEvents, asked);
    AbandonedSays(l.rows[k], "closed_unknown", l.reg.maxEvents, asked);
  }

  predicate RowsSay(w: World) {
    forall k | k in w.rows :: k in w.accepted && RowSays(w.rows[k], w.accepted[k].inference)
  }

  lemma ReadyAt(w: World, i: nat, k: Key)
    requires Inv(w) && SignalsOk(w) && RowsSay(w) && i in w.incs && k in w.rows
    ensures k in w.accepted && RowReady(At(w, i), k, w.accepted[k].inference)
  {
    FactsAt(w, i, k);
    assert Signals(At(w, i), k) && Fits(w, i, k);
  }

  lemma ThreadStepSays(w: World, a: Action, k: Key, asked: bool)
    requires a.DoStart? || a.DoFinish? || a.DoCancel? || a.DoPost?
    requires a.inc in w.incs && RowReady(At(w, a.inc), k, asked)
    ensures k in Next(w, a).rows ==> RowSays(Next(w, a).rows[k], asked)
  {
    var l := At(w, a.inc);
    match a
    case DoStart(_, j, now) => StartWorkerSays(l, j, now, k, asked);
    case DoFinish(_, j, now) => FinishWorkerSays(l, j, now, k, asked);
    case DoCancel(_, j) => CancelSays(l, j, k, asked);
    case DoPost(_, j) => CancelSays(l, j, k, asked);
  }

  lemma OtherStepSays(w: World, a: Action, k: Key, asked: bool)
    requires !a.Open? && !a.DoStart? && !a.DoFinish? && !a.DoCancel? && !a.DoPost?
    requires a.inc in w.incs && RowReady(At(w, a.inc), k, asked)
    ensures k in Next(w, a).rows ==> RowSays(Next(w, a).rows[k], asked)
  {
    var l := At(w, a.inc);
    match a
    case DoSubmit(_, j, p, c, inf) => CallerSays(l, j, p, c, inf, w.nextRun, Plain(""), k, asked);
    case DoStage(_, j, e) => CallerSays(l, j, "", false, false, 0, e, k, asked);
    case DoClose(_) => CallerSays(l, k, "", false, false, 0, Plain(""), k, asked);
    case _ =>
  }

  lemma OldRowSays(w: World, a: Action, k: Key)
    requires Inv(w) && SignalsOk(w) && RowsSay(w) && k in w.rows
    ensures k in w.accepted
    ensures k in Next(w, a).rows ==> RowSays(Next(w, a).rows[k], w.accepted[k].inference)
  {
    if a.Open? {
      assert RowOk(w.rows[k]);
      AbandonedSays(w.rows[k], "recovered_unknown", a.maxEvents, w.accepted[k].inference);
    } else if a.inc in w.incs {
      ReadyAt(w, a.inc, k);
      if a.DoStart? || a.DoFinish? || a.DoCancel? || a.DoPost? {
        ThreadStepSays(w, a, k, w.accepted[k].inference);
      } else {
        OtherStepSays(w, a, k, w.accepted[k].inference);
      }
    }
  }

  /** Only a submit adds a row. */
  lemma NewRowIs(w: World, a: Action, k: Key)
    requires k in Next(w, a).rows && (k !in w.rows || (a.DoSubmit? && a.key == k && a.inc in w.incs && Accepts(At(w, a.inc), k)))
    ensures a.DoSubmit? && a.key == k && k in Next(w, a).accepted
    ensures Next(w, a).rows[k] == NewRow(w.nextRun, a.parameters, a.inference) && Next(w, a).accepted[k].inference == a.inference
  {
  }

  lemma AcceptedStays(w: World, a: Action, k: Key)
    requires k in w.accepted && k in w.rows
    ensures k in Next(w, a).accepted && Next(w, a).accepted[k] == w.accepted[k]
  {
  }

  lemma NextSays(w: World, a: Action)
    requires Inv(w) && SignalsOk(w) && RowsSay(w)
    ensures RowsSay(Next(w, a))
  {
    var w' := Next(w, a);
    forall k | k in w'.rows
      ensures k in w'.accepted && RowSays(w'.rows[k], w'.accepted[k].inference)
    {
      if k in w.rows {
        OldRowSays(w, a, k);
        AcceptedStays(w, a, k);
      } else {
        NewRowIs(w, a, k);
        NewSays(w.nextRun, a.parameters, a.inference);
      }
    }
  }

  lemma {:induction false} RunSays(w: World, actions: seq<Action>)
    requires Inv(w) && SignalsOk(w) && RowsSay(w)
    ensures RowsSay(Run(w, actions))
    decreases |actions|
  {
    if actions != [] {
      NextSays(w, actions[0]);
      NextSignals(w, actions[0]);
      NextKeeps(w, actions[0]);
      RunSays(Next(w, actions[0]), actions[1..]);
    }
  }

  /** In every run the inference status is `not_requested` if inference was not asked for and no cancel is on
      record, and otherwise the one that goes with the job's status; the physical status and the error of a job
      without a cancel are what its own end says; and the event log, unless it is cut off, names every change. */
  lemma RowsSayAll(actions: seq<Action>, k: Key)
    requires k in Reached(actions).rows
    ensures k in Reached(actions).accepted
    ensures InferenceOk(Reached(actions).rows[k], Reached(actions).accepted[k].inference)
    ensures OutcomeOk(Reached(actions).rows[k]) && LogOk(Reached(actions).rows[k])
  {
    InitHolds();
    RunSays(INIT, actions);
  }

  // ----- what the worker decides

  /** In every run a worker of an open registry that gets to its first critical section enters the callback
      exactly if no cancel is on record, and otherwise ends its job as cancelled; and one whose callback is over
      ends it as cancelled if a cancel is on record, as failed if it raised, and as completed with its value if not. */
  lemma WorkerDecides(actions: seq<Action>, i: nat, k: Key, now: real)
    requires i in Reached(actions).incs && !Reached(actions).incs[i].closed && k in Reached(actions).incs[i].workers
    ensures k in Reached(actions).rows
    ensures var w, p := Reached(actions), Reached(actions).incs[i].workers[k];
      var started, ended, cancelled := Next(w, DoStart(i, k, now)), Next(w, DoFinish(i, k, now)), w.rows[k].cancelRequested;
      && k in started.rows && k in ended.rows
      && (p.Spawned? ==>
            && started.calls == w.calls + (if cancelled then [] else [ExecuteIn(i, k)])
            && started.rows[k].status == (if cancelled then Status.Cancelled else Status.Running)
            && (if cancelled then started.rows[k].finished else started.rows[k].started) == Some(now))
      && (p.Left? ==>
            && ended.rows[k].status ==
               (if cancelled then Status.Cancelled else if p.outcome.Raises? then Status.Failed else Status.Completed)
            && ended.rows[k].result == (if cancelled || p.outcome.Raises? then None else Some(p.outcome.value))
            && ended.rows[k].error == ErrorText(p.outcome) && ended.rows[k].finished == Some(now))
  {
    ReachedSignals(actions, i, k);
    ReachedInv(actions);
    var w := Reached(actions);
    assert RowOk(w.rows[k]) && Fits(w, i, k);
    assert w.calls + [] == w.calls;
  }

  // ----- capacity

  /** However many processes come and go, the table never outgrows the largest capacity any of them was given, and
      run ids are never used twice. */
  lemma {:induction false} CapacityHolds(w: World, actions: seq<Action>, most: nat)
    requires |w.rows| <= most && (forall i | i in w.incs :: w.incs[i].maxJobs <= most)
    requires forall n | 0 <= n < |actions| && actions[n].Open? :: actions[n].maxJobs <= most
    ensures |Run(w, actions).rows| <= most
    decreases |actions|
  {
    if actions != [] {
      CapacityStep(w, actions[0], most);
      CapacityHolds(Next(w, actions[0]), actions[1..], most);
    }
  }

  lemma SameKeys(w: World, a: Action)
    requires !(a.DoSubmit? && a.inc in w.incs && Accepts(At(w, a.inc), a.key))
    ensures Next(w, a).rows.Keys == w.rows.Keys
  {
  }

  lemma SameCapacities(w: World, a: Action, i: nat)
    requires i in Next(w, a).incs
    ensures || (i in w.incs && Next(w, a).incs[i].maxJobs == w.incs[i].maxJobs)
            || (a.Open? && Next(w, a).incs[i].maxJobs == a.maxJobs)
  {
  }

  lemma SameSize(a: map<Key, Row>, b: map<Key, Row>)
    requires a.Keys == b.Keys
    ensures |a| == |b|
  {
    assert |a| == |a.Keys| && |b| == |b.Keys|;
  }

  lemma CapacityStep(w: World, a: Action, most: nat)
    requires |w.rows| <= most && (forall i | i in w.incs :: w.incs[i].maxJobs <= most) && (a.Open? ==> a.maxJobs <= most)
    ensures |Next(w, a).rows| <= most && forall i | i in Next(w, a).incs :: Next(w, a).incs[i].maxJobs <= most
  {
    if a.DoSubmit? && a.inc in w.incs && Accepts(At(w, a.inc), a.key) {
      assert |Next(w, a).rows| == |w.rows| + 1;
    } else {
      SameKeys(w, a);
      SameSize(Next(w, a).rows, w.rows);
    }
    forall i | i in Next(w, a).incs
      ensures Next(w, a).incs[i].maxJobs <= most
    {
      SameCapacities(w, a, i);
    }
  }

  /** In every run a request that is new to an open registry is taken in exactly while there is room: then, and only
      then, it gets a run id that no other job has, and its row. */
  lemma SubmitTakesIff(actions: seq<Action>, i: nat, k: Key, parameters: string, hasCancel: bool, inference: bool)
    requires i in Reached(actions).incs && !Reached(actions).incs[i].closed && k !in Reached(actions).rows
    ensures var w := Reached(actions);
      var w', reply := Next(w, DoSubmit(i, k, parameters, hasCancel, inference)), SubmitReplyOf(At(w, i), k, parameters, w.nextRun);
      && (k in w'.rows <==> |w.rows| < w.incs[i].maxJobs)
      && (k in w'.rows ==>
            && reply == Handle(w'.rows[k].runId) && (forall j | j in w.rows :: w.rows[j].runId != w'.rows[k].runId)
            && w'.rows[k].parameters == parameters && w'.rows[k].status.Accepted?
            && i in w'.incs && k in w'.incs[i].workers && w'.incs[i].workers[k].Spawned?
            && k in w'.incs[i].runtimes && w'.incs[i].runtimes[k].hasCancel == hasCancel)
      && (k !in w'.rows ==> reply == CapacityExceeded && w' == w)
  {
    ReachedInv(actions);
  }

  // ----- physical statuses by name

  function NameOf(p: Physical): string {
    match p
    case NotRequested => "not_requested"
    case StopRequested => "stop_requested"
    case Stopped => "stopped"
    case StopUnconfirmed => "stop_unconfirmed"
    case Unknown => "unknown"
  }

  /** The parser knows exactly the five names, and what a callback says by name is what is recorded; a cancel
      callback that says nothing recognisable has not confirmed the stop. */
  lemma NamesParse(s: string, p: Physical, v: Value)
    ensures PhysicalOfText(s) == Some(p) <==> s == NameOf(p)
    ensures v.Mapping? && v.physicalStatus == Some(NameOf(p)) ==> PhysicalFromCancel(v) == p && PhysicalFromValue(v) == p
    ensures (!v.Mapping? || v.physicalStatus.None?) ==>
              && PhysicalFromValue(v) == Physical.Unknown
              && PhysicalFromCancel(v) ==
                 if v == Boolean(true) || (v.Mapping? && v.stopConfirmed == Some(true)) then Stopped else StopUnconfirmed
  {
  }
}
