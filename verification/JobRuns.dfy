/** Whole runs of the job registry: any number of process incarnations over one database, every
    interleaving of their critical sections, callbacks and crashes. */
module JobRuns {
  import opened Wrappers
  import opened JobModel

  /** Callback activity, in the order it happened. */
  datatype Call =
    | ExecuteIn(inc: nat, key: Key)
    | ExecuteOut(inc: nat, key: Key, outcome: Outcome)
    | CancelIn(inc: nat, key: Key)
    | CancelOut(inc: nat, key: Key, outcome: Outcome)

  /** Who accepted a request, and whether it asked for inference. */
  datatype Acceptance = Acceptance(inc: nat, inference: bool)

  /** `calls` and `accepted` only record; no step reads them. */
  datatype World = World(
    rows: map<Key, Row>,
    flock: Option<nat>,
    incs: map<nat, Registry>,
    nextInc: nat,
    nextRun: nat,
    calls: seq<Call>,
    accepted: map<Key, Acceptance>)

  datatype Action =
    | Open(maxJobs: nat, maxEvents: nat)
    | DoSubmit(inc: nat, key: Key, parameters: string, hasCancel: bool, inference: bool)
    | DoStart(inc: nat, key: Key, now: real)
    | DoLeave(inc: nat, key: Key, outcome: Outcome)
    | DoFinish(inc: nat, key: Key, now: real)
    | DoCancel(inc: nat, key: Key)
    | DoRegister(inc: nat, key: Key)
    | DoEnterCancel(inc: nat, key: Key)
    | DoLeaveCancel(inc: nat, key: Key, outcome: Outcome)
    | DoPost(inc: nat, key: Key)
    | DoExitCancel(inc: nat, key: Key)
    | DoStage(inc: nat, key: Key, event: Event)
    | DoClose(inc: nat)
    | DoCloseStore(inc: nat)
    | Crash(inc: nat)

  const INIT := World(map[], None, map[], 0, 0, [], map[])

  function At(w: World, i: nat): Local
    requires i in w.incs
  {
    Local(w.rows, w.incs[i])
  }

  function Put(w: World, i: nat, l: Local): World {
    w.(rows := l.rows, incs := w.incs[i := l.reg])
  }

  function PutReg(w: World, i: nat, reg: Registry): World {
    w.(incs := w.incs[i := reg])
  }

  function Unlock(w: World, i: nat): World {
    if w.flock == Some(i) then w.(flock := None) else w
  }

  /** A process dies: its threads are gone, its lock is free. */
  function Crashed(w: World, i: nat): World {
    Unlock(w.(incs := w.incs - {i}), i)
  }

  /** The store closes once the workers have drained; only then is the lock freed. */
  function StoreClosed(w: World, i: nat): World
    requires i in w.incs
  {
    var reg := w.incs[i];
    var w' := PutReg(w, i, CloseStore(reg));
    if reg.closed && !reg.storeClosed && Drained(reg) then Unlock(w', i) else w'
  }

  /** A worker starts, and enters `execute` if it may. */
  function Began(w: World, i: nat, k: Key, now: real): World
    requires i in w.incs
  {
    var w' := Put(w, i, StartWorker(At(w, i), k, now));
    if Enters(At(w, i), k) then w'.(calls := w.calls + [ExecuteIn(i, k)]) else w'
  }

  /** One step. An action of an incarnation that does not exist, and `Open` against a held lock,
      change nothing. */
  function Next(w: World, a: Action): World {
    match a
    case Open(maxJobs, maxEvents) =>
      if w.flock.Some? then w
      else
        var l := Recover(w.rows, maxJobs, maxEvents);
        Put(w, w.nextInc, l).(flock := Some(w.nextInc), nextInc := w.nextInc + 1)
    case Crash(i) => if i in w.incs then Crashed(w, i) else w
    case _ =>
      if a.inc in w.incs then Local1(w, a) else w
  }

  /** The steps of one live incarnation. */
  function Local1(w: World, a: Action): World
    requires !a.Open? && !a.Crash? && a.inc in w.incs
  {
    var i, l := a.inc, At(w, a.inc);
    match a
    case DoSubmit(_, k, parameters, hasCancel, inference) =>
      if Accepts(l, k) then
        Put(w, i, Submit(l, k, parameters, hasCancel, inference, w.nextRun)).(
          nextRun := w.nextRun + 1,
          accepted := w.accepted[k := Acceptance(i, inference)])
      else w
    case DoStart(_, k, now) => Began(w, i, k, now)
    case DoLeave(_, k, o) =>
      if k in l.reg.workers && l.reg.workers[k].Executing? then
        PutReg(w, i, LeaveExecute(l.reg, k, o)).(calls := w.calls + [ExecuteOut(i, k, o)])
      else w
    case DoFinish(_, k, now) => Put(w, i, FinishWorker(l, k, now))
    case DoCancel(_, k) => Put(w, i, Cancel(l, k))
    case DoRegister(_, k) => PutReg(w, i, RegisterCancel(l.reg, k))
    case DoEnterCancel(_, k) =>
      if k in l.reg.cancels && l.reg.cancels[k].Registered? then
        PutReg(w, i, EnterCancel(l.reg, k)).(calls := w.calls + [CancelIn(i, k)])
      else w
    case DoLeaveCancel(_, k, o) =>
      if k in l.reg.cancels && l.reg.cancels[k].Calling? then
        PutReg(w, i, LeaveCancel(l.reg, k, o)).(calls := w.calls + [CancelOut(i, k, o)])
      else w
    case DoPost(_, k) => Put(w, i, PostCancel(l, k))
    case DoExitCancel(_, k) => PutReg(w, i, ExitCancel(l.reg, k))
    case DoStage(_, k, e) => Put(w, i, RecordStage(l, k, e))
    case DoClose(_) => Put(w, i, BeginClose(l))
    case DoCloseStore(_) => StoreClosed(w, i)
  }

  function Run(w: World, actions: seq<Action>): World
    decreases |actions|
  {
    if actions == [] then w else Run(Next(w, actions[0]), actions[1..])
  }

  // ----- invariant

  /** Facts about one row, whatever registry is alive. */
  predicate RowOk(r: Row) {
    && r.dispatch == SameName(r.status)
    && (r.status.CancelRequested? || r.status.Cancelled? ==> r.cancelRequested)
    && (r.cancelRequested ==> r.status.CancelRequested? || r.status.Cancelled? || r.status.Unknown?)
    && (r.inference.NotRequested? ==> !r.cancelRequested)
    && (r.result.Some? <==> r.status.Completed?)
    && (r.finished.Some? <==> r.status.Completed? || r.status.Failed? || r.status.Cancelled?)
    && (r.status.Accepted? ==> r.started.None?)
    && (r.status.Running? || r.status.Completed? || r.status.Failed? ==> r.started.Some?)
    && (!Terminal(r.status) && !r.cancelRequested ==> r.physical.NotRequested?)
    && (r.physical.Stopped? ==> r.cancelRequested || r.status.Completed?)
  }

  predicate RowsOk(w: World) {
    && w.accepted.Keys == w.rows.Keys
    && forall k | k in w.rows ::
      && RowOk(w.rows[k])
      && w.rows[k].runId < w.nextRun
      && (w.rows[k].inference.NotRequested? <==> !w.accepted[k].inference && !w.rows[k].cancelRequested)
  }

  predicate RunIdsDistinct(w: World) {
    forall j, k | j in w.rows && k in w.rows && j != k :: w.rows[j].runId != w.rows[k].runId
  }

  predicate LockOk(w: World) {
    && (forall i | i in w.incs :: i < w.nextInc)
    && (w.flock.Some? ==> w.flock.value in w.incs && !w.incs[w.flock.value].storeClosed)
    && (forall i | i in w.incs && !w.incs[i].storeClosed :: w.flock == Some(i))
    && (forall i | i in w.incs && w.incs[i].storeClosed :: w.incs[i].closed && Drained(w.incs[i]))
  }

  predicate Owns(w: World, i: nat, k: Key) {
    k in w.rows && k in w.accepted && w.accepted[k].inc == i
  }

  predicate WorkerFits(r: Row, p: WorkerPhase) {
    match p
    case Spawned => r.status.Accepted? || r.status.CancelRequested?
    case Executing => (r.status.Running? || r.status.CancelRequested?) && r.started.Some?
    case Left(_) => (r.status.Running? || r.status.CancelRequested?) && r.started.Some?
    case Exited => true
  }

  /** What one incarnation holds about one key: its threads and runtime objects belong to rows it
      accepted, and while it is open its workers and those rows agree. */
  predicate Fits(w: World, i: nat, k: Key)
    requires i in w.incs
  {
    var reg := w.incs[i];
    && (k in reg.workers || k in reg.runtimes || k in reg.cancels || k in reg.listed ==> Owns(w, i, k))
    && (!reg.closed && k in reg.workers ==> WorkerFits(w.rows[k], reg.workers[k]))
    && (!reg.closed && k in reg.runtimes && reg.runtimes[k].cancelEvent ==> w.rows[k].cancelRequested)
    && (k in reg.cancels ==>
          k in reg.runtimes && reg.runtimes[k].cancelInvoked && w.rows[k].cancelRequested)
    && (k in reg.workers && reg.workers[k].Left? ==>
          ExecuteOut(i, k, reg.workers[k].outcome) in w.calls)
    && (k in reg.cancels && reg.cancels[k].Answered? ==>
          CancelOut(i, k, reg.cancels[k].outcome) in w.calls)
  }

  // ----- history

  predicate EnteredBy(calls: seq<Call>, k: Key) {
    exists p :: 0 <= p < |calls| && calls[p].ExecuteIn? && calls[p].key == k
  }

  predicate EnteredAtMostOnce(calls: seq<Call>) {
    forall p, q | 0 <= p < q < |calls| && calls[p].ExecuteIn? && calls[q].ExecuteIn? :: calls[p].key != calls[q].key
  }

  predicate CancelledAtMostOnce(calls: seq<Call>) {
    forall p, q | 0 <= p < q < |calls| && calls[p].CancelIn? && calls[q].CancelIn? :: calls[p].key != calls[q].key
  }

  /** An entry of a cancel callback belongs to the incarnation that accepted the key; if that
      incarnation is alive, its cancel thread got past the entry, and the cancel is on record. */
  predicate CancelInFits(w: World, c: Call)
    requires c.CancelIn?
  {
    && Owns(w, c.inc, c.key) && w.rows[c.key].cancelRequested
    && c.inc < w.nextInc
    && (c.inc in w.incs ==>
          && c.key in w.incs[c.inc].cancels
          && !w.incs[c.inc].cancels[c.key].Decided? && !w.incs[c.inc].cancels[c.key].Registered?)
  }

  /** The job's own execute or cancel callback reported a stop. */
  ghost predicate StopReported(calls: seq<Call>, i: nat, k: Key) {
    || (exists v :: ExecuteOut(i, k, Returns(v)) in calls && ExecuteReportsStop(v))
    || (exists v :: CancelOut(i, k, Returns(v)) in calls && CancelReportsStop(v))
  }

  predicate ExecuteReportsStop(v: Value) {
    v.Mapping? && v.physicalStatus == Some("stopped")
  }

  /** Said outright, or confirmed without a recognised physical status. */
  predicate CancelReportsStop(v: Value) {
    || v == Boolean(true)
    || (v.Mapping? && v.physicalStatus == Some("stopped"))
    || (v.Mapping? && v.stopConfirmed == Some(true)
        && v.physicalStatus !in {Some("not_requested"), Some("stop_requested"), Some("stop_unconfirmed"), Some("unknown")})
  }

  /** What a row claims was really said by its callbacks, in the incarnation that accepted it. */
  ghost predicate Truth(r: Row, i: nat, k: Key, calls: seq<Call>) {
    && (r.started.Some? <==> EnteredBy(calls, k))
    && (r.physical.Stopped? ==> StopReported(calls, i, k))
    && (r.status.Completed? ==> r.result.Some? && ExecuteOut(i, k, Returns(r.result.value)) in calls)
    && (r.status.Failed? ==> exists e :: ExecuteOut(i, k, Raises(e)) in calls && r.error == ErrorText(Raises(e)))
  }

  ghost predicate RowTrue(w: World, k: Key)
    requires k in w.rows && k in w.accepted
  {
    Truth(w.rows[k], w.accepted[k].inc, k, w.calls)
  }

  ghost predicate HistoryOk(w: World)
    requires RowsOk(w)
  {
    && EnteredAtMostOnce(w.calls)
    && CancelledAtMostOnce(w.calls)
    && (forall c | c in w.calls && c.ExecuteIn? :: Owns(w, c.inc, c.key))
    && (forall c | c in w.calls && c.CancelIn? :: CancelInFits(w, c))
    && (forall k | k in w.rows :: RowTrue(w, k))
  }

  ghost predicate Inv(w: World) {
    && RowsOk(w) && RunIdsDistinct(w) && LockOk(w)
    && (forall i, k | i in w.incs :: Fits(w, i, k))
    && HistoryOk(w)
  }

  // ----- frames

  lemma EnteredGrows(calls: seq<Call>, c: Call, k: Key)
    ensures EnteredBy(calls + [c], k) <==> EnteredBy(calls, k) || (c.ExecuteIn? && c.key == k)
  {
    var calls' := calls + [c];
    if EnteredBy(calls, k) {
      var p :| 0 <= p < |calls| && calls[p].ExecuteIn? && calls[p].key == k;
      assert calls'[p] == calls[p];
    }
    if c.ExecuteIn? && c.key == k {
      assert calls'[|calls|] == c;
    }
  }

  lemma StopReportedGrows(calls: seq<Call>, c: Call, i: nat, k: Key)
    ensures StopReported(calls, i, k) ==> StopReported(calls + [c], i, k)
  {
    if v :| ExecuteOut(i, k, Returns(v)) in calls && ExecuteReportsStop(v) {
      assert ExecuteOut(i, k, Returns(v)) in calls + [c];
    } else if v :| CancelOut(i, k, Returns(v)) in calls && CancelReportsStop(v) {
      assert CancelOut(i, k, Returns(v)) in calls + [c];
    }
  }

  /** The parsers of callback values say `stopped` exactly for the values that report a stop. */
  lemma ParsersReadStops(v: Value)
    ensures PhysicalFromValue(v).Stopped? <==> ExecuteReportsStop(v)
    ensures PhysicalFromCancel(v).Stopped? <==> CancelReportsStop(v)
  {
  }

  /** Fields that `RowTrue` looks at. */
  predicate SameClaims(r: Row, r': Row) {
    && r'.started == r.started && r'.status == r.status && r'.result == r.result
    && r'.error == r.error && r'.physical == r.physical
  }

  lemma TruthKept(r: Row, r': Row, i: nat, k: Key, calls: seq<Call>)
    requires Truth(r, i, k, calls) && SameClaims(r, r')
    ensures Truth(r', i, k, calls)
  {
  }

  lemma TruthGrows(w: World, w': World, c: Call, k: Key)
    requires k in w.rows && k in w.accepted && k in w'.rows && k in w'.accepted
    requires RowTrue(w, k) && w'.calls == w.calls + [c] && !(c.ExecuteIn? && c.key == k)
    requires SameClaims(w.rows[k], w'.rows[k]) && w'.accepted[k] == w.accepted[k]
    ensures RowTrue(w', k)
  {
    EnteredGrows(w.calls, c, k);
    StopReportedGrows(w.calls, c, w.accepted[k].inc, k);
    if w.rows[k].status.Failed? {
      var e :| ExecuteOut(w.accepted[k].inc, k, Raises(e)) in w.calls && w.rows[k].error == ErrorText(Raises(e));
      assert ExecuteOut(w.accepted[k].inc, k, Raises(e)) in w'.calls;
    }
  }
}
