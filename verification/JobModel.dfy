/** Job rows, in-memory registry state, and one function per critical section of the registry.
    A callback's return value, its exception and the clock enter as arguments. */
module JobModel {
  import opened Wrappers

  datatype Key = Key(caller: string, session: string, request: string)

  datatype Status = Accepted | Running | Completed | Failed | CancelRequested | Cancelled | Unknown

  datatype Dispatch = Accepted | Running | Completed | CancelRequested | Cancelled | Failed | Unknown

  datatype Inference =
    NotRequested | NotStarted | Running | Completed | CancelRequested | Cancelled | Failed | Unknown

  datatype Physical = NotRequested | StopRequested | Stopped | StopUnconfirmed | Unknown

  datatype Event = Event(name: string, duration: Option<real>, detail: Option<string>)

  /** What a callback hands back: a mapping (with the two fields the registry looks at), a boolean
      or anything else. A field is `None` when it is absent or has the wrong type. */
  datatype Value =
    | Mapping(physicalStatus: Option<string>, stopConfirmed: Option<bool>, body: string)
    | Boolean(flag: bool)
    | Other(body: string)

  datatype Outcome = Returns(value: Value) | Raises(error: string)

  datatype Row = Row(
    runId: nat,
    parameters: string,
    status: Status,
    dispatch: Dispatch,
    inference: Inference,
    physical: Physical,
    cancelRequested: bool,
    result: Option<Value>,
    error: Option<string>,
    events: seq<Event>,
    truncated: bool,
    started: Option<real>,
    finished: Option<real>)

  predicate Terminal(s: Status) {
    s.Completed? || s.Failed? || s.Cancelled? || s.Unknown?
  }

  /** The dispatch status spelled like a given job status. */
  function SameName(s: Status): Dispatch {
    match s
    case Accepted => Dispatch.Accepted
    case Running => Dispatch.Running
    case Completed => Dispatch.Completed
    case Failed => Dispatch.Failed
    case CancelRequested => Dispatch.CancelRequested
    case Cancelled => Dispatch.Cancelled
    case Unknown => Dispatch.Unknown
  }

  // ----- physical status reported by callbacks

  function PhysicalOfText(s: string): Option<Physical> {
    if s == "not_requested" then Some(Physical.NotRequested)
    else if s == "stop_requested" then Some(StopRequested)
    else if s == "stopped" then Some(Stopped)
    else if s == "stop_unconfirmed" then Some(StopUnconfirmed)
    else if s == "unknown" then Some(Physical.Unknown)
    else None
  }

  function PhysicalFromCancel(v: Value): Physical {
    if v.Mapping? && v.physicalStatus.Some? && PhysicalOfText(v.physicalStatus.value).Some? then
      PhysicalOfText(v.physicalStatus.value).value
    else if v.Mapping? && v.stopConfirmed == Some(true) then Stopped
    else if v.Mapping? && v.stopConfirmed == Some(false) then StopUnconfirmed
    else if v == Boolean(true) then Stopped
    else StopUnconfirmed
  }

  function PhysicalFromValue(v: Value): Physical {
    if v.Mapping? && v.physicalStatus.Some? && PhysicalOfText(v.physicalStatus.value).Some? then
      PhysicalOfText(v.physicalStatus.value).value
    else Physical.Unknown
  }

  const MAX_ERROR_DETAIL := 1024

  function ErrorText(o: Outcome): Option<string> {
    if o.Raises? then
      Some(if |o.error| <= MAX_ERROR_DETAIL then o.error else o.error[..MAX_ERROR_DETAIL])
    else None
  }

  // ----- events

  function AppendEvent(r: Row, e: Event, maxEvents: nat): Row {
    if |r.events| >= maxEvents then r.(truncated := true) else r.(events := r.events + [e])
  }

  function Plain(name: string): Event {
    Event(name, None, None)
  }

  // ----- one live registry

  /** `_Runtime`; `_runtimes` is the set `listed` of keys whose object is still registered, because a
      thread keeps using its object after it left the dictionary. */
  datatype Runtime = Runtime(hasCancel: bool, cancelEvent: bool, cancelInvoked: bool)

  datatype WorkerPhase = Spawned | Executing | Left(outcome: Outcome) | Exited

  datatype CancelPhase = Decided | Registered | Calling | Answered(outcome: Outcome) | Posted | Gone

  datatype Registry = Registry(
    maxJobs: nat,
    maxEvents: nat,
    runtimes: map<Key, Runtime>,
    listed: set<Key>,
    workers: map<Key, WorkerPhase>,
    cancels: map<Key, CancelPhase>,
    closed: bool,
    storeClosed: bool)

  /** The job table together with the registry that works on it. */
  datatype Local = Local(rows: map<Key, Row>, reg: Registry)

  datatype SubmitReply = Handle(runId: nat) | Conflict | CapacityExceeded | Closed

  function NewRow(runId: nat, parameters: string, inferenceRequested: bool): Row {
    Row(runId, parameters, Status.Accepted, Dispatch.Accepted,
        if inferenceRequested then NotStarted else Inference.NotRequested,
        Physical.NotRequested, false, None, None, [Plain("accepted")], false, None, None)
  }

  function SubmitReplyOf(l: Local, k: Key, parameters: string, runId: nat): SubmitReply {
    if l.reg.closed then Closed
    else if k in l.rows then
      if l.rows[k].parameters != parameters then Conflict else Handle(l.rows[k].runId)
    else if |l.rows| >= l.reg.maxJobs then CapacityExceeded
    else Handle(runId)
  }

  predicate Accepts(l: Local, k: Key) {
    !l.reg.closed && k !in l.rows && |l.rows| < l.reg.maxJobs
  }

  function Submit(l: Local, k: Key, parameters: string, hasCancel: bool, inferenceRequested: bool, runId: nat): Local {
    if Accepts(l, k) then
      Local(l.rows[k := NewRow(runId, parameters, inferenceRequested)],
            l.reg.(runtimes := l.reg.runtimes[k := Runtime(hasCancel, false, false)],
                   listed := l.reg.listed + {k},
                   workers := l.reg.workers[k := Spawned]))
    else l
  }

  // ----- the worker thread

  function CancelledBeforeDispatch(r: Row, hasCancel: bool, now: real, maxEvents: nat): Row {
    AppendEvent(r, Plain("cancelled_before_dispatch"), maxEvents).(
      status := Status.Cancelled,
      dispatch := Dispatch.Cancelled,
      inference := if r.inference.NotRequested? then Inference.NotRequested else Inference.Cancelled,
      physical := if hasCancel then StopRequested else StopUnconfirmed,
      finished := Some(now))
  }

  function StartedRow(r: Row, now: real, maxEvents: nat): Row {
    AppendEvent(r, Plain("running"), maxEvents).(
      status := Status.Running,
      dispatch := Dispatch.Running,
      inference := if r.inference.NotRequested? then Inference.NotRequested else Inference.Running,
      started := Some(now))
  }

  /** Does the worker's first critical section go on to call `execute`? */
  predicate Enters(l: Local, k: Key) {
    && k in l.reg.workers && l.reg.workers[k].Spawned?
    && k in l.reg.listed && !l.reg.closed
    && k in l.rows && l.rows[k].status.Accepted?
  }

  function StartWorker(l: Local, k: Key, now: real): Local {
    if k !in l.reg.workers || !l.reg.workers[k].Spawned? then l
    else if k !in l.reg.listed || l.reg.closed || k !in l.rows then
      l.(reg := l.reg.(workers := l.reg.workers[k := Exited]))
    else if l.rows[k].status.CancelRequested? then
      var hasCancel := k in l.reg.runtimes && l.reg.runtimes[k].hasCancel;
      Local(l.rows[k := CancelledBeforeDispatch(l.rows[k], hasCancel, now, l.reg.maxEvents)],
            l.reg.(workers := l.reg.workers[k := Exited], listed := l.reg.listed - {k}))
    else if !l.rows[k].status.Accepted? then
      l.(reg := l.reg.(workers := l.reg.workers[k := Exited]))
    else
      Local(l.rows[k := StartedRow(l.rows[k], now, l.reg.maxEvents)],
            l.reg.(workers := l.reg.workers[k := Executing]))
  }

  function LeaveExecute(reg: Registry, k: Key, o: Outcome): Registry {
    if k in reg.workers && reg.workers[k].Executing? then
      reg.(workers := reg.workers[k := Left(o)])
    else reg
  }

  function FinishedRow(r: Row, cancelled: bool, o: Outcome, now: real, maxEvents: nat): Row {
    var keep := r.inference.NotRequested?;
    if cancelled then
      AppendEvent(r, Plain("cancelled"), maxEvents).(
        status := Status.Cancelled,
        dispatch := Dispatch.Cancelled,
        inference := if keep then Inference.NotRequested else Inference.Cancelled,
        physical := if r.physical.StopRequested? then StopUnconfirmed else r.physical,
        result := None,
        error := ErrorText(o),
        finished := Some(now))
    else if o.Raises? then
      AppendEvent(r, Plain("failed"), maxEvents).(
        status := Status.Failed,
        dispatch := Dispatch.Failed,
        inference := if keep then Inference.NotRequested else Inference.Failed,
        physical := Physical.Unknown,
        result := None,
        error := ErrorText(o),
        finished := Some(now))
    else
      AppendEvent(r, Plain("completed"), maxEvents).(
        status := Status.Completed,
        dispatch := Dispatch.Completed,
        inference := if keep then Inference.NotRequested else Inference.Completed,
        physical := PhysicalFromValue(o.value),
        result := Some(o.value),
        error := None,
        finished := Some(now))
  }

  function FinishWorker(l: Local, k: Key, now: real): Local {
    if k !in l.reg.workers || !l.reg.workers[k].Left? then l
    else
      var reg' := l.reg.(workers := l.reg.workers[k := Exited], listed := l.reg.listed - {k});
      if l.reg.closed || k !in l.rows then l.(reg := reg')
      else
        var event := k in l.reg.runtimes && l.reg.runtimes[k].cancelEvent;
        var cancelled := event || l.rows[k].cancelRequested;
        Local(l.rows[k := FinishedRow(l.rows[k], cancelled, l.reg.workers[k].outcome, now, l.reg.maxEvents)], reg')
  }

  // ----- cancellation

  function CancelledRow(r: Row, maxEvents: nat): Row {
    AppendEvent(r, Plain("cancel_requested"), maxEvents).(
      status := Status.CancelRequested,
      dispatch := Dispatch.CancelRequested,
      inference := Inference.CancelRequested,
      physical := StopRequested,
      cancelRequested := true)
  }

  /** Does `cancel` get past its early returns? */
  predicate Cancels(l: Local, k: Key) {
    && !l.reg.closed && k in l.rows && !Terminal(l.rows[k].status)
    && k in l.reg.listed && k in l.reg.runtimes
  }

  function Cancel(l: Local, k: Key): Local {
    if !Cancels(l, k) then l
    else
      var rt := l.reg.runtimes[k];
      var cancels' :=
        if !rt.cancelInvoked && rt.hasCancel then l.reg.cancels[k := Decided] else l.reg.cancels;
      Local(l.rows[k := CancelledRow(l.rows[k], l.reg.maxEvents)],
            l.reg.(runtimes := l.reg.runtimes[k := rt.(cancelEvent := true, cancelInvoked := true)],
                   cancels := cancels'))
  }

  function RegisterCancel(reg: Registry, k: Key): Registry {
    if k in reg.cancels && reg.cancels[k].Decided? then
      reg.(cancels := reg.cancels[k := if reg.closed then Gone else Registered])
    else reg
  }

  function EnterCancel(reg: Registry, k: Key): Registry {
    if k in reg.cancels && reg.cancels[k].Registered? then reg.(cancels := reg.cancels[k := Calling]) else reg
  }

  function LeaveCancel(reg: Registry, k: Key, o: Outcome): Registry {
    if k in reg.cancels && reg.cancels[k].Calling? then reg.(cancels := reg.cancels[k := Answered(o)]) else reg
  }

  function AnsweredRow(r: Row, o: Outcome, maxEvents: nat): Row {
    AppendEvent(r, Event("cancel_result", None, ErrorText(o)), maxEvents).(
      physical := if o.Returns? then PhysicalFromCancel(o.value) else StopUnconfirmed,
      error := if o.Raises? then ErrorText(o) else r.error)
  }

  /** Does the answer of the cancel callback reach the row? */
  predicate Posts(l: Local, k: Key) {
    && k in l.reg.cancels && l.reg.cancels[k].Answered?
    && !l.reg.closed && k in l.rows
    && (l.rows[k].status.CancelRequested? || l.rows[k].status.Cancelled?)
  }

  function PostCancel(l: Local, k: Key): Local {
    if k !in l.reg.cancels || !l.reg.cancels[k].Answered? then l
    else
      var reg' := l.reg.(cancels := l.reg.cancels[k := Posted]);
      if Posts(l, k) then
        Local(l.rows[k := AnsweredRow(l.rows[k], l.reg.cancels[k].outcome, l.reg.maxEvents)], reg')
      else l.(reg := reg')
  }

  function ExitCancel(reg: Registry, k: Key): Registry {
    if k in reg.cancels && reg.cancels[k].Posted? then reg.(cancels := reg.cancels[k := Gone]) else reg
  }

  function RecordStage(l: Local, k: Key, e: Event): Local {
    if l.reg.closed || k !in l.rows then l
    else l.(rows := l.rows[k := AppendEvent(l.rows[k], e, l.reg.maxEvents)])
  }

  // ----- shutdown and recovery

  /** An unfinished row becomes `unknown`, at shutdown and at restart alike. */
  function AbandonedRow(r: Row, event: string, maxEvents: nat): Row {
    if Terminal(r.status) then r
    else
      AppendEvent(r, Plain(event), maxEvents).(
        status := Status.Unknown,
        dispatch := Dispatch.Unknown,
        inference := if r.inference.NotRequested? then Inference.NotRequested else Inference.Unknown,
        physical := if r.cancelRequested then StopUnconfirmed else Physical.Unknown)
  }

  function AbandonRows(rows: map<Key, Row>, event: string, maxEvents: nat): map<Key, Row> {
    map k | k in rows :: AbandonedRow(rows[k], event, maxEvents)
  }

  function Signalled(rt: Runtime): Runtime {
    rt.(cancelEvent := true)
  }

  function SignalListed(runtimes: map<Key, Runtime>, listed: set<Key>): map<Key, Runtime> {
    map k | k in runtimes :: if k in listed then Signalled(runtimes[k]) else runtimes[k]
  }

  function BeginClose(l: Local): Local {
    if l.reg.closed then l
    else
      Local(AbandonRows(l.rows, "closed_unknown", l.reg.maxEvents),
            l.reg.(closed := true, runtimes := SignalListed(l.reg.runtimes, l.reg.listed)))
  }

  predicate WorkerGone(p: WorkerPhase) {
    p.Exited?
  }

  /** A cancel thread that is in `_cancel_workers` is waited for; a decided one is not yet there. */
  predicate CancelGone(p: CancelPhase) {
    p.Decided? || p.Gone?
  }

  /** Every thread that `close` joins has ended. */
  predicate Drained(reg: Registry) {
    && (forall k | k in reg.workers :: WorkerGone(reg.workers[k]))
    && (forall k | k in reg.cancels :: CancelGone(reg.cancels[k]))
  }

  function CloseStore(reg: Registry): Registry {
    if reg.closed && !reg.storeClosed && Drained(reg) then reg.(storeClosed := true) else reg
  }

  function NewRegistry(maxJobs: nat, maxEvents: nat): Registry {
    Registry(maxJobs, maxEvents, map[], {}, map[], map[], false, false)
  }

  function Recover(rows: map<Key, Row>, maxJobs: nat, maxEvents: nat): Local {
    Local(AbandonRows(rows, "recovered_unknown", maxEvents), NewRegistry(maxJobs, maxEvents))
  }
}
