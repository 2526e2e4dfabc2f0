/** The registry object. Each method is one critical section of the program and is specified by the
    function of the same step in `JobModel`; `JobTheorems` is about runs of those functions. */
module Jobs {
  import opened Wrappers
  import opened JobModel

  datatype LookupError = RegistryClosed | NotFound | NotOwner

  /** The row a caller may see: closed registries answer nothing, a foreign identity is told apart from
      an unknown one. */
  function Lookup(l: Local, k: Key): Result<Row, LookupError> {
    if l.reg.closed then Err(RegistryClosed)
    else if k in l.rows then Ok(l.rows[k])
    else if exists j | j in l.rows :: j.request == k.request then Err(NotOwner)
    else Err(NotFound)
  }

  class JobRegistry {
    const maxJobs: nat
    const maxEvents: nat
    var rows: map<Key, Row>
    var runtimes: map<Key, Runtime>
    var listed: set<Key>
    var workers: map<Key, WorkerPhase>
    var cancels: map<Key, CancelPhase>
    var closed: bool
    var storeClosed: bool

    ghost function View(): Local
      reads this
    {
      Local(rows, Registry(maxJobs, maxEvents, runtimes, listed, workers, cancels, closed, storeClosed))
    }

    /** Opening the store marks every unfinished row of the previous process `unknown`. */
    constructor (stored: map<Key, Row>, maxJobs: nat, maxEvents: nat)
      ensures View() == Recover(stored, maxJobs, maxEvents)
    {
      this.maxJobs, this.maxEvents := maxJobs, maxEvents;
      runtimes, listed, workers, cancels := map[], {}, map[], map[];
      closed, storeClosed := false, false;
      rows := stored;
      new;
      AbandonUnfinished("recovered_unknown");
    }

    /** The loop shared by shutdown and recovery: one update per unfinished row. */
    method AbandonUnfinished(event: string)
      modifies this`rows
      ensures rows == AbandonRows(old(rows), event, maxEvents)
    {
      var todo := set k | k in rows && !Terminal(rows[k].status);
      ghost var all := todo;
      while todo != {}
        invariant todo <= all <= rows.Keys == old(rows).Keys
        invariant forall k | k in rows ::
          rows[k] == if k in all - todo then AbandonedRow(old(rows)[k], event, maxEvents) else old(rows)[k]
        decreases |todo|
      {
        var k :| k in todo;
        var row := AppendEvent(rows[k], Plain(event), maxEvents);
        row := row.(
          status := Status.Unknown,
          dispatch := Dispatch.Unknown,
          inference := if row.inference.NotRequested? then Inference.NotRequested else Inference.Unknown,
          physical := if row.cancelRequested then StopUnconfirmed else Physical.Unknown);
        assert row == AbandonedRow(old(rows)[k], event, maxEvents);
        rows := rows[k := row];
        todo := todo - {k};
      }
      assert forall k | k in rows :: rows[k] == AbandonedRow(old(rows)[k], event, maxEvents);
    }

    method SubmitJob(k: Key, parameters: string, hasCancel: bool, inferenceRequested: bool, runId: nat)
      returns (reply: SubmitReply)
      modifies this
      ensures reply == SubmitReplyOf(old(View()), k, parameters, runId)
      ensures View() == Submit(old(View()), k, parameters, hasCancel, inferenceRequested, runId)
    {
      if closed {
        return Closed;
      }
      if k in rows {
        return if rows[k].parameters != parameters then Conflict else Handle(rows[k].runId);
      }
      if |rows| >= maxJobs {
        return CapacityExceeded;
      }
      rows := rows[k := NewRow(runId, parameters, inferenceRequested)];
      runtimes := runtimes[k := Runtime(hasCancel, false, false)];
      listed := listed + {k};
      workers := workers[k := Spawned];
      return Handle(runId);
    }

    /** First critical section of the worker; `enter` says that `execute` is called next. */
    method BeginWorker(k: Key, now: real) returns (enter: bool)
      requires k in workers && workers[k].Spawned?
      modifies this
      ensures enter == Enters(old(View()), k)
      ensures View() == StartWorker(old(View()), k, now)
    {
      enter := false;
      workers := workers[k := Exited];
      if k !in listed || closed || k !in rows {
        return;
      }
      var row := rows[k];
      if row.status.CancelRequested? {
        var hasCancel := k in runtimes && runtimes[k].hasCancel;
        rows := rows[k := CancelledBeforeDispatch(row, hasCancel, now, maxEvents)];
        listed := listed - {k};
        return;
      }
      if !row.status.Accepted? {
        return;
      }
      rows := rows[k := StartedRow(row, now, maxEvents)];
      workers := workers[k := Executing];
      enter := true;
    }

    /** Last critical section of the worker, after `execute` returned or raised `outcome`. */
    method EndWorker(k: Key, now: real)
      requires k in workers && workers[k].Left?
      modifies this
      ensures View() == FinishWorker(old(View()), k, now)
    {
      var outcome := workers[k].outcome;
      workers := workers[k := Exited];
      listed := listed - {k};
      if closed || k !in rows {
        return;
      }
      var event := k in runtimes && runtimes[k].cancelEvent;
      rows := rows[k := FinishedRow(rows[k], event || rows[k].cancelRequested, outcome, now, maxEvents)];
    }

    /** Recording part of `cancel`; a first call of a job with a cancel callback leaves it `Decided`. */
    method RequestCancel(k: Key) returns (reply: Result<Row, LookupError>)
      modifies this
      ensures View() == Cancel(old(View()), k)
      ensures reply == if Lookup(old(View()), k).Err? then Lookup(old(View()), k) else Ok(rows[k])
    {
      if closed {
        return Err(RegistryClosed);
      }
      if k !in rows {
        var foreign := exists j | j in rows :: j.request == k.request;
        return Err(if foreign then NotOwner else NotFound);
      }
      if Terminal(rows[k].status) || k !in listed || k !in runtimes {
        return Ok(rows[k]);
      }
      var runtime := runtimes[k];
      runtimes := runtimes[k := runtime.(cancelEvent := true, cancelInvoked := true)];
      if !runtime.cancelInvoked && runtime.hasCancel {
        cancels := cancels[k := Decided];
      }
      rows := rows[k := CancelledRow(rows[k], maxEvents)];
      return Ok(rows[k]);
    }

    /** The cancel thread is registered before it starts, unless `close` came first. */
    method RegisterCancelThread(k: Key) returns (start: bool)
      requires k in cancels && cancels[k].Decided?
      modifies this`cancels
      ensures View().reg == RegisterCancel(old(View()).reg, k) && start == !closed
    {
      cancels := cancels[k := if closed then Gone else Registered];
      return !closed;
    }

    /** Critical section after the cancel callback. */
    method EndCancel(k: Key)
      requires k in cancels && cancels[k].Answered?
      modifies this
      ensures View() == PostCancel(old(View()), k)
    {
      var outcome := cancels[k].outcome;
      cancels := cancels[k := Posted];
      if closed || k !in rows || !(rows[k].status.CancelRequested? || rows[k].status.Cancelled?) {
        return;
      }
      rows := rows[k := AnsweredRow(rows[k], outcome, maxEvents)];
    }

    method AddStage(k: Key, event: Event) returns (reply: Result<Row, LookupError>)
      modifies this`rows
      ensures View() == RecordStage(old(View()), k, event)
      ensures reply == if Lookup(old(View()), k).Err? then Lookup(old(View()), k) else Ok(rows[k])
    {
      if closed {
        return Err(RegistryClosed);
      }
      if k !in rows {
        var foreign := exists j | j in rows :: j.request == k.request;
        return Err(if foreign then NotOwner else NotFound);
      }
      rows := rows[k := AppendEvent(rows[k], event, maxEvents)];
      return Ok(rows[k]);
    }

    /** First critical section of `close`: rows, then the flag, then every registered cancel event. */
    method ShutDown()
      modifies this
      ensures View() == BeginClose(old(View()))
    {
      if closed {
        return;
      }
      AbandonUnfinished("closed_unknown");
      closed := true;
      SignalAll();
    }

    /** Sets the cancel event of every runtime that is still listed. */
    method SignalAll()
      modifies this`runtimes
      ensures runtimes == SignalListed(old(runtimes), listed)
    {
      var todo := listed * runtimes.Keys;
      while todo != {}
        invariant todo <= listed * runtimes.Keys && runtimes.Keys == old(runtimes).Keys
        invariant forall k | k in runtimes ::
          runtimes[k] == if k in listed && k !in todo then Signalled(old(runtimes)[k]) else old(runtimes)[k]
        decreases |todo|
      {
        var k :| k in todo;
        runtimes := runtimes[k := runtimes[k].(cancelEvent := true)];
        todo := todo - {k};
      }
    }

    /** Last critical section of `close`: `false` while a worker or cancel thread is alive. */
    method ReleaseStore() returns (done: bool)
      requires closed
      modifies this`storeClosed
      ensures View().reg == CloseStore(old(View()).reg) && rows == old(rows)
      ensures done == storeClosed
    {
      if storeClosed {
        return true;
      }
      var alive := exists k | k in workers :: !WorkerGone(workers[k]);
      var calling := exists k | k in cancels :: !CancelGone(cancels[k]);
      if alive || calling {
        return false;
      }
      storeClosed := true;
      return true;
    }
  }
}
