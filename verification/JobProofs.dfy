/** Every step of a run keeps the invariant. Most steps touch one key of one incarnation; they share
    the frame argument of `OneKey`. */
module JobProofs {
  import opened Wrappers
  import opened JobModel
  import opened JobRuns

  lemma InitHolds()
    ensures Inv(INIT)
  {
  }

  // ----- steps on one key

  predicate SameAt(reg: Registry, reg': Registry, j: Key) {
    && (j in reg'.workers <==> j in reg.workers) && (j in reg.workers ==> reg'.workers[j] == reg.workers[j])
    && (j in reg'.runtimes <==> j in reg.runtimes) && (j in reg.runtimes ==> reg'.runtimes[j] == reg.runtimes[j])
    && (j in reg'.cancels <==> j in reg.cancels) && (j in reg.cancels ==> reg'.cancels[j] == reg.cancels[j])
    && (j in reg'.listed <==> j in reg.listed)
  }

  /** `w'` differs from `w` in the row of `k`, in what `i` holds about `k`, and by the calls `extra`. */
  ghost predicate OneKeyStep(w: World, w': World, i: nat, k: Key, extra: seq<Call>) {
    && i in w.incs && i in w'.incs && k in w.rows && k in w'.rows
    && w'.rows == w.rows[k := w'.rows[k]]
    && w'.incs == w.incs[i := w'.incs[i]]
    && (forall j | j != k :: SameAt(w.incs[i], w'.incs[i], j))
    && w'.incs[i].closed == w.incs[i].closed && w'.incs[i].storeClosed == w.incs[i].storeClosed
    && w'.flock == w.flock && w'.nextInc == w.nextInc && w'.nextRun == w.nextRun && w'.accepted == w.accepted
    && w'.calls == w.calls + extra
    && |extra| <= 1 && (forall c | c in extra :: c.inc == i && c.key == k)
  }

  /** The new row keeps what no step may take back. */
  predicate RowMoves(r: Row, r': Row) {
    && RowOk(r') && r'.runId == r.runId
    && (r.cancelRequested ==> r'.cancelRequested)
    && (r'.inference.NotRequested? <==> r.inference.NotRequested? && !r'.cancelRequested)
  }

  lemma OneKeyRows(w: World, w': World, i: nat, k: Key, extra: seq<Call>)
    requires RowsOk(w) && RunIdsDistinct(w) && OneKeyStep(w, w', i, k, extra)
    requires RowMoves(w.rows[k], w'.rows[k])
    ensures RowsOk(w') && RunIdsDistinct(w')
  {
    assert forall m | m in w'.rows && m != k :: w'.rows[m] == w.rows[m];
    assert forall m | m in w'.rows :: w'.rows[m].runId == w.rows[m].runId;
  }

  lemma OneKeyLock(w: World, w': World, i: nat, k: Key, extra: seq<Call>)
    requires LockOk(w) && OneKeyStep(w, w', i, k, extra)
    requires w.incs[i].storeClosed ==> Drained(w'.incs[i])
    ensures LockOk(w')
  {
  }

  lemma OneKeyFits(w: World, w': World, i: nat, k: Key, extra: seq<Call>, j: nat, m: Key)
    requires Inv(w) && OneKeyStep(w, w', i, k, extra) && RowMoves(w.rows[k], w'.rows[k])
    requires w.incs[i].closed ==> w'.rows == w.rows
    requires Fits(w', i, k) && j in w'.incs
    ensures Fits(w', j, m)
  {
    if j != i || m != k {
      assert Fits(w, j, m);
      if j == i {
        assert SameAt(w.incs[i], w'.incs[i], m);
      }
    }
  }

  lemma OneKeyTruth(w: World, w': World, i: nat, k: Key, extra: seq<Call>, m: Key)
    requires RowsOk(w) && HistoryOk(w) && OneKeyStep(w, w', i, k, extra) && RowsOk(w')
    requires RowTrue(w', k) && m in w'.rows
    ensures RowTrue(w', m)
  {
    if m != k {
      assert RowTrue(w, m);
      if extra == [] {
        assert w'.calls == w.calls;
      } else {
        assert extra == [extra[0]];
        TruthGrows(w, w', extra[0], m);
      }
    }
  }

  lemma OneKeyCancelIn(w: World, w': World, i: nat, k: Key, extra: seq<Call>, c: Call)
    requires OneKeyStep(w, w', i, k, extra) && RowMoves(w.rows[k], w'.rows[k])
    requires c.CancelIn? && CancelInFits(w, c) && !(c.inc == i && c.key == k)
    ensures CancelInFits(w', c)
  {
    if c.inc == i {
      assert SameAt(w.incs[i], w'.incs[i], c.key);
    }
  }

  lemma OnceGrows(calls: seq<Call>, c: Call)
    requires EnteredAtMostOnce(calls) && CancelledAtMostOnce(calls)
    requires c.ExecuteIn? ==> !EnteredBy(calls, c.key)
    requires c.CancelIn? ==> forall b | b in calls && b.CancelIn? :: b.key != c.key
    ensures EnteredAtMostOnce(calls + [c]) && CancelledAtMostOnce(calls + [c])
  {
  }

  /** No callback is entered twice, still. */
  lemma OneKeyOnce(w: World, w': World, i: nat, k: Key, extra: seq<Call>)
    requires RowsOk(w) && HistoryOk(w) && OneKeyStep(w, w', i, k, extra) && Owns(w, i, k)
    requires extra != [] && extra[0].ExecuteIn? ==> !EnteredBy(w.calls, k)
    requires extra != [] && extra[0].CancelIn? ==> CancelIn(i, k) !in w.calls
    ensures EnteredAtMostOnce(w'.calls) && CancelledAtMostOnce(w'.calls)
  {
    if extra == [] {
      assert w'.calls == w.calls;
    } else {
      assert extra == [extra[0]];
      forall b | b in w.calls && b.CancelIn? && b.key == k
        ensures b == CancelIn(i, k)
      {
        assert CancelInFits(w, b);
      }
      OnceGrows(w.calls, extra[0]);
    }
  }

  lemma OneKeyOwners(w: World, w': World, i: nat, k: Key, extra: seq<Call>)
    requires RowsOk(w) && HistoryOk(w) && OneKeyStep(w, w', i, k, extra) && Owns(w, i, k)
    ensures forall c | c in w'.calls && c.ExecuteIn? :: Owns(w', c.inc, c.key)
  {
    assert extra == [] || extra == [extra[0]];
  }

  lemma OneKeyHistory(w: World, w': World, i: nat, k: Key, extra: seq<Call>)
    requires RowsOk(w) && HistoryOk(w) && OneKeyStep(w, w', i, k, extra)
    requires RowMoves(w.rows[k], w'.rows[k]) && RowsOk(w')
    requires Owns(w, i, k) && RowTrue(w', k)
    requires extra != [] && extra[0].ExecuteIn? ==> !EnteredBy(w.calls, k)
    requires CancelIn(i, k) in w.calls ==> CancelInFits(w', CancelIn(i, k))
    requires extra != [] && extra[0].CancelIn? ==> CancelInFits(w', extra[0]) && CancelIn(i, k) !in w.calls
    ensures HistoryOk(w')
  {
    forall m | m in w'.rows
      ensures RowTrue(w', m)
    {
      OneKeyTruth(w, w', i, k, extra, m);
    }
    forall c | c in w'.calls && c.CancelIn?
      ensures CancelInFits(w', c)
    {
      if c in w.calls && c != CancelIn(i, k) {
        OneKeyCancelIn(w, w', i, k, extra, c);
      }
    }
    OneKeyOnce(w, w', i, k, extra);
    OneKeyOwners(w, w', i, k, extra);
  }

  /** What `Inv` says about one key of one incarnation. */
  ghost predicate KeyFacts(w: World, i: nat, k: Key) {
    && i in w.incs && Owns(w, i, k) && Fits(w, i, k)
    && RowOk(w.rows[k]) && RowTrue(w, k)
    && (w.incs[i].storeClosed ==> w.incs[i].closed && Drained(w.incs[i]))
    && (CancelIn(i, k) in w.calls ==> CancelInFits(w, CancelIn(i, k)))
    && i < w.nextInc
  }

  /** What a step on one key has to bring along for the invariant to survive. */
  ghost predicate StepFacts(w: World, w': World, i: nat, k: Key, extra: seq<Call>) {
    && OneKeyStep(w, w', i, k, extra) && RowMoves(w.rows[k], w'.rows[k])
    && (w.incs[i].storeClosed ==> Drained(w'.incs[i]))
    && (w.incs[i].closed ==> w'.rows == w.rows)
    && Owns(w, i, k) && Owns(w', i, k) && RowTrue(w', k) && Fits(w', i, k)
    && (extra != [] && extra[0].ExecuteIn? ==> !EnteredBy(w.calls, k))
    && (CancelIn(i, k) in w.calls ==> CancelInFits(w', CancelIn(i, k)))
    && (extra != [] && extra[0].CancelIn? ==> CancelInFits(w', extra[0]) && CancelIn(i, k) !in w.calls)
  }

  lemma OneKey(w: World, w': World, i: nat, k: Key, extra: seq<Call>)
    requires Inv(w) && StepFacts(w, w', i, k, extra)
    ensures Inv(w')
  {
    OneKeyRows(w, w', i, k, extra);
    OneKeyLock(w, w', i, k, extra);
    forall j, m | j in w'.incs
      ensures Fits(w', j, m)
    {
      OneKeyFits(w, w', i, k, extra, j, m);
    }
    OneKeyHistory(w, w', i, k, extra);
  }

  lemma FactsOf(w: World, i: nat, k: Key)
    requires Inv(w) && i in w.incs && Owns(w, i, k)
    ensures KeyFacts(w, i, k)
  {
    assert Fits(w, i, k) && RowTrue(w, k);
  }

  // ----- the worker thread

  lemma StartRowMoves(r: Row, hasCancel: bool, now: real, maxEvents: nat)
    requires RowOk(r)
    ensures r.status.CancelRequested? ==> RowMoves(r, CancelledBeforeDispatch(r, hasCancel, now, maxEvents))
    ensures r.status.Accepted? ==> RowMoves(r, StartedRow(r, now, maxEvents))
  {
  }

  lemma EnterFacts(w: World, i: nat, k: Key, now: real)
    requires KeyFacts(w, i, k) && k in w.incs[i].workers && w.incs[i].workers[k].Spawned? && Enters(At(w, i), k)
    ensures StepFacts(w, Began(w, i, k, now), i, k, [ExecuteIn(i, k)])
  {
    StartRowMoves(w.rows[k], false, now, w.incs[i].maxEvents);
    EnteredGrows(w.calls, ExecuteIn(i, k), k);
    assert ExecuteIn(i, k) in Began(w, i, k, now).calls;
  }

  lemma ExitFacts(w: World, i: nat, k: Key, now: real)
    requires KeyFacts(w, i, k) && k in w.incs[i].workers && w.incs[i].workers[k].Spawned? && !Enters(At(w, i), k)
    ensures StepFacts(w, Began(w, i, k, now), i, k, [])
  {
    var reg := w.incs[i];
    StartRowMoves(w.rows[k], k in reg.runtimes && reg.runtimes[k].hasCancel, now, reg.maxEvents);
    assert Began(w, i, k, now).calls == w.calls + [];
  }

  lemma LeaveFacts(w: World, a: Action)
    requires a.DoLeave? && KeyFacts(w, a.inc, a.key)
    requires a.key in w.incs[a.inc].workers && w.incs[a.inc].workers[a.key].Executing?
    ensures StepFacts(w, Next(w, a), a.inc, a.key, [ExecuteOut(a.inc, a.key, a.outcome)])
  {
    TruthGrows(w, Next(w, a), ExecuteOut(a.inc, a.key, a.outcome), a.key);
  }

  lemma FinishedRowMoves(r: Row, cancelled: bool, o: Outcome, now: real, maxEvents: nat)
    requires RowOk(r) && (r.status.Running? || r.status.CancelRequested?) && r.started.Some? && cancelled == r.cancelRequested
    ensures RowMoves(r, FinishedRow(r, cancelled, o, now, maxEvents))
  {
  }

  lemma FinishFacts(w: World, a: Action)
    requires a.DoFinish? && KeyFacts(w, a.inc, a.key)
    requires a.key in w.incs[a.inc].workers && w.incs[a.inc].workers[a.key].Left?
    ensures StepFacts(w, Next(w, a), a.inc, a.key, [])
  {
    var i, k, w' := a.inc, a.key, Next(w, a);
    var o := w.incs[i].workers[k].outcome;
    assert w'.calls == w.calls + [];
    if !w.incs[i].closed {
      FinishedRowMoves(w.rows[k], w.rows[k].cancelRequested, o, a.now, w.incs[i].maxEvents);
      if o.Returns? {
        ParsersReadStops(o.value);
      }
    }
  }

  // ----- cancellation

  lemma CancelFacts(w: World, a: Action)
    requires a.DoCancel? && KeyFacts(w, a.inc, a.key) && Cancels(At(w, a.inc), a.key)
    ensures StepFacts(w, Next(w, a), a.inc, a.key, [])
  {
    assert Next(w, a).calls == w.calls + [];
  }

  lemma RegisterFacts(w: World, a: Action)
    requires (a.DoRegister? || a.DoExitCancel?) && KeyFacts(w, a.inc, a.key) && a.key in w.incs[a.inc].cancels
    ensures StepFacts(w, Next(w, a), a.inc, a.key, [])
  {
    assert Next(w, a).calls == w.calls + [];
  }

  lemma EnterCancelFacts(w: World, a: Action)
    requires a.DoEnterCancel? && KeyFacts(w, a.inc, a.key)
    requires a.key in w.incs[a.inc].cancels && w.incs[a.inc].cancels[a.key].Registered?
    ensures StepFacts(w, Next(w, a), a.inc, a.key, [CancelIn(a.inc, a.key)])
  {
    TruthGrows(w, Next(w, a), CancelIn(a.inc, a.key), a.key);
  }

  lemma LeaveCancelFacts(w: World, a: Action)
    requires a.DoLeaveCancel? && KeyFacts(w, a.inc, a.key)
    requires a.key in w.incs[a.inc].cancels && w.incs[a.inc].cancels[a.key].Calling?
    ensures StepFacts(w, Next(w, a), a.inc, a.key, [CancelOut(a.inc, a.key, a.outcome)])
  {
    TruthGrows(w, Next(w, a), CancelOut(a.inc, a.key, a.outcome), a.key);
  }

  lemma AnsweredRowMoves(r: Row, o: Outcome, maxEvents: nat)
    requires RowOk(r) && r.cancelRequested
    ensures RowMoves(r, AnsweredRow(r, o, maxEvents))
  {
  }

  lemma PostFacts(w: World, i: nat, k: Key)
    requires KeyFacts(w, i, k) && k in w.incs[i].cancels && w.incs[i].cancels[k].Answered?
    ensures StepFacts(w, Put(w, i, PostCancel(At(w, i), k)), i, k, [])
  {
    var o := w.incs[i].cancels[k].outcome;
    assert w.calls == w.calls + [];
    AnsweredRowMoves(w.rows[k], o, w.incs[i].maxEvents);
    if o.Returns? {
      ParsersReadStops(o.value);
    }
  }

  // ----- steps on many rows

  ghost predicate ManyRowsStep(w: World, w': World) {
    && w'.rows.Keys == w.rows.Keys == w.accepted.Keys && w'.accepted == w.accepted && w'.calls == w.calls
    && w'.nextRun == w.nextRun && w.nextInc <= w'.nextInc
    && (forall k | k in w.rows :: RowMoves(w.rows[k], w'.rows[k]) && RowTrue(w', k))
    && (forall i | i in w'.incs && i < w.nextInc :: i in w.incs && w'.incs[i].cancels == w.incs[i].cancels)
  }

  lemma ManyRowsHistory(w: World, w': World)
    requires RowsOk(w) && RunIdsDistinct(w) && HistoryOk(w) && ManyRowsStep(w, w')
    ensures RowsOk(w') && RunIdsDistinct(w') && HistoryOk(w')
  {
    assert RowsOk(w') && RunIdsDistinct(w');
    forall c | c in w'.calls && c.CancelIn?
      ensures CancelInFits(w', c)
    {
      assert CancelInFits(w, c);
      assert RowMoves(w.rows[c.key], w'.rows[c.key]);
    }
    forall c | c in w'.calls && c.ExecuteIn?
      ensures Owns(w', c.inc, c.key)
    {
      assert Owns(w, c.inc, c.key);
    }
  }

  lemma ManyRows(w: World, w': World)
    requires Inv(w) && ManyRowsStep(w, w') && LockOk(w')
    requires forall i, k | i in w'.incs :: Fits(w', i, k)
    ensures Inv(w')
  {
    ManyRowsHistory(w, w');
  }

  lemma AbandonMoves(w: World, k: Key, event: string, maxEvents: nat)
    requires RowsOk(w) && k in w.rows && RowTrue(w, k)
    ensures RowMoves(w.rows[k], AbandonedRow(w.rows[k], event, maxEvents))
    ensures RowTrue(w.(rows := AbandonRows(w.rows, event, maxEvents)), k)
  {
  }

  lemma AppendMoves(r: Row, e: Event, maxEvents: nat)
    requires RowOk(r)
    ensures RowMoves(r, AppendEvent(r, e, maxEvents)) && SameClaims(r, AppendEvent(r, e, maxEvents))
  {
  }

  lemma StageStep(w: World, i: nat, k: Key, e: Event)
    requires RowsOk(w) && (forall m | m in w.rows :: RowTrue(w, m)) && i in w.incs && !w.incs[i].closed && k in w.rows
    ensures ManyRowsStep(w, Staged(w, i, k, e)) && Staged(w, i, k, e).incs == w.incs && Staged(w, i, k, e).flock == w.flock
  {
    var w' := Staged(w, i, k, e);
    forall m | m in w.rows
      ensures RowMoves(w.rows[m], w'.rows[m]) && RowTrue(w', m)
    {
      assert RowOk(w.rows[m]) && RowTrue(w, m);
      if m == k {
        AppendMoves(w.rows[k], e, w.incs[i].maxEvents);
        TruthKept(w.rows[k], w'.rows[k], w.accepted[k].inc, k, w.calls);
      }
    }
  }

  function Staged(w: World, i: nat, k: Key, e: Event): World
    requires i in w.incs
  {
    Put(w, i, RecordStage(At(w, i), k, e))
  }

  lemma StageFits(w: World, i: nat, k: Key, e: Event, j: nat, m: Key)
    requires i in w.incs && !w.incs[i].closed && k in w.rows && j in w.incs && Fits(w, j, m)
    ensures Fits(Staged(w, i, k, e), j, m)
  {
  }

  /** A stage may be recorded on a row that an earlier incarnation accepted. */
  lemma StageKeeps(w: World, i: nat, k: Key, e: Event)
    requires Inv(w) && i in w.incs && !w.incs[i].closed && k in w.rows
    ensures Inv(Staged(w, i, k, e))
  {
    StageStep(w, i, k, e);
    forall j, m | j in w.incs
      ensures Fits(Staged(w, i, k, e), j, m)
    {
      assert Fits(w, j, m);
      StageFits(w, i, k, e, j, m);
    }
    ManyRows(w, Staged(w, i, k, e));
  }

  lemma OpenStep(w: World, a: Action)
    requires RowsOk(w) && (forall m | m in w.rows :: RowTrue(w, m)) && LockOk(w) && a.Open? && w.flock.None?
    ensures ManyRowsStep(w, Next(w, a))
  {
    var w' := Next(w, a);
    forall m | m in w.rows
      ensures RowMoves(w.rows[m], w'.rows[m]) && RowTrue(w', m)
    {
      AbandonMoves(w, m, "recovered_unknown", a.maxEvents);
    }
  }

  lemma OpenLock(w: World, a: Action)
    requires LockOk(w) && a.Open? && w.flock.None?
    ensures LockOk(Next(w, a))
  {
  }

  lemma OpenFits(w: World, a: Action, j: nat, m: Key)
    requires LockOk(w) && a.Open? && w.flock.None? && j in Next(w, a).incs && RowsOk(w) && (j in w.incs ==> Fits(w, j, m))
    ensures Fits(Next(w, a), j, m)
  {
  }

  lemma OpenKeeps(w: World, a: Action)
    requires Inv(w) && a.Open? && w.flock.None?
    ensures Inv(Next(w, a))
  {
    var w' := Next(w, a);
    OpenStep(w, a);
    OpenLock(w, a);
    forall j, m | j in w'.incs
      ensures Fits(w', j, m)
    {
      if j in w.incs {
        assert Fits(w, j, m);
      }
      OpenFits(w, a, j, m);
    }
    ManyRows(w, w');
  }

  lemma CloseFits(w: World, i: nat, j: nat, m: Key)
    requires LockOk(w) && RowsOk(w) && i in w.incs && !w.incs[i].closed && j in w.incs && Fits(w, j, m)
    ensures Fits(Next(w, DoClose(i)), j, m)
  {
  }

  lemma CloseLock(w: World, i: nat)
    requires LockOk(w) && i in w.incs && !w.incs[i].closed
    ensures LockOk(Next(w, DoClose(i)))
  {
    var w' := Next(w, DoClose(i));
    assert forall j | j in w'.incs && j != i :: w'.incs[j] == w.incs[j];
  }

  lemma CloseStep(w: World, i: nat)
    requires RowsOk(w) && (forall k | k in w.rows :: RowTrue(w, k)) && i in w.incs && !w.incs[i].closed
    ensures ManyRowsStep(w, Next(w, DoClose(i))) && Next(w, DoClose(i)).incs.Keys == w.incs.Keys
  {
    forall m | m in w.rows
      ensures RowMoves(w.rows[m], Next(w, DoClose(i)).rows[m]) && RowTrue(Next(w, DoClose(i)), m)
    {
      AbandonMoves(w, m, "closed_unknown", w.incs[i].maxEvents);
    }
  }

  lemma CloseKeeps(w: World, i: nat)
    requires Inv(w) && i in w.incs && !w.incs[i].closed
    ensures Inv(Next(w, DoClose(i)))
  {
    CloseStep(w, i);
    forall j, m | j in w.incs
      ensures Fits(Next(w, DoClose(i)), j, m)
    {
      assert Fits(w, j, m);
      CloseFits(w, i, j, m);
    }
    CloseLock(w, i);
    ManyRows(w, Next(w, DoClose(i)));
  }

  /** Closing the store and crashing leave the rows alone, and of one incarnation at most the closed mark. */
  predicate Releases(w: World, w': World, i: nat) {
    && w'.rows == w.rows && w'.accepted == w.accepted && w'.calls == w.calls
    && w'.nextRun == w.nextRun && w'.nextInc == w.nextInc
    && (forall j | j in w'.incs :: j in w.incs && w'.incs[j] == w.incs[j].(storeClosed := w'.incs[j].storeClosed))
  }

  lemma CrashReleases(w: World, i: nat)
    requires LockOk(w) && i in w.incs
    ensures Releases(w, Crashed(w, i), i) && LockOk(Crashed(w, i))
  {
    assert forall j | j in w.incs && j != i :: j in Crashed(w, i).incs && Crashed(w, i).incs[j] == w.incs[j];
  }

  lemma StoreReleases(w: World, i: nat)
    requires LockOk(w) && i in w.incs
    ensures Releases(w, StoreClosed(w, i), i) && LockOk(StoreClosed(w, i))
  {
    assert forall j | j in w.incs && j != i :: StoreClosed(w, i).incs[j] == w.incs[j];
  }

  lemma ReleaseFits(w: World, w': World, i: nat, j: nat, m: Key)
    requires Releases(w, w', i) && j in w'.incs && Fits(w, j, m)
    ensures Fits(w', j, m)
  {
  }

  lemma ReleaseStep(w: World, w': World, i: nat)
    requires RowsOk(w) && (forall k | k in w.rows :: RowTrue(w, k)) && Releases(w, w', i)
    ensures ManyRowsStep(w, w')
  {
    forall m | m in w.rows
      ensures RowMoves(w.rows[m], w'.rows[m]) && RowTrue(w', m)
    {
      assert RowOk(w.rows[m]) && RowTrue(w, m);
    }
  }

  lemma ReleaseKeeps(w: World, w': World, i: nat)
    requires Inv(w) && Releases(w, w', i) && LockOk(w')
    ensures Inv(w')
  {
    ReleaseStep(w, w', i);
    forall j, m | j in w'.incs
      ensures Fits(w', j, m)
    {
      assert Fits(w, j, m);
      ReleaseFits(w, w', i, j, m);
    }
    ManyRows(w, w');
  }

  lemma SubmitFits(w: World, a: Action, j: nat, m: Key)
    requires a.DoSubmit? && a.inc in w.incs && Accepts(At(w, a.inc), a.key)
    requires LockOk(w) && j in w.incs && Fits(w, j, m)
    ensures Fits(Next(w, a), j, m)
  {
  }

  lemma SubmitKeeps(w: World, a: Action)
    requires Inv(w) && a.DoSubmit? && a.inc in w.incs && Accepts(At(w, a.inc), a.key)
    ensures Inv(Next(w, a))
  {
    var w' := Next(w, a);
    SubmitRows(w, a);
    SubmitRunIds(w, a);
    SubmitLock(w, a);
    forall j, m | j in w'.incs
      ensures Fits(w', j, m)
    {
      assert Fits(w, j, m);
      SubmitFits(w, a, j, m);
    }
    SubmitHistory(w, a);
  }

  lemma SubmitRows(w: World, a: Action)
    requires RowsOk(w) && a.DoSubmit? && a.inc in w.incs && Accepts(At(w, a.inc), a.key)
    ensures RowsOk(Next(w, a))
  {
  }

  lemma SubmitRunIds(w: World, a: Action)
    requires RowsOk(w) && RunIdsDistinct(w) && a.DoSubmit? && a.inc in w.incs && Accepts(At(w, a.inc), a.key)
    ensures RunIdsDistinct(Next(w, a))
  {
  }

  lemma SubmitLock(w: World, a: Action)
    requires LockOk(w) && a.DoSubmit? && a.inc in w.incs && Accepts(At(w, a.inc), a.key)
    ensures LockOk(Next(w, a))
  {
  }

  lemma SubmitTruth(w: World, a: Action, k: Key)
    requires RowsOk(w) && (forall c | c in w.calls && c.ExecuteIn? :: Owns(w, c.inc, c.key))
    requires a.DoSubmit? && a.inc in w.incs && Accepts(At(w, a.inc), a.key)
    requires k == a.key || (k in w.rows && RowTrue(w, k))
    ensures k in Next(w, a).rows && RowTrue(Next(w, a), k)
  {
  }

  lemma SubmitCancelIn(w: World, a: Action, c: Call)
    requires a.DoSubmit? && a.inc in w.incs && Accepts(At(w, a.inc), a.key)
    requires c.CancelIn? && CancelInFits(w, c)
    ensures CancelInFits(Next(w, a), c)
  {
  }

  lemma SubmitFrame(w: World, a: Action)
    requires a.DoSubmit? && a.inc in w.incs && Accepts(At(w, a.inc), a.key)
    ensures Next(w, a).calls == w.calls && Next(w, a).rows.Keys == w.rows.Keys + {a.key}
    ensures forall i, k | Owns(w, i, k) :: Owns(Next(w, a), i, k)
  {
  }

  lemma SubmitHistory(w: World, a: Action)
    requires RowsOk(w) && HistoryOk(w) && RowsOk(Next(w, a))
    requires a.DoSubmit? && a.inc in w.incs && Accepts(At(w, a.inc), a.key)
    ensures HistoryOk(Next(w, a))
  {
    SubmitFrame(w, a);
    forall k | k in Next(w, a).rows
      ensures RowTrue(Next(w, a), k)
    {
      SubmitTruth(w, a, k);
    }
    forall c | c in w.calls && c.CancelIn?
      ensures CancelInFits(Next(w, a), c)
    {
      SubmitCancelIn(w, a, c);
    }
  }

  /** The worker's steps, whether or not they find something to do. */
  lemma WorkerKeeps(w: World, a: Action)
    requires Inv(w) && (a.DoStart? || a.DoLeave? || a.DoFinish?) && a.inc in w.incs
    ensures Inv(Next(w, a))
  {
    WorkerIdle(w, a);
    if WorkerMoves(w.incs[a.inc], a) {
      WorkerOwned(w, a.inc, a.key);
      if a.DoStart? {
        WorkerStartKeeps(w, a);
      } else {
        WorkerEndKeeps(w, a);
      }
    }
  }

  lemma WorkerStartKeeps(w: World, a: Action)
    requires Inv(w) && a.DoStart? && KeyFacts(w, a.inc, a.key) && WorkerMoves(w.incs[a.inc], a)
    ensures Inv(Next(w, a))
  {
    StartIsBegan(w, a);
    if Enters(At(w, a.inc), a.key) {
      EnterFacts(w, a.inc, a.key, a.now);
      OneKey(w, Began(w, a.inc, a.key, a.now), a.inc, a.key, [ExecuteIn(a.inc, a.key)]);
    } else {
      ExitFacts(w, a.inc, a.key, a.now);
      OneKey(w, Began(w, a.inc, a.key, a.now), a.inc, a.key, []);
    }
  }

  lemma StartIsBegan(w: World, a: Action)
    requires a.DoStart? && a.inc in w.incs
    ensures Next(w, a) == Began(w, a.inc, a.key, a.now)
  {
  }

  lemma WorkerEndKeeps(w: World, a: Action)
    requires Inv(w) && (a.DoLeave? || a.DoFinish?) && KeyFacts(w, a.inc, a.key) && WorkerMoves(w.incs[a.inc], a)
    ensures Inv(Next(w, a))
  {
    if a.DoLeave? {
      LeaveFacts(w, a);
      OneKey(w, Next(w, a), a.inc, a.key, [ExecuteOut(a.inc, a.key, a.outcome)]);
    } else {
      FinishFacts(w, a);
      OneKey(w, Next(w, a), a.inc, a.key, []);
    }
  }

  /** The worker stands where the step takes it up. */
  predicate WorkerMoves(reg: Registry, a: Action)
    requires a.DoStart? || a.DoLeave? || a.DoFinish?
  {
    && a.key in reg.workers
    && (a.DoStart? ==> reg.workers[a.key].Spawned?) && (a.DoLeave? ==> reg.workers[a.key].Executing?)
    && (a.DoFinish? ==> reg.workers[a.key].Left?)
  }

  lemma WorkerIdle(w: World, a: Action)
    requires (a.DoStart? || a.DoLeave? || a.DoFinish?) && a.inc in w.incs
    ensures !WorkerMoves(w.incs[a.inc], a) ==> Next(w, a) == w
  {
    assert w.incs[a.inc := w.incs[a.inc]] == w.incs;
  }

  lemma WorkerOwned(w: World, i: nat, k: Key)
    requires Inv(w) && i in w.incs && k in w.incs[i].workers
    ensures KeyFacts(w, i, k)
  {
    assert Fits(w, i, k);
    FactsOf(w, i, k);
  }

  lemma CancelKeeps(w: World, a: Action)
    requires Inv(w) && a.DoCancel? && a.inc in w.incs
    ensures Inv(Next(w, a))
  {
    assert Fits(w, a.inc, a.key);
    if Cancels(At(w, a.inc), a.key) {
      FactsOf(w, a.inc, a.key);
      CancelFacts(w, a);
      OneKey(w, Next(w, a), a.inc, a.key, []);
    } else {
      assert Next(w, a) == w;
    }
  }

  lemma CancelThreadKeeps(w: World, a: Action)
    requires a.DoRegister? || a.DoEnterCancel? || a.DoLeaveCancel? || a.DoExitCancel?
    requires Inv(w) && a.inc in w.incs
    ensures Inv(Next(w, a))
  {
    var i, k, reg := a.inc, a.key, w.incs[a.inc];
    CancelThreadIdle(w, a);
    if CancelThreadMoves(reg, a) {
      CancelThreadOwned(w, i, k);
      if a.DoRegister? || a.DoExitCancel? {
        RegisterFacts(w, a);
        OneKey(w, Next(w, a), i, k, []);
      } else if a.DoEnterCancel? {
        EnterCancelFacts(w, a);
        OneKey(w, Next(w, a), i, k, [CancelIn(i, k)]);
      } else {
        LeaveCancelFacts(w, a);
        OneKey(w, Next(w, a), i, k, [CancelOut(i, k, a.outcome)]);
      }
    }
  }

  /** The cancel thread stands where the step takes it up. */
  predicate CancelThreadMoves(reg: Registry, a: Action)
    requires a.DoRegister? || a.DoEnterCancel? || a.DoLeaveCancel? || a.DoExitCancel?
  {
    && a.key in reg.cancels
    && (a.DoEnterCancel? ==> reg.cancels[a.key].Registered?) && (a.DoLeaveCancel? ==> reg.cancels[a.key].Calling?)
  }

  lemma CancelThreadIdle(w: World, a: Action)
    requires a.DoRegister? || a.DoEnterCancel? || a.DoLeaveCancel? || a.DoExitCancel?
    requires a.inc in w.incs
    ensures !CancelThreadMoves(w.incs[a.inc], a) ==> Next(w, a) == w
  {
    assert w.incs[a.inc := w.incs[a.inc]] == w.incs;
  }

  lemma CancelThreadOwned(w: World, i: nat, k: Key)
    requires Inv(w) && i in w.incs && k in w.incs[i].cancels
    ensures KeyFacts(w, i, k)
  {
    assert Fits(w, i, k);
    FactsOf(w, i, k);
  }

  lemma PostKeeps(w: World, i: nat, k: Key)
    requires Inv(w) && i in w.incs
    ensures Inv(Put(w, i, PostCancel(At(w, i), k)))
  {
    assert Fits(w, i, k);
    if k in w.incs[i].cancels && w.incs[i].cancels[k].Answered? {
      FactsOf(w, i, k);
      PostFacts(w, i, k);
      OneKey(w, Put(w, i, PostCancel(At(w, i), k)), i, k, []);
    } else {
      assert Put(w, i, PostCancel(At(w, i), k)) == w;
    }
  }

  /** Steps of worker and cancel threads and of their callers. */
  predicate OfThread(a: Action) {
    && !a.Open? && !a.Crash? && !a.DoCloseStore? && !a.DoClose? && !a.DoSubmit? && !a.DoStage?
  }

  lemma ThreadKeeps(w: World, a: Action)
    requires Inv(w) && OfThread(a) && a.inc in w.incs
    ensures Inv(Next(w, a))
  {
    match a
    case DoCancel(_, _) => CancelKeeps(w, a);
    case DoStart(_, _, _) => WorkerKeeps(w, a);
    case DoLeave(_, _, _) => WorkerKeeps(w, a);
    case DoFinish(_, _, _) => WorkerKeeps(w, a);
    case DoPost(i, k) => PostKeeps(w, i, k);
    case _ => CancelThreadKeeps(w, a);
  }

  lemma CrashKeeps(w: World, i: nat)
    requires Inv(w)
    ensures Inv(Next(w, Crash(i)))
  {
    if i in w.incs {
      CrashReleases(w, i);
      ReleaseKeeps(w, Crashed(w, i), i);
    }
  }

  lemma StoreCloseKeeps(w: World, i: nat)
    requires Inv(w)
    ensures Inv(Next(w, DoCloseStore(i)))
  {
    if i in w.incs {
      StoreReleases(w, i);
      ReleaseKeeps(w, StoreClosed(w, i), i);
    }
  }

  /** Shutdown, acceptance and stage records, whether or not they do something. */
  lemma CallerKeeps(w: World, a: Action)
    requires Inv(w) && (a.DoClose? || a.DoSubmit? || a.DoStage?)
    ensures Inv(Next(w, a))
  {
    if a.inc in w.incs {
      if a.DoSubmit? {
        if Accepts(At(w, a.inc), a.key) { SubmitKeeps(w, a); }
      } else if w.incs[a.inc].closed || (a.DoStage? && a.key !in w.rows) {
        assert Next(w, a) == w;
      } else if a.DoClose? {
        CloseKeeps(w, a.inc);
      } else {
        StageKeeps(w, a.inc, a.key, a.event);
      }
    }
  }

  /** The invariant survives every step ... */
  lemma NextKeeps(w: World, a: Action)
    requires Inv(w)
    ensures Inv(Next(w, a))
  {
    if OfThread(a) {
      if a.inc in w.incs {
        ThreadKeeps(w, a);
      }
    } else if a.Open? {
      if w.flock.None? {
        OpenKeeps(w, a);
      }
    } else if a.Crash? {
      CrashKeeps(w, a.inc);
    } else if a.DoCloseStore? {
      StoreCloseKeeps(w, a.inc);
    } else {
      CallerKeeps(w, a);
    }
  }

  /** ... and so every run. */
  lemma {:induction false} RunKeeps(w: World, actions: seq<Action>)
    requires Inv(w)
    ensures Inv(Run(w, actions))
    decreases |actions|
  {
    if actions != [] {
      NextKeeps(w, actions[0]);
      RunKeeps(Next(w, actions[0]), actions[1..]);
    }
  }
}
