/** The fault ledger over whole runs: which steps put a fault on it and take one off, and what it says when a
    preparer is called. */
module DeviceLedger {
  import opened Wrappers
  import opened DeviceModel
  import opened DeviceRuns
  import opened DeviceProofs
  import opened DeviceTheorems
  import opened Histories

  // ----- how a fault leaves the ledger

  lemma {:induction false} MarkAllFaults(ledger: Ledger, ids: seq<Identity>, p: Phys)
    ensures MarkAll(ledger, ids).readable == ledger.readable
    ensures FaultOn(MarkAll(ledger, ids), p) <==> FaultOn(ledger, p) || (ledger.readable && p in PhysSet(ids))
    decreases |ids|
  {
    if ids != [] {
      var l1 := Mark(ledger, ids[0]);
      MarkFaults(ledger, ids[0], p);
      MarkAllFaults(l1, ids[1..], p);
      assert ids == [ids[0]] + ids[1..];
    }
  }

  lemma MarkFaults(ledger: Ledger, id: Identity, p: Phys)
    ensures FaultOn(Mark(ledger, id), p) <==> FaultOn(ledger, p) || (ledger.readable && PhysOf(id) == p)
  {
    if ledger.readable {
      assert id in Mark(ledger, id).faults;
      if f :| f in ledger.faults && PhysOf(f) == p && p != PhysOf(id) {
        assert f in Mark(ledger, id).faults;
      }
    }
  }

  lemma ClearFaults(ledger: Ledger, id: Identity, p: Phys)
    ensures FaultOn(Clear(ledger, id), p) <==> FaultOn(ledger, p) && !(ledger.readable && PhysOf(id) == p)
  {
    if f :| f in ledger.faults && PhysOf(f) == p && p != PhysOf(id) {
      assert f in Clear(ledger, id).faults;
    }
  }

  lemma {:induction false} ClearAllFaults(ledger: Ledger, ids: seq<Identity>, p: Phys)
    ensures FaultOn(ClearAll(ledger, ids), p) <==> FaultOn(ledger, p) && !(ledger.readable && p in PhysSet(ids))
    decreases |ids|
  {
    if ids != [] {
      ClearFaults(ledger, ids[0], p);
      ClearAllFaults(Clear(ledger, ids[0]), ids[1..], p);
      assert ids == [ids[0]] + ids[1..];
    }
  }

  /** The steps that take a fault off the ledger: an operator's verification, and a successful close of a
      record that carried no fault from before. */
  predicate TakesFault(w: World, a: Action, p: Phys) {
    && w.host.ledger.readable && !a.Start? && !a.LedgerReadable? && !a.Crash? && a.manager in w.managers
    && var m := w.managers[a.manager];
       || (a.Verify? && m.acquiring.None? && PhysOf(a.id) == p)
       || (a.CloserReturns? && a.ok && Runs(m, a.key) && !m.records[a.key].uncertainBefore
           && p in PhysSet(Ids(m.records[a.key].resource)))
  }

  lemma LedgerAfter(w: World, a: Action, p: Phys)
    requires FaultOn(w.host.ledger, p)
    ensures FaultOn(Next(w, a).host.ledger, p) <==> !TakesFault(w, a, p)
  {
    if a.LedgerReadable? {
      var f :| f in w.host.ledger.faults && PhysOf(f) == p;
      assert f in Next(w, a).host.ledger.faults;
    } else if !a.Start? && !a.Crash? && a.manager in w.managers {
      var m := w.managers[a.manager];
      if a.FinishAcquire? && m.acquiring.Some? {
        MarkAllFaults(w.host.ledger, Ids(m.acquiring.value.resource), p);
        if m.acquiring.value.resource.identity in m.records {
          MarkAllFaults(w.host.ledger, Ids(m.records[m.acquiring.value.resource.identity].resource), p);
        }
      } else if a.CloserReturns? && Runs(m, a.key) {
        MarkAllFaults(w.host.ledger, Ids(m.records[a.key].resource), p);
        ClearAllFaults(w.host.ledger, Ids(m.records[a.key].resource), p);
      } else if a.Report? {
        MarkFaults(w.host.ledger, a.id, p);
        if a.id in m.records {
          MarkAllFaults(w.host.ledger, Ids(m.records[a.id].resource), p);
        }
      } else if a.Verify? {
        ClearFaults(w.host.ledger, a.id, p);
      }
    }
  }

  /** The steps that put a fault on the ledger: a quarantine, a preparer that failed on an open record, a closer
      that failed, and an owner's report, which also faults the record it finds under that identity. */
  predicate PutsFault(w: World, a: Action, p: Phys) {
    && w.host.ledger.readable && !a.Start? && !a.LedgerReadable? && !a.Crash? && a.manager in w.managers
    && var m := w.managers[a.manager];
       || (a.FinishAcquire? && Quarantines(w.host, m, a.opens, a.prep, a.cleanupOk) && p in PhysSet(Ids(m.acquiring.value.resource)))
       || (a.FinishAcquire? && SpoilsOpen(m, a.prep) && p in PhysSet(Ids(m.records[m.acquiring.value.resource.identity].resource)))
       || (a.CloserReturns? && !a.ok && Runs(m, a.key) && p in PhysSet(Ids(m.records[a.key].resource)))
       || (a.Report? && m.acquiring.None?
           && if a.id in m.records then p in PhysSet(Ids(m.records[a.id].resource)) else PhysOf(a.id) == p)
  }

  /** A new value that could be neither prepared nor closed. */
  predicate Quarantines(host: Host, m: Manager, opens: bool, prep: Preparation, cleanupOk: bool) {
    && m.acquiring.Some? && m.acquiring.value.resource.identity !in m.records && m.acquiring.value.prepare
    && CallsPreparer(host, m, opens) && !prep.Prepared? && !cleanupOk
  }

  predicate SpoilsOpen(m: Manager, prep: Preparation) {
    m.acquiring.Some? && m.acquiring.value.resource.identity in m.records && prep.PrepareFailed?
  }

  lemma FinishGains(host: Host, m: Manager, i: nat, opens: bool, prep: Preparation, cleanupOk: bool, p: Phys)
    requires !FaultOn(host.ledger, p)
    ensures FaultOn(Finish(host, m, i, opens, prep, cleanupOk).0.ledger, p) <==>
            && host.ledger.readable
            && (|| (Quarantines(host, m, opens, prep, cleanupOk) && p in PhysSet(Ids(m.acquiring.value.resource)))
                || (SpoilsOpen(m, prep) && p in PhysSet(Ids(m.records[m.acquiring.value.resource.identity].resource))))
  {
    if m.acquiring.Some? {
      MarkAllFaults(host.ledger, Ids(m.acquiring.value.resource), p);
      if m.acquiring.value.resource.identity in m.records {
        MarkAllFaults(host.ledger, Ids(m.records[m.acquiring.value.resource.identity].resource), p);
      }
    }
  }

  lemma CloserGains(host: Host, m: Manager, key: Identity, ok: bool, p: Phys)
    requires !FaultOn(host.ledger, p)
    ensures FaultOn(RunClose(host, m, key, ok).0.ledger, p) <==>
            host.ledger.readable && !ok && Runs(m, key) && p in PhysSet(Ids(m.records[key].resource))
  {
    if Runs(m, key) {
      MarkAllFaults(host.ledger, Ids(m.records[key].resource), p);
      ClearAllFaults(host.ledger, Ids(m.records[key].resource), p);
    }
  }

  lemma ReportGains(host: Host, m: Manager, id: Identity, p: Phys)
    requires !FaultOn(host.ledger, p)
    ensures FaultOn(MarkUncertain(host, m, id).0.ledger, p) <==>
            && host.ledger.readable && m.acquiring.None?
            && if id in m.records then p in PhysSet(Ids(m.records[id].resource)) else PhysOf(id) == p
    ensures !FaultOn(ClearUncertainty(host, m, id).0.ledger, p)
  {
    MarkFaults(host.ledger, id, p);
    ClearFaults(host.ledger, id, p);
    if id in m.records {
      MarkAllFaults(host.ledger, Ids(m.records[id].resource), p);
    }
  }

  lemma LedgerGains(w: World, a: Action, p: Phys)
    requires !FaultOn(w.host.ledger, p)
    ensures FaultOn(Next(w, a).host.ledger, p) <==> PutsFault(w, a, p)
  {
    if a.LedgerReadable? {
      assert Next(w, a).host.ledger.faults == w.host.ledger.faults;
      assert forall f | f in w.host.ledger.faults :: PhysOf(f) != p;
    } else if !a.Start? && !a.Crash? && a.manager in w.managers {
      var m := w.managers[a.manager];
      if a.FinishAcquire? {
        FinishGains(w.host, m, a.manager, a.opens, a.prep, a.cleanupOk, p);
      } else if a.CloserReturns? {
        CloserGains(w.host, m, a.key, a.ok, p);
      } else if a.Report? || a.Verify? {
        ReportGains(w.host, m, a.id, p);
      }
    }
  }

  /** One step decides about a fault by these two kinds of steps alone. */
  lemma LedgerStep(w: World, a: Action, p: Phys)
    ensures FaultOn(Next(w, a).host.ledger, p) <==> !TakesFault(w, a, p) && (FaultOn(w.host.ledger, p) || PutsFault(w, a, p))
  {
    if FaultOn(w.host.ledger, p) {
      LedgerAfter(w, a, p);
    } else {
      LedgerGains(w, a, p);
      assert !(TakesFault(w, a, p) && PutsFault(w, a, p));
    }
  }

  /** Step `j` of a run puts or takes the fault. */
  ghost predicate Put(actions: seq<Action>, j: nat, p: Phys) {
    j < |actions| && PutsFault(At(actions, j), actions[j], p)
  }

  ghost predicate Taken(actions: seq<Action>, j: nat, p: Phys) {
    j < |actions| && TakesFault(At(actions, j), actions[j], p)
  }

  ghost function Puts(actions: seq<Action>, p: Phys): nat -> bool {
    (j: nat) => Put(actions, j, p)
  }

  ghost function Takes(actions: seq<Action>, p: Phys): nat -> bool {
    (j: nat) => Taken(actions, j, p)
  }

  /** No step from `start` to before `n` took the fault away. */
  ghost predicate NoneTaken(actions: seq<Action>, start: nat, n: nat, p: Phys) {
    Never(start, n, Takes(actions, p))
  }

  /** Through any run, from any step to any later one, with crashes and an unreadable file along the way: the
      fault is on the ledger exactly if it was there and no step took it, or one put it and no later one took it. */
  lemma FaultIff(actions: seq<Action>, start: nat, n: nat, p: Phys)
    requires start <= n <= |actions|
    ensures FaultOn(At(actions, n).host.ledger, p) <==>
            Stands(start, n, FaultOn(At(actions, start).host.ledger, p), Puts(actions, p), Takes(actions, p))
  {
    var on := (j: nat) => FaultOn(At(actions, j).host.ledger, p);
    forall j: nat | start <= j < n
      ensures on(j + 1) == (!Takes(actions, p)(j) && (on(j) || Puts(actions, p)(j)))
    {
      AtNext(actions, j);
      LedgerStep(At(actions, j), actions[j], p);
    }
    FlagIff(start, n, on, Puts(actions, p), Takes(actions, p));
  }

  // ----- the fault check

  /** Every physical key of the resource is also named under the manager's node label; the usual case is
      that all its identities carry that label. */
  predicate Covered(res: Resource, node: string) {
    forall id | id in Ids(res) :: Identity(node, id.kind, id.value) in Ids(res)
  }

  predicate FaultOnAny(ledger: Ledger, res: Resource) {
    exists id | id in Ids(res) :: FaultOn(ledger, PhysOf(id))
  }

  /** The fault check looks under the manager's own node label. It stops every faulty prepare exactly for
      the resources whose physical keys that label covers. */
  lemma CheckSoundIffCovered(res: Resource, node: string)
    ensures (forall ledger: Ledger :: SeenClean(node, res, ledger) ==> !FaultOnAny(ledger, res)) <==> Covered(res, node)
  {
    if Covered(res, node) {
      forall ledger: Ledger | SeenClean(node, res, ledger)
        ensures !FaultOnAny(ledger, res)
      {
        CoveredSeesFaults(res, node, ledger);
      }
    } else {
      var id :| id in Ids(res) && Identity(node, id.kind, id.value) !in Ids(res);
      var ledger := Ledger({id}, true);
      assert id in ledger.faults && PhysOf(id) == PhysOf(id);
      assert FaultOn(ledger, PhysOf(id));
      assert SeenClean(node, res, ledger);
    }
  }

  lemma CoveredSeesFaults(res: Resource, node: string, ledger: Ledger)
    requires Covered(res, node) && SeenClean(node, res, ledger)
    ensures !FaultOnAny(ledger, res)
  {
    forall id, f | id in Ids(res) && f in ledger.faults
      ensures PhysOf(f) != PhysOf(id)
    {
      assert Identity(node, f.kind, f.value) in Relabel(ledger.faults, node);
    }
  }

  /** An acquire that opens a device ends in one of three ways: nothing is held and the lock table and
      the open values are as before; the lease is granted; or cleanup failed and the record stays
      quarantined, without leases, its value open, its locks held and, if the ledger can be written, a fault
      on every physical key. */
  lemma AcquireAllOrNothing(host: Host, m: Manager, i: nat, a: Attempt, opens: bool, prep: Preparation, cleanupOk: bool)
    requires m.acquiring.None? && a.resource.identity !in m.records
    ensures a.resource.identity in OpenNew(host, m, i, a, opens, prep, cleanupOk).1.records <==>
      && opens && (a.prepare && !prep.Prepared? ==> !cleanupOk)
      && (a.resource.external || (Distinct(PhysSeq(Ids(a.resource))) && PhysSet(Ids(a.resource)) !! host.locks.Keys))
    ensures var (h', m') := OpenNew(host, m, i, a, opens, prep, cleanupOk);
      var key := a.resource.identity;
      if key !in m'.records then h'.locks == host.locks && h'.handles == host.handles && h'.ledger == host.ledger && m' == m
      else
        && h'.handles == host.handles[host.nextRid := Handle(i, key, a.resource)]
        && (!a.resource.external ==>
              && CanLock(host.locks, Ids(a.resource))
              && (forall p | p in PhysSet(Ids(a.resource)) :: p in h'.locks && h'.locks[p] == Holder(i, key)))
        && (if a.prepare && !prep.Prepared? then
              && !cleanupOk && m'.records[key].leases == {} && m'.records[key].state.Uncertain? && m'.records[key].uncertainBefore
              && (forall id | id in Ids(a.resource) :: id in m'.unresolved)
              && (host.ledger.readable ==> forall p | p in PhysSet(Ids(a.resource)) :: FaultOn(h'.ledger, p))
            else h'.ledger == host.ledger && m'.records[key].leases == {m.nextToken} && m'.records[key].prepared == a.prepare)
  {
    OpenShape(host, m, i, a, opens, prep, cleanupOk);
    forall p | p in PhysSet(Ids(a.resource))
      ensures host.ledger.readable ==> FaultOn(MarkAll(host.ledger, Ids(a.resource)), p)
    {
      MarkAllFaults(host.ledger, Ids(a.resource), p);
    }
  }

  // ----- what the ledger says when a preparer is called

  /** In every run each preparer call belongs to an acquire that had read a readable ledger without a
      fault of the resource; if the ledger did not change in between, that is so at the call. */
  lemma PreparersFollowCleanChecks(actions: seq<Action>, c: Call)
    requires c in Reached(actions).calls && c.PreparerIn? && Covered(c.resource, c.node)
    ensures c.seen.readable && !FaultOnAny(c.seen, c.resource)
    ensures c.now == c.seen ==> c.now.readable && !FaultOnAny(c.now, c.resource)
  {
    ReachedInv(actions);
    CoveredSeesFaults(c.resource, c.node, c.seen);
  }

  /** Another manager that reports a fault between the two parts gets past the check. */
  lemma FaultCanSlipBeforePrepare(res: Resource)
    requires res.components == [] && !res.external && res.identity.node == "n"
    ensures exists actions, c :: c in Reached(actions).calls && c.PreparerIn? && c.resource == res
              && Covered(res, c.node) && FaultOnAny(c.now, res)
  {
    var a1, a2, a3 := Start("n"), Start("n"), BeginAcquire(0, res, true, false);
    var a4, a5 := Report(1, res.identity), FinishAcquire(0, true, Prepared, true);
    assert [] + [a1] == [a1];
    RunAppend(INIT, [], a1);
    RunAppend(INIT, [a1], a2);
    RunAppend(INIT, [a1] + [a2], a3);
    RunAppend(INIT, [a1] + [a2] + [a3], a4);
    RunAppend(INIT, [a1] + [a2] + [a3] + [a4], a5);
    var actions := [a1] + [a2] + [a3] + [a4] + [a5];
    var w2 := Next(Next(INIT, a1), a2);
    var w3 := Next(w2, a3);
    assert w3.managers[0].acquiring == Some(Attempt(res, true, Ledger({}, true)));
    var w4 := Next(w3, a4);
    assert res.identity in w4.host.ledger.faults;
    assert FaultOn(w4.host.ledger, PhysOf(res.identity)) && res.identity in Ids(res);
    assert CanLock(w4.host.locks, Ids(res));
    var c := PreparerIn(0, "n", res, Ledger({}, true), w4.host.ledger);
    assert Reached(actions) == Next(w4, a5) && c in Reached(actions).calls;
    assert FaultOnAny(c.now, res);
  }

  lemma AcquiringStep(w: World, a: Action, i: nat)
    requires i in Next(w, a).managers && Next(w, a).managers[i].acquiring.Some?
    ensures i in w.managers
    ensures || w.managers[i].acquiring == Next(w, a).managers[i].acquiring
            || (w.managers[i].acquiring.None? && a.BeginAcquire? && a.manager == i
                && Next(w, a).managers[i].acquiring == Some(Attempt(a.resource, a.prepare, w.host.ledger)))
  {
  }

  /** Step `k` is the check of the acquire that manager `i` has under way at step `n`. */
  ghost predicate Checks(actions: seq<Action>, k: nat, n: nat, i: nat) {
    && k < n <= |actions| && actions[k].BeginAcquire? && actions[k].manager == i
    && i in At(actions, k).managers && At(actions, k).managers[i].acquiring.None?
    && Pending(actions, k, n, i) && forall j: nat | k < j < n :: Pending(actions, k, j, i)
  }

  ghost predicate Pending(actions: seq<Action>, k: nat, j: nat, i: nat)
    requires k < |actions| && actions[k].BeginAcquire?
  {
    && i in At(actions, j).managers
    && At(actions, j).managers[i].acquiring == Some(Attempt(actions[k].resource, actions[k].prepare, At(actions, k).host.ledger))
  }

  /** Every acquire under way had its check. */
  lemma {:induction false} CheckExists(actions: seq<Action>, n: nat, i: nat) returns (k: nat)
    requires n <= |actions| && i in At(actions, n).managers && At(actions, n).managers[i].acquiring.Some?
    ensures Checks(actions, k, n, i)
    decreases n
  {
    AtStart(actions);
    var w, a := At(actions, n - 1), actions[n - 1];
    AtNext(actions, n - 1);
    AcquiringStep(w, a, i);
    if w.managers[i].acquiring.None? {
      k := n - 1;
    } else {
      k := CheckExists(actions, n - 1, i);
      assert Pending(actions, k, n - 1, i);
      assert Pending(actions, k, n, i);
    }
  }

  lemma CheckLeavesLedger(w: World, a: Action)
    requires a.BeginAcquire?
    ensures Next(w, a).host.ledger == w.host.ledger
  {
  }

  /** Some step between put a fault of the resource on the ledger that no later step took away. */
  ghost predicate SlippedIn(actions: seq<Action>, k: nat, n: nat, res: Resource) {
    exists id :: id in Ids(res) && Stands(k + 1, n, false, Puts(actions, PhysOf(id)), Takes(actions, PhysOf(id)))
  }

  ghost function TurnsBad(actions: seq<Action>): nat -> bool {
    (j: nat) => j < |actions| && actions[j] == LedgerReadable(false)
  }

  ghost function TurnsGood(actions: seq<Action>): nat -> bool {
    (j: nat) => j < |actions| && actions[j] == LedgerReadable(true)
  }

  /** The file was made unreadable between and not readable again. */
  ghost predicate LostBetween(actions: seq<Action>, k: nat, n: nat) {
    Stands(k + 1, n, false, TurnsBad(actions), TurnsGood(actions))
  }

  lemma ReadableStep(w: World, a: Action)
    ensures Next(w, a).host.ledger.readable == if a.LedgerReadable? then a.readable else w.host.ledger.readable
  {
    ReadableMarks(w.host.ledger);
  }

  lemma ReadableMarks(ledger: Ledger)
    ensures forall ids :: MarkAll(ledger, ids).readable == ledger.readable && ClearAll(ledger, ids).readable == ledger.readable
  {
    forall ids
      ensures MarkAll(ledger, ids).readable == ledger.readable && ClearAll(ledger, ids).readable == ledger.readable
    {
      ReadableMark(ledger, ids);
    }
  }

  lemma {:induction false} ReadableMark(ledger: Ledger, ids: seq<Identity>)
    ensures MarkAll(ledger, ids).readable == ledger.readable && ClearAll(ledger, ids).readable == ledger.readable
    decreases |ids|
  {
    if ids != [] {
      ReadableMark(Mark(ledger, ids[0]), ids[1..]);
      ReadableMark(Clear(ledger, ids[0]), ids[1..]);
    }
  }

  lemma ReadableIff(actions: seq<Action>, k: nat, n: nat)
    requires k < n <= |actions| && At(actions, k + 1).host.ledger.readable
    ensures At(actions, n).host.ledger.readable <==> !LostBetween(actions, k, n)
  {
    var on := (j: nat) => !At(actions, j).host.ledger.readable;
    forall j: nat | k + 1 <= j < n
      ensures on(j + 1) == (!TurnsGood(actions)(j) && (on(j) || TurnsBad(actions)(j)))
    {
      AtNext(actions, j);
      ReadableStep(At(actions, j), actions[j]);
    }
    FlagIff(k + 1, n, on, TurnsBad(actions), TurnsGood(actions));
  }

  /** A fault of the resource was on the ledger at the check already, and no step since took it away. */
  ghost predicate StoodSince(actions: seq<Action>, k: nat, n: nat, res: Resource) {
    exists id :: id in Ids(res) && FaultOn(At(actions, k).host.ledger, PhysOf(id)) && NoneTaken(actions, k + 1, n, PhysOf(id))
  }

  /** Whatever other managers, crashes and the file system do between an acquire's check and its preparer: at
      the call the ledger has a fault of the resource exactly if some step in between put one there that no
      later step took away, or one stood there all along; the check rules the latter out for every resource the
      node label covers. And the ledger is unreadable exactly if it became so in between. */
  lemma PreparerFaultIff(actions: seq<Action>, k: nat, n: nat)
    requires n < |actions| && actions[n].FinishAcquire? && Checks(actions, k, n, actions[n].manager)
    requires CallsPreparer(At(actions, n).host, At(actions, n).managers[actions[n].manager], actions[n].opens)
    ensures var i, w, res := actions[n].manager, At(actions, n), actions[k].resource;
      && At(actions, n + 1).calls == w.calls + [PreparerIn(i, w.managers[i].node, res, At(actions, k).host.ledger, w.host.ledger)]
      && (FaultOnAny(w.host.ledger, res) <==> SlippedIn(actions, k, n, res) || StoodSince(actions, k, n, res))
      && (Covered(res, w.managers[i].node) ==> !StoodSince(actions, k, n, res))
      && (!w.host.ledger.readable <==> LostBetween(actions, k, n))
  {
    var i, w, res, seen := actions[n].manager, At(actions, n), actions[k].resource, At(actions, k).host.ledger;
    assert Pending(actions, k, n, i);
    AtNext(actions, n);
    AtInv(actions, n);
    AtNext(actions, k);
    CheckLeavesLedger(At(actions, k), actions[k]);
    assert LocalOk(w.host, i, w.managers[i]);
    if Covered(res, w.managers[i].node) {
      CoveredSeesFaults(res, w.managers[i].node, seen);
    }
    ReadableIff(actions, k, n);
    FaultsBetween(actions, k, n, res);
  }

  /** When the two parts of an acquire follow each other directly, the preparer is never called against
      an unreadable ledger or a recorded fault. */
  lemma AtomicAcquirePreparesClean(actions: seq<Action>, k: nat)
    requires k + 1 < |actions| && actions[k + 1].FinishAcquire? && Checks(actions, k, k + 1, actions[k + 1].manager)
    requires CallsPreparer(At(actions, k + 1).host, At(actions, k + 1).managers[actions[k + 1].manager], actions[k + 1].opens)
    requires Covered(actions[k].resource, At(actions, k + 1).managers[actions[k + 1].manager].node)
    ensures At(actions, k + 1).host.ledger.readable && !FaultOnAny(At(actions, k + 1).host.ledger, actions[k].resource)
  {
    PreparerFaultIff(actions, k, k + 1);
    assert !SlippedIn(actions, k, k + 1, actions[k].resource) && !LostBetween(actions, k, k + 1);
  }

  lemma NewPreparerCall(w: World, a: Action, c: Call)
    requires c.PreparerIn? && c in Next(w, a).calls && c !in w.calls
    ensures a.FinishAcquire? && a.manager in w.managers && w.managers[a.manager].acquiring.Some?
    ensures CallsPreparer(w.host, w.managers[a.manager], a.opens)
  {
  }

  /** Every preparer call of every run is the one of such a pair of steps. */
  lemma {:induction false} PreparerCallFrom(actions: seq<Action>, n: nat, c: Call) returns (k: nat, f: nat)
    requires n <= |actions| && c.PreparerIn? && c in At(actions, n).calls
    ensures f < n && actions[f].FinishAcquire? && Checks(actions, k, f, actions[f].manager)
    ensures CallsPreparer(At(actions, f).host, At(actions, f).managers[actions[f].manager], actions[f].opens)
    ensures c.manager == actions[f].manager && c.resource == actions[k].resource && c.now == At(actions, f).host.ledger
    ensures c.seen == At(actions, k).host.ledger && c.node == At(actions, f).managers[c.manager].node
    decreases n
  {
    AtStart(actions);
    AtNext(actions, n - 1);
    var w := At(actions, n - 1);
    if c in w.calls {
      k, f := PreparerCallFrom(actions, n - 1, c);
    } else {
      f := n - 1;
      NewPreparerCall(w, actions[f], c);
      k := CheckExists(actions, f, actions[f].manager);
      PreparerFaultIff(actions, k, f);
      assert c in w.calls + [c] && At(actions, n).calls[|w.calls|] == c;
    }
  }

  lemma FaultsBetween(actions: seq<Action>, k: nat, n: nat, res: Resource)
    requires k < n <= |actions| && At(actions, k + 1).host.ledger == At(actions, k).host.ledger
    ensures FaultOnAny(At(actions, n).host.ledger, res) <==> SlippedIn(actions, k, n, res) || StoodSince(actions, k, n, res)
  {
    var ledger := At(actions, n).host.ledger;
    forall id | id in Ids(res)
      ensures FaultOn(ledger, PhysOf(id)) <==>
              || (FaultOn(At(actions, k).host.ledger, PhysOf(id)) && NoneTaken(actions, k + 1, n, PhysOf(id)))
              || Stands(k + 1, n, false, Puts(actions, PhysOf(id)), Takes(actions, PhysOf(id)))
    {
      FaultIff(actions, k + 1, n, PhysOf(id));
    }
  }
}
