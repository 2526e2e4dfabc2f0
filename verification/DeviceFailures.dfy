/** Faults that a failed close put on the ledger: which steps of a run can take them off again. The intended ones
    are an operator's verification and a retried close of the record that failed. */
module DeviceFailures {
  import opened Wrappers
  import opened DeviceModel
  import opened DeviceRuns
  import opened DeviceProofs
  import opened DeviceTheorems
  import opened DeviceLedger
  import opened DeviceMarks
  import opened Histories

  // ----- where a record comes from

  /** Whatever the manager has under the key after a step, it had before, and it was live if it still is. */
  predicate Inherits(m: Manager, m': Manager, key: Identity) {
    key in m'.records ==>
      && key in m.records && m.records[key].rid == m'.records[key].rid && m.records[key].resource == m'.records[key].resource
      && (Live(m'.records[key]) ==> Live(m.records[key]))
  }

  lemma AcquireInherits(host: Host, m: Manager, res: Resource, prepare: bool, v: bool, i: nat, opens: bool, prep: Preparation, c: bool,
                        key: Identity)
    ensures Inherits(m, Begin(m, host.ledger, res, prepare, v), key)
    ensures Inherits(m, Finish(host, m, i, opens, prep, c).1, key) ||
            (m.acquiring.Some? && m.acquiring.value.resource.identity == key && key !in m.records
             && key in Finish(host, m, i, opens, prep, c).1.records
             && Finish(host, m, i, opens, prep, c).1.records[key].rid == host.nextRid)
  {
    if m.acquiring.Some? && m.acquiring.value.resource.identity !in m.records {
      OpenShape(host, m.(acquiring := None), i, m.acquiring.value, opens, prep, c);
    }
  }

  lemma ReleaseInherits(m: Manager, k: Identity, rid: nat, token: nat, key: Identity)
    ensures Inherits(m, Drop(m, k, token), key) && Inherits(m, Shutdown(m), key)
  {
  }

  lemma CloseInherits(m: Manager, k: Identity, rid: nat, key: Identity)
    requires key in m.records && m.records[key].run.Some? ==> m.records[key].closing
    ensures Inherits(m, BeginClose(m, k, rid), key) && Inherits(m, EndClose(m, k), key)
  {
  }

  lemma CloserInherits(host: Host, m: Manager, k: Identity, ok: bool, key: Identity)
    ensures Inherits(m, RunClose(host, m, k, ok).1, key)
  {
  }

  lemma FaultInherits(host: Host, m: Manager, id: Identity, key: Identity)
    ensures Inherits(m, MarkUncertain(host, m, id).1, key) && Inherits(m, ClearUncertainty(host, m, id).1, key)
  {
  }

  /** The step opens the record. */
  predicate Opens(w: World, a: Action, i: nat, key: Identity, rid: nat) {
    && a.FinishAcquire? && a.manager == i && i in w.managers && w.managers[i].acquiring.Some?
    && w.managers[i].acquiring.value.resource.identity == key && key !in w.managers[i].records && rid == w.host.nextRid
  }

  predicate OfManager(a: Action, i: nat) {
    !a.Start? && !a.LedgerReadable? && !a.Crash? && a.manager == i
  }

  lemma OwnRecordBefore(w: World, a: Action, i: nat, key: Identity)
    requires i in w.managers && OfManager(a, i) && !a.BeginAcquire? && !a.FinishAcquire?
    requires key in w.managers[i].records && w.managers[i].records[key].run.Some? ==> w.managers[i].records[key].closing
    ensures i in Next(w, a).managers && Inherits(w.managers[i], Next(w, a).managers[i], key)
  {
    var m := w.managers[i];
    match a
    case DropLease(_, k, t) => ReleaseInherits(m, k, 0, t, key);
    case Stop(_) => ReleaseInherits(m, key, 0, 0, key);
    case CloseBegins(_, k, r) => CloseInherits(m, k, r, key);
    case CloseEnds(_, k) => CloseInherits(m, k, 0, key);
    case CloserReturns(_, k, ok) => CloserInherits(w.host, m, k, ok, key);
    case Report(_, id) => FaultInherits(w.host, m, id, key);
    case Verify(_, id) => FaultInherits(w.host, m, id, key);
  }

  lemma AcquiredRecordBefore(w: World, a: Action, i: nat, key: Identity)
    requires i in w.managers && OfManager(a, i) && (a.BeginAcquire? || a.FinishAcquire?)
    ensures i in Next(w, a).managers
    ensures || Inherits(w.managers[i], Next(w, a).managers[i], key)
            || (key in Next(w, a).managers[i].records && Opens(w, a, i, key, Next(w, a).managers[i].records[key].rid))
  {
    var m := w.managers[i];
    match a
    case BeginAcquire(_, res, p, v) => AcquireInherits(w.host, m, res, p, v, i, false, Prepared, false, key);
    case FinishAcquire(_, o, p, c) => AcquireInherits(w.host, m, Resource(key, [], false), false, false, i, o, p, c, key);
  }

  /** A record that is there after a step was there before, and live if it is live now, or the step opened it. */
  lemma RecordBefore(w: World, a: Action, i: nat, key: Identity, rid: nat)
    requires Has(Next(w, a), i, key, rid) && (i in w.managers ==> LocalOk(w.host, i, w.managers[i]))
    ensures Has(w, i, key, rid) || Opens(w, a, i, key, rid)
    ensures Has(w, i, key, rid) ==> Inherits(w.managers[i], Next(w, a).managers[i], key)
  {
    if !OfManager(a, i) || i !in w.managers {
      OtherManagers(w, a, i, key);
    } else if a.BeginAcquire? || a.FinishAcquire? {
      AcquiredRecordBefore(w, a, i, key);
    } else {
      assert key in w.managers[i].records ==> RecordOk(w.host, i, key, w.managers[i]);
      OwnRecordBefore(w, a, i, key);
    }
  }

  lemma OtherManagers(w: World, a: Action, i: nat, key: Identity)
    requires !OfManager(a, i) || i !in w.managers
    requires i in Next(w, a).managers && key in Next(w, a).managers[i].records
    ensures i in w.managers && Next(w, a).managers[i] == w.managers[i]
  {
  }

  lemma RecordBeforeAt(actions: seq<Action>, n: nat, i: nat, key: Identity, rid: nat)
    requires 0 < n <= |actions| && Has(At(actions, n), i, key, rid)
    ensures Has(At(actions, n - 1), i, key, rid) || Opens(At(actions, n - 1), actions[n - 1], i, key, rid)
    ensures Has(At(actions, n - 1), i, key, rid) ==>
              Inherits(At(actions, n - 1).managers[i], At(actions, n).managers[i], key)
  {
    AtNext(actions, n - 1);
    AtInv(actions, n - 1);
    RecordBefore(At(actions, n - 1), actions[n - 1], i, key, rid);
  }

  /** Every record of every run was opened by a step `n` after its acquire was checked at a step `c`. */
  lemma {:induction false} RecordOpened(actions: seq<Action>, e: nat, i: nat, key: Identity, rid: nat) returns (c: nat, n: nat)
    requires e <= |actions| && Has(At(actions, e), i, key, rid)
    ensures n < e && OpensAt(actions, c, n, i) && actions[c].resource.identity == key && At(actions, n).host.nextRid == rid
    decreases e
  {
    AtStart(actions);
    RecordBeforeAt(actions, e, i, key, rid);
    if Has(At(actions, e - 1), i, key, rid) {
      c, n := RecordOpened(actions, e - 1, i, key, rid);
    } else {
      n := e - 1;
      c := CheckExists(actions, n, i);
      assert Pending(actions, c, n, i);
    }
  }

  /** A record is live only as long as it always was. */
  lemma {:induction false} LiveBefore(actions: seq<Action>, k: nat, e: nat, i: nat, key: Identity, rid: nat)
    requires k <= e <= |actions| && Has(At(actions, k), i, key, rid) && Has(At(actions, e), i, key, rid)
    requires Live(At(actions, e).managers[i].records[key])
    ensures Live(At(actions, k).managers[i].records[key])
    decreases e
  {
    if k < e {
      HadIdsAt(actions, k, i, key, rid);
      HasBetween(actions, k, e - 1, e, i, key, rid);
      RecordBeforeAt(actions, e, i, key, rid);
      LiveBefore(actions, k, e - 1, i, key, rid);
    }
  }

  /** Two live records that Deploy owns and that share a physical key are one. */
  lemma OneOwner(w: World, i: nat, j: nat, key: Identity, other: Identity, p: Phys)
    requires Inv(w) && i in w.managers && j in w.managers && key in w.managers[i].records && other in w.managers[j].records
    requires Live(w.managers[i].records[key]) && Live(w.managers[j].records[other])
    requires !w.managers[i].records[key].resource.external && !w.managers[j].records[other].resource.external
    requires p in PhysSet(Ids(w.managers[i].records[key].resource)) && p in PhysSet(Ids(w.managers[j].records[other].resource))
    ensures i == j && key == other
  {
    assert LocalOk(w.host, i, w.managers[i]) && LocalOk(w.host, j, w.managers[j]);
    assert RecordOk(w.host, i, key, w.managers[i]) && RecordOk(w.host, j, other, w.managers[j]);
  }

  // ----- who takes the fault

  /** Step `k` is the failed close of this record, which puts a fault on its physical key `p`. */
  ghost predicate FailsClose(actions: seq<Action>, k: nat, i: nat, key: Identity, rid: nat, p: Phys) {
    && k < |actions| && actions[k] == CloserReturns(i, key, false) && At(actions, k).host.ledger.readable
    && Has(At(actions, k), i, key, rid) && Runs(At(actions, k).managers[i], key)
    && p in PhysSet(Ids(At(actions, k).managers[i].records[key].resource))
  }

  ghost predicate VerifiedAt(actions: seq<Action>, e: nat, p: Phys) {
    e < |actions| && actions[e].Verify? && PhysOf(actions[e].id) == p
  }

  /** Step `e` is a successful close of this record, which uses the physical key. */
  ghost predicate ClosesWell(actions: seq<Action>, e: nat, j: nat, key: Identity, rid: nat, p: Phys) {
    && e < |actions| && actions[e] == CloserReturns(j, key, true)
    && Has(At(actions, e), j, key, rid) && Runs(At(actions, e).managers[j], key)
    && p in PhysSet(Ids(At(actions, e).managers[j].records[key].resource))
  }

  /** The ledger file was unreadable at some point from step `c` to step `n`. */
  ghost predicate Outage(actions: seq<Action>, c: nat, n: nat) {
    exists t: nat :: c <= t <= n && !At(actions, t).host.ledger.readable
  }

  /** The record was opened after step `k` without seeing what that step put on the ledger: its acquire had been
      checked before, or its node label does not cover its physical keys, or the ledger could not be read at some
      point from the check to the opening. */
  ghost predicate OpenedUnseeing(actions: seq<Action>, k: nat, e: nat, j: nat, key: Identity, rid: nat) {
    exists c: nat, n: nat ::
      && k < n < e && OpensAt(actions, c, n, j) && actions[c].resource.identity == key && At(actions, n).host.nextRid == rid
      && (c < k || !Covered(actions[c].resource, At(actions, c).managers[j].node) || Outage(actions, c, n))
  }

  lemma TakerIs(actions: seq<Action>, e: nat, p: Phys) returns (j: nat, key: Identity, rid: nat)
    requires Taken(actions, e, p)
    ensures VerifiedAt(actions, e, p) || ClosesWell(actions, e, j, key, rid, p)
  {
    j, key, rid := 0, Identity("", "", ""), 0;
    if actions[e].CloserReturns? {
      j, key := actions[e].manager, actions[e].key;
      rid := At(actions, e).managers[j].records[key].rid;
    }
  }

  lemma FailurePuts(actions: seq<Action>, k: nat, i: nat, key: Identity, rid: nat, p: Phys)
    requires FailsClose(actions, k, i, key, rid, p)
    ensures FaultOn(At(actions, k + 1).host.ledger, p)
  {
    AtNext(actions, k);
    LedgerStep(At(actions, k), actions[k], p);
    assert PutsFault(At(actions, k), actions[k], p);
  }

  /** A record opened before the failure and closed after it is the failed one, if Deploy owns both. */
  lemma OldTakerIsSame(actions: seq<Action>, k: nat, e: nat, i: nat, key: Identity, rid: nat, j: nat, other: Identity, rid': nat, p: Phys)
    requires k < e && FailsClose(actions, k, i, key, rid, p) && ClosesWell(actions, e, j, other, rid', p)
    requires !At(actions, k).managers[i].records[key].resource.external
    requires !At(actions, e).managers[j].records[other].resource.external
    requires Has(At(actions, k), j, other, rid')
    ensures j == i && other == key && rid' == rid
  {
    HadIdsAt(actions, k, j, other, rid');
    HasBetween(actions, k, k, e, j, other, rid');
    LiveBefore(actions, k, e, j, other, rid');
    AtInv(actions, k);
    OneOwner(At(actions, k), i, j, key, other, p);
  }

  lemma UnlearnTakes(w: World, a: Action, j: nat, id: Identity)
    requires Unlearns(w, a, j, id) && w.host.ledger.readable
    ensures TakesFault(w, a, PhysOf(id))
  {
  }

  /** A record whose acquire was checked against a readable ledger with the fault on it, under a label that covers
      the resource, and with the ledger readable until it was opened, does not take the fault. */
  lemma SeeingNeverTakes(actions: seq<Action>, c: nat, n: nat, e: nat, j: nat, p: Phys)
    requires n < e && OpensAt(actions, c, n, j) && ClosesWell(actions, e, j, actions[c].resource.identity, At(actions, n).host.nextRid, p)
    requires p in PhysSet(Ids(actions[c].resource)) && Covered(actions[c].resource, At(actions, c).managers[j].node)
    requires !Outage(actions, c, n) && FaultOn(At(actions, c).host.ledger, p) && Never(c, n, Takes(actions, p))
    ensures !Taken(actions, e, p)
  {
    var f :| f in At(actions, c).host.ledger.faults && PhysOf(f) == p;
    var id := Identity(At(actions, c).managers[j].node, f.kind, f.value);
    assert At(actions, c).host.ledger.readable;
    forall u: nat | c + 1 <= u < n
      ensures !UnlearnSteps(actions, j, id)(u)
    {
      assert At(actions, u).host.ledger.readable;
      assert !Takes(actions, p)(u);
      if Unlearns(At(actions, u), actions[u], j, id) {
        UnlearnTakes(At(actions, u), actions[u], j, id);
      }
    }
    OpenedOverFaultNeverTakes(actions, c, n, e, j, true, f, p);
  }

  /** A record opened after the failure that takes the fault has not seen it. */
  lemma NewTakerIsUnseeing(actions: seq<Action>, k: nat, c: nat, n: nat, e: nat, j: nat, key: Identity, rid: nat, p: Phys)
    requires k < n < e && e < |actions| && OpensAt(actions, c, n, j) && actions[c].resource.identity == key && At(actions, n).host.nextRid == rid
    requires !actions[k].BeginAcquire? && FaultOn(At(actions, k + 1).host.ledger, p) && Never(k + 1, e, Takes(actions, p))
    requires ClosesWell(actions, e, j, key, rid, p) && Taken(actions, e, p)
    ensures OpenedUnseeing(actions, k, e, j, key, rid)
  {
    OpensMarkedIff(actions, c, n, j);
    HadIdsAt(actions, n + 1, j, key, rid);
    HasBetween(actions, n + 1, n + 1, e, j, key, rid);
    if c >= k && Covered(actions[c].resource, At(actions, c).managers[j].node) && !Outage(actions, c, n) {
      assert c > k;
      FaultIff(actions, k + 1, c, p);
      SeeingNeverTakes(actions, c, n, e, j, p);
    }
  }

  /** The fault of a failed close, standing since, is taken off the ledger only by a verification, by a later
      successful close of the same record, by a close of a record of the same device where one of the two is
      external, so that no lock keeps them apart, or by a close of a record opened later without seeing it.
      Crashes and restarts may come anywhere in between. */
  lemma FailedCloseFaultTakenBy(actions: seq<Action>, k: nat, e: nat, i: nat, key: Identity, rid: nat, p: Phys)
    returns (j: nat, other: Identity, rid': nat)
    requires k < e && FailsClose(actions, k, i, key, rid, p)
    requires Never(k + 1, e, Takes(actions, p)) && Taken(actions, e, p)
    ensures FaultOn(At(actions, e).host.ledger, p) && !FaultOn(At(actions, e + 1).host.ledger, p)
    ensures || VerifiedAt(actions, e, p)
            || (ClosesWell(actions, e, j, other, rid', p)
                && (|| (j == i && other == key && rid' == rid)
                    || At(actions, k).managers[i].records[key].resource.external
                    || At(actions, e).managers[j].records[other].resource.external
                    || OpenedUnseeing(actions, k, e, j, other, rid')))
  {
    FailurePuts(actions, k, i, key, rid, p);
    FaultIff(actions, k + 1, e, p);
    AtNext(actions, e);
    LedgerAfter(At(actions, e), actions[e], p);
    j, other, rid' := TakerIs(actions, e, p);
    if !VerifiedAt(actions, e, p) {
      var c, n := RecordOpened(actions, e, j, other, rid');
      if n < k {
        HadIdsAt(actions, n + 1, j, other, rid');
        HasBetween(actions, n + 1, k, e, j, other, rid');
        if !At(actions, k).managers[i].records[key].resource.external && !At(actions, e).managers[j].records[other].resource.external {
          OldTakerIsSame(actions, k, e, i, key, rid, j, other, rid', p);
        }
      } else {
        NewTakerIsUnseeing(actions, k, c, n, e, j, other, rid', p);
      }
    }
  }

  /** The ways in which step `e` may take the fault that the failed close `k` of this record put. */
  ghost predicate TakesFailed(actions: seq<Action>, k: nat, e: nat, i: nat, key: Identity, rid: nat, p: Phys)
    requires FailsClose(actions, k, i, key, rid, p)
  {
    || VerifiedAt(actions, e, p)
    || ClosesWell(actions, e, i, key, rid, p)
    || exists j, other, rid' :: ClosesWell(actions, e, j, other, rid', p) && GetsPast(actions, k, e, i, key, j, other, rid')
  }

  /** Neither the lock table nor the mark keeps this record from taking the fault. */
  ghost predicate GetsPast(actions: seq<Action>, k: nat, e: nat, i: nat, key: Identity, j: nat, other: Identity, rid: nat)
    requires Has(At(actions, e), j, other, rid) && i in At(actions, k).managers && key in At(actions, k).managers[i].records
  {
    || At(actions, k).managers[i].records[key].resource.external || At(actions, e).managers[j].records[other].resource.external
    || OpenedUnseeing(actions, k, e, j, other, rid)
  }

  /** Across crashes and restarts the fault of a failed close is still on the ledger at any later point of any
      run, unless some step in between took it in one of those ways. */
  lemma FailedCloseFaultPersists(actions: seq<Action>, k: nat, n: nat, i: nat, key: Identity, rid: nat, p: Phys)
    requires k < n <= |actions| && FailsClose(actions, k, i, key, rid, p)
    ensures FaultOn(At(actions, n).host.ledger, p) || exists e: nat :: k < e < n && TakesFailed(actions, k, e, i, key, rid, p)
  {
    FailurePuts(actions, k, i, key, rid, p);
    FaultIff(actions, k + 1, n, p);
    if !FaultOn(At(actions, n).host.ledger, p) {
      var e := FirstStep(k + 1, n, Takes(actions, p));
      var j, other, rid' := FailedCloseFaultTakenBy(actions, k, e, i, key, rid, p);
      assert TakesFailed(actions, k, e, i, key, rid, p);
    }
  }
}
