/** Records that were opened over a fault, or over which one was reported: whether their successful close takes
    the fault off the ledger, over whole runs. */
module DeviceMarks {
  import opened Wrappers
  import opened DeviceModel
  import opened DeviceRuns
  import opened DeviceProofs
  import opened DeviceTheorems
  import opened DeviceLedger
  import opened DeviceReleases
  import opened Histories

  // ----- how a record gets its mark

  /** The steps that mark a record which is there: its own manager's report under the primary identity, its
      preparer's failure, and a close that cannot be written to the ledger. */
  predicate Marks(w: World, a: Action, i: nat, key: Identity) {
    && i in w.managers && key in w.managers[i].records
    && var m := w.managers[i];
       || (a == Report(i, key) && m.acquiring.None? && w.host.ledger.readable)
       || (a.FinishAcquire? && a.manager == i && SpoilsOpen(m, a.prep) && m.acquiring.value.resource.identity == key)
       || (a == CloserReturns(i, key, true) && Runs(m, key) && !w.host.ledger.readable)
  }

  predicate IsMarked(w: World, i: nat, key: Identity) {
    i in w.managers && key in w.managers[i].records && w.managers[i].records[key].uncertainBefore
  }

  predicate SameMark(m: Manager, m': Manager, key: Identity) {
    key in m.records && key in m'.records ==> m'.records[key].uncertainBefore == m.records[key].uncertainBefore
  }

  lemma AcquireMarks(host: Host, m: Manager, i: nat, opens: bool, prep: Preparation, cleanupOk: bool, key: Identity)
    requires key in m.records
    ensures var m' := Finish(host, m, i, opens, prep, cleanupOk).1;
      && key in m'.records
      && (m'.records[key].uncertainBefore <==>
            m.records[key].uncertainBefore || (SpoilsOpen(m, prep) && m.acquiring.value.resource.identity == key))
  {
    if m.acquiring.Some? && m.acquiring.value.resource.identity !in m.records {
      OpenShape(host, m.(acquiring := None), i, m.acquiring.value, opens, prep, cleanupOk);
    }
  }

  lemma BeginMarks(m: Manager, ledger: Ledger, res: Resource, prepare: bool, valuePrepared: bool, key: Identity)
    ensures SameMark(m, Begin(m, ledger, res, prepare, valuePrepared), key)
  {
  }

  lemma DropMarks(m: Manager, k: Identity, token: nat, key: Identity)
    ensures SameMark(m, Drop(m, k, token), key)
  {
  }

  lemma ClosingMarks(m: Manager, k: Identity, rid: nat, key: Identity)
    ensures SameMark(m, BeginClose(m, k, rid), key) && SameMark(m, EndClose(m, k), key) && SameMark(m, Shutdown(m), key)
  {
  }

  lemma CloserMarks(host: Host, m: Manager, k: Identity, ok: bool, key: Identity)
    requires key in m.records
    ensures var m' := RunClose(host, m, k, ok).1;
      && key in m'.records
      && (m'.records[key].uncertainBefore <==>
            m.records[key].uncertainBefore || (k == key && ok && Runs(m, key) && !host.ledger.readable))
  {
  }

  lemma FaultMarks(host: Host, m: Manager, id: Identity, key: Identity)
    requires key in m.records
    ensures var m' := MarkUncertain(host, m, id).1;
      && key in m'.records
      && (m'.records[key].uncertainBefore <==>
            m.records[key].uncertainBefore || (id == key && m.acquiring.None? && host.ledger.readable))
    ensures SameMark(m, ClearUncertainty(host, m, id).1, key)
  {
  }

  lemma AcquireMarkStep(w: World, a: Action, i: nat, key: Identity)
    requires (a.BeginAcquire? || a.FinishAcquire?) && a.manager == i && i in w.managers && key in w.managers[i].records
    ensures IsMarked(Next(w, a), i, key) <==> IsMarked(w, i, key) || Marks(w, a, i, key)
  {
    match a
    case BeginAcquire(_, res, p, v) => BeginMarks(w.managers[i], w.host.ledger, res, p, v, key);
    case FinishAcquire(_, o, p, c) => AcquireMarks(w.host, w.managers[i], i, o, p, c, key);
  }

  lemma CloserMarkStep(w: World, i: nat, k: Identity, ok: bool, key: Identity)
    requires i in w.managers && key in w.managers[i].records
    ensures var a := CloserReturns(i, k, ok); IsMarked(Next(w, a), i, key) <==> IsMarked(w, i, key) || Marks(w, a, i, key)
  {
    CloserMarks(w.host, w.managers[i], k, ok, key);
  }

  lemma CloseMarkStep(w: World, a: Action, i: nat, key: Identity)
    requires (a.DropLease? || a.CloseBegins? || a.CloseEnds? || a.Stop?) && a.manager == i
    requires i in w.managers && key in w.managers[i].records && key in Next(w, a).managers[i].records
    ensures IsMarked(Next(w, a), i, key) <==> IsMarked(w, i, key)
  {
    var m := w.managers[i];
    match a
    case DropLease(_, k, t) => DropMarks(m, k, t, key);
    case CloseBegins(_, k, r) => ClosingMarks(m, k, r, key);
    case CloseEnds(_, k) => ClosingMarks(m, k, 0, key);
    case Stop(_) => ClosingMarks(m, key, 0, key);
  }

  lemma MarkStep(w: World, a: Action, i: nat, key: Identity, rid: nat)
    requires Has(w, i, key, rid) && Has(Next(w, a), i, key, rid) && i < w.nextManager
    ensures IsMarked(Next(w, a), i, key) <==> IsMarked(w, i, key) || Marks(w, a, i, key)
  {
    if a.Start? || a.LedgerReadable? || a.Crash? || a.manager != i {
      assert Next(w, a).managers[i] == w.managers[i];
    } else if a.BeginAcquire? || a.FinishAcquire? {
      AcquireMarkStep(w, a, i, key);
    } else if a.Report? || a.Verify? {
      FaultMarks(w.host, w.managers[i], a.id, key);
    } else if a.CloserReturns? {
      CloserMarkStep(w, i, a.key, a.ok, key);
    } else {
      CloseMarkStep(w, a, i, key);
    }
  }

  ghost predicate MarkedBy(actions: seq<Action>, j: nat, i: nat, key: Identity) {
    j < |actions| && Marks(At(actions, j), actions[j], i, key)
  }

  ghost predicate MarkedBetween(actions: seq<Action>, start: nat, n: nat, i: nat, key: Identity) {
    exists j: nat :: start <= j < n && MarkedBy(actions, j, i, key)
  }

  lemma MarkStepAt(actions: seq<Action>, start: nat, n: nat, i: nat, key: Identity, rid: nat)
    requires start < n <= |actions| && Has(At(actions, start), i, key, rid) && Has(At(actions, n), i, key, rid)
    ensures Has(At(actions, n - 1), i, key, rid)
    ensures IsMarked(At(actions, n), i, key) <==> IsMarked(At(actions, n - 1), i, key) || MarkedBy(actions, n - 1, i, key)
  {
    HadIdsAt(actions, start, i, key, rid);
    HasBetween(actions, start, n - 1, n, i, key, rid);
    AtNext(actions, n - 1);
    HadIdsAt(actions, n - 1, i, key, rid);
    MarkStep(At(actions, n - 1), actions[n - 1], i, key, rid);
  }

  /** While a record is there, it is marked exactly if it was or one of those steps has marked it since. */
  lemma {:induction false} MarkedIff(actions: seq<Action>, start: nat, n: nat, i: nat, key: Identity, rid: nat)
    requires start <= n <= |actions| && Has(At(actions, start), i, key, rid) && Has(At(actions, n), i, key, rid)
    ensures IsMarked(At(actions, n), i, key) <==> IsMarked(At(actions, start), i, key) || MarkedBetween(actions, start, n, i, key)
    decreases n - start
  {
    if start < n {
      MarkStepAt(actions, start, n, i, key, rid);
      MarkedIff(actions, start, n - 1, i, key, rid);
      MarkedBetweenStep(actions, start, n - 1, i, key);
    }
  }

  lemma MarkedBetweenStep(actions: seq<Action>, start: nat, n: nat, i: nat, key: Identity)
    requires start <= n
    ensures MarkedBetween(actions, start, n + 1, i, key) <==> MarkedBetween(actions, start, n, i, key) || MarkedBy(actions, n, i, key)
  {
    if j: nat :| start <= j < n && MarkedBy(actions, j, i, key) {
      assert start <= j < n + 1;
    }
  }

  /** What a successful close does with a fault of its record's resource. */
  lemma CloseTakesIff(actions: seq<Action>, start: nat, n: nat, i: nat, key: Identity, rid: nat, ok: bool, p: Phys)
    requires start <= n < |actions| && actions[n] == CloserReturns(i, key, ok)
    requires Has(At(actions, start), i, key, rid) && Has(At(actions, n), i, key, rid) && Runs(At(actions, n).managers[i], key)
    requires p in PhysSet(Ids(At(actions, start).managers[i].records[key].resource))
    ensures TakesFault(At(actions, n), actions[n], p) <==>
            ok && At(actions, n).host.ledger.readable && !IsMarked(At(actions, start), i, key) && !MarkedBetween(actions, start, n, i, key)
  {
    HadIdsAt(actions, start, i, key, rid);
    HasBetween(actions, start, start, n, i, key, rid);
    MarkedIff(actions, start, n, i, key, rid);
  }

  // ----- a fault reported over an open record

  lemma ReportFaults(w: World, j: nat, id: Identity)
    requires Inv(w) && j in w.managers && w.managers[j].acquiring.None? && w.host.ledger.readable
    ensures FaultOn(Next(w, Report(j, id)).host.ledger, PhysOf(id))
  {
    var m := w.managers[j];
    MarkFaults(w.host.ledger, id, PhysOf(id));
    if id in m.records {
      HadIds(w, j, id, m.records[id].rid);
      assert Ids(m.records[id].resource)[0] == id;
      MarkAllFaults(w.host.ledger, Ids(m.records[id].resource), PhysOf(id));
    }
  }

  /** In every run: any manager reports a fault on a physical key of an open record, whatever follows, and later
      the record's close succeeds. The fault is still there when the closer returns exactly if no step took it
      since or a later one put it back; and it outlives the close exactly if, besides, the report came from the
      record's own manager under the record's primary identity, or the record was marked already, or has been
      marked since. */
  lemma ReportedFaultOutlivesCloseIff(actions: seq<Action>, k: nat, n: nat, j: nat, id: Identity, i: nat, key: Identity, rid: nat)
    requires k < n < |actions| && actions[k] == Report(j, id) && actions[n] == CloserReturns(i, key, true)
    requires j in At(actions, k).managers && At(actions, k).managers[j].acquiring.None? && At(actions, k).host.ledger.readable
    requires Has(At(actions, k), i, key, rid) && PhysOf(id) in PhysSet(Ids(At(actions, k).managers[i].records[key].resource))
    requires Has(At(actions, n), i, key, rid) && Runs(At(actions, n).managers[i], key)
    requires Has(At(actions, n + 1), i, key, rid) && At(actions, n + 1).managers[i].records[key].run == Some(true)
    ensures FaultOn(At(actions, k + 1).host.ledger, PhysOf(id))
    ensures FaultOn(At(actions, n).host.ledger, PhysOf(id)) <==>
            Stands(k + 1, n, true, Puts(actions, PhysOf(id)), Takes(actions, PhysOf(id)))
    ensures FaultOn(At(actions, n + 1).host.ledger, PhysOf(id)) <==>
            && FaultOn(At(actions, n).host.ledger, PhysOf(id))
            && ((j == i && id == key) || IsMarked(At(actions, k), i, key) || MarkedBetween(actions, k + 1, n, i, key))
  {
    var p := PhysOf(id);
    AtInv(actions, k);
    AtNext(actions, k);
    AtNext(actions, n);
    ReportFaults(At(actions, k), j, id);
    FaultIff(actions, k + 1, n, p);
    LedgerStep(At(actions, n), actions[n], p);
    CloseTakesIff(actions, k, n, i, key, rid, true, p);
    MarkedFirst(actions, k, n, i, key);
    assert MarkedBy(actions, k, i, key) <==> j == i && id == key;
    SuccessNeeds(At(actions, n), i, key);
    MarkedIff(actions, k, n, i, key, rid);
  }

  lemma MarkedFirst(actions: seq<Action>, start: nat, n: nat, i: nat, key: Identity)
    requires start < n
    ensures MarkedBetween(actions, start, n, i, key) <==> MarkedBy(actions, start, i, key) || MarkedBetween(actions, start + 1, n, i, key)
  {
    if j: nat :| start <= j < n && MarkedBy(actions, j, i, key) {
      assert j == start || start + 1 <= j < n;
    }
  }

  lemma SuccessNeeds(w: World, i: nat, key: Identity)
    requires i in w.managers && Runs(w.managers[i], key)
    ensures var m' := Next(w, CloserReturns(i, key, true)).managers[i];
      key in m'.records && (m'.records[key].run == Some(true) <==> w.host.ledger.readable || IsMarked(w, i, key))
  {
  }

  /** Manager 0's only record, unmarked, in use under lease 1. */
  predicate InUse(m: Manager, res: Resource) {
    && m.records.Keys == {res.identity} && m.acquiring.None? && m.due == multiset{}
    && m.records[res.identity] == Record(0, res, 1, false, Open, false, {1}, false, None)
  }

  lemma ReportElsewhere(w: World, res: Resource)
    requires Inv(w) && OneOpen(w, res, {1}, multiset{})
    ensures var w' := Next(Next(w, Start("n")), Report(1, res.identity));
      && 0 in w'.managers && InUse(w'.managers[0], res) && w'.host.ledger.readable && FaultOn(w'.host.ledger, PhysOf(res.identity))
  {
    var w1 := Next(w, Start("n"));
    NextKeeps(w, Start("n"));
    assert w1.managers[1].acquiring.None? && w1.managers[1].records == map[] && w1.managers[0] == w.managers[0];
    ReportFaults(w1, 1, res.identity);
  }

  lemma ReleaseAndBegin(w: World, res: Resource)
    requires 0 in w.managers && InUse(w.managers[0], res)
    ensures var id := res.identity;
      var w' := Next(Next(w, DropLease(0, id, 1)), CloseBegins(0, id, 0));
      && w'.host.ledger == w.host.ledger && 0 in w'.managers && Runs(w'.managers[0], id)
      && w'.managers[0].records[id].resource == res && !w'.managers[0].records[id].uncertainBefore
  {
    var w1 := Next(w, DropLease(0, res.identity, 1));
    assert w1.managers[0].due == multiset{0};
    assert Starts(w1.managers[0], res.identity, 0);
  }

  /** A report by another manager under the record's own primary identity does not protect the fault: the
      ordinary release and close of the record take it away. */
  lemma ForeignReportIsLost(res: Resource)
    requires res.components == [] && !res.external
    ensures exists before, a :: FaultOn(Reached(before).host.ledger, PhysOf(res.identity)) && Report(1, res.identity) in before
              && a == CloserReturns(0, res.identity, true) && !FaultOn(Next(Reached(before), a).host.ledger, PhysOf(res.identity))
  {
    var open := OpenOne(res);
    var before := ForeignRun(open, res);
    var close := CloserReturns(0, res.identity, true);
    LedgerAfter(Reached(before), close, PhysOf(res.identity));
    assert Report(1, res.identity) in before;
  }

  lemma ForeignRun(open: seq<Action>, res: Resource) returns (before: seq<Action>)
    requires OneOpen(Reached(open), res, {1}, multiset{})
    ensures Report(1, res.identity) in before
    ensures FaultOn(Reached(before).host.ledger, PhysOf(res.identity))
    ensures TakesFault(Reached(before), CloserReturns(0, res.identity, true), PhysOf(res.identity))
  {
    var id := res.identity;
    var a1, a2, a3, a4 := Start("n"), Report(1, id), DropLease(0, id, 1), CloseBegins(0, id, 0);
    var reported := open + [a1] + [a2];
    before := reported + [a3] + [a4];
    ReachedInv(open);
    ReportElsewhere(Reached(open), res);
    RunAppend(INIT, open, a1);
    RunAppend(INIT, open + [a1], a2);
    ReleaseAndBegin(Reached(reported), res);
    RunAppend(INIT, reported, a3);
    RunAppend(INIT, reported + [a3], a4);
    assert a2 in reported;
    PrimaryKey(res);
  }

  lemma PrimaryKey(res: Resource)
    ensures PhysOf(res.identity) in PhysSet(Ids(res))
  {
    assert Ids(res)[0] == res.identity;
  }

  // ----- records opened over a fault

  /** While an acquire is under way only closers that return change what its manager knows of the ledger. */
  predicate Learns(w: World, a: Action, i: nat, id: Identity) {
    && i in w.managers && a.CloserReturns? && a.manager == i && !a.ok && Runs(w.managers[i], a.key)
    && id in Ids(w.managers[i].records[a.key].resource)
  }

  predicate Unlearns(w: World, a: Action, i: nat, id: Identity) {
    && i in w.managers && a.CloserReturns? && a.manager == i && a.ok && Runs(w.managers[i], a.key)
    && !w.managers[i].records[a.key].uncertainBefore && id in Ids(w.managers[i].records[a.key].resource)
  }

  /** A closer's return that reads or writes the ledger file, and so shows whether it can. */
  predicate Touches(w: World, a: Action, i: nat) {
    && i in w.managers && a.CloserReturns? && a.manager == i && Runs(w.managers[i], a.key)
    && (!a.ok || !w.managers[i].records[a.key].uncertainBefore)
  }

  predicate Knows(w: World, i: nat, id: Identity) {
    i in w.managers && id in w.managers[i].unresolved
  }

  predicate Blind(w: World, i: nat) {
    i in w.managers && w.managers[i].storeError
  }

  predicate Busy(w: World, i: nat) {
    i in w.managers && w.managers[i].acquiring.Some?
  }

  lemma CloserTeaches(host: Host, m: Manager, k: Identity, ok: bool, id: Identity)
    requires Runs(m, k)
    ensures var r, m' := m.records[k], RunClose(host, m, k, ok).1;
      && (id in m'.unresolved <==>
            if id !in Ids(r.resource) then id in m.unresolved
            else if !ok then true else if r.uncertainBefore then id in m.unresolved else false)
      && (m'.storeError <==> if !ok || !r.uncertainBefore then !host.ledger.readable else m.storeError)
  {
  }

  lemma BusyIgnores(w: World, a: Action, i: nat)
    requires Busy(w, i) && Busy(Next(w, a), i) && i < w.nextManager && !(a.CloserReturns? && a.manager == i && Runs(w.managers[i], a.key))
    ensures Next(w, a).managers[i].unresolved == w.managers[i].unresolved && Next(w, a).managers[i].storeError == w.managers[i].storeError
  {
  }

  lemma KnowledgeStep(w: World, a: Action, i: nat, id: Identity)
    requires Busy(w, i) && Busy(Next(w, a), i) && i < w.nextManager
    ensures Knows(Next(w, a), i, id) <==> !Unlearns(w, a, i, id) && (Knows(w, i, id) || Learns(w, a, i, id))
    ensures Blind(Next(w, a), i) <==>
            !(Touches(w, a, i) && w.host.ledger.readable) && (Blind(w, i) || (Touches(w, a, i) && !w.host.ledger.readable))
  {
    if a.CloserReturns? && a.manager == i && Runs(w.managers[i], a.key) {
      CloserTeaches(w.host, w.managers[i], a.key, a.ok, id);
    } else {
      BusyIgnores(w, a, i);
    }
  }

  ghost predicate Learnt(actions: seq<Action>, j: nat, i: nat, id: Identity) {
    j < |actions| && Learns(At(actions, j), actions[j], i, id)
  }

  ghost predicate Unlearnt(actions: seq<Action>, j: nat, i: nat, id: Identity) {
    j < |actions| && Unlearns(At(actions, j), actions[j], i, id)
  }

  ghost predicate TouchedOk(actions: seq<Action>, j: nat, i: nat) {
    j < |actions| && Touches(At(actions, j), actions[j], i) && At(actions, j).host.ledger.readable
  }

  ghost predicate TouchedBad(actions: seq<Action>, j: nat, i: nat) {
    j < |actions| && Touches(At(actions, j), actions[j], i) && !At(actions, j).host.ledger.readable
  }

  ghost function LearnSteps(actions: seq<Action>, i: nat, id: Identity): nat -> bool {
    (j: nat) => Learnt(actions, j, i, id)
  }

  ghost function UnlearnSteps(actions: seq<Action>, i: nat, id: Identity): nat -> bool {
    (j: nat) => Unlearnt(actions, j, i, id)
  }

  ghost function GoodTouches(actions: seq<Action>, i: nat): nat -> bool {
    (j: nat) => TouchedOk(actions, j, i)
  }

  ghost function BadTouches(actions: seq<Action>, i: nat): nat -> bool {
    (j: nat) => TouchedBad(actions, j, i)
  }

  /** The fault was on a readable ledger at the check `k`, under this manager's label, and since then none of its
      own closers took it away; or one of them put it there since and no later one took it away. */
  ghost predicate CheckedFault(actions: seq<Action>, k: nat, n: nat, i: nat, node: string, id: Identity) {
    var ledger := At(actions, k).host.ledger;
    Stands(k + 1, n, ledger.readable && id in Relabel(ledger.faults, node), LearnSteps(actions, i, id), UnlearnSteps(actions, i, id))
  }

  /** The ledger was unreadable at the check `k` and no closer of this manager could use it since; or one could
      not and no later one could. */
  ghost predicate CheckedBlind(actions: seq<Action>, k: nat, n: nat, i: nat) {
    Stands(k + 1, n, !At(actions, k).host.ledger.readable, BadTouches(actions, i), GoodTouches(actions, i))
  }

  lemma KnowledgeAt(actions: seq<Action>, k: nat, j: nat, n: nat, i: nat, id: Identity)
    requires k < j < n && Checks(actions, k, n, i)
    ensures Knows(At(actions, j + 1), i, id) <==> !Unlearnt(actions, j, i, id) && (Knows(At(actions, j), i, id) || Learnt(actions, j, i, id))
    ensures Blind(At(actions, j + 1), i) <==> !TouchedOk(actions, j, i) && (Blind(At(actions, j), i) || TouchedBad(actions, j, i))
  {
    assert Pending(actions, k, j, i) && Pending(actions, k, j + 1, i);
    AtNext(actions, j);
    AtInv(actions, j);
    KnowledgeStep(At(actions, j), actions[j], i, id);
  }

  lemma CheckReads(w: World, a: Action, i: nat)
    requires a.BeginAcquire? && a.manager == i && i in w.managers && w.managers[i].acquiring.None? && Busy(Next(w, a), i)
    ensures var m, m' := w.managers[i], Next(w, a).managers[i];
      && m'.unresolved == (if w.host.ledger.readable then Relabel(w.host.ledger.faults, m.node) else {})
      && m'.storeError == !w.host.ledger.readable && m'.node == m.node
  {
  }

  /** What the manager knows of the ledger right after its check. */
  lemma CheckKnows(actions: seq<Action>, k: nat, n: nat, i: nat)
    requires Checks(actions, k, n, i)
    ensures Blind(At(actions, k + 1), i) == !At(actions, k).host.ledger.readable
    ensures i in At(actions, k + 1).managers && At(actions, k + 1).managers[i].unresolved ==
      if At(actions, k).host.ledger.readable then Relabel(At(actions, k).host.ledger.faults, At(actions, k).managers[i].node) else {}
  {
    assert Pending(actions, k, k + 1, i);
    AtNext(actions, k);
    CheckReads(At(actions, k), actions[k], i);
  }

  lemma KnowsFirst(actions: seq<Action>, k: nat, n: nat, i: nat, id: Identity)
    requires Checks(actions, k, n, i)
    ensures var ledger := At(actions, k).host.ledger;
      Knows(At(actions, k + 1), i, id) == (ledger.readable && id in Relabel(ledger.faults, At(actions, k).managers[i].node))
  {
    CheckKnows(actions, k, n, i);
  }

  lemma KnowsAt(actions: seq<Action>, k: nat, j: nat, n: nat, i: nat, id: Identity)
    requires k < j < n && Checks(actions, k, n, i)
    ensures Knows(At(actions, j + 1), i, id) ==
            (!UnlearnSteps(actions, i, id)(j) && (Knows(At(actions, j), i, id) || LearnSteps(actions, i, id)(j)))
  {
    KnowledgeAt(actions, k, j, n, i, id);
  }

  lemma KnowsIff(actions: seq<Action>, k: nat, n: nat, i: nat, id: Identity)
    requires Checks(actions, k, n, i)
    ensures Knows(At(actions, n), i, id) <==> CheckedFault(actions, k, n, i, At(actions, k).managers[i].node, id)
  {
    var on := (j: nat) => Knows(At(actions, j), i, id);
    KnowsFirst(actions, k, n, i, id);
    var ledger := At(actions, k).host.ledger;
    assert on(k + 1) == (ledger.readable && id in Relabel(ledger.faults, At(actions, k).managers[i].node));
    forall j: nat | k + 1 <= j < n
      ensures on(j + 1) == (!UnlearnSteps(actions, i, id)(j) && (on(j) || LearnSteps(actions, i, id)(j)))
    {
      KnowsAt(actions, k, j, n, i, id);
    }
    FlagIff(k + 1, n, on, LearnSteps(actions, i, id), UnlearnSteps(actions, i, id));
  }

  lemma BlindAt(actions: seq<Action>, k: nat, j: nat, n: nat, i: nat)
    requires k < j < n && Checks(actions, k, n, i)
    ensures Blind(At(actions, j + 1), i) ==
            (!GoodTouches(actions, i)(j) && (Blind(At(actions, j), i) || BadTouches(actions, i)(j)))
  {
    KnowledgeAt(actions, k, j, n, i, Identity("", "", ""));
  }

  lemma BlindFirst(actions: seq<Action>, k: nat, n: nat, i: nat)
    requires Checks(actions, k, n, i)
    ensures Blind(At(actions, k + 1), i) == !At(actions, k).host.ledger.readable
  {
    CheckKnows(actions, k, n, i);
  }

  lemma BlindIff(actions: seq<Action>, k: nat, n: nat, i: nat)
    requires Checks(actions, k, n, i)
    ensures Blind(At(actions, n), i) <==> CheckedBlind(actions, k, n, i)
  {
    var on := (j: nat) => Blind(At(actions, j), i);
    BlindFirst(actions, k, n, i);
    assert on(k + 1) == !At(actions, k).host.ledger.readable;
    forall j: nat | k + 1 <= j < n
      ensures on(j + 1) == (!GoodTouches(actions, i)(j) && (on(j) || BadTouches(actions, i)(j)))
    {
      BlindAt(actions, k, j, n, i);
    }
    FlagIff(k + 1, n, on, BadTouches(actions, i), GoodTouches(actions, i));
  }

  /** Step `n` opens the record whose acquire was checked at step `k`. */
  ghost predicate OpensAt(actions: seq<Action>, k: nat, n: nat, i: nat) {
    && n < |actions| && actions[n].FinishAcquire? && actions[n].manager == i && Checks(actions, k, n, i)
    && actions[k].resource.identity !in At(actions, n).managers[i].records
    && Has(At(actions, n + 1), i, actions[k].resource.identity, At(actions, n).host.nextRid)
  }

  /** The record is marked as it is opened. */
  ghost predicate OpensMarked(actions: seq<Action>, k: nat, n: nat, i: nat)
    requires OpensAt(actions, k, n, i)
  {
    || (actions[k].prepare && !actions[n].prep.Prepared?)
    || CheckedBlind(actions, k, n, i)
    || exists id :: id in Ids(actions[k].resource) && CheckedFault(actions, k, n, i, At(actions, k).managers[i].node, id)
  }

  lemma NewMark(host: Host, m: Manager, i: nat, a: Attempt, opens: bool, prep: Preparation, cleanupOk: bool)
    requires m.acquiring.None? && a.resource.identity !in m.records
    ensures var m' := OpenNew(host, m, i, a, opens, prep, cleanupOk).1;
      a.resource.identity in m'.records ==>
        && m'.records[a.resource.identity].resource == a.resource
        && (m'.records[a.resource.identity].uncertainBefore <==>
              (a.prepare && !prep.Prepared?) || m.storeError || AnyFault(m.unresolved, a.resource))
  {
  }

  /** A record is opened with a mark exactly if it is quarantined, or its manager's check found the ledger
      unreadable or a fault of the resource on it, corrected by that manager's own closers that returned between
      the check and the opening. */
  lemma OpensMarkedIff(actions: seq<Action>, k: nat, n: nat, i: nat)
    requires OpensAt(actions, k, n, i)
    ensures IsMarked(At(actions, n + 1), i, actions[k].resource.identity) <==> OpensMarked(actions, k, n, i)
    ensures At(actions, n + 1).managers[i].records[actions[k].resource.identity].resource == actions[k].resource
  {
    var w, a, res := At(actions, n), actions[n], actions[k].resource;
    var m := w.managers[i];
    assert Pending(actions, k, n, i);
    AtNext(actions, n);
    NewMark(w.host, m.(acquiring := None), i, m.acquiring.value, a.opens, a.prep, a.cleanupOk);
    BlindIff(actions, k, n, i);
    forall id
      ensures id in m.unresolved <==> CheckedFault(actions, k, n, i, At(actions, k).managers[i].node, id)
    {
      KnowsIff(actions, k, n, i, id);
    }
  }

  /** From the check of the acquire that opens a record to any later close of it, in any run: the close takes a
      fault of the resource off the ledger exactly if the closer succeeds with the ledger readable and the record
      was neither opened with a mark nor marked since. */
  lemma OpenedRecordTakesIff(actions: seq<Action>, k: nat, n: nat, e: nat, i: nat, ok: bool, p: Phys)
    requires n < e < |actions| && OpensAt(actions, k, n, i) && p in PhysSet(Ids(actions[k].resource))
    requires actions[e] == CloserReturns(i, actions[k].resource.identity, ok)
    requires Has(At(actions, e), i, actions[k].resource.identity, At(actions, n).host.nextRid)
    requires Runs(At(actions, e).managers[i], actions[k].resource.identity)
    ensures TakesFault(At(actions, e), actions[e], p) <==>
            && ok && At(actions, e).host.ledger.readable
            && !OpensMarked(actions, k, n, i) && !MarkedBetween(actions, n + 1, e, i, actions[k].resource.identity)
  {
    OpensMarkedIff(actions, k, n, i);
    CloseTakesIff(actions, n + 1, e, i, actions[k].resource.identity, At(actions, n).host.nextRid, ok, p);
  }

  /** So no close of a record ever takes a fault of its resource away if its acquire was checked against a ledger
      that had one, unless a closer of the same manager took it away before the record was opened. */
  lemma OpenedOverFaultNeverTakes(actions: seq<Action>, k: nat, n: nat, e: nat, i: nat, ok: bool, f: Identity, p: Phys)
    requires n < e < |actions| && OpensAt(actions, k, n, i) && p in PhysSet(Ids(actions[k].resource))
    requires actions[e] == CloserReturns(i, actions[k].resource.identity, ok)
    requires Has(At(actions, e), i, actions[k].resource.identity, At(actions, n).host.nextRid)
    requires Runs(At(actions, e).managers[i], actions[k].resource.identity)
    requires Covered(actions[k].resource, At(actions, k).managers[i].node)
    requires At(actions, k).host.ledger.readable && f in At(actions, k).host.ledger.faults && PhysOf(f) in PhysSet(Ids(actions[k].resource))
    requires Never(k + 1, n, UnlearnSteps(actions, i, Identity(At(actions, k).managers[i].node, f.kind, f.value)))
    ensures !TakesFault(At(actions, e), actions[e], p)
  {
    var id := Identity(At(actions, k).managers[i].node, f.kind, f.value);
    assert id in Relabel(At(actions, k).host.ledger.faults, At(actions, k).managers[i].node);
    assert CheckedFault(actions, k, n, i, At(actions, k).managers[i].node, id);
    assert id in Ids(actions[k].resource);
    OpenedRecordTakesIff(actions, k, n, e, i, ok, p);
  }
}
