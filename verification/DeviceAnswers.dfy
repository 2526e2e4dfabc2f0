/** What an acquire is answered, in terms of what happened to the manager and to the record before. */
module DeviceAnswers {
  import opened Wrappers
  import opened DeviceModel
  import opened DeviceRuns
  import opened DeviceProofs
  import opened DeviceTheorems
  import opened DeviceLedger
  import opened DeviceReleases
  import opened DeviceMarks
  import opened Histories

  // ----- what changes a record

  predicate Uncertainly(m: Manager, key: Identity) {
    key in m.records && m.records[key].state.Uncertain?
  }

  predicate IsPrepared(m: Manager, key: Identity) {
    key in m.records && m.records[key].prepared
  }

  predicate IsClosing(m: Manager, key: Identity) {
    key in m.records && m.records[key].closing
  }

  /** The acquire under way prepares the open record with success. */
  predicate PreparesOpen(m: Manager, prep: Preparation, key: Identity) {
    m.acquiring.Some? && m.acquiring.value.resource.identity == key && key in m.records && prep.Prepared?
  }

  predicate SpoilsAt(m: Manager, prep: Preparation, key: Identity) {
    SpoilsOpen(m, prep) && m.acquiring.value.resource.identity == key
  }

  /** The closer fails, or what it did cannot be written to the ledger. */
  predicate ClosesBadly(host: Host, m: Manager, key: Identity, ok: bool) {
    Runs(m, key) && (!ok || (!m.records[key].uncertainBefore && !host.ledger.readable))
  }

  /** What a step makes of the three marks of a record. */
  predicate MarksAfter(m: Manager, m': Manager, key: Identity, upset: bool, settled: bool, prepared: bool, starts: bool, ends: bool) {
    key in m.records && key in m'.records ==>
      && (Uncertainly(m', key) <==> !settled && (Uncertainly(m, key) || upset))
      && (IsPrepared(m', key) <==> IsPrepared(m, key) || prepared)
      && (IsClosing(m', key) <==> !ends && (IsClosing(m, key) || starts))
  }

  lemma BeginKeepsMarks(m: Manager, ledger: Ledger, res: Resource, prepare: bool, v: bool, key: Identity)
    ensures MarksAfter(m, Begin(m, ledger, res, prepare, v), key, false, false, false, false, false)
  {
  }

  lemma FinishMarks(host: Host, m: Manager, i: nat, opens: bool, prep: Preparation, c: bool, key: Identity)
    ensures MarksAfter(m, Finish(host, m, i, opens, prep, c).1, key, SpoilsAt(m, prep, key), PreparesOpen(m, prep, key),
                       PreparesOpen(m, prep, key), false, false)
  {
    if m.acquiring.Some? && m.acquiring.value.resource.identity !in m.records {
      OpenShape(host, m.(acquiring := None), i, m.acquiring.value, opens, prep, c);
    }
  }

  lemma ReleaseKeepsMarks(m: Manager, k: Identity, token: nat, key: Identity)
    ensures MarksAfter(m, Drop(m, k, token), key, false, false, false, false, false)
    ensures MarksAfter(m, Shutdown(m), key, false, false, false, false, false)
  {
  }

  lemma BeginCloseMarks(m: Manager, k: Identity, rid: nat, key: Identity)
    ensures MarksAfter(m, BeginClose(m, k, rid), key, false, false, false, k == key && Starts(m, key, rid), false)
  {
  }

  lemma RunCloseMarks(host: Host, m: Manager, k: Identity, ok: bool, key: Identity)
    ensures MarksAfter(m, RunClose(host, m, k, ok).1, key, k == key && ClosesBadly(host, m, key, ok), false, false, false, false)
  {
  }

  lemma EndCloseMarks(m: Manager, k: Identity, key: Identity)
    ensures MarksAfter(m, EndClose(m, k), key, k == key && FinishesClose(m, key), false, false, false, k == key && FinishesClose(m, key))
  {
  }

  lemma ReportMarks(host: Host, m: Manager, id: Identity, key: Identity)
    ensures MarksAfter(m, MarkUncertain(host, m, id).1, key, id == key && m.acquiring.None? && host.ledger.readable, false, false, false, false)
    ensures MarksAfter(m, ClearUncertainty(host, m, id).1, key, false, false, false, false, false)
  {
  }

  /** The record counts as uncertain after its preparer failed, its closer failed or could not be recorded, its
      failed close was finished, or its own manager reported a fault under its identity. */
  predicate Upsets(w: World, a: Action, i: nat, key: Identity) {
    && i in w.managers
    && var m := w.managers[i];
       || (a.FinishAcquire? && a.manager == i && SpoilsAt(m, a.prep, key))
       || (a.CloserReturns? && a.manager == i && a.key == key && ClosesBadly(w.host, m, key, a.ok))
       || (a == CloseEnds(i, key) && FinishesClose(m, key))
       || (a == Report(i, key) && m.acquiring.None? && w.host.ledger.readable)
  }

  /** Only a preparer that succeeds on the open record settles it again. */
  predicate Prepares(w: World, a: Action, i: nat, key: Identity) {
    i in w.managers && a.FinishAcquire? && a.manager == i && PreparesOpen(w.managers[i], a.prep, key)
  }

  predicate StartsClose(w: World, a: Action, i: nat, key: Identity) {
    i in w.managers && a.CloseBegins? && a.manager == i && a.key == key && Starts(w.managers[i], key, a.rid)
  }

  predicate EndsClose(w: World, a: Action, i: nat, key: Identity) {
    i in w.managers && a == CloseEnds(i, key) && FinishesClose(w.managers[i], key)
  }

  predicate StepMarks(w: World, a: Action, i: nat, key: Identity)
    requires i in w.managers && i in Next(w, a).managers
  {
    MarksAfter(w.managers[i], Next(w, a).managers[i], key, Upsets(w, a, i, key), Prepares(w, a, i, key), Prepares(w, a, i, key),
               StartsClose(w, a, i, key), EndsClose(w, a, i, key))
  }

  lemma OwnStepMarks(w: World, a: Action, i: nat, key: Identity)
    requires i in w.managers && !a.Start? && !a.LedgerReadable? && !a.Crash? && a.manager == i && !a.BeginAcquire? && !a.FinishAcquire?
    ensures i in Next(w, a).managers && StepMarks(w, a, i, key)
  {
    var m := w.managers[i];
    match a
    case DropLease(_, k, t) => ReleaseKeepsMarks(m, k, t, key);
    case Stop(_) => ReleaseKeepsMarks(m, key, 0, key);
    case CloseBegins(_, k, r) => BeginCloseMarks(m, k, r, key);
    case CloserReturns(_, k, ok) => RunCloseMarks(w.host, m, k, ok, key);
    case CloseEnds(_, k) => EndCloseMarks(m, k, key);
    case Report(_, id) => ReportMarks(w.host, m, id, key);
    case Verify(_, id) => ReportMarks(w.host, m, id, key);
  }

  lemma AcquireStepMarks(w: World, a: Action, i: nat, key: Identity)
    requires i in w.managers && (a.BeginAcquire? || a.FinishAcquire?) && a.manager == i
    ensures i in Next(w, a).managers && StepMarks(w, a, i, key)
  {
    var m := w.managers[i];
    match a
    case BeginAcquire(_, res, p, v) => BeginKeepsMarks(m, w.host.ledger, res, p, v, key);
    case FinishAcquire(_, o, p, c) => FinishMarks(w.host, m, i, o, p, c, key);
  }

  lemma OtherStepMarks(w: World, a: Action, i: nat, key: Identity)
    requires i in w.managers && i in Next(w, a).managers && i < w.nextManager
    requires a.Start? || a.LedgerReadable? || a.Crash? || a.manager != i
    ensures StepMarks(w, a, i, key)
  {
    assert Next(w, a).managers[i] == w.managers[i];
  }

  lemma StepMarksHold(w: World, a: Action, i: nat, key: Identity)
    requires i in w.managers && i in Next(w, a).managers && i < w.nextManager
    ensures StepMarks(w, a, i, key)
  {
    if a.Start? || a.LedgerReadable? || a.Crash? || a.manager != i {
      OtherStepMarks(w, a, i, key);
    } else if a.BeginAcquire? || a.FinishAcquire? {
      AcquireStepMarks(w, a, i, key);
    } else {
      OwnStepMarks(w, a, i, key);
    }
  }

  // ----- over a run

  ghost function UpsetSteps(actions: seq<Action>, i: nat, key: Identity): nat -> bool {
    (j: nat) => j < |actions| && Upsets(At(actions, j), actions[j], i, key)
  }

  ghost function PrepareSteps(actions: seq<Action>, i: nat, key: Identity): nat -> bool {
    (j: nat) => j < |actions| && Prepares(At(actions, j), actions[j], i, key)
  }

  ghost function CloseStartSteps(actions: seq<Action>, i: nat, key: Identity): nat -> bool {
    (j: nat) => j < |actions| && StartsClose(At(actions, j), actions[j], i, key)
  }

  ghost function CloseEndSteps(actions: seq<Action>, i: nat, key: Identity): nat -> bool {
    (j: nat) => j < |actions| && EndsClose(At(actions, j), actions[j], i, key)
  }

  ghost function NoSteps(): nat -> bool {
    (j: nat) => false
  }

  /** The record there at step `n` was checked at step `c` and opened at step `o`. */
  ghost predicate Opened(actions: seq<Action>, c: nat, o: nat, n: nat, i: nat, key: Identity, rid: nat) {
    && o < n <= |actions| && OpensAt(actions, c, o, i) && actions[c].resource.identity == key
    && At(actions, o).host.nextRid == rid && Has(At(actions, n), i, key, rid)
  }

  /** The record was opened over a known fault or quarantined and not prepared since, or upset since its last
      successful preparation. */
  ghost predicate UncertainSince(actions: seq<Action>, c: nat, o: nat, n: nat, i: nat, key: Identity)
    requires OpensAt(actions, c, o, i)
  {
    Stands(o + 1, n, OpensMarked(actions, c, o, i), UpsetSteps(actions, i, key), PrepareSteps(actions, i, key))
  }

  /** The record was prepared when it was opened, or later. */
  ghost predicate PreparedSince(actions: seq<Action>, c: nat, o: nat, n: nat, i: nat, key: Identity)
    requires OpensAt(actions, c, o, i)
  {
    Stands(o + 1, n, actions[c].prepare && actions[o].prep.Prepared?, PrepareSteps(actions, i, key), NoSteps())
  }

  /** A close of the record was started and is not finished. */
  ghost predicate CloseUnfinished(actions: seq<Action>, o: nat, n: nat, i: nat, key: Identity) {
    Stands(o + 1, n, false, CloseStartSteps(actions, i, key), CloseEndSteps(actions, i, key))
  }

  lemma NewRecordMarks(host: Host, m: Manager, i: nat, a: Attempt, opens: bool, prep: Preparation, cleanupOk: bool)
    requires m.acquiring.None? && a.resource.identity !in m.records
    ensures var m', key := OpenNew(host, m, i, a, opens, prep, cleanupOk).1, a.resource.identity;
      key in m'.records ==>
        && (Uncertainly(m', key) <==> m'.records[key].uncertainBefore)
        && (IsPrepared(m', key) <==> a.prepare && prep.Prepared?) && !IsClosing(m', key)
  {
  }

  lemma OpensWith(actions: seq<Action>, c: nat, o: nat, n: nat, i: nat, key: Identity, rid: nat)
    requires Opened(actions, c, o, n, i, key, rid)
    ensures Has(At(actions, o + 1), i, key, rid)
    ensures var m := At(actions, o + 1).managers[i];
      && (Uncertainly(m, key) <==> OpensMarked(actions, c, o, i))
      && (IsPrepared(m, key) <==> actions[c].prepare && actions[o].prep.Prepared?) && !IsClosing(m, key)
  {
    OpensMarkedIff(actions, c, o, i);
    assert Pending(actions, c, o, i);
    AtNext(actions, o);
    var w, a := At(actions, o), actions[o];
    var m := w.managers[i];
    NewRecordMarks(w.host, m.(acquiring := None), i, m.acquiring.value, a.opens, a.prep, a.cleanupOk);
  }

  lemma MarksStepAt(actions: seq<Action>, c: nat, o: nat, j: nat, n: nat, i: nat, key: Identity, rid: nat)
    requires Opened(actions, c, o, n, i, key, rid) && o < j < n
    ensures Has(At(actions, j), i, key, rid) && Has(At(actions, j + 1), i, key, rid)
    ensures MarksAfter(At(actions, j).managers[i], At(actions, j + 1).managers[i], key,
                       UpsetSteps(actions, i, key)(j), PrepareSteps(actions, i, key)(j), PrepareSteps(actions, i, key)(j),
                       CloseStartSteps(actions, i, key)(j), CloseEndSteps(actions, i, key)(j))
  {
    OpensWith(actions, c, o, n, i, key, rid);
    HadIdsAt(actions, o + 1, i, key, rid);
    HasBetween(actions, o + 1, j, n, i, key, rid);
    HasBetween(actions, o + 1, j + 1, n, i, key, rid);
    HadIdsAt(actions, j, i, key, rid);
    AtNext(actions, j);
    StepMarksHold(At(actions, j), actions[j], i, key);
  }

  ghost function UncertainAt(actions: seq<Action>, i: nat, key: Identity): nat -> bool {
    (j: nat) => i in At(actions, j).managers && Uncertainly(At(actions, j).managers[i], key)
  }

  ghost function PreparedAt(actions: seq<Action>, i: nat, key: Identity): nat -> bool {
    (j: nat) => i in At(actions, j).managers && IsPrepared(At(actions, j).managers[i], key)
  }

  ghost function ClosingAt(actions: seq<Action>, i: nat, key: Identity): nat -> bool {
    (j: nat) => i in At(actions, j).managers && IsClosing(At(actions, j).managers[i], key)
  }

  lemma UncertainIff(actions: seq<Action>, c: nat, o: nat, n: nat, i: nat, key: Identity, rid: nat)
    requires Opened(actions, c, o, n, i, key, rid)
    ensures Uncertainly(At(actions, n).managers[i], key) <==> UncertainSince(actions, c, o, n, i, key)
  {
    OpensWith(actions, c, o, n, i, key, rid);
    forall j: nat | o + 1 <= j < n
      ensures UncertainAt(actions, i, key)(j + 1) ==
              (!PrepareSteps(actions, i, key)(j) && (UncertainAt(actions, i, key)(j) || UpsetSteps(actions, i, key)(j)))
    {
      MarksStepAt(actions, c, o, j, n, i, key, rid);
    }
    FlagIff(o + 1, n, UncertainAt(actions, i, key), UpsetSteps(actions, i, key), PrepareSteps(actions, i, key));
  }

  lemma PreparedIff(actions: seq<Action>, c: nat, o: nat, n: nat, i: nat, key: Identity, rid: nat)
    requires Opened(actions, c, o, n, i, key, rid)
    ensures IsPrepared(At(actions, n).managers[i], key) <==> PreparedSince(actions, c, o, n, i, key)
  {
    OpensWith(actions, c, o, n, i, key, rid);
    forall j: nat | o + 1 <= j < n
      ensures PreparedAt(actions, i, key)(j + 1) == (!NoSteps()(j) && (PreparedAt(actions, i, key)(j) || PrepareSteps(actions, i, key)(j)))
    {
      MarksStepAt(actions, c, o, j, n, i, key, rid);
    }
    FlagIff(o + 1, n, PreparedAt(actions, i, key), PrepareSteps(actions, i, key), NoSteps());
  }

  lemma ClosingIff(actions: seq<Action>, c: nat, o: nat, n: nat, i: nat, key: Identity, rid: nat)
    requires Opened(actions, c, o, n, i, key, rid)
    ensures IsClosing(At(actions, n).managers[i], key) <==> CloseUnfinished(actions, o, n, i, key)
  {
    OpensWith(actions, c, o, n, i, key, rid);
    forall j: nat | o + 1 <= j < n
      ensures ClosingAt(actions, i, key)(j + 1) ==
              (!CloseEndSteps(actions, i, key)(j) && (ClosingAt(actions, i, key)(j) || CloseStartSteps(actions, i, key)(j)))
    {
      MarksStepAt(actions, c, o, j, n, i, key, rid);
    }
    FlagIff(o + 1, n, ClosingAt(actions, i, key), CloseStartSteps(actions, i, key), CloseEndSteps(actions, i, key));
  }

  /** The state of a record at any point of any run is decided by how it was opened and what happened since. */
  lemma RecordStateIff(actions: seq<Action>, c: nat, o: nat, n: nat, i: nat, key: Identity, rid: nat)
    requires Opened(actions, c, o, n, i, key, rid)
    ensures var m := At(actions, n).managers[i];
      && (Uncertainly(m, key) <==> UncertainSince(actions, c, o, n, i, key))
      && (IsPrepared(m, key) <==> PreparedSince(actions, c, o, n, i, key))
      && (IsClosing(m, key) <==> CloseUnfinished(actions, o, n, i, key))
  {
    UncertainIff(actions, c, o, n, i, key, rid);
    PreparedIff(actions, c, o, n, i, key, rid);
    ClosingIff(actions, c, o, n, i, key, rid);
  }

  // ----- the manager

  predicate IsShut(w: World, i: nat) {
    i in w.managers && w.managers[i].closed
  }

  ghost function StopSteps(actions: seq<Action>, i: nat): nat -> bool {
    (j: nat) => j < |actions| && actions[j] == Stop(i) && i in At(actions, j).managers && At(actions, j).managers[i].acquiring.None?
  }

  ghost function CrashSteps(actions: seq<Action>, i: nat): nat -> bool {
    (j: nat) => j < |actions| && actions[j] == Crash(i)
  }

  /** The manager was shut down, and its process has not died since. */
  ghost predicate ShutSince(actions: seq<Action>, n: nat, i: nat) {
    Stands(0, n, false, StopSteps(actions, i), CrashSteps(actions, i))
  }

  lemma OwnShutStep(w: World, a: Action, i: nat)
    requires i in w.managers && !a.Start? && !a.LedgerReadable? && !a.Crash? && a.manager == i
    ensures IsShut(Next(w, a), i) <==> IsShut(w, i) || (a.Stop? && w.managers[i].acquiring.None?)
  {
    var m := w.managers[i];
    if a.FinishAcquire? {
      FinishKeepsClosed(w.host, m, i, a.opens, a.prep, a.cleanupOk);
    }
  }

  lemma FinishKeepsClosed(host: Host, m: Manager, i: nat, opens: bool, prep: Preparation, cleanupOk: bool)
    ensures Finish(host, m, i, opens, prep, cleanupOk).1.closed == m.closed
  {
  }

  lemma ShutStep(w: World, a: Action, i: nat)
    requires i in w.managers ==> i < w.nextManager
    ensures IsShut(Next(w, a), i) <==>
            a != Crash(i) && (IsShut(w, i) || (a == Stop(i) && i in w.managers && w.managers[i].acquiring.None?))
  {
    if !a.Start? && !a.LedgerReadable? && !a.Crash? && a.manager == i && i in w.managers {
      OwnShutStep(w, a, i);
    }
  }

  lemma ShutIff(actions: seq<Action>, n: nat, i: nat)
    requires n <= |actions|
    ensures IsShut(At(actions, n), i) <==> ShutSince(actions, n, i)
  {
    var on := (j: nat) => IsShut(At(actions, j), i);
    AtStart(actions);
    forall j: nat | j < n
      ensures on(j + 1) == (!CrashSteps(actions, i)(j) && (on(j) || StopSteps(actions, i)(j)))
    {
      AtNext(actions, j);
      AtInv(actions, j);
      ShutStep(At(actions, j), actions[j], i);
    }
    FlagIff(0, n, on, StopSteps(actions, i), CrashSteps(actions, i));
  }

  // ----- the answers

  /** A fault of the resource is on the ledger under the manager's own label. */
  predicate SeesFault(ledger: Ledger, node: string, res: Resource) {
    exists f | f in ledger.faults :: Identity(node, f.kind, f.value) in Ids(res)
  }

  ghost predicate Leased(w: World, i: nat, key: Identity) {
    exists t: nat :: Holds(w, i, key, t)
  }

  lemma NoReferencesIff(w: World, i: nat, key: Identity, rid: nat)
    requires Inv(w) && Has(w, i, key, rid)
    ensures w.managers[i].records[key].references == 0 <==> !Leased(w, i, key)
  {
    HadIds(w, i, key, rid);
    var leases := w.managers[i].records[key].leases;
    if leases != {} {
      var t :| t in leases;
      assert Holds(w, i, key, t);
      assert |leases| > 0;
    }
  }

  /** The acquire asks for the same resource as the one that opened the record. */
  predicate SameDeclarations(res: Resource, first: Resource) {
    res.external == first.external && res.components == first.components
  }

  /** The record still has to be prepared for this acquire. */
  ghost predicate NeedsPreparer(actions: seq<Action>, c: nat, o: nat, n: nat, i: nat, res: Resource, valuePrepared: bool)
    requires OpensAt(actions, c, o, i)
  {
    !PreparedSince(actions, c, o, n, i, res.identity) || (res.external && !valuePrepared)
  }

  /** In every run, an acquire of a record that is there is answered as follows: shut down, exactly after a shutdown;
      closing, exactly while a close is unfinished; as a conflict, exactly for other declarations; as still held,
      exactly if no lease is live and the record is uncertain since it was opened or last prepared; and otherwise
      it is granted unless it needs the preparer, which a ledger that is unreadable or has a fault of the
      resource refuses. */
  lemma AcquireAnswers(actions: seq<Action>, c: nat, o: nat, n: nat, i: nat, res: Resource, prepare: bool, v: bool, rid: nat)
    requires Opened(actions, c, o, n, i, res.identity, rid)
    ensures var w := At(actions, n); var m := w.managers[i];
      BeginReply(m, w.host.ledger, res, prepare, v) ==
      if ShutSince(actions, n, i) then ManagerClosed
      else if CloseUnfinished(actions, o, n, i, res.identity) then Closing
      else if !SameDeclarations(res, actions[c].resource) then Conflict
      else if !Leased(w, i, res.identity) && UncertainSince(actions, c, o, n, i, res.identity) then StillHeld
      else if prepare && NeedsPreparer(actions, c, o, n, i, res, v) then
        if !w.host.ledger.readable then Unreadable
        else if SeesFault(w.host.ledger, m.node, res) then Faulted
        else Continues
      else Granted(m.nextToken)
  {
    var w := At(actions, n);
    ShutIff(actions, n, i);
    RecordStateIff(actions, c, o, n, i, res.identity, rid);
    AtInv(actions, n);
    NoReferencesIff(w, i, res.identity, rid);
    DeclaredAsOpened(actions, c, o, n, i, res.identity, rid);
    SeesFaultIff(w.host.ledger, w.managers[i].node, res);
  }

  lemma SeesFaultIff(ledger: Ledger, node: string, res: Resource)
    ensures AnyFault(Relabel(ledger.faults, node), res) <==> SeesFault(ledger, node, res)
  {
    if AnyFault(Relabel(ledger.faults, node), res) {
      var id :| id in Ids(res) && id in Relabel(ledger.faults, node);
    }
    if f :| f in ledger.faults && Identity(node, f.kind, f.value) in Ids(res) {
      assert Identity(node, f.kind, f.value) in Relabel(ledger.faults, node);
    }
  }

  lemma DeclaredAsOpened(actions: seq<Action>, c: nat, o: nat, n: nat, i: nat, key: Identity, rid: nat)
    requires Opened(actions, c, o, n, i, key, rid)
    ensures At(actions, n).managers[i].records[key].resource == actions[c].resource
  {
    OpensMarkedIff(actions, c, o, i);
    HadIdsAt(actions, o + 1, i, key, rid);
    HasBetween(actions, o + 1, o + 1, n, i, key, rid);
  }

  /** So a second consumer of an open device that is in use always gets its own lease, beside those that are live:
      the device was opened with the same declarations, no close is unfinished, the manager is not shut down, and
      no preparer is needed. */
  lemma SecondConsumerGranted(actions: seq<Action>, c: nat, o: nat, n: nat, i: nat, res: Resource, prepare: bool, v: bool, rid: nat, t: nat)
    requires n < |actions| && actions[n] == BeginAcquire(i, res, prepare, v) && Distinct(Ids(res))
    requires Opened(actions, c, o, n, i, res.identity, rid) && At(actions, n).managers[i].acquiring.None?
    requires Holds(At(actions, n), i, res.identity, t) && SameDeclarations(res, actions[c].resource)
    requires !ShutSince(actions, n, i) && !CloseUnfinished(actions, o, n, i, res.identity)
    requires prepare ==> PreparedSince(actions, c, o, n, i, res.identity) && (res.external ==> v)
    ensures Holds(At(actions, n + 1), i, res.identity, At(actions, n).managers[i].nextToken)
    ensures Holds(At(actions, n + 1), i, res.identity, t) && !Holds(At(actions, n), i, res.identity, At(actions, n).managers[i].nextToken)
  {
    AcquireAnswers(actions, c, o, n, i, res, prepare, v, rid);
    AtNext(actions, n);
    AtInv(actions, n);
    var w := At(actions, n);
    assert LocalOk(w.host, i, w.managers[i]) && RecordOk(w.host, i, res.identity, w.managers[i]);
  }

  /** An acquire of a device that the manager does not have open is refused exactly after a shutdown, or, if it
      prepares, by an unreadable ledger or a fault of the resource on it. */
  lemma FirstConsumerAnswers(actions: seq<Action>, n: nat, i: nat, res: Resource, prepare: bool, v: bool)
    requires n <= |actions| && i in At(actions, n).managers && res.identity !in At(actions, n).managers[i].records
    ensures var w := At(actions, n); var m := w.managers[i];
      BeginReply(m, w.host.ledger, res, prepare, v) ==
      if ShutSince(actions, n, i) then ManagerClosed
      else if prepare && !w.host.ledger.readable then Unreadable
      else if prepare && SeesFault(w.host.ledger, m.node, res) then Faulted
      else Continues
  {
    var w := At(actions, n);
    ShutIff(actions, n, i);
    SeesFaultIff(w.host.ledger, w.managers[i].node, res);
  }
}
