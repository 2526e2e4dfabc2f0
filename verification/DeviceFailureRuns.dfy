/** Particular runs in which the fault of a failed close is taken off the ledger by another manager's ordinary close
    of another record, without a verification: one for each way that `DeviceFailures` leaves open. */
module DeviceFailureRuns {
  import opened Wrappers
  import opened DeviceModel
  import opened DeviceRuns
  import opened DeviceProofs
  import opened DeviceTheorems
  import opened DeviceLedger

  // ----- stages of an acquire and a close

  /** Only manager `i` changed. */
  predicate OnlyAt(w: World, w': World, i: nat) {
    i in w.managers && i in w'.managers && w'.managers == w.managers[i := w'.managers[i]] && w'.nextManager == w.nextManager
  }

  predicate Idle(m: Manager) {
    m.acquiring.None? && !m.closed
  }

  /** The acquire of a new record is under way and knows of no fault. */
  predicate Checked(m: Manager, res: Resource) {
    && !m.closed && m.acquiring.Some? && m.acquiring.value.resource == res && !m.acquiring.value.prepare
    && res.identity !in m.records && !m.storeError && !AnyFault(m.unresolved, res)
  }

  /** The record is open and unmarked, and in use under one lease. */
  predicate InUse(m: Manager, res: Resource, rid: nat, token: nat) {
    && Idle(m) && rid !in m.due && res.identity in m.records
    && var r := m.records[res.identity];
       && r.rid == rid && r.resource == res && r.references == 1 && r.leases == {token} && !r.closing && r.run.None? && !r.uncertainBefore
  }

  /** The closer of the unmarked record is running. */
  predicate Closing(m: Manager, res: Resource) {
    && !m.closed && Runs(m, res.identity)
    && m.records[res.identity].resource == res && !m.records[res.identity].uncertainBefore
  }

  predicate Plain(res: Resource) {
    res.components == []
  }

  predicate CanOpen(w: World, res: Resource) {
    res.external || PhysOf(res.identity) !in w.host.locks
  }

  lemma PlainIds(res: Resource)
    requires Plain(res)
    ensures Ids(res) == [res.identity] && PhysSet(Ids(res)) == {PhysOf(res.identity)} && Distinct(Ids(res)) && Distinct(PhysSeq(Ids(res)))
  {
  }

  lemma Checks(w: World, i: nat, res: Resource)
    requires Plain(res) && i in w.managers && Idle(w.managers[i]) && res.identity !in w.managers[i].records
    requires w.host.ledger.readable && !AnyFault(Relabel(w.host.ledger.faults, w.managers[i].node), res)
    ensures var w' := Next(w, BeginAcquire(i, res, false, false));
      && OnlyAt(w, w', i) && w'.host == w.host && Checked(w'.managers[i], res)
      && w'.managers[i].records == w.managers[i].records && w'.managers[i].due == w.managers[i].due
      && w'.managers[i].nextToken == w.managers[i].nextToken
  {
    PlainIds(res);
  }

  lemma Opens(w: World, i: nat, res: Resource)
    requires Plain(res) && i in w.managers && Checked(w.managers[i], res) && CanOpen(w, res) && w.host.nextRid !in w.managers[i].due
    ensures var w' := Next(w, FinishAcquire(i, true, Prepared, true));
      && OnlyAt(w, w', i) && w'.host.ledger == w.host.ledger && w'.host.nextRid == w.host.nextRid + 1
      && InUse(w'.managers[i], res, w.host.nextRid, w.managers[i].nextToken)
      && w'.managers[i].records == w.managers[i].records[res.identity := w'.managers[i].records[res.identity]]
      && w'.managers[i].due == w.managers[i].due && w'.managers[i].node == w.managers[i].node
      && (res.external ==> w'.host.locks == w.host.locks)
      && (!res.external ==> w'.host.locks == w.host.locks[PhysOf(res.identity) := Holder(i, res.identity)])
  {
    PlainIds(res);
  }

  lemma BeginsClose(w: World, i: nat, res: Resource, rid: nat, token: nat)
    requires i in w.managers && InUse(w.managers[i], res, rid, token)
    ensures var w' := Next(Next(w, DropLease(i, res.identity, token)), CloseBegins(i, res.identity, rid));
      && OnlyAt(w, w', i) && w'.host == w.host && Closing(w'.managers[i], res) && Idle(w'.managers[i])
      && w'.managers[i].records.Keys == w.managers[i].records.Keys && w'.managers[i].due == w.managers[i].due
  {
    var w1 := Next(w, DropLease(i, res.identity, token));
    assert Starts(w1.managers[i], res.identity, rid);
  }

  lemma Fails(w: World, i: nat, res: Resource)
    requires Plain(res) && i in w.managers && Closing(w.managers[i], res) && w.host.ledger.readable
    ensures var w' := Next(w, CloserReturns(i, res.identity, false));
      && OnlyAt(w, w', i) && w'.host.locks == w.host.locks && w'.host.nextRid == w.host.nextRid
      && w'.host.ledger == Mark(w.host.ledger, res.identity) && FaultOn(w'.host.ledger, PhysOf(res.identity))
  {
    PlainIds(res);
    MarkFaults(w.host.ledger, res.identity, PhysOf(res.identity));
    assert MarkAll(w.host.ledger, [res.identity]) == Mark(w.host.ledger, res.identity);
  }

  lemma TakesIt(w: World, i: nat, res: Resource)
    requires Plain(res) && i in w.managers && Closing(w.managers[i], res) && FaultOn(w.host.ledger, PhysOf(res.identity))
    ensures !FaultOn(Next(w, CloserReturns(i, res.identity, true)).host.ledger, PhysOf(res.identity)) || !w.host.ledger.readable
  {
    PlainIds(res);
    LedgerAfter(w, CloserReturns(i, res.identity, true), PhysOf(res.identity));
  }

  // ----- the runs

  /** In this run manager 0's close of the device failed, nothing was verified and the close was not retried, and
      manager 1's ordinary close takes the fault that stood until then. */
  ghost predicate LostAfter(run: seq<Action>, id: Identity) {
    && CloserReturns(0, id, false) in run && CloserReturns(0, id, true) !in run && (forall a | a in run :: !a.Verify?)
    && FaultOn(Reached(run).host.ledger, PhysOf(id))
    && !FaultOn(Next(Reached(run), CloserReturns(1, id, true)).host.ledger, PhysOf(id))
  }

  /** Run `run` then `a`. */
  lemma Then(run: seq<Action>, a: Action)
    ensures Reached(run + [a]) == Next(Reached(run), a)
  {
    RunAppend(INIT, run, a);
  }

  predicate TwoFresh(w: World, node: string) {
    w == World(Host(map[], Ledger({}, true), map[], 0), map[0 := NewManager("n", Ledger({}, true)), 1 := NewManager(node, Ledger({}, true))], 2, [])
  }

  lemma TwoManagers(node: string)
    ensures TwoFresh(Reached([Start("n"), Start(node)]), node)
  {
    var a0, a1 := Start("n"), Start(node);
    assert [a0] == [] + [a0] && [a0, a1] == [a0] + [a1];
    Then([], a0);
    Then([a0], a1);
  }

  lemma Acquired(run: seq<Action>, i: nat, res: Resource) returns (run': seq<Action>, w': World)
    requires Plain(res) && i in Reached(run).managers && Idle(Reached(run).managers[i]) && res.identity !in Reached(run).managers[i].records
    requires Reached(run).host.ledger.readable && !AnyFault(Relabel(Reached(run).host.ledger.faults, Reached(run).managers[i].node), res)
    requires CanOpen(Reached(run), res) && Reached(run).host.nextRid !in Reached(run).managers[i].due
    ensures run' == run + [BeginAcquire(i, res, false, false)] + [FinishAcquire(i, true, Prepared, true)] && w' == Reached(run')
    ensures var w := Reached(run);
      && OnlyAt(w, w', i) && w'.host.ledger == w.host.ledger && w'.host.nextRid == w.host.nextRid + 1
      && InUse(w'.managers[i], res, w.host.nextRid, w.managers[i].nextToken)
      && w'.managers[i].records.Keys == w.managers[i].records.Keys + {res.identity} && w'.managers[i].due == w.managers[i].due
      && (res.external ==> w'.host.locks == w.host.locks)
      && (!res.external ==> w'.host.locks == w.host.locks[PhysOf(res.identity) := Holder(i, res.identity)])
  {
    var a, b := BeginAcquire(i, res, false, false), FinishAcquire(i, true, Prepared, true);
    run' := run + [a] + [b];
    Then(run, a);
    Then(run + [a], b);
    Checks(Reached(run), i, res);
    Opens(Reached(run + [a]), i, res);
    w' := Reached(run');
  }

  lemma Released(run: seq<Action>, i: nat, res: Resource, rid: nat, token: nat) returns (run': seq<Action>, w': World)
    requires i in Reached(run).managers && InUse(Reached(run).managers[i], res, rid, token)
    ensures run' == run + [DropLease(i, res.identity, token)] + [CloseBegins(i, res.identity, rid)] && w' == Reached(run')
    ensures var w := Reached(run);
      && OnlyAt(w, w', i) && w'.host == w.host && Closing(w'.managers[i], res) && Idle(w'.managers[i])
      && w'.managers[i].records.Keys == w.managers[i].records.Keys && w'.managers[i].due == w.managers[i].due
  {
    var a, b := DropLease(i, res.identity, token), CloseBegins(i, res.identity, rid);
    run' := run + [a] + [b];
    Then(run, a);
    Then(run + [a], b);
    BeginsClose(Reached(run), i, res, rid, token);
    w' := Reached(run');
  }

  lemma FailsAt(run: seq<Action>, res: Resource) returns (run': seq<Action>, w': World)
    requires Plain(res) && 0 in Reached(run).managers && Closing(Reached(run).managers[0], res) && Reached(run).host.ledger.readable
    ensures run' == run + [CloserReturns(0, res.identity, false)] && w' == Reached(run')
    ensures var w := Reached(run);
      && OnlyAt(w, w', 0) && w'.host.locks == w.host.locks && w'.host.nextRid == w.host.nextRid
      && w'.host.ledger == Mark(w.host.ledger, res.identity) && FaultOn(w'.host.ledger, PhysOf(res.identity))
      && res.identity in w'.managers[0].records && w'.managers[0].records[res.identity].run == Some(false)
  {
    run' := run + [CloserReturns(0, res.identity, false)];
    Then(run, CloserReturns(0, res.identity, false));
    Fails(Reached(run), 0, res);
    w' := Reached(run');
  }

  lemma CrashesAt(run: seq<Action>) returns (run': seq<Action>, w': World)
    requires 0 in Reached(run).managers
    ensures run' == run + [Crash(0)] && w' == Reached(run')
    ensures var w := Reached(run);
      && w'.managers == w.managers - {0} && w'.host.ledger == w.host.ledger && w'.host.nextRid == w.host.nextRid
      && (forall p | p in w'.host.locks :: p in w.host.locks && w.host.locks[p].manager != 0)
  {
    run' := run + [Crash(0)];
    Then(run, Crash(0));
    w' := Reached(run');
  }

  lemma Lost(run: seq<Action>, res: Resource)
    requires Plain(res) && 1 in Reached(run).managers && Closing(Reached(run).managers[1], res) && Reached(run).host.ledger.readable
    requires FaultOn(Reached(run).host.ledger, PhysOf(res.identity)) && CloserReturns(0, res.identity, false) in run
    requires CloserReturns(0, res.identity, true) !in run && forall a | a in run :: !a.Verify?
    ensures LostAfter(run, res.identity)
  {
    TakesIt(Reached(run), 1, res);
  }

  /** Manager 0 has the device in use, and manager 1 has nothing. */
  predicate OneInUse(w: World, res: Resource, node: string) {
    && 0 in w.managers && InUse(w.managers[0], res, 0, 1) && w.host.nextRid == 1 && w.host.ledger == Ledger({}, true)
    && 1 in w.managers && w.managers[1] == NewManager(node, Ledger({}, true))
    && (res.external ==> w.host.locks == map[]) && (!res.external ==> w.host.locks == map[PhysOf(res.identity) := Holder(0, res.identity)])
  }

  lemma UseOne(res: Resource, node: string) returns (run: seq<Action>)
    requires Plain(res)
    ensures OneInUse(Reached(run), res, node) && forall a | a in run :: !a.Verify? && !a.CloserReturns?
  {
    TwoManagers(node);
    var w;
    run, w := Acquired([Start("n"), Start(node)], 0, res);
  }

  /** Both managers have the device in use. */
  predicate BothInUse(w: World, res: Resource, other: Resource) {
    && 0 in w.managers && InUse(w.managers[0], res, 0, 1) && 1 in w.managers && InUse(w.managers[1], other, 1, 1)
    && w.host.ledger.readable
  }

  lemma UseBoth(res: Resource, other: Resource) returns (run: seq<Action>)
    requires Plain(res) && Plain(other) && res.identity == other.identity && (res.external || other.external)
    ensures BothInUse(Reached(run), res, other) && forall a | a in run :: !a.Verify? && !a.CloserReturns?
  {
    var w;
    var r1 := UseOne(res, "n");
    run, w := Acquired(r1, 1, other);
  }

  /** One of the two records is external, so both hold the device at once: manager 0's close fails, and manager
      1's takes the fault while manager 0's record is still failed. */
  lemma ExternalCloseTakesFault(res: Resource, other: Resource)
    requires Plain(res) && Plain(other) && res.identity == other.identity && (res.external || other.external)
    ensures exists run :: LostAfter(run, res.identity)
              && 0 in Reached(run).managers && res.identity in Reached(run).managers[0].records
              && Reached(run).managers[0].records[res.identity].run == Some(false)
  {
    var r1 := UseBoth(res, other);
    var r2, w2 := Released(r1, 0, res, 0, 1);
    var r3, w3 := FailsAt(r2, res);
    var r4, w4 := Released(r3, 1, other, 1, 1);
    Lost(r4, other);
  }

  /** Manager 0's closer is running, and manager 1 has checked its acquire of the same device. */
  predicate BothAtWork(w: World, res: Resource) {
    && 0 in w.managers && Closing(w.managers[0], res) && w.host.ledger == Ledger({}, true) && w.host.nextRid == 1
    && 1 in w.managers && Checked(w.managers[1], res) && w.managers[1].due == multiset{} && w.managers[1].nextToken == 1
    && (forall p | p in w.host.locks :: w.host.locks[p].manager == 0)
  }

  lemma CheckWhileClosing(res: Resource) returns (run: seq<Action>)
    requires Plain(res)
    ensures BothAtWork(Reached(run), res) && forall a | a in run :: !a.Verify? && !a.CloserReturns?
  {
    var r1 := UseOne(res, "n");
    var r2, w2 := Released(r1, 0, res, 0, 1);
    var check := BeginAcquire(1, res, false, false);
    Then(r2, check);
    Checks(w2, 1, res);
    run := r2 + [check];
  }

  /** Manager 0 has crashed after its close failed, and manager 1 still goes by its check. */
  predicate FailedUnseen(w: World, res: Resource) {
    && 1 in w.managers && Checked(w.managers[1], res) && w.managers[1].due == multiset{} && CanOpen(w, res)
    && w.host.ledger.readable && FaultOn(w.host.ledger, PhysOf(res.identity))
  }

  lemma FailUnseen(res: Resource) returns (run: seq<Action>)
    requires Plain(res)
    ensures FailedUnseen(Reached(run), res) && CloserReturns(0, res.identity, false) in run
    ensures forall a | a in run :: !a.Verify? && (a.CloserReturns? ==> a == CloserReturns(0, res.identity, false))
  {
    var w;
    var r1 := CheckWhileClosing(res);
    var r2, w2 := FailsAt(r1, res);
    run, w := CrashesAt(r2);
  }

  /** Manager 1 checks its acquire before manager 0's close of the device fails, and opens it after manager 0 has
      crashed: its own close takes the fault, which it never saw. */
  lemma AcquireAcrossFailureTakesFault(res: Resource)
    requires Plain(res)
    ensures exists run :: LostAfter(run, res.identity)
  {
    var r1 := FailUnseen(res);
    var open := FinishAcquire(1, true, Prepared, true);
    Then(r1, open);
    Opens(Reached(r1), 1, res);
    var r2, w2 := Released(r1 + [open], 1, res, Reached(r1).host.nextRid, Reached(r1).managers[1].nextToken);
    Lost(r2, res);
  }

  /** Manager 0 has crashed after its close failed, and manager 1 has nothing yet. */
  predicate FailedAlone(w: World, res: Resource, node: string) {
    && 1 in w.managers && w.managers[1] == NewManager(node, Ledger({}, true))
    && w.host.ledger.readable && w.host.ledger.faults == {res.identity} && w.host.nextRid == 1
    && PhysOf(res.identity) !in w.host.locks
  }

  lemma FailAlone(res: Resource, node: string) returns (run: seq<Action>)
    requires Plain(res)
    ensures FailedAlone(Reached(run), res, node) && CloserReturns(0, res.identity, false) in run
    ensures forall a | a in run :: !a.Verify? && (a.CloserReturns? ==> a == CloserReturns(0, res.identity, false))
  {
    var w;
    var r1 := UseOne(res, node);
    var r2, w2 := Released(r1, 0, res, 0, 1);
    var r3, w3 := FailsAt(r2, res);
    run, w := CrashesAt(r3);
  }

  /** Manager 1's node label is not the one in the device's identity, so its check looks for another name. */
  lemma OtherLabelTakesFault(res: Resource, node: string)
    requires Plain(res) && res.identity.node != node
    ensures exists run :: LostAfter(run, res.identity)
  {
    var r1 := FailAlone(res, node);
    var r2, w2 := Acquired(r1, 1, res);
    FaultHere(w2.host.ledger, res.identity);
    var r3, w3 := Released(r2, 1, res, 1, 1);
    Lost(r3, res);
  }

  lemma FaultHere(ledger: Ledger, id: Identity)
    requires id in ledger.faults
    ensures FaultOn(ledger, PhysOf(id))
  {
  }

  // ----- a ledger that cannot be read for a while

  /** The acquire was checked while the ledger could not be read. */
  predicate CheckedBlindly(m: Manager, res: Resource) {
    && !m.closed && m.acquiring.Some? && m.acquiring.value.resource == res && !m.acquiring.value.prepare
    && res.identity !in m.records && m.storeError && m.unresolved == {}
  }

  lemma ChecksBlindly(w: World, i: nat, res: Resource)
    requires Plain(res) && i in w.managers && Idle(w.managers[i]) && res.identity !in w.managers[i].records && !w.host.ledger.readable
    ensures var w' := Next(w, BeginAcquire(i, res, false, false));
      && OnlyAt(w, w', i) && w'.host == w.host && CheckedBlindly(w'.managers[i], res)
      && w'.managers[i].records == w.managers[i].records && w'.managers[i].due == w.managers[i].due
  {
    PlainIds(res);
  }

  /** A closer of the manager's other record that can use the ledger again makes it forget that it could not. */
  lemma ForgetsBlindness(w: World, i: nat, res: Resource, other: Resource)
    requires Plain(other) && i in w.managers && CheckedBlindly(w.managers[i], res) && Closing(w.managers[i], other)
    requires w.host.ledger.readable && FaultOn(w.host.ledger, PhysOf(res.identity)) && PhysOf(res.identity) != PhysOf(other.identity)
    ensures var w' := Next(w, CloserReturns(i, other.identity, true));
      && OnlyAt(w, w', i) && Checked(w'.managers[i], res) && w'.managers[i].due == w.managers[i].due
      && w'.host.ledger.readable && FaultOn(w'.host.ledger, PhysOf(res.identity)) && w'.host.nextRid == w.host.nextRid
      && (forall p | p in w'.host.locks :: p in w.host.locks && w'.host.locks[p] == w.host.locks[p])
  {
    PlainIds(other);
    ClearAllFaults(w.host.ledger, Ids(other), PhysOf(res.identity));
    ReadableMark(w.host.ledger, Ids(other));
  }

  /** Manager 0 has crashed after its close of `res` failed; manager 1 is closing `other`. */
  predicate OtherClosing(w: World, res: Resource, other: Resource) {
    && 1 in w.managers && Closing(w.managers[1], other) && Idle(w.managers[1]) && w.managers[1].records.Keys == {other.identity}
    && w.managers[1].due == multiset{} && PhysOf(res.identity) !in w.host.locks
    && w.host.ledger.readable && FaultOn(w.host.ledger, PhysOf(res.identity))
  }

  /** Manager 0 has `res` in use, and manager 1 is closing `other`. */
  predicate UseAndClose(w: World, res: Resource, other: Resource) {
    && 0 in w.managers && InUse(w.managers[0], res, 0, 1) && w.host.ledger.readable
    && 1 in w.managers && Closing(w.managers[1], other) && Idle(w.managers[1]) && w.managers[1].records.Keys == {other.identity}
    && w.managers[1].due == multiset{}
    && (PhysOf(res.identity) in w.host.locks ==> w.host.locks[PhysOf(res.identity)].manager == 0)
  }

  lemma UseWhileOtherCloses(res: Resource, other: Resource) returns (run: seq<Action>)
    requires Plain(res) && Plain(other) && PhysOf(res.identity) != PhysOf(other.identity)
    ensures UseAndClose(Reached(run), res, other) && forall a | a in run :: !a.Verify? && !a.CloserReturns?
  {
    var w;
    var r1 := UseOne(res, "n");
    var r2, w2 := Acquired(r1, 1, other);
    run, w := Released(r2, 1, other, 1, 1);
  }

  lemma FailWhileOtherCloses(res: Resource, other: Resource) returns (run: seq<Action>)
    requires Plain(res) && Plain(other) && PhysOf(res.identity) != PhysOf(other.identity)
    ensures OtherClosing(Reached(run), res, other) && CloserReturns(0, res.identity, false) in run
    ensures forall a | a in run :: !a.Verify? && (a.CloserReturns? ==> a == CloserReturns(0, res.identity, false))
  {
    var w;
    var r1 := UseWhileOtherCloses(res, other);
    var r2, w2 := Released(r1, 0, res, 0, 1);
    var r3, w3 := FailsAt(r2, res);
    run, w := CrashesAt(r3);
  }

  lemma OpenThroughOutage(run: seq<Action>, res: Resource, other: Resource) returns (run': seq<Action>, rid: nat, token: nat)
    requires Plain(res) && Plain(other) && PhysOf(res.identity) != PhysOf(other.identity) && OtherClosing(Reached(run), res, other)
    ensures 1 in Reached(run').managers && InUse(Reached(run').managers[1], res, rid, token)
    ensures Reached(run').host.ledger.readable && FaultOn(Reached(run').host.ledger, PhysOf(res.identity))
    ensures run' == run + [LedgerReadable(false)] + [BeginAcquire(1, res, false, false)] + [LedgerReadable(true)]
                        + [CloserReturns(1, other.identity, true)] + [FinishAcquire(1, true, Prepared, true)]
  {
    var a, b, c, d, e := LedgerReadable(false), BeginAcquire(1, res, false, false), LedgerReadable(true),
                         CloserReturns(1, other.identity, true), FinishAcquire(1, true, Prepared, true);
    Then(run, a);
    Then(run + [a], b);
    ChecksBlindly(Reached(run + [a]), 1, res);
    Then(run + [a] + [b], c);
    StillFaulted(Reached(run).host.ledger, PhysOf(res.identity));
    Then(run + [a] + [b] + [c], d);
    ForgetsBlindness(Reached(run + [a] + [b] + [c]), 1, res, other);
    Then(run + [a] + [b] + [c] + [d], e);
    var w := Reached(run + [a] + [b] + [c] + [d]);
    Opens(w, 1, res);
    run', rid, token := run + [a] + [b] + [c] + [d] + [e], w.host.nextRid, w.managers[1].nextToken;
  }

  lemma StillFaulted(ledger: Ledger, p: Phys)
    requires FaultOn(ledger, p)
    ensures FaultOn(ledger.(readable := false).(readable := true), p)
  {
    var f :| f in ledger.faults && PhysOf(f) == p;
    assert f in ledger.(readable := false).(readable := true).faults;
  }

  /** The ledger cannot be read when manager 1 checks its acquire, and can be again before it opens the device: its
      own close of another device in between makes it forget the outage, and the record is opened unmarked. */
  lemma OutageTakesFault(res: Resource, other: Resource)
    requires Plain(res) && Plain(other) && PhysOf(res.identity) != PhysOf(other.identity)
    ensures exists run :: LostAfter(run, res.identity)
  {
    var r1 := FailWhileOtherCloses(res, other);
    var r2, rid, token := OpenThroughOutage(r1, res, other);
    var r3, w3 := Released(r2, 1, res, rid, token);
    Lost(r3, res);
  }
}
