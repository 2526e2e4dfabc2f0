/** Every step of a run keeps the invariant. A critical section touches one manager and the host, so
    each is proved on those two and framed once, in `Assemble`. */
module DeviceProofs {
  import opened Wrappers
  import opened DeviceModel
  import opened DeviceRuns

  // ----- frame

  /** What one manager's step may do to the host and to its own record ids. */
  predicate LocalStep(host: Host, m: Manager, host': Host, m': Manager, i: nat) {
    && host.nextRid <= host'.nextRid && m'.node == m.node
    && (forall p | p in host.locks && host.locks[p].manager != i :: p in host'.locks && host'.locks[p] == host.locks[p])
    && (forall p | p in host'.locks && host'.locks[p].manager != i :: p in host.locks && host.locks[p] == host'.locks[p])
    && (forall r | r in host.handles && host.handles[r].manager != i :: r in host'.handles && host'.handles[r] == host.handles[r])
    && (forall r | r in host'.handles && host'.handles[r].manager != i :: r in host.handles && host.handles[r] == host'.handles[r])
    && (forall r | r in host'.handles && host'.handles[r].manager == i :: r < host'.nextRid && (r in host.handles || r >= host.nextRid))
    && (forall k | k in m'.records ::
          || (k in m.records && m'.records[k].rid == m.records[k].rid)
          || m'.records[k].rid >= host.nextRid)
  }

  lemma OtherManager(host: Host, m: Manager, host': Host, m': Manager, i: nat, j: nat, other: Manager)
    requires LocalStep(host, m, host', m', i) && j != i && LocalOk(host, j, other)
    requires forall r | r in host.handles :: r < host.nextRid
    ensures LocalOk(host', j, other)
  {
    forall key | key in other.records
      ensures RecordOk(host', j, key, other)
    {
      assert RecordOk(host, j, key, other);
    }
  }

  lemma AssembleRids(w: World, w': World, i: nat)
    requires RidsDistinct(w) && i in w.managers && i in w'.managers
    requires w'.managers == w.managers[i := w'.managers[i]]
    requires LocalStep(w.host, w.managers[i], w'.host, w'.managers[i], i)
    requires forall j, k | j in w.managers && k in w.managers[j].records :: w.managers[j].records[k].rid < w.host.nextRid
    requires forall k, l | k in w'.managers[i].records && l in w'.managers[i].records && k != l ::
               w'.managers[i].records[k].rid != w'.managers[i].records[l].rid
    ensures RidsDistinct(w')
  {
  }

  lemma Assemble(w: World, w': World, i: nat)
    requires Inv(w) && i in w.managers && i in w'.managers
    requires w'.managers == w.managers[i := w'.managers[i]] && w'.nextManager == w.nextManager
    requires LocalStep(w.host, w.managers[i], w'.host, w'.managers[i], i)
    requires LocalOk(w'.host, i, w'.managers[i])
    requires ClosersFit(w')
    requires forall c | c in w'.calls && c.PreparerIn? :: SeenClean(c.node, c.resource, c.seen)
    ensures Inv(w')
  {
    forall j | j in w'.managers
      ensures j < w'.nextManager && LocalOk(w'.host, j, w'.managers[j])
    {
      if j != i {
        assert LocalOk(w.host, j, w.managers[j]);
        OtherManager(w.host, w.managers[i], w'.host, w'.managers[i], i, j, w.managers[j]);
      }
    }
    forall j, k | j in w.managers && k in w.managers[j].records
      ensures w.managers[j].records[k].rid < w.host.nextRid
    {
      assert RecordOk(w.host, j, k, w.managers[j]);
    }
    AssembleRids(w, w', i);
  }

  // ----- closer history

  lemma BusyGrows(calls: seq<Call>, c: Call, rid: nat)
    ensures Busy(calls + [c], rid) == if About(c, rid) then c.CloserIn? else Busy(calls, rid)
  {
    assert (calls + [c])[..|calls|] == calls;
  }

  lemma AlternateGrows(calls: seq<Call>, c: Call)
    requires ClosersAlternate(calls)
    requires c.CloserIn? ==> !Busy(calls, c.rid)
    requires c.CloserOut? ==> Busy(calls, c.rid)
    ensures ClosersAlternate(calls + [c])
  {
    var calls' := calls + [c];
    forall p | 0 <= p < |calls'|
      ensures (calls'[p].CloserIn? ==> !Busy(calls'[..p], calls'[p].rid)) && (calls'[p].CloserOut? ==> Busy(calls'[..p], calls'[p].rid))
    {
      if p < |calls| {
        assert calls'[..p] == calls[..p];
      } else {
        assert calls'[..p] == calls;
      }
    }
  }

  lemma {:induction false} FreshNotBusy(calls: seq<Call>, rid: nat)
    requires forall c | c in calls :: !About(c, rid)
    ensures !Busy(calls, rid)
    decreases |calls|
  {
    if calls != [] {
      assert !About(calls[|calls| - 1], rid);
      FreshNotBusy(calls[..|calls| - 1], rid);
    }
  }

  /** Steps that call no closer. */
  predicate SameClosing(host: Host, m: Manager, m': Manager) {
    forall key | key in m'.records ::
      || (key in m.records && m'.records[key].rid == m.records[key].rid && (Runs(m', key) <==> Runs(m, key)))
      || (m'.records[key].rid >= host.nextRid && !Runs(m', key))
  }

  lemma QuietClosers(w: World, w': World, i: nat)
    requires ClosersFit(w) && i in w.managers && i in w'.managers
    requires w'.managers == w.managers[i := w'.managers[i]] && w.host.nextRid <= w'.host.nextRid
    requires w'.calls == w.calls || (|w'.calls| > 0 && w'.calls[|w'.calls| - 1].PreparerIn? && w'.calls == w.calls + [w'.calls[|w'.calls| - 1]])
    requires SameClosing(w.host, w.managers[i], w'.managers[i])
    ensures ClosersFit(w')
  {
    if w'.calls != w.calls {
      AlternateGrows(w.calls, w'.calls[|w.calls|]);
    }
    forall j, key | j in w'.managers && key in w'.managers[j].records
      ensures Busy(w'.calls, w'.managers[j].records[key].rid) <==> Runs(w'.managers[j], key)
    {
      var rid := w'.managers[j].records[key].rid;
      if w'.calls != w.calls {
        BusyGrows(w.calls, w'.calls[|w.calls|], rid);
      }
      if rid >= w.host.nextRid {
        FreshNotBusy(w.calls, rid);
      }
    }
  }

  lemma LoudClosers(w: World, w': World, i: nat, key: Identity, c: Call)
    requires ClosersFit(w) && RidsDistinct(w) && i in w.managers && i in w'.managers
    requires w'.managers == w.managers[i := w'.managers[i]] && w.host.nextRid == w'.host.nextRid
    requires key in w.managers[i].records && key in w'.managers[i].records && w'.calls == w.calls + [c]
    requires About(c, w.managers[i].records[key].rid) && w.managers[i].records[key].rid < w.host.nextRid
    requires c.CloserIn? <==> Runs(w'.managers[i], key)
    requires c.CloserIn? <==> !Runs(w.managers[i], key)
    requires w'.managers[i].records == w.managers[i].records[key := w'.managers[i].records[key]]
    requires w'.managers[i].records[key].rid == w.managers[i].records[key].rid
    ensures ClosersFit(w')
  {
    AlternateGrows(w.calls, c);
    forall j, k | j in w'.managers && k in w'.managers[j].records
      ensures Busy(w'.calls, w'.managers[j].records[k].rid) <==> Runs(w'.managers[j], k)
    {
      BusyGrows(w.calls, c, w'.managers[j].records[k].rid);
    }
  }

  // ----- the critical sections, on one manager and the host

  predicate Ready(host: Host, i: nat, m: Manager) {
    LocalOk(host, i, m) && forall r | r in host.handles :: r < host.nextRid
  }

  predicate Good(host: Host, m: Manager, host': Host, m': Manager, i: nat) {
    LocalOk(host', i, m') && LocalStep(host, m, host', m', i)
  }

  /** A record's bookkeeping moves without touching the device: same identity, same liveness. */
  predicate Moves(m: Manager, m': Manager, key: Identity)
    requires key in m.records && key in m'.records
  {
    var r, r' := m.records[key], m'.records[key];
    && r'.resource == r.resource && r'.rid == r.rid && (Live(r') <==> Live(r))
    && (r'.run.Some? ==> r'.closing)
    && (r.references == |r.leases| ==> r'.references == |r'.leases|)
    && r'.leases <= r.leases + {m.nextToken} && (m.nextToken in r'.leases ==> m.nextToken < m'.nextToken)
  }

  predicate AllMove(m: Manager, m': Manager) {
    && m'.node == m.node && m.nextToken <= m'.nextToken
    && (forall k | k in m'.records :: k in m.records && Moves(m, m', k))
    && (forall k | k in m.records && k !in m'.records :: !Live(m.records[k]))
    && (forall j, k | j in m'.records && k in m'.records && m.nextToken in m'.records[j].leases && m.nextToken in m'.records[k].leases :: j == k)
  }

  predicate SameDevices(host: Host, host': Host) {
    host'.locks == host.locks && host'.handles == host.handles && host'.nextRid == host.nextRid
  }

  lemma MovedRecord(host: Host, host': Host, i: nat, m: Manager, m': Manager, key: Identity)
    requires key in m.records && key in m'.records && Moves(m, m', key)
    requires RecordOk(host, i, key, m) && SameDevices(host, host') && m.nextToken <= m'.nextToken
    ensures RecordOk(host', i, key, m')
  {
  }

  lemma MovedApart(host: Host, i: nat, m: Manager, m': Manager)
    requires ManagerOk(host, i, m) && AllMove(m, m')
    ensures Apart(m')
  {
    forall j, k | j in m'.records && k in m'.records && j != k
      ensures m'.records[j].rid != m'.records[k].rid && m'.records[j].leases !! m'.records[k].leases
    {
      assert RecordOk(host, i, j, m) && RecordOk(host, i, k, m);
      MovedPair(host, i, m, m', j, k);
    }
  }

  lemma MovedPair(host: Host, i: nat, m: Manager, m': Manager, j: Identity, k: Identity)
    requires AllMove(m, m') && j in m'.records && k in m'.records && j in m.records && k in m.records && j != k
    requires RecordOk(host, i, j, m) && RecordOk(host, i, k, m) && m.records[j].rid != m.records[k].rid
    requires m.records[j].leases !! m.records[k].leases
    ensures m'.records[j].rid != m'.records[k].rid && m'.records[j].leases !! m'.records[k].leases
  {
    assert Moves(m, m', j) && Moves(m, m', k);
  }

  lemma KeepDevices(host: Host, host': Host, i: nat, m: Manager, m': Manager)
    requires Ready(host, i, m) && SameDevices(host, host') && AllMove(m, m') && AcquiringOk(m')
    ensures Good(host, m, host', m', i)
  {
    forall key | key in m'.records
      ensures RecordOk(host', i, key, m')
    {
      assert RecordOk(host, i, key, m);
      MovedRecord(host, host', i, m, m', key);
    }
    MovedApart(host, i, m, m');
    assert Owned(host', i, m');
  }

  /** Tokens of live leases were issued earlier. */
  predicate TokensOld(m: Manager) {
    forall key | key in m.records :: (forall t | t in m.records[key].leases :: t < m.nextToken) && m.records[key].references == |m.records[key].leases| && (m.records[key].run.Some? ==> m.records[key].closing)
  }

  lemma ReadyTokens(host: Host, i: nat, m: Manager)
    requires Ready(host, i, m)
    ensures TokensOld(m)
  {
    forall key | key in m.records
      ensures forall t | t in m.records[key].leases :: t < m.nextToken
    {
      assert RecordOk(host, i, key, m);
    }
  }

  lemma SameMoves(m: Manager, m': Manager)
    requires TokensOld(m) && m'.records == m.records && m'.node == m.node && m.nextToken <= m'.nextToken
    ensures AllMove(m, m')
  {
  }

  lemma RecordMoves(m: Manager, m': Manager, key: Identity)
    requires TokensOld(m) && key in m.records && key in m'.records && m'.records == m.records[key := m'.records[key]]
    requires m'.node == m.node && m.nextToken <= m'.nextToken && Moves(m, m', key)
    ensures AllMove(m, m')
  {
    forall k | k in m.records && k != key
      ensures Moves(m, m', k)
    {
    }
  }

  lemma RemovalMoves(m: Manager, m': Manager, key: Identity)
    requires TokensOld(m) && key in m.records && !Live(m.records[key]) && m'.records == m.records - {key}
    requires m'.node == m.node && m.nextToken <= m'.nextToken
    ensures AllMove(m, m')
  {
  }

  lemma GrantMoves(m: Manager, key: Identity)
    requires TokensOld(m) && key in m.records
    ensures AllMove(m, Grant(m, key))
  {
    assert m.nextToken !in m.records[key].leases;
    RecordMoves(m, Grant(m, key), key);
  }

  lemma BeginMoves(m: Manager, ledger: Ledger, res: Resource, prepare: bool, valuePrepared: bool)
    requires TokensOld(m)
    ensures AllMove(m, Begin(m, ledger, res, prepare, valuePrepared))
  {
    var m1 := Refresh(m, ledger);
    SameMoves(m, m);
    SameMoves(m, m1);
    SameMoves(m, m1.(acquiring := Some(Attempt(res, prepare, ledger))));
    if BeginReply(m, ledger, res, prepare, valuePrepared).Granted? {
      GrantMoves(m1, res.identity);
      AfterRefresh(m, m1, Grant(m1, res.identity));
    }
  }

  lemma AfterRefresh(m: Manager, m1: Manager, m': Manager)
    requires m1.records == m.records && m1.node == m.node && m1.nextToken == m.nextToken && AllMove(m1, m')
    ensures AllMove(m, m')
  {
    assert forall k | k in m'.records && k in m.records :: Moves(m1, m', k) ==> Moves(m, m', k);
  }

  lemma BeginAcquiring(m: Manager, ledger: Ledger, res: Resource, prepare: bool, valuePrepared: bool)
    requires AcquiringOk(m) && Distinct(Ids(res))
    requires res.identity in m.records ==> m.records[res.identity].resource.identity == res.identity
    ensures AcquiringOk(Begin(m, ledger, res, prepare, valuePrepared))
  {
  }

  lemma DropMoves(m: Manager, key: Identity, token: nat)
    requires TokensOld(m) && AcquiringOk(m)
    ensures AllMove(m, Drop(m, key, token)) && AcquiringOk(Drop(m, key, token))
  {
    if m.acquiring.Some? || key !in m.records || token !in m.records[key].leases {
      SameMoves(m, m);
    } else {
      RecordMoves(m, Drop(m, key, token), key);
    }
  }

  lemma CloseMoves(m: Manager, key: Identity, rid: nat)
    requires TokensOld(m) && AcquiringOk(m)
    ensures AllMove(m, BeginClose(m, key, rid)) && AcquiringOk(BeginClose(m, key, rid))
  {
    if Starts(m, key, rid) {
      RecordMoves(m, BeginClose(m, key, rid), key);
    } else {
      SameMoves(m, BeginClose(m, key, rid));
    }
  }

  lemma StopMoves(m: Manager)
    requires TokensOld(m) && AcquiringOk(m)
    ensures AllMove(m, Shutdown(m)) && AcquiringOk(Shutdown(m))
  {
    SameMoves(m, Shutdown(m));
  }

  lemma EndMoves(m: Manager, key: Identity)
    requires TokensOld(m) && AcquiringOk(m)
    ensures AllMove(m, EndClose(m, key)) && AcquiringOk(EndClose(m, key))
  {
    if m.acquiring.Some? || key !in m.records || !m.records[key].closing || m.records[key].run.None? {
      SameMoves(m, m);
    } else if m.records[key].run.value {
      RemovalMoves(m, EndClose(m, key), key);
    } else {
      RecordMoves(m, EndClose(m, key), key);
    }
  }

  lemma MarkMoves(host: Host, m: Manager, id: Identity)
    requires TokensOld(m) && AcquiringOk(m)
    ensures var (h', m') := MarkUncertain(host, m, id); AllMove(m, m') && AcquiringOk(m') && SameDevices(host, h')
  {
    var m' := MarkUncertain(host, m, id).1;
    if m.acquiring.None? && host.ledger.readable && id in m.records {
      RecordMoves(m, m', id);
    } else {
      SameMoves(m, m');
    }
  }

  lemma ClearMoves(host: Host, m: Manager, id: Identity)
    requires TokensOld(m) && AcquiringOk(m)
    ensures var (h', m') := ClearUncertainty(host, m, id); AllMove(m, m') && AcquiringOk(m') && SameDevices(host, h')
  {
    SameMoves(m, ClearUncertainty(host, m, id).1);
  }

  lemma PrepareMoves(host: Host, m: Manager, a: Attempt, prep: Preparation)
    requires TokensOld(m) && m.acquiring.None? && a.resource.identity in m.records
    ensures var (h', m') := PrepareExisting(host, m, a, prep); AllMove(m, m') && AcquiringOk(m') && SameDevices(host, h')
  {
    var key, m' := a.resource.identity, PrepareExisting(host, m, a, prep).1;
    if prep.Refused? {
      SameMoves(m, m);
    } else {
      assert m.nextToken !in m.records[key].leases;
      RecordMoves(m, m', key);
    }
  }

  lemma FailedCloseMoves(host: Host, m: Manager, key: Identity)
    requires TokensOld(m) && AcquiringOk(m) && Runs(m, key)
    ensures var (h', m') := RunClose(host, m, key, false); AllMove(m, m') && AcquiringOk(m') && SameDevices(host, h')
  {
  }

  // ----- a closer that succeeds, and a new record

  /** Live records of one manager share no physical key. */
  lemma ManagersRecordsDisjoint(host: Host, i: nat, m: Manager, j: Identity, k: Identity)
    requires j in m.records && k in m.records && j != k && RecordOk(host, i, j, m) && RecordOk(host, i, k, m)
    requires Live(m.records[j]) && Live(m.records[k]) && !m.records[j].resource.external && !m.records[k].resource.external
    ensures PhysSet(Ids(m.records[j].resource)) !! PhysSet(Ids(m.records[k].resource))
  {
  }

  /** How a successful closer leaves the manager. */
  lemma ClosedMoves(host: Host, m: Manager, key: Identity)
    requires TokensOld(m) && AcquiringOk(m) && Runs(m, key)
    ensures var (h', m') := RunClose(host, m, key, true);
      && m'.records == m.records[key := m'.records[key]] && m'.nextToken == m.nextToken && m'.node == m.node
      && h'.nextRid == host.nextRid && AcquiringOk(m')
    ensures var (h', m') := RunClose(host, m, key, true);
      var r, r' := m.records[key], m'.records[key];
      && r'.resource == r.resource && r'.rid == r.rid && r'.leases == r.leases && r'.references == r.references
      && r'.closing && r'.run.Some?
      && h'.handles == host.handles - {r.rid}
      && h'.locks == (if Live(r') || r.resource.external then host.locks else UnlockAll(host.locks, Ids(r.resource)))
  {
  }

  lemma ClosedRecord(host: Host, i: nat, m: Manager, key: Identity, k: Identity)
    requires Runs(m, key) && k in m.records && TokensOld(m) && AcquiringOk(m) && Apart(m)
    requires RecordOk(host, i, key, m) && RecordOk(host, i, k, m)
    ensures var (h', m') := RunClose(host, m, key, true); k in m'.records && RecordOk(h', i, k, m')
  {
    ClosedMoves(host, m, key);
    if k != key && Live(m.records[k]) && !m.records[k].resource.external && !m.records[key].resource.external {
      ManagersRecordsDisjoint(host, i, m, key, k);
    }
  }

  lemma ClosedOwned(host: Host, i: nat, m: Manager, key: Identity)
    requires Runs(m, key) && TokensOld(m) && AcquiringOk(m) && Owned(host, i, m) && Apart(m)
    requires RecordOk(host, i, key, m)
    ensures var (h', m') := RunClose(host, m, key, true); Owned(h', i, m')
  {
    ClosedMoves(host, m, key);
    var (h', m') := RunClose(host, m, key, true);
    forall p | p in h'.locks && h'.locks[p].manager == i
      ensures h'.locks[p].key in m'.records && !m'.records[h'.locks[p].key].resource.external
      ensures Live(m'.records[h'.locks[p].key]) && p in PhysSet(Ids(m'.records[h'.locks[p].key].resource))
    {
      assert p in host.locks;
    }
  }

  lemma ClosedFrame(host: Host, i: nat, m: Manager, key: Identity)
    requires Ready(host, i, m) && Runs(m, key) && TokensOld(m)
    ensures var (h', m') := RunClose(host, m, key, true); LocalStep(host, m, h', m', i) && Apart(m') && AcquiringOk(m')
  {
    ClosedMoves(host, m, key);
    assert RecordOk(host, i, key, m);
  }

  lemma ClosedGood(host: Host, i: nat, m: Manager, key: Identity)
    requires Ready(host, i, m) && Runs(m, key)
    ensures var (h', m') := RunClose(host, m, key, true); Good(host, m, h', m', i)
  {
    ReadyTokens(host, i, m);
    assert RecordOk(host, i, key, m);
    var (h', m') := RunClose(host, m, key, true);
    ClosedMoves(host, m, key);
    forall k | k in m'.records
      ensures RecordOk(h', i, k, m')
    {
      assert RecordOk(host, i, k, m);
      ClosedRecord(host, i, m, key, k);
    }
    ClosedOwned(host, i, m, key);
    ClosedFrame(host, i, m, key);
  }

  /** The shape of a new record's effects: nothing is held, or a record under fresh id and locks. */
  lemma OpenShape(host: Host, m: Manager, i: nat, a: Attempt, opens: bool, prep: Preparation, cleanupOk: bool)
    requires m.acquiring.None? && a.resource.identity !in m.records
    ensures var (h', m') := OpenNew(host, m, i, a, opens, prep, cleanupOk);
      && m'.node == m.node && m'.acquiring.None? && m.nextToken <= m'.nextToken && host.nextRid <= h'.nextRid
      && (a.resource.identity !in m'.records ==> h'.locks == host.locks && h'.handles == host.handles && m' == m)
      && (a.resource.identity in m'.records ==>
            var r := m'.records[a.resource.identity];
            && m'.records == m.records[a.resource.identity := r]
            && r.resource == a.resource && r.rid == host.nextRid < h'.nextRid && r.run.None? && !r.closing
            && r.references == |r.leases| && r.leases <= {m.nextToken} && (r.leases != {} ==> m.nextToken < m'.nextToken)
            && h'.handles == host.handles[r.rid := Handle(i, a.resource.identity, a.resource)]
            && (a.resource.external ==> h'.locks == host.locks)
            && (!a.resource.external ==>
                  && CanLock(host.locks, Ids(a.resource))
                  && h'.locks == LockAll(host.locks, Ids(a.resource), Holder(i, a.resource.identity))))
  {
  }

  lemma OpenRecords(host: Host, i: nat, m: Manager, a: Attempt, opens: bool, prep: Preparation, cleanupOk: bool, k: Identity)
    requires m.acquiring.None? && a.resource.identity !in m.records && Distinct(Ids(a.resource))
    requires forall r | r in host.handles :: r < host.nextRid
    requires k in m.records ==> RecordOk(host, i, k, m)
    ensures var (h', m') := OpenNew(host, m, i, a, opens, prep, cleanupOk); k in m'.records ==> RecordOk(h', i, k, m')
  {
    OpenShape(host, m, i, a, opens, prep, cleanupOk);
  }

  lemma OpenOwned(host: Host, i: nat, m: Manager, a: Attempt, opens: bool, prep: Preparation, cleanupOk: bool)
    requires m.acquiring.None? && a.resource.identity !in m.records && Owned(host, i, m)
    ensures var (h', m') := OpenNew(host, m, i, a, opens, prep, cleanupOk); Owned(h', i, m')
  {
    OpenShape(host, m, i, a, opens, prep, cleanupOk);
  }

  lemma OpenApart(host: Host, i: nat, m: Manager, a: Attempt, opens: bool, prep: Preparation, cleanupOk: bool)
    requires m.acquiring.None? && a.resource.identity !in m.records && Apart(m) && TokensOld(m)
    requires forall k | k in m.records :: m.records[k].rid < host.nextRid
    ensures var (h', m') := OpenNew(host, m, i, a, opens, prep, cleanupOk); Apart(m')
  {
    OpenShape(host, m, i, a, opens, prep, cleanupOk);
  }

  lemma OpenFrame(host: Host, i: nat, m: Manager, a: Attempt, opens: bool, prep: Preparation, cleanupOk: bool)
    requires m.acquiring.None? && a.resource.identity !in m.records
    requires forall r | r in host.handles :: r < host.nextRid
    ensures var (h', m') := OpenNew(host, m, i, a, opens, prep, cleanupOk); LocalStep(host, m, h', m', i)
  {
    OpenShape(host, m, i, a, opens, prep, cleanupOk);
  }

  lemma OpenGood(host: Host, i: nat, m: Manager, a: Attempt, opens: bool, prep: Preparation, cleanupOk: bool)
    requires Ready(host, i, m) && m.acquiring.None? && a.resource.identity !in m.records && Distinct(Ids(a.resource))
    ensures var (h', m') := OpenNew(host, m, i, a, opens, prep, cleanupOk); Good(host, m, h', m', i)
  {
    var (h', m') := OpenNew(host, m, i, a, opens, prep, cleanupOk);
    ReadyTokens(host, i, m);
    forall k | k in m'.records
      ensures RecordOk(h', i, k, m')
    {
      if k in m.records {
        assert RecordOk(host, i, k, m);
      }
      OpenRecords(host, i, m, a, opens, prep, cleanupOk, k);
    }
    forall k | k in m.records
      ensures m.records[k].rid < host.nextRid
    {
      assert RecordOk(host, i, k, m);
    }
    OpenShape(host, m, i, a, opens, prep, cleanupOk);
    OpenOwned(host, i, m, a, opens, prep, cleanupOk);
    OpenApart(host, i, m, a, opens, prep, cleanupOk);
    OpenFrame(host, i, m, a, opens, prep, cleanupOk);
  }

  // ----- steps of a run

  lemma ReadyOf(w: World, i: nat)
    requires Inv(w) && i in w.managers
    ensures Ready(w.host, i, w.managers[i]) && TokensOld(w.managers[i])
  {
    ReadyTokens(w.host, i, w.managers[i]);
  }

  /** Steps that call no driver and leave locks and handles alone. */
  lemma QuietKeeps(w: World, i: nat, host': Host, m': Manager)
    requires Inv(w) && i in w.managers && SameDevices(w.host, host')
    requires AllMove(w.managers[i], m') && AcquiringOk(m') && SameClosing(w.host, w.managers[i], m')
    ensures Inv(Put(w, i, (host', m')))
  {
    ReadyOf(w, i);
    KeepDevices(w.host, host', i, w.managers[i], m');
    var w' := Put(w, i, (host', m'));
    QuietClosers(w, w', i);
    Assemble(w, w', i);
  }

  lemma BeginKeeps(w: World, i: nat, res: Resource, prepare: bool, valuePrepared: bool)
    requires Inv(w) && i in w.managers && Distinct(Ids(res))
    ensures Inv(Put(w, i, (w.host, Begin(w.managers[i], w.host.ledger, res, prepare, valuePrepared))))
  {
    var m := w.managers[i];
    ReadyOf(w, i);
    if res.identity in m.records {
      assert RecordOk(w.host, i, res.identity, m);
    }
    BeginMoves(m, w.host.ledger, res, prepare, valuePrepared);
    BeginAcquiring(m, w.host.ledger, res, prepare, valuePrepared);
    BeginQuiet(w.host, m, res, prepare, valuePrepared);
    QuietKeeps(w, i, w.host, Begin(m, w.host.ledger, res, prepare, valuePrepared));
  }

  lemma BeginQuiet(host: Host, m: Manager, res: Resource, prepare: bool, valuePrepared: bool)
    ensures SameClosing(host, m, Begin(m, host.ledger, res, prepare, valuePrepared))
  {
  }

  lemma DropQuiet(host: Host, m: Manager, key: Identity, token: nat)
    ensures SameClosing(host, m, Drop(m, key, token))
  {
  }

  lemma DropKeeps(w: World, i: nat, key: Identity, token: nat)
    requires Inv(w) && i in w.managers
    ensures Inv(Put(w, i, (w.host, Drop(w.managers[i], key, token))))
  {
    ReadyOf(w, i);
    DropMoves(w.managers[i], key, token);
    DropQuiet(w.host, w.managers[i], key, token);
    QuietKeeps(w, i, w.host, Drop(w.managers[i], key, token));
  }

  lemma EndQuiet(host: Host, m: Manager, key: Identity)
    ensures SameClosing(host, m, EndClose(m, key))
  {
  }

  lemma StopKeeps(w: World, i: nat)
    requires Inv(w) && i in w.managers
    ensures Inv(Put(w, i, (w.host, Shutdown(w.managers[i]))))
  {
    ReadyOf(w, i);
    StopMoves(w.managers[i]);
    QuietKeeps(w, i, w.host, Shutdown(w.managers[i]));
  }

  lemma CloseEndKeeps(w: World, i: nat, key: Identity)
    requires Inv(w) && i in w.managers
    ensures Inv(Put(w, i, (w.host, EndClose(w.managers[i], key))))
  {
    ReadyOf(w, i);
    EndMoves(w.managers[i], key);
    EndQuiet(w.host, w.managers[i], key);
    QuietKeeps(w, i, w.host, EndClose(w.managers[i], key));
  }

  lemma FaultKeeps(w: World, i: nat, id: Identity)
    requires Inv(w) && i in w.managers
    ensures Inv(Put(w, i, MarkUncertain(w.host, w.managers[i], id)))
    ensures Inv(Put(w, i, ClearUncertainty(w.host, w.managers[i], id)))
  {
    ReadyOf(w, i);
    var m := w.managers[i];
    MarkMoves(w.host, m, id);
    ClearMoves(w.host, m, id);
    FaultQuiet(w.host, m, id);
    QuietKeeps(w, i, MarkUncertain(w.host, m, id).0, MarkUncertain(w.host, m, id).1);
    QuietKeeps(w, i, ClearUncertainty(w.host, m, id).0, ClearUncertainty(w.host, m, id).1);
  }

  lemma FaultQuiet(host: Host, m: Manager, id: Identity)
    ensures SameClosing(host, m, MarkUncertain(host, m, id).1)
    ensures SameClosing(host, m, ClearUncertainty(host, m, id).1)
  {
  }

  lemma CloseBeginKeeps(w: World, i: nat, key: Identity, rid: nat)
    requires Inv(w) && i in w.managers && Starts(w.managers[i], key, rid)
    ensures Inv(Put(w, i, (w.host, BeginClose(w.managers[i], key, rid))).(calls := w.calls + [CloserIn(i, rid)]))
  {
    var m := w.managers[i];
    var m' := BeginClose(m, key, rid);
    var w' := Put(w, i, (w.host, m')).(calls := w.calls + [CloserIn(i, rid)]);
    ReadyOf(w, i);
    CloseMoves(m, key, rid);
    KeepDevices(w.host, w.host, i, m, m');
    assert RecordOk(w.host, i, key, m);
    LoudClosers(w, w', i, key, CloserIn(i, rid));
    Assemble(w, w', i);
  }

  lemma CloseFindsNothing(w: World, i: nat, key: Identity, rid: nat)
    requires Inv(w) && i in w.managers && !Starts(w.managers[i], key, rid)
    ensures Inv(Put(w, i, (w.host, BeginClose(w.managers[i], key, rid))))
  {
    var m := w.managers[i];
    ReadyOf(w, i);
    CloseMoves(m, key, rid);
    QuietKeeps(w, i, w.host, BeginClose(m, key, rid));
  }

  lemma CloserReturnGood(host: Host, i: nat, m: Manager, key: Identity, ok: bool)
    requires Ready(host, i, m) && TokensOld(m) && Runs(m, key)
    ensures var (h', m') := RunClose(host, m, key, ok); Good(host, m, h', m', i)
  {
    if ok {
      ClosedGood(host, i, m, key);
    } else {
      FailedCloseMoves(host, m, key);
      var (h', m') := RunClose(host, m, key, false);
      KeepDevices(host, h', i, m, m');
    }
  }

  lemma CloserReturnShape(host: Host, m: Manager, key: Identity, ok: bool)
    requires Runs(m, key)
    ensures var (h', m') := RunClose(host, m, key, ok);
      && h'.nextRid == host.nextRid && key in m'.records && m'.records == m.records[key := m'.records[key]]
      && m'.records[key].rid == m.records[key].rid && !Runs(m', key)
  {
  }

  lemma CloserReturnKeeps(w: World, i: nat, key: Identity, ok: bool)
    requires Inv(w) && i in w.managers && Runs(w.managers[i], key)
    ensures Inv(Put(w, i, RunClose(w.host, w.managers[i], key, ok))
                .(calls := w.calls + [CloserOut(i, w.managers[i].records[key].rid, ok)]))
  {
    var m := w.managers[i];
    var w' := Put(w, i, RunClose(w.host, m, key, ok)).(calls := w.calls + [CloserOut(i, m.records[key].rid, ok)]);
    ReadyOf(w, i);
    CloserReturnGood(w.host, i, m, key, ok);
    CloserReturnShape(w.host, m, key, ok);
    assert RecordOk(w.host, i, key, m);
    LoudClosers(w, w', i, key, CloserOut(i, m.records[key].rid, ok));
    Assemble(w, w', i);
  }

  lemma PrepareQuiet(host: Host, m: Manager, a: Attempt, prep: Preparation)
    requires a.resource.identity in m.records
    ensures SameClosing(host, m, PrepareExisting(host, m, a, prep).1)
  {
  }

  lemma OpenQuiet(host: Host, m: Manager, i: nat, a: Attempt, opens: bool, prep: Preparation, cleanupOk: bool)
    requires m.acquiring.None? && a.resource.identity !in m.records
    ensures SameClosing(host, m, OpenNew(host, m, i, a, opens, prep, cleanupOk).1)
  {
    OpenShape(host, m, i, a, opens, prep, cleanupOk);
  }

  lemma FinishQuiet(host: Host, m: Manager, i: nat, opens: bool, prep: Preparation, cleanupOk: bool)
    ensures SameClosing(host, m, Finish(host, m, i, opens, prep, cleanupOk).1)
  {
    if m.acquiring.Some? {
      var a, m1 := m.acquiring.value, m.(acquiring := None);
      if a.resource.identity in m.records {
        PrepareQuiet(host, m1, a, prep);
      } else {
        OpenQuiet(host, m1, i, a, opens, prep, cleanupOk);
      }
    }
  }

  lemma StepsCompose(host: Host, m: Manager, m1: Manager, host': Host, m': Manager, i: nat)
    requires LocalStep(host, m, host, m1, i) && LocalStep(host, m1, host', m', i)
    ensures LocalStep(host, m, host', m', i)
  {
  }

  lemma FinishGood(host: Host, i: nat, m: Manager, opens: bool, prep: Preparation, cleanupOk: bool)
    requires Ready(host, i, m) && TokensOld(m) && m.acquiring.Some?
    ensures var (h', m') := Finish(host, m, i, opens, prep, cleanupOk); Good(host, m, h', m', i)
  {
    var a, m1 := m.acquiring.value, m.(acquiring := None);
    var (h', m') := Finish(host, m, i, opens, prep, cleanupOk);
    assert AllMove(m, m1);
    KeepDevices(host, host, i, m, m1);
    if a.resource.identity in m.records {
      PrepareMoves(host, m1, a, prep);
      KeepDevices(host, h', i, m1, m');
    } else {
      OpenGood(host, i, m1, a, opens, prep, cleanupOk);
    }
    StepsCompose(host, m, m1, h', m', i);
  }

  /** The call list of a finishing acquire, and that any preparer call in it was allowed. */
  lemma FinishCalls(w: World, i: nat, m: Manager, opens: bool, prep: Preparation, cleanupOk: bool)
    requires AcquiringOk(m)
    ensures var w' := Finished(w, i, m, opens, prep, cleanupOk);
      && w'.host == Finish(w.host, m, i, opens, prep, cleanupOk).0 && w'.nextManager == w.nextManager
      && w'.managers == w.managers[i := Finish(w.host, m, i, opens, prep, cleanupOk).1]
      && (|| w'.calls == w.calls
          || (w'.calls == w.calls + [w'.calls[|w.calls|]] && w'.calls[|w.calls|].PreparerIn?
              && SeenClean(w'.calls[|w.calls|].node, w'.calls[|w.calls|].resource, w'.calls[|w.calls|].seen)))
  {
  }

  lemma FinishKeeps(w: World, i: nat, opens: bool, prep: Preparation, cleanupOk: bool)
    requires Inv(w) && i in w.managers && w.managers[i].acquiring.Some?
    ensures Inv(Finished(w, i, w.managers[i], opens, prep, cleanupOk))
  {
    var m := w.managers[i];
    ReadyOf(w, i);
    FinishGood(w.host, i, m, opens, prep, cleanupOk);
    FinishQuiet(w.host, m, i, opens, prep, cleanupOk);
    FinishCalls(w, i, m, opens, prep, cleanupOk);
    FinishAssembles(w, Finished(w, i, m, opens, prep, cleanupOk), i);
  }

  lemma FinishAssembles(w: World, w': World, i: nat)
    requires Inv(w) && i in w.managers && i in w'.managers
    requires w'.managers == w.managers[i := w'.managers[i]] && w'.nextManager == w.nextManager
    requires Good(w.host, w.managers[i], w'.host, w'.managers[i], i) && SameClosing(w.host, w.managers[i], w'.managers[i])
    requires || w'.calls == w.calls
             || (|w'.calls| == |w.calls| + 1 && w'.calls == w.calls + [w'.calls[|w.calls|]] && w'.calls[|w.calls|].PreparerIn?
                 && SeenClean(w'.calls[|w.calls|].node, w'.calls[|w.calls|].resource, w'.calls[|w.calls|].seen))
    ensures Inv(w')
  {
    QuietClosers(w, w', i);
    Assemble(w, w', i);
  }

  lemma LedgerLocal(host: Host, ledger: Ledger, i: nat, m: Manager)
    requires LocalOk(host, i, m)
    ensures LocalOk(host.(ledger := ledger), i, m)
  {
    forall key | key in m.records
      ensures RecordOk(host.(ledger := ledger), i, key, m)
    {
      assert RecordOk(host, i, key, m);
    }
  }

  lemma ReadableKeeps(w: World, readable: bool)
    requires Inv(w)
    ensures Inv(Next(w, LedgerReadable(readable)))
  {
    forall j | j in w.managers
      ensures LocalOk(w.host.(ledger := w.host.ledger.(readable := readable)), j, w.managers[j])
    {
      LedgerLocal(w.host, w.host.ledger.(readable := readable), j, w.managers[j]);
    }
  }

  lemma StartLocal(host: Host, i: nat, node: string)
    requires forall p | p in host.locks :: host.locks[p].manager != i
    requires forall r | r in host.handles :: host.handles[r].manager != i
    ensures LocalOk(host, i, NewManager(node, host.ledger))
  {
  }

  lemma StartClosers(w: World, w': World, i: nat)
    requires ClosersFit(w) && RidsDistinct(w) && HostOk(w) && i !in w.managers && i in w'.managers
    requires w'.managers == w.managers[i := w'.managers[i]] && w'.managers[i].records == map[]
    requires w'.host == w.host && w'.calls == w.calls
    ensures ClosersFit(w') && RidsDistinct(w') && HostOk(w')
  {
    assert forall j | j in w'.managers && j != i :: j in w.managers && w'.managers[j] == w.managers[j];
  }

  lemma StartKeeps(w: World, node: string)
    requires Inv(w)
    ensures Inv(Next(w, Start(node)))
  {
    var w', i := Next(w, Start(node)), w.nextManager;
    assert i !in w.managers;
    StartLocal(w.host, i, node);
    StartClosers(w, w', i);
    forall j | j in w'.managers
      ensures j < w'.nextManager && LocalOk(w'.host, j, w'.managers[j])
    {
      if j != i {
        assert j < w.nextManager && LocalOk(w.host, j, w.managers[j]);
      }
    }
  }

  lemma CrashLocal(w: World, i: nat, j: nat)
    requires i in w.managers && j in w.managers && j != i && LocalOk(w.host, j, w.managers[j])
    ensures LocalOk(Killed(w, i).host, j, w.managers[j])
  {
    forall key | key in w.managers[j].records
      ensures RecordOk(Killed(w, i).host, j, key, w.managers[j])
    {
      assert RecordOk(w.host, j, key, w.managers[j]);
    }
  }

  lemma CrashClosers(w: World, i: nat)
    requires ClosersFit(w) && i in w.managers
    ensures ClosersFit(Killed(w, i))
  {
    var w' := Killed(w, i);
    assert w'.calls == w.calls && forall j | j in w'.managers :: j in w.managers && w'.managers[j] == w.managers[j];
  }

  lemma CrashHost(w: World, i: nat)
    requires HostOk(w) && i in w.managers
    ensures HostOk(Killed(w, i))
  {
  }

  lemma CrashRids(w: World, i: nat)
    requires RidsDistinct(w) && i in w.managers
    ensures RidsDistinct(Killed(w, i))
  {
    var w' := Killed(w, i);
    assert forall j | j in w'.managers :: j in w.managers && w'.managers[j] == w.managers[j];
  }

  lemma CrashKeeps(w: World, i: nat)
    requires Inv(w) && i in w.managers
    ensures Inv(Killed(w, i))
  {
    forall j | j in Killed(w, i).managers
      ensures LocalOk(Killed(w, i).host, j, w.managers[j])
    {
      CrashLocal(w, i, j);
    }
    CrashClosers(w, i);
    CrashHost(w, i);
    CrashRids(w, i);
    assert Killed(w, i).calls == w.calls && Killed(w, i).nextManager == w.nextManager;
  }

  lemma AcquireKeeps(w: World, a: Action)
    requires Inv(w) && (a.BeginAcquire? || a.FinishAcquire? || a.DropLease?)
    ensures Inv(Next(w, a))
  {
    if a.manager in w.managers {
      match a
      case BeginAcquire(i, res, prepare, prepared) => if Distinct(Ids(res)) { BeginKeeps(w, i, res, prepare, prepared); }
      case FinishAcquire(i, opens, prep, cleanupOk) =>
        if w.managers[i].acquiring.Some? { FinishKeeps(w, i, opens, prep, cleanupOk); } else { assert Next(w, a) == w; }
      case DropLease(i, key, token) => DropKeeps(w, i, key, token);
    }
  }

  lemma CloseStarts(w: World, i: nat, key: Identity, rid: nat)
    requires Inv(w) && i in w.managers
    ensures Inv(Next(w, CloseBegins(i, key, rid)))
  {
    if Starts(w.managers[i], key, rid) {
      CloseBeginKeeps(w, i, key, rid);
    } else {
      CloseFindsNothing(w, i, key, rid);
    }
  }

  lemma CloserNext(w: World, i: nat, key: Identity, ok: bool)
    requires i in w.managers
    ensures var w', m := Next(w, CloserReturns(i, key, ok)), w.managers[i];
      if Runs(m, key) then
        w' == Put(w, i, RunClose(w.host, m, key, ok)).(calls := w.calls + [CloserOut(i, m.records[key].rid, ok)])
      else w' == w
  {
    assert w.managers[i := w.managers[i]] == w.managers;
  }

  lemma CloserReturnsKeeps(w: World, i: nat, key: Identity, ok: bool)
    requires Inv(w) && i in w.managers
    ensures Inv(Next(w, CloserReturns(i, key, ok)))
  {
    CloserNext(w, i, key, ok);
    if Runs(w.managers[i], key) {
      CloserReturnKeeps(w, i, key, ok);
    }
  }

  lemma NextKeeps(w: World, a: Action)
    requires Inv(w)
    ensures Inv(Next(w, a))
  {
    match a
    case Start(node) => StartKeeps(w, node);
    case LedgerReadable(b) => ReadableKeeps(w, b);
    case Crash(i) => if i in w.managers { CrashKeeps(w, i); }
    case Report(i, id) => if i in w.managers { FaultKeeps(w, i, id); }
    case Verify(i, id) => if i in w.managers { FaultKeeps(w, i, id); }
    case BeginAcquire(_, _, _, _) => AcquireKeeps(w, a);
    case FinishAcquire(_, _, _, _) => AcquireKeeps(w, a);
    case DropLease(_, _, _) => AcquireKeeps(w, a);
    case CloseEnds(i, key) => if i in w.managers { CloseEndKeeps(w, i, key); }
    case Stop(i) => if i in w.managers { StopKeeps(w, i); }
    case CloseBegins(i, key, rid) => if i in w.managers { CloseStarts(w, i, key, rid); }
    case CloserReturns(i, key, ok) => if i in w.managers { CloserReturnsKeeps(w, i, key, ok); }
  }

  lemma {:induction false} RunKeeps(w: World, actions: seq<Action>)
    requires Inv(w)
    ensures Inv(Run(w, actions))
    decreases |actions|
  {
    if actions != [] {
      NextKeeps(w, actions[0]);
      RunKeeps(Next(w, actions[0]), actions[1..]);
    }
  }
}
