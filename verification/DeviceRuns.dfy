/** Whole runs of any number of device managers on one host, with crashes and an unreliable ledger. */
module DeviceRuns {
  import opened Wrappers
  import opened DeviceModel

  /** Calls of the drivers, in the order they happened. A preparer call records what its acquire had
      read from the ledger and what the ledger says at the call. */
  datatype Call =
    | PreparerIn(manager: nat, node: string, resource: Resource, seen: Ledger, now: Ledger)
    | CloserIn(manager: nat, rid: nat)
    | CloserOut(manager: nat, rid: nat, ok: bool)

  /** `calls` only records; no step reads it. */
  datatype World = World(host: Host, managers: map<nat, Manager>, nextManager: nat, calls: seq<Call>)

  datatype Action =
    | Start(node: string)
    | BeginAcquire(manager: nat, resource: Resource, prepare: bool, valuePrepared: bool)
    | FinishAcquire(manager: nat, opens: bool, prep: Preparation, cleanupOk: bool)
    | DropLease(manager: nat, key: Identity, token: nat)
    | CloseBegins(manager: nat, key: Identity, rid: nat)
    | CloserReturns(manager: nat, key: Identity, ok: bool)
    | CloseEnds(manager: nat, key: Identity)
    | Report(manager: nat, id: Identity)
    | Verify(manager: nat, id: Identity)
    | Stop(manager: nat)
    | Crash(manager: nat)
    | LedgerReadable(readable: bool)

  const INIT := World(Host(map[], Ledger({}, true), map[], 0), map[], 0, [])

  function Put(w: World, i: nat, hm: (Host, Manager)): World {
    w.(host := hm.0, managers := w.managers[i := hm.1])
  }

  /** A crash frees the locks and handles of the process and nothing else. */
  function Killed(w: World, i: nat): World {
    w.(host := w.host.(locks := map p | p in w.host.locks && w.host.locks[p].manager != i :: w.host.locks[p],
                       handles := map r | r in w.host.handles && w.host.handles[r].manager != i :: w.host.handles[r]),
       managers := w.managers - {i})
  }

  function Next(w: World, a: Action): World {
    match a
    case Start(node) =>
      w.(managers := w.managers[w.nextManager := NewManager(node, w.host.ledger)], nextManager := w.nextManager + 1)
    case LedgerReadable(b) => w.(host := w.host.(ledger := w.host.ledger.(readable := b)))
    case Crash(i) => if i in w.managers then Killed(w, i) else w
    case _ => if a.manager in w.managers then Step(w, a, w.managers[a.manager]) else w
  }

  function Finished(w: World, i: nat, m: Manager, opens: bool, prep: Preparation, cleanupOk: bool): World {
    var w' := Put(w, i, Finish(w.host, m, i, opens, prep, cleanupOk));
    if CallsPreparer(w.host, m, opens) then
      var t := m.acquiring.value;
      w'.(calls := w.calls + [PreparerIn(i, m.node, t.resource, t.seen, w.host.ledger)])
    else w'
  }

  /** One critical section of a live manager. An invalid resource never reaches `acquire`. */
  function Step(w: World, a: Action, m: Manager): World
    requires !a.Start? && !a.LedgerReadable? && !a.Crash?
  {
    var i := a.manager;
    match a
    case BeginAcquire(_, res, prepare, valuePrepared) =>
      if Distinct(Ids(res)) then Put(w, i, (w.host, Begin(m, w.host.ledger, res, prepare, valuePrepared))) else w
    case FinishAcquire(_, opens, prep, cleanupOk) => Finished(w, i, m, opens, prep, cleanupOk)
    case DropLease(_, key, token) => Put(w, i, (w.host, Drop(m, key, token)))
    case CloseBegins(_, key, rid) =>
      var w' := Put(w, i, (w.host, BeginClose(m, key, rid)));
      if Starts(m, key, rid) then w'.(calls := w.calls + [CloserIn(i, rid)]) else w'
    case CloserReturns(_, key, ok) =>
      var w' := Put(w, i, RunClose(w.host, m, key, ok));
      if Runs(m, key) then w'.(calls := w.calls + [CloserOut(i, m.records[key].rid, ok)]) else w'
    case CloseEnds(_, key) => Put(w, i, (w.host, EndClose(m, key)))
    case Report(_, id) => Put(w, i, MarkUncertain(w.host, m, id))
    case Verify(_, id) => Put(w, i, ClearUncertainty(w.host, m, id))
    case Stop(_) => Put(w, i, (w.host, Shutdown(m)))
  }

  function Run(w: World, actions: seq<Action>): World
    decreases |actions|
  {
    if actions == [] then w else Run(Next(w, actions[0]), actions[1..])
  }

  // ----- invariant

  /** The value of the record is still open. A closer that succeeded has ended it. */
  predicate Live(r: Record) {
    r.run != Some(true)
  }

  /** Lock, handle and reference bookkeeping of one record. */
  predicate RecordOk(host: Host, i: nat, key: Identity, m: Manager)
    requires key in m.records
  {
    var r := m.records[key];
    && r.resource.identity == key && Distinct(Ids(r.resource)) && r.rid < host.nextRid
    && (r.run.Some? ==> r.closing)
    && r.references == |r.leases|
    && (forall t | t in r.leases :: t < m.nextToken)
    && (Live(r) && !r.resource.external ==>
          Distinct(PhysSeq(Ids(r.resource)))
          && forall p | p in PhysSet(Ids(r.resource)) :: p in host.locks && host.locks[p] == Holder(i, key))
    && (r.rid in host.handles ==> host.handles[r.rid] == Handle(i, key, r.resource) && Live(r))
  }

  /** Records have their own ids and lease tokens. */
  predicate Apart(m: Manager) {
    forall j, k | j in m.records && k in m.records && j != k ::
      m.records[j].rid != m.records[k].rid && m.records[j].leases !! m.records[k].leases
  }

  /** A running acquire fits the record it will reuse, and what it read allows it to prepare. */
  predicate AcquiringOk(m: Manager) {
    m.acquiring.Some? ==>
      && Distinct(Ids(m.acquiring.value.resource))
      && (m.acquiring.value.resource.identity in m.records ==>
            var r := m.records[m.acquiring.value.resource.identity];
            !r.closing && r.resource == m.acquiring.value.resource)
      && (m.acquiring.value.prepare ==> SeenClean(m.node, m.acquiring.value.resource, m.acquiring.value.seen))
  }

  predicate ManagerOk(host: Host, i: nat, m: Manager) {
    && (forall key | key in m.records :: RecordOk(host, i, key, m))
    && Apart(m) && AcquiringOk(m)
  }

  /** The ledger could be read, and under this node's label it had no fault for the resource. */
  predicate SeenClean(node: string, res: Resource, ledger: Ledger) {
    ledger.readable && !AnyFault(Relabel(ledger.faults, node), res)
  }

  /** The locks and handles a manager holds belong to its live records. */
  predicate Owned(host: Host, i: nat, m: Manager) {
    && (forall p | p in host.locks && host.locks[p].manager == i ::
          var key := host.locks[p].key;
          && key in m.records && !m.records[key].resource.external && Live(m.records[key])
          && p in PhysSet(Ids(m.records[key].resource)))
    && (forall rid | rid in host.handles && host.handles[rid].manager == i ::
          var key := host.handles[rid].key;
          key in m.records && m.records[key].rid == rid)
  }

  predicate LocalOk(host: Host, i: nat, m: Manager) {
    ManagerOk(host, i, m) && Owned(host, i, m)
  }

  predicate HostOk(w: World) {
    && (forall p | p in w.host.locks :: w.host.locks[p].manager in w.managers)
    && (forall rid | rid in w.host.handles :: w.host.handles[rid].manager in w.managers && rid < w.host.nextRid)
  }

  predicate RidsDistinct(w: World) {
    forall i, j, k, l |
      && i in w.managers && j in w.managers && k in w.managers[i].records && l in w.managers[j].records
      && w.managers[i].records[k].rid == w.managers[j].records[l].rid :: i == j && k == l
  }

  // ----- history

  predicate About(c: Call, rid: nat) {
    (c.CloserIn? || c.CloserOut?) && c.rid == rid
  }

  /** The latest closer call of the record has not returned. */
  predicate Busy(calls: seq<Call>, rid: nat)
    decreases |calls|
  {
    if calls == [] then false
    else
      var c := calls[|calls| - 1];
      if About(c, rid) then c.CloserIn? else Busy(calls[..|calls| - 1], rid)
  }

  /** A record's closer is entered only when it is not running, and returns only when it is. */
  predicate ClosersAlternate(calls: seq<Call>) {
    forall p | 0 <= p < |calls| ::
      && (calls[p].CloserIn? ==> !Busy(calls[..p], calls[p].rid))
      && (calls[p].CloserOut? ==> Busy(calls[..p], calls[p].rid))
  }

  predicate ClosersFit(w: World) {
    && ClosersAlternate(w.calls)
    && (forall i, key | i in w.managers && key in w.managers[i].records ::
          Busy(w.calls, w.managers[i].records[key].rid) <==> Runs(w.managers[i], key))
    && (forall c | c in w.calls && !c.PreparerIn? :: c.rid < w.host.nextRid)
  }

  predicate Inv(w: World) {
    && (forall i | i in w.managers :: i < w.nextManager && LocalOk(w.host, i, w.managers[i]))
    && HostOk(w) && RidsDistinct(w) && ClosersFit(w)
    && (forall c | c in w.calls && c.PreparerIn? :: SeenClean(c.node, c.resource, c.seen))
  }
}
