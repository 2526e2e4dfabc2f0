/** Device managers over one lock directory and one lifecycle ledger: the values they keep and one
    function per critical section. What an opener, preparer or closer does enters as arguments. */
module DeviceModel {
  import opened Wrappers

  datatype Identity = Identity(node: string, kind: string, value: string)

  /** The node-independent part, which names locks and faults alike. */
  datatype Phys = Phys(kind: string, value: string)

  function PhysOf(id: Identity): Phys {
    Phys(id.kind, id.value)
  }

  datatype Resource = Resource(identity: Identity, components: seq<Identity>, external: bool)

  function Ids(res: Resource): seq<Identity> {
    [res.identity] + res.components
  }

  function PhysSet(ids: seq<Identity>): set<Phys> {
    set id | id in ids :: PhysOf(id)
  }

  predicate Distinct<T(==)>(s: seq<T>) {
    forall i, j | 0 <= i < j < |s| :: s[i] != s[j]
  }

  function PhysSeq(ids: seq<Identity>): (ps: seq<Phys>)
    ensures |ps| == |ids| && forall i | 0 <= i < |ps| :: ps[i] == PhysOf(ids[i])
  {
    seq(|ids|, i requires 0 <= i < |ids| => PhysOf(ids[i]))
  }

  // ----- ledger

  datatype Ledger = Ledger(faults: set<Identity>, readable: bool)

  predicate FaultOn(ledger: Ledger, p: Phys) {
    exists id | id in ledger.faults :: PhysOf(id) == p
  }

  /** The file keeps one entry for a physical key; an unreadable file is left alone. */
  function Mark(ledger: Ledger, id: Identity): Ledger {
    if !ledger.readable then ledger
    else ledger.(faults := (set f | f in ledger.faults && PhysOf(f) != PhysOf(id)) + {id})
  }

  function MarkAll(ledger: Ledger, ids: seq<Identity>): Ledger
    decreases |ids|
  {
    if ids == [] then ledger else MarkAll(Mark(ledger, ids[0]), ids[1..])
  }

  function Clear(ledger: Ledger, id: Identity): Ledger {
    if !ledger.readable then ledger
    else ledger.(faults := set f | f in ledger.faults && PhysOf(f) != PhysOf(id))
  }

  function ClearAll(ledger: Ledger, ids: seq<Identity>): Ledger
    decreases |ids|
  {
    if ids == [] then ledger else ClearAll(Clear(ledger, ids[0]), ids[1..])
  }

  /** A manager reads every fault under its own node label. */
  function Relabel(faults: set<Identity>, node: string): set<Identity> {
    set f | f in faults :: Identity(node, f.kind, f.value)
  }

  // ----- one manager

  datatype State = Open | External | Uncertain

  /** `run` is the closer's outcome once it has returned inside a close that is not finished yet. */
  datatype Record = Record(
    rid: nat,
    resource: Resource,
    references: int,
    prepared: bool,
    state: State,
    uncertainBefore: bool,
    leases: set<nat>,
    closing: bool,
    run: Option<bool>)

  /** An acquire between its ledger check and its effects. `seen` only records the ledger it read. */
  datatype Attempt = Attempt(resource: Resource, prepare: bool, seen: Ledger)

  /** `due` holds the record of every close that was decided and has not begun. */
  datatype Manager = Manager(
    node: string,
    records: map<Identity, Record>,
    unresolved: set<Identity>,
    storeError: bool,
    nextToken: nat,
    closed: bool,
    acquiring: Option<Attempt>,
    due: multiset<nat>)

  datatype Holder = Holder(manager: nat, key: Identity)

  /** A value an opener returned and no closer has closed. */
  datatype Handle = Handle(manager: nat, key: Identity, resource: Resource)

  /** What all managers of one host share; `handles` records physically open values. */
  datatype Host = Host(
    locks: map<Phys, Holder>,
    ledger: Ledger,
    handles: map<nat, Handle>,
    nextRid: nat)

  datatype Reply =
    | Granted(token: nat)
    | Continues
    | ManagerClosed
    | Closing
    | Conflict
    | StillHeld
    | Unreadable
    | Faulted

  predicate AnyFault(unresolved: set<Identity>, res: Resource) {
    exists id | id in Ids(res) :: id in unresolved
  }

  function NewManager(node: string, ledger: Ledger): Manager {
    Manager(node, map[], if ledger.readable then ledger.faults else {}, !ledger.readable, 1, false, None, multiset{})
  }

  function Refresh(m: Manager, ledger: Ledger): Manager {
    m.(unresolved := if ledger.readable then Relabel(ledger.faults, m.node) else {}, storeError := !ledger.readable)
  }

  function Grant(m: Manager, key: Identity): Manager
    requires key in m.records
  {
    var r := m.records[key];
    m.(records := m.records[key := r.(references := r.references + 1, leases := r.leases + {m.nextToken})],
       nextToken := m.nextToken + 1)
  }

  // ----- acquire

  /** The answer of an acquire up to the point where locks, opener or preparer come in. */
  function BeginReply(m: Manager, ledger: Ledger, res: Resource, prepare: bool, valuePrepared: bool): Reply {
    var m1 := Refresh(m, ledger);
    if m.closed then ManagerClosed
    else if res.identity in m.records then
      var r := m.records[res.identity];
      if r.closing then Closing
      else if r.resource.external != res.external || r.resource.components != res.components then Conflict
      else if r.references == 0 && r.state.Uncertain? then StillHeld
      else if prepare && (!r.prepared || (res.external && !valuePrepared)) then
        if m1.storeError then Unreadable
        else if AnyFault(m1.unresolved, res) then Faulted
        else Continues
      else Granted(m.nextToken)
    else if prepare && m1.storeError then Unreadable
    else if prepare && AnyFault(m1.unresolved, res) then Faulted
    else Continues
  }

  function Begin(m: Manager, ledger: Ledger, res: Resource, prepare: bool, valuePrepared: bool): Manager {
    var reply := BeginReply(m, ledger, res, prepare, valuePrepared);
    if m.acquiring.Some? || reply.ManagerClosed? then m
    else
      var m1 := Refresh(m, ledger);
      match reply
      case Granted(_) => Grant(m1, res.identity)
      case Continues => m1.(acquiring := Some(Attempt(res, prepare, ledger)))
      case _ => m1
  }

  /** Locks are exclusive per physical key, so equal keys inside one resource cannot both be taken. */
  predicate CanLock(locks: map<Phys, Holder>, ids: seq<Identity>) {
    && Distinct(PhysSeq(ids))
    && forall p | p in PhysSet(ids) :: p !in locks
  }

  function LockAll(locks: map<Phys, Holder>, ids: seq<Identity>, h: Holder): map<Phys, Holder> {
    locks + (map p | p in PhysSet(ids) :: h)
  }

  function UnlockAll(locks: map<Phys, Holder>, ids: seq<Identity>): map<Phys, Holder> {
    locks - PhysSet(ids)
  }

  datatype Preparation = Prepared | Refused | PrepareFailed

  /** Is the preparer called when the attempt goes on? */
  predicate CallsPreparer(host: Host, m: Manager, opens: bool) {
    && m.acquiring.Some? && m.acquiring.value.prepare
    && var res := m.acquiring.value.resource;
       res.identity in m.records || ((res.external || CanLock(host.locks, Ids(res))) && opens)
  }

  /** The record of a value just opened, marked if a fault is known, with the first lease. */
  function Added(m: Manager, rid: nat, res: Resource, prepared: bool): Manager {
    var before := AnyFault(m.unresolved, res) || m.storeError;
    var state := if before then Uncertain else if res.external then External else Open;
    Grant(m.(records := m.records[res.identity := Record(rid, res, 0, prepared, state, before, {}, false, None)]), res.identity)
  }

  /** The effects of a new record: locks, opener, preparer, and cleanup when one of them fails. */
  function OpenNew(host: Host, m: Manager, i: nat, a: Attempt, opens: bool, prep: Preparation, cleanupOk: bool): (Host, Manager)
  {
    var key, ids := a.resource.identity, Ids(a.resource);
    if !a.resource.external && !CanLock(host.locks, ids) then (host, m)
    else if !opens then (host, m)
    else
      var locks := if a.resource.external then host.locks else LockAll(host.locks, ids, Holder(i, key));
      var open := host.handles[host.nextRid := Handle(i, key, a.resource)];
      var record := Record(host.nextRid, a.resource, 0, false, Uncertain, true, {}, false, None);
      if a.prepare && !prep.Prepared? then
        if cleanupOk then (host.(nextRid := host.nextRid + 1), m)
        else
          (Host(locks, MarkAll(host.ledger, ids), open, host.nextRid + 1),
           m.(records := m.records[key := record],
              unresolved := m.unresolved + (set id | id in ids),
              storeError := !host.ledger.readable))
      else
        (Host(locks, host.ledger, open, host.nextRid + 1), Added(m, host.nextRid, a.resource, a.prepare))
  }

  /** Preparing a record that is open already. */
  function PrepareExisting(host: Host, m: Manager, a: Attempt, prep: Preparation): (Host, Manager)
    requires a.resource.identity in m.records
  {
    var key := a.resource.identity;
    var r := m.records[key];
    match prep
    case Prepared =>
      var r' := r.(prepared := true, state := if r.resource.external then External else Open);
      (host, Grant(m.(records := m.records[key := r']), key))
    case Refused => (host, m)
    case PrepareFailed =>
      (host.(ledger := MarkAll(host.ledger, Ids(r.resource))),
       m.(records := m.records[key := r.(state := Uncertain, uncertainBefore := true)],
          storeError := !host.ledger.readable))
  }

  function Finish(host: Host, m: Manager, i: nat, opens: bool, prep: Preparation, cleanupOk: bool): (Host, Manager) {
    if m.acquiring.None? then (host, m)
    else
      var a, m1 := m.acquiring.value, m.(acquiring := None);
      if a.resource.identity in m.records then PrepareExisting(host, m1, a, prep)
      else OpenNew(host, m1, i, a, opens, prep, cleanupOk)
  }

  // ----- release and close

  /** First critical section of a lease release; the last reference makes a close due. */
  function Drop(m: Manager, key: Identity, token: nat): Manager {
    if m.acquiring.Some? || key !in m.records || token !in m.records[key].leases then m
    else
      var r := m.records[key];
      var r' := r.(references := r.references - 1, leases := r.leases - {token});
      m.(records := m.records[key := r'],
         due := if r'.references == 0 then m.due + multiset{r.rid} else m.due)
  }

  /** Does a due close of record `rid` start the closer? Otherwise it finds the record gone, or waits
      for the close that is running. */
  predicate Starts(m: Manager, key: Identity, rid: nat) {
    && m.acquiring.None? && rid in m.due
    && key in m.records && m.records[key].rid == rid && !m.records[key].closing
  }

  function BeginClose(m: Manager, key: Identity, rid: nat): Manager {
    if m.acquiring.Some? || rid !in m.due then m
    else if Starts(m, key, rid) then
      m.(due := m.due - multiset{rid},
         records := m.records[key := m.records[key].(closing := true, run := None)])
    else m.(due := m.due - multiset{rid})
  }

  predicate Runs(m: Manager, key: Identity) {
    key in m.records && m.records[key].closing && m.records[key].run.None?
  }

  /** The closer returns, outside the manager's lock: ledger, then locks on full success. */
  function RunClose(host: Host, m: Manager, key: Identity, closerOk: bool): (Host, Manager)
  {
    if !Runs(m, key) then (host, m)
    else
      var r := m.records[key];
      var ids := Ids(r.resource);
      var idset := set id | id in ids;
      if !closerOk then
        (host.(ledger := MarkAll(host.ledger, ids)),
         m.(records := m.records[key := r.(state := Uncertain, run := Some(false))],
            unresolved := m.unresolved + idset,
            storeError := !host.ledger.readable))
      else
        var closed := host.(handles := host.handles - {r.rid});
        if !r.uncertainBefore && !host.ledger.readable then
          (closed,
           m.(records := m.records[key := r.(state := Uncertain, uncertainBefore := true, run := Some(false))],
              unresolved := m.unresolved - idset,
              storeError := true))
        else
          (closed.(ledger := if r.uncertainBefore then host.ledger else ClearAll(host.ledger, ids),
                   locks := if r.resource.external then host.locks else UnlockAll(host.locks, ids)),
           m.(records := m.records[key := r.(run := Some(true))],
              unresolved := if r.uncertainBefore then m.unresolved else m.unresolved - idset,
              storeError := r.uncertainBefore && m.storeError))
  }

  function EndClose(m: Manager, key: Identity): Manager {
    if m.acquiring.Some? || key !in m.records || !m.records[key].closing || m.records[key].run.None? then m
    else
      var r := m.records[key];
      if r.run.value then m.(records := m.records - {key})
      else
        m.(records := m.records[key := r.(closing := false, run := None, references := 0, leases := {}, state := Uncertain)])
  }

  // ----- faults reported and cleared by the owner

  function MarkUncertain(host: Host, m: Manager, id: Identity): (Host, Manager) {
    if m.acquiring.Some? then (host, m)
    else if !host.ledger.readable then
      (host, m.(unresolved := m.unresolved + {id}, storeError := true))
    else if id in m.records then
      var r := m.records[id];
      (host.(ledger := MarkAll(host.ledger, Ids(r.resource))),
       m.(records := m.records[id := r.(state := Uncertain, uncertainBefore := true)],
          unresolved := m.unresolved + (set j | j in Ids(r.resource)),
          storeError := false))
    else
      (host.(ledger := Mark(host.ledger, id)), m.(unresolved := m.unresolved + {id}, storeError := false))
  }

  function ClearUncertainty(host: Host, m: Manager, id: Identity): (Host, Manager) {
    if m.acquiring.Some? then (host, m)
    else
      var m1 := Refresh(m, host.ledger);
      if m1.storeError then (host, m1)
      else (host.(ledger := Clear(host.ledger, id)), m1.(unresolved := m1.unresolved - {id}))
  }

  /** Every record the manager has becomes due for a close. */
  function Shutdown(m: Manager): Manager {
    if m.acquiring.Some? then m
    else m.(closed := true, due := m.due + multiset(set key | key in m.records :: m.records[key].rid))
  }
}
