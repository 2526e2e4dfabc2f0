/** The device manager as an object over a host that other managers share. Each method is one critical
    section (or the unlocked part of a close) and is specified by its function in `DeviceModel`. */
module Devices {
  import opened Wrappers
  import opened DeviceModel

  /** Lock directory, ledger file and open values of one host. */
  class HostState {
    var locks: map<Phys, Holder>
    var ledger: Ledger
    var handles: map<nat, Handle>
    var nextRid: nat

    ghost function View(): Host
      reads this
    {
      Host(locks, ledger, handles, nextRid)
    }

    constructor (ledger: Ledger)
      ensures View() == Host(map[], ledger, map[], 0)
    {
      locks, this.ledger, handles, nextRid := map[], ledger, map[], 0;
    }

    /** Takes the locks one by one and gives back those it got when one is busy. */
    method LockEach(ids: seq<Identity>, holder: Holder) returns (ok: bool)
      modifies this`locks
      ensures ok <==> CanLock(old(locks), ids)
      ensures locks == if ok then LockAll(old(locks), ids, holder) else old(locks)
    {
      for n := 0 to |ids|
        invariant CanLock(old(locks), ids[..n])
        invariant locks == LockAll(old(locks), ids[..n], holder)
      {
        assert ids[..n + 1] == ids[..n] + [ids[n]];
        LockStep(old(locks), ids[..n], ids[n], holder);
        if PhysOf(ids[n]) in locks {
          if CanLock(old(locks), ids) {
            PrefixLocks(old(locks), ids, n + 1);
          }
          Restores(old(locks), ids[..n], holder);
          UnlockEach(ids[..n]);
          return false;
        }
        locks := locks[PhysOf(ids[n]) := holder];
      }
      assert ids[..|ids|] == ids;
      return true;
    }

    method UnlockEach(ids: seq<Identity>)
      modifies this`locks
      ensures locks == UnlockAll(old(locks), ids)
    {
      for n := 0 to |ids|
        invariant locks == old(locks) - PhysSet(ids[..n])
      {
        assert ids[..n + 1] == ids[..n] + [ids[n]];
        locks := locks - {PhysOf(ids[n])};
      }
      assert ids[..|ids|] == ids;
    }

    method MarkEach(ids: seq<Identity>) returns (ok: bool)
      modifies this`ledger
      ensures ledger == MarkAll(old(ledger), ids) && ok == old(ledger).readable
      ensures !ok ==> ledger == old(ledger)
    {
      ok := ledger.readable;
      if !ok {
        UnreadableUnchanged(ledger, ids);
        return;
      }
      for n := 0 to |ids|
        invariant MarkAll(ledger, ids[n..]) == MarkAll(old(ledger), ids)
      {
        ledger := Mark(ledger, ids[n]);
        assert ids[n..][1..] == ids[n + 1..];
      }
    }

    method ClearEach(ids: seq<Identity>) returns (ok: bool)
      modifies this`ledger
      ensures ledger == ClearAll(old(ledger), ids) && ok == old(ledger).readable
      ensures !ok ==> ledger == old(ledger)
    {
      ok := ledger.readable;
      if !ok {
        UnreadableUnchanged(ledger, ids);
        return;
      }
      for n := 0 to |ids|
        invariant ClearAll(ledger, ids[n..]) == ClearAll(old(ledger), ids)
      {
        ledger := Clear(ledger, ids[n]);
        assert ids[n..][1..] == ids[n + 1..];
      }
    }
  }

  lemma PhysSetIsSeq(ids: seq<Identity>, p: Phys)
    ensures p in PhysSet(ids) <==> p in PhysSeq(ids)
  {
    if p in PhysSet(ids) {
      var id :| id in ids && PhysOf(id) == p;
      var j :| 0 <= j < |ids| && ids[j] == id;
      assert PhysSeq(ids)[j] == p;
    }
  }

  lemma DistinctAppend<T>(s: seq<T>, x: T)
    requires Distinct(s)
    ensures Distinct(s + [x]) <==> x !in s
  {
    if x in s {
      var j :| 0 <= j < |s| && s[j] == x;
      assert (s + [x])[j] == (s + [x])[|s|];
    }
  }

  lemma AppendKeys(before: seq<Identity>, id: Identity)
    ensures PhysSeq(before + [id]) == PhysSeq(before) + [PhysOf(id)]
    ensures PhysSet(before + [id]) == PhysSet(before) + {PhysOf(id)}
  {
    forall p
      ensures p in PhysSet(before + [id]) <==> p in PhysSet(before) + {PhysOf(id)}
    {
      if p in PhysSet(before) {
        var j :| j in before && PhysOf(j) == p;
        assert j in before + [id];
      }
      assert id in before + [id];
    }
  }

  lemma LockedNext(locks: map<Phys, Holder>, before: seq<Identity>, id: Identity, h: Holder)
    ensures LockAll(locks, before + [id], h) == LockAll(locks, before, h)[PhysOf(id) := h]
  {
    AppendKeys(before, id);
  }

  /** One more identity can be locked exactly if its key is not among those held. */
  lemma LockStep(locks: map<Phys, Holder>, before: seq<Identity>, id: Identity, h: Holder)
    requires CanLock(locks, before)
    ensures CanLock(locks, before + [id]) <==> PhysOf(id) !in LockAll(locks, before, h)
    ensures LockAll(locks, before + [id], h) == LockAll(locks, before, h)[PhysOf(id) := h]
  {
    var all := before + [id];
    LockedNext(locks, before, id, h);
    AppendKeys(before, id);
    PhysSetIsSeq(before, PhysOf(id));
    DistinctAppend(PhysSeq(before), PhysOf(id));
    assert (forall p | p in PhysSet(all) :: p !in locks) <==> PhysOf(id) !in locks;
  }

  lemma PrefixLocks(locks: map<Phys, Holder>, ids: seq<Identity>, n: nat)
    requires n <= |ids| && CanLock(locks, ids)
    ensures CanLock(locks, ids[..n])
  {
    assert forall j | 0 <= j < n :: PhysSeq(ids[..n])[j] == PhysSeq(ids)[j];
  }

  lemma Restores(locks: map<Phys, Holder>, ids: seq<Identity>, h: Holder)
    requires CanLock(locks, ids)
    ensures UnlockAll(LockAll(locks, ids, h), ids) == locks
  {
  }

  lemma {:induction false} UnreadableUnchanged(ledger: Ledger, ids: seq<Identity>)
    requires !ledger.readable
    ensures MarkAll(ledger, ids) == ledger && ClearAll(ledger, ids) == ledger
    decreases |ids|
  {
    if ids != [] {
      UnreadableUnchanged(ledger, ids[1..]);
    }
  }

  class DeviceManager {
    const host: HostState
    const number: nat
    const node: string
    var records: map<Identity, Record>
    var unresolved: set<Identity>
    var storeError: bool
    var nextToken: nat
    var closed: bool
    var acquiring: Option<Attempt>
    var due: multiset<nat>

    ghost function View(): Manager
      reads this
    {
      Manager(node, records, unresolved, storeError, nextToken, closed, acquiring, due)
    }

    constructor (host: HostState, number: nat, node: string)
      ensures this.host == host && this.number == number
      ensures View() == NewManager(node, host.ledger)
    {
      this.host, this.number, this.node := host, number, node;
      records, nextToken, closed, acquiring, due := map[], 1, false, None, multiset{};
      unresolved := if host.ledger.readable then host.ledger.faults else {};
      storeError := !host.ledger.readable;
    }

    method RefreshUnresolved()
      modifies this`unresolved, this`storeError
      ensures View() == Refresh(old(View()), host.ledger)
    {
      storeError := !host.ledger.readable;
      unresolved := if host.ledger.readable then Relabel(host.ledger.faults, node) else {};
    }

    method GrantLease(key: Identity) returns (token: nat)
      requires key in records
      modifies this`records, this`nextToken
      ensures View() == Grant(old(View()), key) && token == old(nextToken)
    {
      token := nextToken;
      nextToken := nextToken + 1;
      var r := records[key];
      records := records[key := r.(references := r.references + 1, leases := r.leases + {token})];
    }

    /** `acquire` up to the point where a driver or a lock comes in. */
    method BeginAcquire(res: Resource, prepare: bool, valuePrepared: bool) returns (reply: Reply)
      requires acquiring.None?
      modifies this
      ensures reply == BeginReply(old(View()), host.ledger, res, prepare, valuePrepared)
      ensures View() == Begin(old(View()), host.ledger, res, prepare, valuePrepared)
    {
      if closed {
        return ManagerClosed;
      }
      RefreshUnresolved();
      var key := res.identity;
      if key in records {
        var r := records[key];
        if r.closing {
          return Closing;
        }
        if r.resource.external != res.external || r.resource.components != res.components {
          return Conflict;
        }
        if r.references == 0 && r.state.Uncertain? {
          return StillHeld;
        }
        if !(prepare && (!r.prepared || (res.external && !valuePrepared))) {
          var token := GrantLease(key);
          return Granted(token);
        }
      }
      if prepare && storeError {
        return Unreadable;
      }
      if prepare && AnyFault(unresolved, res) {
        return Faulted;
      }
      acquiring := Some(Attempt(res, prepare, host.ledger));
      return Continues;
    }

    /** Preparing a record that is open already. */
    method PrepareRecord(a: Attempt, prep: Preparation) returns (granted: bool)
      requires a.resource.identity in records
      modifies this, host`ledger
      ensures (host.View(), View()) == PrepareExisting(old(host.View()), old(View()), a, prep)
      ensures granted == prep.Prepared?
    {
      var key := a.resource.identity;
      var r := records[key];
      granted := prep.Prepared?;
      if granted {
        records := records[key := r.(prepared := true, state := if r.resource.external then External else Open)];
        var _ := GrantLease(key);
      } else if prep.PrepareFailed? {
        records := records[key := r.(state := Uncertain, uncertainBefore := true)];
        var ok := host.MarkEach(Ids(r.resource));
        storeError := !ok;
      }
    }

    /** Keeps a value that could be neither prepared nor closed, with its locks and a fault for each identity. */
    method Quarantine(rid: nat, res: Resource)
      modifies this`unresolved, this`storeError, this`records, host`ledger
      ensures host.ledger == MarkAll(old(host.ledger), Ids(res))
      ensures unresolved == old(unresolved) + (set id | id in Ids(res)) && storeError == !old(host.ledger).readable
      ensures records == old(records)[res.identity := Record(rid, res, 0, false, Uncertain, true, {}, false, None)]
    {
      unresolved := unresolved + (set id | id in Ids(res));
      var ok := host.MarkEach(Ids(res));
      storeError := !ok;
      records := records[res.identity := Record(rid, res, 0, false, Uncertain, true, {}, false, None)];
    }

    /** Locks, opener and preparer of a resource's first consumer, with their cleanup. */
    method OpenRecord(a: Attempt, opens: bool, prep: Preparation, cleanupOk: bool) returns (granted: bool)
      modifies this, host
      ensures (host.View(), View()) == OpenNew(old(host.View()), old(View()), number, a, opens, prep, cleanupOk)
      ensures granted ==> nextToken == old(nextToken) + 1
    {
      var res := a.resource;
      var key := res.identity;
      if !res.external {
        var locked := host.LockEach(Ids(res), Holder(number, key));
        if !locked {
          return false;
        }
      }
      if !opens {
        Rollback(res, old(host.locks));
        return false;
      }
      var rid := host.nextRid;
      host.nextRid := rid + 1;
      if a.prepare && !prep.Prepared? && cleanupOk {
        Rollback(res, old(host.locks));
        return false;
      }
      host.handles := host.handles[rid := Handle(number, key, res)];
      if a.prepare && !prep.Prepared? {
        Quarantine(rid, res);
        return false;
      }
      AddRecord(rid, res, a.prepare);
      return true;
    }

    /** The record of a value just opened, in use under its first lease. */
    method AddRecord(rid: nat, res: Resource, prepared: bool)
      modifies this`records, this`nextToken
      ensures View() == Added(old(View()), rid, res, prepared)
    {
      var before := AnyFault(unresolved, res) || storeError;
      var state := if before then Uncertain else if res.external then External else Open;
      records := records[res.identity := Record(rid, res, 0, prepared, state, before, {}, false, None)];
      var _ := GrantLease(res.identity);
    }

    /** Gives back the locks of an acquire that failed. */
    method Rollback(res: Resource, ghost before: map<Phys, Holder>)
      requires res.external ==> host.locks == before
      requires !res.external ==> CanLock(before, Ids(res)) && host.locks == LockAll(before, Ids(res), Holder(number, res.identity))
      modifies host`locks
      ensures host.locks == before
    {
      if !res.external {
        Restores(before, Ids(res), Holder(number, res.identity));
        host.UnlockEach(Ids(res));
      }
    }

    /** The rest of `acquire`. `opens`, `prep` and `cleanupOk` are what the drivers do. */
    method FinishAcquire(opens: bool, prep: Preparation, cleanupOk: bool) returns (granted: bool)
      requires acquiring.Some?
      modifies this, host
      ensures (host.View(), View()) == Finish(old(host.View()), old(View()), number, opens, prep, cleanupOk)
    {
      var a := acquiring.value;
      acquiring := None;
      if a.resource.identity in records {
        granted := PrepareRecord(a, prep);
      } else {
        granted := OpenRecord(a, opens, prep, cleanupOk);
      }
    }

    /** First part of a lease's `close`; `last` says that a close of the record is due. */
    method Release(key: Identity, token: nat) returns (last: bool)
      requires acquiring.None?
      modifies this`records, this`due
      ensures View() == Drop(old(View()), key, token)
      ensures last <==> due != old(due)
    {
      if key !in records || token !in records[key].leases {
        return false;
      }
      var r := records[key];
      r := r.(references := r.references - 1, leases := r.leases - {token});
      records := records[key := r];
      if r.references != 0 {
        return false;
      }
      due := due + multiset{r.rid};
      assert due[r.rid] == old(due)[r.rid] + 1;
      return true;
    }

    /** First part of a close; `starts` says that this caller runs the closer. */
    method CloseBegin(key: Identity, rid: nat) returns (starts: bool)
      requires acquiring.None? && rid in due
      modifies this`records, this`due
      ensures starts == Starts(old(View()), key, rid) && View() == BeginClose(old(View()), key, rid)
    {
      due := due - multiset{rid};
      if key !in records || records[key].rid != rid || records[key].closing {
        return false;
      }
      records := records[key := records[key].(closing := true, run := None)];
      return true;
    }

    /** The closer has returned or raised; runs without the manager's lock. */
    method CloserReturned(key: Identity, ok: bool)
      requires Runs(View(), key)
      modifies this, host
      ensures (host.View(), View()) == RunClose(old(host.View()), old(View()), key, ok)
    {
      var r := records[key];
      var ids := Ids(r.resource);
      var idset := set id | id in ids;
      if !ok {
        unresolved := unresolved + idset;
        var readable := host.MarkEach(ids);
        storeError := !readable;
        records := records[key := r.(state := Uncertain, run := Some(false))];
        return;
      }
      host.handles := host.handles - {r.rid};
      if !r.uncertainBefore {
        unresolved := unresolved - idset;
        var readable := host.ClearEach(ids);
        storeError := !readable;
        if !readable {
          records := records[key := r.(state := Uncertain, uncertainBefore := true, run := Some(false))];
          return;
        }
      }
      if !r.resource.external {
        host.UnlockEach(ids);
      }
      records := records[key := r.(run := Some(true))];
    }

    /** Last part of a close. */
    method CloseEnd(key: Identity)
      requires acquiring.None? && key in records && records[key].closing && records[key].run.Some?
      modifies this`records
      ensures View() == EndClose(old(View()), key)
    {
      var r := records[key];
      if r.run.value {
        records := records - {key};
      } else {
        records := records[key := r.(closing := false, run := None, references := 0, leases := {}, state := Uncertain)];
      }
    }

    method ReportUncertain(id: Identity) returns (persisted: bool)
      requires acquiring.None?
      modifies this, host`ledger
      ensures (host.View(), View()) == MarkUncertain(old(host.View()), old(View()), id)
      ensures persisted == old(host.ledger).readable
    {
      persisted := host.ledger.readable;
      storeError := !persisted;
      if !persisted {
        unresolved := unresolved + {id};
        return;
      }
      if id in records {
        var r := records[id];
        unresolved := unresolved + (set j | j in Ids(r.resource));
        var _ := host.MarkEach(Ids(r.resource));
        records := records[id := r.(state := Uncertain, uncertainBefore := true)];
      } else {
        unresolved := unresolved + {id};
        host.ledger := Mark(host.ledger, id);
      }
    }

    method VerifyCleared(id: Identity) returns (cleared: bool)
      requires acquiring.None?
      modifies this, host`ledger
      ensures (host.View(), View()) == ClearUncertainty(old(host.View()), old(View()), id)
      ensures cleared == old(host.ledger).readable
    {
      RefreshUnresolved();
      if storeError {
        return false;
      }
      unresolved := unresolved - {id};
      host.ledger := Clear(host.ledger, id);
      return true;
    }

    method CloseAll()
      requires acquiring.None?
      modifies this`closed, this`due
      ensures View() == Shutdown(old(View()))
    {
      closed := true;
      due := due + multiset(set key | key in records :: records[key].rid);
    }
  }
}
