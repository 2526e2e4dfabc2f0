/** What the device managers of one host promise over whole runs. */
module DeviceTheorems {
  import opened Wrappers
  import opened DeviceModel
  import opened DeviceRuns
  import opened DeviceProofs

  ghost function Reached(actions: seq<Action>): World {
    Run(INIT, actions)
  }

  lemma ReachedInv(actions: seq<Action>)
    ensures Inv(Reached(actions))
  {
    assert Inv(INIT);
    RunKeeps(INIT, actions);
  }

  // ----- exclusive ownership

  /** Any open value that Deploy owns has every physical key of its resource locked for its own record,
      so two of them, in one manager or in two, never share a physical key. */
  lemma OpenHandlesExclusive(actions: seq<Action>, r: nat, s: nat)
    requires r in Reached(actions).host.handles && !Reached(actions).host.handles[r].resource.external
    ensures var h := Reached(actions).host.handles[r];
      forall p | p in PhysSet(Ids(h.resource)) ::
        p in Reached(actions).host.locks && Reached(actions).host.locks[p] == Holder(h.manager, h.key)
    ensures s in Reached(actions).host.handles && s != r && !Reached(actions).host.handles[s].resource.external ==>
              PhysSet(Ids(Reached(actions).host.handles[r].resource)) !! PhysSet(Ids(Reached(actions).host.handles[s].resource))
  {
    ReachedInv(actions);
    HandleLocked(Reached(actions), r);
    if s in Reached(actions).host.handles && s != r && !Reached(actions).host.handles[s].resource.external {
      HandleLocked(Reached(actions), s);
    }
  }

  lemma HandleLocked(w: World, r: nat)
    requires Inv(w) && r in w.host.handles && !w.host.handles[r].resource.external
    ensures var h := w.host.handles[r];
      && h.manager in w.managers && h.key in w.managers[h.manager].records && w.managers[h.manager].records[h.key].rid == r
      && forall p | p in PhysSet(Ids(h.resource)) :: p in w.host.locks && w.host.locks[p] == Holder(h.manager, h.key)
  {
    var h := w.host.handles[r];
    assert LocalOk(w.host, h.manager, w.managers[h.manager]);
    assert RecordOk(w.host, h.manager, h.key, w.managers[h.manager]);
  }

  /** No lock leaks: a held lock belongs to a live manager's record whose value is not yet closed. */
  lemma LocksHaveRecords(actions: seq<Action>, p: Phys)
    requires p in Reached(actions).host.locks
    ensures var w, h := Reached(actions), Reached(actions).host.locks[p];
      && h.manager in w.managers && h.key in w.managers[h.manager].records
      && Live(w.managers[h.manager].records[h.key])
      && p in PhysSet(Ids(w.managers[h.manager].records[h.key].resource))
  {
    ReachedInv(actions);
    var w, h := Reached(actions), Reached(actions).host.locks[p];
    assert LocalOk(w.host, h.manager, w.managers[h.manager]);
  }

  // ----- references and leases

  /** The reference count of every record is its number of live leases, and a lease belongs to one record. */
  lemma ReferencesCountLeases(actions: seq<Action>, i: nat, j: Identity, k: Identity)
    requires i in Reached(actions).managers
    requires j in Reached(actions).managers[i].records && k in Reached(actions).managers[i].records
    ensures var m := Reached(actions).managers[i];
      && m.records[j].references == |m.records[j].leases|
      && (j != k ==> m.records[j].leases !! m.records[k].leases)
      && (forall t | t in m.records[j].leases :: t < m.nextToken)
  {
    ReachedInv(actions);
    var w := Reached(actions);
    assert LocalOk(w.host, i, w.managers[i]);
    assert RecordOk(w.host, i, j, w.managers[i]);
  }

  function Leases(m: Manager, key: Identity): set<nat> {
    if key in m.records then m.records[key].leases else {}
  }

  /** What a step of its manager may do to a record: add at most the next token to its leases, never
      reuse a token, keep its id, its resource and, once set, its mark. */
  predicate Continues(host: Host, m: Manager, m': Manager, key: Identity) {
    && m.nextToken <= m'.nextToken
    && Leases(m', key) <= Leases(m, key) + {m.nextToken}
    && (m.nextToken in Leases(m', key) ==> m.nextToken < m'.nextToken || m.nextToken in Leases(m, key))
    && (key in m'.records && m'.records[key].rid < host.nextRid ==>
          && key in m.records && m.records[key].rid == m'.records[key].rid && m.records[key].resource == m'.records[key].resource
          && (m.records[key].uncertainBefore ==> m'.records[key].uncertainBefore))
  }

  lemma BeginContinues(host: Host, m: Manager, key: Identity, res: Resource, prepare: bool, valuePrepared: bool)
    ensures Continues(host, m, Begin(m, host.ledger, res, prepare, valuePrepared), key)
  {
  }

  lemma FinishContinues(host: Host, m: Manager, key: Identity, i: nat, opens: bool, prep: Preparation, cleanupOk: bool)
    ensures Continues(host, m, Finish(host, m, i, opens, prep, cleanupOk).1, key)
  {
    if m.acquiring.Some? && m.acquiring.value.resource.identity !in m.records {
      OpenShape(host, m.(acquiring := None), i, m.acquiring.value, opens, prep, cleanupOk);
    }
  }

  lemma DropContinues(host: Host, m: Manager, key: Identity, k: Identity, token: nat)
    ensures Continues(host, m, Drop(m, k, token), key)
  {
  }

  lemma CloseContinues(host: Host, m: Manager, key: Identity, k: Identity, rid: nat)
    ensures Continues(host, m, BeginClose(m, k, rid), key) && Continues(host, m, Shutdown(m), key)
  {
  }

  lemma EndContinues(host: Host, m: Manager, key: Identity, k: Identity)
    ensures Continues(host, m, EndClose(m, k), key)
  {
  }

  lemma CloserContinues(host: Host, m: Manager, key: Identity, k: Identity, ok: bool)
    ensures Continues(host, m, RunClose(host, m, k, ok).1, key)
  {
  }

  lemma FaultContinues(host: Host, m: Manager, key: Identity, id: Identity)
    ensures Continues(host, m, MarkUncertain(host, m, id).1, key) && Continues(host, m, ClearUncertainty(host, m, id).1, key)
  {
  }

  lemma StepContinues(w: World, a: Action, i: nat, key: Identity)
    requires i in w.managers && i < w.nextManager && i in Next(w, a).managers
    ensures Continues(w.host, w.managers[i], Next(w, a).managers[i], key)
  {
    if !a.Start? && !a.LedgerReadable? && !a.Crash? && a.manager == i {
      var m := w.managers[i];
      match a
      case BeginAcquire(_, res, p, v) => BeginContinues(w.host, m, key, res, p, v);
      case FinishAcquire(_, o, p, c) => FinishContinues(w.host, m, key, i, o, p, c);
      case DropLease(_, k, t) => DropContinues(w.host, m, key, k, t);
      case CloseBegins(_, k, rid) => CloseContinues(w.host, m, key, k, rid);
      case CloserReturns(_, k, ok) => CloserContinues(w.host, m, key, k, ok);
      case CloseEnds(_, k) => EndContinues(w.host, m, key, k);
      case Report(_, id) => FaultContinues(w.host, m, key, id);
      case Verify(_, id) => FaultContinues(w.host, m, key, id);
      case Stop(_) => CloseContinues(w.host, m, key, key, 0);
    }
  }

  /** Manager numbers are not reused, so a manager that is alive later was alive all along. */
  lemma StillThere(w: World, a: Action, i: nat)
    requires i < w.nextManager && i in Next(w, a).managers
    ensures i in w.managers && i < Next(w, a).nextManager
  {
  }

  lemma {:induction false} AliveThroughout(w: World, actions: seq<Action>, i: nat)
    requires i < w.nextManager && i in Run(w, actions).managers
    ensures i in w.managers
    decreases |actions|
  {
    if actions != [] {
      NextManagerGrows(w, actions[0]);
      AliveThroughout(Next(w, actions[0]), actions[1..], i);
      StillThere(w, actions[0], i);
    }
  }

  lemma NextManagerGrows(w: World, a: Action)
    ensures w.nextManager <= Next(w, a).nextManager
  {
  }

  /** A token that is issued and not live stays dead: closing a lease again, at any later time, is no
      release, and a record whose leases have all gone only ever serves leases issued afterwards. */
  lemma {:induction false} OldTokensStayDead(w: World, actions: seq<Action>, i: nat, key: Identity, t: nat)
    requires i < w.nextManager && i in w.managers && i in Run(w, actions).managers
    requires t < w.managers[i].nextToken && t !in Leases(w.managers[i], key)
    ensures t < Run(w, actions).managers[i].nextToken && t !in Leases(Run(w, actions).managers[i], key)
    ensures Drop(Run(w, actions).managers[i], key, t) == Run(w, actions).managers[i]
    decreases |actions|
  {
    if actions != [] {
      var w1 := Next(w, actions[0]);
      NextManagerGrows(w, actions[0]);
      AliveThroughout(w1, actions[1..], i);
      StepContinues(w, actions[0], i, key);
      OldTokensStayDead(w1, actions[1..], i, key, t);
    }
  }

  // ----- closers

  /** In every run the closer of a record is entered only when it is not running, and while it runs its record
      counts as closing. */
  lemma OneCloserAtATime(actions: seq<Action>)
    ensures ClosersAlternate(Reached(actions).calls)
    ensures forall i, key | i in Reached(actions).managers && key in Reached(actions).managers[i].records
              && Busy(Reached(actions).calls, Reached(actions).managers[i].records[key].rid) ::
              Reached(actions).managers[i].records[key].closing
  {
    ReachedInv(actions);
    var w := Reached(actions);
    forall i, key | i in w.managers && key in w.managers[i].records && Busy(w.calls, w.managers[i].records[key].rid)
      ensures w.managers[i].records[key].closing
    {
      assert Runs(w.managers[i], key);
    }
  }

  // ----- worlds along a run

  /** The world after the first `n` actions. */
  ghost function At(actions: seq<Action>, n: nat): World {
    Reached(if n <= |actions| then actions[..n] else actions)
  }

  lemma AtStart(actions: seq<Action>)
    ensures At(actions, 0) == INIT
  {
  }

  lemma {:induction false} RunAppend(w: World, actions: seq<Action>, a: Action)
    ensures Run(w, actions + [a]) == Next(Run(w, actions), a)
    decreases |actions|
  {
    if actions == [] {
      assert Run(w, [a]) == Run(Next(w, a), []);
    } else {
      assert (actions + [a])[1..] == actions[1..] + [a];
      RunAppend(Next(w, actions[0]), actions[1..], a);
    }
  }

  lemma AtNext(actions: seq<Action>, n: nat)
    requires n < |actions|
    ensures At(actions, n + 1) == Next(At(actions, n), actions[n])
  {
    RunAppend(INIT, actions[..n], actions[n]);
    assert actions[..n + 1] == actions[..n] + [actions[n]];
  }

  lemma AtInv(actions: seq<Action>, n: nat)
    ensures Inv(At(actions, n))
  {
    ReachedInv(if n <= |actions| then actions[..n] else actions);
  }

  lemma {:induction false} RunJoin(w: World, a: seq<Action>, b: seq<Action>)
    ensures Run(w, a + b) == Run(Run(w, a), b)
    decreases |a|
  {
    if a == [] {
      assert a + b == b;
    } else {
      assert (a + b)[1..] == a[1..] + b;
      RunJoin(Next(w, a[0]), a[1..], b);
    }
  }

  lemma AtRest(actions: seq<Action>, j: nat, n: nat)
    requires j <= n <= |actions|
    ensures Run(At(actions, j), actions[j..n]) == At(actions, n)
  {
    RunJoin(INIT, actions[..j], actions[j..n]);
    assert actions[..n] == actions[..j] + actions[j..n];
  }

  lemma NextRidGrows(w: World, a: Action)
    ensures w.host.nextRid <= Next(w, a).host.nextRid
  {
  }

  /** A record that is there at the end of a run was there all along. */
  lemma {:induction false} RecordThere(w: World, actions: seq<Action>, i: nat, key: Identity, rid: nat)
    requires i < w.nextManager && rid < w.host.nextRid
    requires i in Run(w, actions).managers && key in Run(w, actions).managers[i].records
    requires Run(w, actions).managers[i].records[key].rid == rid
    ensures i in w.managers && key in w.managers[i].records && w.managers[i].records[key].rid == rid
    ensures w.managers[i].records[key].resource == Run(w, actions).managers[i].records[key].resource
    decreases |actions|
  {
    if actions != [] {
      NextManagerGrows(w, actions[0]);
      NextRidGrows(w, actions[0]);
      RecordThere(Next(w, actions[0]), actions[1..], i, key, rid);
      StillThere(w, actions[0], i);
      StepContinues(w, actions[0], i, key);
    }
  }

  /** Manager `i` has this very record under `key`. */
  predicate Has(w: World, i: nat, key: Identity, rid: nat) {
    i in w.managers && key in w.managers[i].records && w.managers[i].records[key].rid == rid
  }

  lemma HadIds(w: World, i: nat, key: Identity, rid: nat)
    requires Inv(w) && Has(w, i, key, rid)
    ensures i < w.nextManager && rid < w.host.nextRid
    ensures w.managers[i].records[key].resource.identity == key
    ensures w.managers[i].records[key].references == |w.managers[i].records[key].leases|
  {
    assert LocalOk(w.host, i, w.managers[i]);
    assert RecordOk(w.host, i, key, w.managers[i]);
  }

  lemma {:induction false} IdsGrow(w: World, actions: seq<Action>)
    ensures w.nextManager <= Run(w, actions).nextManager && w.host.nextRid <= Run(w, actions).host.nextRid
    decreases |actions|
  {
    if actions != [] {
      NextManagerGrows(w, actions[0]);
      NextRidGrows(w, actions[0]);
      IdsGrow(Next(w, actions[0]), actions[1..]);
    }
  }

  lemma HadIdsAt(actions: seq<Action>, n: nat, i: nat, key: Identity, rid: nat)
    requires Has(At(actions, n), i, key, rid)
    ensures i < At(actions, n).nextManager && rid < At(actions, n).host.nextRid
    ensures At(actions, n).managers[i].records[key].resource.identity == key
  {
    AtInv(actions, n);
    HadIds(At(actions, n), i, key, rid);
  }

  /** A record whose id was given out by step `k` and that is there at step `n` was there in between. */
  lemma HasBetween(actions: seq<Action>, k: nat, j: nat, n: nat, i: nat, key: Identity, rid: nat)
    requires k <= j <= n <= |actions| && Has(At(actions, n), i, key, rid)
    requires i < At(actions, k).nextManager && rid < At(actions, k).host.nextRid
    ensures Has(At(actions, j), i, key, rid)
    ensures At(actions, j).managers[i].records[key].resource == At(actions, n).managers[i].records[key].resource
  {
    AtRest(actions, k, j);
    IdsGrow(At(actions, k), actions[k..j]);
    AtRest(actions, j, n);
    RecordThere(At(actions, j), actions[j..n], i, key, rid);
  }
}
