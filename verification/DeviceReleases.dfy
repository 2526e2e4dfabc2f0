/** Which leases are live when a closer starts: over whole runs, from the release or shutdown that made the close
    due to the critical section that begins it. */
module DeviceReleases {
  import opened Wrappers
  import opened DeviceModel
  import opened DeviceRuns
  import opened DeviceProofs
  import opened DeviceTheorems
  import opened Histories

  // ----- the leases of a record over a run

  /** The step grants its manager's next token on a record that is open already. */
  predicate Grants(w: World, a: Action, i: nat, key: Identity) {
    && i in w.managers && key in w.managers[i].records
    && var m := w.managers[i];
       || (a.BeginAcquire? && a.manager == i && a.resource.identity == key && Distinct(Ids(a.resource)) && m.acquiring.None?
           && BeginReply(m, w.host.ledger, a.resource, a.prepare, a.valuePrepared).Granted?)
       || (a.FinishAcquire? && a.manager == i && m.acquiring.Some? && m.acquiring.value.resource.identity == key && a.prep.Prepared?)
  }

  predicate GrantsToken(w: World, a: Action, i: nat, key: Identity, t: nat) {
    Grants(w, a, i, key) && t == w.managers[i].nextToken
  }

  /** The step ends the lease: its holder closes it, or a close of the record that failed is finished. */
  predicate Releases(w: World, a: Action, i: nat, key: Identity, t: nat) {
    && i in w.managers && key in w.managers[i].records && w.managers[i].acquiring.None?
    && (a == DropLease(i, key, t) || (a == CloseEnds(i, key) && w.managers[i].records[key].closing && w.managers[i].records[key].run == Some(false)))
  }

  lemma BeginLeases(m: Manager, ledger: Ledger, res: Resource, prepare: bool, valuePrepared: bool, key: Identity, t: nat)
    requires key in m.records
    ensures var m' := Begin(m, ledger, res, prepare, valuePrepared);
      && key in m'.records
      && (t in m'.records[key].leases <==>
            || t in m.records[key].leases
            || (m.acquiring.None? && res.identity == key && BeginReply(m, ledger, res, prepare, valuePrepared).Granted? && t == m.nextToken))
  {
  }

  lemma FinishLeases(host: Host, m: Manager, i: nat, opens: bool, prep: Preparation, cleanupOk: bool, key: Identity, t: nat)
    requires key in m.records
    ensures var m' := Finish(host, m, i, opens, prep, cleanupOk).1;
      && key in m'.records
      && (t in m'.records[key].leases <==>
            || t in m.records[key].leases
            || (m.acquiring.Some? && m.acquiring.value.resource.identity == key && prep.Prepared? && t == m.nextToken))
  {
    if m.acquiring.Some? && m.acquiring.value.resource.identity !in m.records {
      OpenShape(host, m.(acquiring := None), i, m.acquiring.value, opens, prep, cleanupOk);
    }
  }

  lemma AcquireLeases(w: World, a: Action, i: nat, key: Identity, t: nat)
    requires (a.BeginAcquire? || a.FinishAcquire?) && a.manager == i && i in w.managers && key in w.managers[i].records
    ensures key in Next(w, a).managers[i].records
    ensures t in Next(w, a).managers[i].records[key].leases <==> t in w.managers[i].records[key].leases || GrantsToken(w, a, i, key, t)
  {
    if a.BeginAcquire? {
      BeginLeases(w.managers[i], w.host.ledger, a.resource, a.prepare, a.valuePrepared, key, t);
    } else {
      FinishLeases(w.host, w.managers[i], i, a.opens, a.prep, a.cleanupOk, key, t);
    }
  }

  lemma DropLeases(m: Manager, k: Identity, token: nat, key: Identity, t: nat)
    requires key in m.records
    ensures key in Drop(m, k, token).records
    ensures t in Drop(m, k, token).records[key].leases <==>
            t in m.records[key].leases && !(m.acquiring.None? && k == key && token == t)
  {
  }

  lemma EndLeases(m: Manager, k: Identity, key: Identity, t: nat)
    requires key in m.records && key in EndClose(m, k).records
    ensures t in EndClose(m, k).records[key].leases <==>
            t in m.records[key].leases && !(m.acquiring.None? && k == key && m.records[key].closing && m.records[key].run == Some(false))
  {
  }

  predicate SameLeases(m: Manager, m': Manager, key: Identity) {
    key in m.records && key in m'.records ==> m'.records[key].leases == m.records[key].leases
  }

  lemma ClosingLeases(m: Manager, k: Identity, rid: nat, key: Identity)
    ensures SameLeases(m, BeginClose(m, k, rid), key) && SameLeases(m, Shutdown(m), key)
  {
  }

  lemma CloserLeases(host: Host, m: Manager, k: Identity, ok: bool, key: Identity)
    ensures SameLeases(m, RunClose(host, m, k, ok).1, key)
  {
  }

  lemma FaultLeases(host: Host, m: Manager, id: Identity, key: Identity)
    ensures SameLeases(m, MarkUncertain(host, m, id).1, key) && SameLeases(m, ClearUncertainty(host, m, id).1, key)
  {
  }

  lemma OtherLeases(w: World, a: Action, i: nat, key: Identity, rid: nat, t: nat)
    requires !a.BeginAcquire? && !a.FinishAcquire? && Has(w, i, key, rid) && Has(Next(w, a), i, key, rid) && i < w.nextManager
    ensures t in Next(w, a).managers[i].records[key].leases <==> t in w.managers[i].records[key].leases && !Releases(w, a, i, key, t)
  {
    var m := w.managers[i];
    if a.Start? || a.LedgerReadable? || a.Crash? || a.manager != i {
      assert Next(w, a).managers[i] == m;
    } else {
      match a
      case DropLease(_, k, token) => DropLeases(m, k, token, key, t);
      case CloseEnds(_, k) => EndLeases(m, k, key, t);
      case CloseBegins(_, k, r) => ClosingLeases(m, k, r, key);
      case CloserReturns(_, k, ok) => CloserLeases(w.host, m, k, ok, key);
      case Stop(_) => ClosingLeases(m, key, 0, key);
      case Report(_, id) => FaultLeases(w.host, m, id, key);
      case Verify(_, id) => FaultLeases(w.host, m, id, key);
    }
  }

  lemma LeaseStep(w: World, a: Action, i: nat, key: Identity, rid: nat, t: nat)
    requires Has(w, i, key, rid) && Has(Next(w, a), i, key, rid) && i < w.nextManager
    ensures t in Next(w, a).managers[i].records[key].leases <==>
            !Releases(w, a, i, key, t) && (t in w.managers[i].records[key].leases || GrantsToken(w, a, i, key, t))
  {
    if (a.BeginAcquire? || a.FinishAcquire?) && a.manager == i {
      AcquireLeases(w, a, i, key, t);
    } else if !a.BeginAcquire? && !a.FinishAcquire? {
      OtherLeases(w, a, i, key, rid, t);
    }
  }

  ghost predicate Granted(actions: seq<Action>, j: nat, i: nat, key: Identity, t: nat) {
    j < |actions| && GrantsToken(At(actions, j), actions[j], i, key, t)
  }

  ghost predicate Released(actions: seq<Action>, j: nat, i: nat, key: Identity, t: nat) {
    j < |actions| && Releases(At(actions, j), actions[j], i, key, t)
  }

  ghost function GrantSteps(actions: seq<Action>, i: nat, key: Identity, t: nat): nat -> bool {
    (j: nat) => Granted(actions, j, i, key, t)
  }

  ghost function ReleaseSteps(actions: seq<Action>, i: nat, key: Identity, t: nat): nat -> bool {
    (j: nat) => Released(actions, j, i, key, t)
  }

  ghost predicate NotReleased(actions: seq<Action>, start: nat, n: nat, i: nat, key: Identity, t: nat) {
    Never(start, n, ReleaseSteps(actions, i, key, t))
  }

  ghost predicate Holds(w: World, i: nat, key: Identity, t: nat) {
    i in w.managers && key in w.managers[i].records && t in w.managers[i].records[key].leases
  }

  lemma LeaseStepAt(actions: seq<Action>, start: nat, j: nat, n: nat, i: nat, key: Identity, rid: nat, t: nat)
    requires start <= j < n <= |actions| && Has(At(actions, start), i, key, rid) && Has(At(actions, n), i, key, rid)
    ensures Holds(At(actions, j + 1), i, key, t) <==>
            !Released(actions, j, i, key, t) && (Holds(At(actions, j), i, key, t) || Granted(actions, j, i, key, t))
  {
    HadIdsAt(actions, start, i, key, rid);
    HasBetween(actions, start, j, n, i, key, rid);
    HasBetween(actions, start, j + 1, n, i, key, rid);
    AtNext(actions, j);
    HadIdsAt(actions, j, i, key, rid);
    LeaseStep(At(actions, j), actions[j], i, key, rid, t);
  }

  /** While a record is there, a token is live exactly if it was and has not been released, or it has been
      granted on this record and not released since. */
  lemma LeaseIff(actions: seq<Action>, start: nat, n: nat, i: nat, key: Identity, rid: nat, t: nat)
    requires start <= n <= |actions| && Has(At(actions, start), i, key, rid) && Has(At(actions, n), i, key, rid)
    ensures Holds(At(actions, n), i, key, t) <==>
            Stands(start, n, Holds(At(actions, start), i, key, t), GrantSteps(actions, i, key, t), ReleaseSteps(actions, i, key, t))
  {
    var on := (j: nat) => Holds(At(actions, j), i, key, t);
    var sets, clears := GrantSteps(actions, i, key, t), ReleaseSteps(actions, i, key, t);
    forall j: nat | start <= j < n
      ensures on(j + 1) == (!clears(j) && (on(j) || sets(j)))
    {
      LeaseStepAt(actions, start, j, n, i, key, rid, t);
    }
    FlagIff(start, n, on, sets, clears);
  }

  // ----- what makes a close due

  /** Step `k` releases the record's last lease. */
  ghost predicate LastReleased(actions: seq<Action>, k: nat, i: nat, key: Identity, rid: nat) {
    && k < |actions| && actions[k].DropLease? && actions[k].manager == i && actions[k].key == key
    && Has(At(actions, k), i, key, rid) && DropsLast(At(actions, k).managers[i], key, actions[k].token)
  }

  predicate DropsLast(m: Manager, key: Identity, token: nat) {
    && m.acquiring.None? && key in m.records && token in m.records[key].leases && m.records[key].references == 1
  }

  /** Step `k` shuts the manager down while it has the record. */
  ghost predicate ShutDownAt(actions: seq<Action>, k: nat, i: nat, key: Identity, rid: nat) {
    && k < |actions| && actions[k] == Stop(i) && Has(At(actions, k), i, key, rid) && At(actions, k).managers[i].acquiring.None?
  }

  predicate MadeDue(w: World, a: Action, i: nat, key: Identity, rid: nat) {
    && Has(w, i, key, rid)
    && ((a.DropLease? && a.manager == i && a.key == key && DropsLast(w.managers[i], key, a.token))
        || (a == Stop(i) && w.managers[i].acquiring.None?))
  }

  lemma DropDue(m: Manager, key: Identity, token: nat, rid: nat)
    requires rid in Drop(m, key, token).due && rid !in m.due
    ensures DropsLast(m, key, token) && m.records[key].rid == rid
  {
  }

  lemma StopDue(m: Manager, rid: nat) returns (key: Identity)
    requires rid in Shutdown(m).due && rid !in m.due
    ensures m.acquiring.None? && key in m.records && m.records[key].rid == rid
  {
    var rids := set k | k in m.records :: m.records[k].rid;
    assert rid in multiset(rids);
    assert rid in rids;
    key :| key in m.records && m.records[key].rid == rid;
  }

  lemma OpeningKeepsDue(host: Host, m: Manager, i: nat, opens: bool, prep: Preparation, cleanupOk: bool)
    ensures Finish(host, m, i, opens, prep, cleanupOk).1.due == m.due
  {
  }

  lemma OthersKeepDue(host: Host, m: Manager, key: Identity, ok: bool)
    ensures RunClose(host, m, key, ok).1.due == m.due && EndClose(m, key).due == m.due
    ensures MarkUncertain(host, m, key).1.due == m.due && ClearUncertainty(host, m, key).1.due == m.due
  {
  }

  lemma DueStep(w: World, a: Action, i: nat, rid: nat) returns (key: Identity)
    requires i in Next(w, a).managers && rid in Next(w, a).managers[i].due
    requires !(i in w.managers && rid in w.managers[i].due)
    ensures MadeDue(w, a, i, key, rid)
  {
    assert i in w.managers && !a.Start? && !a.LedgerReadable? && !a.Crash? && a.manager == i;
    var m := w.managers[i];
    if a.DropLease? {
      key := a.key;
      DropDue(m, key, a.token, rid);
    } else if a.Stop? {
      key := StopDue(m, rid);
    } else {
      match a
      case FinishAcquire(_, opens, prep, cleanupOk) => OpeningKeepsDue(w.host, m, i, opens, prep, cleanupOk);
      case CloserReturns(_, k, ok) => OthersKeepDue(w.host, m, k, ok);
      case CloseEnds(_, k) => OthersKeepDue(w.host, m, k, true);
      case Report(_, id) => OthersKeepDue(w.host, m, id, true);
      case Verify(_, id) => OthersKeepDue(w.host, m, id, true);
      case _ =>
    }
  }

  lemma OneKeyForRid(w: World, i: nat, j: Identity, k: Identity, rid: nat)
    requires Inv(w) && Has(w, i, j, rid) && Has(w, i, k, rid)
    ensures j == k
  {
    assert LocalOk(w.host, i, w.managers[i]);
  }

  /** Every close that is due was made due by a release of the last lease or by a shutdown. */
  lemma {:induction false} DueHasCause(actions: seq<Action>, n: nat, i: nat, key: Identity, rid: nat) returns (k: nat)
    requires n <= |actions| && Has(At(actions, n), i, key, rid) && rid in At(actions, n).managers[i].due
    ensures k < n && (LastReleased(actions, k, i, key, rid) || ShutDownAt(actions, k, i, key, rid))
    decreases n
  {
    k := DueEarlier(actions, n, n, i, key, rid);
  }

  lemma CauseAt(actions: seq<Action>, k: nat, n: nat, i: nat, key: Identity, found: Identity, rid: nat)
    requires k < n <= |actions| && Has(At(actions, n), i, key, rid) && MadeDue(At(actions, k), actions[k], i, found, rid)
    ensures LastReleased(actions, k, i, key, rid) || ShutDownAt(actions, k, i, key, rid)
  {
    AtInv(actions, k);
    HadIds(At(actions, k), i, found, rid);
    HasBetween(actions, k, k, n, i, key, rid);
    OneKeyForRid(At(actions, k), i, key, found, rid);
  }

  lemma {:induction false} DueEarlier(actions: seq<Action>, j: nat, n: nat, i: nat, key: Identity, rid: nat) returns (k: nat)
    requires j <= n <= |actions| && Has(At(actions, n), i, key, rid)
    requires i in At(actions, j).managers && rid in At(actions, j).managers[i].due
    ensures k < j && (LastReleased(actions, k, i, key, rid) || ShutDownAt(actions, k, i, key, rid))
    decreases j
  {
    AtStart(actions);
    AtNext(actions, j - 1);
    var w := At(actions, j - 1);
    if i in w.managers && rid in w.managers[i].due {
      k := DueEarlier(actions, j - 1, n, i, key, rid);
    } else {
      var found := DueStep(w, actions[j - 1], i, rid);
      k := j - 1;
      CauseAt(actions, k, n, i, key, found, rid);
    }
  }

  // ----- the leases at the start of the closer

  lemma DropEmpties(w: World, i: nat, key: Identity, token: nat)
    requires Inv(w) && i in w.managers && DropsLast(w.managers[i], key, token)
    ensures var m' := Next(w, DropLease(i, key, token)).managers[i]; key in m'.records && m'.records[key].leases == {}
  {
    var m := w.managers[i];
    assert LocalOk(w.host, i, m) && RecordOk(w.host, i, key, m);
    DropSingle(m, key, token);
    assert Next(w, DropLease(i, key, token)).managers[i] == Drop(m, key, token);
  }

  lemma DropSingle(m: Manager, key: Identity, token: nat)
    requires DropsLast(m, key, token) && |m.records[key].leases| == 1
    ensures key in Drop(m, key, token).records && Drop(m, key, token).records[key].leases == {}
  {
    SingleLease(m.records[key].leases, token);
  }

  lemma SingleLease(s: set<nat>, t: nat)
    requires |s| == 1 && t in s
    ensures s - {t} == {}
  {
    assert |s - {t}| == 0;
  }

  ghost predicate GrantedSince(actions: seq<Action>, k: nat, n: nat, i: nat, key: Identity, t: nat) {
    Stands(k + 1, n, false, GrantSteps(actions, i, key, t), ReleaseSteps(actions, i, key, t))
  }

  /** Some token granted on the record since step `k` has not been released. */
  ghost predicate LeasedSince(actions: seq<Action>, k: nat, n: nat, i: nat, key: Identity) {
    exists t: nat :: GrantedSince(actions, k, n, i, key, t)
  }

  /** Some lease that was live at step `k` has not been released. */
  ghost predicate LeasedAcross(actions: seq<Action>, k: nat, n: nat, i: nat, key: Identity) {
    exists t: nat :: Holds(At(actions, k), i, key, t) && NotReleased(actions, k, n, i, key, t)
  }

  /** From the release of a record's last lease on, it has a live lease exactly if one was granted since and
      not released. */
  lemma LeasedAfterRelease(actions: seq<Action>, k: nat, n: nat, i: nat, key: Identity, rid: nat)
    requires k < n <= |actions| && LastReleased(actions, k, i, key, rid) && Has(At(actions, n), i, key, rid)
    ensures At(actions, n).managers[i].records[key].leases != {} <==> LeasedSince(actions, k, n, i, key)
  {
    AtInv(actions, k);
    AtNext(actions, k);
    DropEmpties(At(actions, k), i, key, actions[k].token);
    HadIds(At(actions, k), i, key, rid);
    HasBetween(actions, k, k + 1, n, i, key, rid);
    forall t: nat
      ensures Holds(At(actions, n), i, key, t) <==> GrantedSince(actions, k, n, i, key, t)
    {
      LeaseIff(actions, k + 1, n, i, key, rid, t);
    }
    if At(actions, n).managers[i].records[key].leases != {} {
      var t :| t in At(actions, n).managers[i].records[key].leases;
      assert Holds(At(actions, n), i, key, t);
    }
    if LeasedSince(actions, k, n, i, key) {
      var t: nat :| GrantedSince(actions, k, n, i, key, t);
      assert Holds(At(actions, n), i, key, t);
    }
  }

  predicate ShutDown(w: World, i: nat) {
    i in w.managers ==> w.managers[i].closed && w.managers[i].acquiring.None?
  }

  lemma ShutDownStays(w: World, a: Action, i: nat, key: Identity)
    requires ShutDown(w, i) && i < w.nextManager
    ensures ShutDown(Next(w, a), i) && !Grants(w, a, i, key)
  {
  }

  lemma StopsShut(w: World, i: nat)
    requires Inv(w) && i in w.managers && w.managers[i].acquiring.None?
    ensures ShutDown(Next(w, Stop(i)), i) && i < Next(w, Stop(i)).nextManager
  {
  }

  lemma {:induction false} StaysShut(actions: seq<Action>, k: nat, n: nat, i: nat)
    requires k < n <= |actions| && actions[k] == Stop(i) && i in At(actions, k).managers && At(actions, k).managers[i].acquiring.None?
    ensures ShutDown(At(actions, n), i) && i < At(actions, n).nextManager
    decreases n
  {
    AtNext(actions, n - 1);
    if n - 1 == k {
      AtInv(actions, k);
      StopsShut(At(actions, k), i);
    } else {
      StaysShut(actions, k, n - 1, i);
      NextManagerGrows(At(actions, n - 1), actions[n - 1]);
      ShutDownStays(At(actions, n - 1), actions[n - 1], i, Identity("", "", ""));
    }
  }

  lemma ShutDownGrantsNothing(actions: seq<Action>, k: nat, n: nat, i: nat, key: Identity, t: nat)
    requires k < n <= |actions| && actions[k] == Stop(i) && i in At(actions, k).managers && At(actions, k).managers[i].acquiring.None?
    ensures !exists j: nat :: k <= j && LastOn(n, GrantSteps(actions, i, key, t), ReleaseSteps(actions, i, key, t), j)
  {
    forall j: nat | k <= j < n
      ensures !GrantSteps(actions, i, key, t)(j)
    {
      if j > k {
        StaysShut(actions, k, j, i);
        ShutDownStays(At(actions, j), actions[j], i, key);
      }
    }
  }

  /** After a shutdown a record has a live lease exactly if one that was live then has not been released. */
  lemma LeasedAfterShutDown(actions: seq<Action>, k: nat, n: nat, i: nat, key: Identity, rid: nat)
    requires k < n <= |actions| && ShutDownAt(actions, k, i, key, rid) && Has(At(actions, n), i, key, rid)
    ensures At(actions, n).managers[i].records[key].leases != {} <==> LeasedAcross(actions, k, n, i, key)
  {
    forall t: nat
      ensures Holds(At(actions, n), i, key, t) <==> Holds(At(actions, k), i, key, t) && NotReleased(actions, k, n, i, key, t)
    {
      LeaseIff(actions, k, n, i, key, rid, t);
      ShutDownGrantsNothing(actions, k, n, i, key, t);
    }
    if At(actions, n).managers[i].records[key].leases != {} {
      var t :| t in At(actions, n).managers[i].records[key].leases;
      assert Holds(At(actions, n), i, key, t);
    }
    if LeasedAcross(actions, k, n, i, key) {
      var t: nat :| Holds(At(actions, k), i, key, t) && NotReleased(actions, k, n, i, key, t);
      assert Holds(At(actions, n), i, key, t);
    }
  }

  /** Whenever a closer starts in any run, its close was made due by an earlier step `k`, whatever happened in
      between. If that step released the last lease, the closer starts under a live lease exactly if some lease
      granted on the record since has not been released; if it shut the manager down, exactly if some lease that
      was live then has not been released. */
  lemma CloserStartsLeasedIff(actions: seq<Action>, n: nat, i: nat, key: Identity, rid: nat) returns (k: nat)
    requires n < |actions| && actions[n] == CloseBegins(i, key, rid)
    requires i in At(actions, n).managers && Starts(At(actions, n).managers[i], key, rid)
    ensures k < n && (LastReleased(actions, k, i, key, rid) || ShutDownAt(actions, k, i, key, rid))
    ensures At(actions, n + 1).calls == At(actions, n).calls + [CloserIn(i, rid)]
    ensures LastReleased(actions, k, i, key, rid) ==>
              (At(actions, n).managers[i].records[key].leases != {} <==> LeasedSince(actions, k, n, i, key))
    ensures ShutDownAt(actions, k, i, key, rid) ==>
              (At(actions, n).managers[i].records[key].leases != {} <==> LeasedAcross(actions, k, n, i, key))
  {
    AtNext(actions, n);
    k := DueHasCause(actions, n, i, key, rid);
    if LastReleased(actions, k, i, key, rid) {
      LeasedAfterRelease(actions, k, n, i, key, rid);
    } else {
      LeasedAfterShutDown(actions, k, n, i, key, rid);
    }
  }

  // ----- while a closer runs

  /** The record's close is not finished, and no acquire of it is under way. */
  predicate Refuses(m: Manager, key: Identity) {
    && key in m.records && m.records[key].closing
    && (m.acquiring.Some? ==> m.acquiring.value.resource.identity != key)
  }

  predicate FinishesClose(m: Manager, key: Identity) {
    m.acquiring.None? && key in m.records && m.records[key].closing && m.records[key].run.Some?
  }

  lemma AcquireRefused(host: Host, m: Manager, i: nat, res: Resource, prepare: bool, v: bool, opens: bool, prep: Preparation, c: bool, key: Identity)
    requires Refuses(m, key)
    ensures Refuses(Begin(m, host.ledger, res, prepare, v), key) && Refuses(Finish(host, m, i, opens, prep, c).1, key)
  {
    if m.acquiring.Some? && m.acquiring.value.resource.identity !in m.records {
      OpenShape(host, m.(acquiring := None), i, m.acquiring.value, opens, prep, c);
    }
  }

  lemma ReleaseRefuses(m: Manager, k: Identity, rid: nat, token: nat, key: Identity)
    requires Refuses(m, key)
    ensures Refuses(BeginClose(m, k, rid), key) && Refuses(Drop(m, k, token), key) && Refuses(Shutdown(m), key)
  {
  }

  lemma CloserRefuses(host: Host, m: Manager, k: Identity, ok: bool, key: Identity)
    requires Refuses(m, key)
    ensures Refuses(RunClose(host, m, k, ok).1, key)
  {
  }

  lemma EndRefuses(m: Manager, k: Identity, key: Identity)
    requires Refuses(m, key) && !(k == key && FinishesClose(m, key))
    ensures Refuses(EndClose(m, k), key)
  {
  }

  lemma FaultRefuses(host: Host, m: Manager, id: Identity, key: Identity)
    requires Refuses(m, key)
    ensures Refuses(MarkUncertain(host, m, id).1, key) && Refuses(ClearUncertainty(host, m, id).1, key)
  {
  }

  lemma RefusesStep(w: World, a: Action, i: nat, key: Identity)
    requires i in w.managers && i < w.nextManager && i in Next(w, a).managers && Refuses(w.managers[i], key)
    requires !(a == CloseEnds(i, key) && FinishesClose(w.managers[i], key))
    ensures Refuses(Next(w, a).managers[i], key)
  {
    var m := w.managers[i];
    if !a.Start? && !a.LedgerReadable? && !a.Crash? && a.manager == i {
      match a
      case BeginAcquire(_, res, p, v) => AcquireRefused(w.host, m, i, res, p, v, false, Prepared, false, key);
      case FinishAcquire(_, o, p, c) =>
        if m.acquiring.Some? {
          AcquireRefused(w.host, m, i, m.acquiring.value.resource, false, false, o, p, c, key);
        }
      case DropLease(_, k, t) => ReleaseRefuses(m, k, 0, t, key);
      case CloseBegins(_, k, r) => ReleaseRefuses(m, k, r, 0, key);
      case CloserReturns(_, k, ok) => CloserRefuses(w.host, m, k, ok, key);
      case CloseEnds(_, k) => EndRefuses(m, k, key);
      case Stop(_) => ReleaseRefuses(m, key, 0, 0, key);
      case Report(_, id) => FaultRefuses(w.host, m, id, key);
      case Verify(_, id) => FaultRefuses(w.host, m, id, key);
    }
  }

  lemma RefusesGrantsNothing(w: World, a: Action, i: nat, key: Identity)
    requires i in w.managers && Refuses(w.managers[i], key)
    ensures !Grants(w, a, i, key)
  {
  }

  lemma StartRefuses(w: World, i: nat, key: Identity, rid: nat)
    requires i in w.managers && Starts(w.managers[i], key, rid)
    ensures i in Next(w, CloseBegins(i, key, rid)).managers && Refuses(Next(w, CloseBegins(i, key, rid)).managers[i], key)
  {
  }

  /** No step from `k` to before `n` finished the record's close. */
  ghost predicate Unfinished(actions: seq<Action>, k: nat, n: nat, i: nat, key: Identity) {
    forall j: nat | k <= j < n && j < |actions| && i in At(actions, j).managers ::
      !(actions[j] == CloseEnds(i, key) && FinishesClose(At(actions, j).managers[i], key))
  }

  lemma {:induction false} RefusesUntilFinished(actions: seq<Action>, k: nat, n: nat, i: nat, key: Identity, rid: nat)
    requires k < n <= |actions| && actions[k] == CloseBegins(i, key, rid) && Has(At(actions, n), i, key, rid)
    requires i in At(actions, k).managers && Starts(At(actions, k).managers[i], key, rid) && Unfinished(actions, k + 1, n, i, key)
    ensures Refuses(At(actions, n).managers[i], key)
    decreases n
  {
    if n - 1 == k {
      AtNext(actions, k);
      StartRefuses(At(actions, k), i, key, rid);
    } else {
      HadIdsAt(actions, k, i, key, rid);
      HasBetween(actions, k, n - 1, n, i, key, rid);
      RefusesUntilFinished(actions, k, n - 1, i, key, rid);
      RefusesLater(actions, n - 1, i, key, rid);
    }
  }

  lemma RefusesLater(actions: seq<Action>, j: nat, i: nat, key: Identity, rid: nat)
    requires j < |actions| && Has(At(actions, j), i, key, rid) && Has(At(actions, j + 1), i, key, rid)
    requires Refuses(At(actions, j).managers[i], key)
    requires !(actions[j] == CloseEnds(i, key) && FinishesClose(At(actions, j).managers[i], key))
    ensures Refuses(At(actions, j + 1).managers[i], key)
  {
    AtNext(actions, j);
    HadIdsAt(actions, j, i, key, rid);
    RefusesStep(At(actions, j), actions[j], i, key);
  }

  lemma NothingGrantedAt(actions: seq<Action>, k: nat, j: nat, n: nat, i: nat, key: Identity, rid: nat)
    requires k <= j < n <= |actions| && actions[k] == CloseBegins(i, key, rid) && Has(At(actions, n), i, key, rid)
    requires i in At(actions, k).managers && Starts(At(actions, k).managers[i], key, rid) && Unfinished(actions, k + 1, n, i, key)
    ensures !Grants(At(actions, j), actions[j], i, key)
  {
    if j > k {
      HadIdsAt(actions, k, i, key, rid);
      HasBetween(actions, k, j, n, i, key, rid);
      RefusesUntilFinished(actions, k, j, i, key, rid);
      RefusesGrantsNothing(At(actions, j), actions[j], i, key);
    }
  }

  /** From the start of a closer until its close is finished, whatever happens in between, no acquire gets a
      lease of the record: every lease it has was live when the closer started. */
  lemma ClosingGrantsNothing(actions: seq<Action>, k: nat, n: nat, i: nat, key: Identity, rid: nat)
    requires k < n <= |actions| && actions[k] == CloseBegins(i, key, rid) && Has(At(actions, n), i, key, rid)
    requires i in At(actions, k).managers && Starts(At(actions, k).managers[i], key, rid) && Unfinished(actions, k + 1, n, i, key)
    ensures forall j: nat | k <= j < n :: !Grants(At(actions, j), actions[j], i, key)
    ensures At(actions, n).managers[i].records[key].leases <= At(actions, k).managers[i].records[key].leases
  {
    forall j: nat | k <= j < n
      ensures !Grants(At(actions, j), actions[j], i, key)
    {
      NothingGrantedAt(actions, k, j, n, i, key, rid);
    }
    forall t: nat | Holds(At(actions, n), i, key, t)
      ensures Holds(At(actions, k), i, key, t)
    {
      LeaseIff(actions, k, n, i, key, rid, t);
      if j: nat :| k <= j && LastOn(n, GrantSteps(actions, i, key, t), ReleaseSteps(actions, i, key, t), j) {
        assert !Grants(At(actions, j), actions[j], i, key);
      }
    }
    forall t | t in At(actions, n).managers[i].records[key].leases
      ensures t in At(actions, k).managers[i].records[key].leases
    {
      assert Holds(At(actions, n), i, key, t);
    }
  }

  // ----- particular runs

  /** The release that drops the last lease starts the closer with no lease alive, if the two critical
      sections follow each other directly and no other close of the record is due. */
  lemma AtomicReleaseClosesUnused(w: World, i: nat, key: Identity, token: nat, rid: nat)
    requires Inv(w) && i in w.managers && rid !in w.managers[i].due
    requires i in Next(w, DropLease(i, key, token)).managers && Starts(Next(w, DropLease(i, key, token)).managers[i], key, rid)
    ensures Next(w, DropLease(i, key, token)).managers[i].records[key].leases == {}
  {
    DropDue(w.managers[i], key, token, rid);
    DropEmpties(w, i, key, token);
  }

  /** Manager 0 has one open record, with these leases and these closes due. */
  predicate OneOpen(w: World, res: Resource, leases: set<nat>, due: multiset<nat>) {
    && w.nextManager == 1 && 0 in w.managers && w.managers[0].records.Keys == {res.identity}
    && !w.managers[0].closed && w.managers[0].acquiring.None?
    && w.managers[0].nextToken == 1 + |leases| + |due|
    && w.managers[0].due == due
    && w.managers[0].records[res.identity] == Record(0, res, |leases|, false, Open, false, leases, false, None)
    && w.host.ledger == Ledger({}, true) && w.host.nextRid == 1 && w.managers[0].node == "n"
  }

  lemma OpenOne(res: Resource) returns (actions: seq<Action>)
    requires res.components == [] && !res.external
    ensures OneOpen(Reached(actions), res, {1}, multiset{})
  {
    var a1, a2, a3 := Start("n"), BeginAcquire(0, res, false, false), FinishAcquire(0, true, Prepared, true);
    actions := [a1] + [a2] + [a3];
    RunAppend(INIT, [], a1);
    assert [] + [a1] == [a1];
    RunAppend(INIT, [a1], a2);
    RunAppend(INIT, [a1] + [a2], a3);
    var w1 := Next(INIT, a1);
    var w2 := Next(w1, a2);
    assert w2.managers[0].acquiring == Some(Attempt(res, false, Ledger({}, true)));
    assert CanLock(w2.host.locks, Ids(res));
  }

  /** When another acquire slips between those two critical sections, the closer starts under its live
      lease. */
  lemma AcquireCanSlipBeforeClose(res: Resource)
    requires res.components == [] && !res.external
    ensures exists actions, key, rid :: 0 in Reached(actions).managers && Starts(Reached(actions).managers[0], key, rid)
              && Reached(actions).managers[0].records[key].leases != {}
  {
    var actions := OpenOne(res);
    var drop, again := DropLease(0, res.identity, 1), BeginAcquire(0, res, false, false);
    RunAppend(INIT, actions, drop);
    RunAppend(INIT, actions + [drop], again);
    var w1 := Next(Reached(actions), drop);
    assert OneOpen(w1, res, {}, multiset{0});
    var w2 := Next(w1, again);
    assert w2 == Reached(actions + [drop] + [again]);
    assert w2.managers[0].records[res.identity].leases == {2};
    assert Starts(w2.managers[0], res.identity, 0);
  }

  /** A shutdown starts the closer under a live lease with nothing in between. */
  lemma ShutDownClosesUnderLease(res: Resource)
    requires res.components == [] && !res.external
    ensures exists actions, key, rid :: 0 in Reached(actions + [Stop(0)]).managers
              && Starts(Reached(actions + [Stop(0)]).managers[0], key, rid)
              && Reached(actions + [Stop(0)]).managers[0].records[key].leases != {}
  {
    var actions := OpenOne(res);
    RunAppend(INIT, actions, Stop(0));
    var m := Reached(actions).managers[0];
    assert res.identity in m.records && m.records[res.identity].rid == 0;
    assert 0 in (set k | k in m.records :: m.records[k].rid);
    assert Starts(Reached(actions + [Stop(0)]).managers[0], res.identity, 0);
  }
}
