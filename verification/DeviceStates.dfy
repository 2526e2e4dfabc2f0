/** What the ledger file and the records' states look like in every run. */
module DeviceStates {
  import opened Wrappers
  import opened DeviceModel
  import opened DeviceRuns
  import opened DeviceTheorems

  // ----- one entry for each physical key

  predicate OnePerKey(ledger: Ledger) {
    forall f, g | f in ledger.faults && g in ledger.faults && PhysOf(f) == PhysOf(g) :: f == g
  }

  lemma MarkKeepsOne(ledger: Ledger, id: Identity)
    requires OnePerKey(ledger)
    ensures OnePerKey(Mark(ledger, id)) && OnePerKey(Clear(ledger, id))
    ensures ledger.readable ==> id in Mark(ledger, id).faults
  {
  }

  lemma {:induction false} MarkAllKeepsOne(ledger: Ledger, ids: seq<Identity>)
    requires OnePerKey(ledger)
    ensures OnePerKey(MarkAll(ledger, ids))
    decreases |ids|
  {
    if ids != [] {
      MarkKeepsOne(ledger, ids[0]);
      MarkAllKeepsOne(Mark(ledger, ids[0]), ids[1..]);
    }
  }

  lemma {:induction false} ClearAllKeepsOne(ledger: Ledger, ids: seq<Identity>)
    requires OnePerKey(ledger)
    ensures OnePerKey(ClearAll(ledger, ids))
    decreases |ids|
  {
    if ids != [] {
      MarkKeepsOne(ledger, ids[0]);
      ClearAllKeepsOne(Clear(ledger, ids[0]), ids[1..]);
    }
  }

  lemma FinishKeepsOne(host: Host, m: Manager, i: nat, opens: bool, prep: Preparation, cleanupOk: bool)
    requires OnePerKey(host.ledger)
    ensures OnePerKey(Finish(host, m, i, opens, prep, cleanupOk).0.ledger)
  {
    if m.acquiring.Some? {
      var res := m.acquiring.value.resource;
      MarkAllKeepsOne(host.ledger, Ids(res));
      if res.identity in m.records {
        MarkAllKeepsOne(host.ledger, Ids(m.records[res.identity].resource));
      }
    }
  }

  lemma CloseKeepsOne(host: Host, m: Manager, key: Identity, ok: bool)
    requires OnePerKey(host.ledger)
    ensures OnePerKey(RunClose(host, m, key, ok).0.ledger)
  {
    if key in m.records {
      MarkAllKeepsOne(host.ledger, Ids(m.records[key].resource));
      ClearAllKeepsOne(host.ledger, Ids(m.records[key].resource));
    }
  }

  lemma OwnerKeepsOne(host: Host, m: Manager, id: Identity)
    requires OnePerKey(host.ledger)
    ensures OnePerKey(MarkUncertain(host, m, id).0.ledger) && OnePerKey(ClearUncertainty(host, m, id).0.ledger)
  {
    MarkKeepsOne(host.ledger, id);
    if id in m.records {
      MarkAllKeepsOne(host.ledger, Ids(m.records[id].resource));
    }
  }

  lemma NextKeepsOne(w: World, a: Action)
    requires OnePerKey(w.host.ledger)
    ensures OnePerKey(Next(w, a).host.ledger)
  {
    if !a.Start? && !a.LedgerReadable? && !a.Crash? && a.manager in w.managers {
      var m := w.managers[a.manager];
      match a
      case FinishAcquire(i, opens, prep, c) => FinishKeepsOne(w.host, m, i, opens, prep, c);
      case CloserReturns(_, key, ok) => CloseKeepsOne(w.host, m, key, ok);
      case Report(_, id) => OwnerKeepsOne(w.host, m, id);
      case Verify(_, id) => OwnerKeepsOne(w.host, m, id);
      case _ =>
    }
  }

  lemma {:induction false} RunKeepsOne(w: World, actions: seq<Action>)
    requires OnePerKey(w.host.ledger)
    ensures OnePerKey(Run(w, actions).host.ledger)
    decreases |actions|
  {
    if actions != [] {
      NextKeepsOne(w, actions[0]);
      RunKeepsOne(Next(w, actions[0]), actions[1..]);
    }
  }

  /** In every run the ledger has at most one entry for a physical key, under the label it was last marked with. */
  lemma LedgerHasOneEach(actions: seq<Action>, f: Identity, g: Identity)
    requires f in Reached(actions).host.ledger.faults && g in Reached(actions).host.ledger.faults
    ensures PhysOf(f) == PhysOf(g) ==> f == g
  {
    RunKeepsOne(INIT, actions);
  }

  // ----- the state of a record

  /** A record that is not uncertain is external exactly if its resource is. */
  predicate Fits(r: Record) {
    r.state == Uncertain || r.state == if r.resource.external then External else Open
  }

  predicate StateFits(m: Manager) {
    forall key | key in m.records :: Fits(m.records[key])
  }

  lemma BeginFits(m: Manager, ledger: Ledger, res: Resource, p: bool, v: bool)
    requires StateFits(m)
    ensures StateFits(Begin(m, ledger, res, p, v))
  {
    assert res.identity in m.records ==> Fits(m.records[res.identity]);
  }

  lemma PrepareFits(host: Host, m: Manager, a: Attempt, prep: Preparation)
    requires StateFits(m) && a.resource.identity in m.records
    ensures StateFits(PrepareExisting(host, m, a, prep).1)
  {
    assert Fits(m.records[a.resource.identity]);
  }

  lemma OpenFits(host: Host, m: Manager, i: nat, a: Attempt, opens: bool, prep: Preparation, c: bool)
    requires StateFits(m)
    ensures StateFits(OpenNew(host, m, i, a, opens, prep, c).1)
  {
  }

  lemma FinishFits(host: Host, m: Manager, i: nat, opens: bool, prep: Preparation, c: bool)
    requires StateFits(m)
    ensures StateFits(Finish(host, m, i, opens, prep, c).1)
  {
    if m.acquiring.Some? {
      var a, m1 := m.acquiring.value, m.(acquiring := None);
      if a.resource.identity in m.records {
        PrepareFits(host, m1, a, prep);
      } else {
        OpenFits(host, m1, i, a, opens, prep, c);
      }
    }
  }

  lemma DropFits(m: Manager, key: Identity, token: nat)
    requires StateFits(m)
    ensures StateFits(Drop(m, key, token)) && StateFits(Shutdown(m))
  {
    assert key in m.records ==> Fits(m.records[key]);
  }

  lemma BeginCloseFits(m: Manager, key: Identity, rid: nat)
    requires StateFits(m)
    ensures StateFits(BeginClose(m, key, rid))
  {
    assert key in m.records ==> Fits(m.records[key]);
  }

  lemma EndCloseFits(m: Manager, key: Identity)
    requires StateFits(m)
    ensures StateFits(EndClose(m, key))
  {
  }

  lemma RunCloseFits(host: Host, m: Manager, key: Identity, ok: bool)
    requires StateFits(m)
    ensures StateFits(RunClose(host, m, key, ok).1)
  {
    assert key in m.records ==> Fits(m.records[key]);
  }

  lemma OwnerFits(host: Host, m: Manager, id: Identity)
    requires StateFits(m)
    ensures StateFits(MarkUncertain(host, m, id).1) && StateFits(ClearUncertainty(host, m, id).1)
  {
  }

  lemma NextFits(w: World, a: Action)
    requires forall i | i in w.managers :: StateFits(w.managers[i])
    ensures forall i | i in Next(w, a).managers :: StateFits(Next(w, a).managers[i])
  {
    if !a.Start? && !a.LedgerReadable? && !a.Crash? && a.manager in w.managers {
      var m := w.managers[a.manager];
      match a
      case BeginAcquire(_, res, p, v) => BeginFits(m, w.host.ledger, res, p, v);
      case FinishAcquire(i, o, p, c) => FinishFits(w.host, m, i, o, p, c);
      case DropLease(_, key, token) => DropFits(m, key, token);
      case CloseBegins(_, key, rid) => BeginCloseFits(m, key, rid);
      case CloserReturns(_, key, ok) => RunCloseFits(w.host, m, key, ok);
      case CloseEnds(_, key) => EndCloseFits(m, key);
      case Report(_, id) => OwnerFits(w.host, m, id);
      case Verify(_, id) => OwnerFits(w.host, m, id);
      case Stop(_) => DropFits(m, Identity("", "", ""), 0);
    }
  }

  lemma {:induction false} RunFits(w: World, actions: seq<Action>)
    requires forall i | i in w.managers :: StateFits(w.managers[i])
    ensures forall i | i in Run(w, actions).managers :: StateFits(Run(w, actions).managers[i])
    decreases |actions|
  {
    if actions != [] {
      NextFits(w, actions[0]);
      RunFits(Next(w, actions[0]), actions[1..]);
    }
  }

  /** In every run a record is open or external by its resource, or uncertain. */
  lemma StatesFit(actions: seq<Action>, i: nat, key: Identity)
    requires i in Reached(actions).managers && key in Reached(actions).managers[i].records
    ensures var r := Reached(actions).managers[i].records[key];
      !r.state.Uncertain? ==> (r.state.External? <==> r.resource.external)
  {
    RunFits(INIT, actions);
  }

  // ----- what a manager knows of faults

  lemma ReportIsKnown(host: Host, m: Manager, id: Identity)
    requires m.acquiring.None? && (id in m.records ==> m.records[id].resource.identity == id)
    ensures var m' := MarkUncertain(host, m, id).1;
      id in m'.unresolved && m.unresolved <= m'.unresolved && (m'.storeError <==> !host.ledger.readable)
  {
    if id in m.records {
      assert Ids(m.records[id].resource)[0] == id;
    }
  }

  lemma VerifiedIsKnown(host: Host, m: Manager, id: Identity, j: Identity)
    requires m.acquiring.None?
    ensures var m' := ClearUncertainty(host, m, id).1;
      && (m'.storeError <==> !host.ledger.readable)
      && (j in m'.unresolved <==> host.ledger.readable && j != id && j.node == m.node && FaultOn(host.ledger, PhysOf(j)))
  {
    RelabelHas(host.ledger, m.node, j);
  }

  /** In every run a manager knows a reported fault even if the ledger cannot be written, and forgets none it knew;
      after a verification it knows what the ledger says under its own label, but for the verified identity, or
      nothing if the ledger cannot be read. Either way it notes whether the ledger could be read. */
  lemma OwnerKnows(actions: seq<Action>, i: nat, id: Identity, j: Identity)
    requires i in Reached(actions).managers && Reached(actions).managers[i].acquiring.None?
    ensures i in Next(Reached(actions), Report(i, id)).managers && i in Next(Reached(actions), Verify(i, id)).managers
    ensures var w := Reached(actions);
      var m, reported := w.managers[i], Next(w, Report(i, id)).managers[i];
      id in reported.unresolved && m.unresolved <= reported.unresolved && (reported.storeError <==> !w.host.ledger.readable)
    ensures var w := Reached(actions);
      var m, ledger, verified := w.managers[i], w.host.ledger, Next(w, Verify(i, id)).managers[i];
      && (verified.storeError <==> !ledger.readable)
      && (j in verified.unresolved <==> ledger.readable && j != id && j.node == m.node && FaultOn(ledger, PhysOf(j)))
  {
    ReachedInv(actions);
    var w := Reached(actions);
    assert LocalOk(w.host, i, w.managers[i]);
    assert id in w.managers[i].records ==> RecordOk(w.host, i, id, w.managers[i]);
    ReportIsKnown(w.host, w.managers[i], id);
    VerifiedIsKnown(w.host, w.managers[i], id, j);
  }

  lemma RelabelHas(ledger: Ledger, node: string, j: Identity)
    ensures j in Relabel(ledger.faults, node) <==> j.node == node && FaultOn(ledger, PhysOf(j))
  {
    if j in Relabel(ledger.faults, node) {
      var f :| f in ledger.faults && Identity(node, f.kind, f.value) == j;
      assert PhysOf(f) == PhysOf(j);
    }
    if j.node == node && FaultOn(ledger, PhysOf(j)) {
      var f :| f in ledger.faults && PhysOf(f) == PhysOf(j);
      assert Identity(node, f.kind, f.value) == j;
    }
  }

  /** A manager starts with what the ledger says, if it can be read. */
  lemma StartKnows(w: World, node: string)
    ensures var m := Next(w, Start(node)).managers[w.nextManager];
      && (m.storeError <==> !w.host.ledger.readable) && m.records == map[] && !m.closed
      && m.unresolved == if w.host.ledger.readable then w.host.ledger.faults else {}
  {
  }
}
