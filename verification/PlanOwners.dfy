/** How the planner renames services once the runtimes of one robot share a process: every device resource and
    every runtime must follow the service it belonged to. */
module PlanOwners {
  import opened Wrappers

  /** The runtimes of one physical robot, in the order of the plan. */
  datatype Group = Group(robotId: string, runtimes: seq<string>)

  /** A runtime in the plan and the service that runs it. */
  datatype RuntimeSpec = RuntimeSpec(runtimeId: string, serviceId: string)

  function ServiceId(name: string): string {
    "control-" + name
  }

  predicate Shared(g: Group) {
    |g.runtimes| != 1
  }

  /** The service that runs a group. */
  function GroupService(g: Group): string
    requires g.runtimes != []
  {
    ServiceId(if Shared(g) then g.robotId else g.runtimes[0])
  }

  /** The services planned for the runtimes of a group before they were merged. */
  function OldIds(g: Group): set<string> {
    set i | 0 <= i < |g.runtimes| :: ServiceId(g.runtimes[i])
  }

  /** What becomes of one service name at one group. */
  function Renamed(g: Group, owner: string): string
    requires g.runtimes != []
  {
    if Shared(g) && owner in OldIds(g) then GroupService(g) else owner
  }

  predicate NoneEmpty(groups: seq<Group>) {
    forall i | 0 <= i < |groups| :: groups[i].runtimes != []
  }

  /** What becomes of a service name over the groups in order. */
  function OwnerAfter(groups: seq<Group>, owner: string): string
    requires NoneEmpty(groups)
  {
    if groups == [] then owner
    else
      var n := |groups| - 1;
      Renamed(groups[n], OwnerAfter(groups[..n], owner))
  }

  function OwnersAfter(groups: seq<Group>, owners: map<string, string>): map<string, string>
    requires NoneEmpty(groups)
  {
    map r | r in owners :: OwnerAfter(groups, owners[r])
  }

  /** Names in a plan: every runtime is in one group once, and different groups have different robots. */
  predicate Distinct(groups: seq<Group>) {
    && NoneEmpty(groups)
    && (forall i, j, k, l | 0 <= i < |groups| && 0 <= j < |groups| && 0 <= k < |groups[i].runtimes| && 0 <= l < |groups[j].runtimes|
                            && groups[i].runtimes[k] == groups[j].runtimes[l] :: i == j && k == l)
    && (forall i, j | 0 <= i < j < |groups| :: groups[i].robotId != groups[j].robotId)
  }

  // ----- the loops of the planner

  /** The renaming of resource owners. */
  method RenameOwners(groups: seq<Group>, owners: map<string, string>) returns (r: map<string, string>)
    requires NoneEmpty(groups)
    ensures r == OwnersAfter(groups, owners)
  {
    r := owners;
    for i := 0 to |groups|
      invariant r == OwnersAfter(groups[..i], owners)
    {
      assert groups[..i + 1][..i] == groups[..i];
      if Shared(groups[i]) {
        r := RenameIn(groups[i], r);
      }
      assert r == OwnersAfter(groups[..i + 1], owners);
    }
    assert groups[..|groups|] == groups;
  }

  method RenameIn(g: Group, owners: map<string, string>) returns (r: map<string, string>)
    requires g.runtimes != []
    ensures r == map k | k in owners :: Renamed(g, owners[k])
  {
    r := owners;
    var left := owners.Keys;
    while left != {}
      invariant left <= owners.Keys && r.Keys == owners.Keys
      invariant forall k | k in owners :: r[k] == if k in left then owners[k] else Renamed(g, owners[k])
      decreases |left|
    {
      var k :| k in left;
      if owners[k] in OldIds(g) {
        r := r[k := if Shared(g) then GroupService(g) else owners[k]];
      }
      left := left - {k};
    }
  }

  /** The renaming of the runtimes of one group: each is looked up in the plan by what it was. */
  method RenameRuntimes(g: Group, runtimes: seq<RuntimeSpec>) returns (r: seq<RuntimeSpec>)
    requires g.runtimes != []
    requires forall i, j | 0 <= i < j < |runtimes| :: runtimes[i].runtimeId != runtimes[j].runtimeId
    requires forall i, j | 0 <= i < j < |g.runtimes| :: g.runtimes[i] != g.runtimes[j]
    requires forall i | 0 <= i < |g.runtimes| :: RuntimeSpec(g.runtimes[i], ServiceId(g.runtimes[i])) in runtimes
    ensures |r| == |runtimes|
    ensures forall i | 0 <= i < |r| ::
      r[i] == if runtimes[i].runtimeId in g.runtimes then runtimes[i].(serviceId := GroupService(g)) else runtimes[i]
  {
    r := runtimes;
    for n := 0 to |g.runtimes|
      invariant |r| == |runtimes|
      invariant forall i | 0 <= i < |r| ::
        r[i] == if runtimes[i].runtimeId in g.runtimes[..n] then runtimes[i].(serviceId := GroupService(g)) else runtimes[i]
    {
      var spec := RuntimeSpec(g.runtimes[n], ServiceId(g.runtimes[n]));
      ghost var at :| 0 <= at < |runtimes| && runtimes[at] == spec;
      assert g.runtimes[n] !in g.runtimes[..n];
      var k := 0;
      while r[k] != spec
        invariant 0 <= k <= at
        decreases at - k
      {
        k := k + 1;
      }
      assert k == at;
      r := r[k := spec.(serviceId := GroupService(g))];
    }
  }

  // ----- who owns a resource in the end

  /** Some later shared group has a runtime named like the robot of group `i`. */
  predicate Taken(groups: seq<Group>, i: nat)
    requires i < |groups|
  {
    exists j :: i < j < |groups| && Shared(groups[j]) && groups[i].robotId in groups[j].runtimes
  }

  lemma ServiceIdInjective(a: string, b: string)
    ensures ServiceId(a) == ServiceId(b) ==> a == b
  {
    assert ServiceId(a)[8..] == a && ServiceId(b)[8..] == b;
  }

  lemma OldIdIff(g: Group, name: string)
    ensures ServiceId(name) in OldIds(g) <==> name in g.runtimes
  {
    forall i | 0 <= i < |g.runtimes|
      ensures ServiceId(g.runtimes[i]) == ServiceId(name) ==> g.runtimes[i] == name
    {
      ServiceIdInjective(g.runtimes[i], name);
    }
  }

  lemma InNoOther(groups: seq<Group>, i: nat, k: nat, j: nat)
    requires Distinct(groups) && i < |groups| && j < |groups| && i != j && k < |groups[i].runtimes|
    ensures groups[i].runtimes[k] !in groups[j].runtimes
  {
  }

  /** Up to its own group, a resource keeps the service of the runtime that brought it in. */
  lemma {:induction false} KeptBefore(groups: seq<Group>, i: nat, k: nat, n: nat)
    requires Distinct(groups) && n <= i < |groups| && k < |groups[i].runtimes|
    ensures OwnerAfter(groups[..n], ServiceId(groups[i].runtimes[k])) == ServiceId(groups[i].runtimes[k])
  {
    if n > 0 {
      KeptBefore(groups, i, k, n - 1);
      assert groups[..n][..n - 1] == groups[..n - 1];
      OldIdIff(groups[n - 1], groups[i].runtimes[k]);
      InNoOther(groups, i, k, n - 1);
    }
  }

  predicate TakenBefore(groups: seq<Group>, i: nat, n: nat)
    requires i < n <= |groups|
  {
    exists j :: i < j < n && Shared(groups[j]) && groups[i].robotId in groups[j].runtimes
  }

  lemma RenamedIff(g: Group, robotId: string, owner: string)
    requires g.runtimes != [] && g.robotId != robotId
    ensures Renamed(g, owner) == ServiceId(robotId) <==> owner == ServiceId(robotId) && !(Shared(g) && robotId in g.runtimes)
  {
    ServiceIdInjective(g.robotId, robotId);
    OldIdIff(g, robotId);
  }

  lemma TakenStep(groups: seq<Group>, i: nat, n: nat)
    requires i < n < |groups|
    ensures TakenBefore(groups, i, n + 1) <==> TakenBefore(groups, i, n) || (Shared(groups[n]) && groups[i].robotId in groups[n].runtimes)
  {
    if TakenBefore(groups, i, n) {
      var j :| i < j < n && Shared(groups[j]) && groups[i].robotId in groups[j].runtimes;
      assert i < j < n + 1;
    }
  }

  /** The runtime's service has the name of its group exactly as long as no later group has taken that name. */
  predicate KeptAt(groups: seq<Group>, i: nat, k: nat, n: nat)
    requires NoneEmpty(groups) && i < n <= |groups| && k < |groups[i].runtimes|
  {
    OwnerAfter(groups[..n], ServiceId(groups[i].runtimes[k])) == ServiceId(groups[i].robotId) <==> !TakenBefore(groups, i, n)
  }

  /** From then on it is the group's service as long as that name is not taken, and never again after. */
  lemma {:induction false} KeptAfter(groups: seq<Group>, i: nat, k: nat, n: nat)
    requires Distinct(groups) && i < n <= |groups| && k < |groups[i].runtimes| && Shared(groups[i])
    ensures KeptAt(groups, i, k, n)
    decreases n
  {
    if n == i + 1 {
      KeptFirst(groups, i, k);
    } else {
      KeptAfter(groups, i, k, n - 1);
      KeptNext(groups, i, k, n);
    }
  }

  lemma KeptNext(groups: seq<Group>, i: nat, k: nat, n: nat)
    requires Distinct(groups) && i + 1 < n <= |groups| && k < |groups[i].runtimes| && KeptAt(groups, i, k, n - 1)
    ensures KeptAt(groups, i, k, n)
  {
    var owner := ServiceId(groups[i].runtimes[k]);
    OwnerStep(groups, owner, n);
    RenamedIff(groups[n - 1], groups[i].robotId, OwnerAfter(groups[..n - 1], owner));
    TakenStep(groups, i, n - 1);
  }

  lemma OwnerStep(groups: seq<Group>, owner: string, n: nat)
    requires 0 < n <= |groups| && NoneEmpty(groups[..n])
    ensures OwnerAfter(groups[..n], owner) == Renamed(groups[n - 1], OwnerAfter(groups[..n - 1], owner))
  {
    assert groups[..n][..n - 1] == groups[..n - 1];
  }

  lemma KeptFirst(groups: seq<Group>, i: nat, k: nat)
    requires Distinct(groups) && i < |groups| && k < |groups[i].runtimes| && Shared(groups[i])
    ensures KeptAt(groups, i, k, i + 1)
  {
    OwnerStep(groups, ServiceId(groups[i].runtimes[k]), i + 1);
    KeptBefore(groups, i, k, i);
    OldIdIff(groups[i], groups[i].runtimes[k]);
  }

  /** A single runtime's service is never renamed. */
  lemma {:induction false} SingleKept(groups: seq<Group>, i: nat, n: nat)
    requires Distinct(groups) && i < |groups| && !Shared(groups[i]) && n <= |groups|
    ensures OwnerAfter(groups[..n], ServiceId(groups[i].runtimes[0])) == ServiceId(groups[i].runtimes[0])
  {
    if n > 0 {
      SingleKept(groups, i, n - 1);
      assert groups[..n][..n - 1] == groups[..n - 1];
      OldIdIff(groups[n - 1], groups[i].runtimes[0]);
      if n - 1 != i {
        InNoOther(groups, i, 0, n - 1);
      }
    }
  }

  /** A resource that some runtime brought in ends up owned by the service of that runtime's group exactly if
      the group has one runtime or no later shared group has a runtime named like its robot. */
  lemma OwnerFollowsGroupIff(groups: seq<Group>, i: nat, k: nat)
    requires Distinct(groups) && i < |groups| && k < |groups[i].runtimes|
    ensures OwnerAfter(groups, ServiceId(groups[i].runtimes[k])) == GroupService(groups[i]) <==>
            !Shared(groups[i]) || !Taken(groups, i)
  {
    assert groups[..|groups|] == groups;
    if Shared(groups[i]) {
      KeptAfter(groups, i, k, |groups|);
    } else {
      SingleKept(groups, i, |groups|);
    }
  }

  /** The check at the end of planning: all services have different names. */
  predicate NamesDiffer(groups: seq<Group>)
    requires NoneEmpty(groups)
  {
    forall i, j | 0 <= i < j < |groups| :: GroupService(groups[i]) != GroupService(groups[j])
  }

  const TWO_ROBOTS := [Group("x", ["a", "b"]), Group("y", ["c", "x"])]

  lemma TwoRobotsDistinct()
    ensures Distinct(TWO_ROBOTS)
  {
    assert "x" != "y" && "a" != "b" && "a" != "c" && "a" != "x" && "b" != "c" && "b" != "x" && "c" != "x";
  }

  /** Names can be taken in a plan that passes this check: two robots with two runtimes each, one runtime of
      the second robot named like the first. The first robot's resource ends up owned by the second's service. */
  lemma WrongOwnerPassesCheck()
    ensures Distinct(TWO_ROBOTS) && NamesDiffer(TWO_ROBOTS)
    ensures OwnerAfter(TWO_ROBOTS, ServiceId("a")) == GroupService(TWO_ROBOTS[1]) != GroupService(TWO_ROBOTS[0])
  {
    var first, second := TWO_ROBOTS[0], TWO_ROBOTS[1];
    TwoRobotsDistinct();
    ServiceIdInjective(first.robotId, second.robotId);
    AfterTwo(first, second, ServiceId(first.runtimes[0]));
    OldIdIff(first, first.runtimes[0]);
    OldIdIff(second, second.runtimes[1]);
  }

  lemma AfterTwo(a: Group, b: Group, owner: string)
    requires a.runtimes != [] && b.runtimes != []
    ensures OwnerAfter([a, b], owner) == Renamed(b, Renamed(a, owner))
  {
    assert [a, b][..1] == [a] && [a][..0] == [];
    assert OwnerAfter([a], owner) == Renamed(a, OwnerAfter([], owner));
  }
}
