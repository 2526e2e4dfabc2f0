/** The merge of control services keeps every runtime's profile and every declared resource. */
module MergeProofs {
  import opened Wrappers
  import opened Contracts
  import opened KeyOrder
  import opened ServiceMerge

  // ----- resources

  /** How a pool relates to the items put into it. */
  predicate Represents(pool: Pool, items: seq<Fields>) {
    Keyed(pool) && Covers(pool, items) && Sourced(pool, items)
  }

  predicate Covers(pool: Pool, items: seq<Fields>) {
    forall j | 0 <= j < |items| :: Identity(items[j]) in pool.items && Stands(pool.items[Identity(items[j])], items[j])
  }

  predicate Sourced(pool: Pool, items: seq<Fields>) {
    forall k | k in pool.items :: Source(pool.items[k], k, items)
  }

  predicate Source(pooled: Fields, k: string, items: seq<Fields>) {
    && (exists j :: 0 <= j < |items| && Identity(items[j]) == k)
    && (Aliases(pooled).None? ==> exists j :: 0 <= j < |items| && Identity(items[j]) == k && Aliases(items[j]).None?)
  }

  /** A pooled item stands for one that was put in: same identity and declarations, and at least its names. */
  predicate Stands(pooled: Fields, item: Fields) {
    && Identity(pooled) == Identity(item) && Agree(pooled, item) && (ResourceOk(item) ==> ResourceOk(pooled))
    && NamesOf(item) <= NamesOf(pooled) && (Aliases(pooled).Some? ==> Aliases(item).Some?)
  }

  predicate Keyed(pool: Pool) {
    && (forall k | k in pool.order :: k in pool.items) && (forall k | k in pool.items :: k in pool.order)
    && (forall i, j | 0 <= i < j < |pool.order| :: pool.order[i] != pool.order[j])
    && (forall k | k in pool.items :: Identity(pool.items[k]) == k)
  }

  /** Shared resources are declared alike everywhere, and their names can be iterated. */
  predicate Compatible(items: seq<Fields>) {
    forall i, j | 0 <= i < j < |items| && Identity(items[i]) == Identity(items[j]) ::
      Agree(items[i], items[j]) && Aliases(items[i]).Some? && Aliases(items[j]).Some?
  }

  lemma AgreeReflexive(a: Fields)
    ensures Agree(a, a)
  {
    SameReflexive(Lookup(a, "kind"));
    SameReflexive(Lookup(a, "value"));
    SameReflexive(Lookup(a, "owner"));
  }

  lemma AgreeSymmetric(a: Fields, b: Fields)
    requires Agree(a, b)
    ensures Agree(b, a)
  {
    SameSymmetric(Lookup(a, "kind"), Lookup(b, "kind"));
    SameSymmetric(Lookup(a, "value"), Lookup(b, "value"));
    SameSymmetric(Lookup(a, "owner"), Lookup(b, "owner"));
  }

  lemma AgreeTransitive(a: Fields, b: Fields, c: Fields)
    requires Agree(a, b) && Agree(b, c)
    ensures Agree(a, c)
  {
    SameTransitive(Lookup(a, "kind"), Lookup(b, "kind"), Lookup(c, "kind"));
    SameTransitive(Lookup(a, "value"), Lookup(b, "value"), Lookup(c, "value"));
    SameTransitive(Lookup(a, "owner"), Lookup(b, "owner"), Lookup(c, "owner"));
  }

  lemma MergedStands(previous: Fields, item: Fields)
    requires MergeItem(previous, item).Ok? && Identity(previous) == Identity(item)
    ensures var m := MergeItem(previous, item).value;
      && Stands(m, previous) && Stands(m, item) && Aliases(m).Some?
      && NamesOf(m) == NamesOf(previous) + NamesOf(item)
  {
    var m := MergeItem(previous, item).value;
    assert forall k | k != "sensor_ids" :: Lookup(m, k) == Lookup(previous, k);
    SensorIdsIsNoOther();
    AgreeReflexive(previous);
  }

  lemma SensorIdsIsNoOther()
    ensures "sensor_ids" != "kind" && "sensor_ids" != "value" && "sensor_ids" != "owner" && "sensor_ids" != "identity"
  {
    assert |"sensor_ids"| == 10 && |"kind"| == 4 && |"value"| == 5 && |"owner"| == 5 && |"identity"| == 8;
  }

  lemma StandsIsTransitive(a: Fields, b: Fields, c: Fields)
    requires Stands(a, b) && Stands(b, c)
    ensures Stands(a, c)
  {
    AgreeTransitive(a, b, c);
  }

  lemma SourceGrows(pooled: Fields, k: string, items: seq<Fields>, item: Fields)
    requires Source(pooled, k, items)
    ensures Source(pooled, k, items + [item])
  {
    var all := items + [item];
    var j :| 0 <= j < |items| && Identity(items[j]) == k;
    assert Identity(all[j]) == k;
    if Aliases(pooled).None? {
      var i :| 0 <= i < |items| && Identity(items[i]) == k && Aliases(items[i]).None?;
      assert all[i] == items[i];
    }
  }

  lemma AddItemSources(pool: Pool, items: seq<Fields>, item: Fields)
    requires Sourced(pool, items) && AddItem(pool, item).Ok? && Keyed(pool)
    ensures Sourced(AddItem(pool, item).value, items + [item])
  {
    var after, all, id := AddItem(pool, item).value, items + [item], Identity(item);
    forall k | k in after.items
      ensures Source(after.items[k], k, all)
    {
      if k != id {
        SourceGrows(pool.items[k], k, items, item);
      } else {
        assert all[|items|] == item;
        if id in pool.items {
          MergedStands(pool.items[id], item);
        }
      }
    }
  }

  lemma AddItemCovers(pool: Pool, items: seq<Fields>, item: Fields)
    requires Covers(pool, items) && AddItem(pool, item).Ok? && Keyed(pool)
    ensures Covers(AddItem(pool, item).value, items + [item])
  {
    var after, all, id := AddItem(pool, item).value, items + [item], Identity(item);
    AgreeReflexive(item);
    if id in pool.items {
      MergedStands(pool.items[id], item);
    }
    forall j | 0 <= j < |items| && Identity(items[j]) == id
      ensures Stands(after.items[id], items[j])
    {
      StandsIsTransitive(after.items[id], pool.items[id], items[j]);
    }
  }

  lemma AddItemKeys(pool: Pool, item: Fields)
    requires AddItem(pool, item).Ok? && Keyed(pool)
    ensures Keyed(AddItem(pool, item).value)
  {
    var id := Identity(item);
    if id in pool.items {
      MergedStands(pool.items[id], item);
    }
  }

  lemma AddItemRepresents(pool: Pool, items: seq<Fields>, item: Fields)
    requires Represents(pool, items) && AddItem(pool, item).Ok?
    ensures Represents(AddItem(pool, item).value, items + [item])
  {
    AddItemKeys(pool, item);
    AddItemCovers(pool, items, item);
    AddItemSources(pool, items, item);
  }

  lemma AddedIsCompatible(pool: Pool, items: seq<Fields>, item: Fields)
    requires Represents(pool, items) && Compatible(items) && AddItem(pool, item).Ok?
    ensures Compatible(items + [item])
  {
    var all, id := items + [item], Identity(item);
    forall i, j | 0 <= i < j < |all| && Identity(all[i]) == Identity(all[j])
      ensures Agree(all[i], all[j]) && Aliases(all[i]).Some? && Aliases(all[j]).Some?
    {
      if j == |items| {
        assert Stands(pool.items[id], items[i]);
        AgreeSymmetric(pool.items[id], items[i]);
        AgreeTransitive(items[i], pool.items[id], item);
      }
    }
  }

  lemma RefusedClashes(pool: Pool, items: seq<Fields>, item: Fields)
    requires Represents(pool, items) && AddItem(pool, item).Err?
    ensures !Compatible(items + [item])
  {
    var all, id := items + [item], Identity(item);
    var i :| 0 <= i < |items| && Identity(items[i]) == id;
    if Aliases(pool.items[id]).None? {
      i :| 0 <= i < |items| && Identity(items[i]) == id && Aliases(items[i]).None?;
    }
    assert Stands(pool.items[id], items[i]);
    if Agree(items[i], item) {
      AgreeTransitive(pool.items[id], items[i], item);
    }
    Clash(all, i, |items|);
  }

  /** An item is refused exactly if some earlier one with its identity is not compatible with it. */
  lemma AddItemOkIff(pool: Pool, items: seq<Fields>, item: Fields)
    requires Represents(pool, items) && Compatible(items)
    ensures AddItem(pool, item).Ok? <==> Compatible(items + [item])
  {
    if AddItem(pool, item).Ok? {
      AddedIsCompatible(pool, items, item);
    } else {
      RefusedClashes(pool, items, item);
    }
  }

  lemma Clash(items: seq<Fields>, i: nat, j: nat)
    requires i < j < |items| && Identity(items[i]) == Identity(items[j])
    requires !Agree(items[i], items[j]) || Aliases(items[i]).None? || Aliases(items[j]).None?
    ensures !Compatible(items)
  {
  }

  lemma CompatiblePrefix(a: seq<Fields>, b: seq<Fields>)
    requires Compatible(a + b)
    ensures Compatible(a)
  {
    var all := a + b;
    forall i, j | 0 <= i < j < |a| && Identity(a[i]) == Identity(a[j])
      ensures Agree(a[i], a[j]) && Aliases(a[i]).Some? && Aliases(a[j]).Some?
    {
      assert all[i] == a[i] && all[j] == a[j];
    }
  }

  lemma AddNext(pool: Pool, before: seq<Fields>, items: seq<Fields>)
    requires Represents(pool, before) && Compatible(before) && items != []
    ensures AddItem(pool, items[0]).Ok? <==> Compatible(before + [items[0]])
    ensures AddItem(pool, items[0]).Ok? ==> Represents(AddItem(pool, items[0]).value, before + [items[0]])
    ensures AddItem(pool, items[0]).Err? ==> !Compatible(before + items)
    ensures before + [items[0]] + items[1..] == before + items
    ensures AddItems(Ok(pool), items) == AddItems(AddItem(pool, items[0]), items[1..])
    ensures AddItem(pool, items[0]).Err? ==> AddItems(Ok(pool), items).Err?
  {
    assert before + [items[0]] + items[1..] == before + items;
    AddItemOkIff(pool, before, items[0]);
    if AddItem(pool, items[0]).Ok? {
      AddItemRepresents(pool, before, items[0]);
    } else if Compatible(before + items) {
      CompatiblePrefix(before + [items[0]], items[1..]);
    }
  }

  lemma {:induction false} AddItemsOkIff(pool: Pool, before: seq<Fields>, items: seq<Fields>)
    requires Represents(pool, before) && Compatible(before)
    ensures AddItems(Ok(pool), items).Ok? <==> Compatible(before + items)
    ensures AddItems(Ok(pool), items).Ok? ==> Represents(AddItems(Ok(pool), items).value, before + items)
    decreases |items|
  {
    if items == [] {
      assert before + items == before;
    } else {
      AddNext(pool, before, items);
      if AddItem(pool, items[0]).Ok? {
        AddItemsOkIff(AddItem(pool, items[0]).value, before + [items[0]], items[1..]);
      }
    }
  }

  lemma PoolOkIff(items: seq<Fields>)
    ensures AddItems(Ok(NO_RESOURCES), items).Ok? <==> Compatible(items)
    ensures AddItems(Ok(NO_RESOURCES), items).Ok? ==> Represents(AddItems(Ok(NO_RESOURCES), items).value, items)
  {
    AddItemsOkIff(NO_RESOURCES, [], items);
    assert [] + items == items;
  }

  // ----- profiles

  /** The last configuration of a runtime, or -1. */
  function LastOf(configs: seq<Config>, runtimeId: string): (i: int)
    ensures -1 <= i < |configs|
    ensures i >= 0 ==> configs[i].runtimeId == runtimeId
  {
    if configs == [] then -1
    else
      var n := |configs| - 1;
      if configs[n].runtimeId == runtimeId then n else LastOf(configs[..n], runtimeId)
  }

  lemma {:induction false} LastOfIsLast(configs: seq<Config>, runtimeId: string, i: nat)
    requires i < |configs| && configs[i].runtimeId == runtimeId
    ensures i <= LastOf(configs, runtimeId)
    decreases |configs|
  {
    var n := |configs| - 1;
    if configs[n].runtimeId != runtimeId {
      LastOfIsLast(configs[..n], runtimeId, i);
    }
  }

  lemma OwnProfileIs(ps: Providers, c: Config)
    requires ConfigOk(ps, c) && c.enabled
    ensures var p := OwnProfile(ps, c); p.Some? && p.value.runtimeId == c.runtimeId && !Blank(c.runtimeId) && ProfileOk(ps, p.value)
  {
    ProfileForRuntimeIff(ps, c, c.runtimeId);
  }

  lemma OwnProfilesNext(ps: Providers, configs: seq<Config>, n: nat)
    requires AllOk(ps, configs) && AllEnabled(configs) && |configs| == n + 1
    ensures AllOk(ps, configs[..n]) && AllEnabled(configs[..n])
    ensures var p := OwnProfile(ps, configs[n]);
      && p.Some? && p.value.runtimeId == configs[n].runtimeId && !Blank(configs[n].runtimeId) && ProfileOk(ps, p.value)
      && OwnProfiles(ps, configs) == OwnProfiles(ps, configs[..n])[configs[n].runtimeId := p.value]
  {
    assert ConfigOk(ps, configs[n]);
    OwnProfileIs(ps, configs[n]);
  }

  lemma {:induction false} OwnProfilesLast(ps: Providers, configs: seq<Config>, runtimeId: string)
    requires AllOk(ps, configs) && AllEnabled(configs)
    ensures var m, last := OwnProfiles(ps, configs), LastOf(configs, runtimeId);
      && (runtimeId in m <==> last >= 0)
      && (last >= 0 ==> Some(m[runtimeId]) == OwnProfile(ps, configs[last]))
    decreases |configs|
  {
    if configs != [] {
      var n := |configs| - 1;
      OwnProfilesNext(ps, configs, n);
      OwnProfilesLast(ps, configs[..n], runtimeId);
    }
  }

  predicate ProfilesOk(ps: Providers, m: map<string, Profile>) {
    forall k | k in m :: !Blank(k) && k == m[k].runtimeId && ProfileOk(ps, m[k])
  }

  lemma {:induction false} OwnProfilesOk(ps: Providers, configs: seq<Config>)
    requires AllOk(ps, configs) && AllEnabled(configs)
    ensures ProfilesOk(ps, OwnProfiles(ps, configs))
    decreases |configs|
  {
    if configs != [] {
      var n := |configs| - 1;
      OwnProfilesNext(ps, configs, n);
      OwnProfilesOk(ps, configs[..n]);
    }
  }

  // ----- the merge

  lemma DecodedOk(ps: Providers, services: seq<Service>)
    requires Decoded(ps, services).Some?
    ensures var configs := Decoded(ps, services).value;
      |configs| == |services| && AllOk(ps, configs)
  {
    forall i | 0 <= i < |services|
      ensures ConfigOk(ps, Decoded(ps, services).value[i])
    {
      assert ServiceDecoder(ps)(services[i]).Some?;
      DecodedConfigOk(ps, services[i].config);
    }
  }

  lemma DecodedConfigOk(ps: Providers, v: Json)
    requires FromJson(ps, v).Some?
    ensures ConfigOk(ps, FromJson(ps, v).value)
  {
  }

  predicate Acceptable(configs: seq<Config>) {
    && configs != []
    && (forall i | 0 <= i < |configs| :: configs[i].enabled && configs[i].transport != "wireless")
    && SameRobot(configs)
    && Compatible(AllItems(configs))
  }

  /** No two configurations name different robots. */
  predicate SameRobot(configs: seq<Config>) {
    forall i, j | 0 <= i < |configs| && 0 <= j < |configs| ::
      configs[i].robotKind == configs[j].robotKind && configs[i].robotId == configs[j].robotId
  }

  lemma OneRobotIff(configs: seq<Config>)
    ensures OneRobot(configs) <==> SameRobot(configs)
  {
  }

  lemma {:induction false} AllItemsOk(ps: Providers, configs: seq<Config>)
    requires AllOk(ps, configs)
    ensures forall j | 0 <= j < |AllItems(configs)| :: ResourceOk(AllItems(configs)[j])
  {
    if configs != [] {
      AllItemsOk(ps, configs[1..]);
    }
  }

  lemma PooledOk(pool: Pool, items: seq<Fields>, k: string)
    requires Represents(pool, items) && k in pool.items
    requires forall j | 0 <= j < |items| :: ResourceOk(items[j])
    ensures ResourceOk(pool.items[k])
  {
    assert Source(pool.items[k], k, items);
    var j :| 0 <= j < |items| && Identity(items[j]) == k;
    assert Stands(pool.items[k], items[j]);
  }

  lemma ListedOk(pool: Pool, items: seq<Fields>)
    requires Represents(pool, items) && forall j | 0 <= j < |items| :: ResourceOk(items[j])
    ensures ResourcesOk(Listed(Sort(pool.order), pool))
  {
    var order := Sort(pool.order);
    SameMembers(order, pool.order);
    forall i | 0 <= i < |order|
      ensures ResourceOk(Listed(order, pool)[i])
    {
      assert order[i] in pool.order;
      PooledOk(pool, items, order[i]);
    }
  }

  predicate AllOk(ps: Providers, configs: seq<Config>) {
    forall i | 0 <= i < |configs| :: ConfigOk(ps, configs[i])
  }

  predicate AllEnabled(configs: seq<Config>) {
    forall i | 0 <= i < |configs| :: configs[i].enabled
  }

  lemma MergedPartsOk(ps: Providers, configs: seq<Config>, pool: Pool)
    requires AllOk(ps, configs) && AllEnabled(configs) && Represents(pool, AllItems(configs))
    ensures ProfilesOk(ps, OwnProfiles(ps, configs))
    ensures ResourcesOk(Listed(Sort(pool.order), pool))
  {
    AllItemsOk(ps, configs);
    ListedOk(pool, AllItems(configs));
    OwnProfilesOk(ps, configs);
  }

  predicate ResourcesOk(r: seq<Fields>) {
    forall i | 0 <= i < |r| :: ResourceOk(r[i])
  }

  lemma ReplacedOk(ps: Providers, configs: seq<Config>, pool: Pool)
    requires configs != [] && ConfigOk(ps, configs[0])
    requires ProfilesOk(ps, OwnProfiles(ps, configs)) && ResourcesOk(Listed(Sort(pool.order), pool))
    ensures ConfigOk(ps, MergedConfig(ps, configs, pool))
  {
  }

  lemma MergedConfigOk(ps: Providers, configs: seq<Config>, pool: Pool)
    requires configs != [] && AllOk(ps, configs) && AllEnabled(configs) && Represents(pool, AllItems(configs))
    ensures ConfigOk(ps, MergedConfig(ps, configs, pool))
  {
    MergedPartsOk(ps, configs, pool);
    ReplacedOk(ps, configs, pool);
  }

  /** A group merges exactly if there is one, every configuration decodes, all have inference and none is
      wireless, they name one robot, and what they share is declared alike. */
  lemma MergeOkIff(ps: Providers, services: seq<Service>, serviceId: string, runtimeIds: seq<string>)
    ensures Merge(ps, services, serviceId, runtimeIds).Ok? <==>
            Decoded(ps, services).Some? && Acceptable(Decoded(ps, services).value)
  {
    if services != [] && Decoded(ps, services).Some? {
      var configs := Decoded(ps, services).value;
      DecodedOk(ps, services);
      PoolOkIff(AllItems(configs));
      RefusedIff(configs);
      OneRobotIff(configs);
      if Acceptable(configs) {
        MergedConfigOk(ps, configs, AddItems(Ok(NO_RESOURCES), AllItems(configs)).value);
      }
    }
  }

  lemma RefusedIff(configs: seq<Config>)
    requires configs != []
    ensures Refused(configs).None? <==> forall i | 0 <= i < |configs| :: configs[i].enabled && configs[i].transport != "wireless"
  {
  }

  lemma MergedDecodes(ps: Providers, configs: seq<Config>, pool: Pool)
    requires configs != [] && AllOk(ps, configs) && AllEnabled(configs) && Represents(pool, AllItems(configs))
    ensures MadeConfig(ps, MergedConfig(ps, configs, pool)) == Some(MergedConfig(ps, configs, pool))
    ensures FromJson(ps, ToJson(MergedConfig(ps, configs, pool))) == Some(MergedConfig(ps, configs, pool))
  {
    MergedConfigOk(ps, configs, pool);
    DecodeEncode(ps, MergedConfig(ps, configs, pool));
    assert MergedConfig(ps, configs, pool).enabled == configs[0].enabled;
  }

  lemma MergeSays(ps: Providers, services: seq<Service>, serviceId: string, runtimeIds: seq<string>,
                  configs: seq<Config>, pool: Pool)
    requires Merge(ps, services, serviceId, runtimeIds).Ok? && Decoded(ps, services) == Some(configs) && configs != []
    requires AddItems(Ok(NO_RESOURCES), AllItems(configs)) == Ok(pool)
    requires MadeConfig(ps, MergedConfig(ps, configs, pool)) == Some(MergedConfig(ps, configs, pool))
    ensures Merge(ps, services, serviceId, runtimeIds).value.config == ToJson(MergedConfig(ps, configs, pool))
  {
  }

  /** What the merged service decodes to. */
  lemma MergeDecodes(ps: Providers, services: seq<Service>, serviceId: string, runtimeIds: seq<string>)
    returns (configs: seq<Config>, pool: Pool)
    requires Merge(ps, services, serviceId, runtimeIds).Ok?
    ensures Decoded(ps, services) == Some(configs) && Acceptable(configs)
    ensures AllOk(ps, configs) && AllEnabled(configs)
    ensures Represents(pool, AllItems(configs))
    ensures FromJson(ps, Merge(ps, services, serviceId, runtimeIds).value.config) == Some(MergedConfig(ps, configs, pool))
  {
    MergeOkIff(ps, services, serviceId, runtimeIds);
    DecodedOk(ps, services);
    configs := Decoded(ps, services).value;
    PoolOkIff(AllItems(configs));
    pool := AddItems(Ok(NO_RESOURCES), AllItems(configs)).value;
    MergedDecodes(ps, configs, pool);
    MergeSays(ps, services, serviceId, runtimeIds, configs, pool);
  }

  /** Selecting a runtime in a merged configuration, against selecting it in its own. */
  lemma SelectedIsLast(ps: Providers, configs: seq<Config>, pool: Pool, i: nat)
    requires AllOk(ps, configs) && AllEnabled(configs) && i < |configs|
    ensures var last := LastOf(configs, configs[i].runtimeId);
      && last >= i
      && ProfileForRuntime(ps, MergedConfig(ps, configs, pool), configs[i].runtimeId) == OwnProfile(ps, configs[last])
  {
    LastOfIsLast(configs, configs[i].runtimeId, i);
    OwnProfilesLast(ps, configs, configs[i].runtimeId);
  }

  /** Decoding the merged service and selecting a runtime gives the profile that decoding the runtime's own
      service gives exactly if the last service of that runtime has it: the merge keeps the last. */
  lemma MergeKeepsProfileIff(ps: Providers, services: seq<Service>, serviceId: string, runtimeIds: seq<string>, i: nat)
    requires Merge(ps, services, serviceId, runtimeIds).Ok? && i < |services|
    ensures Decoded(ps, services).Some? && FromJson(ps, Merge(ps, services, serviceId, runtimeIds).value.config).Some?
    ensures var configs, merged := Decoded(ps, services).value,
                                   FromJson(ps, Merge(ps, services, serviceId, runtimeIds).value.config).value;
      var runtimeId := configs[i].runtimeId; var last := LastOf(configs, runtimeId);
      && last >= i
      && (ProfileForRuntime(ps, merged, runtimeId) == OwnProfile(ps, configs[i]) <==>
          OwnProfile(ps, configs[last]) == OwnProfile(ps, configs[i]))
  {
    var configs, pool := MergeDecodes(ps, services, serviceId, runtimeIds);
    SelectedIsLast(ps, configs, pool, i);
  }

  predicate NamesDiffer(configs: seq<Config>) {
    forall i, j | 0 <= i < j < |configs| :: configs[i].runtimeId != configs[j].runtimeId
  }

  /** A configuration that serves exactly the runtimes of others, each with its own profile. */
  ghost predicate ServesAll(ps: Providers, merged: Config, configs: seq<Config>) {
    && (forall i | 0 <= i < |configs| :: ProfileForRuntime(ps, merged, configs[i].runtimeId) == OwnProfile(ps, configs[i]))
    && (forall k :: ProfileForRuntime(ps, merged, k).Some? <==> Names(configs, k))
  }

  predicate Names(configs: seq<Config>, runtimeId: string) {
    exists i :: 0 <= i < |configs| && configs[i].runtimeId == runtimeId
  }

  lemma MergedServesOnly(ps: Providers, configs: seq<Config>, pool: Pool, k: string)
    requires configs != [] && AllOk(ps, configs) && AllEnabled(configs) && Represents(pool, AllItems(configs))
    ensures ProfileForRuntime(ps, MergedConfig(ps, configs, pool), k).Some? <==> Names(configs, k)
  {
    MergedConfigOk(ps, configs, pool);
    ProfileForRuntimeIff(ps, MergedConfig(ps, configs, pool), k);
    OwnProfilesLast(ps, configs, k);
    assert Names(configs, configs[0].runtimeId);
    NamesIff(configs, k);
  }

  lemma NamesIff(configs: seq<Config>, k: string)
    ensures Names(configs, k) <==> LastOf(configs, k) >= 0
  {
    if i: nat :| i < |configs| && configs[i].runtimeId == k {
      LastOfIsLast(configs, k, i);
    }
  }

  lemma MergedServesAll(ps: Providers, configs: seq<Config>, pool: Pool)
    requires configs != [] && AllOk(ps, configs) && AllEnabled(configs) && Represents(pool, AllItems(configs)) && NamesDiffer(configs)
    ensures ServesAll(ps, MergedConfig(ps, configs, pool), configs)
  {
    forall i: nat | i < |configs|
      ensures ProfileForRuntime(ps, MergedConfig(ps, configs, pool), configs[i].runtimeId) == OwnProfile(ps, configs[i])
    {
      SelectedIsLast(ps, configs, pool, i);
      assert LastOf(configs, configs[i].runtimeId) == i;
    }
    forall k
      ensures ProfileForRuntime(ps, MergedConfig(ps, configs, pool), k).Some? <==> Names(configs, k)
    {
      MergedServesOnly(ps, configs, pool, k);
    }
  }

  /** When runtime names differ, as the names in a plan do, every runtime keeps its profile, and the merged
      service has a profile for no other runtime. */
  lemma MergeKeepsProfiles(ps: Providers, services: seq<Service>, serviceId: string, runtimeIds: seq<string>)
    requires Merge(ps, services, serviceId, runtimeIds).Ok? && NamesDiffer(Decoded(ps, services).value)
    ensures var merged := FromJson(ps, Merge(ps, services, serviceId, runtimeIds).value.config);
      merged.Some? && ServesAll(ps, merged.value, Decoded(ps, services).value)
  {
    var configs, pool := MergeDecodes(ps, services, serviceId, runtimeIds);
    MergedServesAll(ps, configs, pool);
  }

  // ----- declared resources

  /** Every resource of every configuration is declared, with the same kind, value and owner and at least its
      names; nothing else is, and identities are in order and come once. */
  predicate DeclaresAll(r: seq<Fields>, items: seq<Fields>) {
    && (forall j | 0 <= j < |items| :: Declared(r, items[j]))
    && (forall k | 0 <= k < |r| :: Known(items, Identity(r[k])))
    && InKeyOrder(r)
  }

  predicate Known(items: seq<Fields>, id: string) {
    exists j :: 0 <= j < |items| && Identity(items[j]) == id
  }

  predicate InKeyOrder(r: seq<Fields>) {
    forall k, l | 0 <= k < l < |r| :: Identity(r[k]) != Identity(r[l]) && Leq(Identity(r[k]), Identity(r[l]))
  }

  predicate Declared(r: seq<Fields>, item: Fields) {
    exists k :: 0 <= k < |r| && Stands(r[k], item)
  }

  lemma ListedAt(pool: Pool, order: seq<string>, k: nat)
    requires Keyed(pool) && multiset(order) == multiset(pool.order) && k < |order|
    ensures order[k] in pool.items && Listed(order, pool)[k] == pool.items[order[k]] && Identity(pool.items[order[k]]) == order[k]
  {
    SameMembers(order, pool.order);
    assert order[k] in pool.order;
  }

  lemma ListedHas(pool: Pool, order: seq<string>, items: seq<Fields>, j: nat)
    requires Represents(pool, items) && multiset(order) == multiset(pool.order) && j < |items|
    ensures Declared(Listed(order, pool), items[j])
  {
    var id := Identity(items[j]);
    SameMembers(order, pool.order);
    assert Stands(pool.items[id], items[j]);
    assert id in order;
    var k :| 0 <= k < |order| && order[k] == id;
    ListedAt(pool, order, k);
    assert Stands(Listed(order, pool)[k], items[j]);
  }

  lemma ListedOnly(pool: Pool, order: seq<string>, items: seq<Fields>, k: nat)
    requires Represents(pool, items) && multiset(order) == multiset(pool.order) && k < |order|
    ensures Known(items, Identity(Listed(order, pool)[k]))
  {
    ListedAt(pool, order, k);
    assert Source(pool.items[order[k]], order[k], items);
  }

  lemma ListedInOrder(pool: Pool)
    requires Keyed(pool)
    ensures InKeyOrder(Listed(Sort(pool.order), pool))
  {
    var order := Sort(pool.order);
    SortSorted(pool.order);
    OnceEach(pool.order, order);
    forall k: nat | k < |order|
      ensures Identity(Listed(order, pool)[k]) == order[k]
    {
      ListedAt(pool, order, k);
    }
  }

  lemma ListedDeclares(pool: Pool, items: seq<Fields>)
    requires Represents(pool, items)
    ensures DeclaresAll(Listed(Sort(pool.order), pool), items)
  {
    var order := Sort(pool.order);
    ListedInOrder(pool);
    forall k: nat | k < |order|
      ensures Known(items, Identity(Listed(order, pool)[k]))
    {
      ListedOnly(pool, order, items, k);
    }
    forall j: nat | j < |items|
      ensures Declared(Listed(order, pool), items[j])
    {
      ListedHas(pool, order, items, j);
    }
  }

  /** The merged service declares the resources of all merged ones. */
  lemma MergeKeepsResources(ps: Providers, services: seq<Service>, serviceId: string, runtimeIds: seq<string>)
    requires Merge(ps, services, serviceId, runtimeIds).Ok?
    ensures var merged := FromJson(ps, Merge(ps, services, serviceId, runtimeIds).value.config);
      merged.Some? && DeclaresAll(merged.value.resources, AllItems(Decoded(ps, services).value))
  {
    var configs, pool := MergeDecodes(ps, services, serviceId, runtimeIds);
    ListedDeclares(pool, AllItems(configs));
  }

  // ----- the names of a shared resource

  /** The names of a resource are the members of its list of sensors that are names, or else its one sensor. */
  lemma NamesAre(f: Fields, v: Json)
    ensures v in NamesOf(f) <==>
      && v.Str? && v.s != ""
      && if "sensor_ids" in f then Iterated(f["sensor_ids"]).Some? && v in Iterated(f["sensor_ids"]).value
         else "sensor_id" in f && f["sensor_id"] == v
  {
  }

  /** The place of a value in a list where it first stands. */
  predicate StandsFirst(vs: seq<Json>, i: nat, v: Json) {
    i < |vs| && vs[i] == v && v !in vs[..i]
  }

  predicate InFirstOrder(names: seq<Json>, vs: seq<Json>) {
    forall k, l | 0 <= k < l < |names| :: ComesFirst(names[k], names[l], vs)
  }

  predicate ComesFirst(a: Json, b: Json, vs: seq<Json>) {
    exists i :: 0 <= i < |vs| && StandsFirst(vs, i, a) && b !in vs[..i]
  }

  lemma ComesFirstGrows(a: Json, b: Json, vs: seq<Json>, v: Json)
    requires ComesFirst(a, b, vs)
    ensures ComesFirst(a, b, vs + [v])
  {
    var i :| 0 <= i < |vs| && StandsFirst(vs, i, a) && b !in vs[..i];
    assert (vs + [v])[..i] == vs[..i];
    assert StandsFirst(vs + [v], i, a);
  }

  lemma NewComesLast(a: Json, v: Json, vs: seq<Json>)
    requires a in vs && v !in vs
    ensures ComesFirst(a, v, vs + [v])
  {
    var i := FirstPlace(vs, a);
    assert (vs + [v])[..i] == vs[..i];
    assert StandsFirst(vs + [v], i, a);
  }

  lemma {:induction false} FirstPlace(vs: seq<Json>, a: Json) returns (i: nat)
    requires a in vs
    ensures StandsFirst(vs, i, a)
    decreases |vs|
  {
    var n := |vs| - 1;
    if a in vs[..n] {
      i := FirstPlace(vs[..n], a);
      assert vs[..n][..i] == vs[..i];
    } else {
      i := n;
    }
  }

  lemma {:induction false} DistinctInOrder(vs: seq<Json>)
    ensures InFirstOrder(Distinct(vs), vs)
    decreases |vs|
  {
    if vs != [] {
      var n := |vs| - 1;
      var before, names := Distinct(vs[..n]), Distinct(vs);
      DistinctInOrder(vs[..n]);
      assert vs[..n] + [vs[n]] == vs;
      forall k, l | 0 <= k < l < |names|
        ensures ComesFirst(names[k], names[l], vs)
      {
        if l < |before| {
          ComesFirstGrows(before[k], before[l], vs[..n], vs[n]);
        } else {
          NewComesLast(before[k], vs[n], vs[..n]);
        }
      }
    }
  }

  /** Where two declarations share a resource, its names are listed once each in the order in which the earlier and
      then the later declaration first give them; everything else is as in the earlier one. */
  lemma MergedNames(previous: Fields, item: Fields)
    requires MergeItem(previous, item).Ok?
    ensures var m := MergeItem(previous, item).value;
      && Aliases(previous).Some? && Aliases(item).Some? && "sensor_ids" in m && m["sensor_ids"].List?
      && m == previous["sensor_ids" := m["sensor_ids"]]
      && InFirstOrder(m["sensor_ids"].items, Aliases(previous).value + Aliases(item).value)
  {
    DistinctInOrder(Aliases(previous).value + Aliases(item).value);
  }

  // ----- what else becomes of the services

  /** Identities, each once, in the order in which the items first bring them up. */
  predicate FirstSeen(ids: seq<string>, items: seq<Fields>) {
    && (forall j | 0 <= j < |items| :: Identity(items[j]) in ids)
    && (forall k | 0 <= k < |ids| :: Known(items, ids[k]))
    && (forall k, l | 0 <= k < l < |ids| :: Before(items, ids[k], ids[l]))
  }

  /** Some item has the one identity, and no item up to it has the other. */
  predicate Before(items: seq<Fields>, id: string, other: string) {
    exists j :: 0 <= j < |items| && Identity(items[j]) == id && NoneUpTo(items, j, other)
  }

  predicate NoneUpTo(items: seq<Fields>, j: nat, id: string)
    requires j < |items|
  {
    forall i | 0 <= i <= j :: Identity(items[i]) != id
  }

  lemma BeforeGrows(items: seq<Fields>, item: Fields, id: string, other: string)
    requires Before(items, id, other)
    ensures Before(items + [item], id, other)
  {
    var all := items + [item];
    var j :| 0 <= j < |items| && Identity(items[j]) == id && NoneUpTo(items, j, other);
    assert all[j] == items[j] && NoneUpTo(all, j, other);
  }

  lemma NewIsLast(ids: seq<string>, items: seq<Fields>, item: Fields, k: nat)
    requires FirstSeen(ids, items) && k < |ids| && Identity(item) !in ids
    ensures Before(items + [item], ids[k], Identity(item))
  {
    var all := items + [item];
    assert Known(items, ids[k]);
    var j :| 0 <= j < |items| && Identity(items[j]) == ids[k];
    assert forall i | 0 <= i <= j :: all[i] == items[i];
    assert all[j] == items[j] && NoneUpTo(all, j, Identity(item));
  }

  lemma KnownGrows(items: seq<Fields>, item: Fields, id: string)
    requires Known(items, id) || Identity(item) == id
    ensures Known(items + [item], id)
  {
    var all := items + [item];
    assert all[|items|] == item;
    if j :| 0 <= j < |items| && Identity(items[j]) == id {
      assert all[j] == items[j];
    }
  }

  lemma SeenGrows(ids: seq<string>, items: seq<Fields>, item: Fields)
    requires FirstSeen(ids, items)
    ensures FirstSeen(if Identity(item) in ids then ids else ids + [Identity(item)], items + [item])
  {
    var all, id := items + [item], Identity(item);
    var more := if id in ids then ids else ids + [id];
    forall j | 0 <= j < |all|
      ensures Identity(all[j]) in more
    {
      assert j < |items| ==> all[j] == items[j];
    }
    forall k | 0 <= k < |more|
      ensures Known(all, more[k])
    {
      KnownGrows(items, item, more[k]);
    }
    forall k, l | 0 <= k < l < |more|
      ensures Before(all, more[k], more[l])
    {
      if l < |ids| {
        BeforeGrows(items, item, ids[k], ids[l]);
      } else {
        NewIsLast(ids, items, item, k);
      }
    }
  }

  lemma {:induction false} AddItemsSeen(pool: Pool, before: seq<Fields>, items: seq<Fields>)
    requires AddItems(Ok(pool), items).Ok? && FirstSeen(pool.order, before)
    requires forall k :: k in pool.items <==> k in pool.order
    ensures FirstSeen(AddItems(Ok(pool), items).value.order, before + items)
    decreases |items|
  {
    if items == [] {
      assert before + items == before;
    } else {
      var next := AddItem(pool, items[0]);
      assert next.Ok? && AddItems(next, items[1..]) == AddItems(Ok(pool), items);
      SeenGrows(pool.order, before, items[0]);
      AddItemOrder(pool, items[0]);
      AddItemsSeen(next.value, before + [items[0]], items[1..]);
      assert before + [items[0]] + items[1..] == before + items;
    }
  }

  lemma AddItemOrder(pool: Pool, item: Fields)
    requires AddItem(pool, item).Ok? && forall k :: k in pool.items <==> k in pool.order
    ensures var after := AddItem(pool, item).value;
      && after.order == (if Identity(item) in pool.order then pool.order else pool.order + [Identity(item)])
      && forall k :: k in after.items <==> k in after.order
  {
  }

  lemma PoolSeen(items: seq<Fields>)
    requires AddItems(Ok(NO_RESOURCES), items).Ok?
    ensures FirstSeen(AddItems(Ok(NO_RESOURCES), items).value.order, items)
  {
    AddItemsSeen(NO_RESOURCES, [], items);
    assert [] + items == items;
  }

  lemma MergePasses(ps: Providers, services: seq<Service>, serviceId: string, runtimeIds: seq<string>, configs: seq<Config>)
    requires Merge(ps, services, serviceId, runtimeIds).Ok? && Decoded(ps, services) == Some(configs) && configs != []
    ensures services != [] && AddItems(Ok(NO_RESOURCES), AllItems(configs)).Ok?
    ensures var m := Merge(ps, services, serviceId, runtimeIds).value;
      && m.serviceId == serviceId && m.runtimeIds == runtimeIds
      && m.endpoint == services[0].endpoint && m.ownerId == services[0].ownerId
      && m.resourceIds == AddItems(Ok(NO_RESOURCES), AllItems(configs)).value.order
  {
  }

  lemma MergeHasParts(ps: Providers, services: seq<Service>, serviceId: string, runtimeIds: seq<string>)
    requires Merge(ps, services, serviceId, runtimeIds).Ok?
    ensures services != [] && Decoded(ps, services).Some? && Decoded(ps, services).value != []
  {
    var configs, pool := MergeDecodes(ps, services, serviceId, runtimeIds);
  }

  lemma FirstDecoded(ps: Providers, services: seq<Service>)
    requires Decoded(ps, services).Some? && services != []
    ensures FromJson(ps, services[0].config) == Some(Decoded(ps, services).value[0])
  {
  }

  /** The merged service has the given name and runtimes, the endpoint and owner of the first service, and the
      identities of all resources in the order of their first declaration. */
  lemma MergeKeepsRest(ps: Providers, services: seq<Service>, serviceId: string, runtimeIds: seq<string>)
    requires Merge(ps, services, serviceId, runtimeIds).Ok?
    ensures var m := Merge(ps, services, serviceId, runtimeIds).value;
      && services != [] && Decoded(ps, services).Some?
      && m.serviceId == serviceId && m.runtimeIds == runtimeIds
      && m.endpoint == services[0].endpoint && m.ownerId == services[0].ownerId
      && FirstSeen(m.resourceIds, AllItems(Decoded(ps, services).value))
  {
    MergeHasParts(ps, services, serviceId, runtimeIds);
    var configs := Decoded(ps, services).value;
    MergePasses(ps, services, serviceId, runtimeIds, configs);
    PoolSeen(AllItems(configs));
  }

  /** Its configuration is that of the first service but for profiles and resources. */
  lemma MergeKeepsConfig(ps: Providers, services: seq<Service>, serviceId: string, runtimeIds: seq<string>)
    requires Merge(ps, services, serviceId, runtimeIds).Ok?
    ensures services != []
    ensures var merged, first := FromJson(ps, Merge(ps, services, serviceId, runtimeIds).value.config),
                                 FromJson(ps, services[0].config);
      merged.Some? && first.Some?
      && merged.value == first.value.(profiles := merged.value.profiles, resources := merged.value.resources)
  {
    var configs, pool := MergeDecodes(ps, services, serviceId, runtimeIds);
    MergePasses(ps, services, serviceId, runtimeIds, configs);
    FirstDecoded(ps, services);
  }
}
