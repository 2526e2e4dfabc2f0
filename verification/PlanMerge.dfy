/** The merge as the planner runs it: loops that fill dictionaries, proved against `ServiceMerge`. */
module PlanMerge {
  import opened Wrappers
  import opened Contracts
  import opened KeyOrder
  import opened ServiceMerge

  method DecodeEach<S, T>(list: seq<S>, decode: S -> Option<T>) returns (r: Option<seq<T>>)
    ensures r == EachDecoded(list, decode)
  {
    var done: seq<T> := [];
    for i := 0 to |list|
      invariant |done| == i
      invariant forall j | 0 <= j < i :: decode(list[j]) == Some(done[j])
    {
      var c := decode(list[i]);
      if c.None? {
        return None;
      }
      done := done + [c.value];
    }
    assert EachDecoded(list, decode).value == done;
    return Some(done);
  }

  lemma {:induction false} AddItemsSplit(pool: Result<Pool, MergeError>, a: seq<Fields>, b: seq<Fields>)
    ensures AddItems(pool, a + b) == AddItems(AddItems(pool, a), b)
    decreases |a|
  {
    if a == [] {
      assert a + b == b;
    } else if pool.Ok? {
      assert (a + b)[1..] == a[1..] + b;
      AddItemsSplit(AddItem(pool.value, a[0]), a[1..], b);
    }
  }

  lemma {:induction false} AllItemsSplit(a: seq<Config>, b: seq<Config>)
    ensures AllItems(a + b) == AllItems(a) + AllItems(b)
    decreases |a|
  {
    if a == [] {
      assert a + b == b;
    } else {
      assert (a + b)[1..] == a[1..] + b;
      AllItemsSplit(a[1..], b);
    }
  }

  lemma AllItemsNext(configs: seq<Config>, i: nat)
    requires i < |configs|
    ensures AllItems(configs[..i + 1]) == AllItems(configs[..i]) + configs[i].resources
  {
    assert configs[..i + 1] == configs[..i] + [configs[i]];
    AllItemsSplit(configs[..i], [configs[i]]);
    assert AllItems([configs[i]]) == configs[i].resources;
  }

  lemma AllItemsRest(configs: seq<Config>, i: nat)
    requires i <= |configs|
    ensures AllItems(configs) == AllItems(configs[..i]) + AllItems(configs[i..])
  {
    assert configs == configs[..i] + configs[i..];
    AllItemsSplit(configs[..i], configs[i..]);
  }

  /** The inner loop: one configuration's resources. */
  method AddResources(start: Pool, items: seq<Fields>) returns (pool: Result<Pool, MergeError>)
    ensures pool == AddItems(Ok(start), items)
  {
    pool := Ok(start);
    for i := 0 to |items|
      invariant pool.Ok? && AddItems(pool, items[i..]) == AddItems(Ok(start), items)
    {
      pool := AddItem(pool.value, items[i]);
      assert items[i..][1..] == items[i + 1..];
      if pool.Err? {
        return;
      }
    }
  }

  method Gather(ps: Providers, configs: seq<Config>) returns (profiles: map<string, Profile>, pool: Result<Pool, MergeError>)
    ensures pool == AddItems(Ok(NO_RESOURCES), AllItems(configs))
    ensures pool.Ok? ==> profiles == OwnProfiles(ps, configs)
  {
    profiles, pool := map[], Ok(NO_RESOURCES);
    for i := 0 to |configs|
      invariant pool.Ok? && pool == AddItems(Ok(NO_RESOURCES), AllItems(configs[..i]))
      invariant profiles == OwnProfiles(ps, configs[..i])
    {
      var own := OwnProfile(ps, configs[i]);
      if own.Some? {
        profiles := profiles[own.value.runtimeId := own.value];
      }
      assert configs[..i + 1][..i] == configs[..i];
      AllItemsNext(configs, i);
      AllItemsRest(configs, i + 1);
      AddItemsSplit(Ok(NO_RESOURCES), AllItems(configs[..i]), configs[i].resources);
      AddItemsSplit(Ok(NO_RESOURCES), AllItems(configs[..i + 1]), AllItems(configs[i + 1..]));
      pool := AddResources(pool.value, configs[i].resources);
      if pool.Err? {
        return;
      }
    }
    assert configs[..|configs|] == configs;
  }

  method MergeControlServices(ps: Providers, services: seq<Service>, serviceId: string, runtimeIds: seq<string>)
    returns (r: Result<Service, MergeError>)
    ensures r == Merge(ps, services, serviceId, runtimeIds)
  {
    if services == [] {
      return Err(EmptyGroup);
    }
    var decoded := DecodeEach(services, ServiceDecoder(ps));
    if decoded.None? {
      return Err(BadConfig);
    }
    var configs := decoded.value;
    var refused := Refused(configs);
    if refused.Some? {
      return Err(refused.value);
    }
    var profiles, pool := Gather(ps, configs);
    if pool.Err? {
      return Err(pool.error);
    }
    if !OneRobot(configs) {
      return Err(DifferentRobots);
    }
    var merged := MadeConfig(ps, configs[0].(profiles := profiles, resources := Listed(Sort(pool.value.order), pool.value)));
    if merged.None? {
      return Err(BadConfig);
    }
    return Ok(services[0].(serviceId := serviceId, config := ToJson(merged.value), resourceIds := pool.value.order,
                           runtimeIds := runtimeIds));
  }
}
