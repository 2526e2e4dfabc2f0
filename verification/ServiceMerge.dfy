/** Merging the control services of one physical robot into one process that serves every runtime. */
module ServiceMerge {
  import opened Wrappers
  import opened Contracts
  import opened KeyOrder

  datatype Service = Service(
    serviceId: string,
    endpoint: string,
    config: Json,
    ownerId: string,
    resourceIds: seq<string>,
    runtimeIds: seq<string>)

  datatype MergeError =
    | EmptyGroup
    | BadConfig
    | MixedModes
    | DeviceOnly
    | Wireless
    | IncompatibleResource
    | BadAliases
    | DifferentRobots

  // ----- resources

  /** A member, or null if it is missing. */
  function Lookup(f: Fields, key: string): Json {
    Get(f, key, Null)
  }

  function Identity(f: Fields): string {
    if TextAt(f, "identity") then f["identity"].s else ""
  }

  predicate SameAt(a: Fields, b: Fields, key: string) {
    Same(Lookup(a, key), Lookup(b, key))
  }

  /** The declarations that must be the same wherever a resource is shared. */
  predicate Agree(a: Fields, b: Fields) {
    SameAt(a, b, "kind") && SameAt(a, b, "value") && SameAt(a, b, "owner")
  }

  function Texts(names: seq<string>): seq<Json> {
    seq(|names|, i requires 0 <= i < |names| => Str(names[i]))
  }

  /** What iterating a value gives: the items of a list, the characters of a string, the keys of an object;
      nothing else can be iterated. */
  function Iterated(v: Json): Option<seq<Json>> {
    match v
    case List(items) => Some(items)
    case Str(s) => Some(Texts(seq(|s|, i requires 0 <= i < |s| => [s[i]])))
    case Obj(fields) => Some(Texts(InOrder(fields.Keys)))
    case _ => None
  }

  /** The sensor names a resource is known by; `None` if they cannot be iterated. */
  function Aliases(f: Fields): Option<seq<Json>> {
    if "sensor_ids" in f then Iterated(f["sensor_ids"]) else Some([Lookup(f, "sensor_id")])
  }

  predicate IsName(v: Json) {
    v.Str? && v.s != ""
  }

  function NamesOf(f: Fields): set<Json> {
    if Aliases(f).Some? then (set v | v in Aliases(f).value && IsName(v)) else {}
  }

  /** The names of a list, each once, where it first stands. */
  function Distinct(vs: seq<Json>): (r: seq<Json>)
    ensures forall v :: v in r <==> v in vs && IsName(v)
    ensures forall i, j | 0 <= i < j < |r| :: r[i] != r[j]
  {
    if vs == [] then []
    else
      var n := |vs| - 1;
      var before := Distinct(vs[..n]);
      if IsName(vs[n]) && vs[n] !in before then before + [vs[n]] else before
  }

  function MergeItem(previous: Fields, item: Fields): Result<Fields, MergeError> {
    if !Agree(previous, item) then Err(IncompatibleResource)
    else if Aliases(previous).None? || Aliases(item).None? then Err(BadAliases)
    else Ok(previous["sensor_ids" := List(Distinct(Aliases(previous).value + Aliases(item).value))])
  }

  /** Resources by identity, in the order in which identities first came up. */
  datatype Pool = Pool(order: seq<string>, items: map<string, Fields>)

  const NO_RESOURCES := Pool([], map[])

  function AddItem(pool: Pool, item: Fields): Result<Pool, MergeError> {
    var id := Identity(item);
    if id !in pool.items then Ok(Pool(pool.order + [id], pool.items[id := item]))
    else
      var merged := MergeItem(pool.items[id], item);
      if merged.Err? then Err(merged.error) else Ok(pool.(items := pool.items[id := merged.value]))
  }

  function AddItems(pool: Result<Pool, MergeError>, items: seq<Fields>): Result<Pool, MergeError>
    decreases |items|
  {
    if items == [] || pool.Err? then pool else AddItems(AddItem(pool.value, items[0]), items[1..])
  }

  function AllItems(configs: seq<Config>): seq<Fields> {
    if configs == [] then [] else configs[0].resources + AllItems(configs[1..])
  }

  // ----- profiles

  function OwnProfile(ps: Providers, c: Config): Option<Profile> {
    ProfileForRuntime(ps, c, c.runtimeId)
  }

  /** The own profiles by runtime; where runtimes repeat, the last one counts. */
  function OwnProfiles(ps: Providers, configs: seq<Config>): map<string, Profile> {
    if configs == [] then map[]
    else
      var n := |configs| - 1;
      var p, before := OwnProfile(ps, configs[n]), OwnProfiles(ps, configs[..n]);
      if p.Some? then before[p.value.runtimeId := p.value] else before
  }

  // ----- the merge

  /** All results of a decoder, or none. */
  function EachDecoded<S, T>(list: seq<S>, decode: S -> Option<T>): Option<seq<T>> {
    if forall i | 0 <= i < |list| :: decode(list[i]).Some? then
      Some(seq(|list|, i requires 0 <= i < |list| && decode(list[i]).Some? => decode(list[i]).value))
    else None
  }

  function ServiceDecoder(ps: Providers): Service -> Option<Config> {
    (s: Service) => FromJson(ps, s.config)
  }

  function Decoded(ps: Providers, services: seq<Service>): Option<seq<Config>> {
    EachDecoded(services, ServiceDecoder(ps))
  }

  /** What the merge refuses before it looks at resources. */
  function Refused(configs: seq<Config>): Option<MergeError>
    requires configs != []
  {
    if exists i | 0 <= i < |configs| :: configs[i].enabled != configs[0].enabled then Some(MixedModes)
    else if !configs[0].enabled then Some(DeviceOnly)
    else if exists i | 0 <= i < |configs| :: configs[i].transport == "wireless" then Some(Wireless)
    else None
  }

  predicate OneRobot(configs: seq<Config>) {
    forall i | 0 <= i < |configs| :: configs[i].robotKind == configs[0].robotKind && configs[i].robotId == configs[0].robotId
  }

  function Listed(order: seq<string>, pool: Pool): seq<Fields> {
    seq(|order|, i requires 0 <= i < |order| => if order[i] in pool.items then pool.items[order[i]] else map[])
  }

  function MergedConfig(ps: Providers, configs: seq<Config>, pool: Pool): Config
    requires configs != []
  {
    configs[0].(profiles := OwnProfiles(ps, configs), resources := Listed(Sort(pool.order), pool))
  }

  /** The configuration of the merged process, and its pooled resources. */
  function MergeConfigs(ps: Providers, configs: seq<Config>): Result<(Config, Pool), MergeError>
    requires configs != []
  {
    var refused, pool := Refused(configs), AddItems(Ok(NO_RESOURCES), AllItems(configs));
    if refused.Some? then Err(refused.value)
    else if pool.Err? then Err(pool.error)
    else if !OneRobot(configs) then Err(DifferentRobots)
    else
      var made := MadeConfig(ps, MergedConfig(ps, configs, pool.value));
      if made.None? then Err(BadConfig) else Ok((made.value, pool.value))
  }

  function Merge(ps: Providers, services: seq<Service>, serviceId: string, runtimeIds: seq<string>)
    : Result<Service, MergeError>
  {
    if services == [] then Err(EmptyGroup)
    else
      var configs := Decoded(ps, services);
      if configs.None? then Err(BadConfig)
      else
        var merged := MergeConfigs(ps, configs.value);
        if merged.Err? then Err(merged.error)
        else
          Ok(services[0].(serviceId := serviceId, config := ToJson(merged.value.0), resourceIds := merged.value.1.order,
                          runtimeIds := runtimeIds))
  }
}
