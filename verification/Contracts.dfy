/** The control configuration exchanged by Host and Control: its objects, their encoding as JSON values, and
    the decoder. `None` stands for a rejected message or object. */
module Contracts {
  import opened Wrappers

  datatype Json =
    | Null
    | Bool(flag: bool)
    | Int(i: int)
    | Float(x: real)
    | Str(s: string)
    | List(items: seq<Json>)
    | Obj(fields: map<string, Json>)

  type Fields = map<string, Json>

  predicate IsNumber(v: Json) {
    v.Bool? || v.Int? || v.Float?
  }

  function NumberOf(v: Json): real
    requires IsNumber(v)
  {
    if v.Bool? then (if v.flag then 1.0 else 0.0) else if v.Int? then v.i as real else v.x
  }

  /** Python's `==` on decoded JSON: numbers and booleans by value, lists and objects member by member. */
  predicate Same(a: Json, b: Json)
    decreases a
  {
    if IsNumber(a) && IsNumber(b) then NumberOf(a) == NumberOf(b)
    else if a.List? && b.List? then
      |a.items| == |b.items| && forall i | 0 <= i < |a.items| :: Same(a.items[i], b.items[i])
    else if a.Obj? && b.Obj? then
      a.fields.Keys == b.fields.Keys && forall k | k in a.fields :: Same(a.fields[k], b.fields[k])
    else a == b
  }

  predicate SameFields(a: Fields, b: Fields) {
    Same(Obj(a), Obj(b))
  }

  lemma {:induction false} SameReflexive(a: Json)
    ensures Same(a, a)
    decreases a
  {
    if a.List? {
      forall i | 0 <= i < |a.items|
        ensures Same(a.items[i], a.items[i])
      {
        SameReflexive(a.items[i]);
      }
    } else if a.Obj? {
      forall k | k in a.fields
        ensures Same(a.fields[k], a.fields[k])
      {
        SameReflexive(a.fields[k]);
      }
    }
  }

  lemma {:induction false} SameSymmetric(a: Json, b: Json)
    requires Same(a, b)
    ensures Same(b, a)
    decreases a
  {
    if a.List? {
      forall i | 0 <= i < |a.items|
        ensures Same(b.items[i], a.items[i])
      {
        SameSymmetric(a.items[i], b.items[i]);
      }
    } else if a.Obj? {
      forall k | k in b.fields
        ensures Same(b.fields[k], a.fields[k])
      {
        SameSymmetric(a.fields[k], b.fields[k]);
      }
    }
  }

  lemma {:induction false} SameTransitive(a: Json, b: Json, c: Json)
    requires Same(a, b) && Same(b, c)
    ensures Same(a, c)
    decreases a
  {
    if a.List? {
      forall i | 0 <= i < |a.items|
        ensures Same(a.items[i], c.items[i])
      {
        SameTransitive(a.items[i], b.items[i], c.items[i]);
      }
    } else if a.Obj? {
      forall k | k in a.fields
        ensures Same(a.fields[k], c.fields[k])
      {
        SameTransitive(a.fields[k], b.fields[k], c.fields[k]);
      }
    }
  }

  predicate IsSpace(c: char) {
    var n := c as int;
    || 9 <= n <= 13 || 28 <= n <= 32 || n == 0x85 || n == 0xA0 || n == 0x1680 || 0x2000 <= n <= 0x200A
    || n == 0x2028 || n == 0x2029 || n == 0x202F || n == 0x205F || n == 0x3000
  }

  /** Empty once stripped. */
  predicate Blank(s: string) {
    forall i | 0 <= i < |s| :: IsSpace(s[i])
  }

  // ----- the objects

  datatype SensorInput = SensorInput(sensorId: string, name: string, kind: string, options: Fields)

  datatype Profile = Profile(
    runtimeId: string,
    binding: string,
    transport: string,
    endpoint: string,
    options: Fields,
    inputs: seq<SensorInput>,
    runtimeOptions: Fields,
    backend: string)

  datatype Config = Config(
    runtimeId: string,
    binding: string,
    bind: string,
    port: int,
    transport: string,
    endpoint: string,
    options: Fields,
    robotId: string,
    robotKind: string,
    robotOptions: Fields,
    inputs: seq<SensorInput>,
    runtimeOptions: Fields,
    backend: string,
    nodeId: string,
    resources: seq<Fields>,
    profiles: map<string, Profile>,
    enabled: bool)

  /** The registered inference providers. */
  datatype Provider = Provider(transports: set<string>, actionCapable: bool)

  type Providers = map<string, Provider>

  predicate SensorOk(s: SensorInput) {
    !Blank(s.sensorId) && !Blank(s.name) && !Blank(s.kind)
  }

  predicate InputsOk(inputs: seq<SensorInput>) {
    && (forall i | 0 <= i < |inputs| :: SensorOk(inputs[i]))
    && forall i, j | 0 <= i < j < |inputs| :: inputs[i].name != inputs[j].name
  }

  predicate ProviderOk(ps: Providers, backend: string, transport: string) {
    backend in ps && transport in ps[backend].transports && ps[backend].actionCapable
  }

  /** Construction rejects any other profile. */
  predicate ProfileOk(ps: Providers, p: Profile) {
    && !Blank(p.runtimeId) && !Blank(p.binding) && !Blank(p.transport) && !Blank(p.endpoint) && !Blank(p.backend)
    && ProviderOk(ps, p.backend, p.transport)
    && p.inputs != [] && InputsOk(p.inputs)
  }

  predicate TextAt(f: Fields, key: string) {
    key in f && f[key].Str? && !Blank(f[key].s)
  }

  predicate ResourceOk(f: Fields) {
    TextAt(f, "identity") && TextAt(f, "kind")
  }

  predicate InferenceOk(ps: Providers, c: Config) {
    if c.enabled then
      && !Blank(c.backend) && !Blank(c.transport) && !Blank(c.endpoint)
      && (c.transport == "http" || c.transport == "wireless")
      && ProviderOk(ps, c.backend, c.transport)
      && c.inputs != []
    else c.transport == "disabled"
  }

  /** Construction rejects any other configuration. */
  predicate ConfigOk(ps: Providers, c: Config) {
    && !Blank(c.runtimeId) && !Blank(c.binding) && !Blank(c.robotId) && !Blank(c.robotKind) && !Blank(c.nodeId)
    && (c.bind == "127.0.0.1" || c.bind == "localhost" || c.bind == "::1")
    && 1 <= c.port <= 65535
    && InferenceOk(ps, c)
    && (forall i | 0 <= i < |c.resources| :: ResourceOk(c.resources[i]))
    && (forall k | k in c.profiles :: !Blank(k) && k == c.profiles[k].runtimeId && ProfileOk(ps, c.profiles[k]))
    && InputsOk(c.inputs)
  }

  // ----- encoding

  function SensorJson(s: SensorInput): Json {
    Obj(map["sensor_id" := Str(s.sensorId), "name" := Str(s.name), "type" := Str(s.kind), "options" := Obj(s.options)])
  }

  function InputsJson(inputs: seq<SensorInput>): Json {
    List(seq(|inputs|, i requires 0 <= i < |inputs| => SensorJson(inputs[i])))
  }

  function InferenceJson(backend: string, transport: string, endpoint: string, options: Fields): Json {
    Obj(map["backend" := Str(backend), "transport" := Str(transport), "endpoint" := Str(endpoint), "options" := Obj(options)])
  }

  function ToPayload(p: Profile): Json {
    Obj(map["binding" := Str(p.binding),
            "inference" := InferenceJson(p.backend, p.transport, p.endpoint, p.options),
            "inputs" := InputsJson(p.inputs),
            "runtime_options" := Obj(p.runtimeOptions)])
  }

  function ResourcesJson(resources: seq<Fields>): Json {
    List(seq(|resources|, i requires 0 <= i < |resources| => Obj(resources[i])))
  }

  const SCHEMA := "rlinf.control.config.v1"

  function PayloadsOf(profiles: map<string, Profile>): (f: Fields)
    ensures f.Keys == profiles.Keys
  {
    map k | k in profiles :: ToPayload(profiles[k])
  }

  /** What the encoding says about inference. */
  function InferencePart(c: Config): Fields {
    if c.enabled then InferenceJson(c.backend, c.transport, c.endpoint, c.options).fields else map["enabled" := Bool(false)]
  }

  function RuntimePart(c: Config): Fields {
    map["schema" := Str(SCHEMA),
        "runtime_id" := Str(c.runtimeId),
        "binding" := Str(c.binding),
        "inference" := Obj(InferencePart(c))]
  }

  function RobotPart(c: Config): Fields {
    map["server" := Obj(map["bind" := Str(c.bind), "port" := Int(c.port)]),
        "robot" := Obj(map["id" := Str(c.robotId), "type" := Str(c.robotKind), "options" := Obj(c.robotOptions)]),
        "inputs" := InputsJson(c.inputs),
        "runtime_options" := Obj(c.runtimeOptions)]
  }

  /** Members that are written only if they say something. */
  function OptionalPart(c: Config): Fields {
    (if c.nodeId != "local" then map["node_id" := Str(c.nodeId)] else map[])
    + (if c.resources != [] then map["device_resources" := ResourcesJson(c.resources)] else map[])
    + (if c.profiles != map[] then map["runtime_profiles" := Obj(PayloadsOf(c.profiles))] else map[])
  }

  function ToJson(c: Config): Json {
    Obj(RuntimePart(c) + RobotPart(c) + OptionalPart(c))
  }

  // ----- decoding

  function Get(f: Fields, key: string, absent: Json): Json {
    if key in f then f[key] else absent
  }

  const EMPTY := Obj(map[])

  function AsObj(v: Json): Option<Fields> {
    if v.Obj? then Some(v.fields) else None
  }

  function AsList(v: Json): Option<seq<Json>> {
    if v.List? then Some(v.items) else None
  }

  /** A required string member. */
  function Text(f: Fields, key: string): Option<string> {
    if TextAt(f, key) then Some(f[key].s) else None
  }

  function TextOr(f: Fields, key: string, absent: string): Option<string> {
    if key in f then Text(f, key) else Some(absent)
  }

  function Only(f: Fields, allowed: set<string>): Option<()> {
    if f.Keys <= allowed then Some(()) else None
  }

  function SensorFrom(v: Json): Option<SensorInput> {
    var f :- AsObj(v);
    var _ :- Only(f, {"sensor_id", "name", "type", "options"});
    var id :- Text(f, "sensor_id");
    var name :- Text(f, "name");
    var kind :- Text(f, "type");
    var options :- AsObj(Get(f, "options", EMPTY));
    Some(SensorInput(id, name, kind, options))
  }

  function InputsFrom(vs: seq<Json>): Option<seq<SensorInput>> {
    if forall i | 0 <= i < |vs| :: SensorFrom(vs[i]).Some? then
      Some(seq(|vs|, i requires 0 <= i < |vs| && SensorFrom(vs[i]).Some? => SensorFrom(vs[i]).value))
    else None
  }

  function MadeProfile(ps: Providers, p: Profile): Option<Profile> {
    if ProfileOk(ps, p) then Some(p) else None
  }

  function FromPayload(ps: Providers, runtimeId: string, v: Json): Option<Profile> {
    var f :- AsObj(v);
    var _ :- Only(f, {"binding", "inference", "inputs", "runtime_options"});
    var inference :- AsObj(Get(f, "inference", Null));
    var _ :- Only(inference, {"backend", "transport", "endpoint", "options"});
    var items :- AsList(Get(f, "inputs", Null));
    var binding :- Text(f, "binding");
    var backend :- TextOr(inference, "backend", "vvla");
    var transport :- Text(inference, "transport");
    var endpoint :- Text(inference, "endpoint");
    var options :- AsObj(Get(inference, "options", EMPTY));
    var inputs :- InputsFrom(items);
    var runtimeOptions :- AsObj(Get(f, "runtime_options", EMPTY));
    MadeProfile(ps, Profile(runtimeId, binding, transport, endpoint, options, inputs, runtimeOptions, backend))
  }

  /** Decodes every member of an object, or none. */
  function EachFrom<T>(f: Fields, decode: (string, Json) -> Option<T>): Option<map<string, T>> {
    if forall k | k in f :: decode(k, f[k]).Some? then Some(map k | k in f :: decode(k, f[k]).value) else None
  }

  lemma EachFromIs<T>(f: Fields, decode: (string, Json) -> Option<T>, m: map<string, T>)
    requires f.Keys == m.Keys && forall k | k in m :: decode(k, f[k]) == Some(m[k])
    ensures EachFrom(f, decode) == Some(m)
  {
    assert EachFrom(f, decode).value == m;
  }

  function PayloadDecoder(ps: Providers): (string, Json) -> Option<Profile> {
    (runtimeId, v) => FromPayload(ps, runtimeId, v)
  }

  function ResourcesFrom(vs: seq<Json>): Option<seq<Fields>> {
    if forall i | 0 <= i < |vs| :: vs[i].Obj? then
      Some(seq(|vs|, i requires 0 <= i < |vs| && vs[i].Obj? => vs[i].fields))
    else None
  }

  function PortFrom(v: Json): Option<int> {
    if v.Int? then Some(v.i) else None
  }

  /** The decoded inference part: enabled, backend, transport, endpoint and options. */
  function InferenceFrom(f: Fields): Option<(bool, string, string, string, Fields)> {
    var _ :- Only(f, {"backend", "transport", "endpoint", "options", "enabled"});
    var enabled :- FlagFrom(Get(f, "enabled", Bool(true)));
    var backend :- TextOr(f, "backend", "vvla");
    var transport :- if enabled then Text(f, "transport") else Some("disabled");
    var endpoint :- if enabled then Text(f, "endpoint") else Some("");
    var options :- AsObj(Get(f, "options", EMPTY));
    Some((enabled, backend, transport, endpoint, options))
  }

  function FlagFrom(v: Json): Option<bool> {
    if v.Bool? then Some(v.flag) else None
  }

  function MadeConfig(ps: Providers, c: Config): Option<Config> {
    if ConfigOk(ps, c) then Some(c) else None
  }

  /** The members that describe server and robot. */
  function ServerFrom(v: Json): Option<(string, int)> {
    var f :- AsObj(v);
    var _ :- Only(f, {"bind", "port"});
    var bind :- Text(f, "bind");
    var port :- PortFrom(Get(f, "port", Null));
    Some((bind, port))
  }

  function RobotFrom(v: Json): Option<(string, string, Fields)> {
    var f :- AsObj(v);
    var _ :- Only(f, {"id", "type", "options"});
    var id :- Text(f, "id");
    var kind :- Text(f, "type");
    var options :- AsObj(Get(f, "options", EMPTY));
    Some((id, kind, options))
  }

  const MEMBERS := {"schema", "runtime_id", "binding", "server", "inference", "robot", "inputs", "runtime_options",
                    "node_id", "device_resources", "runtime_profiles"}

  /** The members of a configuration message, before the object is built and validated. */
  function ConfigFrom(ps: Providers, f: Fields): Option<Config> {
    var server :- ServerFrom(Get(f, "server", Null));
    var inferenceFields :- AsObj(Get(f, "inference", Null));
    var inference :- InferenceFrom(inferenceFields);
    var robot :- RobotFrom(Get(f, "robot", Null));
    var items :- AsList(Get(f, "inputs", Null));
    var resourceItems :- AsList(Get(f, "device_resources", List([])));
    var profileFields :- AsObj(Get(f, "runtime_profiles", EMPTY));
    var profiles :- EachFrom(profileFields, PayloadDecoder(ps));
    var runtimeId :- Text(f, "runtime_id");
    var binding :- Text(f, "binding");
    var inputs :- InputsFrom(items);
    var runtimeOptions :- AsObj(Get(f, "runtime_options", EMPTY));
    var nodeId :- TextOr(f, "node_id", "local");
    var resources :- ResourcesFrom(resourceItems);
    Some(Config(runtimeId, binding, server.0, server.1, inference.2, inference.3, inference.4,
                robot.0, robot.1, robot.2, inputs, runtimeOptions, inference.1, nodeId, resources,
                profiles, inference.0))
  }

  function FromJson(ps: Providers, v: Json): Option<Config> {
    var f :- AsObj(v);
    var _ :- if Get(f, "schema", Null) == Str(SCHEMA) then Some(()) else None;
    var _ :- Only(f, MEMBERS);
    var c :- ConfigFrom(ps, f);
    MadeConfig(ps, c)
  }

  /** The profile a runtime of this service runs with. */
  function ProfileForRuntime(ps: Providers, c: Config, runtimeId: string): Option<Profile> {
    if !c.enabled then None
    else if runtimeId in c.profiles then Some(c.profiles[runtimeId])
    else if runtimeId != c.runtimeId then None
    else MadeProfile(ps, Profile(c.runtimeId, c.binding, c.transport, c.endpoint, c.options, c.inputs, c.runtimeOptions, c.backend))
  }

  function ForProfile(ps: Providers, c: Config, p: Profile): Option<Config> {
    MadeConfig(ps, c.(runtimeId := p.runtimeId, binding := p.binding, backend := p.backend, transport := p.transport,
                      endpoint := p.endpoint, options := p.options, inputs := p.inputs, runtimeOptions := p.runtimeOptions))
  }

  // ----- round trips

  lemma InputsRoundTrip(inputs: seq<SensorInput>)
    requires InputsOk(inputs)
    ensures InputsJson(inputs).List? && InputsFrom(InputsJson(inputs).items) == Some(inputs)
  {
    var vs := InputsJson(inputs).items;
    forall i | 0 <= i < |inputs|
      ensures SensorFrom(vs[i]) == Some(inputs[i])
    {
    }
    assert InputsFrom(vs).value == inputs;
  }

  /** Decoding the payload of a profile gives the profile back. */
  lemma ProfileRoundTrip(ps: Providers, p: Profile)
    requires ProfileOk(ps, p)
    ensures FromPayload(ps, p.runtimeId, ToPayload(p)) == Some(p)
  {
    InputsRoundTrip(p.inputs);
  }

  lemma ProfilesRoundTrip(ps: Providers, profiles: map<string, Profile>)
    requires forall k | k in profiles :: k == profiles[k].runtimeId && ProfileOk(ps, profiles[k])
    ensures EachFrom(PayloadsOf(profiles), PayloadDecoder(ps)) == Some(profiles)
  {
    var f, decode := PayloadsOf(profiles), PayloadDecoder(ps);
    forall k | k in profiles
      ensures decode(k, f[k]) == Some(profiles[k])
    {
      ProfileRoundTrip(ps, profiles[k]);
    }
    EachFromIs(f, decode, profiles);
  }

  lemma ResourcesRoundTrip(resources: seq<Fields>)
    ensures ResourcesJson(resources).List? && ResourcesFrom(ResourcesJson(resources).items) == Some(resources)
  {
    assert ResourcesFrom(ResourcesJson(resources).items).value == resources;
  }

  /** What a round trip makes of a configuration: a service without inference forgets what it said about it. */
  function Forgotten(c: Config): Config {
    if c.enabled then c else c.(backend := "vvla", endpoint := "", options := map[])
  }

  /** The members of an encoded configuration, absent ones at their defaults. */
  predicate HasMembers(f: Fields, c: Config) {
    f.Keys <= MEMBERS && HasRuntime(f, c) && HasRobot(f, c) && HasOptional(f, c)
  }

  predicate HasRuntime(f: Fields, c: Config) {
    && Get(f, "schema", Null) == Str(SCHEMA)
    && Get(f, "runtime_id", Null) == Str(c.runtimeId)
    && Get(f, "binding", Null) == Str(c.binding)
    && Get(f, "inference", Null) == Obj(InferencePart(c))
  }

  predicate HasRobot(f: Fields, c: Config) {
    && Get(f, "server", Null) == Obj(map["bind" := Str(c.bind), "port" := Int(c.port)])
    && Get(f, "robot", Null) == Obj(map["id" := Str(c.robotId), "type" := Str(c.robotKind), "options" := Obj(c.robotOptions)])
    && Get(f, "inputs", Null) == InputsJson(c.inputs)
    && Get(f, "runtime_options", EMPTY) == Obj(c.runtimeOptions)
  }

  predicate HasOptional(f: Fields, c: Config) {
    && Get(f, "node_id", Str("local")) == Str(c.nodeId)
    && Get(f, "device_resources", List([])) == ResourcesJson(c.resources)
    && Get(f, "runtime_profiles", EMPTY) == Obj(PayloadsOf(c.profiles))
  }

  const RUNTIME_KEYS := {"schema", "runtime_id", "binding", "inference"}

  const ROBOT_KEYS := {"server", "robot", "inputs", "runtime_options"}

  const OPTIONAL_KEYS := {"node_id", "device_resources", "runtime_profiles"}

  lemma KeysApart()
    ensures RUNTIME_KEYS !! ROBOT_KEYS !! OPTIONAL_KEYS && RUNTIME_KEYS + ROBOT_KEYS + OPTIONAL_KEYS == MEMBERS
  {
  }

  lemma RuntimePartHas(c: Config)
    ensures HasRuntime(RuntimePart(c), c) && RuntimePart(c).Keys == RUNTIME_KEYS
  {
  }

  lemma RobotPartHas(c: Config)
    ensures HasRobot(RobotPart(c), c) && RobotPart(c).Keys == ROBOT_KEYS
  {
  }

  lemma OptionalPartHas(c: Config)
    ensures HasOptional(OptionalPart(c), c) && OptionalPart(c).Keys <= OPTIONAL_KEYS
  {
    assert c.resources == [] ==> ResourcesJson(c.resources).items == [];
    assert c.profiles == map[] ==> PayloadsOf(c.profiles) == map[];
  }

  lemma UnionHas(a: Fields, b: Fields, o: Fields, c: Config)
    requires HasRuntime(a, c) && HasRobot(b, c) && HasOptional(o, c)
    requires a.Keys == RUNTIME_KEYS && b.Keys == ROBOT_KEYS && o.Keys <= OPTIONAL_KEYS
    ensures HasMembers(a + b + o, c)
  {
    KeysApart();
  }

  lemma EncodedHasMembers(c: Config)
    ensures ToJson(c).Obj? && HasMembers(ToJson(c).fields, c)
  {
    RuntimePartHas(c);
    RobotPartHas(c);
    OptionalPartHas(c);
    UnionHas(RuntimePart(c), RobotPart(c), OptionalPart(c), c);
  }

  lemma InferenceRoundTrip(ps: Providers, c: Config)
    requires ConfigOk(ps, c)
    ensures var d := Forgotten(c);
      InferenceFrom(InferencePart(c)) == Some((d.enabled, d.backend, d.transport, d.endpoint, d.options))
  {
  }

  lemma ServerRoundTrip(bind: string, port: int)
    requires !Blank(bind)
    ensures ServerFrom(Obj(map["bind" := Str(bind), "port" := Int(port)])) == Some((bind, port))
  {
  }

  lemma RobotRoundTrip(id: string, kind: string, options: Fields)
    requires !Blank(id) && !Blank(kind)
    ensures RobotFrom(Obj(map["id" := Str(id), "type" := Str(kind), "options" := Obj(options)])) == Some((id, kind, options))
  {
  }

  lemma ForgottenIsOk(ps: Providers, c: Config)
    requires ConfigOk(ps, c)
    ensures ConfigOk(ps, Forgotten(c))
  {
  }

  /** Decoding an encoded configuration gives `Forgotten` of it. */
  lemma DecodeEncode(ps: Providers, c: Config)
    requires ConfigOk(ps, c)
    ensures FromJson(ps, ToJson(c)) == Some(Forgotten(c))
  {
    EncodedHasMembers(c);
    DecodeMembers(ps, c, ToJson(c).fields);
  }

  /** The decoders of the members read `d` from `f`. */
  predicate MembersDecode(ps: Providers, f: Fields, d: Config) {
    && ServerFrom(Get(f, "server", Null)) == Some((d.bind, d.port))
    && RobotFrom(Get(f, "robot", Null)) == Some((d.robotId, d.robotKind, d.robotOptions))
    && Get(f, "inference", Null).Obj?
    && InferenceFrom(Get(f, "inference", Null).fields) == Some((d.enabled, d.backend, d.transport, d.endpoint, d.options))
    && Get(f, "inputs", Null).List? && InputsFrom(Get(f, "inputs", Null).items) == Some(d.inputs)
    && Get(f, "device_resources", List([])).List?
    && ResourcesFrom(Get(f, "device_resources", List([])).items) == Some(d.resources)
    && Get(f, "runtime_profiles", EMPTY).Obj?
    && EachFrom(Get(f, "runtime_profiles", EMPTY).fields, PayloadDecoder(ps)) == Some(d.profiles)
    && Text(f, "runtime_id") == Some(d.runtimeId) && Text(f, "binding") == Some(d.binding)
    && TextOr(f, "node_id", "local") == Some(d.nodeId) && Get(f, "runtime_options", EMPTY) == Obj(d.runtimeOptions)
  }

  lemma BindNotBlank(ps: Providers, c: Config)
    requires ConfigOk(ps, c)
    ensures !Blank(c.bind)
  {
    assert !IsSpace("1"[0]) && !IsSpace("l"[0]) && !IsSpace(":"[0]);
    assert !IsSpace(c.bind[0]);
  }

  lemma MembersRead(ps: Providers, c: Config, f: Fields)
    requires ConfigOk(ps, c) && HasMembers(f, c)
    ensures MembersDecode(ps, f, Forgotten(c))
  {
    BindNotBlank(ps, c);
    ServerRoundTrip(c.bind, c.port);
    RobotRoundTrip(c.robotId, c.robotKind, c.robotOptions);
    InferenceRoundTrip(ps, c);
    InputsRoundTrip(c.inputs);
    ProfilesRoundTrip(ps, c.profiles);
    ResourcesRoundTrip(c.resources);
  }

  lemma ConfigAssembled(ps: Providers, f: Fields, d: Config)
    requires MembersDecode(ps, f, d)
    ensures ConfigFrom(ps, f) == Some(d)
  {
  }

  lemma MembersRoundTrip(ps: Providers, c: Config, f: Fields)
    requires ConfigOk(ps, c) && HasMembers(f, c)
    ensures ConfigFrom(ps, f) == Some(Forgotten(c))
  {
    MembersRead(ps, c, f);
    ConfigAssembled(ps, f, Forgotten(c));
  }

  lemma DecodeMembers(ps: Providers, c: Config, f: Fields)
    requires ConfigOk(ps, c) && HasMembers(f, c)
    ensures FromJson(ps, Obj(f)) == Some(Forgotten(c))
  {
    MembersRoundTrip(ps, c, f);
    ForgottenIsOk(ps, c);
  }

  /** The round trip is exact for every configuration with inference, and for one without exactly if it names
      the default backend, no endpoint and no options. */
  lemma RoundTripIff(ps: Providers, c: Config)
    requires ConfigOk(ps, c)
    ensures FromJson(ps, ToJson(c)) == Some(c) <==> c.enabled || (c.backend == "vvla" && c.endpoint == "" && c.options == map[])
  {
    DecodeEncode(ps, c);
  }

  /** So what the decoder accepts is a fixed point of encoding and decoding after one more round. */
  lemma DecodedIsStable(ps: Providers, v: Json)
    requires FromJson(ps, v).Some?
    ensures var c := Forgotten(FromJson(ps, v).value); ConfigOk(ps, c) && FromJson(ps, ToJson(c)) == Some(c)
  {
    DecodeEncode(ps, Forgotten(FromJson(ps, v).value));
  }

  /** A service has a profile for its own runtime and for every runtime it lists, and for no other. */
  lemma ProfileForRuntimeIff(ps: Providers, c: Config, runtimeId: string)
    requires ConfigOk(ps, c)
    ensures var p := ProfileForRuntime(ps, c, runtimeId);
      && (p.Some? <==> c.enabled && (runtimeId in c.profiles || runtimeId == c.runtimeId))
      && (p.Some? ==> p.value.runtimeId == runtimeId && ProfileOk(ps, p.value))
  {
  }

  /** The view of a service for one of its profiles can be built exactly if that profile speaks http or
      wireless, and its own profile is then the given one unless the service lists another of that name. */
  lemma ForProfileIff(ps: Providers, c: Config, p: Profile)
    requires ConfigOk(ps, c) && ProfileOk(ps, p) && c.enabled
    ensures ForProfile(ps, c, p).Some? <==> p.transport == "http" || p.transport == "wireless"
    ensures ForProfile(ps, c, p).Some? ==>
      (ProfileForRuntime(ps, ForProfile(ps, c, p).value, p.runtimeId) == Some(p) <==>
       (p.runtimeId in c.profiles ==> c.profiles[p.runtimeId] == p))
  {
  }
}
