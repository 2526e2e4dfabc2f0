/** The decoder of control configurations against a reading of the message: which message says which object. */
module ContractReading {
  import opened Wrappers
  import opened Contracts

  // ----- members

  predicate SaysText(f: Fields, key: string, s: string) {
    key in f && f[key] == Str(s) && !Blank(s)
  }

  /** A string member that may be missing. */
  predicate SaysTextOr(f: Fields, key: string, s: string, absent: string) {
    if key in f then SaysText(f, key, s) else s == absent
  }

  /** An object member that may be missing. */
  predicate SaysObject(f: Fields, key: string, o: Fields) {
    if key in f then f[key] == Obj(o) else o == map[]
  }

  lemma TextIs(f: Fields, key: string, s: string, absent: string)
    ensures Text(f, key) == Some(s) <==> SaysText(f, key, s)
    ensures TextOr(f, key, absent) == Some(s) <==> SaysTextOr(f, key, s, absent)
  {
  }

  lemma ObjectIs(f: Fields, key: string, o: Fields)
    ensures AsObj(Get(f, key, EMPTY)) == Some(o) <==> SaysObject(f, key, o)
  {
  }

  // ----- sensors

  predicate SaysSensor(v: Json, s: SensorInput) {
    && v.Obj? && v.fields.Keys <= {"sensor_id", "name", "type", "options"}
    && SaysText(v.fields, "sensor_id", s.sensorId) && SaysText(v.fields, "name", s.name)
    && SaysText(v.fields, "type", s.kind) && SaysObject(v.fields, "options", s.options)
  }

  predicate SaysInputs(f: Fields, key: string, inputs: seq<SensorInput>) {
    && key in f && f[key].List? && |f[key].items| == |inputs|
    && forall i | 0 <= i < |inputs| :: SaysSensor(f[key].items[i], inputs[i])
  }

  lemma SensorIs(v: Json, s: SensorInput)
    ensures SensorFrom(v) == Some(s) <==> SaysSensor(v, s)
  {
    if v.Obj? {
      TextIs(v.fields, "sensor_id", s.sensorId, "");
      TextIs(v.fields, "name", s.name, "");
      TextIs(v.fields, "type", s.kind, "");
      ObjectIs(v.fields, "options", s.options);
    }
  }

  lemma InputsAre(vs: seq<Json>, inputs: seq<SensorInput>)
    ensures InputsFrom(vs) == Some(inputs) <==>
      |vs| == |inputs| && forall i | 0 <= i < |inputs| :: SaysSensor(vs[i], inputs[i])
  {
    forall i | 0 <= i < |vs| && i < |inputs|
      ensures SensorFrom(vs[i]) == Some(inputs[i]) <==> SaysSensor(vs[i], inputs[i])
    {
      SensorIs(vs[i], inputs[i]);
    }
    if |vs| == |inputs| && forall i | 0 <= i < |inputs| :: SaysSensor(vs[i], inputs[i]) {
      assert InputsFrom(vs).value == inputs;
    }
  }

  lemma InputsMember(f: Fields, key: string, inputs: seq<SensorInput>)
    ensures SaysInputs(f, key, inputs) <==>
      var items := AsList(Get(f, key, Null)); items.Some? && InputsFrom(items.value) == Some(inputs)
  {
    if key in f && f[key].List? {
      InputsAre(f[key].items, inputs);
    }
  }

  // ----- profiles

  /** The inference part of a profile's payload. */
  predicate SaysWiring(f: Fields, p: Profile) {
    && f.Keys <= {"backend", "transport", "endpoint", "options"}
    && SaysTextOr(f, "backend", p.backend, "vvla") && SaysText(f, "transport", p.transport)
    && SaysText(f, "endpoint", p.endpoint) && SaysObject(f, "options", p.options)
  }

  predicate SaysProfile(v: Json, p: Profile) {
    && v.Obj? && v.fields.Keys <= {"binding", "inference", "inputs", "runtime_options"}
    && SaysText(v.fields, "binding", p.binding)
    && "inference" in v.fields && v.fields["inference"].Obj? && SaysWiring(v.fields["inference"].fields, p)
    && SaysInputs(v.fields, "inputs", p.inputs) && SaysObject(v.fields, "runtime_options", p.runtimeOptions)
  }

  lemma WiringIs(f: Fields, p: Profile)
    ensures SaysWiring(f, p) <==>
      && Only(f, {"backend", "transport", "endpoint", "options"}).Some?
      && TextOr(f, "backend", "vvla") == Some(p.backend) && Text(f, "transport") == Some(p.transport)
      && Text(f, "endpoint") == Some(p.endpoint) && AsObj(Get(f, "options", EMPTY)) == Some(p.options)
  {
    TextIs(f, "backend", p.backend, "vvla");
    TextIs(f, "transport", p.transport, "");
    TextIs(f, "endpoint", p.endpoint, "");
    ObjectIs(f, "options", p.options);
  }

  /** A payload is decoded to a profile exactly if it says that profile and the profile is valid. */
  lemma PayloadIff(ps: Providers, runtimeId: string, v: Json, p: Profile)
    ensures FromPayload(ps, runtimeId, v) == Some(p) <==> p.runtimeId == runtimeId && SaysProfile(v, p) && ProfileOk(ps, p)
  {
    if v.Obj? {
      var f := v.fields;
      TextIs(f, "binding", p.binding, "");
      InputsMember(f, "inputs", p.inputs);
      ObjectIs(f, "runtime_options", p.runtimeOptions);
      if "inference" in f && f["inference"].Obj? {
        WiringIs(f["inference"].fields, p);
      }
    }
  }

  predicate SaysProfiles(f: Fields, key: string, profiles: map<string, Profile>) {
    if key in f then
      && f[key].Obj? && f[key].fields.Keys == profiles.Keys
      && forall k | k in profiles :: SaysProfile(f[key].fields[k], profiles[k])
    else profiles == map[]
  }

  predicate ProfilesFit(ps: Providers, profiles: map<string, Profile>) {
    forall k | k in profiles :: k == profiles[k].runtimeId && ProfileOk(ps, profiles[k])
  }

  lemma PayloadsAre(ps: Providers, f: Fields, profiles: map<string, Profile>)
    ensures forall k | k in f && k in profiles ::
      PayloadDecoder(ps)(k, f[k]) == Some(profiles[k]) <==>
      k == profiles[k].runtimeId && SaysProfile(f[k], profiles[k]) && ProfileOk(ps, profiles[k])
  {
    forall k | k in f && k in profiles
      ensures PayloadDecoder(ps)(k, f[k]) == Some(profiles[k]) <==>
        k == profiles[k].runtimeId && SaysProfile(f[k], profiles[k]) && ProfileOk(ps, profiles[k])
    {
      PayloadIff(ps, k, f[k], profiles[k]);
    }
  }

  lemma ProfilesAre(ps: Providers, f: Fields, profiles: map<string, Profile>)
    ensures EachFrom(f, PayloadDecoder(ps)) == Some(profiles) <==>
      && f.Keys == profiles.Keys && ProfilesFit(ps, profiles)
      && forall k | k in profiles :: SaysProfile(f[k], profiles[k])
  {
    PayloadsAre(ps, f, profiles);
    if f.Keys == profiles.Keys && forall k | k in profiles :: PayloadDecoder(ps)(k, f[k]) == Some(profiles[k]) {
      EachFromIs(f, PayloadDecoder(ps), profiles);
    }
  }

  lemma ProfilesMember(ps: Providers, f: Fields, profiles: map<string, Profile>)
    requires ProfilesFit(ps, profiles)
    ensures SaysProfiles(f, "runtime_profiles", profiles) <==>
      var o := AsObj(Get(f, "runtime_profiles", EMPTY)); o.Some? && EachFrom(o.value, PayloadDecoder(ps)) == Some(profiles)
  {
    if "runtime_profiles" !in f {
      ProfilesAre(ps, map[], profiles);
      assert profiles.Keys == {} <==> profiles == map[];
    } else if f["runtime_profiles"].Obj? {
      ProfilesAre(ps, f["runtime_profiles"].fields, profiles);
    }
  }

  // ----- configurations

  predicate SaysServer(v: Json, bind: string, port: int) {
    && v.Obj? && v.fields.Keys <= {"bind", "port"}
    && SaysText(v.fields, "bind", bind) && "port" in v.fields && v.fields["port"] == Int(port)
  }

  predicate SaysRobot(v: Json, id: string, kind: string, options: Fields) {
    && v.Obj? && v.fields.Keys <= {"id", "type", "options"}
    && SaysText(v.fields, "id", id) && SaysText(v.fields, "type", kind) && SaysObject(v.fields, "options", options)
  }

  /** Inference is on unless the message turns it off; then neither transport nor endpoint is read. */
  predicate SaysInference(v: Json, c: Config) {
    && v.Obj? && v.fields.Keys <= {"backend", "transport", "endpoint", "options", "enabled"}
    && (if "enabled" in v.fields then v.fields["enabled"] == Bool(c.enabled) else c.enabled)
    && SaysTextOr(v.fields, "backend", c.backend, "vvla") && SaysObject(v.fields, "options", c.options)
    && (if c.enabled then SaysText(v.fields, "transport", c.transport) && SaysText(v.fields, "endpoint", c.endpoint)
        else c.transport == "disabled" && c.endpoint == "")
  }

  predicate SaysResources(f: Fields, key: string, resources: seq<Fields>) {
    if key in f then
      && f[key].List? && |f[key].items| == |resources|
      && forall i | 0 <= i < |resources| :: f[key].items[i] == Obj(resources[i])
    else resources == []
  }

  /** Every member of a message says its part of the configuration, and there are no others. */
  predicate SaysConfig(f: Fields, c: Config) {
    && SaysText(f, "runtime_id", c.runtimeId) && SaysText(f, "binding", c.binding)
    && "server" in f && SaysServer(f["server"], c.bind, c.port)
    && "inference" in f && SaysInference(f["inference"], c)
    && "robot" in f && SaysRobot(f["robot"], c.robotId, c.robotKind, c.robotOptions)
    && SaysInputs(f, "inputs", c.inputs) && SaysObject(f, "runtime_options", c.runtimeOptions)
    && SaysTextOr(f, "node_id", c.nodeId, "local")
    && SaysResources(f, "device_resources", c.resources) && SaysProfiles(f, "runtime_profiles", c.profiles)
  }

  predicate Message(v: Json) {
    && v.Obj? && "schema" in v.fields && v.fields["schema"] == Str("rlinf.control.config.v1")
    && v.fields.Keys <= {"schema", "runtime_id", "binding", "server", "inference", "robot", "inputs", "runtime_options",
                         "node_id", "device_resources", "runtime_profiles"}
  }

  lemma ServerIs(v: Json, bind: string, port: int)
    ensures ServerFrom(v) == Some((bind, port)) <==> SaysServer(v, bind, port)
  {
    if v.Obj? {
      TextIs(v.fields, "bind", bind, "");
    }
  }

  lemma RobotIs(v: Json, id: string, kind: string, options: Fields)
    ensures RobotFrom(v) == Some((id, kind, options)) <==> SaysRobot(v, id, kind, options)
  {
    if v.Obj? {
      TextIs(v.fields, "id", id, "");
      TextIs(v.fields, "type", kind, "");
      ObjectIs(v.fields, "options", options);
    }
  }

  lemma InferenceIs(v: Json, c: Config)
    ensures SaysInference(v, c) <==>
      v.Obj? && InferenceFrom(v.fields) == Some((c.enabled, c.backend, c.transport, c.endpoint, c.options))
  {
    if v.Obj? {
      TextIs(v.fields, "backend", c.backend, "vvla");
      TextIs(v.fields, "transport", c.transport, "");
      TextIs(v.fields, "endpoint", c.endpoint, "");
      ObjectIs(v.fields, "options", c.options);
    }
  }

  lemma ResourcesAre(f: Fields, resources: seq<Fields>)
    ensures SaysResources(f, "device_resources", resources) <==>
      var items := AsList(Get(f, "device_resources", List([]))); items.Some? && ResourcesFrom(items.value) == Some(resources)
  {
    if "device_resources" in f && f["device_resources"].List? {
      ResourcesOf(f["device_resources"].items, resources);
    } else if "device_resources" !in f {
      ResourcesOf([], resources);
    }
  }

  lemma ResourcesOf(vs: seq<Json>, resources: seq<Fields>)
    ensures ResourcesFrom(vs) == Some(resources) <==>
      |vs| == |resources| && forall i | 0 <= i < |resources| :: vs[i] == Obj(resources[i])
  {
    if |vs| == |resources| && forall i | 0 <= i < |resources| :: vs[i] == Obj(resources[i]) {
      assert ResourcesFrom(vs).value == resources;
    }
  }

  /** The members that are decoded by functions of their own. */
  predicate DecodesObjects(ps: Providers, f: Fields, c: Config) {
    && ServerFrom(Get(f, "server", Null)) == Some((c.bind, c.port))
    && AsObj(Get(f, "inference", Null)).Some?
    && InferenceFrom(AsObj(Get(f, "inference", Null)).value) == Some((c.enabled, c.backend, c.transport, c.endpoint, c.options))
    && RobotFrom(Get(f, "robot", Null)) == Some((c.robotId, c.robotKind, c.robotOptions))
    && AsObj(Get(f, "runtime_profiles", EMPTY)).Some?
    && EachFrom(AsObj(Get(f, "runtime_profiles", EMPTY)).value, PayloadDecoder(ps)) == Some(c.profiles)
  }

  predicate DecodesMembers(f: Fields, c: Config) {
    && Text(f, "runtime_id") == Some(c.runtimeId) && Text(f, "binding") == Some(c.binding)
    && AsList(Get(f, "inputs", Null)).Some? && InputsFrom(AsList(Get(f, "inputs", Null)).value) == Some(c.inputs)
    && AsObj(Get(f, "runtime_options", EMPTY)) == Some(c.runtimeOptions) && TextOr(f, "node_id", "local") == Some(c.nodeId)
    && AsList(Get(f, "device_resources", List([]))).Some?
    && ResourcesFrom(AsList(Get(f, "device_resources", List([]))).value) == Some(c.resources)
  }

  lemma ConfigFromIs(ps: Providers, f: Fields, c: Config)
    ensures ConfigFrom(ps, f) == Some(c) <==> DecodesObjects(ps, f, c) && DecodesMembers(f, c)
  {
  }

  lemma ObjectsAre(ps: Providers, f: Fields, c: Config)
    requires ProfilesFit(ps, c.profiles)
    ensures DecodesObjects(ps, f, c) <==>
      && "server" in f && SaysServer(f["server"], c.bind, c.port) && "inference" in f && SaysInference(f["inference"], c)
      && "robot" in f && SaysRobot(f["robot"], c.robotId, c.robotKind, c.robotOptions)
      && SaysProfiles(f, "runtime_profiles", c.profiles)
  {
    ServerIs(Get(f, "server", Null), c.bind, c.port);
    InferenceIs(Get(f, "inference", Null), c);
    RobotIs(Get(f, "robot", Null), c.robotId, c.robotKind, c.robotOptions);
    ProfilesMember(ps, f, c.profiles);
  }

  lemma MembersAre(f: Fields, c: Config)
    ensures DecodesMembers(f, c) <==>
      && SaysText(f, "runtime_id", c.runtimeId) && SaysText(f, "binding", c.binding)
      && SaysInputs(f, "inputs", c.inputs) && SaysObject(f, "runtime_options", c.runtimeOptions)
      && SaysTextOr(f, "node_id", c.nodeId, "local") && SaysResources(f, "device_resources", c.resources)
  {
    TextIs(f, "runtime_id", c.runtimeId, "");
    TextIs(f, "binding", c.binding, "");
    TextIs(f, "node_id", c.nodeId, "local");
    ObjectIs(f, "runtime_options", c.runtimeOptions);
    InputsMember(f, "inputs", c.inputs);
    ResourcesAre(f, c.resources);
  }

  lemma PartsAre(ps: Providers, f: Fields, c: Config)
    requires ProfilesFit(ps, c.profiles)
    ensures ConfigFrom(ps, f) == Some(c) <==> SaysConfig(f, c)
  {
    ConfigFromIs(ps, f, c);
    ObjectsAre(ps, f, c);
    MembersAre(f, c);
  }

  /** A message is decoded to a configuration exactly if it is a message of this schema with no unknown member that
      says that configuration, and the configuration is valid. */
  lemma ConfigIff(ps: Providers, v: Json, c: Config)
    ensures FromJson(ps, v) == Some(c) <==> Message(v) && SaysConfig(v.fields, c) && ConfigOk(ps, c)
  {
    if Message(v) && ConfigOk(ps, c) {
      PartsAre(ps, v.fields, c);
    }
  }
}
