/** The identity of a direct execute request: what is stored when it is first accepted, and when a later
    request counts as a retry of it. */
module Identity {
  import opened Wrappers
  import opened Contracts

  datatype Action = Action(timestamp: real, values: Fields, metadata: Fields)

  datatype Source = Agent | Replay

  /** A request after its actions have been read. `observationId` is the caller's binding. */
  datatype Request = Request(
    actions: seq<Action>,
    source: Source,
    controlHz: real,
    observationId: Option<string>,
    parameters: Option<Fields>)

  const TAG := "observation_id"

  function Optional(s: Option<string>): Json {
    if s.Some? then Str(s.value) else Null
  }

  // ----- observation tags

  /** Where the caller names an observation, no action may name another. */
  predicate TagsAgree(actions: seq<Action>, observationId: Option<string>) {
    observationId.Some? ==>
      forall i | 0 <= i < |actions| ::
        var tag := Get(actions[i].metadata, TAG, Null); tag == Null || tag == Str(observationId.value)
  }

  /** An action with the selected observation in its metadata; `None` if it names another. */
  function WithObservation(a: Action, id: string): Option<Action> {
    var tag := Get(a.metadata, TAG, Null);
    if tag != Null && tag != Str(id) then None
    else if tag == Str(id) then Some(a)
    else Some(a.(metadata := a.metadata[TAG := Str(id)]))
  }

  function AllTagged(actions: seq<Action>, id: string): Option<seq<Action>> {
    if forall i | 0 <= i < |actions| :: WithObservation(actions[i], id).Some? then
      Some(seq(|actions|, i requires 0 <= i < |actions| && WithObservation(actions[i], id).Some?
                            => WithObservation(actions[i], id).value))
    else None
  }

  function Tagged(actions: seq<Action>, selected: Option<string>): Option<seq<Action>> {
    if selected.None? then Some(actions) else AllTagged(actions, selected.value)
  }

  // ----- identities

  function ActionPayload(a: Action): Json {
    Obj(map["timestamp_s" := Float(a.timestamp), "values" := Obj(a.values), "metadata" := Obj(a.metadata)])
  }

  function Payloads(actions: seq<Action>): seq<Json> {
    seq(|actions|, i requires 0 <= i < |actions| => ActionPayload(actions[i]))
  }

  /** The members of an identity. */
  datatype Parts = Parts(
    action: Json,
    source: Json,
    steps: Json,
    hz: Json,
    observation: Json,
    explicit: Json,
    selected: Option<Json>,
    parameters: Option<Json>)

  function Built(p: Parts): Fields {
    map["action" := p.action, "source" := p.source, "steps" := p.steps, "control_hz" := p.hz,
        "observation_id" := p.observation, "observation_id_explicit" := p.explicit]
    + (if p.selected.Some? then map["selected_observation_id" := p.selected.value] else map[])
    + (if p.parameters.Some? then map["parameters" := p.parameters.value] else map[])
  }

  function PartsOf(r: Request, actions: seq<Action>, selected: Option<string>): Parts {
    Parts(List(Payloads(actions)),
          Str(if r.source.Agent? then "agent" else "replay"),
          Int(|actions|),
          Float(r.controlHz),
          Optional(r.observationId),
          Bool(r.observationId.Some?),
          Some(Optional(selected)),
          if r.parameters.Some? then Some(Obj(r.parameters.value)) else None)
  }

  function IdentityParameters(r: Request, actions: seq<Action>, selected: Option<string>): Json {
    Obj(Built(PartsOf(r, actions, selected)))
  }

  /** The identity a request is looked up with, before a snapshot is selected. */
  function Requested(r: Request): Json {
    IdentityParameters(r, r.actions, None)
  }

  /** The identity a request is accepted with; `None` if an action names another observation. */
  function Stored(r: Request, selected: Option<string>): Option<Json> {
    var actions :- Tagged(r.actions, selected);
    Some(IdentityParameters(r, actions, selected))
  }

  // ----- the canonical form

  function NormalItem(item: Json, explicit: bool, requested: Json): Json {
    if item.Obj? && "metadata" in item.fields && item.fields["metadata"].Obj? then
      var metadata := item.fields["metadata"].fields;
      Obj(item.fields["metadata" := Obj(if explicit then metadata[TAG := requested] else metadata - {TAG})])
    else item
  }

  function NormalItems(items: seq<Json>, explicit: bool, requested: Json): seq<Json> {
    seq(|items|, i requires 0 <= i < |items| => NormalItem(items[i], explicit, requested))
  }

  function NormalAction(v: Json, explicit: bool, requested: Json): Json {
    if v.List? then List(NormalItems(v.items, explicit, requested)) else v
  }

  function IsExplicit(f: Fields): bool {
    var flag := Get(f, "observation_id_explicit", Null);
    if flag.Bool? then flag.flag else Get(f, "observation_id", Null) != Null
  }

  function Normalized(f: Fields): Fields {
    var explicit, requested := IsExplicit(f), Get(f, "observation_id", Null);
    var kept := f - {"selected_observation_id"};
    var acted := if "action" in kept then kept["action" := NormalAction(kept["action"], explicit, requested)] else kept;
    var observed := if explicit then acted else acted["observation_id" := Null];
    observed["observation_id_explicit" := Bool(explicit)]
  }

  /** The form in which a request is compared with a stored one. */
  function Canonical(v: Json): Json {
    if v.Obj? then Obj(Normalized(v.fields)) else Obj(map["value" := v])
  }

  /** The canonical form as the program makes it, editing a copy action by action. */
  method Canonicalize(v: Json) returns (r: Json)
    ensures r == Canonical(v)
  {
    if !v.Obj? {
      return Obj(map["value" := v]);
    }
    var copy := v.fields;
    var explicit, requested := IsExplicit(copy), Get(copy, "observation_id", Null);
    copy := copy - {"selected_observation_id"};
    if "action" in copy && copy["action"].List? {
      var items := NormalizeItems(copy["action"].items, explicit, requested);
      copy := copy["action" := List(items)];
    }
    if !explicit {
      copy := copy["observation_id" := Null];
    }
    copy := copy["observation_id_explicit" := Bool(explicit)];
    return Obj(copy);
  }

  method NormalizeItems(items: seq<Json>, explicit: bool, requested: Json) returns (r: seq<Json>)
    ensures r == NormalItems(items, explicit, requested)
  {
    r := items;
    for i := 0 to |items|
      invariant |r| == |items|
      invariant forall j | 0 <= j < |items| :: r[j] == if j < i then NormalItem(items[j], explicit, requested) else items[j]
    {
      var item := r[i];
      if item.Obj? && "metadata" in item.fields && item.fields["metadata"].Obj? {
        var metadata := item.fields["metadata"].fields;
        if explicit {
          metadata := metadata[TAG := requested];
        } else {
          metadata := metadata - {TAG};
        }
        r := r[i := Obj(item.fields["metadata" := Obj(metadata)])];
      }
    }
  }

  // ----- what it keeps

  /** An action up to the observation named in its metadata. */
  function Untagged(a: Action): Action {
    a.(metadata := a.metadata - {TAG})
  }

  function AllUntagged(actions: seq<Action>): seq<Action> {
    seq(|actions|, i requires 0 <= i < |actions| => Untagged(actions[i]))
  }

  /** Equal up to the observation named in the metadata, with numbers compared by value. */
  predicate SameAction(a: Action, b: Action) {
    a.timestamp == b.timestamp && SameFields(a.values, b.values) && SameFields(Untagged(a).metadata, Untagged(b).metadata)
  }

  predicate SameActions(a: seq<Action>, b: seq<Action>) {
    |a| == |b| && forall i | 0 <= i < |a| :: SameAction(a[i], b[i])
  }

  predicate SameOption(a: Option<Fields>, b: Option<Fields>) {
    if a.Some? && b.Some? then SameFields(a.value, b.value) else a == b
  }

  /** Two requests that ask for the same: they may differ only in observations named in action metadata, and
      in numbers of different kinds with the same value. */
  predicate SameRequest(a: Request, b: Request) {
    && a.source == b.source && a.controlHz == b.controlHz && a.observationId == b.observationId
    && SameOption(a.parameters, b.parameters) && SameActions(a.actions, b.actions)
  }

  function NormalParts(p: Parts): Parts {
    var explicit := if p.explicit.Bool? then p.explicit.flag else p.observation != Null;
    p.(action := NormalAction(p.action, explicit, p.observation),
       observation := if explicit then p.observation else Null,
       explicit := Bool(explicit),
       selected := None)
  }

  predicate HasParts(f: Fields, p: Parts) {
    && f.Keys == {"action", "source", "steps", "control_hz", "observation_id", "observation_id_explicit"}
                 + (if p.selected.Some? then {"selected_observation_id"} else {})
                 + (if p.parameters.Some? then {"parameters"} else {})
    && f["action"] == p.action && f["source"] == p.source && f["steps"] == p.steps && f["control_hz"] == p.hz
    && f["observation_id"] == p.observation && f["observation_id_explicit"] == p.explicit
    && (p.selected.Some? ==> f["selected_observation_id"] == p.selected.value)
    && (p.parameters.Some? ==> f["parameters"] == p.parameters.value)
  }

  lemma BuiltHasParts(p: Parts)
    ensures HasParts(Built(p), p)
  {
  }

  lemma BuiltInjective(p: Parts, q: Parts)
    ensures Built(p) == Built(q) <==> p == q
  {
    BuiltHasParts(p);
    BuiltHasParts(q);
  }

  lemma NormalizedHasParts(f: Fields, p: Parts)
    requires HasParts(f, p)
    ensures HasParts(Normalized(f), NormalParts(p))
  {
  }

  lemma PartsDecide(f: Fields, g: Fields, p: Parts)
    requires HasParts(f, p) && HasParts(g, p)
    ensures f == g
  {
  }

  lemma NormalizedBuilt(p: Parts)
    ensures Normalized(Built(p)) == Built(NormalParts(p))
  {
    BuiltHasParts(p);
    NormalizedHasParts(Built(p), p);
    BuiltHasParts(NormalParts(p));
    PartsDecide(Normalized(Built(p)), Built(NormalParts(p)), NormalParts(p));
  }

  predicate SameOptional(a: Option<Json>, b: Option<Json>) {
    if a.Some? && b.Some? then Same(a.value, b.value) else a == b
  }

  predicate SameParts(p: Parts, q: Parts) {
    && Same(p.action, q.action) && Same(p.source, q.source) && Same(p.steps, q.steps) && Same(p.hz, q.hz)
    && Same(p.observation, q.observation) && Same(p.explicit, q.explicit)
    && SameOptional(p.selected, q.selected) && SameOptional(p.parameters, q.parameters)
  }

  lemma SamePartsSameFields(f: Fields, p: Parts, g: Fields, q: Parts)
    requires HasParts(f, p) && HasParts(g, q) && SameParts(p, q)
    ensures SameFields(f, g)
  {
    assert f.Keys == g.Keys;
  }

  lemma SameFieldsSameParts(f: Fields, p: Parts, g: Fields, q: Parts)
    requires HasParts(f, p) && HasParts(g, q) && SameFields(f, g)
    ensures SameParts(p, q)
  {
    assert "selected_observation_id" in f.Keys <==> "selected_observation_id" in g.Keys;
    assert "parameters" in f.Keys <==> "parameters" in g.Keys;
    assert Same(f["action"], g["action"]) && Same(f["source"], g["source"]) && Same(f["steps"], g["steps"]);
    assert Same(f["control_hz"], g["control_hz"]) && Same(f["observation_id"], g["observation_id"]);
    assert Same(f["observation_id_explicit"], g["observation_id_explicit"]);
  }

  lemma BuiltSame(p: Parts, q: Parts)
    ensures SameFields(Built(p), Built(q)) <==> SameParts(p, q)
  {
    BuiltHasParts(p);
    BuiltHasParts(q);
    if SameParts(p, q) {
      SamePartsSameFields(Built(p), p, Built(q), q);
    } else if SameFields(Built(p), Built(q)) {
      SameFieldsSameParts(Built(p), p, Built(q), q);
    }
  }

  lemma PayloadSame(a: Action, b: Action)
    ensures Same(ActionPayload(a), ActionPayload(b)) <==>
            a.timestamp == b.timestamp && SameFields(a.values, b.values) && SameFields(a.metadata, b.metadata)
  {
    var f, g := ActionPayload(a).fields, ActionPayload(b).fields;
    assert f["timestamp_s"] == Float(a.timestamp) && f["values"] == Obj(a.values) && f["metadata"] == Obj(a.metadata);
    assert g["timestamp_s"] == Float(b.timestamp) && g["values"] == Obj(b.values) && g["metadata"] == Obj(b.metadata);
    assert f.Keys == g.Keys == {"timestamp_s", "values", "metadata"};
  }

  /** The action whose payload the canonical form of a payload is. */
  function NormalOf(a: Action, explicit: bool, requested: Json): Action {
    a.(metadata := if explicit then a.metadata[TAG := requested] else a.metadata - {TAG})
  }

  lemma NormalItemIs(a: Action, explicit: bool, requested: Json)
    ensures NormalItem(ActionPayload(a), explicit, requested) == ActionPayload(NormalOf(a, explicit, requested))
  {
    var item, n := ActionPayload(a), NormalOf(a, explicit, requested);
    assert item.fields["metadata" := Obj(n.metadata)] == ActionPayload(n).fields;
  }

  lemma TaggedFieldsSame(f: Fields, g: Fields, tag: Json)
    ensures SameFields(f[TAG := tag], g[TAG := tag]) <==> SameFields(f - {TAG}, g - {TAG})
  {
    var f1, g1, f0, g0 := f[TAG := tag], g[TAG := tag], f - {TAG}, g - {TAG};
    SameReflexive(tag);
    assert f1.Keys == f0.Keys + {TAG} && g1.Keys == g0.Keys + {TAG};
    assert f0.Keys == f1.Keys - {TAG} && g0.Keys == g1.Keys - {TAG};
    if SameFields(f0, g0) {
      forall k | k in f1
        ensures Same(f1[k], g1[k])
      {
        if k != TAG {
          assert k in f0 && Same(f0[k], g0[k]);
        }
      }
    }
    if SameFields(f1, g1) {
      forall k | k in f0
        ensures Same(f0[k], g0[k])
      {
        assert k in f1 && Same(f1[k], g1[k]);
      }
    }
  }

  lemma NormalOfIff(a: Action, b: Action, explicit: bool, requested: Json)
    ensures Same(NormalItem(ActionPayload(a), explicit, requested), NormalItem(ActionPayload(b), explicit, requested)) <==>
            SameAction(a, b)
  {
    NormalItemIs(a, explicit, requested);
    NormalItemIs(b, explicit, requested);
    PayloadSame(NormalOf(a, explicit, requested), NormalOf(b, explicit, requested));
    TaggedFieldsSame(a.metadata, b.metadata, requested);
  }

  /** Canonical action lists are the same exactly if the actions are, up to their tags. */
  lemma NormalItemsIff(a: seq<Action>, b: seq<Action>, explicit: bool, requested: Json)
    ensures Same(List(NormalItems(Payloads(a), explicit, requested)), List(NormalItems(Payloads(b), explicit, requested))) <==>
            SameActions(a, b)
  {
    var m, n := NormalItems(Payloads(a), explicit, requested), NormalItems(Payloads(b), explicit, requested);
    assert |m| == |a| && |n| == |b|;
    if |a| == |b| {
      forall i | 0 <= i < |a|
        ensures Same(m[i], n[i]) <==> SameAction(a[i], b[i])
      {
        NormalOfIff(a[i], b[i], explicit, requested);
      }
    }
  }

  lemma NormalPartsIff(a: Request, s: Option<string>, b: Request, t: Option<string>)
    ensures SameParts(NormalParts(PartsOf(a, a.actions, s)), NormalParts(PartsOf(b, b.actions, t))) <==> SameRequest(a, b)
  {
    var p, q := NormalParts(PartsOf(a, a.actions, s)), NormalParts(PartsOf(b, b.actions, t));
    NormalItemsIff(a.actions, b.actions, a.observationId.Some?, Optional(a.observationId));
    assert Same(p.source, q.source) <==> a.source == b.source;
    assert Same(p.observation, q.observation) && Same(p.explicit, q.explicit) <==> a.observationId == b.observationId;
    assert SameOptional(p.parameters, q.parameters) <==> SameOption(a.parameters, b.parameters);
  }

  /** Canonical forms compare equal exactly if the requests ask for the same, whatever was selected. */
  lemma CanonicalIff(a: Request, s: Option<string>, b: Request, t: Option<string>)
    ensures Same(Canonical(IdentityParameters(a, a.actions, s)), Canonical(IdentityParameters(b, b.actions, t))) <==> SameRequest(a, b)
  {
    var p, q := PartsOf(a, a.actions, s), PartsOf(b, b.actions, t);
    NormalizedBuilt(p);
    NormalizedBuilt(q);
    BuiltSame(NormalParts(p), NormalParts(q));
    NormalPartsIff(a, s, b, t);
  }

  lemma TaggedUntagged(actions: seq<Action>, selected: Option<string>)
    requires Tagged(actions, selected).Some?
    ensures AllUntagged(Tagged(actions, selected).value) == AllUntagged(actions)
  {
    var tagged := Tagged(actions, selected).value;
    assert |tagged| == |actions|;
    forall i | 0 <= i < |actions|
      ensures Untagged(tagged[i]) == Untagged(actions[i])
    {
      if selected.Some? {
        assert WithObservation(actions[i], selected.value).Some?;
        assert tagged[i].metadata - {TAG} == actions[i].metadata - {TAG};
      }
    }
  }

  lemma TaggedSame(actions: seq<Action>, tagged: seq<Action>, others: seq<Action>)
    requires AllUntagged(tagged) == AllUntagged(actions)
    ensures SameActions(tagged, others) <==> SameActions(actions, others)
  {
    assert |tagged| == |AllUntagged(tagged)| == |actions|;
    forall i | 0 <= i < |actions|
      ensures tagged[i].timestamp == actions[i].timestamp && tagged[i].values == actions[i].values
      ensures Untagged(tagged[i]).metadata == Untagged(actions[i]).metadata
    {
      assert AllUntagged(tagged)[i] == AllUntagged(actions)[i];
    }
  }

  /** A request matches a stored identity exactly if it asks for the same as the accepted one, whichever
      snapshot was selected then and however the latest snapshot moved since. */
  lemma RetryIff(accepted: Request, selected: Option<string>, r: Request)
    requires Stored(accepted, selected).Some?
    ensures Same(Canonical(Stored(accepted, selected).value), Canonical(Requested(r))) <==> SameRequest(accepted, r)
  {
    TaggedUntagged(accepted.actions, selected);
    var tagged := accepted.(actions := Tagged(accepted.actions, selected).value);
    CanonicalIff(tagged, selected, r, None);
    TaggedSame(accepted.actions, tagged.actions, r.actions);
  }

  lemma StoredIdentityIff(r: Request, s: Option<string>, t: Option<string>)
    requires Stored(r, s).Some? && Stored(r, t).Some?
    ensures Stored(r, s) == Stored(r, t) <==> s == t
  {
    var p, q := PartsOf(r, Tagged(r.actions, s).value, s), PartsOf(r, Tagged(r.actions, t).value, t);
    BuiltInjective(p, q);
  }

  // ----- requests in any order

  /** The two parts of `execute` that look at the registry: the lookup, and, if it found nothing, the submit of
      an identity with the snapshot selected by then. */
  datatype Step = LookUp(key: string, r: Request) | Submit(key: string, r: Request, selected: Option<string>)

  datatype Reply = Invalid | Nothing | Conflict | Reused | Accepted

  function Do(stored: map<string, Json>, step: Step): (map<string, Json>, Reply) {
    match step
    case LookUp(key, r) =>
      (stored,
       if !TagsAgree(r.actions, r.observationId) then Invalid
       else if key !in stored then Nothing
       else if Same(Canonical(stored[key]), Canonical(Requested(r))) then Reused
       else Conflict)
    case Submit(key, r, selected) =>
      var identity := Stored(r, selected);
      if identity.None? then (stored, Invalid)
      else if key !in stored then (stored[key := identity.value], Accepted)
      else (stored, if stored[key] == identity.value then Reused else Conflict)
  }

  function After(run: seq<Step>): map<string, Json>
    decreases |run|
  {
    if run == [] then map[] else Do(After(run[..|run| - 1]), run[|run| - 1]).0
  }

  /** The submit that first stored an identity under a key, or -1. */
  function FirstSubmit(run: seq<Step>, key: string): (i: int)
    ensures -1 <= i < |run|
    ensures i >= 0 ==> run[i].Submit? && run[i].key == key && Stored(run[i].r, run[i].selected).Some?
    decreases |run|
  {
    if run == [] then -1
    else
      var n := |run| - 1;
      var before := FirstSubmit(run[..n], key);
      if before >= 0 then before
      else if run[n].Submit? && run[n].key == key && Stored(run[n].r, run[n].selected).Some? then n
      else -1
  }

  lemma {:induction false} FirstSubmitDecides(run: seq<Step>, key: string)
    ensures var i := FirstSubmit(run, key);
      && (key in After(run) <==> i >= 0)
      && (i >= 0 ==> Some(After(run)[key]) == Stored(run[i].r, run[i].selected))
    decreases |run|
  {
    if run != [] {
      FirstSubmitDecides(run[..|run| - 1], key);
    }
  }

  /** In every run of lookups and submits, a lookup is answered as a retry exactly if it asks for the same as
      the first request stored under its key, and as a conflict exactly if it does not. */
  lemma LookupAnswers(run: seq<Step>, key: string, r: Request)
    requires TagsAgree(r.actions, r.observationId)
    ensures var reply, i := Do(After(run), LookUp(key, r)).1, FirstSubmit(run, key);
      && (reply == Nothing <==> i < 0)
      && (reply == Reused <==> i >= 0 && SameRequest(run[i].r, r))
      && (reply == Conflict <==> i >= 0 && !SameRequest(run[i].r, r))
  {
    FirstSubmitDecides(run, key);
    var i := FirstSubmit(run, key);
    if i >= 0 {
      RetryIff(run[i].r, run[i].selected, r);
    }
  }

  /** The first identity submitted under a key is the one stored. */
  lemma FirstIsStored(run: seq<Step>, key: string, r: Request, s: Option<string>)
    requires FirstSubmit(run, key) < 0 && Stored(r, s).Some?
    ensures key in After(run + [Submit(key, r, s)]) && After(run + [Submit(key, r, s)])[key] == Stored(r, s).value
  {
    var raced := run + [Submit(key, r, s)];
    assert raced[..|raced| - 1] == run;
    FirstSubmitDecides(run, key);
  }

  /** Submits are compared exactly: when two first attempts of one request both found nothing, the second is
      taken as the same one exactly if both selected the same snapshot, and refused as a conflict otherwise,
      although a lookup would have taken it as a retry. */
  lemma RacingSubmitIff(run: seq<Step>, key: string, r: Request, s: Option<string>, t: Option<string>)
    requires FirstSubmit(run, key) < 0 && Stored(r, s).Some? && Stored(r, t).Some? && TagsAgree(r.actions, r.observationId)
    ensures var raced := run + [Submit(key, r, s)];
      && Do(After(raced), Submit(key, r, t)).1 == (if s == t then Reused else Conflict)
      && Do(After(raced), LookUp(key, r)).1 == Reused
  {
    FirstIsStored(run, key, r, s);
    StoredIdentityIff(r, s, t);
    RequestReflexive(r);
    RetryIff(r, s, r);
  }

  lemma RequestReflexive(r: Request)
    ensures SameRequest(r, r)
  {
    if r.parameters.Some? {
      SameReflexive(Obj(r.parameters.value));
    }
    forall i | 0 <= i < |r.actions|
      ensures SameAction(r.actions[i], r.actions[i])
    {
      SameReflexive(Obj(r.actions[i].values));
      SameReflexive(Obj(Untagged(r.actions[i]).metadata));
    }
  }

  /** Parameters that only Python's equality takes for each other. */
  const WITH_TRUE := map["x" := Bool(true)]
  const WITH_ONE := map["x" := Int(1)]

  lemma TrueIsOne()
    ensures SameFields(WITH_TRUE, WITH_ONE) && WITH_TRUE != WITH_ONE
  {
    assert WITH_TRUE["x"] != WITH_ONE["x"];
    assert WITH_TRUE.Keys == WITH_ONE.Keys == {"x"};
    assert Same(WITH_TRUE["x"], WITH_ONE["x"]);
  }

  lemma OtherParametersOtherIdentity(r: Request, s: Option<string>, p: Option<Fields>, q: Option<Fields>)
    requires Stored(r, s).Some? && p != q
    ensures Stored(r.(parameters := p), s).Some? && Stored(r.(parameters := q), s).Some?
    ensures Stored(r.(parameters := p), s) != Stored(r.(parameters := q), s)
  {
    var tagged := Tagged(r.actions, s).value;
    BuiltInjective(PartsOf(r.(parameters := p), tagged, s), PartsOf(r.(parameters := q), tagged, s));
  }

  lemma SameButParameters(r: Request, p: Fields, q: Fields)
    requires SameFields(p, q)
    ensures SameRequest(r.(parameters := Some(p)), r.(parameters := Some(q)))
  {
    RequestReflexive(r);
  }

  /** A lookup takes 1 for a retry of True, the exact comparison of submits does not: whatever else a request
      says, with the parameter x changed from True to 1 it is answered with the first run, and as a conflict
      when it is submitted. */
  lemma TrueIsOneOnLookup(run: seq<Step>, key: string, r: Request, s: Option<string>)
    requires FirstSubmit(run, key) < 0 && TagsAgree(r.actions, r.observationId) && Stored(r, s).Some?
    ensures var first, again := r.(parameters := Some(WITH_TRUE)), r.(parameters := Some(WITH_ONE));
      var raced := run + [Submit(key, first, s)];
      && Do(After(raced), LookUp(key, again)).1 == Reused
      && Do(After(raced), Submit(key, again, s)).1 == Conflict
  {
    TrueIsOne();
    OtherParametersOtherIdentity(r, s, Some(WITH_TRUE), Some(WITH_ONE));
    FirstIsStored(run, key, r.(parameters := Some(WITH_TRUE)), s);
    SameButParameters(r, WITH_TRUE, WITH_ONE);
    RetryIff(r.(parameters := Some(WITH_TRUE)), s, r.(parameters := Some(WITH_ONE)));
  }

  // ----- what is stored

  /** A request can be stored exactly if no action names an observation other than the selected one. */
  lemma StoredIff(r: Request, selected: Option<string>)
    ensures Stored(r, selected).Some? <==>
      (selected.Some? ==> forall i | 0 <= i < |r.actions| ::
        TAG !in r.actions[i].metadata || r.actions[i].metadata[TAG] in {Null, Str(selected.value)})
  {
  }

  /** What is stored names the selected observation in every action; the number of steps is that of the actions, and
      values and times are the request's. */
  lemma StoredSays(r: Request, selected: Option<string>)
    requires Stored(r, selected).Some?
    ensures var v := Stored(r, selected).value;
      && v.Obj? && Part(v.fields, "steps") == Int(|r.actions|) && Part(v.fields, "selected_observation_id") == Optional(selected)
      && Part(v.fields, "action").List? && |Part(v.fields, "action").items| == |r.actions|
      && forall i | 0 <= i < |r.actions| :: StoredAction(Part(v.fields, "action").items[i], r.actions[i], selected)
  {
    var actions := Tagged(r.actions, selected).value;
    BuiltHasParts(PartsOf(r, actions, selected));
    forall i: nat | i < |actions|
      ensures StoredAction(ActionPayload(actions[i]), r.actions[i], selected)
    {
      TaggedSays(r.actions, selected, i);
    }
  }

  lemma TaggedSays(actions: seq<Action>, selected: Option<string>, i: nat)
    requires Tagged(actions, selected).Some? && i < |actions|
    ensures |Tagged(actions, selected).value| == |actions|
    ensures StoredAction(ActionPayload(Tagged(actions, selected).value[i]), actions[i], selected)
  {
    if selected.Some? && Get(actions[i].metadata, TAG, Null) == Str(selected.value) {
      assert actions[i].metadata[TAG := Str(selected.value)] == actions[i].metadata;
    }
  }

  function Part(f: Fields, key: string): Json {
    Get(f, key, Null)
  }

  /** An action as it is stored: as it was, but naming the selected observation. */
  predicate StoredAction(v: Json, a: Action, selected: Option<string>) {
    && v.Obj? && Part(v.fields, "timestamp_s") == Float(a.timestamp) && Part(v.fields, "values") == Obj(a.values)
    && Part(v.fields, "metadata") == Obj(if selected.Some? then a.metadata[TAG := Str(selected.value)] else a.metadata)
  }
}
