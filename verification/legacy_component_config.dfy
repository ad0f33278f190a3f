/**
 * The hand-written component-configuration resource. Two copies of it
 * exist, differing in how they format the compound `id`; the operations
 * here take the formatter as a parameter (`InternalId` for one copy,
 * `KeboolaId` for the other).
 */
module LegacyComponentConfig {
  import opened Wrappers
  import opened Framework
  import opened Codec
  import opened Api
  import opened ConfigurationModels
  import opened Legacy
  import ConfigurationMapper
  import Text

  /** The resource's Terraform model; `configId` is the remote configuration id, `id` the compound one. */
  datatype Model = Model(
    id: Value<string>,
    branchId: Value<int>,
    componentId: Value<string>,
    configId: Value<string>,
    name: Value<string>,
    description: Value<string>,
    changeDescription: Value<string>,
    isDeleted: Value<bool>,
    created: Value<string>,
    version: Value<int>,
    isDisabled: Value<bool>,
    content: Value<string>)

  /** The same fields as the engine-based resource's model, with no rows. */
  function AsConfigModel(m: Model): ConfigModel
  {
    ConfigModel(m.id, m.branchId, m.componentId, m.configId, m.name, m.description, m.changeDescription,
                m.isDeleted, m.created, m.version, m.isDisabled, m.content, Null)
  }

  // ---------------------------------------------------------------------------
  // The compound id

  /** `<branch>/<component>/<configuration>` over the plain values, the branch in decimal. */
  function InternalId(m: Model): (id: string)
    ensures id == GetConfigModelID(AsConfigModel(m))
  {
    Text.IntToDecimal(ValueInt64(m.branchId)) + "/" + ValueString(m.componentId) + "/" + ValueString(m.configId)
  }

  /**
   * How Go's `%d` and `%s` render a framework value passed as a struct;
   * this depends on the framework's internal layout, which is not part of
   * this model.
   */
  datatype Render = Render(int64: Value<int> -> string, str: Value<string> -> string)

  /** The other copy's formatter: the branch, the component and the compound `id` itself, each rendered as a struct. */
  function KeboolaId(r: Render, m: Model): (id: string)
    ensures '/' !in r.int64(m.branchId) && '/' !in r.str(m.componentId) && '/' !in r.str(m.id) ==>
      Text.Split(id, '/') == [r.int64(m.branchId), r.str(m.componentId), r.str(m.id)]
  {
    var parts := [r.int64(m.branchId), r.str(m.componentId), r.str(m.id)];
    assert Text.Join(parts[2..], '/') == parts[2];
    assert Text.Join(parts[1..], '/') == parts[1] + "/" + parts[2] by {
      assert parts[1..][1..] == parts[2..];
    }
    assert Text.Join(parts, '/') == r.int64(m.branchId) + "/" + r.str(m.componentId) + "/" + r.str(m.id);
    assert (forall k :: 0 <= k < |parts| ==> '/' !in parts[k]) ==> Text.Split(Text.Join(parts, '/'), '/') == parts by {
      if forall k :: 0 <= k < |parts| ==> '/' !in parts[k] {
        Text.SplitJoin(parts, '/');
      }
    }
    r.int64(m.branchId) + "/" + r.str(m.componentId) + "/" + r.str(m.id)
  }

  /** The internal formatter is the engine-based resource's compound id, so it splits back into its three fields. */
  lemma InternalIdIsCompoundId(m: Model)
    ensures InternalId(m) == GetConfigModelID(AsConfigModel(m))
    ensures '/' !in ValueString(m.componentId) && '/' !in ValueString(m.configId) ==>
      ParseConfigModelID(InternalId(m)) == Some((ValueInt64(m.branchId), ValueString(m.componentId), ValueString(m.configId)))
  {
    if '/' !in ValueString(m.componentId) && '/' !in ValueString(m.configId) {
      ConfigIdRoundTrip(AsConfigModel(m));
    }
  }

  /**
   * As written, the other copy's id ignores the configuration id: two
   * configurations of one component in one branch, both created with an
   * unknown compound id, get the same id whatever their configuration ids.
   */
  lemma KeboolaIdIgnoresConfigId(r: Render, m: Model, configId: Value<string>)
    ensures KeboolaId(r, m.(configId := configId)) == KeboolaId(r, m)
  {
  }

  /**
   * As written, re-formatting a model whose `id` already holds its own
   * formatted id never reproduces it, when rendering a known string makes
   * it longer (quoting does): each refresh changes the id.
   */
  lemma KeboolaIdDriftsOnRefresh(r: Render, m: Model)
    requires forall s :: |r.str(Known(s))| > |s|
    ensures KeboolaId(r, m.(id := Known(KeboolaId(r, m)))) != KeboolaId(r, m)
  {
    var id := KeboolaId(r, m);
    var again := KeboolaId(r, m.(id := Known(id)));
    assert |again| == |r.int64(m.branchId)| + 1 + |r.str(m.componentId)| + 1 + |r.str(Known(id))|;
    assert |r.str(Known(id))| > |id|;
  }

  /**
   * The intended id: it names the configuration id, so distinct
   * configuration ids give distinct ids, and it is unchanged by storing it.
   */
  lemma InternalIdStable(m: Model, other: Model)
    ensures InternalId(m.(id := Known(InternalId(m)))) == InternalId(m)
    ensures '/' !in ValueString(m.componentId) && '/' !in ValueString(m.configId)
         && '/' !in ValueString(other.componentId) && '/' !in ValueString(other.configId)
         && ValueString(m.configId) != ValueString(other.configId)
         ==> InternalId(m) != InternalId(other)
  {
    InternalIdIsCompoundId(m);
    InternalIdIsCompoundId(other);
  }

  // ---------------------------------------------------------------------------
  // Create

  /** The content text a create or update parses: an unknown value is "{}". */
  function ContentText(content: Value<string>): (text: string)
    ensures content.Unknown? ==> text == EmptyObjectText
    ensures content.Known? ==> text == content.v
    ensures content.Null? ==> text == ""
  {
    if content.Unknown? then EmptyObjectText else ValueString(content)
  }

  function CreateParseError(e: string, text: string): Diagnostic
  {
    ErrorDiag(CreateSummary, "Could not parse configuration: " + e + text)
  }

  /** The plan after create's defaults: unknown content is "{}", a null change description the create default. */
  function CreateDefaults(plan: Model): (p: Model)
    ensures p.content == (if plan.content.Unknown? then Known(EmptyObjectText) else plan.content)
    ensures p.changeDescription == (if plan.changeDescription.Null? then Known(CreatedByDefault) else plan.changeDescription)
    ensures p == plan.(content := p.content, changeDescription := p.changeDescription)
  {
    plan.(content := if plan.content.Unknown? then Known(EmptyObjectText) else plan.content,
          changeDescription := if plan.changeDescription.Null? then Known(CreatedByDefault) else plan.changeDescription)
  }

  /** The create request: the configuration id only when the plan's is not null, and no rows. */
  function CreateRequest(plan: Model, branch: int, payload: OrderedMap): (r: ConfigWithRows)
    ensures r.rows == []
    ensures r.config.key == ConfigKey(branch, ValueString(plan.componentId), if plan.configId.Null? then "" else ValueString(plan.configId))
    ensures r.config == Request(r.config.key, plan.name, plan.description, plan.changeDescription, plan.isDisabled, payload)
  {
    var key := ConfigKey(branch, ValueString(plan.componentId), if plan.configId.Null? then "" else ValueString(plan.configId));
    ConfigWithRows(Request(key, plan.name, plan.description, plan.changeDescription, plan.isDisabled, payload), [])
  }

  /**
   * The state a successful create writes: the response's configuration id,
   * branch and deletion flag, then the id formatted from that, then the
   * response's version, creation time, change description, description and
   * disabled flag.
   */
  function Created(format: Model -> string, plan: Model, res: Config): (m: Model)
    ensures m.configId == Known(res.key.id) && m.branchId == Known(res.key.branchId)
    ensures m.isDeleted == Known(res.isDeleted) && m.version == Known(res.version) && m.created == Known(res.created)
    ensures m.changeDescription == Known(res.changeDescription) && m.description == Known(res.description)
    ensures m.isDisabled == Known(res.isDisabled)
    ensures m.componentId == plan.componentId && m.name == plan.name && m.content == plan.content
    ensures m.id == Known(format(plan.(configId := Known(res.key.id), branchId := Known(res.key.branchId), isDeleted := Known(res.isDeleted))))
  {
    var keyed := plan.(configId := Known(res.key.id), branchId := Known(res.key.branchId), isDeleted := Known(res.isDeleted));
    keyed.(id := Known(format(keyed)), version := Known(res.version), created := Known(res.created),
           changeDescription := Known(res.changeDescription), description := Known(res.description),
           isDisabled := Known(res.isDisabled))
  }

  /**
   * `Create`: default the content and change description, parse the
   * content (stopping with one error before any request), resolve the
   * branch, send the create request and write the response's fields.
   */
  function Create(c: Codec, client: Client, format: Model -> string, plan: Model): (o: Outcome<Model>)
    ensures |o.diags| <= 1 && (o.written.Some? <==> o.diags == []) && (o.diags != [] ==> HasError(o.diags))
    ensures var text := ContentText(plan.content);
      && (c.unmarshal(text).Failure? ==> o == Outcome([CreateParseError(c.unmarshal(text).error, text)], None, []))
      && (c.unmarshal(text).Success? ==>
            var p := CreateDefaults(plan);
            var branch := ResolveBranch(client, plan.branchId);
            && (branch.0.Failure? ==> o == Outcome([DefaultBranchError(branch.0.error)], None, [DefaultBranchCall]))
            && (branch.0.Success? ==>
                  var request := CreateRequest(p, branch.0.value, c.unmarshal(text).value);
                  && o.calls == branch.1 + [CreateCall(request)]
                  && (client.create(request).Failure? ==> o.diags == [CreateFailed(client.create(request).error)])
                  && (client.create(request).Success? ==> o.written == Some(Created(format, p, client.create(request).value)))))
  {
    var text := ContentText(plan.content);
    match c.unmarshal(text)
    case Failure(e) =>
      assert [CreateParseError(e, text)][0].severity == Error;
      Outcome([CreateParseError(e, text)], None, [])
    case Success(payload) =>
      var p := CreateDefaults(plan);
      var branch := ResolveBranch(client, plan.branchId);
      match branch.0
      case Failure(e) =>
        assert [DefaultBranchError(e)][0].severity == Error;
        Outcome([DefaultBranchError(e)], None, [DefaultBranchCall])
      case Success(b) =>
        var request := CreateRequest(p, b, payload);
        match client.create(request)
        case Failure(e) =>
          assert [CreateFailed(e)][0].severity == Error;
          Outcome([CreateFailed(e)], None, branch.1 + [CreateCall(request)])
        case Success(res) => Outcome([], Some(Created(format, p, res)), branch.1 + [CreateCall(request)])
  }

  /**
   * With the internal formatter, the id a create writes names the
   * response's branch, the plan's component and the response's
   * configuration id, and so agrees with the fields written beside it.
   */
  lemma CreatedIdMatchesFields(c: Codec, client: Client, plan: Model)
    requires Create(c, client, InternalId, plan).written.Some?
    ensures var m := Create(c, client, InternalId, plan).written.value;
      && m.id == Known(InternalId(m))
      && m.id == Known(GetConfigModelID(AsConfigModel(m)))
  {
    var m := Create(c, client, InternalId, plan).written.value;
    InternalIdIsCompoundId(m);
  }

  /**
   * The create request's defaults: with a lawful codec an unknown content
   * is sent as the empty map; a null change description is sent as the
   * create default; the configuration id is sent only when not null; a
   * branch that is not unknown is sent as 0 without asking for the default.
   */
  lemma CreateRequestDefaults(c: Codec, client: Client, format: Model -> string, plan: Model)
    requires Lawful(c)
    requires plan.content.Unknown?
    ensures var o := Create(c, client, format, plan);
      && (!plan.branchId.Unknown? ==> DefaultBranchCall !in o.calls)
      && (forall i :: 0 <= i < |o.calls| && o.calls[i].CreateCall? ==>
            var r := o.calls[i].request.config;
            && r.content == Some(Empty)
            && (plan.changeDescription.Null? ==> r.changeDescription == CreatedByDefault)
            && (plan.configId.Null? ==> r.key.id == "")
            && (plan.configId.Known? ==> r.key.id == plan.configId.v)
            && (!plan.branchId.Unknown? ==> r.key.branchId == 0))
  {
    assert c.unmarshal(ContentText(plan.content)) == Success(Empty);
  }

  // ---------------------------------------------------------------------------
  // Read

  /** The key of the configuration a state describes. */
  function StateKey(m: Model): (k: ConfigKey)
    ensures k.branchId == ValueInt64(m.branchId) && k.componentId == ValueString(m.componentId) && k.id == ValueString(m.configId)
  {
    ConfigKey(ValueInt64(m.branchId), ValueString(m.componentId), ValueString(m.configId))
  }

  const ReadChanged := WarningDiag("Read configuration changed", "Updating local state with to match the read configuration")

  function ReadFailed(id: string, e: string): Diagnostic
  {
    ErrorDiag("Error Reading Configuration", "Could not read Configuration" + id + ": " + e)
  }

  function StateParseError(e: string): Diagnostic
  {
    ErrorDiag("Error reading configuration", "Could not parse state configuration: " + e)
  }

  function RemoteWriteError(id: string, e: string): Diagnostic
  {
    ErrorDiag("Error Reading Configuration", "Could not parse read configuration " + id + ": " + e)
  }

  /** The state with the remote configuration's descriptive fields, and then the id formatted from it. */
  function Refreshed(format: Model -> string, state: Model, cfg: Config): (m: Model)
    ensures m.name == Known(cfg.name) && m.description == Known(cfg.description)
    ensures m.changeDescription == Known(cfg.changeDescription) && m.isDeleted == Known(cfg.isDeleted)
    ensures m.created == Known(cfg.created) && m.version == Known(cfg.version) && m.isDisabled == Known(cfg.isDisabled)
    ensures m.branchId == state.branchId && m.componentId == state.componentId && m.configId == state.configId
    ensures m.content == state.content
    ensures m.id == Known(format(m.(id := state.id)))
  {
    var m := state.(name := Known(cfg.name), description := Known(cfg.description),
                    changeDescription := Known(cfg.changeDescription), isDeleted := Known(cfg.isDeleted),
                    created := Known(cfg.created), version := Known(cfg.version), isDisabled := Known(cfg.isDisabled));
    m.(id := Known(format(m)))
  }

  /**
   * `Read`: fetch the configuration named by the state, refresh the
   * descriptive fields and the id, and replace the content, with one
   * warning, exactly when the remote content differs from the parsed
   * state content. The remote configuration always carries content (the
   * source dereferences it).
   */
  function Read(c: Codec, client: Client, format: Model -> string, state: Model): (o: Outcome<Model>)
    requires client.get(StateKey(state)).Success? ==> client.get(StateKey(state)).value.content.Some?
    ensures o.calls == [GetCall(StateKey(state))]
    ensures |o.diags| <= 1 && (o.written.Some? <==> !HasError(o.diags))
    ensures client.get(StateKey(state)).Failure? ==>
      o == Outcome([ReadFailed(format(state), client.get(StateKey(state)).error)], None, o.calls)
    ensures client.get(StateKey(state)).Success? ==>
      var cfg := client.get(StateKey(state)).value;
      var current := c.unmarshal(ValueString(state.content));
      var remote := c.marshal(cfg.content.value);
      var m := Refreshed(format, state, cfg);
      && (current.Failure? ==> o.diags == [StateParseError(current.error)] && o.written.None?)
      && (current.Success? && remote.Failure? ==> o.diags == [RemoteWriteError(format(m), remote.error)] && o.written.None?)
      && (current.Success? && remote.Success? ==>
            && (o.diags == [ReadChanged] <==> current.value != cfg.content.value)
            && (o.diags == [] <==> current.value == cfg.content.value)
            && o.written == Some(if current.value != cfg.content.value then m.(content := Known(remote.value)) else m))
  {
    var key := StateKey(state);
    match client.get(key)
    case Failure(e) =>
      assert [ReadFailed(format(state), e)][0].severity == Error;
      Outcome([ReadFailed(format(state), e)], None, [GetCall(key)])
    case Success(cfg) =>
      var m := Refreshed(format, state, cfg);
      match c.unmarshal(ValueString(state.content))
      case Failure(e) =>
        assert [StateParseError(e)][0].severity == Error;
        Outcome([StateParseError(e)], None, [GetCall(key)])
      case Success(current) =>
        match c.marshal(cfg.content.value)
        case Failure(e) =>
          assert [RemoteWriteError(format(m), e)][0].severity == Error;
          Outcome([RemoteWriteError(format(m), e)], None, [GetCall(key)])
        case Success(text) =>
          if current != cfg.content.value then
            assert !HasError([ReadChanged]);
            Outcome([ReadChanged], Some(m.(content := Known(text))), [GetCall(key)])
          else Outcome([], Some(m), [GetCall(key)])
  }

  /**
   * With a lawful codec, reading again against an unchanged remote
   * configuration raises no warning and writes the same state: the first
   * read already brought the content in line.
   */
  lemma ReadSettles(c: Codec, client: Client, state: Model)
    requires Lawful(c)
    requires client.get(StateKey(state)).Success? ==> client.get(StateKey(state)).value.content.Some?
    requires Read(c, client, InternalId, state).written.Some?
    ensures var next := Read(c, client, InternalId, state).written.value;
      && StateKey(next) == StateKey(state)
      && Read(c, client, InternalId, next).diags == []
      && Read(c, client, InternalId, next).written == Some(next)
  {
    var cfg := client.get(StateKey(state)).value;
    var m := Refreshed(InternalId, state, cfg);
    var next := Read(c, client, InternalId, state).written.value;
    assert StateKey(next) == StateKey(state);
    assert c.marshal(cfg.content.value).Success?;
    assert c.unmarshal(ValueString(next.content)) == Success(cfg.content.value);
    var again := Refreshed(InternalId, next, cfg);
    assert again == next;
  }

  // ---------------------------------------------------------------------------
  // Update

  /** The error for an attempt to change an immutable field. */
  function ChangeError(field: string): Diagnostic
  {
    ErrorDiag(UpdateSummary, "Can not change " + field + " after configuration is created")
  }

  function UpdateParseError(e: string): Diagnostic
  {
    ErrorDiag(UpdateSummary, "Could not parse configuration: " + e)
  }

  /** The first immutable field the plan changes, in the order component, branch, configuration. */
  function FirstViolation(state: Model, plan: Model): (f: Option<string>)
    ensures f.None? <==> (&& !ConfigurationMapper.Violates(state.componentId, plan.componentId)
                          && !ConfigurationMapper.Violates(state.branchId, plan.branchId)
                          && !ConfigurationMapper.Violates(state.configId, plan.configId))
    ensures f == Some("component_id") <==> ConfigurationMapper.Violates(state.componentId, plan.componentId)
    ensures f == Some("branch_id") <==> (&& !ConfigurationMapper.Violates(state.componentId, plan.componentId)
                                         && ConfigurationMapper.Violates(state.branchId, plan.branchId))
    ensures f == Some("configuration_id") <==> (&& !ConfigurationMapper.Violates(state.componentId, plan.componentId)
                                                && !ConfigurationMapper.Violates(state.branchId, plan.branchId)
                                                && ConfigurationMapper.Violates(state.configId, plan.configId))
  {
    if ConfigurationMapper.Violates(state.componentId, plan.componentId) then Some("component_id")
    else if ConfigurationMapper.Violates(state.branchId, plan.branchId) then Some("branch_id")
    else if ConfigurationMapper.Violates(state.configId, plan.configId) then Some("configuration_id")
    else None
  }

  /** The plan after update's defaults: an unknown change description is the update default, unknown content "{}". */
  function UpdateDefaults(plan: Model): (p: Model)
    ensures p.changeDescription == (if plan.changeDescription.Unknown? then Known(UpdatedByDefault) else plan.changeDescription)
    ensures p.content == (if plan.content.Unknown? then Known(EmptyObjectText) else plan.content)
    ensures p == plan.(content := p.content, changeDescription := p.changeDescription)
  {
    plan.(changeDescription := if plan.changeDescription.Unknown? then Known(UpdatedByDefault) else plan.changeDescription,
          content := if plan.content.Unknown? then Known(EmptyObjectText) else plan.content)
  }

  /** The state a successful update writes: the plan with the response's ids, flags, version and texts; the id is the plan's. */
  function Updated(plan: Model, res: Config): (m: Model)
    ensures m == plan.(configId := Known(res.key.id), branchId := Known(res.key.branchId),
                       changeDescription := Known(res.changeDescription), description := Known(res.description),
                       isDisabled := Known(res.isDisabled), isDeleted := Known(res.isDeleted),
                       version := Known(res.version), created := Known(res.created))
  {
    plan.(configId := Known(res.key.id), branchId := Known(res.key.branchId),
          changeDescription := Known(res.changeDescription), description := Known(res.description),
          isDisabled := Known(res.isDisabled), isDeleted := Known(res.isDeleted),
          version := Known(res.version), created := Known(res.created))
  }

  /**
   * `Update`: stop at the first immutable field the plan changes; default
   * the change description and content; parse the content; send the
   * update for the state's key with every change field; write the plan
   * refreshed from the response.
   */
  function Update(c: Codec, client: Client, state: Model, plan: Model): (o: Outcome<Model>)
    ensures |o.diags| <= 1 && (o.written.Some? <==> o.diags == []) && (o.diags != [] ==> HasError(o.diags))
    ensures FirstViolation(state, plan).Some? ==> o == Outcome([ChangeError(FirstViolation(state, plan).value)], None, [])
    ensures FirstViolation(state, plan).None? ==>
      var p := UpdateDefaults(plan);
      var parsed := c.unmarshal(ValueString(p.content));
      && (parsed.Failure? ==> o == Outcome([UpdateParseError(parsed.error)], None, []))
      && (parsed.Success? ==>
            var request := Request(StateKey(state), p.name, p.description, p.changeDescription, p.isDisabled, parsed.value);
            && o.calls == [UpdateCall(request, AllChangeFields)]
            && (client.update(request, AllChangeFields).Failure? ==>
                  o.diags == [UpdateFailed(client.update(request, AllChangeFields).error)])
            && (client.update(request, AllChangeFields).Success? ==>
                  o.written == Some(Updated(p, client.update(request, AllChangeFields).value))))
  {
    match FirstViolation(state, plan)
    case Some(field) =>
      assert [ChangeError(field)][0].severity == Error;
      Outcome([ChangeError(field)], None, [])
    case None =>
      var p := UpdateDefaults(plan);
      match c.unmarshal(ValueString(p.content))
      case Failure(e) =>
        assert [UpdateParseError(e)][0].severity == Error;
        Outcome([UpdateParseError(e)], None, [])
      case Success(payload) =>
        var request := Request(StateKey(state), p.name, p.description, p.changeDescription, p.isDisabled, payload);
        match client.update(request, AllChangeFields)
        case Failure(e) =>
          assert [UpdateFailed(e)][0].severity == Error;
          Outcome([UpdateFailed(e)], None, [UpdateCall(request, AllChangeFields)])
        case Success(res) => Outcome([], Some(Updated(p, res)), [UpdateCall(request, AllChangeFields)])
  }

  /**
   * The legacy update stops exactly when the engine-based mapper reports an
   * immutability error, and the one field it names is the first of those
   * the mapper reports; no request is sent.
   */
  lemma FirstErrorOfAccumulated(c: Codec, client: Client, state: Model, plan: Model)
    ensures var ds := ConfigurationMapper.ImmutabilityDiags(AsConfigModel(state), AsConfigModel(plan));
      && (FirstViolation(state, plan).Some? <==> ds != [])
      && (ds != [] ==>
            && ds[0] == ConfigurationMapper.ImmutableError(FirstViolation(state, plan).value)
            && Update(c, client, state, plan) == Outcome([ChangeError(FirstViolation(state, plan).value)], None, []))
  {
    var ds := ConfigurationMapper.ImmutabilityDiags(AsConfigModel(state), AsConfigModel(plan));
    if ConfigurationMapper.Violates(state.componentId, plan.componentId) {
      assert ds[0] == ConfigurationMapper.ImmutableError("component_id");
    } else if ConfigurationMapper.Violates(state.branchId, plan.branchId) {
      assert ds[0] == ConfigurationMapper.ImmutableError("branch_id");
    } else if ConfigurationMapper.Violates(state.configId, plan.configId) {
      assert ds[0] == ConfigurationMapper.ImmutableError("configuration_id");
    }
  }

  /**
   * Every update request names all five change fields and the state's
   * key, whatever the plan leaves unknown; the written id is the plan's.
   */
  lemma UpdateSendsEveryField(c: Codec, client: Client, state: Model, plan: Model)
    ensures var o := Update(c, client, state, plan);
      && (forall i :: 0 <= i < |o.calls| ==>
            o.calls[i].UpdateCall? && o.calls[i].changeFields == AllChangeFields && o.calls[i].config.key == StateKey(state))
      && (o.written.Some? ==> o.written.value.id == plan.id && o.written.value.componentId == plan.componentId)
  {
  }

  /** `Delete`: one delete request for the key built from the state's configuration id, not its compound id. */
  function DeleteConfiguration(client: Client, state: Model): (o: Outcome<Model>)
    ensures var key := ConfigKey(ValueInt64(state.branchId), ValueString(state.componentId), ValueString(state.configId));
      && o.calls == [DeleteCall(key)] && o.written.None?
      && ErrorCount(o.diags) == (if client.delete(key).Some? then 1 else 0)
  {
    Delete(client, StateKey(state))
  }
}
