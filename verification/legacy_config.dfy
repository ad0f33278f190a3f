/**
 * The oldest hand-written configuration resource (`keboola_config`). Its
 * `configuration_id` is the only id; it has no immutability checks, no
 * "{}" default and no read-refresh warning, and an update names only the
 * fields the plan does not leave unknown.
 */
module LegacyConfig {
  import opened Wrappers
  import opened Framework
  import opened Seqs
  import opened Codec
  import opened Api
  import opened Legacy
  import LegacyComponentConfig

  /** The resource's Terraform model; `id` is the configuration id. */
  datatype Model = Model(
    branchId: Value<int>,
    componentId: Value<string>,
    id: Value<string>,
    name: Value<string>,
    description: Value<string>,
    changeDescription: Value<string>,
    isDeleted: Value<bool>,
    created: Value<string>,
    version: Value<int>,
    isDisabled: Value<bool>,
    content: Value<string>)

  function ParseError(summary: string, e: string): Diagnostic
  {
    ErrorDiag(summary, "Could not parse configuration: " + e)
  }

  // ---------------------------------------------------------------------------
  // Create

  /** The state a successful create writes: the plan with the response's id, branch, flags, version, time and change description. */
  function Created(plan: Model, res: Config): (m: Model)
    ensures m == plan.(id := Known(res.key.id), branchId := Known(res.key.branchId), isDeleted := Known(res.isDeleted),
                       version := Known(res.version), created := Known(res.created),
                       changeDescription := Known(res.changeDescription))
  {
    plan.(id := Known(res.key.id), branchId := Known(res.key.branchId), isDeleted := Known(res.isDeleted),
          version := Known(res.version), created := Known(res.created),
          changeDescription := Known(res.changeDescription))
  }

  /**
   * `Create`: parse the plan's content as it stands (an unknown or null
   * content is the empty text), stopping with one error before any
   * request; default a null change description; resolve the branch; send
   * the create request, the configuration id only when not null.
   */
  function Create(c: Codec, client: Client, plan: Model): (o: Outcome<Model>)
    ensures |o.diags| <= 1 && (o.written.Some? <==> o.diags == []) && (o.diags != [] ==> HasError(o.diags))
    ensures var parsed := c.unmarshal(ValueString(plan.content));
      && (parsed.Failure? ==> o == Outcome([ParseError(CreateSummary, parsed.error)], None, []))
      && (parsed.Success? ==>
            var cd := if plan.changeDescription.Null? then Known(CreatedByDefault) else plan.changeDescription;
            var branch := ResolveBranch(client, plan.branchId);
            && (branch.0.Failure? ==> o == Outcome([DefaultBranchError(branch.0.error)], None, [DefaultBranchCall]))
            && (branch.0.Success? ==>
                  var key := ConfigKey(branch.0.value, ValueString(plan.componentId), if plan.id.Null? then "" else ValueString(plan.id));
                  var request := ConfigWithRows(Request(key, plan.name, plan.description, cd, plan.isDisabled, parsed.value), []);
                  && o.calls == branch.1 + [CreateCall(request)]
                  && (client.create(request).Failure? ==> o.diags == [CreateFailed(client.create(request).error)])
                  && (client.create(request).Success? ==>
                        o.written == Some(Created(plan.(changeDescription := cd), client.create(request).value)))))
  {
    match c.unmarshal(ValueString(plan.content))
    case Failure(e) =>
      assert [ParseError(CreateSummary, e)][0].severity == Error;
      Outcome([ParseError(CreateSummary, e)], None, [])
    case Success(payload) =>
      var cd := if plan.changeDescription.Null? then Known(CreatedByDefault) else plan.changeDescription;
      var branch := ResolveBranch(client, plan.branchId);
      match branch.0
      case Failure(e) =>
        assert [DefaultBranchError(e)][0].severity == Error;
        Outcome([DefaultBranchError(e)], None, [DefaultBranchCall])
      case Success(b) =>
        var key := ConfigKey(b, ValueString(plan.componentId), if plan.id.Null? then "" else ValueString(plan.id));
        var request := ConfigWithRows(Request(key, plan.name, plan.description, cd, plan.isDisabled, payload), []);
        match client.create(request)
        case Failure(e) =>
          assert [CreateFailed(e)][0].severity == Error;
          Outcome([CreateFailed(e)], None, branch.1 + [CreateCall(request)])
        case Success(res) => Outcome([], Some(Created(plan.(changeDescription := cd), res)), branch.1 + [CreateCall(request)])
  }

  /**
   * Unlike the component-configuration resource, an unknown content is
   * not defaulted: when the codec rejects the empty text, such a create
   * stops with one error and no request, while the other resource (whose
   * content is then "{}", which a lawful codec accepts) goes on to ask
   * for the default branch or to send the create request.
   */
  lemma UnknownContentIsNotDefaulted(c: Codec, client: Client, plan: Model, other: LegacyComponentConfig.Model)
    requires Lawful(c) && c.unmarshal("").Failure?
    requires plan.content.Unknown? && other.content.Unknown?
    ensures Create(c, client, plan).calls == [] && Create(c, client, plan).written.None?
    ensures HasError(Create(c, client, plan).diags)
    ensures |LegacyComponentConfig.Create(c, client, LegacyComponentConfig.InternalId, other).calls| >= 1
  {
    assert c.unmarshal(LegacyComponentConfig.ContentText(other.content)) == Success(Empty);
  }

  // ---------------------------------------------------------------------------
  // Read

  /** The key of the configuration a state describes. */
  function StateKey(m: Model): (k: ConfigKey)
    ensures k.branchId == ValueInt64(m.branchId) && k.componentId == ValueString(m.componentId) && k.id == ValueString(m.id)
  {
    ConfigKey(ValueInt64(m.branchId), ValueString(m.componentId), ValueString(m.id))
  }

  /** How a read error names the configuration: the branch as `types.Int64.String()`, then the plain component and id. */
  function Describe(m: Model): string
  {
    Int64Render(m.branchId) + "/" + ValueString(m.componentId) + "/" + ValueString(m.id)
  }

  function ReadFailed(m: Model, e: string): Diagnostic
  {
    ErrorDiag("Error Reading Configuration", "Could not read Configuration" + Describe(m) + ": " + e)
  }

  function RemoteWriteError(m: Model, e: string): Diagnostic
  {
    ErrorDiag("Error Reading Configuration", "Could not parse configuration " + Describe(m) + ": " + e)
  }

  /**
   * `Read`: fetch the configuration named by the state and overwrite the
   * descriptive fields and the content with the remote values, without a
   * warning. The remote configuration always carries content (the source
   * dereferences it).
   */
  function Read(c: Codec, client: Client, state: Model): (o: Outcome<Model>)
    requires client.get(StateKey(state)).Success? ==> client.get(StateKey(state)).value.content.Some?
    ensures o.calls == [GetCall(StateKey(state))]
    ensures |o.diags| <= 1 && (o.written.Some? <==> o.diags == []) && (o.diags != [] ==> HasError(o.diags))
    ensures client.get(StateKey(state)).Failure? ==>
      o.diags == [ReadFailed(state, client.get(StateKey(state)).error)] && o.written.None?
    ensures client.get(StateKey(state)).Success? ==>
      var cfg := client.get(StateKey(state)).value;
      && (c.marshal(cfg.content.value).Failure? ==>
            o.diags == [RemoteWriteError(state, c.marshal(cfg.content.value).error)] && o.written.None?)
      && (c.marshal(cfg.content.value).Success? ==>
            o.written == Some(state.(name := Known(cfg.name), description := Known(cfg.description),
                                     changeDescription := Known(cfg.changeDescription), isDeleted := Known(cfg.isDeleted),
                                     created := Known(cfg.created), version := Known(cfg.version),
                                     isDisabled := Known(cfg.isDisabled), content := Known(c.marshal(cfg.content.value).value))))
  {
    var key := StateKey(state);
    match client.get(key)
    case Failure(e) =>
      assert [ReadFailed(state, e)][0].severity == Error;
      Outcome([ReadFailed(state, e)], None, [GetCall(key)])
    case Success(cfg) =>
      match c.marshal(cfg.content.value)
      case Failure(e) =>
        assert [RemoteWriteError(state, e)][0].severity == Error;
        Outcome([RemoteWriteError(state, e)], None, [GetCall(key)])
      case Success(text) =>
        Outcome([], Some(state.(name := Known(cfg.name), description := Known(cfg.description),
                                changeDescription := Known(cfg.changeDescription), isDeleted := Known(cfg.isDeleted),
                                created := Known(cfg.created), version := Known(cfg.version),
                                isDisabled := Known(cfg.isDisabled), content := Known(text))), [GetCall(key)])
  }

  /**
   * With a lawful codec, the content a successful read writes parses back
   * to the remote content, and the key it reads from is unchanged.
   */
  lemma ReadAdoptsRemoteContent(c: Codec, client: Client, state: Model)
    requires Lawful(c)
    requires client.get(StateKey(state)).Success? ==> client.get(StateKey(state)).value.content.Some?
    requires Read(c, client, state).written.Some?
    ensures var next := Read(c, client, state).written.value;
      && StateKey(next) == StateKey(state)
      && ParseJSON(c, next.content) == Success(client.get(StateKey(state)).value.content.value)
  {
    assert c.marshal(client.get(StateKey(state)).value.content.value).Success?;
  }

  // ---------------------------------------------------------------------------
  // Update

  /** Whether an update names `field`: the plan's value for it is not unknown (a null value counts). */
  predicate Sent(plan: Model, field: string)
  {
    match field
    case "name" => !plan.name.Unknown?
    case "description" => !plan.description.Unknown?
    case "configuration" => !plan.content.Unknown?
    case "changeDescription" => !plan.changeDescription.Unknown?
    case "isDisabled" => !plan.isDisabled.Unknown?
    case _ => false
  }

  /** The change fields an update names, checked one by one in the order of `AllChangeFields`. */
  function ChangeFields(plan: Model): (fields: seq<string>)
    ensures |fields| <= |AllChangeFields|
    ensures forall f :: f in fields <==> f in AllChangeFields && Sent(plan, f)
  {
    (if !plan.name.Unknown? then ["name"] else [])
    + ((if !plan.description.Unknown? then ["description"] else [])
    + ((if !plan.content.Unknown? then ["configuration"] else [])
    + ((if !plan.changeDescription.Unknown? then ["changeDescription"] else [])
    + (if !plan.isDisabled.Unknown? then ["isDisabled"] else []))))
  }

  /** Proof helper for `ChangeFieldsFilterAll`: what `Sent` says for each of the five change-field names. */
  lemma SentNames(plan: Model)
    ensures Sent(plan, "name") == !plan.name.Unknown?
    ensures Sent(plan, "description") == !plan.description.Unknown?
    ensures Sent(plan, "configuration") == !plan.content.Unknown?
    ensures Sent(plan, "changeDescription") == !plan.changeDescription.Unknown?
    ensures Sent(plan, "isDisabled") == !plan.isDisabled.Unknown?
  {
  }

  /**
   * The change fields are the full list filtered by `Sent`: a subsequence
   * of it, in its order.
   */
  lemma ChangeFieldsFilterAll(plan: Model)
    ensures ChangeFields(plan) == Filter(AllChangeFields, (f: string) => Sent(plan, f))
  {
    var p := (f: string) => Sent(plan, f);
    SentNames(plan);
    var s4: seq<string> := ["isDisabled"];
    var s3 := ["changeDescription"] + s4;
    var s2 := ["configuration"] + s3;
    var s1 := ["description"] + s2;
    assert AllChangeFields == ["name"] + s1;
    assert s4 == ["isDisabled"] + [];
    FilterCons("isDisabled", [], p);
    FilterCons("changeDescription", s4, p);
    FilterCons("configuration", s3, p);
    FilterCons("description", s2, p);
    FilterCons("name", s1, p);
  }

  /** A plan that leaves nothing unknown names every field, as the component-configuration update always does. */
  lemma FullPlanSendsEveryField(plan: Model)
    requires !plan.name.Unknown? && !plan.description.Unknown? && !plan.content.Unknown?
    requires !plan.changeDescription.Unknown? && !plan.isDisabled.Unknown?
    ensures ChangeFields(plan) == AllChangeFields
  {
  }

  /** The state a successful update writes: only the id, branch, change description, deletion flag, version and time change. */
  function Updated(plan: Model, res: Config): (m: Model)
    ensures m == plan.(id := Known(res.key.id), branchId := Known(res.key.branchId),
                       changeDescription := Known(res.changeDescription), isDeleted := Known(res.isDeleted),
                       version := Known(res.version), created := Known(res.created))
  {
    plan.(id := Known(res.key.id), branchId := Known(res.key.branchId),
          changeDescription := Known(res.changeDescription), isDeleted := Known(res.isDeleted),
          version := Known(res.version), created := Known(res.created))
  }

  /**
   * `Update`: no immutability checks; parse the plan's content (the
   * error's summary is the create one); send the update for the state's
   * key naming the fields the plan does not leave unknown; write the plan
   * with the response's id, branch, change description, flags and times.
   */
  function Update(c: Codec, client: Client, state: Model, plan: Model): (o: Outcome<Model>)
    ensures |o.diags| <= 1 && (o.written.Some? <==> o.diags == []) && (o.diags != [] ==> HasError(o.diags))
    ensures var parsed := c.unmarshal(ValueString(plan.content));
      && (parsed.Failure? ==> o == Outcome([ParseError(CreateSummary, parsed.error)], None, []))
      && (parsed.Success? ==>
            var request := Request(StateKey(state), plan.name, plan.description, plan.changeDescription, plan.isDisabled, parsed.value);
            && o.calls == [UpdateCall(request, ChangeFields(plan))]
            && (client.update(request, ChangeFields(plan)).Failure? ==>
                  o.diags == [UpdateFailed(client.update(request, ChangeFields(plan)).error)])
            && (client.update(request, ChangeFields(plan)).Success? ==>
                  o.written == Some(Updated(plan, client.update(request, ChangeFields(plan)).value))))
  {
    match c.unmarshal(ValueString(plan.content))
    case Failure(e) =>
      assert [ParseError(CreateSummary, e)][0].severity == Error;
      Outcome([ParseError(CreateSummary, e)], None, [])
    case Success(payload) =>
      var request := Request(StateKey(state), plan.name, plan.description, plan.changeDescription, plan.isDisabled, payload);
      var fields := ChangeFields(plan);
      match client.update(request, fields)
      case Failure(e) =>
        assert [UpdateFailed(e)][0].severity == Error;
        Outcome([UpdateFailed(e)], None, [UpdateCall(request, fields)])
      case Success(res) => Outcome([], Some(Updated(plan, res)), [UpdateCall(request, fields)])
  }

  /**
   * An update never refuses to change the component, branch or id: it
   * sends its request whenever the content parses, and what it writes
   * keeps the plan's component, name, description, disabled flag and
   * content.
   */
  lemma UpdateHasNoImmutabilityCheck(c: Codec, client: Client, state: Model, plan: Model)
    requires c.unmarshal(ValueString(plan.content)).Success?
    ensures |Update(c, client, state, plan).calls| == 1
    ensures var o := Update(c, client, state, plan);
      o.written.Some? ==>
        var m := o.written.value;
        && m.componentId == plan.componentId && m.name == plan.name && m.description == plan.description
        && m.isDisabled == plan.isDisabled && m.content == plan.content
  {
  }

  /** `Delete`: one delete request for the key built from the state's `id`, which this resource keeps as the plain configuration id. */
  function DeleteConfiguration(client: Client, state: Model): (o: Outcome<Model>)
    ensures var key := ConfigKey(ValueInt64(state.branchId), ValueString(state.componentId), ValueString(state.id));
      && o.calls == [DeleteCall(key)] && o.written.None?
      && ErrorCount(o.diags) == (if client.delete(key).Some? then 1 else 0)
  {
    Delete(client, StateKey(state))
  }
}
