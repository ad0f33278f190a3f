/**
 * The configuration resource's mapper (`ConfigMapper`): validation and
 * defaulting of the plan, plan-to-API translation, and hydration of the
 * Terraform model from an API response.
 */
module ConfigurationMapper {
  import opened Wrappers
  import opened Framework
  import opened Seqs
  import opened Codec
  import opened Api
  import opened ConfigurationModels
  import opened RowHandler

  /** The mapper: its row handler and whether payloads are indented for tests. */
  datatype ConfigMapper = ConfigMapper(rowHandler: RowHandler, isTest: bool)

  const CreatedDefault := "Created by Keboola Terraform Provider"
  const UpdatedDefault := "Updated by Keboola Terraform Provider"

  /** Indentation prefix used for configuration content in test mode (five tabs). */
  const ContentIndentPrefix := "\t\t\t\t\t"

  const ErrExtractPlanRowModels := Fault("failed to extract plan row models")
  const ErrExtractStateRowModels := Fault("failed to extract state row models")
  const ErrParseConfigContent := Fault("could not parse configuration content")
  const ErrMapRowModelsToAPI := Fault("failed to map row models to API")

  /** The change description a create or an update fills in. */
  function DefaultChangeDescription(isCreate: bool): string
  {
    if isCreate then CreatedDefault else UpdatedDefault
  }

  // ---------------------------------------------------------------------------
  // Validation and defaulting

  /** The error for an attempt to change an immutable field. */
  function ImmutableError(field: string): Diagnostic
  {
    ErrorDiag("Error updating configuration", "Cannot change " + field + " after configuration is created")
  }

  /** A plan value that is known (or null) and differs from the prior value. */
  predicate Violates<T(==)>(prior: Value<T>, plan: Value<T>)
  {
    !plan.Unknown? && prior != plan
  }

  function Count(b: bool): nat
  {
    if b then 1 else 0
  }

  /** The three immutability checks of an update, each adding its own error. */
  function ImmutabilityDiags(prior: ConfigModel, plan: ConfigModel): (ds: seq<Diagnostic>)
    ensures ImmutableError("component_id") in ds <==> Violates(prior.componentId, plan.componentId)
    ensures ImmutableError("branch_id") in ds <==> Violates(prior.branchId, plan.branchId)
    ensures ImmutableError("configuration_id") in ds <==> Violates(prior.configId, plan.configId)
    ensures forall i :: 0 <= i < |ds| ==> ds[i].severity == Error
    ensures |ds| == Count(Violates(prior.componentId, plan.componentId))
                  + Count(Violates(prior.branchId, plan.branchId))
                  + Count(Violates(prior.configId, plan.configId))
  {
    (if Violates(prior.componentId, plan.componentId) then [ImmutableError("component_id")] else [])
    + (if Violates(prior.branchId, plan.branchId) then [ImmutableError("branch_id")] else [])
    + (if Violates(prior.configId, plan.configId) then [ImmutableError("configuration_id")] else [])
  }

  /** The error for known content that does not parse. */
  function ContentError(e: string): Diagnostic
  {
    ErrorDiag("Error validating configuration", "Could not parse configuration JSON: " + e)
  }

  /** Every row's change description replaced by the create or update default. */
  function SetDefaultRowChangeDescriptions(rows: seq<RowModel>, isNew: bool): (r: seq<RowModel>)
    ensures |r| == |rows|
    ensures forall i :: 0 <= i < |r| ==> r[i].changeDescription == Known(DefaultChangeDescription(isNew))
    ensures forall i :: 0 <= i < |r| ==> r[i] == rows[i].(changeDescription := r[i].changeDescription)
  {
    Map(rows, (row: RowModel) => row.(changeDescription := Known(DefaultChangeDescription(isNew))))
  }

  lemma SetDefaultsIdempotent(rows: seq<RowModel>, isNew: bool)
    ensures SetDefaultRowChangeDescriptions(SetDefaultRowChangeDescriptions(rows, isNew), isNew)
         == SetDefaultRowChangeDescriptions(rows, isNew)
  {
  }

  /** A prior row whose unknown change description becomes "Created by …". */
  function DefaultUnknownChangeDescription(row: RowModel): RowModel
  {
    if row.changeDescription.Unknown? then row.(changeDescription := Known(CreatedDefault)) else row
  }

  /**
   * `processUnknownRows`: the rows an unknown plan list is replaced with.
   * On create, an empty list. On update, the prior rows with unknown change
   * descriptions defaulted; a null prior list stays null and an unreadable
   * one gives an empty list.
   */
  function ProcessUnknownRows(oldModel: Option<ConfigModel>): (rows: Value<seq<RowModel>>)
    ensures oldModel.None? ==> rows == Known([])
    ensures oldModel.Some? && oldModel.value.rows.Null? ==> rows == Null
    ensures oldModel.Some? && oldModel.value.rows.Unknown? ==> rows == Known([])
    ensures oldModel.Some? && oldModel.value.rows.Known? ==>
      && rows.Known? && |rows.v| == |oldModel.value.rows.v|
      && forall i :: 0 <= i < |rows.v| ==>
           var prior := oldModel.value.rows.v[i];
           rows.v[i] == prior.(changeDescription := rows.v[i].changeDescription)
           && rows.v[i].changeDescription == (if prior.changeDescription.Unknown? then Known(CreatedDefault)
                                              else prior.changeDescription)
  {
    match oldModel
    case None => Known([])
    case Some(prior) =>
      match prior.rows
      case Null => Null
      case Unknown => Known([])
      case Known(rs) => Known(Map(rs, DefaultUnknownChangeDescription))
  }

  /**
   * The diagnostics of `ValidateTerraformModel`: on an update each changed
   * immutable field adds its own error, in field order, first; known content
   * that does not parse adds its parse error last. They are all errors.
   */
  function ValidationDiags(c: Codec, oldModel: Option<ConfigModel>, newModel: ConfigModel): (ds: seq<Diagnostic>)
    ensures ErrorCount(ds) == |ds|
    ensures oldModel.None? ==> (HasError(ds) <==> PayloadMalformed(c, newModel.content))
    ensures oldModel.Some? ==>
      && (ImmutableError("component_id") in ds <==> Violates(oldModel.value.componentId, newModel.componentId))
      && (ImmutableError("branch_id") in ds <==> Violates(oldModel.value.branchId, newModel.branchId))
      && (ImmutableError("configuration_id") in ds <==> Violates(oldModel.value.configId, newModel.configId))
    ensures |ds| == Count(PayloadMalformed(c, newModel.content))
                  + (if oldModel.None? then 0 else |ImmutabilityDiags(oldModel.value, newModel)|)
    ensures oldModel.Some? ==>
      ds[..|ImmutabilityDiags(oldModel.value, newModel)|] == ImmutabilityDiags(oldModel.value, newModel)
    ensures PayloadMalformed(c, newModel.content) ==>
      ds[|ds| - 1] == ContentError(c.unmarshal(newModel.content.v).error)
  {
    var immutability := if oldModel.Some? then ImmutabilityDiags(oldModel.value, newModel) else [];
    var content := ContentDiags(c, newModel.content);
    ValidationDiagsFacts(immutability, content);
    immutability + content
  }

  /** The one error for known content that does not parse, or none. */
  function ContentDiags(c: Codec, content: Value<string>): (ds: seq<Diagnostic>)
    ensures |ds| == Count(PayloadMalformed(c, content))
    ensures forall i :: 0 <= i < |ds| ==> ds[i].severity == Error && ds[i].summary == "Error validating configuration"
  {
    if PayloadMalformed(c, content) then [ContentError(c.unmarshal(content.v).error)] else []
  }

  lemma ValidationDiagsFacts(immutability: seq<Diagnostic>, content: seq<Diagnostic>)
    requires forall i :: 0 <= i < |immutability| ==> immutability[i].severity == Error
    requires |content| <= 1 && forall i :: 0 <= i < |content| ==> content[i].severity == Error
    requires forall i :: 0 <= i < |content| ==> content[i].summary == "Error validating configuration"
    ensures ErrorCount(immutability + content) == |immutability + content|
    ensures immutability == [] ==> (HasError(immutability + content) <==> content != [])
    ensures forall f :: ImmutableError(f) in immutability + content <==> ImmutableError(f) in immutability
  {
    var ds := immutability + content;
    AllErrors(ds);
    if immutability == [] && content != [] {
      assert ds[0].severity == Error;
    }
  }

  /**
   * `ValidateTerraformModel`: the defaulted plan and `ValidationDiags`.
   * Unknown change descriptions and content get their defaults; rows
   * follow the create/update rules; nothing else changes.
   */
  function ValidateTerraformModel(c: Codec, oldModel: Option<ConfigModel>, newModel: ConfigModel)
    : (r: (ConfigModel, seq<Diagnostic>))
    ensures r.1 == ValidationDiags(c, oldModel, newModel)
    ensures r.0.changeDescription
         == if newModel.changeDescription.Unknown? then Known(DefaultChangeDescription(oldModel.None?))
            else newModel.changeDescription
    ensures r.0.content == if newModel.content.Unknown? then Known(EmptyObjectText) else newModel.content
    ensures newModel.rows.Unknown? ==> r.0.rows == ProcessUnknownRows(oldModel)
    ensures newModel.rows.Null? ==> r.0.rows == Null
    ensures newModel.rows.Known? ==>
      r.0.rows == Known(SetDefaultRowChangeDescriptions(newModel.rows.v, oldModel.None?))
    ensures r.0 == newModel.(changeDescription := r.0.changeDescription, content := r.0.content, rows := r.0.rows)
  {
    var changeDescription :=
      if newModel.changeDescription.Unknown? then Known(DefaultChangeDescription(oldModel.None?))
      else newModel.changeDescription;
    var content := if newModel.content.Unknown? then Known(EmptyObjectText) else newModel.content;
    var rows :=
      match newModel.rows
      case Unknown => ProcessUnknownRows(oldModel)
      case Null => Null
      case Known(rs) => Known(SetDefaultRowChangeDescriptions(rs, oldModel.None?));
    (newModel.(changeDescription := changeDescription, content := content, rows := rows),
     ValidationDiags(c, oldModel, newModel))
  }

  /** A sequence of errors only has as many errors as entries. */
  lemma {:induction false} AllErrors(ds: seq<Diagnostic>)
    requires forall i :: 0 <= i < |ds| ==> ds[i].severity == Error
    ensures ErrorCount(ds) == |ds|
  {
    if |ds| > 0 {
      assert [ds[0]] + ds[1..] == ds;
      ErrorCountAppend([ds[0]], ds[1..]);
      assert HasError([ds[0]]) by { assert [ds[0]][0].severity == Error; }
      AllErrors(ds[1..]);
    }
  }

  /** On create no immutability error is ever raised. */
  lemma CreateNeverImmutable(c: Codec, newModel: ConfigModel, field: string)
    ensures ImmutableError(field) !in ValidateTerraformModel(c, None, newModel).1
  {
  }

  /**
   * Validating an already-validated plan changes nothing, unless an
   * update's unknown rows were just replaced by the prior rows (their
   * change descriptions are then overwritten by the update default).
   */
  lemma ValidateIdempotent(c: Codec, oldModel: Option<ConfigModel>, newModel: ConfigModel)
    requires Lawful(c)
    requires oldModel.None? || !newModel.rows.Unknown?
    ensures var once := ValidateTerraformModel(c, oldModel, newModel);
      ValidateTerraformModel(c, oldModel, once.0) == once
  {
    var once := ValidateTerraformModel(c, oldModel, newModel);
    var twice := ValidateTerraformModel(c, oldModel, once.0);
    if newModel.rows.Known? {
      SetDefaultsIdempotent(newModel.rows.v, oldModel.None?);
    }
    if newModel.content.Unknown? {
      assert c.unmarshal(EmptyObjectText).Success?;
    }
    if oldModel.Some? {
      assert ImmutabilityDiags(oldModel.value, once.0) == ImmutabilityDiags(oldModel.value, newModel);
    }
    assert twice.0 == once.0;
  }

  /**
   * After a validation without errors, the content the plan-to-API
   * translation parses does parse (null content is skipped there).
   */
  lemma ValidatedContentParses(c: Codec, oldModel: Option<ConfigModel>, newModel: ConfigModel)
    requires Lawful(c)
    requires !HasError(ValidateTerraformModel(c, oldModel, newModel).1)
    ensures !PayloadMalformed(c, ValidateTerraformModel(c, oldModel, newModel).0.content)
  {
  }

  // ---------------------------------------------------------------------------
  // Plan to API

  /** `processRows`: the API rows and the sort order, or the first failure. */
  function ProcessRows(c: Codec, plan: ConfigModel, state: ConfigModel)
    : (r: Result<(seq<ConfigRow>, seq<string>), Fault>)
    ensures plan.rows.Null? ==> r == Success(([], []))
    ensures plan.rows.Unknown? ==> r == Failure(ErrExtractPlanRowModels)
    ensures plan.rows.Known? && state.rows.Unknown? ==> r == Failure(ErrExtractStateRowModels)
    ensures plan.rows.Known? && !state.rows.Unknown? ==>
      var planRows := plan.rows.v;
      var stateRows := if state.rows.Known? then state.rows.v else [];
      && (r.Success? <==> forall i :: 0 <= i < |planRows| ==> !RowMalformed(c, planRows[i]))
      && (r.Success? ==>
           && r.value.0 == MapChildModelsToAPI(c, planRows).value
           && r.value.1 == GetRowsSortOrder(planRows, stateRows))
      && (r.Failure? ==> r.error == Wrap(ErrMapRowModelsToAPI, MapChildModelsToAPI(c, planRows).error.message))
  {
    if plan.rows.Null? then Success(([], []))
    else
      match ExtractChildModels(plan)
      case Failure(_) => Failure(ErrExtractPlanRowModels)
      case Success(planRows) =>
        match ExtractChildModels(state)
        case Failure(_) => Failure(ErrExtractStateRowModels)
        case Success(stateRows) =>
          match MapChildModelsToAPI(c, planRows)
          case Failure(e) => Failure(Wrap(ErrMapRowModelsToAPI, e.message))
          case Success(rows) => Success((rows, GetRowsSortOrder(planRows, stateRows)))
  }

  /**
   * `MapTerraformToAPI(state, plan)`: the key and fields from the plan, the
   * parsed content (empty when null or unknown), the API rows and the sort
   * order. Content is parsed before the rows are looked at.
   */
  function MapTerraformToAPI(c: Codec, state: ConfigModel, plan: ConfigModel): (r: Result<ConfigWithRows, Fault>)
    ensures PayloadMalformed(c, plan.content) ==>
      r == Failure(Wrap(ErrParseConfigContent, c.unmarshal(plan.content.v).error))
    ensures !PayloadMalformed(c, plan.content) ==> (r.Success? <==> ProcessRows(c, plan, state).Success?)
    ensures !PayloadMalformed(c, plan.content) && r.Failure? ==> r.error == ProcessRows(c, plan, state).error
    ensures r.Success? ==>
      && r.value.config.key == ConfigKey(ValueInt64(plan.branchId), ValueString(plan.componentId), ValueString(plan.configId))
      && r.value.config.name == ValueString(plan.name)
      && r.value.config.description == ValueString(plan.description)
      && r.value.config.changeDescription == ValueString(plan.changeDescription)
      && r.value.config.isDisabled == ValueBool(plan.isDisabled)
      && r.value.config.content == Some(if plan.content.Known? then c.unmarshal(plan.content.v).value else Empty)
      && r.value.rows == ProcessRows(c, plan, state).value.0
      && r.value.config.rowsSortOrder == ProcessRows(c, plan, state).value.1
  {
    var key := ConfigKey(ValueInt64(plan.branchId), ValueString(plan.componentId), ValueString(plan.configId));
    var content :-
      if plan.content.Known? then
        match c.unmarshal(plan.content.v)
        case Failure(e) => Failure(Wrap(ErrParseConfigContent, e))
        case Success(m) => Success(m)
      else Success(Empty);
    var rowsAndOrder :- ProcessRows(c, plan, state);
    Success(ConfigWithRows(
      Config(key, ValueString(plan.name), ValueString(plan.description), ValueString(plan.changeDescription),
             false, ValueBool(plan.isDisabled), 0, "", Some(content), rowsAndOrder.1),
      rowsAndOrder.0))
  }

  // ---------------------------------------------------------------------------
  // API to Terraform

  /**
   * `processConfigContent`: a nil map leaves the target as it was; a failed
   * serialisation warns and leaves it; otherwise the compact text, indented
   * in test mode when indenting succeeds (a failure there warns).
   */
  function ProcessConfigContent(c: Codec, content: Option<OrderedMap>, target: Value<string>, isTest: bool)
    : (r: (Value<string>, seq<Diagnostic>))
    ensures !HasError(r.1) && |r.1| <= 1
    ensures content.None? ==> r == (target, [])
    ensures content.Some? && c.marshal(content.value).Failure? ==> r.0 == target && |r.1| == 1
    ensures content.Some? && c.marshal(content.value).Success? ==>
      && r.0.Known?
      && (!isTest ==> r == (Known(c.marshal(content.value).value), []))
      && (isTest && c.indent(content.value, ContentIndentPrefix, "\t").Failure? ==>
            r.0 == Known(c.marshal(content.value).value) && |r.1| == 1)
      && (isTest && c.indent(content.value, ContentIndentPrefix, "\t").Success? ==>
            r == (Known(c.indent(content.value, ContentIndentPrefix, "\t").value), []))
    ensures Lawful(c) && content.Some? && c.marshal(content.value).Success? ==>
      ParseJSON(c, r.0) == Success(content.value)
  {
    match content
    case None => (target, [])
    case Some(m) =>
      match c.marshal(m)
      case Failure(e) =>
        var w := WarningDiag("Error serializing configuration content", "Could not serialize configuration content: " + e);
        assert !HasError([w]);
        (target, [w])
      case Success(compact) =>
        if !isTest then (Known(compact), [])
        else
          match c.indent(m, ContentIndentPrefix, "\t")
          case Failure(e) =>
            var w := WarningDiag("Error formatting configuration content in test mode",
                                 "Could not format configuration content: " + e);
            assert !HasError([w]);
            (Known(compact), [w])
          case Success(indented) => (Known(indented), [])
  }

  /**
   * `MapAPIToTerraform`: copies the configuration's fields, recomputes the
   * compound id from them, sets content ("{}" when the API has none) and
   * merges rows when the API returned any. The version is not touched.
   */
  function MapAPIToTerraform(h: ConfigMapper, c: Codec, api: ConfigWithRows, tf: ConfigModel)
    : (r: (ConfigModel, seq<Diagnostic>))
    ensures r.0.configId == Known(api.config.key.id)
    ensures r.0.branchId == Known(api.config.key.branchId)
    ensures r.0.componentId == Known(api.config.key.componentId)
    ensures r.0.name == Known(api.config.name) && r.0.description == Known(api.config.description)
    ensures r.0.changeDescription == Known(api.config.changeDescription)
    ensures r.0.isDeleted == Known(api.config.isDeleted) && r.0.isDisabled == Known(api.config.isDisabled)
    ensures r.0.created == Known(api.config.created)
    ensures r.0.version == tf.version
    ensures r.0.id == Known(GetConfigModelID(r.0))
    ensures r.0.content.Known?
    ensures r.0.content == HydrateConfig(c, api.config, tf, h.isTest).0.content
    ensures Lawful(c) ==>
      ParseJSON(c, r.0.content)
        == Success(if api.config.content.Some? && c.marshal(api.config.content.value).Success?
                   then api.config.content.value else Empty)
    ensures |api.rows| == 0 ==> r.0.rows == tf.rows
    ensures |api.rows| > 0 && !tf.rows.Unknown? ==>
      && !HasError(r.1)
      && r.0.rows.Known?
      && Map(r.0.rows.v, RowModelId) == Map(MergeOrder(PriorKeys(h.rowHandler, ExtractChildModels(tf).value), api.rows), ApiRowId)
    ensures |api.rows| > 0 && !tf.rows.Unknown? && DistinctIds(api.rows) ==>
      multiset(r.0.rows.v) == multiset(Map(api.rows, RowHydrator(c, h.rowHandler.isTest)))
    ensures HasError(r.1) ==> |api.rows| > 0 && tf.rows.Unknown?
  {
    var hydrated := HydrateConfig(c, api.config, tf, h.isTest);
    if |api.rows| > 0 then
      var merged := ProcessAPIChildModels(h.rowHandler, c, hydrated.0, api.rows);
      ConfigIdDependsOnKeyOnly(merged.0, hydrated.0);
      HasErrorAppend(hydrated.1, merged.1);
      assert hydrated.0.rows == tf.rows;
      (merged.0, hydrated.1 + merged.1)
    else
      hydrated
  }

  /**
   * The content `MapAPIToTerraform` writes: "{}" when the API has no
   * content or it cannot be serialised; otherwise the compact text, or in
   * test mode the indented text when indenting succeeds.
   */
  lemma MappedContent(h: ConfigMapper, c: Codec, api: ConfigWithRows, tf: ConfigModel)
    ensures var r := MapAPIToTerraform(h, c, api, tf);
      && (api.config.content.None? || c.marshal(api.config.content.value).Failure? ==>
            r.0.content == Known(EmptyObjectText))
      && (api.config.content.Some? && c.marshal(api.config.content.value).Success? ==>
            var m := api.config.content.value;
            r.0.content == Known(if h.isTest && c.indent(m, ContentIndentPrefix, "\t").Success?
                                 then c.indent(m, ContentIndentPrefix, "\t").value
                                 else c.marshal(m).value))
  {
    var hydrated := HydrateConfig(c, api.config, tf, h.isTest);
    assert MapAPIToTerraform(h, c, api, tf).0.content == hydrated.0.content;
  }

  /**
   * The configuration part of `MapAPIToTerraform`: the API's fields, the
   * compound id recomputed from them and the content text; the rows and
   * the version are left as they were.
   */
  function HydrateConfig(c: Codec, api: Config, tf: ConfigModel, isTest: bool): (r: (ConfigModel, seq<Diagnostic>))
    ensures r.0 == tf.(id := r.0.id, configId := r.0.configId, branchId := r.0.branchId, componentId := r.0.componentId,
                       name := r.0.name, description := r.0.description, changeDescription := r.0.changeDescription,
                       isDeleted := r.0.isDeleted, isDisabled := r.0.isDisabled, created := r.0.created,
                       content := r.0.content)
    ensures r.0.rows == tf.rows && r.0.version == tf.version
    ensures r.0.configId == Known(api.key.id) && r.0.branchId == Known(api.key.branchId)
    ensures r.0.componentId == Known(api.key.componentId)
    ensures r.0.name == Known(api.name) && r.0.description == Known(api.description)
    ensures r.0.changeDescription == Known(api.changeDescription)
    ensures r.0.isDeleted == Known(api.isDeleted) && r.0.isDisabled == Known(api.isDisabled)
    ensures r.0.created == Known(api.created)
    ensures r.0.id == Known(GetConfigModelID(r.0))
    ensures !HasError(r.1)
    ensures api.content.None? || c.marshal(api.content.value).Failure? ==> r.0.content == Known(EmptyObjectText)
    ensures api.content.Some? && c.marshal(api.content.value).Success? ==>
      var m := api.content.value;
      r.0.content == Known(if isTest && c.indent(m, ContentIndentPrefix, "\t").Success?
                           then c.indent(m, ContentIndentPrefix, "\t").value
                           else c.marshal(m).value)
    ensures Lawful(c) ==>
      ParseJSON(c, r.0.content)
        == Success(if api.content.Some? && c.marshal(api.content.value).Success? then api.content.value else Empty)
  {
    var base := tf.(
      configId := Known(api.key.id),
      branchId := Known(api.key.branchId),
      componentId := Known(api.key.componentId),
      name := Known(api.name),
      description := Known(api.description),
      changeDescription := Known(api.changeDescription),
      isDeleted := Known(api.isDeleted),
      isDisabled := Known(api.isDisabled),
      created := Known(api.created));
    var withId := base.(id := Known(GetConfigModelID(base)));
    var content := ProcessConfigContent(c, api.content, Known(EmptyObjectText), isTest);
    ConfigIdDependsOnKeyOnly(withId.(content := content.0), base);
    (withId.(content := content.0), content.1)
  }

  /** The hydrated id splits back into the API's key when its ids contain no '/'. */
  lemma HydratedIdRoundTrip(h: ConfigMapper, c: Codec, api: ConfigWithRows, tf: ConfigModel)
    requires '/' !in api.config.key.componentId && '/' !in api.config.key.id
    ensures var m := MapAPIToTerraform(h, c, api, tf).0;
      ParseConfigModelID(m.id.v)
        == Some((api.config.key.branchId, api.config.key.componentId, api.config.key.id))
  {
    ConfigIdRoundTrip(MapAPIToTerraform(h, c, api, tf).0);
  }

  /**
   * Hydrating from a response and translating back gives the response's
   * key and content (when its content serialises).
   */
  lemma HydrateThenMapBack(h: ConfigMapper, c: Codec, api: ConfigWithRows, tf: ConfigModel, state: ConfigModel)
    requires Lawful(c)
    ensures var back := MapTerraformToAPI(c, state, MapAPIToTerraform(h, c, api, tf).0);
      back.Success? ==>
        && back.value.config.key == api.config.key
        && (api.config.content.Some? && c.marshal(api.config.content.value).Success? ==>
              back.value.config.content == api.config.content)
  {
    var m := MapAPIToTerraform(h, c, api, tf).0;
    assert c.unmarshal(m.content.v) == ParseJSON(c, m.content);
  }
}
