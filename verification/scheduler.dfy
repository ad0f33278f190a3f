/**
 * The scheduler resource's mapper (`SchedulerMapper`). The configuration
 * version is not part of this model.
 */
module Scheduler {
  import opened Wrappers
  import opened Framework

  /** The resource's Terraform model, without the configuration version. */
  datatype SchedulerModel = SchedulerModel(id: Value<string>, configId: Value<string>)

  /** `keboola.Schedule`, the two fields the mapper reads and writes; "" is unset. */
  datatype Schedule = Schedule(id: string, configId: string)

  const ConfigIdRequired := ErrorDiag("Invalid Configuration", "ConfigID is required for scheduler")

  /** `MapAPIToTerraform`: a nil schedule leaves the model as it was; otherwise id and config id are copied. */
  function Hydrate(api: Option<Schedule>, tf: SchedulerModel): (r: (SchedulerModel, seq<Diagnostic>))
    ensures r.1 == []
    ensures api.None? ==> r.0 == tf
    ensures api.Some? ==> r.0 == SchedulerModel(Known(api.value.id), Known(api.value.configId))
  {
    match api
    case None => (tf, [])
    case Some(s) => (SchedulerModel(Known(s.id), Known(s.configId)), [])
  }

  /**
   * `MapTerraformToAPI(state, plan)`: the schedule id comes from the state
   * when it is set and non-empty; the config id from the plan when it is
   * not null. It never fails.
   */
  function ToApi(state: SchedulerModel, plan: SchedulerModel): (r: Result<Option<Schedule>, Fault>)
    ensures r.Success? && r.value.Some?
    ensures r.value.value.id == (if !state.id.Null? && ValueString(state.id) != "" then ValueString(state.id) else "")
    ensures r.value.value.configId == (if !plan.configId.Null? then ValueString(plan.configId) else "")
  {
    var id := if !state.id.Null? && ValueString(state.id) != "" then ValueString(state.id) else "";
    var configId := if !plan.configId.Null? then ValueString(plan.configId) else "";
    Success(Some(Schedule(id, configId)))
  }

  /**
   * `ValidateTerraformModel`: nothing in test mode; otherwise exactly one
   * error when the config id is null or renders empty. The model is not
   * changed.
   */
  function Validate(isTest: bool, oldModel: Option<SchedulerModel>, newModel: SchedulerModel)
    : (r: (SchedulerModel, seq<Diagnostic>))
    ensures r.0 == newModel
    ensures isTest ==> r.1 == []
    ensures !isTest ==> (r.1 == [ConfigIdRequired] <==> newModel.configId.Null? || ValueString(newModel.configId) == "")
    ensures !isTest ==> (r.1 == [] <==> !(newModel.configId.Null? || ValueString(newModel.configId) == ""))
  {
    if isTest then (newModel, [])
    else if newModel.configId.Null? || ValueString(newModel.configId) == "" then (newModel, [ConfigIdRequired])
    else (newModel, [])
  }

  /** A schedule id held in state survives the translation and hydration. */
  lemma StateIdThreaded(state: SchedulerModel, plan: SchedulerModel, tf: SchedulerModel)
    requires state.id.Known? && state.id.v != ""
    ensures Hydrate(ToApi(state, plan).value, tf).0.id == state.id
  {
  }

  /** Hydrating the translation of a plan with a known config id gives back that config id. */
  lemma PlanConfigIdThreaded(state: SchedulerModel, plan: SchedulerModel, tf: SchedulerModel)
    requires plan.configId.Known?
    ensures Hydrate(ToApi(state, plan).value, tf).0.configId == plan.configId
  {
  }
}
