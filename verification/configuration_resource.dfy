/**
 * The configuration resource as the lifecycle engine runs it: the
 * configuration mapper plugged into `ExecuteCreate` and `ExecuteUpdate`.
 * The remote callbacks stay parameters.
 */
module ConfigurationResource {
  import opened Wrappers
  import opened Framework
  import opened Codec
  import opened Api
  import opened ConfigurationModels
  import opened ConfigurationMapper
  import opened RowHandler
  import opened Lifecycle

  /** The configuration mapper as the engine sees it. */
  function ConfigurationEngineMapper(h: ConfigMapper, c: Codec): Mapper<ConfigModel, ConfigWithRows>
  {
    Mapper((o: Option<ConfigModel>, n: ConfigModel) => ValidateTerraformModel(c, o, n),
           (a: ConfigWithRows, m: ConfigModel) => MapAPIToTerraform(h, c, a, m),
           (s: ConfigModel, p: ConfigModel) => MapTerraformToAPI(c, s, p))
  }

  /**
   * An update that changes a known component, branch or configuration id
   * makes no remote call, writes nothing and names every field changed.
   */
  lemma ImmutableUpdateStops(h: ConfigMapper, c: Codec, state: ConfigModel, plan: ConfigModel,
                             updateFn: (ConfigModel, ConfigModel) -> Result<ConfigWithRows, Fault>)
    requires Violates(state.componentId, plan.componentId) || Violates(state.branchId, plan.branchId)
          || Violates(state.configId, plan.configId)
    ensures var o := ExecuteUpdate(ConfigurationEngineMapper(h, c), state, plan, updateFn);
      && Calls(o.trace) == 0 && o.written.None?
      && (ImmutableError("component_id") in o.diags <==> Violates(state.componentId, plan.componentId))
      && (ImmutableError("branch_id") in o.diags <==> Violates(state.branchId, plan.branchId))
      && (ImmutableError("configuration_id") in o.diags <==> Violates(state.configId, plan.configId))
  {
    var m := ConfigurationEngineMapper(h, c);
    var v := m.validate(Some(state), plan);
    assert v.1 == ValidationDiags(c, Some(state), plan);
    assert |v.1| > 0;
    assert ErrorCount(v.1) > 0;
  }

  /**
   * Whatever a create writes carries the compound id of its own branch,
   * component and configuration ids, all known: the id is recomputed from
   * the response on hydration and the row merge leaves it alone.
   */
  lemma CreatedStateIdConsistent(h: ConfigMapper, c: Codec, plan: ConfigModel,
                                 createFn: ConfigModel -> Result<ConfigWithRows, Fault>)
    requires ExecuteCreate(ConfigurationEngineMapper(h, c), plan, createFn).written.Some?
    ensures var w := ExecuteCreate(ConfigurationEngineMapper(h, c), plan, createFn).written.value;
      && w.id == Known(GetConfigModelID(w))
      && w.branchId.Known? && w.componentId.Known? && w.configId.Known?
  {
    var m := ConfigurationEngineMapper(h, c);
    var v := m.validate(None, plan);
    var api := createFn(v.0).value;
    var hydrated := MapAPIToTerraform(h, c, api, v.0);
    assert ExecuteCreate(m, plan, createFn).written == Some(hydrated.0);
  }

  /** A create stops before its call exactly when the content is malformed, and then reports that one error alone. */
  lemma CreateStopsOnlyOnContent(h: ConfigMapper, c: Codec, plan: ConfigModel,
                                 createFn: ConfigModel -> Result<ConfigWithRows, Fault>)
    ensures var o := ExecuteCreate(ConfigurationEngineMapper(h, c), plan, createFn);
      && (Calls(o.trace) == 0 <==> PayloadMalformed(c, plan.content))
      && (PayloadMalformed(c, plan.content) ==> o.written.None? && |o.diags| == 1 && HasError(o.diags))
      && (PayloadMalformed(c, plan.content) ==> o.diags == [ContentError(c.unmarshal(plan.content.v).error)])
  {
    var m := ConfigurationEngineMapper(h, c);
    var v := m.validate(None, plan);
    assert v.1 == ValidationDiags(c, None, plan);
    var o := ExecuteCreate(m, plan, createFn);
    if !HasError(v.1) {
      assert o.trace[1].Remote?;
    }
  }
}
