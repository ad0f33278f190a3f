/** The configuration resource's Terraform models and its compound id. */
module ConfigurationModels {
  import opened Wrappers
  import opened Framework
  import Text

  /** One configuration row as held in the plan or state. */
  datatype RowModel = RowModel(
    id: Value<string>,
    name: Value<string>,
    description: Value<string>,
    changeDescription: Value<string>,
    isDisabled: Value<bool>,
    version: Value<int>,
    state: Value<string>,
    content: Value<string>)

  /** A configuration as held in the plan or state; `rows` is a framework list. */
  datatype ConfigModel = ConfigModel(
    id: Value<string>,
    branchId: Value<int>,
    componentId: Value<string>,
    configId: Value<string>,
    name: Value<string>,
    description: Value<string>,
    changeDescription: Value<string>,
    isDeleted: Value<bool>,
    created: Value<string>,
    version: Value<int>,
    isDisabled: Value<bool>,
    content: Value<string>,
    rows: Value<seq<RowModel>>)

  /**
   * The compound id `<branch>/<component>/<configuration>`, the branch in
   * decimal; unset fields render as 0 and "".
   */
  function GetConfigModelID(m: ConfigModel): (id: string)
    ensures var cfg := ValueString(m.configId);
      |id| > |cfg| && id[|id| - |cfg|..] == cfg && id[|id| - |cfg| - 1] == '/'
  {
    var cfg := ValueString(m.configId);
    var id := Text.IntToDecimal(ValueInt64(m.branchId)) + "/" + ValueString(m.componentId) + "/" + cfg;
    assert id[|id| - |cfg|..] == cfg;
    id
  }

  /** The inverse of `GetConfigModelID`: three '/'-separated parts, the first decimal. */
  function ParseConfigModelID(id: string): Option<(int, string, string)>
  {
    var parts := Text.Split(id, '/');
    if |parts| != 3 then None
    else
      match Text.ParseInt(parts[0])
      case None => None
      case Some(b) => Some((b, parts[1], parts[2]))
  }

  /**
   * When neither the component id nor the configuration id contains '/',
   * the compound id splits back into the three fields it was built from.
   */
  lemma ConfigIdRoundTrip(m: ConfigModel)
    requires '/' !in ValueString(m.componentId) && '/' !in ValueString(m.configId)
    ensures ParseConfigModelID(GetConfigModelID(m))
         == Some((ValueInt64(m.branchId), ValueString(m.componentId), ValueString(m.configId)))
  {
    var b := Text.IntToDecimal(ValueInt64(m.branchId));
    var parts := [b, ValueString(m.componentId), ValueString(m.configId)];
    assert '/' !in b;
    assert Text.Join(parts, '/') == GetConfigModelID(m) by {
      assert Text.Join(parts[1..], '/') == parts[1] + ['/'] + parts[2];
    }
    Text.SplitJoin(parts, '/');
    Text.ParseIntToDecimal(ValueInt64(m.branchId));
  }

  /** The id is a function of the branch, component and configuration ids alone. */
  lemma ConfigIdDependsOnKeyOnly(a: ConfigModel, b: ConfigModel)
    requires a.branchId == b.branchId && a.componentId == b.componentId && a.configId == b.configId
    ensures GetConfigModelID(a) == GetConfigModelID(b)
  {
  }

  /** Two '/'-free configurations with the same id agree on the three key fields. */
  lemma ConfigIdInjective(a: ConfigModel, b: ConfigModel)
    requires '/' !in ValueString(a.componentId) && '/' !in ValueString(a.configId)
    requires '/' !in ValueString(b.componentId) && '/' !in ValueString(b.configId)
    requires GetConfigModelID(a) == GetConfigModelID(b)
    ensures ValueInt64(a.branchId) == ValueInt64(b.branchId)
    ensures ValueString(a.componentId) == ValueString(b.componentId)
    ensures ValueString(a.configId) == ValueString(b.configId)
  {
    ConfigIdRoundTrip(a);
    ConfigIdRoundTrip(b);
  }
}
