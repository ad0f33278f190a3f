/**
 * What the two hand-written configuration resources share: the remote
 * configuration service they call, the calls they make, and the outcome
 * of one of their operations.
 */
module Legacy {
  import opened Wrappers
  import opened Framework
  import opened Codec
  import opened Api
  import Text

  /**
   * The remote configuration service as the resources use it; each entry
   * is the response (or the API's error message) for a request.
   */
  datatype Client = Client(
    defaultBranch: Result<int, string>,
    create: ConfigWithRows -> Result<Config, string>,
    get: ConfigKey -> Result<Config, string>,
    update: (Config, seq<string>) -> Result<Config, string>,
    delete: ConfigKey -> Option<string>)

  /** One request sent to the service. */
  datatype Call =
    | DefaultBranchCall
    | CreateCall(request: ConfigWithRows)
    | GetCall(key: ConfigKey)
    | UpdateCall(config: Config, changeFields: seq<string>)
    | DeleteCall(key: ConfigKey)

  /** What an operation leaves behind: its diagnostics, the state it writes (if any) and the requests it sent. */
  datatype Outcome<M> = Outcome(diags: seq<Diagnostic>, written: Option<M>, calls: seq<Call>)

  const CreateSummary := "Error creating configuration"
  const UpdateSummary := "Error updating configuration"

  /** The change description a create fills in for a null one. */
  const CreatedByDefault := "created by Keboola terraform provider"

  /** The change description an update fills in for an unknown one. */
  const UpdatedByDefault := "update by Keboola terraform provider"

  /** Every field a full update names, in the order the service expects. */
  const AllChangeFields := ["name", "description", "configuration", "changeDescription", "isDisabled"]

  function DefaultBranchError(e: string): Diagnostic
  {
    ErrorDiag(CreateSummary, "Could not get default branch: " + e)
  }

  function CreateFailed(e: string): Diagnostic
  {
    ErrorDiag(CreateSummary, "Could not create configuration: " + e)
  }

  function UpdateFailed(e: string): Diagnostic
  {
    ErrorDiag(UpdateSummary, "Could not update configuration: " + e)
  }

  function DeleteFailed(e: string): Diagnostic
  {
    ErrorDiag("Error Deleting Configuration", "Could not delete configuration: " + e)
  }

  /** `types.Int64.String()`: the decimal value, or `<null>` / `<unknown>`. */
  function Int64Render(x: Value<int>): string
  {
    match x
    case Null => "<null>"
    case Unknown => "<unknown>"
    case Known(i) => Text.IntToDecimal(i)
  }

  /**
   * The configuration a create or update request carries: the plan's
   * name, description, change description, disabled flag and parsed
   * content, with every other field at its zero value.
   */
  function Request(key: ConfigKey, name: Value<string>, description: Value<string>,
                   changeDescription: Value<string>, isDisabled: Value<bool>, content: OrderedMap): (r: Config)
    ensures r.key == key && r.content == Some(content)
    ensures r.name == ValueString(name) && r.description == ValueString(description)
    ensures r.changeDescription == ValueString(changeDescription) && r.isDisabled == ValueBool(isDisabled)
    ensures !r.isDeleted && r.version == 0 && r.created == "" && r.rowsSortOrder == []
  {
    Config(key, ValueString(name), ValueString(description), ValueString(changeDescription),
           false, ValueBool(isDisabled), 0, "", Some(content), [])
  }

  /**
   * The branch a create sends: an unknown plan branch asks the service for
   * the default branch; any other plan branch leaves the key's branch at 0.
   * The calls made are returned with the answer.
   */
  function ResolveBranch(client: Client, branchId: Value<int>): (r: (Result<int, string>, seq<Call>))
    ensures branchId.Unknown? ==> r == (client.defaultBranch, [DefaultBranchCall])
    ensures !branchId.Unknown? ==> r == (Success(0), [])
  {
    if branchId.Unknown? then (client.defaultBranch, [DefaultBranchCall]) else (Success(0), [])
  }

  /** The delete both resources perform: one request for the key, one error if it fails, nothing written. */
  function Delete<M>(client: Client, key: ConfigKey): (o: Outcome<M>)
    ensures o.calls == [DeleteCall(key)] && o.written.None?
    ensures client.delete(key).None? ==> o.diags == []
    ensures client.delete(key).Some? ==> o.diags == [DeleteFailed(client.delete(key).value)] && ErrorCount(o.diags) == 1
  {
    match client.delete(key)
    case None => Outcome([], None, [DeleteCall(key)])
    case Some(e) =>
      assert [DeleteFailed(e)][0].severity == Error;
      Outcome([DeleteFailed(e)], None, [DeleteCall(key)])
  }
}
