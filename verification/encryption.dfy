/**
 * The encryption resource: its mapper and the callbacks it hands to the
 * lifecycle engine. The value is encrypted by the remote API, modelled as
 * the function `encrypt(componentId, body)`.
 */
module Encryption {
  import opened Wrappers
  import opened Framework
  import opened Lifecycle

  /** The resource's Terraform model. */
  datatype Model = Model(id: Value<string>, componentId: Value<string>, value: Value<string>, encryptedValue: Value<string>)

  /** `EncryptResponse`, a string map; the engine passes a possibly nil pointer to it. */
  type EncryptResponse = map<string, string>

  /** The remote encryption call: component id and request body to the response or the API's error. */
  type Encrypt = (string, map<string, string>) -> Result<EncryptResponse, string>

  const ValueKey := "#value"
  const NoneId := "none"

  const ErrStateless := Fault("encryption resource is stateless, no API call needed")

  const ComponentRequired := ErrorDiag("Error validating encryption resource", "Component ID is required")

  /** The model passed as the prior state on create: every field null. */
  const EmptyModel := Model(Null, Null, Null, Null)

  /**
   * `MapAPIToTerraform`: a response sets the encrypted value to its "#value"
   * entry (empty when absent); the id is always "none".
   */
  function Hydrate(api: Option<EncryptResponse>, tf: Model): (r: (Model, seq<Diagnostic>))
    ensures r.1 == []
    ensures r.0.id == Known(NoneId)
    ensures api.None? ==> r.0.encryptedValue == tf.encryptedValue
    ensures api.Some? && ValueKey in api.value ==> r.0.encryptedValue == Known(api.value[ValueKey])
    ensures api.Some? && ValueKey !in api.value ==> r.0.encryptedValue == Known("")
    ensures r.0.componentId == tf.componentId && r.0.value == tf.value
  {
    var encrypted :=
      match api
      case None => tf.encryptedValue
      case Some(m) => Known(if ValueKey in m then m[ValueKey] else "");
    (tf.(encryptedValue := encrypted, id := Known(NoneId)), [])
  }

  /** The encrypt request body: the single key "#value" holding the plan value. */
  function RequestBody(plan: Model): (body: map<string, string>)
    ensures body.Keys == {ValueKey}
    ensures body[ValueKey] == ValueString(plan.value)
  {
    map[ValueKey := ValueString(plan.value)]
  }

  /**
   * `MapTerraformToAPI`: encrypt the plan value for the plan's component.
   * The prior state plays no part.
   */
  function ToApi(encrypt: Encrypt, state: Model, plan: Model): (r: Result<Option<EncryptResponse>, Fault>)
    ensures var answer := encrypt(ValueString(plan.componentId), RequestBody(plan));
      && (answer.Success? ==> r == Success(Some(answer.value)))
      && (answer.Failure? ==> r == Failure(Fault("failed to encrypt value: " + answer.error)))
  {
    match encrypt(ValueString(plan.componentId), RequestBody(plan))
    case Success(m) => Success(Some(m))
    case Failure(e) => Failure(Fault("failed to encrypt value: " + e))
  }

  /**
   * `ValidateTerraformModel`: a missing component id is an error; on create
   * an unknown id becomes "none"; nothing else changes.
   */
  function Validate(oldModel: Option<Model>, newModel: Model): (r: (Model, seq<Diagnostic>))
    ensures HasError(r.1) <==> !newModel.componentId.Known?
    ensures r.1 == [] || r.1 == [ComponentRequired]
    ensures oldModel.None? && newModel.id.Unknown? ==> r.0 == newModel.(id := Known(NoneId))
    ensures oldModel.Some? || !newModel.id.Unknown? ==> r.0 == newModel
  {
    var diags := if !newModel.componentId.Known? then [ComponentRequired] else [];
    assert diags != [] ==> diags[0].severity == Error;
    var model := if oldModel.None? && newModel.id.Unknown? then newModel.(id := Known(NoneId)) else newModel;
    (model, diags)
  }

  function EncryptionMapper(encrypt: Encrypt): Mapper<Model, Option<EncryptResponse>>
  {
    Mapper(Validate, Hydrate, (state: Model, plan: Model) => ToApi(encrypt, state, plan))
  }

  /** The Create callback: the mapper's translation with an all-null prior model. */
  function CreateCallback(encrypt: Encrypt, model: Model): (r: Result<Option<EncryptResponse>, Fault>)
    ensures r == ToApi(encrypt, EmptyModel, model)
  {
    (EncryptionMapper(encrypt).toApi)(EmptyModel, model)
  }

  /** The Read callback: no API call, always `ErrStateless`. */
  function ReadCallback(model: Model): (r: Result<Option<EncryptResponse>, Fault>)
    ensures r == Failure(ErrStateless)
  {
    Failure(ErrStateless)
  }

  /**
   * The Update callback: an empty plan value answers with the state's
   * encrypted value without calling the API; otherwise the mapper's
   * translation of (state, plan).
   */
  function UpdateCallback(encrypt: Encrypt, state: Model, plan: Model): (r: Result<Option<EncryptResponse>, Fault>)
    ensures ValueString(plan.value) == "" ==> r == Success(Some(map[ValueKey := ValueString(state.encryptedValue)]))
    ensures ValueString(plan.value) != "" ==> r == ToApi(encrypt, state, plan)
  {
    if ValueString(plan.value) == "" then Success(Some(map[ValueKey := ValueString(state.encryptedValue)]))
    else (EncryptionMapper(encrypt).toApi)(state, plan)
  }

  /** The Delete callback: no API call, always `ErrStateless`. */
  function DeleteCallback(model: Model): (r: Option<Fault>)
    ensures r == Some(ErrStateless)
  {
    Some(ErrStateless)
  }

  /** The "#value" entry of a response; a missing key reads as "". */
  function EncryptedOf(response: EncryptResponse): string
  {
    if ValueKey in response then response[ValueKey] else ""
  }

  /**
   * Create: a plan without a known component id is rejected before any call;
   * otherwise the plan value is encrypted once, and the answer's value is
   * stored with the id "none", or the API's error is reported.
   */
  function Create(encrypt: Encrypt, plan: Model): (o: Outcome<Model>)
    ensures !plan.componentId.Known? ==>
      Calls(o.trace) == 0 && o.written.None? && o.diags == [ComponentRequired]
    ensures plan.componentId.Known? ==>
      var answer := encrypt(plan.componentId.v, RequestBody(plan));
      && (answer.Success? ==>
            o.diags == [] && o.written == Some(plan.(id := Known(NoneId), encryptedValue := Known(EncryptedOf(answer.value)))))
      && (answer.Failure? ==>
            o.written.None? && o.diags == [CreateError(Fault("failed to encrypt value: " + answer.error))])
  {
    ExecuteCreate(EncryptionMapper(encrypt), plan, (m: Model) => CreateCallback(encrypt, m))
  }

  /** Read: one callback, which always fails with `ErrStateless`; nothing is written. */
  function Read(encrypt: Encrypt, state: Model): (o: Outcome<Model>)
    ensures o == Outcome([ReadError(ErrStateless)], None, [Remote([state])])
  {
    ExecuteRead(EncryptionMapper(encrypt), state, ReadCallback)
  }

  /**
   * Update: rejected like Create without a component id; an empty plan value
   * keeps the state's encrypted value without encrypting; otherwise as Create.
   */
  function Update(encrypt: Encrypt, state: Model, plan: Model): (o: Outcome<Model>)
    ensures !plan.componentId.Known? ==>
      Calls(o.trace) == 0 && o.written.None? && o.diags == [ComponentRequired]
    ensures plan.componentId.Known? && ValueString(plan.value) == "" ==>
      o.diags == [] && o.written == Some(plan.(id := Known(NoneId), encryptedValue := Known(ValueString(state.encryptedValue))))
    ensures plan.componentId.Known? && ValueString(plan.value) != "" ==>
      var answer := encrypt(plan.componentId.v, RequestBody(plan));
      && (answer.Success? ==>
            o.diags == [] && o.written == Some(plan.(id := Known(NoneId), encryptedValue := Known(EncryptedOf(answer.value)))))
      && (answer.Failure? ==>
            o.written.None? && o.diags == [UpdateError(Fault("failed to encrypt value: " + answer.error))])
  {
    ExecuteUpdate(EncryptionMapper(encrypt), state, plan, (s: Model, p: Model) => UpdateCallback(encrypt, s, p))
  }

  /** Delete: one callback, which always fails with `ErrStateless`; nothing is written. */
  function Delete(state: Model): (o: Outcome<Model>)
    ensures o == Outcome([DeleteError(ErrStateless)], None, [Remote([state])])
  {
    ExecuteDelete(state, DeleteCallback)
  }

  /**
   * With a known component id and a known stored encrypted value, an update
   * whose plan value is empty keeps the state's encrypted value, sets the id
   * to "none", and does not depend on the encryption API at all.
   */
  lemma EmptyUpdateKeepsEncryptedValue(encrypt: Encrypt, other: Encrypt, state: Model, plan: Model)
    requires plan.componentId.Known?
    requires ValueString(plan.value) == ""
    requires state.encryptedValue.Known?
    ensures Update(encrypt, state, plan).written
         == Some(plan.(encryptedValue := state.encryptedValue, id := Known(NoneId)))
    ensures Update(encrypt, state, plan) == Update(other, state, plan)
  {
    var v := Validate(Some(state), plan);
    assert v == (plan, []);
    var answer := UpdateCallback(encrypt, state, plan);
    assert answer == UpdateCallback(other, state, plan);
    assert ValueKey in answer.value.value;
  }

  /** Create with a valid plan stores the response's encrypted value and the id "none". */
  lemma CreateStoresResponse(encrypt: Encrypt, plan: Model)
    requires plan.componentId.Known?
    requires encrypt(plan.componentId.v, RequestBody(plan)).Success?
    ensures var response := encrypt(plan.componentId.v, RequestBody(plan)).value;
      Create(encrypt, plan).written == Some(plan.(
        id := Known(NoneId),
        encryptedValue := Known(if ValueKey in response then response[ValueKey] else "")))
  {
  }

  /** Create with no component id makes no API call and writes nothing. */
  lemma CreateNeedsComponent(encrypt: Encrypt, plan: Model)
    requires !plan.componentId.Known?
    ensures Calls(Create(encrypt, plan).trace) == 0
    ensures Create(encrypt, plan).written.None?
    ensures Create(encrypt, plan).diags == [ComponentRequired]
  {
  }

  /**
   * As written, the engine reports every callback error: a Read of an
   * encryption resource never writes state and always reports the
   * `ErrStateless` error; so does a Delete.
   */
  lemma ReadAndDeleteAlwaysReportStateless(encrypt: Encrypt, state: Model)
    ensures Read(encrypt, state).written.None?
    ensures Read(encrypt, state).diags == [ReadError(ErrStateless)]
    ensures Delete(state).diags == [DeleteError(ErrStateless)]
  {
  }
}
