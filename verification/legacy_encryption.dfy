/**
 * The older hand-written encryption resource (`EncryptionResource`). It
 * shares the model and request body of the engine-based resource; the
 * trace of its outcomes lists the encryption API calls it makes.
 */
module LegacyEncryption {
  import opened Wrappers
  import opened Framework
  import opened Lifecycle
  import opened Encryption

  function ClientError(e: string): Diagnostic
  {
    ErrorDiag("Client Error", "Unable to encrypt value, got error: " + e)
  }

  const EmptyValueWarning := WarningDiag("Value is empty, won't be encrypted",
    "The value has changed to an empty string, the previous encrypted value will be kept in state.")

  /** Create: encrypt the plan value; store it and the id "none", or report the API error. */
  function Create(encrypt: Encrypt, plan: Model): (o: Outcome<Model>)
    ensures o.trace == [Remote([plan])]
    ensures var answer := encrypt(ValueString(plan.componentId), RequestBody(plan));
      && (answer.Failure? ==> o.written.None? && o.diags == [ClientError(answer.error)] && HasError(o.diags))
      && (answer.Success? ==>
            o.diags == [] && o.written == Some(plan.(encryptedValue := Known(EncryptedOf(answer.value)), id := Known(NoneId))))
  {
    match encrypt(ValueString(plan.componentId), RequestBody(plan))
    case Failure(e) =>
      assert [ClientError(e)][0].severity == Error;
      Outcome([ClientError(e)], None, [Remote([plan])])
    case Success(response) =>
      Outcome([], Some(plan.(encryptedValue := Known(EncryptedOf(response)), id := Known(NoneId))), [Remote([plan])])
  }

  /** Read: the prior state is written back unchanged, with no API call. */
  function Read(state: Model): (o: Outcome<Model>)
    ensures o == Outcome([], Some(state), [])
  {
    Outcome([], Some(state), [])
  }

  /**
   * Update: a non-empty value is re-encrypted and stored; an empty value
   * adds one warning and keeps the state's encrypted value, with no call.
   * The id is the plan's.
   */
  function Update(encrypt: Encrypt, state: Model, plan: Model): (o: Outcome<Model>)
    ensures Calls(o.trace) <= 1
    ensures ValueString(plan.value) == "" ==>
      o == Outcome([EmptyValueWarning], Some(plan.(encryptedValue := state.encryptedValue)), []) && !HasError(o.diags)
    ensures ValueString(plan.value) != "" ==>
      var answer := encrypt(ValueString(plan.componentId), RequestBody(plan));
      && o.trace == [Remote([plan])]
      && (answer.Failure? ==> o.written.None? && o.diags == [ClientError(answer.error)])
      && (answer.Success? ==> o.diags == [] && o.written == Some(plan.(encryptedValue := Known(EncryptedOf(answer.value)))))
  {
    if ValueString(plan.value) != "" then
      match encrypt(ValueString(plan.componentId), RequestBody(plan))
      case Failure(e) => Outcome([ClientError(e)], None, [Remote([plan])])
      case Success(response) =>
        Outcome([], Some(plan.(encryptedValue := Known(EncryptedOf(response)))), [Remote([plan])])
    else
      assert !HasError([EmptyValueWarning]);
      Outcome([EmptyValueWarning], Some(plan.(encryptedValue := state.encryptedValue)), [])
  }

  /** Delete: no API call, no diagnostics, nothing written. */
  function Delete(state: Model): (o: Outcome<Model>)
    ensures o == Outcome([], None, [])
  {
    Outcome([], None, [])
  }

  /**
   * With a known component id and a known stored encrypted value, the two
   * revisions write on the same inputs and store the same encrypted value,
   * on create and on update.
   */
  lemma RevisionsAgreeOnEncryptedValue(encrypt: Encrypt, state: Model, plan: Model)
    requires plan.componentId.Known? && state.encryptedValue.Known?
    ensures Create(encrypt, plan).written.Some? <==> Encryption.Create(encrypt, plan).written.Some?
    ensures Create(encrypt, plan).written.Some? ==>
      Create(encrypt, plan).written.value.encryptedValue == Encryption.Create(encrypt, plan).written.value.encryptedValue
    ensures Update(encrypt, state, plan).written.Some? <==> Encryption.Update(encrypt, state, plan).written.Some?
    ensures Update(encrypt, state, plan).written.Some? ==>
      Update(encrypt, state, plan).written.value.encryptedValue
        == Encryption.Update(encrypt, state, plan).written.value.encryptedValue
  {
    CreatesAgree(encrypt, plan);
    UpdatesAgree(encrypt, state, plan);
  }

  /**
   * Outside those hypotheses the revisions part: without a known component
   * id the legacy create still encrypts (for the component "") and writes,
   * where the engine-based create refuses; with an empty plan value and no
   * stored encrypted value, the legacy update keeps the missing value where
   * the engine-based one stores "".
   */
  lemma RevisionsDisagreeOutsideHypotheses(encrypt: Encrypt, state: Model, plan: Model)
    ensures !plan.componentId.Known? && encrypt("", RequestBody(plan)).Success? ==>
      Create(encrypt, plan).written.Some? && Encryption.Create(encrypt, plan).written.None?
    ensures plan.componentId.Known? && ValueString(plan.value) == "" && !state.encryptedValue.Known? ==>
      && Update(encrypt, state, plan).written.value.encryptedValue == state.encryptedValue
      && Encryption.Update(encrypt, state, plan).written.value.encryptedValue == Known("")
  {
  }

  lemma CreatesAgree(encrypt: Encrypt, plan: Model)
    requires plan.componentId.Known?
    ensures Create(encrypt, plan).written.Some? <==> Encryption.Create(encrypt, plan).written.Some?
    ensures Create(encrypt, plan).written.Some? ==>
      Create(encrypt, plan).written.value.encryptedValue == Encryption.Create(encrypt, plan).written.value.encryptedValue
  {
  }

  lemma UpdatesAgree(encrypt: Encrypt, state: Model, plan: Model)
    requires plan.componentId.Known? && state.encryptedValue.Known?
    ensures Update(encrypt, state, plan).written.Some? <==> Encryption.Update(encrypt, state, plan).written.Some?
    ensures Update(encrypt, state, plan).written.Some? ==>
      Update(encrypt, state, plan).written.value.encryptedValue
        == Encryption.Update(encrypt, state, plan).written.value.encryptedValue
  {
    if ValueString(plan.value) == "" {
      EmptyUpdateKeepsEncryptedValue(encrypt, encrypt, state, plan);
    }
  }
}
