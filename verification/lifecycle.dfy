/**
 * The generic resource lifecycle (`BaseResource`): Create, Read, Update and
 * Delete over an abstract mapper and a remote callback. Each operation is a
 * pure function from the plan/state and the callback to an `Outcome`: the
 * diagnostics, the state written (if any) and the steps taken.
 *
 * Reading the plan or state and writing the state are framework plumbing
 * and are taken to succeed.
 */
module Lifecycle {
  import opened Wrappers
  import opened Framework

  /**
   * `ResourceMapper`, with the two-argument `MapTerraformToAPI(state, plan)`
   * every implementation provides. `validate(prior, plan)` returns the
   * defaulted plan; `hydrate(response, model)` the hydrated model.
   */
  datatype Mapper<!Tf, !Api> = Mapper(
    validate: (Option<Tf>, Tf) -> (Tf, seq<Diagnostic>),
    hydrate: (Api, Tf) -> (Tf, seq<Diagnostic>),
    toApi: (Tf, Tf) -> Result<Api, Fault>)

  /** One step of an operation; `Remote` is a call of the operation's callback with its arguments. */
  datatype Step<Tf> = Validate(prior: Option<Tf>, plan: Tf) | Remote(args: seq<Tf>) | Hydrate

  /** What an operation leaves behind. */
  datatype Outcome<Tf> = Outcome(diags: seq<Diagnostic>, written: Option<Tf>, trace: seq<Step<Tf>>)

  /** The number of remote calls in a trace. */
  function Calls<Tf>(trace: seq<Step<Tf>>): (n: nat)
    ensures n <= |trace|
    ensures n == 0 <==> forall i :: 0 <= i < |trace| ==> !trace[i].Remote?
  {
    if |trace| == 0 then 0
    else
      var rest := Calls(trace[1..]);
      assert forall i :: 1 <= i < |trace| ==> trace[i] == trace[1..][i - 1];
      (if trace[0].Remote? then 1 else 0) + rest
  }

  lemma {:induction false} CallsAppend<Tf>(a: seq<Step<Tf>>, b: seq<Step<Tf>>)
    ensures Calls(a + b) == Calls(a) + Calls(b)
  {
    if |a| > 0 {
      assert (a + b)[1..] == a[1..] + b;
      CallsAppend(a[1..], b);
    } else {
      assert a + b == b;
    }
  }

  /** The properties every operation's outcome has. */
  predicate WellBehaved<Tf>(o: Outcome<Tf>)
  {
    && Calls(o.trace) <= 1
    && (o.written.Some? ==> !HasError(o.diags))
  }

  function CreateError(e: Fault): Diagnostic
  {
    ErrorDiag("Error creating resource", "Could not create resource: " + e.message)
  }

  function ReadError(e: Fault): Diagnostic
  {
    ErrorDiag("Error reading resource", "Could not read resource: " + e.message)
  }

  function UpdateError(e: Fault): Diagnostic
  {
    ErrorDiag("Error updating resource", "Could not update resource: " + e.message)
  }

  function DeleteError(e: Fault): Diagnostic
  {
    ErrorDiag("Error deleting resource", "Could not delete resource: " + e.message)
  }

  /**
   * The tail shared by Create, Read and Update once the callback has
   * answered: an error adds one diagnostic and stops; otherwise the
   * response is hydrated into `model`, which is written unless that adds
   * an error.
   */
  function Finish<Tf, Api>(m: Mapper<Tf, Api>, diags: seq<Diagnostic>, trace: seq<Step<Tf>>,
                           answer: Result<Api, Fault>, onError: Fault -> Diagnostic, model: Tf)
    : (o: Outcome<Tf>)
    requires !HasError(diags)
    requires forall e :: onError(e).severity == Error
    ensures answer.Failure? ==> o == Outcome(diags + [onError(answer.error)], None, trace)
    ensures answer.Failure? ==> ErrorCount(o.diags) == 1
    ensures answer.Success? ==>
      var h := m.hydrate(answer.value, model);
      && o.diags == diags + h.1
      && o.trace == trace + [Hydrate]
      && (o.written.Some? <==> !HasError(h.1))
      && (o.written.Some? ==> o.written.value == h.0)
    ensures o.written.Some? ==> !HasError(o.diags)
    ensures |o.trace| >= |trace| && o.trace[..|trace|] == trace
  {
    match answer
    case Failure(e) =>
      ErrorCountAppend(diags, [onError(e)]);
      assert HasError([onError(e)]) by { assert [onError(e)][0].severity == Error; }
      Outcome(diags + [onError(e)], None, trace)
    case Success(api) =>
      var h := m.hydrate(api, model);
      HasErrorAppend(diags, h.1);
      Outcome(diags + h.1, if HasError(h.1) then None else Some(h.0), trace + [Hydrate])
  }

  /**
   * `ExecuteCreate`: validate the plan with no prior model, stop on an
   * error; call `createFn` once with the validated plan; hydrate and write.
   */
  function ExecuteCreate<Tf, Api>(m: Mapper<Tf, Api>, plan: Tf, createFn: Tf -> Result<Api, Fault>)
    : (o: Outcome<Tf>)
    ensures WellBehaved(o)
    ensures var v := m.validate(None, plan);
      && |o.trace| >= 1 && o.trace[0] == Validate(None, plan)
      && (HasError(v.1) ==> o == Outcome(v.1, None, [Validate(None, plan)]))
      && (!HasError(v.1) ==> |o.trace| >= 2 && o.trace[1] == Remote([v.0]))
      && (!HasError(v.1) && createFn(v.0).Failure? ==>
            o.written.None? && o.diags == v.1 + [CreateError(createFn(v.0).error)])
      && (!HasError(v.1) && createFn(v.0).Success? ==>
            var h := m.hydrate(createFn(v.0).value, v.0);
            o.written == (if HasError(h.1) then None else Some(h.0)))
  {
    var v := m.validate(None, plan);
    var trace := [Validate(None, plan)];
    if HasError(v.1) then Outcome(v.1, None, trace)
    else
      var o := Finish(m, v.1, trace + [Remote([v.0])], createFn(v.0), CreateError, v.0);
      CallsAppend(trace + [Remote([v.0])], [Hydrate]);
      CallsAppend(trace, [Remote([v.0])]);
      o
  }

  /**
   * `ExecuteRead`: no validation; call `readFn` once with the state, hydrate
   * the state and write it. Any callback error is reported.
   */
  function ExecuteRead<Tf, Api>(m: Mapper<Tf, Api>, state: Tf, readFn: Tf -> Result<Api, Fault>)
    : (o: Outcome<Tf>)
    ensures WellBehaved(o)
    ensures Calls(o.trace) == 1 && o.trace[0] == Remote([state])
    ensures forall i :: 0 <= i < |o.trace| ==> !o.trace[i].Validate?
    ensures readFn(state).Failure? ==> o == Outcome([ReadError(readFn(state).error)], None, [Remote([state])])
    ensures readFn(state).Success? ==>
      var h := m.hydrate(readFn(state).value, state);
      o.written == (if HasError(h.1) then None else Some(h.0)) && o.diags == h.1
  {
    var o := Finish(m, [], [Remote([state])], readFn(state), ReadError, state);
    CallsAppend([Remote([state])], [Hydrate]);
    o
  }

  /**
   * `ExecuteUpdate`: validate the plan against the state, stop on an error;
   * call `updateFn` once with the state and the validated plan; hydrate the
   * plan and write it.
   */
  function ExecuteUpdate<Tf, Api>(m: Mapper<Tf, Api>, state: Tf, plan: Tf, updateFn: (Tf, Tf) -> Result<Api, Fault>)
    : (o: Outcome<Tf>)
    ensures WellBehaved(o)
    ensures var v := m.validate(Some(state), plan);
      && |o.trace| >= 1 && o.trace[0] == Validate(Some(state), plan)
      && (HasError(v.1) ==> o == Outcome(v.1, None, [Validate(Some(state), plan)]))
      && (!HasError(v.1) ==> |o.trace| >= 2 && o.trace[1] == Remote([state, v.0]))
      && (!HasError(v.1) && updateFn(state, v.0).Failure? ==>
            o.written.None? && o.diags == v.1 + [UpdateError(updateFn(state, v.0).error)])
      && (!HasError(v.1) && updateFn(state, v.0).Success? ==>
            var h := m.hydrate(updateFn(state, v.0).value, v.0);
            o.written == (if HasError(h.1) then None else Some(h.0)))
  {
    var v := m.validate(Some(state), plan);
    var trace := [Validate(Some(state), plan)];
    if HasError(v.1) then Outcome(v.1, None, trace)
    else
      var o := Finish(m, v.1, trace + [Remote([state, v.0])], updateFn(state, v.0), UpdateError, v.0);
      CallsAppend(trace + [Remote([state, v.0])], [Hydrate]);
      CallsAppend(trace, [Remote([state, v.0])]);
      o
  }

  /** `ExecuteDelete`: call `deleteFn` once; never write state; report any error. */
  function ExecuteDelete<Tf>(state: Tf, deleteFn: Tf -> Option<Fault>): (o: Outcome<Tf>)
    ensures WellBehaved(o)
    ensures o.written.None? && o.trace == [Remote([state])] && Calls(o.trace) == 1
    ensures deleteFn(state).None? ==> o.diags == []
    ensures deleteFn(state).Some? ==> o.diags == [DeleteError(deleteFn(state).value)] && ErrorCount(o.diags) == 1
  {
    match deleteFn(state)
    case None => Outcome([], None, [Remote([state])])
    case Some(e) =>
      assert [DeleteError(e)][0].severity == Error;
      Outcome([DeleteError(e)], None, [Remote([state])])
  }

  /** A validation error always stops an operation before any remote call and any write. */
  lemma NoCallAfterValidationError<Tf, Api>(m: Mapper<Tf, Api>, state: Tf, plan: Tf,
                                            createFn: Tf -> Result<Api, Fault>, updateFn: (Tf, Tf) -> Result<Api, Fault>)
    ensures HasError(m.validate(None, plan).1) ==>
      Calls(ExecuteCreate(m, plan, createFn).trace) == 0 && ExecuteCreate(m, plan, createFn).written.None?
    ensures HasError(m.validate(Some(state), plan).1) ==>
      Calls(ExecuteUpdate(m, state, plan, updateFn).trace) == 0 && ExecuteUpdate(m, state, plan, updateFn).written.None?
  {
  }

  /** When the callback fails, nothing is written and exactly one error is reported (validation adds none). */
  lemma CallbackErrorIsReportedOnce<Tf, Api>(m: Mapper<Tf, Api>, plan: Tf, createFn: Tf -> Result<Api, Fault>)
    requires !HasError(m.validate(None, plan).1)
    requires createFn(m.validate(None, plan).0).Failure?
    ensures ExecuteCreate(m, plan, createFn).written.None?
    ensures ErrorCount(ExecuteCreate(m, plan, createFn).diags) == 1
  {
  }

  /** A nested-resource handler: `ProcessAPIChildModels`. */
  datatype NestedHandler<!P, !C> = NestedHandler(process: (P, seq<C>) -> (P, seq<Diagnostic>))

  /**
   * `HandleNestedResources`: the handler's processing of the children; the
   * parent's API model plays no part. The ensures is the delegation itself;
   * `NestedIgnoresApiParent` states the property.
   */
  function HandleNestedResources<P, A, C>(handler: NestedHandler<P, C>, parent: P, apiParent: A, children: seq<C>)
    : (r: (P, seq<Diagnostic>))
    ensures r == handler.process(parent, children)
  {
    handler.process(parent, children)
  }

  lemma NestedIgnoresApiParent<P, A, C>(handler: NestedHandler<P, C>, parent: P, a: A, b: A, children: seq<C>)
    ensures HandleNestedResources(handler, parent, a, children) == HandleNestedResources(handler, parent, b, children)
  {
  }
}
