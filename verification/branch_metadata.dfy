/**
 * The branch-metadata resource's mapper: validation, the append-then-list
 * translation that finds the new entry's id, and hydration. The two remote
 * calls are the parameters `append(branch, entries)` and `list(branch)`.
 */
module BranchMetadata {
  import opened Wrappers
  import opened Framework
  import opened Lifecycle

  /** The resource's Terraform model. */
  datatype Model = Model(id: Value<string>, branchId: Value<int>, key: Value<string>, value: Value<string>)

  /** `keboola.MetadataDetail`. */
  datatype MetadataDetail = MetadataDetail(id: string, key: string, value: string)

  /** Appending entries to a branch's metadata: `None` on success, else the API's error. */
  type Append = (int, map<string, string>) -> Option<string>

  /** Listing a branch's metadata. */
  type List = int -> Result<seq<MetadataDetail>, string>

  const ErrNoMetadataID := Fault("failed to find metadata id")

  const KeyRequired := ErrorDiag("Error validating metadata resource", "Key is required")
  const ValueRequired := ErrorDiag("Error validating metadata resource", "Value is required")

  /** `ValidateTerraformModel`: one error for a missing key and one for a missing value; the prior model plays no part. */
  function Validate(oldModel: Option<Model>, newModel: Model): (r: (Model, seq<Diagnostic>))
    ensures r.0 == newModel
    ensures KeyRequired in r.1 <==> !newModel.key.Known?
    ensures ValueRequired in r.1 <==> !newModel.value.Known?
    ensures |r.1| == (if newModel.key.Known? then 0 else 1) + (if newModel.value.Known? then 0 else 1)
    ensures HasError(r.1) <==> !newModel.key.Known? || !newModel.value.Known?
  {
    var diags := (if newModel.key.Known? then [] else [KeyRequired]) + (if newModel.value.Known? then [] else [ValueRequired]);
    assert diags != [] ==> diags[0].severity == Error;
    assert forall i :: 0 <= i < |diags| ==> diags[i].severity == Error;
    (newModel, diags)
  }

  /** The id of the last listed entry with the given key, or "" when there is none. */
  function LastMatchingId(entries: seq<MetadataDetail>, key: string): (id: string)
    ensures (exists i :: 0 <= i < |entries| && entries[i].key == key) ==>
      exists i :: 0 <= i < |entries| && entries[i].key == key && id == entries[i].id
        && forall j :: i < j < |entries| ==> entries[j].key != key
    ensures (forall i :: 0 <= i < |entries| ==> entries[i].key != key) ==> id == ""
  {
    if |entries| == 0 then ""
    else
      var last := entries[|entries| - 1];
      var init := entries[..|entries| - 1];
      assert forall i :: 0 <= i < |init| ==> init[i] == entries[i];
      if last.key == key then last.id else LastMatchingId(init, key)
  }

  /** The scan as the source writes it: forward, each match overwriting the id found so far. */
  method FindMetadataId(entries: seq<MetadataDetail>, key: string) returns (id: string)
    ensures id == LastMatchingId(entries, key)
  {
    id := "";
    var i := 0;
    while i < |entries|
      invariant 0 <= i <= |entries|
      invariant id == LastMatchingId(entries[..i], key)
    {
      assert entries[..i + 1][..i] == entries[..i];
      if entries[i].key == key {
        id := entries[i].id;
      }
      i := i + 1;
    }
    assert entries[..i] == entries;
  }

  /**
   * `MapTerraformToAPI`: append the single entry plan key to plan value,
   * list the branch's metadata, and answer with the id of the last entry
   * with the plan's key; no such entry (or an empty id) is `ErrNoMetadataID`.
   */
  function ToApi(append: Append, list: List, state: Model, plan: Model): (r: Result<MetadataDetail, Fault>)
    ensures var branch := ValueInt64(plan.branchId);
      && (append(branch, map[ValueString(plan.key) := ValueString(plan.value)]).Some? ==>
            r == Failure(Fault("failed to create metadata: " + append(branch, map[ValueString(plan.key) := ValueString(plan.value)]).value)))
      && (append(branch, map[ValueString(plan.key) := ValueString(plan.value)]).None? && list(branch).Failure? ==>
            r == Failure(Fault("failed to list metadata: " + list(branch).error)))
      && (append(branch, map[ValueString(plan.key) := ValueString(plan.value)]).None? && list(branch).Success? ==>
            var id := LastMatchingId(list(branch).value, ValueString(plan.key));
            && (id == "" ==> r == Failure(ErrNoMetadataID))
            && (id != "" ==> r == Success(MetadataDetail(id, ValueString(plan.key), ValueString(plan.value)))))
  {
    var branch := ValueInt64(plan.branchId);
    match append(branch, map[ValueString(plan.key) := ValueString(plan.value)])
    case Some(e) => Failure(Fault("failed to create metadata: " + e))
    case None =>
      match list(branch)
      case Failure(e) => Failure(Fault("failed to list metadata: " + e))
      case Success(entries) =>
        var id := LastMatchingId(entries, ValueString(plan.key));
        if id == "" then Failure(ErrNoMetadataID)
        else Success(MetadataDetail(id, ValueString(plan.key), ValueString(plan.value)))
  }

  /** `MapAPIToTerraform`: copies id, key and value; the branch is left as it was. */
  function Hydrate(api: MetadataDetail, tf: Model): (r: (Model, seq<Diagnostic>))
    ensures r.1 == []
    ensures r.0.id == Known(api.id) && r.0.key == Known(api.key) && r.0.value == Known(api.value)
    ensures r.0.branchId == tf.branchId
  {
    (tf.(id := Known(api.id), key := Known(api.key), value := Known(api.value)), [])
  }

  function MetadataMapper(append: Append, list: List): Mapper<Model, MetadataDetail>
  {
    Mapper(Validate, Hydrate, (s: Model, p: Model) => ToApi(append, list, s, p))
  }

  /**
   * Creating through the engine with a known key and value, a successful
   * append and a successful listing that holds the key: the written state
   * carries the last matching id and the plan's key, value and branch.
   */
  lemma CreateWritesLastMatchingId(append: Append, list: List, plan: Model)
    requires plan.key.Known? && plan.value.Known?
    requires append(ValueInt64(plan.branchId), map[plan.key.v := plan.value.v]).None?
    requires list(ValueInt64(plan.branchId)).Success?
    requires LastMatchingId(list(ValueInt64(plan.branchId)).value, plan.key.v) != ""
    ensures var m := MetadataMapper(append, list);
      ExecuteCreate(m, plan, (p: Model) => m.toApi(Model(Null, Null, Null, Null), p)).written
        == Some(plan.(id := Known(LastMatchingId(list(ValueInt64(plan.branchId)).value, plan.key.v))))
  {
  }

  /** Entries after the last match do not change the chosen id. */
  lemma {:induction false} NonMatchingSuffix(pre: seq<MetadataDetail>, suf: seq<MetadataDetail>, key: string)
    requires forall i :: 0 <= i < |suf| ==> suf[i].key != key
    ensures LastMatchingId(pre + suf, key) == LastMatchingId(pre, key)
  {
    if |suf| > 0 {
      var init := suf[..|suf| - 1];
      assert (pre + suf)[..|pre + suf| - 1] == pre + init;
      NonMatchingSuffix(pre, init, key);
    } else {
      assert pre + suf == pre;
    }
  }

  /** Two entries with the same key, the second followed only by other keys: the second's id is chosen. */
  lemma LaterEntryWins(pre: seq<MetadataDetail>, b: MetadataDetail, rest: seq<MetadataDetail>)
    requires forall i :: 0 <= i < |rest| ==> rest[i].key != b.key
    ensures LastMatchingId(pre + [b] + rest, b.key) == b.id
  {
    NonMatchingSuffix(pre + [b], rest, b.key);
  }
}
