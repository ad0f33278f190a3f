/**
 * The configuration row handler (`DefaultConfigRowHandler`): turning plan
 * rows into API rows, choosing the sort order sent with an update, and
 * merging the rows the API returns back into the parent configuration.
 */
module RowHandler {
  import opened Wrappers
  import opened Framework
  import opened Seqs
  import opened Codec
  import opened Api
  import opened ConfigurationModels

  /**
   * How a prior row's id is rendered as a merge key. The API side keys rows
   * by their plain id. `AsWritten` renders the prior side with the
   * framework's `String()` (quoted, or `<null>`/`<unknown>`); `Intended`
   * uses the plain value.
   */
  datatype KeyRender = AsWritten | Intended

  function RowKey(k: KeyRender, id: Value<string>): string
  {
    match k
    case AsWritten => StringRender(id)
    case Intended => ValueString(id)
  }

  /** The handler's configuration: test mode indents payloads; the merge-key rendering. */
  datatype RowHandler = RowHandler(isTest: bool, key: KeyRender)

  /** Indentation prefix used for row payloads in test mode (seven tabs). */
  const RowIndentPrefix := "\t\t\t\t\t\t\t"

  /** The framework's diagnostic for reading an unknown list into a Go slice. */
  const UnknownListDiag := ErrorDiag("Value Conversion Error",
    "Received unknown value, however the target type cannot handle unknown values.")

  // ---------------------------------------------------------------------------
  // Extracting rows

  /** `ExtractChildModels`: a null list gives no rows; an unknown list cannot be read. */
  function ExtractChildModels(parent: ConfigModel): (r: Result<seq<RowModel>, seq<Diagnostic>>)
    ensures parent.rows.Null? ==> r == Success([])
    ensures parent.rows.Known? ==> r == Success(parent.rows.v)
    ensures parent.rows.Unknown? ==> r.Failure? && HasError(r.error)
  {
    match parent.rows
    case Null => Success([])
    case Unknown =>
      assert [UnknownListDiag][0].severity == Error;
      Failure([UnknownListDiag])
    case Known(rows) => Success(rows)
  }

  // ---------------------------------------------------------------------------
  // Plan rows to API rows

  /** Parses a row payload; null and unknown payloads are the empty map. */
  function ParseRowPayload(c: Codec, text: Value<string>, what: string): (r: Result<OrderedMap, Fault>)
    ensures !text.Known? ==> r == Success(Empty)
    ensures text.Known? ==> (r.Success? <==> c.unmarshal(text.v).Success?)
    ensures text.Known? && r.Success? ==> r.value == c.unmarshal(text.v).value
  {
    if !text.Known? then Success(Empty)
    else
      match c.unmarshal(text.v)
      case Failure(e) => Failure(Fault("failed to parse row " + what + ": " + e))
      case Success(m) => Success(m)
  }

  /** A row payload that is known but does not parse. */
  predicate PayloadMalformed(c: Codec, text: Value<string>)
  {
    text.Known? && c.unmarshal(text.v).Failure?
  }

  predicate RowMalformed(c: Codec, row: RowModel)
  {
    PayloadMalformed(c, row.content) || PayloadMalformed(c, row.state)
  }

  /** One plan row as an API row; the id is carried only when it is known. */
  function RowToApi(c: Codec, row: RowModel): (r: Result<ConfigRow, Fault>)
    ensures r.Success? <==> !RowMalformed(c, row)
    ensures r.Success? ==>
      && r.value.name == ValueString(row.name)
      && r.value.description == ValueString(row.description)
      && r.value.changeDescription == ValueString(row.changeDescription)
      && r.value.isDisabled == ValueBool(row.isDisabled)
      && (row.id.Known? ==> r.value.id == row.id.v)
      && (!row.id.Known? ==> r.value.id == "")
      && r.value.content == Some(ParseRowPayload(c, row.content, "content").value)
      && r.value.state == Some(ParseRowPayload(c, row.state, "state").value)
  {
    var content :- ParseRowPayload(c, row.content, "content");
    var state :- ParseRowPayload(c, row.state, "state");
    Success(ConfigRow(
      id := if row.id.Known? then row.id.v else "",
      name := ValueString(row.name),
      description := ValueString(row.description),
      changeDescription := ValueString(row.changeDescription),
      isDisabled := ValueBool(row.isDisabled),
      version := 0,
      content := Some(content),
      state := Some(state)))
  }

  /**
   * `MapChildModelsToAPI`: one API row per plan row, in order, or the
   * error of the first row whose content or state does not parse.
   */
  function MapChildModelsToAPI(c: Codec, rows: seq<RowModel>): (r: Result<seq<ConfigRow>, Fault>)
    ensures r.Success? <==> forall i :: 0 <= i < |rows| ==> !RowMalformed(c, rows[i])
    ensures r.Success? ==> |r.value| == |rows|
    ensures r.Success? ==> forall i :: 0 <= i < |rows| ==> Success(r.value[i]) == RowToApi(c, rows[i])
  {
    if |rows| == 0 then Success([])
    else
      var head :- RowToApi(c, rows[0]);
      var tail :- MapChildModelsToAPI(c, rows[1..]);
      assert forall i :: 1 <= i < |rows| ==> rows[i] == rows[1..][i - 1];
      Success([head] + tail)
  }

  // ---------------------------------------------------------------------------
  // Sort order

  predicate IdIsKnown(row: RowModel)
  {
    row.id.Known?
  }

  function IdText(row: RowModel): string
  {
    ValueString(row.id)
  }

  /** The known row ids, in row order; rows without an id yet are skipped. */
  function KnownIds(rows: seq<RowModel>): (ids: seq<string>)
    ensures ids == Map(Filter(rows, IdIsKnown), IdText)
  {
    if |rows| == 0 then []
    else
      var rest := KnownIds(rows[1..]);
      if rows[0].id.Known? then
        assert Filter(rows, IdIsKnown) == [rows[0]] + Filter(rows[1..], IdIsKnown);
        MapConcat([rows[0]], Filter(rows[1..], IdIsKnown), IdText);
        [rows[0].id.v] + rest
      else
        rest
  }

  /**
   * `GetRowsSortOrder`: no order at all when the plan has fewer rows than
   * the state (rows are being removed); otherwise the plan's known row ids.
   * The source's empty slice in the first case and nil slice when no id is
   * known are both `[]` here.
   */
  function GetRowsSortOrder(rowModels: seq<RowModel>, stateModels: seq<RowModel>): (order: seq<string>)
    ensures |rowModels| < |stateModels| ==> order == []
    ensures |rowModels| >= |stateModels| ==> order == Map(Filter(rowModels, IdIsKnown), IdText)
    ensures |order| <= |rowModels|
  {
    if |rowModels| < |stateModels| then [] else KnownIds(rowModels)
  }

  /** Every sort-order entry is the id of a plan row, and every known plan id is listed. */
  lemma SortOrderMembers(rowModels: seq<RowModel>, stateModels: seq<RowModel>, x: string)
    requires |rowModels| >= |stateModels|
    ensures x in GetRowsSortOrder(rowModels, stateModels)
        <==> exists i :: 0 <= i < |rowModels| && rowModels[i].id == Known(x)
  {
    var known := Filter(rowModels, IdIsKnown);
    var order := GetRowsSortOrder(rowModels, stateModels);
    if x in order {
      var j :| 0 <= j < |order| && order[j] == x;
      assert known[j] in rowModels;
      var i :| 0 <= i < |rowModels| && rowModels[i] == known[j];
      assert rowModels[i].id == Known(x);
    }
    if exists i :: 0 <= i < |rowModels| && rowModels[i].id == Known(x) {
      var i :| 0 <= i < |rowModels| && rowModels[i].id == Known(x);
      assert rowModels[i] in known;
      var j :| 0 <= j < |known| && known[j] == rowModels[i];
      assert order[j] == x;
    }
  }

  /** Adding a new (id-less) row to the plan does not change the sort order. */
  lemma SortOrderSkipsNewRows(rowModels: seq<RowModel>, stateModels: seq<RowModel>, added: RowModel)
    requires |rowModels| >= |stateModels|
    requires !added.id.Known?
    ensures GetRowsSortOrder(rowModels + [added], stateModels) == GetRowsSortOrder(rowModels, stateModels)
  {
    FilterConcat(rowModels, [added], IdIsKnown);
    assert Filter([added], IdIsKnown) == [];
    assert rowModels + [added] == rowModels + [added];
    assert Filter(rowModels + [added], IdIsKnown) == Filter(rowModels, IdIsKnown);
  }

  // ---------------------------------------------------------------------------
  // Merging API rows back

  function RowId(a: ConfigRow): string
  {
    a.id
  }

  /** The ids of the API rows. */
  function IdSet(api: seq<ConfigRow>): set<string>
  {
    set a | a in api :: a.id
  }

  /** No two API rows share an id. */
  predicate DistinctIds(api: seq<ConfigRow>)
  {
    forall i, j :: 0 <= i < j < |api| ==> api[i].id != api[j].id
  }

  /** Every entry of the lookup map is stored under its own id. */
  ghost predicate KeyedById(m: map<string, ConfigRow>)
  {
    forall k :: k in m ==> m[k].id == k
  }

  /** The lookup map built from the API rows: a later row with the same id overwrites (`LastByIdIsLast`). */
  function LastById(api: seq<ConfigRow>): (m: map<string, ConfigRow>)
    ensures m.Keys == IdSet(api)
    ensures forall k :: k in m ==> m[k] in api && m[k].id == k
  {
    if |api| == 0 then map[]
    else
      var init := api[..|api| - 1];
      var last := api[|api| - 1];
      assert api == init + [last];
      LastById(init)[last.id := last]
  }

  /** `x` is an API row and no later API row has its id. */
  ghost predicate IsLastWithId(api: seq<ConfigRow>, x: ConfigRow)
  {
    exists i :: 0 <= i < |api| && api[i] == x && forall j :: i < j < |api| ==> api[j].id != x.id
  }

  /** Each entry of the lookup map is the last API row with its id. */
  lemma {:induction false} LastByIdIsLast(api: seq<ConfigRow>, k: string)
    requires k in LastById(api)
    ensures IsLastWithId(api, LastById(api)[k])
  {
    var init := api[..|api| - 1];
    var last := api[|api| - 1];
    assert api == init + [last];
    assert LastById(api) == LastById(init)[last.id := last];
    if k == last.id {
      assert api[|api| - 1] == LastById(api)[k];
    } else {
      LastByIdIsLast(init, k);
      LastStaysLast(init, last, LastById(init)[k]);
    }
  }

  /** Appending a row with another id keeps the last row with a given id the last. */
  lemma LastStaysLast(init: seq<ConfigRow>, last: ConfigRow, x: ConfigRow)
    requires IsLastWithId(init, x)
    requires last.id != x.id
    ensures IsLastWithId(init + [last], x)
  {
    var api := init + [last];
    var i :| 0 <= i < |init| && init[i] == x && forall j :: i < j < |init| ==> init[j].id != x.id;
    assert api[i] == x;
    forall j | i < j < |api|
      ensures api[j].id != x.id
    {
      if j < |init| {
        assert api[j] == init[j];
      }
    }
  }

  function ToSet(keys: seq<string>): set<string>
  {
    set k | k in keys
  }

  /** Result of the pass over the prior rows: rows found so far, and what is left of the map. */
  datatype Pass = Pass(rows: seq<ConfigRow>, rest: map<string, ConfigRow>)

  /**
   * The pass over the prior rows: each prior key still in the map takes its
   * row and removes it from the map.
   */
  function PriorPass(keys: seq<string>, m: map<string, ConfigRow>): (p: Pass)
    ensures p.rest == m - ToSet(keys)
    ensures forall i :: 0 <= i < |p.rows| ==> p.rows[i] in m.Values
    ensures |p.rows| <= |keys|
  {
    if |keys| == 0 then Pass([], m)
    else if keys[0] in m then
      var tail := PriorPass(keys[1..], m - {keys[0]});
      assert ToSet(keys) == {keys[0]} + ToSet(keys[1..]);
      Pass([m[keys[0]]] + tail.rows, tail.rest)
    else
      var tail := PriorPass(keys[1..], m);
      assert ToSet(keys) == {keys[0]} + ToSet(keys[1..]);
      Pass(tail.rows, tail.rest)
  }

  /** The API rows that match a prior key, in prior order. */
  function MatchedPrior(keys: seq<string>, api: seq<ConfigRow>): seq<ConfigRow>
  {
    PriorPass(keys, LastById(api)).rows
  }

  /** The API rows that match no prior key, in API order. */
  function Unmatched(keys: seq<string>, api: seq<ConfigRow>): seq<ConfigRow>
  {
    Filter(api, (a: ConfigRow) => a.id !in keys)
  }

  /**
   * The merge of `ProcessAPIChildModels`: rows matching a prior key first,
   * in prior order, then every other API row in API order.
   */
  function MergeOrder(keys: seq<string>, api: seq<ConfigRow>): (r: seq<ConfigRow>)
    ensures r == MatchedPrior(keys, api) + Unmatched(keys, api)
    ensures forall i :: 0 <= i < |r| ==> r[i] in api
  {
    var m := LastById(api);
    var p := PriorPass(keys, m);
    FilterCongruent(api, (a: ConfigRow) => a.id in p.rest, (a: ConfigRow) => a.id !in keys);
    p.rows + Filter(api, (a: ConfigRow) => a.id in p.rest)
  }

  /** With distinct prior keys, the matched rows carry exactly the prior keys found in the API rows, in prior order. */
  lemma {:induction false} PriorPassIds(keys: seq<string>, m: map<string, ConfigRow>)
    requires KeyedById(m)
    requires forall i, j :: 0 <= i < j < |keys| ==> keys[i] != keys[j]
    ensures Map(PriorPass(keys, m).rows, RowId) == Filter(keys, (k: string) => k in m)
  {
    if |keys| > 0 {
      var k := keys[0];
      var m' := if k in m then m - {k} else m;
      assert forall i, j :: 0 <= i < j < |keys[1..]| ==> keys[1..][i] != keys[1..][j];
      PriorPassIds(keys[1..], m');
      assert forall x :: x in keys[1..] ==> x != k;
      FilterCongruent(keys[1..], (x: string) => x in m', (x: string) => x in m);
      if k in m {
        MapConcat([m[k]], PriorPass(keys[1..], m').rows, RowId);
      }
    }
  }

  lemma MatchedPriorIds(keys: seq<string>, api: seq<ConfigRow>)
    requires forall i, j :: 0 <= i < j < |keys| ==> keys[i] != keys[j]
    ensures Map(MatchedPrior(keys, api), RowId) == Filter(keys, (k: string) => k in IdSet(api))
  {
    var m := LastById(api);
    PriorPassIds(keys, m);
    FilterCongruent(keys, (k: string) => k in m, (k: string) => k in IdSet(api));
  }

  /** The API rows whose ids are still in the map. */
  function Remaining(api: seq<ConfigRow>, m: map<string, ConfigRow>): seq<ConfigRow>
  {
    Filter(api, (a: ConfigRow) => a.id in m)
  }

  /** With distinct ids, exactly one API row has the id of a map entry taken from them. */
  lemma {:induction false} UniqueWithId(api: seq<ConfigRow>, x: ConfigRow)
    requires DistinctIds(api)
    requires x in api
    ensures Filter(api, (a: ConfigRow) => a.id == x.id) == [x]
  {
    if api[0] == x {
      assert forall a :: a in api[1..] ==> a.id != x.id by {
        forall a | a in api[1..]
          ensures a.id != x.id
        {
          var j :| 0 <= j < |api[1..]| && api[1..][j] == a;
          assert api[j + 1] == a;
        }
      }
      FilterNone(api[1..], (a: ConfigRow) => a.id == x.id);
    } else {
      assert x in api[1..];
      var j :| 0 <= j < |api[1..]| && api[1..][j] == x;
      assert api[j + 1] == x;
      assert api[0].id != x.id;
      assert DistinctIds(api[1..]) by {
        forall i, k | 0 <= i < k < |api[1..]|
          ensures api[1..][i].id != api[1..][k].id
        {
          assert api[1..][i] == api[i + 1] && api[1..][k] == api[k + 1];
        }
      }
      UniqueWithId(api[1..], x);
    }
  }

  /** The prior pass moves rows from the map to its output without loss or duplication. */
  lemma {:induction false} PriorPassPermutation(keys: seq<string>, m: map<string, ConfigRow>, api: seq<ConfigRow>)
    requires DistinctIds(api)
    requires forall k :: k in m ==> m[k] in api && m[k].id == k
    ensures multiset(PriorPass(keys, m).rows) + multiset(Remaining(api, PriorPass(keys, m).rest))
         == multiset(Remaining(api, m))
  {
    if |keys| > 0 {
      var k := keys[0];
      if k in m {
        var m' := m - {k};
        var tail := PriorPass(keys[1..], m');
        assert PriorPass(keys, m) == Pass([m[k]] + tail.rows, tail.rest);
        PriorPassPermutation(keys[1..], m', api);
        RemainingTake(api, m, k);
        assert multiset([m[k]] + tail.rows) == multiset{m[k]} + multiset(tail.rows);
      } else {
        assert PriorPass(keys, m) == PriorPass(keys[1..], m);
        PriorPassPermutation(keys[1..], m, api);
      }
    }
  }

  /** Taking one entry out of the map removes exactly its row from the remaining API rows. */
  lemma RemainingTake(api: seq<ConfigRow>, m: map<string, ConfigRow>, k: string)
    requires DistinctIds(api)
    requires forall k :: k in m ==> m[k] in api && m[k].id == k
    requires k in m
    ensures multiset(Remaining(api, m)) == multiset(Remaining(api, m - {k})) + multiset{m[k]}
  {
    var m' := m - {k};
    UniqueWithId(api, m[k]);
    FilterPartition(api, (a: ConfigRow) => a.id in m, (a: ConfigRow) => a.id in m', (a: ConfigRow) => a.id == m[k].id);
    assert multiset(Filter(api, (a: ConfigRow) => a.id == m[k].id)) == multiset{m[k]};
  }

  /** With distinct API ids, the merge is a permutation of the API rows: none dropped, none duplicated. */
  lemma MergePermutation(keys: seq<string>, api: seq<ConfigRow>)
    requires DistinctIds(api)
    ensures multiset(MergeOrder(keys, api)) == multiset(api)
  {
    var m := LastById(api);
    var p := PriorPass(keys, m);
    PriorPassPermutation(keys, m, api);
    FilterAll(api, (a: ConfigRow) => a.id in m);
    FilterCongruent(api, (a: ConfigRow) => a.id in p.rest, (a: ConfigRow) => a.id !in keys);
  }

  /**
   * Without distinct ids the merge is not a permutation: two API rows with
   * the same id, matched by a prior key, come back as the later one only.
   */
  lemma DuplicateIdKeepsLast(x: ConfigRow, y: ConfigRow)
    requires x.id == y.id && x != y
    ensures MergeOrder([x.id], [x, y]) == [y]
    ensures multiset(MergeOrder([x.id], [x, y])) != multiset([x, y])
  {
    var api := [x, y];
    assert api[..1] == [x];
    assert LastById([x]) == map[x.id := x] by {
      assert [x][..0] == [];
    }
    var m := LastById(api);
    assert m == map[x.id := y];
    var keys := [x.id];
    assert keys[1..] == [];
    assert PriorPass(keys, m) == Pass([y], map[]);
    assert Unmatched(keys, api) == [] by {
      assert keys[0] == x.id;
      FilterNone(api, (a: ConfigRow) => a.id !in keys);
    }
    assert x in multiset([x, y]);
  }

  /**
   * Order stability under pure updates: when the API returns exactly the
   * prior rows (by id), the merged rows are in prior order.
   */
  lemma MergeKeepsPriorOrder(keys: seq<string>, api: seq<ConfigRow>)
    requires forall i, j :: 0 <= i < j < |keys| ==> keys[i] != keys[j]
    requires IdSet(api) == ToSet(keys)
    ensures Map(MergeOrder(keys, api), RowId) == keys
  {
    var matched := MatchedPrior(keys, api);
    var unmatched := Unmatched(keys, api);
    MatchedPriorIds(keys, api);
    assert forall k :: k in keys ==> k in IdSet(api);
    FilterAll(keys, (k: string) => k in IdSet(api));
    assert forall a :: a in api ==> a.id in ToSet(keys);
    FilterNone(api, (a: ConfigRow) => a.id !in keys);
    assert unmatched == [];
    MapConcat(matched, unmatched, RowId);
    assert MergeOrder(keys, api) == matched + unmatched;
  }

  /** Hydrating the merged rows gives, up to order, the hydrated API rows. */
  lemma HydratedMergePermutation<U>(keys: seq<string>, api: seq<ConfigRow>, f: ConfigRow -> U)
    ensures DistinctIds(api) ==> multiset(Map(MergeOrder(keys, api), f)) == multiset(Map(api, f))
  {
    if DistinctIds(api) {
      MergePermutation(keys, api);
      MapMultiset(MergeOrder(keys, api), api, f);
    }
  }

  // ---------------------------------------------------------------------------
  // Hydrating rows

  /**
   * `formatOrderedMapField`: "{}" for a nil map or a failed serialisation;
   * in test mode the indented text, falling back to the compact text.
   */
  function FormatOrderedMapField(c: Codec, data: Option<OrderedMap>, isTest: bool): (s: Value<string>)
    ensures s.Known?
    ensures data.None? || c.marshal(data.value).Failure? ==> s == Known(EmptyObjectText)
    ensures data.Some? && c.marshal(data.value).Success? && !isTest ==> s == Known(c.marshal(data.value).value)
    ensures (data.Some? && c.marshal(data.value).Success? && isTest
             && c.indent(data.value, RowIndentPrefix, "\t").Failure?) ==> s == Known(c.marshal(data.value).value)
    ensures (data.Some? && c.marshal(data.value).Success? && isTest
             && c.indent(data.value, RowIndentPrefix, "\t").Success?) ==> s == Known(c.indent(data.value, RowIndentPrefix, "\t").value)
    ensures Lawful(c) ==>
      ParseJSON(c, s) == Success(if data.Some? && c.marshal(data.value).Success? then data.value else Empty)
  {
    match data
    case None => Known(EmptyObjectText)
    case Some(m) =>
      match c.marshal(m)
      case Failure(_) => Known(EmptyObjectText)
      case Success(compact) =>
        if isTest then
          match c.indent(m, RowIndentPrefix, "\t")
          case Success(indented) => Known(indented)
          case Failure(_) => Known(compact)
        else Known(compact)
  }

  /** `createRowModelFromAPI`: every field known; payloads read back as the API's maps. */
  function RowFromApi(c: Codec, isTest: bool, a: ConfigRow): (r: RowModel)
    ensures r.id == Known(a.id)
    ensures r.name == Known(a.name) && r.description == Known(a.description)
    ensures r.changeDescription == Known(a.changeDescription)
    ensures r.isDisabled == Known(a.isDisabled) && r.version == Known(a.version)
    ensures Lawful(c) && a.content.Some? && c.marshal(a.content.value).Success? ==>
      ParseJSON(c, r.content) == Success(a.content.value)
    ensures Lawful(c) && a.state.Some? && c.marshal(a.state.value).Success? ==>
      ParseJSON(c, r.state) == Success(a.state.value)
  {
    RowModel(
      id := Known(a.id),
      name := Known(a.name),
      description := Known(a.description),
      changeDescription := Known(a.changeDescription),
      isDisabled := Known(a.isDisabled),
      version := Known(a.version),
      state := FormatOrderedMapField(c, a.state, isTest),
      content := FormatOrderedMapField(c, a.content, isTest))
  }

  /** The map a hydrated payload reads back as: the API's map, or the empty one when it was nil or did not serialise. */
  function ReadBack(c: Codec, p: Option<OrderedMap>): OrderedMap
  {
    if p.Some? && c.marshal(p.value).Success? then p.value else Empty
  }

  /**
   * A row hydrated from the API and sent back is the API row again, except
   * that the version is not sent and a nil payload comes back as the empty map.
   */
  lemma RowRoundTrip(c: Codec, isTest: bool, a: ConfigRow)
    requires Lawful(c)
    ensures RowToApi(c, RowFromApi(c, isTest, a))
         == Success(a.(version := 0, content := Some(ReadBack(c, a.content)), state := Some(ReadBack(c, a.state))))
  {
    var row := RowFromApi(c, isTest, a);
    assert ParseJSON(c, row.content) == Success(ReadBack(c, a.content));
    assert ParseJSON(c, row.state) == Success(ReadBack(c, a.state));
  }

  /** The merge keys of the parent's prior rows. */
  function PriorKeys(h: RowHandler, prior: seq<RowModel>): (keys: seq<string>)
    ensures |keys| == |prior|
  {
    Map(prior, (r: RowModel) => RowKey(h.key, r.id))
  }

  /** An API row's id as the framework value a hydrated row carries. */
  function ApiRowId(a: ConfigRow): Value<string>
  {
    Known(a.id)
  }

  function RowModelId(r: RowModel): Value<string>
  {
    r.id
  }

  /** `RowFromApi` with the codec and the test flag fixed, as the merge maps it over rows. */
  function RowHydrator(c: Codec, isTest: bool): ConfigRow -> RowModel
  {
    (a: ConfigRow) => RowFromApi(c, isTest, a)
  }

  /**
   * `ProcessAPIChildModels`: no API rows leave the parent untouched; an
   * unknown row list is an error; otherwise the parent's rows become the
   * merged API rows, a permutation of them when their ids are distinct.
   */
  function ProcessAPIChildModels(h: RowHandler, c: Codec, parent: ConfigModel, apiRows: seq<ConfigRow>)
    : (r: (ConfigModel, seq<Diagnostic>))
    ensures |apiRows| == 0 ==> r == (parent, [])
    ensures r.0 == parent.(rows := r.0.rows)
    ensures |apiRows| > 0 && parent.rows.Unknown? ==> r.0 == parent && HasError(r.1)
    ensures |apiRows| > 0 && !parent.rows.Unknown? ==>
      && r.1 == []
      && r.0.rows.Known?
      && Map(r.0.rows.v, RowModelId) == Map(MergeOrder(PriorKeys(h, ExtractChildModels(parent).value), apiRows), ApiRowId)
    ensures |apiRows| > 0 && !parent.rows.Unknown? && DistinctIds(apiRows) ==>
      multiset(r.0.rows.v) == multiset(Map(apiRows, RowHydrator(c, h.isTest)))
  {
    if |apiRows| == 0 then (parent, [])
    else
      match ExtractChildModels(parent)
      case Failure(diags) => (parent, diags)
      case Success(prior) =>
        var keys := PriorKeys(h, prior);
        var merged := MergeOrder(keys, apiRows);
        var hydrate := RowHydrator(c, h.isTest);
        var rows := Map(merged, hydrate);
        assert Map(rows, RowModelId) == Map(merged, ApiRowId);
        HydratedMergePermutation(keys, apiRows, hydrate);
        (parent.(rows := Known(rows)), [])
  }

  // ---------------------------------------------------------------------------
  // The merge key as written and as intended

  /** The prior row ids as the API keys them. */
  function PriorIds(prior: seq<RowModel>): seq<Value<string>>
  {
    Map(prior, RowModelId)
  }

  /**
   * As written, a prior key is a rendered framework value: quoted, or
   * `<null>`/`<unknown>`. Unless an API id looks like that, no prior row is
   * ever matched and the merged rows are the API rows in API order.
   */
  lemma AsWrittenIgnoresPriorOrder(isTest: bool, prior: seq<RowModel>, api: seq<ConfigRow>)
    requires forall i :: 0 <= i < |api| ==> api[i].id != "<null>" && api[i].id != "<unknown>"
    requires forall i :: 0 <= i < |api| ==> |api[i].id| == 0 || api[i].id[0] != '"'
    ensures MergeOrder(PriorKeys(RowHandler(isTest, AsWritten), prior), api) == api
  {
    var keys := PriorKeys(RowHandler(isTest, AsWritten), prior);
    forall j | 0 <= j < |keys|
      ensures keys[j] !in IdSet(api)
    {
      RenderedShape(prior[j].id);
    }
    assert forall a :: a in api ==> a.id !in keys;
    PriorPassNoMatch(keys, LastById(api));
    FilterAll(api, (a: ConfigRow) => a.id !in keys);
  }

  /** A pass over keys none of which is in the map takes no row. */
  lemma {:induction false} PriorPassNoMatch(keys: seq<string>, m: map<string, ConfigRow>)
    requires forall k :: k in keys ==> k !in m
    ensures PriorPass(keys, m).rows == []
  {
    if |keys| > 0 {
      assert keys[0] in keys;
      assert forall k :: k in keys[1..] ==> k in keys;
      PriorPassNoMatch(keys[1..], m);
    }
  }

  function ExampleRow(id: string): RowModel
  {
    RowModel(Known(id), Known(""), Known(""), Known(""), Known(false), Known(0), Known("{}"), Known("{}"))
  }

  function ApiRow(id: string): ConfigRow
  {
    ConfigRow(id, "", "", "", false, 0, None, None)
  }

  /**
   * Three prior rows a, b, c; the API returns c, a and a new row d. As
   * written, the merged rows come back in API order, not prior order.
   */
  lemma AsWrittenExample(prior: seq<RowModel>, api: seq<ConfigRow>)
    requires prior == [ExampleRow("a"), ExampleRow("b"), ExampleRow("c")]
    requires api == [ApiRow("c"), ApiRow("a"), ApiRow("d")]
    ensures Map(MergeOrder(PriorKeys(RowHandler(false, AsWritten), prior), api), RowId) == ["c", "a", "d"]
  {
    ExampleIdsArePlain(api);
    AsWrittenIgnoresPriorOrder(false, prior, api);
    ExampleIds(api);
  }

  /** The example's API ids neither start with a quote nor read `<null>` or `<unknown>`. */
  lemma ExampleIdsArePlain(api: seq<ConfigRow>)
    requires api == [ApiRow("c"), ApiRow("a"), ApiRow("d")]
    ensures forall i :: 0 <= i < |api| ==> api[i].id != "<null>" && api[i].id != "<unknown>"
    ensures forall i :: 0 <= i < |api| ==> |api[i].id| == 0 || api[i].id[0] != '"'
  {
    forall i | 0 <= i < |api|
      ensures api[i].id != "<null>" && api[i].id != "<unknown>"
      ensures |api[i].id| == 0 || api[i].id[0] != '"'
    {
      assert |api[i].id| == 1;
    }
  }

  lemma ExampleIds(api: seq<ConfigRow>)
    requires api == [ApiRow("c"), ApiRow("a"), ApiRow("d")]
    ensures Map(api, RowId) == ["c", "a", "d"]
  {
    assert api[0].id == "c" && api[1].id == "a" && api[2].id == "d";
  }


  /**
   * Order stability with plain keys: when the API returns exactly the prior
   * rows (distinct, known ids), the parent's rows keep the prior order.
   */
  lemma IntendedMergeKeepsOrder(isTest: bool, c: Codec, parent: ConfigModel, apiRows: seq<ConfigRow>)
    requires parent.rows.Known?
    requires forall i :: 0 <= i < |parent.rows.v| ==> parent.rows.v[i].id.Known?
    requires forall i, j :: 0 <= i < j < |parent.rows.v| ==> parent.rows.v[i].id != parent.rows.v[j].id
    requires IdSet(apiRows) == set i | 0 <= i < |parent.rows.v| :: parent.rows.v[i].id.v
    requires |apiRows| > 0
    ensures Map(ProcessAPIChildModels(RowHandler(isTest, Intended), c, parent, apiRows).0.rows.v, RowModelId)
         == PriorIds(parent.rows.v)
  {
    var h := RowHandler(isTest, Intended);
    var prior := parent.rows.v;
    var keys := PriorKeys(h, prior);
    assert forall i :: 0 <= i < |prior| ==> keys[i] == prior[i].id.v;
    assert forall i, j :: 0 <= i < j < |keys| ==> keys[i] != keys[j];
    assert ToSet(keys) == IdSet(apiRows) by {
      forall k | k in ToSet(keys) ensures k in IdSet(apiRows) {
        var i :| 0 <= i < |keys| && keys[i] == k;
      }
      forall k | k in IdSet(apiRows) ensures k in ToSet(keys) {
        var i :| 0 <= i < |prior| && prior[i].id.v == k;
        assert keys[i] == k;
      }
    }
    MergeKeepsPriorOrder(keys, apiRows);
    var merged := MergeOrder(keys, apiRows);
    var ids := Map(merged, ApiRowId);
    assert Map(merged, RowId) == keys;
    assert forall i :: 0 <= i < |merged| ==> ids[i] == prior[i].id by {
      forall i | 0 <= i < |merged| ensures ids[i] == prior[i].id {
        assert merged[i].id == Map(merged, RowId)[i];
      }
    }
    assert ids == PriorIds(prior);
  }
}
