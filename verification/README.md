# Keboola Terraform provider: configuration core, in Dafny

This project models the core of the Keboola Terraform provider. The provider
manages Keboola Storage API objects: component configurations with their rows,
encrypted values, branch metadata and schedules. The model covers:

- the **configuration resource**: the row reconciler (row translation, the
  sort-order policy and the merge of API rows into the prior rows), the
  mapper's validation and defaulting rules, the plan-to-API translation and
  the hydration with its compound id `branch/component/config`;
- the **lifecycle engine** (`BaseResource`): Create, Read, Update and Delete
  over an abstract mapper and a remote callback. Each one is a pure function
  returning its diagnostics, the state it writes and a trace of its steps;
- the small **per-kind rules**: encryption, branch metadata, the scheduler,
  and the JSON codec helpers;
- the **hand-written resources**:
  - the two component-configuration copies, which share one model
    parameterised by the id formatter;
  - the older `keboola_config` resource;
  - the older encryption resource.

Framework attribute values are `Null | Unknown | Known(v)` with structural
equality. Diagnostics are sequences of `(severity, summary, detail)`. Go
errors are messages.

The ordered-map JSON library is a record of three functions: parse, compact
write and indented write. The one compact writer stands for both the map's
own `MarshalJSON` and `json.Marshal` of the map. The one law the provider relies on is the predicate
`Codec.Lawful`: parsing undoes writing, and key order is kept. This law is
assumed only where a lemma names it as a hypothesis.

Remote calls are parameters: callbacks, `Client` records and `encrypt`,
`append` and `list` functions. Their answers are inputs, never modelled
behaviour.

## Model

| member | source | states |
|---|---|---|
| Framework.ErrorCount | internal/provider/abstraction/resource_abstraction.go:69-76 | the number of error diagnostics; zero exactly when `HasError` is false |
| Framework.ErrorCountAppend | internal/provider/abstraction/resource_abstraction.go:69-76 | error counts add up over appended diagnostics |
| Framework.HasErrorAppend | internal/provider/abstraction/resource_abstraction.go:79-83 | appended diagnostics have an error iff either part has one |
| Codec.ParseJSON | internal/provider/common/json_utils.go:11-23 | null or unknown text is the empty map with no error; unparsable text is the wrapped library error and no map; otherwise the parsed map |
| Codec.SerializeJSON | internal/provider/common/json_utils.go:26-37 | nil is `"{}"` with no error; a write failure is a null value with an error; otherwise known text |
| Codec.SerializeParseRoundTrip | internal/provider/common/json_utils.go:16-36 | under the codec law, parsing what was serialised without error gives back the map (nil gives back the empty map) |
| Codec.SerializeEmptyIsNil | internal/provider/common/json_utils.go:27-36 | under the codec law, the empty map and nil serialise alike |
| Text.NatToDecimal | internal/provider/resources/configuration/models.go:40-41 | the decimal rendering is a non-empty digit string |
| Text.IntToDecimal | internal/provider/resources/configuration/models.go:40-41 | `%d` of an integer: digits with an optional minus sign |
| Text.ParseNatToDecimal | internal/provider/resources/configuration/models.go:40-41 | reading a rendered natural number gives it back |
| Text.ParseIntToDecimal | internal/provider/resources/configuration/models.go:40-41 | reading a rendered integer gives it back, so the rendering is injective |
| ConfigurationModels.GetConfigModelID | internal/provider/resources/configuration/models.go:39-45 | the configuration id appears verbatim as the last segment, after a '/' |
| ConfigurationModels.ConfigIdRoundTrip | internal/provider/resources/configuration/models.go:40-44 | with no '/' in the component and configuration ids, splitting the compound id recovers the branch, component and configuration |
| ConfigurationModels.ConfigIdDependsOnKeyOnly | internal/provider/resources/configuration/models.go:39-45 | only the branch, component and configuration ids affect the compound id |
| ConfigurationModels.ConfigIdInjective | internal/provider/resources/configuration/models.go:39-45 | two '/'-free models with the same compound id agree on all three key fields |
| RowHandler.ExtractChildModels | internal/provider/resources/configuration/row_handler.go:22-35 | a null row list gives no rows; a known list gives its rows; an unknown list is an error |
| RowHandler.ParseRowPayload | internal/provider/resources/configuration/row_handler.go:47-62 | a null or unknown payload is the empty map; unparsable text is a wrapped error |
| RowHandler.RowToApi | internal/provider/resources/configuration/row_handler.go:43-80 | succeeds iff content and state parse; copies name, description, change description and disabled flag; carries the id iff it is known, else "" |
| RowHandler.MapChildModelsToAPI | internal/provider/resources/configuration/row_handler.go:39-82 | succeeds iff every row is well-formed, then gives one API row per row in order; otherwise fails with no partial result |
| RowHandler.KnownIds | internal/provider/resources/configuration/row_handler.go:210-217 | the known row ids in row order: the id-filter of the rows, mapped to their text |
| RowHandler.GetRowsSortOrder | internal/provider/resources/configuration/row_handler.go:204-217 | empty when the plan has fewer rows than the state; otherwise the known plan ids in plan order, never longer than the plan |
| RowHandler.SortOrderMembers | internal/provider/resources/configuration/row_handler.go:210-217 | with at least as many plan rows as state rows, a string is in the order iff it is the id of a known-id plan row |
| RowHandler.SortOrderSkipsNewRows | internal/provider/resources/configuration/row_handler.go:212-214 | appending a row without a known id leaves the sort order unchanged |
| RowHandler.LastById | internal/provider/resources/configuration/row_handler.go:98-101 | its keys are the API ids; each entry is an API row with that id |
| RowHandler.LastByIdIsLast | internal/provider/resources/configuration/row_handler.go:98-101 | a later row with the same id overwrites: each entry is an API row after which no API row has its id |
| RowHandler.PriorPass | internal/provider/resources/configuration/row_handler.go:113-125 | each prior key found takes its row, which leaves the map; what remains is the map minus the prior keys |
| RowHandler.MergeOrder | internal/provider/resources/configuration/row_handler.go:98-135 | the rows that match a prior key, in prior order, followed by the unmatched API rows in API order; every row comes from the API |
| RowHandler.PriorPassIds | internal/provider/resources/configuration/row_handler.go:113-125 | with distinct keys, the matched rows carry exactly the prior keys present in the map, in prior order |
| RowHandler.MatchedPriorIds | internal/provider/resources/configuration/row_handler.go:113-125 | the matched rows' ids are the prior keys present among the API ids, in prior order |
| RowHandler.UniqueWithId | internal/provider/resources/configuration/row_handler.go:98-104 | with distinct ids, exactly one API row has a given entry's id |
| RowHandler.PriorPassPermutation | internal/provider/resources/configuration/row_handler.go:113-135 | the prior pass moves rows from the map to its output with no loss and no duplication |
| RowHandler.MergePermutation | internal/provider/resources/configuration/row_handler.go:98-135 | with distinct API ids, the merged rows are a permutation of the API rows |
| RowHandler.MergeKeepsPriorOrder | internal/provider/resources/configuration/row_handler.go:113-125 | when the API returns exactly the prior rows by id, the merge is in prior order |
| RowHandler.HydratedMergePermutation | internal/provider/resources/configuration/row_handler.go:127-151 | when the API row ids are distinct, hydrating the merged rows gives, up to order, the hydrated API rows |
| RowHandler.DuplicateIdKeepsLast | internal/provider/resources/configuration/row_handler.go:99-135 | with two different API rows sharing an id that a prior key matches, the merge returns only the later one, so it is not a permutation |
| RowHandler.FormatOrderedMapField | internal/provider/resources/configuration/row_handler.go:177-201 | `"{}"` for nil or a failed write; in test mode the indented text, or the compact text when indenting fails; under the codec law the text reads back as the map |
| RowHandler.RowFromApi | internal/provider/resources/configuration/row_handler.go:159-173 | every field is known and copied from the API row; under the codec law the payloads read back as the API maps |
| RowHandler.RowRoundTrip | internal/provider/resources/configuration/row_handler.go:159-201 | under the codec law, a row hydrated from the API and mapped back is that API row, with version 0 and a nil or unserialisable payload as the empty map |
| RowHandler.PriorKeys | internal/provider/resources/configuration/row_handler.go:116 | one merge key per prior row, rendered by the chosen key rendering |
| RowHandler.ProcessAPIChildModels | internal/provider/resources/configuration/row_handler.go:86-155 | no API rows leaves the parent as it was; unknown rows are an error and change nothing; otherwise only the rows change, their ids follow the merge, and with distinct ids they are a permutation of the hydrated API rows |
| Framework.RenderedShape | internal/provider/resources/configuration/row_handler.go:116 | a rendered framework string is `<null>`, `<unknown>` or starts with a quote, and starts with a quote exactly when the value is known |
| Framework.QuoteChar | internal/provider/resources/configuration/row_handler.go:116 | one character as `%q` writes it: never a bare quote; anything but a backslash is either kept or starts an escape |
| Framework.Quote | internal/provider/resources/configuration/row_handler.go:116 | the quoted body is at least as long as the value and every quote in it is escaped |
| Framework.QuoteRoundTrip | internal/provider/resources/configuration/row_handler.go:116 | unquoting the `%q` body gives the value back |
| Framework.StringRenderInjective | internal/provider/resources/configuration/row_handler.go:116 | two framework strings with the same rendered key are equal, so the rendering loses nothing |
| RowHandler.AsWrittenIgnoresPriorOrder | internal/provider/resources/configuration/row_handler.go:98-135 | as written, unless an API id looks like a rendered value, no prior row matches and the merged rows are the API rows in API order |
| RowHandler.PriorPassNoMatch | internal/provider/resources/configuration/row_handler.go:113-125 | a pass over keys none of which is in the map takes nothing and leaves the map whole |
| RowHandler.AsWrittenExample | internal/provider/resources/configuration/row_handler.go:98-135 | as written, prior rows a, b, c and API rows c, a, d come back as c, a, d |
| RowHandler.IntendedMergeKeepsOrder | internal/provider/resources/configuration/row_handler.go:98-135 | with plain keys, when the API returns exactly the prior rows (known, distinct ids), the parent's rows keep the prior order |
| ConfigurationMapper.ImmutabilityDiags | internal/provider/resources/configuration/mapper.go:129-150 | one error for each of component_id, branch_id and configuration_id that the plan sets (not unknown) to a different value; the checks accumulate |
| ConfigurationMapper.SetDefaultRowChangeDescriptions | internal/provider/resources/configuration/mapper.go:306-315 | every row's change description becomes the create or update default, even one the user set; nothing else changes |
| ConfigurationMapper.SetDefaultsIdempotent | internal/provider/resources/configuration/mapper.go:306-315 | applying the row defaults twice is the same as once |
| ConfigurationMapper.ProcessUnknownRows | internal/provider/resources/configuration/mapper.go:275-303 | create gives an empty list; update reuses the state's rows, filling each unknown change description with the create default |
| ConfigurationMapper.ValidationDiags | internal/provider/resources/configuration/mapper.go:129-162 | all errors: on update, the immutability errors first, one per changed immutable field; then, last, the parse error of known content that does not parse; on create, an error iff the content is malformed |
| ConfigurationMapper.ValidateTerraformModel | internal/provider/resources/configuration/mapper.go:121-191 | unknown change description becomes the create or update default; unknown content becomes `"{}"`; unknown rows follow the unknown-rows rule; known rows get the row default; nothing else changes |
| ConfigurationMapper.AllErrors | internal/provider/resources/configuration/mapper.go:129-162 | a list of error diagnostics has as many errors as entries |
| ConfigurationMapper.CreateNeverImmutable | internal/provider/resources/configuration/mapper.go:129 | validation with no prior model never raises an immutability error |
| ConfigurationMapper.ValidateIdempotent | internal/provider/resources/configuration/mapper.go:121-191 | under the codec law, validating an already-validated plan changes nothing (except an update whose unknown rows were just taken from the state) |
| ConfigurationMapper.ValidatedContentParses | internal/provider/resources/configuration/mapper.go:153-175 | after a validation with no error, the translation's content parse cannot fail |
| ConfigurationMapper.ProcessRows | internal/provider/resources/configuration/mapper.go:194-225 | null plan rows give no rows and no order; unknown plan or state rows are the matching sentinel errors; a row failure is wrapped; otherwise the mapped rows and `GetRowsSortOrder` |
| ConfigurationMapper.MapTerraformToAPI | internal/provider/resources/configuration/mapper.go:67-118 | malformed content is `ErrParseConfigContent` wrapping the library error; otherwise it succeeds iff the rows do; the key and fields come from the plan, content is the parsed map (empty when null or unknown), with the rows and their sort order |
| ConfigurationMapper.ProcessConfigContent | internal/provider/resources/configuration/mapper.go:228-272 | nil content keeps the target; a write failure only warns; under the codec law the text reads back as the content |
| ConfigurationMapper.MapAPIToTerraform | internal/provider/resources/configuration/mapper.go:32-64 | copies the API fields; id is the compound id of the hydrated fields; content is the configuration half's text, which parses back to the remote map (the empty map when there is none); rows change only when the API returned some, and then carry the API ids in merge order and, for distinct ids, are a permutation of the hydrated API rows; an error arises only from an unknown prior row list; the version is untouched |
| ConfigurationMapper.MappedContent | internal/provider/resources/configuration/mapper.go:52-54 | the mapped content is `"{}"` when remote content is nil or cannot be serialised, else the compact text, or in test mode the indented text when indenting succeeds |
| ConfigurationMapper.HydrateConfig | internal/provider/resources/configuration/mapper.go:36-56 | the configuration half of the mapping: API fields copied, compound id recomputed, content as above, rows and version and nothing else left as they were, no error |
| ConfigurationMapper.HydratedIdRoundTrip | internal/provider/resources/configuration/mapper.go:40-51 | with '/'-free ids, the hydrated compound id splits back into the API key |
| ConfigurationMapper.HydrateThenMapBack | internal/provider/resources/configuration/mapper.go:32-118 | under the codec law, when translating the hydrated model back succeeds, it gives the response's key, and its content when that serialises |
| Lifecycle.Calls | internal/provider/abstraction/resource_abstraction.go:45-212 | the number of remote steps in a trace; zero iff there are none |
| Lifecycle.CallsAppend | internal/provider/abstraction/resource_abstraction.go:45-212 | remote steps add up over appended traces |
| Lifecycle.Finish | internal/provider/abstraction/resource_abstraction.go:69-87 | a callback error adds exactly one error and writes nothing; otherwise the hydrated model is written unless hydration adds an error |
| Lifecycle.ExecuteCreate | internal/provider/abstraction/resource_abstraction.go:45-91 | validates with no prior model; an error stops before the callback; the callback gets the validated plan once; its error adds one create error; otherwise the hydrated plan is written unless hydration errs |
| Lifecycle.ExecuteRead | internal/provider/abstraction/resource_abstraction.go:93-132 | no validation; one callback call with the state; any callback error is one read error and no write; otherwise the hydrated state is written unless hydration errs |
| Lifecycle.ExecuteUpdate | internal/provider/abstraction/resource_abstraction.go:134-186 | validates (state, plan); an error stops before the callback; the callback gets the unmodified state and the validated plan; the rest as for create |
| Lifecycle.ExecuteDelete | internal/provider/abstraction/resource_abstraction.go:188-215 | one callback call; never writes state; a callback error is exactly one error diagnostic |
| Lifecycle.NoCallAfterValidationError | internal/provider/abstraction/resource_abstraction.go:62-66 | a validation error means no remote call and no write, on create and likewise on update (lines 157-164) |
| Lifecycle.CallbackErrorIsReportedOnce | internal/provider/abstraction/resource_abstraction.go:69-76 | a failing create callback after a clean validation writes nothing and reports exactly one error |
| Lifecycle.HandleNestedResources | internal/provider/abstraction/resource_abstraction.go:218-226 | the handler's processing of the children, delegated as is |
| Lifecycle.NestedIgnoresApiParent | internal/provider/abstraction/resource_abstraction.go:218-226 | the parent's API model plays no part in nested handling |
| ConfigurationResource.ImmutableUpdateStops | internal/provider/resources/configuration/mapper.go:129-150 | run by the engine, an update that changes an immutable field makes no remote call, writes nothing, and names exactly the changed fields |
| ConfigurationResource.CreatedStateIdConsistent | internal/provider/resources/configuration/mapper.go:40-51 | run by the engine, the state a create writes has known key fields and carries their compound id |
| ConfigurationResource.CreateStopsOnlyOnContent | internal/provider/resources/configuration/mapper.go:152-162 | run by the engine, a create makes no call exactly when the content is malformed, and then reports only the content's parse error |
| Encryption.Hydrate | internal/provider/resources/encryption/mapper.go:22-37 | a nil response keeps the encrypted value; otherwise the `"#value"` entry, or "" when absent; id always `"none"` |
| Encryption.RequestBody | internal/provider/resources/encryption/mapper.go:47-49 | exactly one key, `"#value"`, holding the plan value |
| Encryption.ToApi | internal/provider/resources/encryption/mapper.go:42-65 | the encryption answer for the plan's component and body, or the wrapped API error |
| Encryption.Validate | internal/provider/resources/encryption/mapper.go:68-89 | an error iff component_id is null or unknown; an unknown id becomes `"none"` only on create |
| Encryption.CreateCallback | internal/provider/resources/encryption/resource.go:121-128 | the translation with an all-null prior model |
| Encryption.ReadCallback | internal/provider/resources/encryption/resource.go:137-141 | no API call, always the stateless error |
| Encryption.UpdateCallback | internal/provider/resources/encryption/resource.go:151-164 | an empty plan value answers `{"#value": state's encrypted value}` with no call; otherwise the mapper with (state, plan) |
| Encryption.DeleteCallback | internal/provider/resources/encryption/resource.go:173-176 | no API call, always the stateless error |
| Encryption.Create | internal/provider/resources/encryption/resource.go:115-130 | without a known component id: no call, nothing written, the one validation error; otherwise one encryption of the plan value, storing the answer's `"#value"` (or "") with id `"none"`, or no write and the one create error wrapping the API's error |
| Encryption.Read | internal/provider/resources/encryption/resource.go:133-142 | one callback that fails with the stateless error: that error is reported and nothing is written |
| Encryption.Update | internal/provider/resources/encryption/resource.go:145-166 | rejected as Create is without a component id; an empty plan value writes the state's encrypted value with id `"none"` and no diagnostics; otherwise as Create, with the update error on failure |
| Encryption.Delete | internal/provider/resources/encryption/resource.go:169-177 | one callback that fails with the stateless error: that error is reported and nothing is written |
| Encryption.EmptyUpdateKeepsEncryptedValue | internal/provider/resources/encryption/resource.go:151-161 | with a known component id and a known stored encrypted value, an update with an empty value writes the state's encrypted value and id `"none"`, and does not depend on the encryption API |
| Encryption.CreateStoresResponse | internal/provider/resources/encryption/mapper.go:30-36 | a successful create writes the response's `"#value"` and id `"none"` |
| Encryption.CreateNeedsComponent | internal/provider/resources/encryption/mapper.go:76-81 | without a component id, create makes no call, writes nothing and reports the one error |
| Encryption.ReadAndDeleteAlwaysReportStateless | internal/provider/resources/encryption/resource.go:133-176 | the engine reports the stateless sentinel like any error: read never writes, and read and delete each report one error |
| LegacyEncryption.Create | internal/provider/encryption_resource.go:85-114 | one encryption call; failure is one "Client Error" and no write; success stores the `"#value"` response and id `"none"` |
| LegacyEncryption.Read | internal/provider/encryption_resource.go:116-125 | re-persists the prior state unchanged with no call |
| LegacyEncryption.Update | internal/provider/encryption_resource.go:127-163 | a non-empty value is re-encrypted and stored (one error and no write on failure); an empty value adds exactly one warning and keeps the state's encrypted value, with no call |
| LegacyEncryption.Delete | internal/provider/encryption_resource.go:165-175 | no call, no diagnostics, nothing written |
| LegacyEncryption.RevisionsAgreeOnEncryptedValue | internal/provider/encryption_resource.go:99-159 | with a known component id and a known stored encrypted value, the legacy and engine-based resources write on the same inputs and store the same encrypted value |
| LegacyEncryption.RevisionsDisagreeOutsideHypotheses | internal/provider/encryption_resource.go:85-163 | without a known component id the legacy create writes (when encrypting for "" succeeds) and the engine-based one does not; with an empty value and no stored encrypted value the legacy update keeps the missing value and the engine-based one stores "" |
| BranchMetadata.Validate | internal/provider/resources/branch/metadata/mapper.go:83-106 | one error for a missing key and one for a missing value, both possible; the prior model plays no part |
| BranchMetadata.LastMatchingId | internal/provider/resources/branch/metadata/mapper.go:64-69 | the id of the last entry with the key; "" when no entry has it |
| BranchMetadata.FindMetadataId | internal/provider/resources/branch/metadata/mapper.go:64-69 | the forward scan, each match overwriting the last, finds the last matching id |
| BranchMetadata.ToApi | internal/provider/resources/branch/metadata/mapper.go:38-80 | appends the single entry plan key to plan value; append and list errors are wrapped; no match is `ErrNoMetadataID`; otherwise the last matching id with the plan's key and value |
| BranchMetadata.Hydrate | internal/provider/resources/branch/metadata/mapper.go:22-35 | copies id, key and value; leaves the branch unchanged |
| BranchMetadata.CreateWritesLastMatchingId | internal/provider/resources/branch/metadata/mapper.go:38-80 | run by the engine, a create whose plan has a known key and value, whose append and listing succeed and whose listing holds the key writes the plan with the last matching id |
| BranchMetadata.NonMatchingSuffix | internal/provider/resources/branch/metadata/mapper.go:64-69 | entries after the last match do not change the chosen id |
| BranchMetadata.LaterEntryWins | internal/provider/resources/branch/metadata/mapper.go:64-69 | of two entries with the key, the later one's id is chosen |
| Scheduler.Hydrate | internal/provider/resources/scheduler/mapper.go:17-30 | a nil schedule leaves the model unchanged; otherwise copies the id and config id |
| Scheduler.ToApi | internal/provider/resources/scheduler/mapper.go:41-59 | the id comes from the state only when not null and not empty; the config id from the plan when not null; never fails |
| Scheduler.Validate | internal/provider/resources/scheduler/mapper.go:62-82 | nothing in test mode; otherwise exactly one error iff config_id is null or empty |
| Scheduler.StateIdThreaded | internal/provider/resources/scheduler/mapper.go:49-51 | a non-empty state id survives translation and hydration |
| Scheduler.PlanConfigIdThreaded | internal/provider/resources/scheduler/mapper.go:54-58 | a known plan config id survives translation and hydration |
| Legacy.ResolveBranch | internal/provider/component_configuration_resource.go:159-169 | an unknown plan branch asks for the default branch; any other leaves the key's branch at 0 with no call |
| Legacy.Request | internal/provider/component_configuration_resource.go:170-180 | the request carries the key, the plan's name, description, change description and disabled flag at their zero defaults when unset, and the parsed content; deletion, version, time and rows are zero |
| Legacy.Delete | internal/provider/component_configuration_resource.go:377-400 | one delete request for the key; never writes; a failure is exactly one error |
| LegacyComponentConfig.InternalId | internal/provider/component_configuration_resource.go:52-54 | the internal copy's id is exactly the engine-based resource's compound id of the same fields |
| LegacyComponentConfig.KeboolaId | keboola/component_configuration_resource.go:51-53 | the other copy's id splits at '/' into the rendered branch, the rendered component and the rendered compound id, when none of them holds a '/' |
| LegacyComponentConfig.InternalIdIsCompoundId | internal/provider/component_configuration_resource.go:52-54 | the internal copy's id is the engine-based resource's compound id, and it splits back into its fields when '/'-free |
| LegacyComponentConfig.KeboolaIdIgnoresConfigId | keboola/component_configuration_resource.go:51-53 | as written, the other copy's id does not depend on configuration_id |
| LegacyComponentConfig.KeboolaIdDriftsOnRefresh | keboola/component_configuration_resource.go:51-53 | as written, storing the formatted id and formatting again gives a different id, whenever rendering a known string lengthens it |
| LegacyComponentConfig.InternalIdStable | internal/provider/component_configuration_resource.go:52-54 | the internal id is unchanged by storing it, and '/'-free configurations with different configuration ids get different ids |
| LegacyComponentConfig.ContentText | internal/provider/component_configuration_resource.go:137-141 | unknown content is parsed as `"{}"`, known content as itself, null content as "" |
| LegacyComponentConfig.CreateDefaults | internal/provider/component_configuration_resource.go:137-152 | unknown content becomes `"{}"`; a null change description becomes "created by Keboola terraform provider"; nothing else changes |
| LegacyComponentConfig.CreateRequest | internal/provider/component_configuration_resource.go:153-180 | the configuration id is sent only when not null; the component from the plan; no rows |
| LegacyComponentConfig.Created | internal/provider/component_configuration_resource.go:189-197 | the response's configuration id, branch and deletion flag, then the id formatted from them, then its version, time, change description, description and disabled flag |
| LegacyComponentConfig.Create | internal/provider/component_configuration_resource.go:128-206 | unparsable content is one error and no request; otherwise defaults, branch resolution, one create request and the response written; at most one diagnostic, and a write iff none |
| LegacyComponentConfig.CreatedIdMatchesFields | internal/provider/component_configuration_resource.go:189-192 | with the internal formatter, the written id is the compound id of the written branch, component and configuration |
| LegacyComponentConfig.CreateRequestDefaults | internal/provider/component_configuration_resource.go:137-169 | under the codec law, unknown content is sent as the empty map, a null change description as the default, and the configuration id only when not null; a branch that is not unknown is sent as 0 with no default-branch call |
| LegacyComponentConfig.StateKey | internal/provider/component_configuration_resource.go:219-223 | the key is the state's branch, component and configuration id |
| LegacyComponentConfig.Refreshed | internal/provider/component_configuration_resource.go:235-242 | the remote name, description, change description, flags, time and version; key fields and content kept; id re-formatted |
| LegacyComponentConfig.Read | internal/provider/component_configuration_resource.go:209-279 | one get for the state's key; with everything parsed, exactly one warning and the remote text as content iff the remote map differs from the state's, otherwise the content is untouched |
| LegacyComponentConfig.ReadSettles | internal/provider/component_configuration_resource.go:244-271 | under the codec law, reading again against the same remote gives no warning and writes the same state |
| LegacyComponentConfig.FirstViolation | internal/provider/component_configuration_resource.go:296-318 | the first immutable field the plan changes, in the order component, branch, configuration |
| LegacyComponentConfig.UpdateDefaults | internal/provider/component_configuration_resource.go:321-328 | an unknown change description becomes "update by Keboola terraform provider"; unknown content becomes `"{}"` |
| LegacyComponentConfig.Updated | internal/provider/component_configuration_resource.go:362-369 | the plan with the response's ids, texts, flags, version and time; the id is the plan's |
| LegacyComponentConfig.Update | internal/provider/component_configuration_resource.go:281-375 | the first violation is a single error with no request; then defaults, parse, one update for the state's key naming all five fields, and the response written |
| LegacyComponentConfig.FirstErrorOfAccumulated | internal/provider/component_configuration_resource.go:296-318 | the update stops iff the engine-based mapper reports an immutability error, and it names the first of them |
| LegacyComponentConfig.UpdateSendsEveryField | internal/provider/component_configuration_resource.go:337-350 | every update request uses the state's key and the fixed five-field list; the written id and component are the plan's |
| LegacyComponentConfig.DeleteConfiguration | internal/provider/component_configuration_resource.go:377-400 | one delete for the key of the state's branch, component and configuration id (not its compound id); one error iff it fails; nothing written |
| LegacyConfig.Created | keboola/config_resource.go:169-174 | only the id, branch, deletion flag, version, time and change description come from the response |
| LegacyConfig.Create | keboola/config_resource.go:112-181 | content is parsed as it stands (no `"{}"` default); failure is one error and no request; a null change description is defaulted; the configuration id is sent only when not null |
| LegacyConfig.UnknownContentIsNotDefaulted | keboola/config_resource.go:120-129 | when the codec rejects empty text, an unknown content stops this create, while the component-configuration create goes on to the remote |
| LegacyConfig.StateKey | keboola/config_resource.go:194-198 | the key is the state's branch, component and id |
| LegacyConfig.Read | keboola/config_resource.go:184-233 | one get; on success the descriptive fields and the content are always overwritten with the remote values, with no warning |
| LegacyConfig.ReadAdoptsRemoteContent | keboola/config_resource.go:210-225 | under the codec law, the content a read writes parses back to the remote content |
| LegacyConfig.ChangeFields | keboola/config_resource.go:273-293 | a field name is listed iff it is one of the five and the plan's value for it is not unknown |
| LegacyConfig.ChangeFieldsFilterAll | keboola/config_resource.go:273-293 | the change fields are the five-field list filtered by that test, so they keep its order |
| LegacyConfig.FullPlanSendsEveryField | keboola/config_resource.go:273-293 | a plan that leaves nothing unknown names all five fields |
| LegacyConfig.Updated | keboola/config_resource.go:303-308 | only the id, branch, change description, deletion flag, version and time change |
| LegacyConfig.Update | keboola/config_resource.go:235-314 | no immutability checks; a parse failure is one error and no request; one update for the state's key with the selected change fields |
| LegacyConfig.UpdateHasNoImmutabilityCheck | keboola/config_resource.go:251-308 | whenever the content parses, the request is sent; the written component, name, description, flag and content are the plan's |
| LegacyConfig.DeleteConfiguration | keboola/config_resource.go:316-339 | one delete for the key of the state's branch, component and `id` (this resource's plain configuration id); one error iff it fails; nothing written |

## Left out

- Provider setup, client construction, schemas, type names and `Configure`. These are framework wiring.
- Reading the plan or state and writing the state. These framework steps are taken to succeed.
- The SDK requests themselves. Their answers are inputs.
- Framework.QuoteChar: characters beyond ASCII are kept as they are; `strconv.Quote` also escapes the ones Unicode does not class as printable (`\u`/`\U` escapes), which needs Unicode's tables. The merge lemmas rely only on the leading quote and on injectivity, which hold either way.
- HydratedMergePermutation: the permutation is promised only for distinct API row ids. With a repeated id the source itself drops rows (DuplicateIdKeepsLast), so no permutation holds then.
- HydrateThenMapBack: says nothing when translating back fails. That happens when the model's prior row list is unknown, when the hydrated rows are known but the state's rows are unknown, or when the API returned no rows and a kept prior row has a payload that does not parse.
- EmptyUpdateKeepsEncryptedValue: stated for a known component id and a known stored value. Without a component id the update is rejected (Encryption.Update); without a stored value it writes "" (RevisionsDisagreeOutsideHypotheses).
- RevisionsAgreeOnEncryptedValue: the agreement holds only under its two hypotheses. Outside them the revisions really differ, as RevisionsDisagreeOutsideHypotheses states.
- CreateWritesLastMatchingId: covers only the successful path. The append failure, the listing failure and the missing match are stated on BranchMetadata.ToApi.
- Codec.marshal: one function models both compact writers. The older resources
  and `SerializeJSON` call the map's `MarshalJSON`
  (internal/provider/common/json_utils.go:31,
  internal/provider/component_configuration_resource.go:255,
  keboola/config_resource.go:210). The engine mapper and row handler call
  `json.Marshal` on the map (internal/provider/resources/configuration/mapper.go:240,
  internal/provider/resources/configuration/row_handler.go:184), which compacts
  the text again and HTML-escapes `<`, `>` and `&`. So the model does not
  capture how the two texts differ in escaping, and no lemma compares the
  content text of an older resource with that of the engine resource.
- RowHandler.GetRowsSortOrder: the source returns an empty non-nil slice when
  the plan has fewer rows than the state, and a nil slice when the plan has no
  known row ids. Both are modelled as `[]`. Whether the API client sends them
  differently is not part of this model.
- Timestamp rendering. `created` is already text.
- Logging.
- The ordered-map library's internals. The codec is three functions plus the `Lawful` hypothesis.
- Test-mode indentation. It is an alternative writer inside the codec.
- `reflect.DeepEqual` on two ordered maps is modelled as equality of the map values.
- The scheduler's `ConfigurationVersion` mapping is not modelled, because that part of the file holds merge-conflict markers.
- The mapper interface's one-argument `MapTerraformToAPI` is not modelled. Every implementer and caller uses the two-argument form, and that is the form modelled.
- The encryption mapper and its resource come from different revisions of the code, so only their decision logic is modelled.
- The configuration resource's own callbacks are parameters. The file that defines them is not part of this model.
- ConfigurationMapper.ProcessUnknownRows: the element type of the empty list built on create is not modelled; it is just an empty row list.
- ConfigurationMapper.ProcessRows: the sentinel errors for unknown rows do not carry the `%v` text of the extraction diagnostics.
- ConfigurationMapper.ValidateTerraformModel: null rows stay null. The framework maps a null list to a nil slice and back, so the result is the same downstream either way.
- LegacyComponentConfig.Read: requires the remote configuration to carry content, because the source dereferences it unconditionally.
- LegacyConfig.Read: requires the remote configuration to carry content, for the same reason.
- LegacyComponentConfig.KeboolaId: how Go's `%d` and `%s` print a framework value that is passed as a struct depends on the framework's internal layout. That rendering is the parameter `Render`, and the drift lemma assumes only that rendering a known string lengthens it.
- LegacyConfig.ChangeFields: a field is sent when its plan value is not unknown, so a null value counts. This follows the code rather than a reading in which only known values count.
- Integer width: branch ids and versions are unbounded integers. The source's `int64` conversions are taken not to overflow.

## Findings

| source | as written | input that shows it | evidently intended | confidence | as-written member | corrected member |
|---|---|---|---|---|---|---|
| internal/provider/resources/configuration/row_handler.go:100-116 | the prior-row lookup key is `existingRow.ID.String()`, the quoted framework rendering, while the map is keyed by plain API ids, so no prior row is ever found and the merge returns the API order | prior rows with ids a, b, c; the API returns c, a and a new row d; the merged rows come back as c, a, d | prior rows first in prior order, then new ones: a, c, d; when the API returns exactly the prior rows, the prior order | not executed | RowHandler.AsWrittenExample | RowHandler.IntendedMergeKeepsOrder |
| keboola/component_configuration_resource.go:51-53 | the compound id is formatted from the branch and component structs and from `model.ID`, the compound id itself, rather than from `ConfigID` | a create with configuration_id "mycustomconfiguid123" and an unknown id: the last segment renders the unknown id, not the configuration id; the next read embeds that id in itself again | `branch/component/configuration` over the plain values, as the other copy does at internal/provider/component_configuration_resource.go:52-54 | not executed | LegacyComponentConfig.KeboolaIdDriftsOnRefresh | LegacyComponentConfig.InternalIdStable |
