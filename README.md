# VDBMS differential fuzzing: a verified model

The fuzzing framework generates random test cases for vector databases:
inserts, searches, deletes, batch operations and mixed sequences. It runs
each test against several database adapters (Milvus, Chroma, Qdrant,
Weaviate) and compares their answers. Any disagreement is reported as an
*inconsistency*. This project models the core of that framework in Dafny
and proves properties of the model:

- **the differential tester**: running one test on every adapter, turning
  each adapter's outcome into a `DatabaseResult`, partitioning the results
  into succeeded and failed, and the six per-operation comparators;
- **the search-result id extractor**, which normalises the payload shapes of
  the four databases into a flat list of id strings;
- **the utilities**: configuration validation and repair, JSON
  serialisation of results, and the counting part of the test report;
- **the fuzz generator**: `FuzzConfig`, the random test cases and the edge
  cases. Each random draw is a nondeterministic choice within the range the
  `random` module guarantees, so every generator contract holds for every
  outcome of the draws.

Python values are the `Values.Value` datatype. Dicts are insertion-ordered
sequences of pairs with first-match lookup, because iteration order matters:
the first adapter is the reference for the overlap comparisons, and the
`Get` branch of the extractor walks dict values in order. An exception is
the `Exception` datatype, and an operation that may raise returns a
`Result`. An adapter is a function from the calls made so far and the next
call to a reply, so a run of the tester is a function of the adapters.

The modules follow the source:

| module | file | what it holds |
|---|---|---|
| `Values` | values.dfy | Python values and the built-ins the core applies to them |
| `Models` | models.dfy | `TestResult` and the structured inconsistency reports |
| `Outcomes` | outcomes.dfy | `DatabaseResult` and the success/failure partition |
| `Extraction` | extraction.dfy | `_extract_search_result_ids` |
| `Overlap` | overlap.dfy | the search and batch-search comparators |
| `Agreement` | agreement.dfy | the insert, delete, mixed and generic comparators |
| `Comparison` | comparison.dfy | `_compare_results` and the comparator table |
| `Orchestration` | orchestration.dfy | `_safe_execute`, `_execute_on_all_databases`, `run_test` |
| `Serialization` | serialization.dfy | `_make_serializable` |
| `Reporting` | reporting.dfy | the counting part of `generate_report` |
| `ConfigValidation` | config_validation.dfy | `validate_config`, `fix_common_issues` |
| `Generator` | generator.dfy | `fuzz_generator.py` |

Every loop of the source is a `method` with a `while` loop. Its invariants
tie the loop state to a specification function on the prefix processed so
far, and its `ensures` states that it computes that function, including
which exception it raises. The properties are lemmas about those functions.

## Model

| member | source | states |
|---|---|---|
| Orchestration.SafeExecute | fuzz/differential_tester.py:96-196 | never raises: the adapter's outcome becomes a `DatabaseResult`, a success carrying the collected data, a failure carrying `None` and the exception |
| Orchestration.ResultOf | fuzz/differential_tester.py:177-196 | `success` holds exactly when the operation produced data; a failure has `data = None` and the exception as `error`; name and elapsed time are kept |
| Orchestration.RunBatchSearch | fuzz/differential_tester.py:141-152 | the search loop collects the payloads the batch-run specification gives, and an adapter exception propagates out of the loop |
| Orchestration.BatchRunOnePayloadPerQuery | fuzz/differential_tester.py:147-152 | one payload per query vector, and the calls are one search per query vector, in order |
| Orchestration.RunMixedOperations | fuzz/differential_tester.py:154-172 | the sub-operation loop collects the entries the mixed-run specification gives, and an adapter exception propagates out of the loop |
| Orchestration.MixedRunOneEntryPerKnownOp | fuzz/differential_tester.py:158-172 | one call and one entry per sub-operation whose type is insert, search or delete; other types are skipped |
| Orchestration.RunPlans | fuzz/differential_tester.py:156-172 | the loop over planned sub-operations returns the entries of the plan run, or the first exception a plan or an adapter call raised |
| Orchestration.MixedPlanKnown | fuzz/differential_tester.py:157-170 | a sub-operation is turned into a call exactly when its type is insert, search or delete, and its entry is tagged with that type |
| Orchestration.CallsPrefixMakesEveryCall | fuzz/differential_tester.py:147-152 | without an exception every planned search call is made, in order, and each contributes one payload |
| Orchestration.FanIn | fuzz/differential_tester.py:73-86 | the per-adapter map has the client names as keys, in client order |
| Orchestration.GatherFallback | fuzz/differential_tester.py:87-94 | the fallback map also has the client names as keys, in client order |
| Orchestration.CollectSettled | fuzz/differential_tester.py:73-86 | the `db_results` loop computes the fan-in map |
| Orchestration.ExecuteOnAllDatabases | fuzz/differential_tester.py:60-94 | returns the fan-in of every adapter's outcome, or the gather fallback when gathering fails |
| Orchestration.RunTest | fuzz/differential_tester.py:39-58 | the test result is built from the fan-in map and the comparison, or carries the comparator's exception |
| Orchestration.FanInKeys | fuzz/differential_tester.py:64-94 | exactly one result per configured client, in client order, on the normal and the fallback path; distinct client names stay distinct |
| Orchestration.ErrorContainment | fuzz/differential_tester.py:74-84 | an adapter's entry depends on that adapter alone; its exception becomes its own failed result with `data = None` |
| Orchestration.GatherFailureFailsAll | fuzz/differential_tester.py:87-94 | on the fallback every adapter failed with the gather error and no data |
| Orchestration.RunTestKeys | fuzz/differential_tester.py:49-58 | `results` and `execution_time` are keyed by exactly the configured clients; id, operation and inputs are passed through |
| Orchestration.UnknownOperationFails | fuzz/differential_tester.py:174-175 | an operation outside the six known ones raises "Unknown operation" |
| Orchestration.BatchSearchOnePayloadPerQuery | fuzz/differential_tester.py:141-152 | a successful batch search has `query_vectors` and yields a list with one payload per query vector |
| Orchestration.MixedOneEntryPerKnownOp | fuzz/differential_tester.py:154-172 | a successful mixed run has `operations` and yields one entry per sub-operation of a known type |
| Orchestration.CallsStayInCollection | fuzz/differential_tester.py:101-172 | every adapter call of every operation goes to `collection_name`: an adapter that raises on any other collection gives the same outcome |
| Orchestration.DefaultCollectionUsed | fuzz/differential_tester.py:101 | without `collection_name`, every adapter call of every operation goes to `test_collection` |
| Outcomes.Successful | fuzz/differential_tester.py:203 | keeps exactly the successful entries of the map: each kept entry succeeded and comes from the map, and every successful entry is kept |
| Outcomes.SuccessfulConcat | fuzz/differential_tester.py:203 | the success side keeps the map's order: filtering a concatenation concatenates the filtered parts |
| Outcomes.Unsuccessful | fuzz/differential_tester.py:204 | keeps exactly the failed entries of the map: each kept entry failed and comes from the map, and every failed entry is kept |
| Outcomes.UnsuccessfulConcat | fuzz/differential_tester.py:204 | the failure side keeps the map's order: filtering a concatenation concatenates the filtered parts |
| Outcomes.PartitionSizes | fuzz/differential_tester.py:203-204 | every adapter lands in exactly one of the two sides |
| Outcomes.SuccessfulEmptyIff | fuzz/differential_tester.py:206 | the success side is empty exactly when no adapter succeeded |
| Outcomes.UnsuccessfulEmptyIff | fuzz/differential_tester.py:206 | the failure side is empty exactly when every adapter succeeded |
| Outcomes.AllSuccessfulKept | fuzz/differential_tester.py:203 | when all succeeded the success side is the whole map |
| Comparison.TableLookup | fuzz/differential_tester.py:218 | the comparator is the table's entry for the operation, or the generic one when the operation has none |
| Comparison.CompareResults | fuzz/differential_tester.py:198-222 | the divergence report, then the chosen comparator's reports when at least two adapters succeeded, or that comparator's exception |
| Comparison.DispatchTable | fuzz/differential_tester.py:30-37 | `batch_insert` shares the insert comparator; each known operation has its comparator; any other operation gets the generic one |
| Comparison.ApplyNeverDiverges | fuzz/differential_tester.py:218-220 | no comparator emits a divergence report |
| Comparison.DivergenceFirstIff | fuzz/differential_tester.py:203-211 | the first report is the divergence report exactly when some adapter succeeded and some failed, and no later report is one |
| Comparison.DivergenceNamesBoth | fuzz/differential_tester.py:203-211 | when adapter A succeeded and adapter B failed on the same test, the first report is the divergence report and names A among the successes and B among the failures |
| Comparison.FewSuccessesOnlyDivergence | fuzz/differential_tester.py:213-215 | with fewer than two successes the divergence report is the only possible one |
| Comparison.GenericAddsNothing | fuzz/differential_tester.py:376-388 | the generic comparator only sees successes, so it never adds a report |
| Comparison.OnlyInsertAndDeleteRaise | fuzz/differential_tester.py:218-220 | only the insert and delete comparators can raise |
| Agreement.CompareInsertResults | fuzz/differential_tester.py:224-248 | the loop computes the insert comparator's reports, or its exception |
| Agreement.InsertCountsEntries | fuzz/differential_tester.py:229-241 | every entry of `success_counts` is the count some adapter of the map reports, and there are no more entries than adapters |
| Agreement.InsertCountsExact | fuzz/differential_tester.py:229-241 | with distinct adapter names, `success_counts` holds each name at most once, and each adapter's entry is exactly the count its payload reports, or absent when it reports none |
| Agreement.InsertCountsMixedPayloads | fuzz/differential_tester.py:230-241 | a dict payload with neither `insert_count` nor `status` gets no entry; a payload that is not a dict gets the entry 1 |
| Agreement.AgreeingInsertCounts | fuzz/differential_tester.py:233-234 | adapters all reporting the same integer `insert_count` are not reported |
| Agreement.NonDictPayloadsAgree | fuzz/differential_tester.py:240-241 | a non-dict payload counts 1, so such adapters always agree |
| Agreement.InsertCountsFailure | fuzz/differential_tester.py:231-236 | the comparator raises only on a dict payload whose count cannot be taken |
| Agreement.InsertReportIff | fuzz/differential_tester.py:243-246 | at most one report, emitted exactly when two counts differ |
| Agreement.CompareDeleteResults | fuzz/differential_tester.py:333-355 | the loop computes the delete comparator's reports, or its exception |
| Agreement.DeleteStatusesAligned | fuzz/differential_tester.py:338-348 | one status per adapter, in adapter order, each the adapter's own delete verdict |
| Agreement.DeleteStatusesFailIff | fuzz/differential_tester.py:342 | the comparator raises exactly when some dict payload's status is not a string |
| Agreement.DeleteReportIff | fuzz/differential_tester.py:350-353 | at most one report, emitted exactly when some adapter's delete did not succeed, including when none did |
| Agreement.MissingStatusFails | fuzz/differential_tester.py:342 | a dict payload without `status` is a failed delete |
| Agreement.UpperCaseStatusSucceeds | fuzz/differential_tester.py:342 | an upper-case `SUCCESS` status counts as a success |
| Agreement.KelvinStatusSucceeds | fuzz/differential_tester.py:342 | "O" followed by the Kelvin sign lowers to `ok` and counts as a success |
| Agreement.CompareMixedOperationResults | fuzz/differential_tester.py:357-374 | the loop computes the mixed comparator's reports |
| Agreement.CountsAgreeWithFirst | fuzz/differential_tester.py:369 | counts all equal to the first one never differ |
| Agreement.MixedReportIff | fuzz/differential_tester.py:362-372 | at most one report, emitted exactly when two adapters ran a different number of sub-operations; a non-list payload counts 0 |
| Agreement.SameLengthListsAgree | fuzz/differential_tester.py:364-372 | list payloads of equal length are never reported |
| Agreement.GenericReportIff | fuzz/differential_tester.py:376-388 | at most one report, emitted exactly when some adapter failed |
| Overlap.IdSet | fuzz/differential_tester.py:257-262 | the id set holds exactly the extracted ids, and is empty when extraction raises |
| Overlap.CollectIdSets | fuzz/differential_tester.py:255-262 | the loop builds one id set per adapter, in order |
| Overlap.CollectQueryIdSets | fuzz/differential_tester.py:301-311 | the loop builds one id set per adapter for one query index |
| Overlap.CompareWithReference | fuzz/differential_tester.py:269-282 | the loop emits the low-overlap reports of the other adapters against the reference |
| Overlap.CompareSearchResults | fuzz/differential_tester.py:250-284 | computes the search comparator's reports |
| Overlap.CompareBatchSearchResults | fuzz/differential_tester.py:286-331 | computes the batch-search comparator's reports |
| Overlap.CompareQuery | fuzz/differential_tester.py:300-329 | one iteration of the batch loop emits that query index's reports |
| Overlap.OverlapReportsSound | fuzz/differential_tester.py:269-282 | each report names the reference, another adapter whose overlap is low, its common count, and a largest size with `2 * common < largest` |
| Overlap.OverlapReportsBound | fuzz/differential_tester.py:269-270 | the reference is never compared with itself: at most one report per other adapter |
| Overlap.SameSetsNeverReported | fuzz/differential_tester.py:271-278 | an adapter whose ids equal the reference's is never reported |
| Overlap.OverlapReportedIff | fuzz/differential_tester.py:271-282 | an adapter other than the reference is reported exactly when both sets are non-empty and overlap by less than half of the larger one |
| Overlap.SearchReportBound | fuzz/differential_tester.py:265-282 | at most `n - 1` search reports for `n` adapters |
| Overlap.SearchReportedIff | fuzz/differential_tester.py:266-282 | with distinct names, a non-first adapter is reported exactly when its overlap with the first is low |
| Overlap.SearchAgreeingAdaptersNotReported | fuzz/differential_tester.py:273-278 | adapters with equal id sets, empty ones included, are never reported |
| Overlap.BatchNonListReference | fuzz/differential_tester.py:297-298 | a non-list reference payload yields no batch reports |
| Overlap.ShortPayloadNotReported | fuzz/differential_tester.py:304-308 | a payload that is not a list or too short for the query index is never reported at that index |
| Overlap.BatchReportsIndexed | fuzz/differential_tester.py:300-329 | every batch report names a query index within the reference list |
| Overlap.BatchReportsBound | fuzz/differential_tester.py:300-329 | at most one report per other adapter and query index |
| Overlap.BatchSearchBound | fuzz/differential_tester.py:294-329 | at most `(n - 1) * len(reference)` batch reports, each naming an index below `len(reference)` |
| Extraction.ExtractResultIds | fuzz/differential_tester.py:390-434 | the extraction procedure returns the ids the branch specification gives, or raises what it raises |
| Extraction.CollectDataItemIds | fuzz/differential_tester.py:398-400 | the Milvus loop keeps `str(item['id'])` of each dict item holding an `id` |
| Extraction.CollectGetIds | fuzz/differential_tester.py:409-416 | the Weaviate loop over `Get`'s values, or its exception |
| Extraction.CollectCollectionIds | fuzz/differential_tester.py:411-416 | the loop over one collection's items, or its exception |
| Extraction.CollectPointIds | fuzz/differential_tester.py:419-421 | the Qdrant loop over `points`, or its exception |
| Extraction.CollectFlattened | fuzz/differential_tester.py:427-429 | the Chroma loop flattens the list elements only |
| Extraction.ScalarPayloadHasNoIds | fuzz/differential_tester.py:394-434 | a payload that is neither dict nor list yields no ids and never raises |
| Extraction.ExtractIdsFailsOnlyInGetOrPoints | fuzz/differential_tester.py:396-421 | extraction can only raise past the `data` and `ids` branches |
| Extraction.ResultWrappersUnwrap | fuzz/differential_tester.py:404-406 | nested `result` wrappers are unwrapped down to the payload |
| Extraction.IdsBranchKeepsLength | fuzz/differential_tester.py:401-403 | the `ids` branch yields one string per element |
| Extraction.DataItemIdsMembership | fuzz/differential_tester.py:396-400 | the Milvus branch yields exactly the ids of the items carrying one |
| Extraction.DataItemIdsBound | fuzz/differential_tester.py:398-400 | the Milvus branch yields at most one id per item |
| Extraction.FlattenIdsMembership | fuzz/differential_tester.py:425-429 | the nested-list branch yields exactly the elements of list elements |
| Extraction.WeaviateItemsYieldIds | fuzz/differential_tester.py:411-416 | items `{"_additional": {"id": x}}` yield `str(x)` for each, in order |
| Extraction.TopLevelGetOneCollection | fuzz/differential_tester.py:407-416 | a top-level `Get` with one collection yields that collection's ids |
| Extraction.TopLevelGetYieldsIds | fuzz/differential_tester.py:407-416 | a top-level `Get` over Weaviate items yields every id, in order |
| Extraction.NestedGetYieldsNothing | fuzz/differential_tester.py:396-407 | a `Get` nested under `data`, as in the Weaviate GraphQL reply, yields no ids |
| Extraction.EmptyDataYieldsNothing | fuzz/differential_tester.py:396-400 | `{"data": []}` yields no ids |
| Extraction.QdrantResultListStringifiesPoints | fuzz/differential_tester.py:404-432 | a `{"result": [points]}` payload stringifies each whole point |
| Extraction.PointIdsOfDicts | fuzz/differential_tester.py:417-421 | over dict points, the `points` branch equals the Milvus item rule |
| Values.FractionDigitsReadBack | fuzz/differential_tester.py:400-432 | the fraction of a float id is written as exactly 17 digits, leading zeros kept, that read back as the fraction scaled by `10^17` and truncated |
| Values.FloatNegative | fuzz/differential_tester.py:400-432 | a negative float id is written as a minus sign followed by the text of its magnitude |
| Values.FloatWhole | fuzz/differential_tester.py:400-432 | a whole-number float id `n` is written as the digits of `n` followed by `.0` in the model's rendering; below `10^16` this is what Python's `str` writes, and from `1e16` on Python switches to exponent notation (the `Values.Str` line under "## Left out") |
| Serialization.MakeSerializable | fuzz/utils.py:50-59 | lists and tuples become lists of the same length, dicts keep their keys, scalars are unchanged, anything else becomes its `str` |
| Serialization.MakeSerializableIsSerializable | fuzz/utils.py:50-59 | the output holds no tuple and no foreign object |
| Serialization.SerializableUnchanged | fuzz/utils.py:50-59 | a value already serializable is left as it is |
| Serialization.MakeSerializableIdempotent | fuzz/utils.py:50-59 | converting twice is converting once |
| Serialization.TupleBecomesList | fuzz/utils.py:52-53 | a tuple converts as the list of its elements |
| Reporting.GenerateReport | fuzz/utils.py:61-121 | the figures of the report: total, tests with an inconsistency, database and operation statistics, top list |
| Reporting.CollectDatabaseStats | fuzz/utils.py:68-75 | the nested loop computes the database statistics |
| Reporting.CollectOperationStats | fuzz/utils.py:78-85 | the loop computes the operation statistics |
| Reporting.CollectInconsistencies | fuzz/utils.py:108-114 | the loop collects every inconsistency tagged with its test id and operation |
| Reporting.DatabaseStatsCount | fuzz/utils.py:68-75 | a database's `total` counts the payloads under its name and `success` the non-`None` ones; an unseen name has no entry |
| Reporting.EntriesUnderUnique | fuzz/utils.py:70-73 | a result adds at most one to a database's total |
| Reporting.DatabaseSuccessAtMostTotal | fuzz/utils.py:73-75 | `success <= total` for every database |
| Reporting.OperationStatsCount | fuzz/utils.py:78-85 | an operation's `count` counts its tests and `inconsistencies` those with a report; an operation never run has no entry |
| Reporting.OperationFlaggedAtMostRuns | fuzz/utils.py:83-85 | `inconsistencies <= count` for every operation |
| Reporting.OperationCountsSum | fuzz/utils.py:78-85 | the operation counts add up to the number of tests |
| Reporting.FoundAtMostTotal | fuzz/utils.py:63-64 | `inconsistencies_found <= total_tests`, with equality exactly when every test found one |
| Reporting.AllInconsistenciesConcat | fuzz/utils.py:108-114 | entries follow result order: later results only add at the end |
| Reporting.AllInconsistenciesCount | fuzz/utils.py:108-114 | one entry per inconsistency of every result |
| Reporting.TopIsPrefix | fuzz/utils.py:116-119 | the top list is the first ten entries, or all of them when there are at most ten |
| Reporting.PercentageBounds | fuzz/utils.py:99 | a printed rate lies in 0..100 and is 100 exactly when the part is the whole |
| Reporting.ConsistencyRateBounds | fuzz/utils.py:65 | the consistency rate lies in 0..100 and is 100 exactly when no test found an inconsistency |
| ConfigValidation.ValidateConfig | fuzz/utils.py:177-213 | the loop computes the validation issues, or the exception a non-dict entry raises |
| ConfigValidation.MissingDatabaseOnlyIssue | fuzz/utils.py:184-186 | a missing database yields exactly one issue and no host or port issue |
| ConfigValidation.PortIssueIff | fuzz/utils.py:194-197 | a port issue is reported exactly when the port is absent, not an `int`, or outside 1..65535 |
| ConfigValidation.HostIssueIff | fuzz/utils.py:191-192 | a host issue is reported exactly when the host is absent or falsy |
| ConfigValidation.MissingTestSettingsOnlyIssue | fuzz/utils.py:200-201 | missing `test_settings` yields exactly one issue |
| ConfigValidation.SettingFlaggedIff | fuzz/utils.py:205-211 | a setting is flagged exactly when present and not a positive `int` |
| ConfigValidation.DictEntriesNeverRaise | fuzz/utils.py:183-197 | database entries that are dicts never make the validator raise |
| ConfigValidation.PresentDatabasesNotMissing | fuzz/utils.py:183-197 | a present database never draws a missing-database issue |
| ConfigValidation.PresentNothingMissing | fuzz/utils.py:177-213 | with every database and `test_settings` present, nothing is reported missing |
| ConfigValidation.FillDefaults | fuzz/utils.py:250-252 | the fill loop computes the fill specification, or raises on a non-dict entry |
| ConfigValidation.FixCommonIssues | fuzz/utils.py:216-274 | returns the repaired copy and the caller's dict after the shared nested objects were filled, or the exception |
| ConfigValidation.FixEntryStep | fuzz/utils.py:246-252 | one repair step on the copy and on the caller's dict |
| ConfigValidation.FillSpecHasAllKeys | fuzz/utils.py:250-252 | after filling every default key is present |
| ConfigValidation.FillSpecNoOp | fuzz/utils.py:250-252 | filling an object already holding every default key changes nothing |
| ConfigValidation.FillSpecIdempotent | fuzz/utils.py:250-252 | filling twice is filling once |
| ConfigValidation.FillDictExtends | fuzz/utils.py:250-252 | filling a dict never raises and only appends entries |
| ConfigValidation.FillDictNeverOverwrites | fuzz/utils.py:250-252 | a present key keeps its value, a missing key gets its default |
| ConfigValidation.FixEntrySettles | fuzz/utils.py:245-252 | a repair step leaves its own key settled |
| ConfigValidation.FixEntryOthers | fuzz/utils.py:245-252 | a repair step leaves every other entry of the copy alone |
| ConfigValidation.FixEntryShares | fuzz/utils.py:218-252 | the caller's dict keeps its keys and still shares each nested object with the copy |
| ConfigValidation.FixSpecEntry | fuzz/utils.py:245-274 | under each database and `test_settings`, the repaired entry is the caller's own entry filled with that key's defaults, or the defaults when the entry was missing |
| ConfigValidation.FixKeepsExistingValues | fuzz/utils.py:245-274 | in a dict entry under a database or `test_settings`, every key the caller set keeps its value after the repair, and every other default key gets its default |
| ConfigValidation.FixSpecFrame | fuzz/utils.py:218-274 | keys outside the four databases and `test_settings` are untouched; the caller's dict keeps its keys and shares the repaired objects |
| ConfigValidation.FixSpecSettles | fuzz/utils.py:245-273 | after the repair every database and `test_settings` is settled |
| ConfigValidation.FixSpecHasKey | fuzz/utils.py:245-273 | after the repair every database and `test_settings` is present |
| ConfigValidation.FixEntrySettled | fuzz/utils.py:246-252 | a step on a settled entry changes nothing |
| ConfigValidation.FixIdempotent | fuzz/utils.py:216-274 | repairing a repaired configuration returns it unchanged |
| ConfigValidation.FixedHasNothingMissing | fuzz/utils.py:216-274 | the repaired configuration never draws a missing-database or missing-`test_settings` issue |
| Generator.Random | fuzz/fuzz_generator.py:60 | a draw in `[0, 1)` |
| Generator.Uniform | fuzz/fuzz_generator.py:67 | a draw between the two bounds, in either order |
| Generator.RandInt | fuzz/fuzz_generator.py:71 | a draw in `lo..hi`, or `ValueError` exactly when the range is empty |
| Generator.Choice | fuzz/fuzz_generator.py:38 | an element of the list |
| Generator.Choices | fuzz/fuzz_generator.py:103-111 | a string of the requested length over the alphabet |
| Generator.GenerateVector | fuzz/fuzz_generator.py:55-88 | empty or 1..256 values in `[-1, 1]`; otherwise `dimension` (or 256..1000) finite values within the component bound, then optionally `inf, -inf`, then optionally `nan` |
| Generator.UniformVector | fuzz/fuzz_generator.py:67 | `len(range(n))` finite values within the bound |
| Generator.GenerateMetadata | fuzz/fuzz_generator.py:90-126 | 0..`max_metadata_size` fields keyed `field_0 ..`, each of a listed field type, or `ValueError` exactly when the size is negative |
| Generator.FieldNameFresh | fuzz/fuzz_generator.py:97-103 | `field_i` is not already a key |
| Generator.GenerateField | fuzz/fuzz_generator.py:98-124 | a string of 1..50 or 1..20 characters, an int in ±1000000, a bool, 1..10 ints in 0..100, or a nested dict |
| Generator.GenerateId | fuzz/fuzz_generator.py:132 | `id_k` with `0 <= k <= 1000000` |
| Generator.GenerateIds | fuzz/fuzz_generator.py:132 | `n` generated ids |
| Generator.GenerateVectors | fuzz/fuzz_generator.py:131 | `n` vectors, each of the vector shape |
| Generator.GenerateMetadataList | fuzz/fuzz_generator.py:135-140 | `n` entries, each a metadata dict or `None` |
| Generator.GenerateCollectionName | fuzz/fuzz_generator.py:227-235 | one of the five invalid names, or `test_collection_k` with `1 <= k <= 1000` |
| Generator.GenerateInsertParams | fuzz/fuzz_generator.py:128-147 | `vectors`, `ids`, `metadata` of one length in 1..`max_vectors_per_batch`, and a collection name; raises when `max_vectors_per_batch < 1` and never when both ranges are non-empty |
| Generator.GenerateSearchParams | fuzz/fuzz_generator.py:149-160 | a vector, limit 1..100, a listed metric and a collection name |
| Generator.GenerateDeleteParams | fuzz/fuzz_generator.py:162-174 | 1..50 generated ids, optionally followed by exactly the three invalid ids |
| Generator.GenerateBatchSearchParams | fuzz/fuzz_generator.py:180-192 | 1..10 query vectors, limit 1..50, a listed metric and a collection name |
| Generator.GenerateMixedParams | fuzz/fuzz_generator.py:194-225 | 2..10 sub-operations and a collection name |
| Generator.GenerateMixedOp | fuzz/fuzz_generator.py:200-218 | an insert with one vector and an id, a search with limit 1..20, or a delete of one id |
| Generator.GenerateTest | fuzz/fuzz_generator.py:36-53 | one of the six operations, never `unknown`, with that operation's parameters; an exception only from an empty range |
| Generator.GenerateSpikedVector | fuzz/fuzz_generator.py:265-275 | `vector_dimension` values, the special one exactly at indices divisible by 10 |
| Generator.GenerateLargeBatchVectors | fuzz/fuzz_generator.py:284-285 | 1000 vectors of `vector_dimension` values in `[-1, 1]` |
| Generator.LargeBatchIds | fuzz/fuzz_generator.py:286 | `id_0 .. id_999` |
| Generator.GenerateEdgeCaseTest | fuzz/fuzz_generator.py:237-313 | one of the eight edge cases with its fixed operation and parameters |
| Generator.MetadataKeysUnique | fuzz/fuzz_generator.py:97-124 | generated metadata never repeats a key |
| Generator.FieldNameInjective | fuzz/fuzz_generator.py:103 | distinct indices give distinct field names |
| Generator.IdStringInjective | fuzz/fuzz_generator.py:286 | distinct indices give distinct ids |
| Generator.LargeBatchIdsDistinct | fuzz/fuzz_generator.py:286 | the 1000 batch ids are pairwise distinct |
| Generator.DefaultVectorLength | fuzz/fuzz_generator.py:55-88 | with the default configuration a vector has at most 1003 values, and a longer-than-256 one starts with 256 finite values |
| Generator.PlainVectorLength | fuzz/fuzz_generator.py:73-88 | without invalid or large vectors, `dimension` finite values and at most three special ones |
| Generator.GeneratedOpsAllKnown | fuzz/fuzz_generator.py:200-218 | every generated sub-operation has a type the tester executes |
| Generator.GeneratedMixedOneEntryPerOp | fuzz/fuzz_generator.py:194-225 | running generated mixed parameters yields one entry per sub-operation |
| Generator.GeneratedBatchOnePayloadPerQuery | fuzz/fuzz_generator.py:180-192 | running generated batch-search parameters yields one payload per query vector |

## Left out

- The HTTP adapters in fuzz/db_clients.py are not part of this model. An adapter is a function from the calls made so far and the next call to a reply.
- asyncio concurrency: the adapter coroutines run one after another. Whether `gather` itself fails is an input to the model, because it depends on the runtime.
- Wall-clock timing: each adapter's elapsed time and the total time are parameters, not measurements.
- Inconsistency messages are structured values carrying the names and counts. The f-string text is not modelled, including the `.1f` overlap percentage.
- The overlap threshold is stated in integer form: `2 * common < largest` replaces `common / largest * 100 < 50`.
- `Reporting.GenerateReport`: computes the figures of the report, not its text; the percentages are exact reals (`Reporting.Percentage`), not rounded floats.
- `Values.Str`: `str` of a non-integral float is written with its sign, the integral part of its magnitude and exactly 17 truncated fractional digits. Python writes the shortest round-trip form, and uses exponent notation for large and small magnitudes (`1e+16`, `1e-05`). String `repr` has no escape sequences.
- `Values.Lower`: lowers A to Z and the Kelvin sign, and keeps every other character. Python's `str.lower` maps many more characters, but only one other maps onto an ASCII letter: U+0130, whose lowercase carries a combining dot. So the delete status test against `success`, `ok` and `completed` comes out as in Python.
- The comparators can raise in the code. The insert comparator raises on an unhashable `insert_count` or a sized-less `insert_ids`, and the delete comparator on a non-string `status`. The model follows the code: `run_test` then raises, and `Comparison.OnlyInsertAndDeleteRaise` states which comparators can.
- `Agreement.InsertReportIff`: `len(set(counts)) > 1` is stated as "two counts are unequal under Python `==`"; Python's set also treats one NaN object as equal to itself, which the model does not.
- `ConfigValidation.FixCommonIssues`: on the error path, the caller's dict is returned as it stood before the failing step. Objects already filled before the exception are still visible in the caller's dict, but the returned value does not carry that partial state.
- `ConfigValidation.FixCommonIssues`: each configuration entry is repaired as a value of its own. `config_data.copy()` is shallow, so when two entries are one and the same dict object (`{'milvus': d, 'chroma': d}`), Python fills that one object under both names, and chroma keeps the `port` and `database` filled in for milvus. This aliasing between entries is not modelled.
- `fix_common_issues` has two loops, one over the databases and one for `test_settings`. They are modelled as one repair table because both take the same step: install the defaults when the entry is missing, otherwise fill in the missing keys.
- `Generator.Uniform`: states the range of the draw, not its distribution. The same holds for every other draw, and for the probabilities of `FuzzConfig`, which only select branches the contracts already allow.
- `Orchestration.MixedPlan`: the search sub-operation's call carries the metric `L2`. The code omits the argument, so each adapter's own default applies. An adapter therefore sees a metric that the program never passes.
- `Orchestration.RunMixedOperations`: looks up the keys of every sub-operation before the loop instead of just before its call. The adapter is a function of the calls already made, so the calls made, the entries collected and the exception raised are the same.
- Vector components are exact reals, or the infinities and NaN, not IEEE doubles; numpy is not used by the core.
- `Generator.Choices`: states the length and the alphabet of the string, not how `random.choices` picks.
- File and console I/O are not part of this model: `save_results`, `save_report`, `ResultAnalyzer.__init__`, `HealthChecker`, logging, fuzz/config.py, fuzz/main.py, fuzz/test_connections.py and vector_db_connector.py.
