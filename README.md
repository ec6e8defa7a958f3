# Intent-to-service-order pipeline, modelled in Dafny

The system is designed to turn a user's natural-language request into a
TM Forum TMF641 service order for the OpenSlice platform, through four
agents in turn:

1. An interpreter produces a structured `Intent`.
2. A selector searches a vector index of the service catalog. The index is
   filled from TMF633 ServiceSpecifications by an ingestion script.
3. A translator is to build a `ServiceOrder`.
4. A validator is to check the order, and a LangGraph workflow is to loop
   back to the translator when validation fails and submit a valid order.

The repository implements the intent schema, the selector, the ingestion
script, the order schema and the routing decision
(`should_retry_translation`). The translator's `translate`, the validator's
`validate` and `create_workflow` raise `NotImplementedError`
(agents/agent3_translator.py:69, agents/agent4_validator.py:68,
orchestrator.py:196), and every node and edge of the graph is a comment
(orchestrator.py:168-194). The validator and the graph are therefore
modelled from their documented design: the docstring and rule table of
`validate`, the node docstrings and the commented-out edges. They are not
a model of running code.

This project models the deterministic parts of that pipeline:

- `intent.dfy` (`IntentSchema`): the `Intent`/`SubIntent` records and their
  defaults. Requirement values are a tagged union, `Values.Value`, holding an
  int, a bool, a string or a list of strings.
- `selector.dfy` (`ServiceSelector`): the selector agent as a class. It holds
  the collection it searches, with methods for the query builder,
  `select_services` and `get_best_service`. Each method is proved against a
  specification function: `Query`, `Selection` and `Selected`. The vector
  index is an abstract search function returning at most `n_results` rows,
  each with a non-negative distance.
- `ingest.dfy` (`CatalogIngest`): document building, metadata extraction and
  the id-filtering batch of the catalog ingestion. The document and the
  metadata are built step by step by guarded appends and key updates, and
  the batch by a loop; each is proved against its specification function. It also covers the
  mock catalog's document format.
- `tmf641.dfy` (`ServiceOrdering`): the TMF641 enumerations with their wire
  strings, the order records, their defaults and the record constraints.
- `validator.dfy` (`OrderValidator`): the documented contract of the
  unimplemented validator, plus its rule table:
  - a `Valid` predicate;
  - an ordered list of `ValidationError`s;
  - `Validate`, which returns `(true, [])` exactly for valid orders.
- `orchestrator.dfy` (`Workflow`): the shared `AgentState`, the three-way
  routing decision, and the commented-out graph as a step function over
  configurations.
  The external agents are an `Environment` of functions. `Run` runs the
  graph to END and terminates by a rank measure. Lemmas bound the
  translate/validate loop and check two scenarios.
- Helper modules:
  - `wrappers.dfy`: `Option`, `Result`.
  - `strings.dfy`: join, character replacement, decimal rendering with its
    parse-back.
  - `sequences.dfy`: order-preserving filter, map, flatten, subsequence.
  - `values.dfy`: Python `str()` of a requirement value.

## Model

| member | source | states |
|---|---|---|
| IntentSchema.NewSubIntent | schemas/intent.py:22-26 | the domain is the given one; requirements default to the empty dict when omitted |
| IntentSchema.NewIntent | schemas/intent.py:53-65 | an omitted type becomes "composite_service"; omitted sub-intents become the empty list; id, location and qos stay absent unless given |
| IntentSchema.EmptyIntentIsAccepted | schemas/intent.py:54-58 | an intent with no sub-intent is accepted, and its type still defaults to composite; neither non-emptiness nor a type/cardinality match is an invariant |
| ServiceSelector.RequirementText | agents/agent2_selector.py:127-131 | a list requirement renders as its items joined by ", "; any other value renders as its string form |
| ServiceSelector.SubIntentSegmentsCount | agents/agent2_selector.py:122-131 | the sub-intents contribute one domain segment plus one segment per requirement each |
| ServiceSelector.QuerySegmentCount | agents/agent2_selector.py:106-134 | the number of query segments is [type non-empty] + [location non-empty] + number of qos entries + the sum over sub-intents of (1 + number of requirements) |
| ServiceSelector.TypeSegmentFirst | agents/agent2_selector.py:109-110 | a non-empty type is the first segment, with every underscore replaced and its length kept |
| ServiceSelector.Score | agents/agent2_selector.py:189-190 | for every distance d >= 0 the score lies in (0, 1], and equals 1 exactly when d = 0 |
| ServiceSelector.ScoreStrictlyDecreasing | agents/agent2_selector.py:190 | a larger distance gives a strictly smaller score |
| ServiceSelector.ToCandidate | agents/agent2_selector.py:196-205 | a kept row keeps its id, document and metadata, and gets score 1/(1+d); a name is set exactly when the metadata is non-empty; the name is the metadata's "name", or "Unknown Service" when that key is absent |
| ServiceSelector.SelectionSound | agents/agent2_selector.py:183-207 | every selected entry comes from a returned row and scores at least min_score; there are never more entries than rows |
| ServiceSelector.SelectionComplete | agents/agent2_selector.py:192-207 | no row that reaches min_score is dropped |
| ServiceSelector.SelectionKeepsIndexOrder | agents/agent2_selector.py:186-207 | the selection is an order-preserving subsequence of the index rows, formatted; nothing is re-sorted |
| ServiceSelector.ListingAsWritten | agents/agent2_selector.py:209-211 | listing the kept services by their name fails exactly when some kept entry has no name |
| ServiceSelector.NamelessRowFailsListing | agents/agent2_selector.py:196-211 | a row at distance 0 stored without metadata is kept, yet listing it by name fails |
| ServiceSelector.ServiceSelectorAgent.constructor | agents/agent2_selector.py:59-94 | the agent holds the collection it was given |
| ServiceSelector.ServiceSelectorAgent.IntentToQuery | agents/agent2_selector.py:106-137 | the query is the segments in fixed order, joined by single spaces: type with "_" replaced, "location: …", each qos "key: value", then per sub-intent "<domain> domain" and its requirement segments |
| ServiceSelector.ServiceSelectorAgent.AppendSubIntents | agents/agent2_selector.py:122-131 | the sub-intent loop appends every sub-intent's segments in list order |
| ServiceSelector.ServiceSelectorAgent.AppendQos | agents/agent2_selector.py:117-119 | the qos loop appends one "key: value" segment per entry, in dict order |
| ServiceSelector.ServiceSelectorAgent.AppendSubIntent | agents/agent2_selector.py:124-131 | one sub-intent appends its domain segment, then one segment per requirement, in dict order |
| ServiceSelector.ServiceSelectorAgent.SelectServices | agents/agent2_selector.py:139-215 | an empty collection yields [] without a query; otherwise the result is the selection over the index rows for the intent's query; it has at most top_k entries, each scoring at least min_score |
| ServiceSelector.ServiceSelectorAgent.DefaultSelectionBounds | agents/agent2_selector.py:139-144 | with the default arguments top_k = 5 and min_score = 0.5, at most five services are returned, each scoring at least 0.5 |
| ServiceSelector.ServiceSelectorAgent.GetBestService | agents/agent2_selector.py:217-228 | the first entry of the top_k = 1 selection at the default threshold, or None exactly when that selection is empty |
| CatalogIngest.WithSegment | scripts/ingest_catalog.py:116-146 | the segment list is empty exactly when nothing was written before and the field is absent; segments stay non-empty, so the joined document is empty only when no segment was written |
| CatalogIngest.SegmentAppended | scripts/ingest_catalog.py:116-144 | a present field appends exactly one "<Label>: <value>" segment after the parts already written, which are unchanged; an absent field appends nothing |
| CatalogIngest.CreateServiceDocument | scripts/ingest_catalog.py:103-146 | the document joins with " \| " the present segments in the order Service, Description, Category, Version, Characteristics, Type, Tags; characteristics appear only when the list is non-empty, and a nameless characteristic contributes "" |
| CatalogIngest.EmptyDocumentIff | scripts/ingest_catalog.py:114-146 | the document is empty exactly when no recognised key is present; an empty characteristic list counts as absent |
| CatalogIngest.MockDocumentMatchesServiceDocument | scripts/ingest_catalog.py:342 | the mock catalog's document equals the document create_service_document builds for a spec with the same name, description, category and type |
| CatalogIngest.MetadataKeys | scripts/ingest_catalog.py:159-181 | metadata has a key only for a present field, holding that field's string; lifecycleStatus is stored as "status" and serviceType as "type"; num_characteristics is a digit string that parses back to the list's length |
| CatalogIngest.ExtractMetadata | scripts/ingest_catalog.py:149-181 | the map built key by key is the metadata above, with the same per-key guarantees |
| CatalogIngest.ServiceId | scripts/ingest_catalog.py:242-243 | a non-empty id is used; otherwise a non-empty uuid is used; there is an id exactly when one of the two is a non-empty string, and it is never empty |
| CatalogIngest.BatchSound | scripts/ingest_catalog.py:240-255 | every batch entry has a non-empty id and comes from an input spec that has one; the batch is no longer than the input |
| CatalogIngest.BatchComplete | scripts/ingest_catalog.py:240-255 | a spec is skipped only when it has no id |
| CatalogIngest.BatchKeepsInputOrder | scripts/ingest_catalog.py:240-255 | the batch follows input order |
| CatalogIngest.BuildBatch | scripts/ingest_catalog.py:236-255 | ids, documents and metadatas have equal length, at most the input's, and are aligned position by position with the batch entries |
| CatalogIngest.IngestSpecifications | scripts/ingest_catalog.py:228-263 | an empty fetch returns early, and add is called exactly when the batch is non-empty, with the aligned batch |
| CatalogIngest.BatchEmptyIff | scripts/ingest_catalog.py:258-263 | nothing is inserted exactly when no spec has an id |
| ServiceOrdering.OrderStateRoundTrip | schemas/tmf641.py:14-25 | every order state reads back from its wire string |
| ServiceOrdering.ParseOrderStateSound | schemas/tmf641.py:14-25 | only the wire strings of order states are accepted |
| ServiceOrdering.ItemStateRoundTrip | schemas/tmf641.py:28-37 | every item state reads back from its wire string, which is also an order state |
| ServiceOrdering.ParseItemStateSound | schemas/tmf641.py:28-37 | only the wire strings of item states are accepted |
| ServiceOrdering.ParseAction | schemas/tmf641.py:40-45 | an accepted action string is the wire string of the action parsed |
| ServiceOrdering.ActionRoundTrip | schemas/tmf641.py:40-45 | each action reads back from its wire string, and a string is accepted exactly when it is some action's wire string |
| ServiceOrdering.NewService | schemas/tmf641.py:63-73 | a service gets the given specification reference and an empty characteristic list; id, type and name are absent |
| ServiceOrdering.NewServiceOrderItem | schemas/tmf641.py:76-86 | an item defaults to state acknowledged and quantity 1, and meets the item constraints exactly when its action is one of add, modify, delete, noChange |
| ServiceOrdering.NewServiceOrder | schemas/tmf641.py:97-156 | an order defaults to state acknowledged and an empty party list, with id, href, externalId, description, category, priority and all five dates absent; and meets the schema exactly when it has at least one item and every item meets the item constraints |
| ServiceOrdering.NewCreateRequest | schemas/tmf641.py:188-195 | a create request meets the schema exactly when every item does, with no minimum item count |
| ServiceOrdering.EmptyItemsAcceptedOnlyInCreateRequest | schemas/tmf641.py:149-153 | a create request without items is accepted; an order without items is rejected |
| OrderValidator.ActionValuesAreActionTypes | agents/agent4_validator.py:102 | the rule table's action values are exactly the wire strings of the action enumeration |
| OrderValidator.CharacteristicErrors | agents/agent4_validator.py:58-59 | no characteristic error is reported exactly when every characteristic matches its declared valueType |
| OrderValidator.ItemErrorsEmptyIff | agents/agent4_validator.py:54-59 | an item reports no error exactly when it meets the item rules and its id did not appear earlier |
| OrderValidator.NoItemErrorsIff | agents/agent4_validator.py:54-59 | no item reports an error exactly when every item meets the item rules and the ids are pairwise distinct |
| OrderValidator.ErrorsEmptyIffValid | agents/agent4_validator.py:51-66 | the error list is empty exactly when the order breaks no rule |
| OrderValidator.Validate | agents/agent4_validator.py:41-68 | returns (True, []) exactly for a valid order, and (False, errors) with a non-empty list otherwise |
| OrderValidator.EmptyOrderInvalid | agents/agent4_validator.py:98-100 | an order with no items is invalid, and its first error reports the count 0 |
| OrderValidator.DuplicateIdsInvalid | agents/agent4_validator.py:55 | two items that share an id make the order invalid |
| OrderValidator.DatesOutOfOrderInvalid | agents/agent4_validator.py:108-110 | with both dates present and completion not after start, the order is invalid and the last error says so |
| OrderValidator.ValidSatisfiesSchema | agents/agent4_validator.py:52 | a valid order also meets the record schema's constraints |
| Workflow.InitialState | orchestrator.py:209-223 | the initial state has empty error lists, no intent, no order and no response, is_valid false, count 0 and status "pending" |
| Workflow.ShouldRetryTranslation | orchestrator.py:102-121 | "submit" exactly when valid; "retry" exactly when invalid with count < 3; "error" exactly when invalid with count >= 3 |
| Workflow.RouteLabelsDistinct | orchestrator.py:116-121 | the labels "retry", "submit" and "error" are distinct, so each route selects exactly one edge |
| Workflow.ValidAlwaysSubmits | orchestrator.py:116-117 | a valid order is submitted whatever the count |
| Workflow.ErrorRegionUpwardClosed | orchestrator.py:118-121 | for an invalid order, raising the count keeps the "error" route |
| Workflow.RetryRegionDownwardClosed | orchestrator.py:118-119 | for an invalid order, lowering the count keeps the "retry" route |
| Workflow.Validated | orchestrator.py:89-99 | the validation node changes only the verdict, the errors and the count, which grows by one; the verdict is validity, and errors are empty exactly when valid |
| Workflow.Step | orchestrator.py:166-192 | each edge keeps a validation or submission node supplied with an order and strictly lowers the rank; only validation changes the count; only submission sets the response |
| Workflow.Run | orchestrator.py:137-192 | every run reaches END within rank steps; the count grows by the number of validations |
| Workflow.LoopBounds | orchestrator.py:102-121 | entered with count below 3, the loop validates at least once and never beyond count 3; every validation but the last is followed by a retry; it gives up only with the budget spent; it submits exactly when the last order was valid |
| Workflow.RunFromInitialState | orchestrator.py:137-223 | from the initial state a run ends within 9 steps, after 1 to 3 validations and at most 2 retries; it holds either a submitted valid order or three failed validations |
| Workflow.NeverValidGivesUp | orchestrator.py:155-157 | when no translation is ever valid, the run validates three times, retries twice, and ends without a response and with status "pending" |
| Workflow.SecondTranslationSubmits | orchestrator.py:155-156 | when only retried translations are valid, the run validates twice, retries once and submits |

## Left out

- The language-model interpreter and translator are left out, as are `validate_and_fix` and the node bodies' error capture (orchestrator.py:50-99, 124-134). They appear only as the functions of `Workflow.Environment`; `intent_errors`, `selection_errors` and `translation_errors` are carried but never written.
- HTTP calls are left out: authentication, the catalog fetch, the OpenSlice submission (the submit node's response and status are an environment function), and `delete_collection`/`--clear`.
- ChromaDB internals, the sentence embedding and `get_collection_stats` are left out. The index is an abstract search function: the distances it returns are arbitrary non-negative reals, and how ChromaDB computes them from the embeddings is not modelled.
- `round(score, 3)` is left out: candidate scores are the exact real `1/(1+d)`, on which the filter acts. Floating-point rounding is not modelled.
- Printing and `main`/argparse are left out; so is `query[:200]` in the log line.
- Values.Dict: an association list, which does not forbid a repeated key the way a Python dict does; the model's dicts are assumed to come from Python dicts, and a repeated key would be rendered twice.
- Values.PyStr: a list value renders with quotes but without Python's escaping of quote characters inside items.
- CatalogIngest.ServiceSpecification: catalog fields are optional strings. A key present with a JSON null or a non-string value, which Python would render as "None" or a number, is not distinguished from a string. A characteristic whose name is not a string, which makes `", ".join` raise, is not modelled. A `serviceSpecCharacteristic` or `tags` key present as null or as a non-list, or tags that are not strings, makes the source raise a TypeError (scripts/ingest_catalog.py:134, 145, 179), which nothing catches, so the whole ingestion run aborts before `add`. The model cannot represent such input: its `Option` list fields are either absent or a list of the right type.
- ServiceSelector.Row: the row id, document and metadata are taken as the index returns them; when `results['metadatas']` itself is falsy the source stores `'metadata': {}` in each entry, whereas the model's rows carry `None`; both give an entry without a name, but the entry's metadata field differs (`{}` in the source, `None` in the model).
- ServiceSelector.ServiceSelectorAgent.SelectServices: a `top_k` below 1, which the index rejects, is not modelled (`topK` is a `nat`, and 0 yields no rows).
- OrderValidator.Validate: UUID format checking (step 2 of the documented contract) is left out; a specification id only has to be non-empty.
- OrderValidator.MatchesValueType: checks only "integer", "string", "boolean" and "array". Other declared types pass, and a boolean is not counted as an integer. Required fields that the typed records always carry (`action`, `service`, `serviceSpecification`) need no separate check. An item's action is kept as a string so that an out-of-table action can be reported.
- OrderValidator.DatesOk: when either date is missing the date rule holds. Dates are integer instants, so time zones and the naive/aware comparison error are not modelled.
- Workflow.Step: on the error route `final_status` keeps its value, which the source does not specify.
- Workflow.RetryBudget: the source's own routing counts validations, so a run makes at most 2 retries and 3 validations before "error". The graph comment's "max 3 fois" is read as three validations. There is no "held" state in the graph.
- `settings.max_retries` is not read; the budget 3 is hard-coded as in the routing function.

## Findings

| source | as written | input that shows it | evidently intended | confidence | as-written member | corrected member |
|---|---|---|---|---|---|---|
| agents/agent2_selector.py:209-211 | after filtering, every kept service is listed by `svc['name']`, but `name` is set only for rows with non-empty metadata (lines 204-205) | one row at distance 0 whose entry has no metadata, with min_score 0.5: it is kept, and listing it raises KeyError | one of two readings: either the listing tolerates nameless entries and the selection is returned as built (the reading modelled), or every entry gets a name, as the return format at lines 156-166 and the usage example at lines 38-41 expect | medium, not executed | ServiceSelector.ListingAsWritten, ServiceSelector.NamelessRowFailsListing | ServiceSelector.ServiceSelectorAgent.SelectServices |
