# Tableau GenAI extension: request pipeline model

This project models the request pipeline of the Tableau GenAI extension in Dafny.

On the dashboard, the JavaScript extension does three things:

- It collects the main sheet's filters.
- It turns "(All)" selections into the handful of values the sheet actually shows.
- It posts a request to the Python query server.

The server then works through these steps:

1. It turns the filters and the period into a parameterised SQL query over the metrics view.
2. It pivots the long-format rows (date, metric name, metric value) into one record per date.
3. It renames the filters to their short payload keys and forces them into the backend's shape.
4. It replaces the period with the dates the data covers.
5. It picks the analysis or the assistant endpoint and relays the backend's answer or failure.

Modules, one concept each:

| module | file | models |
|---|---|---|
| `Wrappers` | wrappers.dfy | `Option`, `Result` |
| `Strings` | strings.dfy | code-point order and sorting, `?` counting, substring search, bracket stripping |
| `Dicts` | dicts.dfy | insertion-ordered dictionaries (Python `dict`, JavaScript object) with assignment semantics |
| `Mappings` | mappings.dfy | the three lookup tables of the server |
| `FilterValues` | filter_values.dfy | JSON filter values, Python truthiness, the "(All)" marker |
| `SqlText`, `QueryBuilder` | query_builder.dfy | `build_query` |
| `Pivot` | pivot.dfy | `process_data_to_metrics` |
| `Payload` | payload.dfy | `normalize_filter_names`, `normalize_filters_for_backend`, `build_backend_payload` |
| `AskAi` | ask_ai.dfy | `call_backend_api`'s outcomes and the decisions of `ask_ai` |
| `Extension` | extension.dfy | `getRawFilters`, `enrichFiltersWithData`, the payload of `handleProcess` |

Where the source changes things step by step, the model does too. `build_query`, the two
normalisation passes, the column conversion loop, `getRawFilters`, `enrichFiltersWithData`,
the distinct-value loop and `handleProcess` are methods with loops. Each one is proved equal to
a specification function, and the properties are then proved about that function. The pandas
pipeline is stated as functions over rows, cells and frames.

The world outside is passed in as parameters:

- The database is a function from query text and parameters to rows or an error message.
- The backend is a function from endpoint and payload to one of three outcomes: a response, a
  timeout, or a connection failure.
- The date normaliser (`pd.to_datetime(...).strftime`) and the numeric coercion
  (`pd.to_numeric(errors='coerce')`) are function parameters.
- Request ids and timestamps are plain parameters.
- Environment variables appear as optional strings.

- **Metric columns.** A record carries only the metric columns that have a value somewhere
  in the data (server.py:311-326); whitelisted metrics that never occur are not filled in
  with 0. `Pivot.RecordFields` and `Pivot.FirstWinsScenario` state this.
- **Backend errors.** A backend failure is answered with status 200, an `answer` text and
  an `error` field, and no `data` field (server.py:570-599). The text names the endpoint,
  and both fields carry the detail. `AskAi.Relay` and `AskAi.BoomIsRelayed` model that reply
  as `RelayedError(endpoint, detail)`.

## Model

| member | source | states |
|---|---|---|
| Mappings.ColumnFor | GenAI_Extension_V2-main/server.py:51-61 | a label has a column exactly when it is in the column table; a column is never empty and holds no `?` |
| Mappings.DisplayNameFor | GenAI_Extension_V2-main/server.py:65-76 | an unknown label passes through unchanged; a label with a column maps to that column's name |
| Mappings.ColumnMappingIsSubMap | GenAI_Extension_V2-main/server.py:51-76 | the column table is a sub-map of the payload-key table, which adds only the project-name label (mapped to `project_name`) |
| Mappings.MetricMappingIsIdentity | GenAI_Extension_V2-main/server.py:83-97 | every whitelisted metric keeps its name |
| FilterValues.Clean | GenAI_Extension_V2-main/server.py:210 | the cleaned list holds exactly the elements that are neither empty nor "(All)", and is no longer than the input |
| FilterValues.CleanIdempotent | GenAI_Extension_V2-main/server.py:374 | cleaning twice is cleaning once |
| FilterValues.CleanAppend | GenAI_Extension_V2-main/server.py:210 | cleaning keeps order: cleaning a concatenation concatenates the cleaned parts |
| Strings.SortedSet | GenAI_Extension_V2-main/server.py:529 | the result is strictly ascending and has exactly the elements of the input |
| Strings.ContainsAt | GenAI_Extension_V2-main/app.js:322 | `includes` holds exactly when the needle occurs at some position |
| Strings.StripBrackets | GenAI_Extension_V2-main/app.js:320-321 | no bracket is left, exactly the non-bracket characters of the input occur in the result, and a string without brackets comes back unchanged |
| Strings.StripAppend | GenAI_Extension_V2-main/app.js:320-321 | stripping distributes over concatenation, so every other character keeps its place and multiplicity |
| Dicts.Put | GenAI_Extension_V2-main/server.py:350 | assignment keeps an existing key in place or appends a new one; maps the key to the value; leaves other keys alone; keeps keys distinct |
| Dicts.FromPairs | GenAI_Extension_V2-main/server.py:346-351 | a dictionary filled by assignments has its keys in first-assignment order, and each key holds the last value assigned to it |
| Dicts.SetDefaults | GenAI_Extension_V2-main/server.py:381-382 | the key set becomes the union; existing values are kept; new keys hold the default; nothing changes when every key is present |
| Dicts.SetDefault | GenAI_Extension_V2-main/server.py:382 | an absent key is appended with the default; a present key keeps its value and place; other keys are untouched; keys stay distinct |
| QueryBuilder.BuildQuery | GenAI_Extension_V2-main/server.py:158-226 | the SQL text and parameters are those of the base predicate, then the period clause, then each filter's clause in order; the number of `?` equals the number of parameters |
| QueryBuilder.AppendFilter | GenAI_Extension_V2-main/server.py:194-221 | one loop iteration appends exactly that filter's contribution to the text and to the parameters |
| QueryBuilder.PlaceholdersMatchParams | GenAI_Extension_V2-main/server.py:171-226 | for any filters and period, the `?` count of the SQL equals the parameter count |
| QueryBuilder.PeriodIffBothBounds | GenAI_Extension_V2-main/server.py:171-190 | the base `date IS NOT NULL` clause comes first; a BETWEEN clause is present exactly when both bounds are truthy, and then it is second and binds `[start, end]` |
| QueryBuilder.PeriodParams | GenAI_Extension_V2-main/server.py:184-190 | the parameters start with `[start, end]` when both bounds are truthy and are the filters' parameters alone otherwise |
| QueryBuilder.FilterSkipped | GenAI_Extension_V2-main/server.py:196-221 | a filter adds nothing exactly when its label is unmapped, its value is falsy or "(All)", it is a list whose cleaned form is empty, or it is neither list nor string |
| QueryBuilder.Placeholders | GenAI_Extension_V2-main/server.py:212 | the placeholder list holds exactly one `?` per value |
| QueryBuilder.FilterClause | GenAI_Extension_V2-main/server.py:196-221 | a filter yields a clause only when its label has a column, and the clause binds at least one value, none of them empty or "(All)" |
| QueryBuilder.ListFilterClause | GenAI_Extension_V2-main/server.py:209-214 | a mapped list with a non-empty cleaned form adds one `IN` clause with exactly one `?` per cleaned value, binding the cleaned values in order |
| QueryBuilder.StringFilterClause | GenAI_Extension_V2-main/server.py:218-220 | a mapped string other than "" and "(All)" adds one `= ?` clause binding that string |
| QueryBuilder.FilterClausesAreColumnPredicates | GenAI_Extension_V2-main/server.py:194-221 | filters only ever add `IN` or `=` column predicates |
| QueryBuilder.ParamsFollowFilterOrder | GenAI_Extension_V2-main/server.py:194-221 | the parameters are those of the earlier filters, then this filter's, then the later filters' |
| QueryBuilder.NoFilterPredicates | GenAI_Extension_V2-main/server.py:194-221 | no filter clause is emitted exactly when every filter contributes nothing |
| QueryBuilder.CountOfClauses | GenAI_Extension_V2-main/server.py:181-226 | when each clause's text has as many `?` as it binds parameters, so does the whole query |
| QueryBuilder.OneInfraInJanuary | GenAI_Extension_V2-main/server.py:158-226 | project "(All)" plus infra `["INFRA1"]` over January 2024 gives the base, BETWEEN and `redmine_infra IN (?)` clauses with parameters `2024-01-01, 2024-01-31, INFRA1` |
| QueryBuilder.SkippedThenOne | GenAI_Extension_V2-main/server.py:158-226 | over a full period, a skipped filter followed by one contributing a single clause gives the base clause, the BETWEEN clause and that clause, with parameters the two bounds then the clause's own |
| Pivot.Trunc | GenAI_Extension_V2-main/server.py:326 | `astype(int)` truncates toward zero |
| Pivot.ToCells | GenAI_Extension_V2-main/server.py:277-306 | at most one cell per row and exactly one when every metric is whitelisted; every cell's metric is a mapped name |
| Pivot.ToCellsMembers | GenAI_Extension_V2-main/server.py:285-306 | every whitelisted row yields its standardised, renamed, coerced cell, and every cell comes from such a row |
| Pivot.ToCellsAppend | GenAI_Extension_V2-main/server.py:277-306 | the conversion is row by row: it distributes over concatenation, so cells keep the rows' order |
| Pivot.FirstValue | GenAI_Extension_V2-main/server.py:311-316 | a `(date, metric)` cell has a value exactly when some cell for the pair has a value, and that value comes from the input |
| Pivot.FirstValueIsEarliest | GenAI_Extension_V2-main/server.py:315 | `aggfunc='first'`: the cell is the earliest non-missing value for its pair |
| Pivot.UnparseableIsMissing | GenAI_Extension_V2-main/server.py:306 | a value that fails to coerce is missing, not 0: removing it changes no cell |
| Pivot.PivotFirst | GenAI_Extension_V2-main/server.py:311-316 | the index is the sorted dates with some value; the columns are the sorted metrics with some value; every cell is the first value |
| Pivot.FillNa | GenAI_Extension_V2-main/server.py:322 | the shape is kept and a missing cell becomes 0 |
| Pivot.ConvertColumns | GenAI_Extension_V2-main/server.py:324-326 | the loop over the columns truncates every cell, keeping the shape |
| Pivot.Records | GenAI_Extension_V2-main/server.py:331-332 | one record per index date, in order, whose fields are the columns in order with their cells |
| Pivot.ProcessDataToMetrics | GenAI_Extension_V2-main/server.py:261-338 | the records are those of the pivot specification, using the whitelist table |
| Pivot.NoRowsNoRecords | GenAI_Extension_V2-main/server.py:266-270 | no rows give no records |
| Pivot.NoWhitelistedMetricNoRecords | GenAI_Extension_V2-main/server.py:285-297 | rows with no whitelisted metric give no records |
| Pivot.NoCellsIffNoWhitelisted | GenAI_Extension_V2-main/server.py:285-297 | the filtered table is empty exactly when no row has a whitelisted metric |
| Pivot.IgnoresUnknownMetrics | GenAI_Extension_V2-main/server.py:291 | a row with a metric outside the whitelist changes no record |
| Pivot.LaterDuplicateIgnored | GenAI_Extension_V2-main/server.py:311-316 | a row for a date and metric that an earlier row already gave a value changes no record, wherever it sits after that row (rows may follow it) |
| Pivot.UnparseableRowIgnored | GenAI_Extension_V2-main/server.py:306-316 | a row whose value does not coerce changes no record |
| Pivot.AllUnparseableNoRecords | GenAI_Extension_V2-main/server.py:306-316 | when no value coerces, there are no records |
| Pivot.RecordDatesAscending | GenAI_Extension_V2-main/server.py:331 | record dates are strictly ascending |
| Pivot.RecordDates | GenAI_Extension_V2-main/server.py:277-316 | there is a record for a date exactly when some whitelisted row with a coercible value has that normalised date; no date is invented |
| Pivot.RecordFields | GenAI_Extension_V2-main/server.py:301-332 | every record has the same sorted field names, namely the mapped names of the whitelisted metrics that have a value somewhere |
| Pivot.RecordValue | GenAI_Extension_V2-main/server.py:311-326 | each field is the truncated first value for its date and metric, or 0 when there is none |
| Pivot.FirstWinsScenario | GenAI_Extension_V2-main/server.py:261-338 | rows `TestCaseActual` 10, then 99, then an unknown metric, all on 2024-01-01, give the single record `{date: 2024-01-01, TestCaseActual: 10}` |
| Pivot.FirstWinsOverUnknown | GenAI_Extension_V2-main/server.py:261-338 | two whitelisted rows for one date and metric followed by a row of an unlisted metric give one record holding only the first row's value |
| Payload.NormalizeFilterNames | GenAI_Extension_V2-main/server.py:341-351 | the result is the dictionary filled by assigning each value under its mapped name, in order |
| Payload.RenamedKeys | GenAI_Extension_V2-main/server.py:346-351 | the keys are distinct and are exactly the mapped names of the input labels |
| Payload.RenamingLastWins | GenAI_Extension_V2-main/server.py:349-350 | a renamed key holds the value of the last label mapped to it; an unmapped label keeps its own name |
| Payload.BackendValue | GenAI_Extension_V2-main/server.py:368-379 | a backend filter value never contains "" or "(All)" |
| Payload.NormalizeFiltersForBackend | GenAI_Extension_V2-main/server.py:354-384 | the result is the converted entries in order, with each missing required key then set to `[]` |
| Payload.ConvertValues | GenAI_Extension_V2-main/server.py:367-379 | the first loop yields the dictionary filled by assigning each key its cleaned list, in the filters' order |
| Payload.DefaultMissing | GenAI_Extension_V2-main/server.py:381-382 | the second loop yields the converted dictionary with each of the given keys set to `[]` unless already present |
| Payload.BackendKeys | GenAI_Extension_V2-main/server.py:359-384 | the keys are distinct and are exactly the input keys plus the five required keys |
| Payload.BackendValuesClean | GenAI_Extension_V2-main/server.py:368-382 | no value of the result contains "" or "(All)" |
| Payload.ExistingKeyKept | GenAI_Extension_V2-main/server.py:368-382 | a key that is already present keeps its converted value; `setdefault` does not overwrite it |
| Payload.MissingRequiredKeyEmpty | GenAI_Extension_V2-main/server.py:381-382 | a missing required key is added holding `[]` |
| Payload.BackendIdempotent | GenAI_Extension_V2-main/server.py:354-384 | normalising the normalised filters again changes nothing |
| Payload.BuildBackendPayload | GenAI_Extension_V2-main/server.py:387-425 | the payload holds the given id, timestamp and mode, the given period and records, and the filters renamed then normalised; `user_question` is present exactly when it is truthy |
| AskAi.EnvOr | GenAI_Extension_V2-main/server.py:33-34 | an environment variable that is set wins over the default |
| AskAi.ConfigFrom | GenAI_Extension_V2-main/server.py:33-34 | the base URL and prefix are the environment's values when set, else `http://localhost:7071` and `/api/v1` |
| AskAi.AnalysisEndpoint | GenAI_Extension_V2-main/server.py:36 | the URL starts with the base URL then the prefix and ends with `/analysis` |
| AskAi.AssistantEndpoint | GenAI_Extension_V2-main/server.py:37 | the URL starts with the base URL then the prefix and ends with `/assistant` |
| AskAi.DefaultEndpoints | GenAI_Extension_V2-main/server.py:33-37 | with no environment variables the endpoints are `http://localhost:7071/api/v1/analysis` and `.../assistant` |
| AskAi.EffectiveMode | GenAI_Extension_V2-main/server.py:537 | a truthy top-level `mode_type` wins; otherwise the `request_meta` mode, or none without `request_meta` |
| AskAi.EndpointsDiffer | GenAI_Extension_V2-main/server.py:36-37 | the analysis and assistant endpoints of a configuration are different URLs |
| AskAi.SelectEndpoint | GenAI_Extension_V2-main/server.py:537-541 | the assistant endpoint is chosen exactly when the effective mode is "AI Assistant", and the analysis endpoint otherwise |
| AskAi.RecordDateList | GenAI_Extension_V2-main/server.py:527 | the dates taken are exactly the non-empty record dates |
| AskAi.EffectivePeriod | GenAI_Extension_V2-main/server.py:521-531 | with no record dates, the request's period (or none); otherwise the start is the least record date and the end the greatest, both taken from the records |
| AskAi.PeriodOfAscendingRecords | GenAI_Extension_V2-main/server.py:521-531 | for records with ascending non-empty dates, as the pivot produces, the period runs from the first record's date to the last one's |
| AskAi.CallBackend | GenAI_Extension_V2-main/server.py:428-473 | success exactly on a 200 with a JSON body; another status fails with that status and "Backend API error: " plus the text; a timeout fails with 504; a connection failure fails with 503 and its reason |
| AskAi.FailureKindsDistinct | GenAI_Extension_V2-main/server.py:452-473 | for any non-200 backend status, the HTTP error keeps that status and the timeout and connection failure get 504 and 503; the three details are pairwise different, so the relayed detail always tells the kinds apart |
| AskAi.MessageOf | GenAI_Extension_V2-main/server.py:561-563 | the answer text is the body's `message` when it is an object that has one, and "" otherwise |
| AskAi.Relay | GenAI_Extension_V2-main/server.py:550-619 | a backend body becomes a 200 answer; a backend HTTP error becomes a 200 reply with the endpoint and the detail; any other failure becomes a 500 |
| AskAi.BoomIsRelayed | GenAI_Extension_V2-main/server.py:458-463 | a backend 500 with body "boom" reaches the caller as status 200, with the endpoint and a detail that contains "boom" |
| AskAi.AskAi | GenAI_Extension_V2-main/server.py:482-619 | a database failure gives a 500; no records give the 200 "no data" reply and no backend call; otherwise one call is made to the selected endpoint, carrying the data's period, the records and the filters renamed and normalised, and its outcome is relayed |
| Extension.FindSheet | GenAI_Extension_V2-main/app.js:246 | none exactly when no sheet has the main name; otherwise the first sheet with that name |
| Extension.CollectRawFilters | GenAI_Extension_V2-main/app.js:260-296 | the `forEach` loop assigns each filter that is not ignored, in order |
| Extension.GetRawFilters | GenAI_Extension_V2-main/app.js:243-297 | a missing main sheet is an error; otherwise the result is the map of the sheet's filters |
| Extension.RawKeys | GenAI_Extension_V2-main/app.js:264-292 | the keys are distinct and are exactly the names of the filters that are not ignored; "Measure Names", "Metric Name Set" and "Filter_Weekend" never appear |
| Extension.RawEntry | GenAI_Extension_V2-main/app.js:283-292 | an entry is `["(All)"]` when everything is selected, and otherwise the formatted applied values in order; the last filter with a name wins |
| Extension.FindColumn | GenAI_Extension_V2-main/app.js:319-323 | -1 exactly when no column matches; otherwise the first column whose bracket-stripped name equals or contains the bracket-stripped filter name |
| Extension.ColumnMatchesBrackets | GenAI_Extension_V2-main/app.js:319-323 | a column matches its own name, and square brackets around either name do not change whether it matches |
| Extension.CollectUniqueValues | GenAI_Extension_V2-main/app.js:329-333 | the loop yields the distinct values of the column among the first `min(rows, 500)` rows, in first-occurrence order |
| Extension.EnrichFiltersWithData | GenAI_Extension_V2-main/app.js:301-363 | a missing sheet is an error; otherwise every entry is replaced in place by its enriched value, under the same key |
| Extension.EnrichEntry | GenAI_Extension_V2-main/app.js:315-350 | one entry's reassignment, if any, is exactly its enriched value; when there is none the enriched value is the entry as it was |
| Extension.Enriched | GenAI_Extension_V2-main/app.js:315-350 | an entry either stays, or it started with "(All)" and becomes between 1 and 9 values, exactly the scanned values of its matching column |
| Extension.EnrichKeepsOthers | GenAI_Extension_V2-main/app.js:314-315 | the key set and its order are unchanged, and entries not starting with "(All)" are untouched |
| Extension.NoMatchUnchanged | GenAI_Extension_V2-main/app.js:325 | with no matching column or no rows, the entry stays |
| Extension.AllEntryEnrichment | GenAI_Extension_V2-main/app.js:325-349 | an "(All)" entry with a matching column and some rows becomes the distinct values of the first 500 rows exactly when there are fewer than ten of them, and stays otherwise; there is at least one such value |
| Extension.ServerMode | GenAI_Extension_V2-main/app.js:109 | "Analyze_Data" becomes "Analyze Report" and any other mode becomes "AI Assistant" |
| Extension.HandleProcess | GenAI_Extension_V2-main/app.js:54-123 | chat mode with a blank question fails before any filter is read; otherwise dashboard errors propagate; the payload carries the collected filters, the server mode, open period bounds, and `user_question` exactly in chat mode |
| Extension.BlankIffTrimmedEmpty | GenAI_Extension_V2-main/app.js:73 | `!userQuestion.trim()` holds exactly when every character is whitespace, with trim defined as trimming both ends |
| Extension.ModeSelectsEndpoint | GenAI_Extension_V2-main/app.js:109-117 | the analyze button reaches the server's analysis endpoint and any other mode the assistant endpoint |

## Left out

- Database access (`pyodbc`, `pd.read_sql`) is I/O. `AskAi.AskAi` takes the query's outcome as a function of the SQL text and parameters.
- The HTTP POST (`httpx`, its 60-second timeout, the request headers) is network I/O. `AskAi.AskAi` takes the backend's outcome as a function of the endpoint and payload.
- `generate_request_id` (a UUID) and `get_iso_timestamp` (the clock) are nondeterministic, so their values are parameters.
- The HTML of every reply (`answer`) is presentation and is left out. `AskAi.Reply` keeps the status and the information the text carries.
- The 500 reply's error text (`str(e)`) is not modelled.
- `AskAi.MessageOf`: a backend `message` that is not a string (say, a number) is treated as absent.
- `FilterValues.FilterValue`: a list value holds only strings. A JSON list with a truthy item that is not a string makes the `', '.join` of server.py:215 raise, which leads to the 500 reply (server.py:604-613). The model does not represent such a list, so it does not capture that error, nor that `normalize_filters_for_backend` would keep such an item.
- `Extension.GetRawFilters` models only categorical filters, which carry `appliedValues`. A range or relative-date filter has none, so the `map` at app.js:288 throws. That error path is not modelled.
- `Pivot.Trunc`: metric values are exact reals, not 64-bit floats, so rounding, NaN and infinity are not modelled.
- Date normalisation (`pd.to_datetime(...).strftime`) and numeric coercion (`pd.to_numeric(errors='coerce')`) are function parameters.
- A date that does not parse makes pandas raise, leading to the 500 reply. The model's normaliser is total, so this error path is not modelled.
- `Pivot.Records`: the record's field order follows pandas' sorted column order. A JSON consumer sees the fields as a set.
- `DEBUG_MODE` is the constant `False` (server.py:45), so its branch is dead and not modelled.
- Logging (`print`, `console.log`) is not modelled.
- CORS setup, static file serving and server start-up are not modelled.
- JavaScript objects list integer-like keys before other keys. The model keeps plain insertion order for every key, as a Python `dict` does.
- `Extension.EnrichFiltersWithData` returns the updated map. That the caller's object is the same object, updated by aliasing, is not modelled.
- `Extension.EnrichFiltersWithData` requires each summary row to have one cell per column, as Tableau supplies them. A short row, which would throw in JavaScript, is not modelled.
- The DOM work of `handleProcess` is not modelled: the status text, the result container, clearing the chat input, and the error shown when an exception is caught.
- `sendToBackend` (the `fetch` call to `/ask-ai`) is network I/O.
- `Extension.JsWhitespace` lists the WhiteSpace and LineTerminator characters of ECMAScript, the ones `String.prototype.trim` removes. Other Unicode space separators added in later Unicode versions are not tracked.
- The Azure Functions backend returns canned responses. Only its schema's required filter keys are reflected, in `Payload.RequiredKeys`.
- `test_backend_api.py` is a manual connectivity script and is not modelled.
