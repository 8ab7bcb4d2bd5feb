# Airbyte job history and Monday connector — a Dafny model

This project models two independent pieces of Airbyte.

**Job history (`JobHistoryHandler`).** This is the read side of the scheduler. It turns persisted jobs and their attempts into the API views `JobRead`, `AttemptRead` and `JobInfoRead`. It does this for the two entry points `listJobsFor` and `getJobInfo`. The handler's collaborators are parameters of the model:

- the job persistence queries `listJobs` and `getJob`;
- the log tail reader `IOs.getTail`;
- the scope helper `ScopeHelper.getConfigId`;
- the reflective enum conversions `Enums.convertTo`.

The scheduler and API enumerations are opaque types, because their members are defined outside this model.

**Monday connector (`source_monday/source.py`).** This is the decision logic of the connector's HTTP streams:

- the retry predicate;
- the page counter and the page token;
- the GraphQL query string;
- the selection list built from a stream's JSON schema;
- the choice of API token from the config;
- the list of streams the source offers.

Decoded JSON is modelled as a `Json` datatype, together with the Python semantics the code relies on: truthiness, `dict.get`, subscripts, `in`, iteration, `str.join` and `str(int)`.

Files:

- `wrappers.dfy`: `Option` and `Result`.
- `seqs.dfy`: element-wise `Map`, `Join`, `Split`, and the split/join round trip.
- `py_values.dfy`: JSON values and Python built-ins.
- `job_history.dfy`: the job-history handler.
- `monday.dfy`: the connector.

## Model

| member | source | states |
|---|---|---|
| JobHistory.GetAttemptRead | airbyte-server/src/main/java/io/airbyte/server/handlers/JobHistoryHandler.java:95-110 | id, createdAt and updatedAt are copied, and status is the converted attempt status; endedAt is present iff the attempt has one, with the same value; recordsSynced and bytesSynced are both set iff the output → sync → summary chain is complete, both from that summary, otherwise both absent (no zero) |
| JobHistory.AttemptReadIgnoresLogPath | airbyte-server/src/main/java/io/airbyte/server/handlers/JobHistoryHandler.java:95-110 | nothing but the copied fields influences an attempt's view: log path and job id do not |
| JobHistory.GetJobRead | airbyte-server/src/main/java/io/airbyte/server/handlers/JobHistoryHandler.java:112-125 | id and timestamps copied; configId is the scope helper's answer for the job's scope; config type and status converted; one attempt view per attempt, same length, element i is the view of attempt i |
| JobHistory.GetLogRead | airbyte-server/src/main/java/io/airbyte/server/handlers/JobHistoryHandler.java:87-93 | asks for exactly LOG_TAIL_SIZE = 100 lines of the attempt's own log path; returns those lines, or fails with the IOException wrapped as a runtime failure |
| JobHistory.GetAttemptInfoRead | airbyte-server/src/main/java/io/airbyte/server/handlers/JobHistoryHandler.java:81-85 | pairs the attempt's view with its log tail; fails exactly when that attempt's log read fails |
| JobHistory.GetAttemptInfoReads | airbyte-server/src/main/java/io/airbyte/server/handlers/JobHistoryHandler.java:78 | succeeds iff every attempt's log is readable, then one pair per attempt in order; otherwise fails with the error of the first unreadable log, no partial list |
| JobHistory.GetJobInfo | airbyte-server/src/main/java/io/airbyte/server/handlers/JobHistoryHandler.java:73-79 | a failing fetch fails with the persistence IOException; otherwise it succeeds iff all logs are readable, its job field is the job's JobRead, and attempt i pairs attempt i's view with the 100-line tail of its log; on failure the error is the first unreadable log's |
| JobHistory.OneUnreadableLogFailsJobInfo | airbyte-server/src/main/java/io/airbyte/server/handlers/JobHistoryHandler.java:87-93 | any single unreadable log fails the whole getJobInfo with a log-read error |
| JobHistory.InfoAttemptsMatchJobRead | airbyte-server/src/main/java/io/airbyte/server/handlers/JobHistoryHandler.java:76-78 | in a JobInfoRead, the detailed attempt list and the embedded JobRead's attempt list have the same length and agree element by element |
| JobHistory.ListJobsFor | airbyte-server/src/main/java/io/airbyte/server/handlers/JobHistoryHandler.java:61-71 | queries persistence with the converted config type and the request's config id; one JobRead per listed job in persistence order, or the persistence failure; takes no log reader, so it performs no log reads |
| JobHistory.ListAndDetailAgree | airbyte-server/src/main/java/io/airbyte/server/handlers/JobHistoryHandler.java:61-79 | a job shown in a listing and fetched by id gets the same JobRead in both views |
| Seqs.Map | airbyte-server/src/main/java/io/airbyte/server/handlers/JobHistoryHandler.java:124 | the stream map keeps length and order, and element i is the function applied to element i |
| Monday.RecordsValue | airbyte-integrations/connectors/source-monday/source_monday/source.py:28-29 | a non-JSON body fails to decode; a body that is not a dict raises AttributeError; a missing `data` or a missing stream key gives an empty list |
| Monday.ShouldRetryAsWritten | airbyte-integrations/connectors/source-monday/source_monday/source.py:52-56 | answers iff the body is a JSON dict, and then retries iff the status is 429 or 5xx or the body's `errors` value is truthy |
| Monday.ShouldRetryAsWrittenRaisesOnServerErrorPage | airbyte-integrations/connectors/source-monday/source_monday/source.py:55-56 | a 503 response with a body that is not JSON raises instead of being retried |
| Monday.ShouldRetry | airbyte-integrations/connectors/source-monday/source_monday/source.py:52-56 | corrected: 429 and 5xx are always retried; any other status is retried iff its JSON dict body has a truthy `errors` value |
| Monday.ShouldRetryAgreesWhereAsWrittenAnswers | airbyte-integrations/connectors/source-monday/source_monday/source.py:52-56 | the correction only changes answers where the original raised |
| Monday.NextPageToken | airbyte-integrations/connectors/source-monday/source_monday/source.py:27-32 | for paginating streams the page goes up by exactly 1 on every successful call, and the result is `{pagination_field: new page}` iff the records value is truthy; Teams and Users return no token and keep their page |
| Monday.ParseResponse | airbyte-integrations/connectors/source-monday/source_monday/source.py:75-78 | a non-JSON body raises the decode error; a body or `data` that is not a dict raises AttributeError; a missing `data` or stream entry yields nothing; a list entry yields its items, a dict its keys, a string its characters; null, bool or number raises TypeError; it yields at least one record iff the entry `next_page_token` inspects is truthy |
| Monday.NextPageIffRecordsParsed | airbyte-integrations/connectors/source-monday/source_monday/source.py:27-32 | whenever parsing succeeds, a paginating stream offers a next page iff the parsed page held at least one record |
| Monday.PageCounterCountsCalls | airbyte-integrations/connectors/source-monday/source_monday/source.py:23-32 | after n successful calls the page counter has moved by n, and the i-th token, when present, names page start + i + 1, so tokens strictly increase |
| Monday.UnpaginatedStreamsStayPut | airbyte-integrations/connectors/source-monday/source_monday/source.py:100-123 | Teams and Users never raise, never offer a token and never move their page, over any number of calls |
| Monday.PropertyEntry | airbyte-integrations/connectors/source-monday/source_monday/source.py:44-49 | a dict property with nested `properties` becomes `col{k1,k2,...}` with the nested keys in order; a dict without them becomes `col`; null, bool and number schemas raise TypeError, and so does a string schema containing "properties" |
| PyValues.Contains | airbyte-integrations/connectors/source-monday/source_monday/source.py:45 | Python's `in`: on a dict, key membership; on a string, a substring at some offset; on a list, an equal string element; on null, a bool or a number, a TypeError |
| Monday.SchemaEntries | airbyte-integrations/connectors/source-monday/source_monday/source.py:43-49 | succeeds iff every property's entry does, then one entry per top-level property in order; otherwise fails with the error of the first property whose entry raises |
| Monday.LoadSchema | airbyte-integrations/connectors/source-monday/source_monday/source.py:42-50 | succeeds iff every top-level property's entry can be built; the selection is those entries joined by commas, in property order; otherwise the error of the first property whose entry raises |
| Monday.FlatSchemaSelection | airbyte-integrations/connectors/source-monday/source_monday/source.py:42-50 | for a flat schema, splitting the selection at commas gives back the property names in order |
| Seqs.SplitJoin | airbyte-integrations/connectors/source-monday/source_monday/source.py:50 | joining with a separator that no part contains loses nothing: splitting recovers the parts |
| Monday.RequestParams | airbyte-integrations/connectors/source-monday/source_monday/source.py:62-73 | exactly one `query` parameter; without a truthy token it is `query { name { schema } }`, with one `query { name (k:v,...) { schema } }`; fails iff building the schema selection fails; stream state and slice play no part |
| Monday.PagedQueryInsertsArguments | airbyte-integrations/connectors/source-monday/source_monday/source.py:66-72 | the paged query is the first-page query with ` (args)` inserted right after the stream name |
| Monday.NextQueryCarriesNewPage | airbyte-integrations/connectors/source-monday/source_monday/source.py:30-70 | the token from `next_page_token` becomes the single argument `field:page` of the next query, carrying the page just counted |
| Monday.PageReadsBackFromArgument | airbyte-integrations/connectors/source-monday/source_monday/source.py:66-70 | splitting the next query's `field:page` argument at the colon gives the pagination field and the decimal page, and the digits read back as the page just counted |
| Monday.GetAuth | airbyte-integrations/connectors/source-monday/source_monday/source.py:127-139 | empty credentials or `api_token`: the credentials' token if truthy, else the config's, failing if neither is truthy; `oauth2.0`: the credentials' access token, failing if absent; any other method, a missing one included, is rejected; non-dict credentials raise |
| Monday.CredentialsTokenOverridesConfigToken | airbyte-integrations/connectors/source-monday/source_monday/source.py:129-135 | under the `api_token` method or with empty credentials, a truthy credentials token is selected whatever the config's top-level `api_token` holds |
| Monday.GetAuthReadsOnlyCredentialsAndToken | airbyte-integrations/connectors/source-monday/source_monday/source.py:128-139 | two configs that agree on `credentials` and on the top-level `api_token` get the same token or the same failure |
| Monday.Streams | airbyte-integrations/connectors/source-monday/source_monday/source.py:155-163 | exactly Items, Boards, Teams, Updates and Users in that order, each on page 1 with the selected token; fails exactly when `get_auth` fails |
| Monday.StreamsFirstTokenNamesPageTwo | airbyte-integrations/connectors/source-monday/source_monday/source.py:97-123 | of the five offered streams, exactly Teams and Users never paginate and only Boards uses `pageInt`; Teams and Users return no token; the first token any stream hands out names page 2 |

## Notes on the handler's behaviour

- Listing jobs reads no logs. `getJobRead` maps `getAttemptRead` over the attempts, and `getAttemptRead` never calls `getLogRead`.
- An unknown job id raises whatever `JobPersistence.getJob` raises. The handler adds no not-found error of its own. The persistence exception is modelled as `PersistenceIo`.
- A failed log read is an `IOException` rethrown inside a `RuntimeException`. It is modelled as `LogReadRuntime`.
- Listed jobs keep the order `listJobs` returns them in. The handler does not sort them.
- `configId` is whatever `ScopeHelper.getConfigId` returns for the job's scope. That helper is a parameter here, so no round trip between scope and config id is claimed.

## Left out

- `CockroachDbSourceAcceptanceTest.java`: container and database test setup, with no behaviour of its own.
- Internals of job persistence, `IOs.getTail` and `ScopeHelper.getConfigId`: that code is not part of this model. They are function parameters. No bound on the number of tail lines and no scope round trip are claimed.
- `Enums.convertTo`: modelled as a total function per pair of enumerations. The exception it raises for a constant with no counterpart is not modelled.
- Invariants between attempt numbering, status, `endedAt` and output: the handler neither checks nor relies on them.
- Java `null` is modelled only along the output → sync → summary chain and for the optional `endedAt`. Other fields are assumed set.
- Java `long` ids and timestamps are unbounded integers. They are only copied, never computed with, so no overflow can arise.
- `check_connection`, HTTP requests and `TokenAuthenticator`: these are network and library calls. `get_auth` returns the selected token value.
- In `load_schema`, the file read, the JSON parse and the `schema_dict["properties"]` lookup are left out. The model starts from the ordered `properties` object.
- `TypeTransformer`, `retry_factor`, `url_base`, `primary_key` and `path`: backoff timing and constants that the modelled logic does not use.
- Stream names are written out (`items`, `boards`, …). The CDK derives them from the class names, and that code is not part of this model.
- Floats: JSON numbers are modelled as integers. A float would matter to the modelled logic only through its truthiness, for example a `0.0` as the `errors` value, the records value or a token value.
- Duplicate object keys: `Lookup` returns the first match, while Python's decoder keeps the last. The model assumes decoded objects have distinct keys.
- Monday.ShouldRetryAsWritten: for a status other than 429 or 5xx, `should_retry` returns the `errors` value itself (`None`, a list, …) rather than a bool. The model returns its truth value, which is all the caller uses.
- `Monday.NextPageTokens` feeds responses one after another to `next_page_token`. The CDK's own read loop, which stops at the first missing token, is not modelled.

## Findings

| source | as written | input that shows it | evidently intended | confidence | as-written member | corrected member |
|---|---|---|---|---|---|---|
| airbyte-integrations/connectors/source-monday/source_monday/source.py:55-56 | `response.json()` is evaluated before the status code is checked | a 503 response whose body is an HTML error page: decoding raises, so the request is not retried | 429 and 5xx responses are retried whatever their body; the `errors` check only adds a reason to retry | medium, not executed | Monday.ShouldRetryAsWritten | Monday.ShouldRetry |
