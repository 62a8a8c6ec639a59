# mssql-server-mcp query gateway, modelled in Dafny

This project models the core of the SQL Server gateway in `mssql-server-mcp`. That core has four parts:

- the connection manager (`MSSQLManager`);
- the query service;
- the stored-procedure service;
- the trigger service.

It also proves properties of that model.

**The manager** (`MssqlManager.Manager`, a class updated in place):
- Loading the configuration from the environment is the function `LoadConfig`. It takes the environment as a map and `parseInt` as a parameter.
- It holds at most one pool at a time.
- It records every request sent to the driver in `calls`. Each request is the SQL text plus its bound parameters.
- It records every pool creation, open and close in `poolLog`.
- The class invariant `Valid()` says that every pool not yet closed successfully is the pool it holds. So at most one pool is ever live.

**The driver** is an oracle, `respond: (history, call) -> Result<QueryResult, string>`. Its answer may depend on every request sent before. Whether a pool close or open succeeds is a method parameter, `Ack`.

**The services** are classes that hold the manager:
- `Queries.QueryService`
- `StoredProcedures.StoredProcedureService`
- `Triggers.TriggerService`

Each service method changes only `db.calls`. Its contract says that the pair (reply, request trace) equals a specification function of:
- whether a pool is held;
- the oracle;
- the trace before the call;
- the method's arguments.

Lemmas about those functions state what the source promises. Among them:
- the statement-kind gate admits exactly the six kinds the classifier names;
- a transaction is BEGIN, then every statement in order, then COMMIT, or it ends in ROLLBACK;
- the reply envelopes carry the fields each statement kind calls for;
- parameters are bound exactly when they have a name and a defined value;
- the driver receives no `undefined` configuration entries;
- the `EXEC` text can be split back into its parameter assignments;
- splitting a trigger's events column, which the catalog query builds with `CASE`, gives back exactly the events it fires on.

JavaScript values are the `JsValues.Json` datatype, and `Truthy` follows JavaScript's rules. Errors are the `Errors.Error` datatype. `Message` renders an error as the text the source throws, with the stage prefix each service puts in front of the driver's message.

## Model

| member | source | states |
|---|---|---|
| Strings.TrimSpec | src/services/query-service.ts:9-13 | `.trim()` never lengthens its input. A trimmed non-empty string starts and ends with a non-whitespace character. The result is empty exactly when the input is all whitespace, which is the `!queryText.trim()` test. |
| Strings.TrimIdempotent | src/services/query-service.ts:13 | Trimming twice is trimming once, so the text that was already trimmed for the gate is sent as is. |
| Strings.TrimLeadingWhitespace | src/services/query-service.ts:31 | Leading whitespace has no effect on the trimmed text. |
| Strings.LowerIdempotent | src/services/query-service.ts:31 | `toLowerCase` of a lower-cased string changes nothing. |
| Strings.TrimLowerCommute | src/services/query-service.ts:31 | Trimming and lower-casing commute, so `getQueryType` may apply them in either order. |
| Strings.JoinSplit | src/services/trigger-service.ts:54 | `split(', ')` followed by `join(', ')` gives back the original string. |
| Strings.SplitJoin | src/services/trigger-service.ts:54 | `join(', ')` followed by `split(', ')` gives back the list, provided no item contains a comma. |
| Strings.NatToStringRoundTrip | src/services/query-service.ts:51 | The decimal digits of an elapsed time read back as the same number. |
| Strings.Millis | src/services/query-service.ts:51 | `${executionTime}ms` ends in `ms` and has at least one digit before it. |
| MssqlManager.GetSqlTypeListed | src/database/mssql-manager.ts:212-247 | Each of the fifteen listed type names maps to its own SQL type. |
| MssqlManager.GetSqlTypeTable | src/database/mssql-manager.ts:212-247 | `getSqlType(s) == t` exactly when the lower-cased `s` is `t`'s name, or when `t` is `VarChar` and the name is not listed: the `default` branch. |
| MssqlManager.GetSqlTypeIgnoresCase | src/database/mssql-manager.ts:213 | The mapping does not depend on letter case. |
| MssqlManager.BindingsConcat | src/database/mssql-manager.ts:192-202 | Binding goes descriptor by descriptor: the bindings of a concatenation are the concatenation of the bindings. |
| MssqlManager.BindingsCount | src/database/mssql-manager.ts:192-202 | Exactly as many parameters are bound as there are descriptors with a name and a defined value. |
| MssqlManager.BindingsSound | src/database/mssql-manager.ts:192-202 | Every binding comes from a descriptor that has a name and a defined value. |
| MssqlManager.BindingsComplete | src/database/mssql-manager.ts:192-202 | Every such descriptor is bound, at the position given by the bindable descriptors before it. |
| MssqlManager.BindingsWellFormed | src/database/mssql-manager.ts:192-202 | A binding has a non-empty name and a defined value. It carries a SQL type exactly when its descriptor had a non-empty type name. |
| MssqlManager.BindParameters | src/database/mssql-manager.ts:192-202 | The loop over the descriptors binds exactly `Bindings` of the list, or of nothing when no list was given. |
| MssqlManager.LoadConfigDefaults | src/database/mssql-manager.ts:12-99 | An empty environment gives the defaults written in `loadConfig`: `localhost`, port 1433, `master`, `sa`, the timeouts, and pool sizes 10 and 0. |
| MssqlManager.LoadConfigFlags | src/database/mssql-manager.ts:15-72 | Each boolean option is on exactly when its variable is the string `true`. `useUTC` is the exception: it is off only when its variable is `false`. |
| MssqlManager.LoadConfigAuthentication | src/database/mssql-manager.ts:75-96 | Authentication is configured exactly when `MSSQL_AUTH_TYPE` is set and is not `default`. Its type is that value. Each option is present exactly when its variable is non-empty. |
| MssqlManager.LoadConfigEmptyIsUnset | src/database/mssql-manager.ts:15-96 | A variable set to the empty string loads the same configuration as an unset one, because the `||` fallbacks treat both alike. |
| MssqlManager.LoadConfigNumbers | src/database/mssql-manager.ts:15-72 | Each of the twelve numbers (port, the three timeouts, and the eight pool settings) is `parseInt` of its variable when the variable is set, and otherwise its literal default. |
| MssqlManager.PoolConfigEntries | src/database/mssql-manager.ts:107-137 | The configuration literal carries `options` and `domain`, and it carries `authentication` exactly when one is configured. |
| MssqlManager.StripUndefined | src/database/mssql-manager.ts:140-150 | Deleting the `undefined` properties keeps every defined property unchanged and removes all the others. |
| MssqlManager.PreparePoolConfig | src/database/mssql-manager.ts:107-150 | The object built for the driver is `DriverConfig` of the loaded configuration. |
| MssqlManager.DriverConfigClean | src/database/mssql-manager.ts:140-150 | The driver receives no `undefined` value, neither at the top level nor under `options`. |
| MssqlManager.DriverConfigOptional | src/database/mssql-manager.ts:107-150 | `authentication`, `domain`, `instanceName` and `workstationId` reach the driver exactly when they are configured. |
| MssqlManager.DriverConfigKeepsCredentials | src/database/mssql-manager.ts:107-150 | The password and the authentication block reach the driver unchanged. |
| MssqlManager.DriverConfigKeepsPool | src/database/mssql-manager.ts:107-150 | The pool settings reach the driver unchanged. |
| MssqlManager.DebugSummary | src/database/mssql-manager.ts:156-167 | The connection summary never holds the password. Its `authType` is `default` when no authentication is configured. |
| MssqlManager.LiveSnoc | src/database/mssql-manager.ts:101-182 | A creation adds a live pool, a successful close removes one, and nothing else changes the live set. |
| MssqlManager.CreateOpenLog | src/database/mssql-manager.ts:152-154 | Creating and opening a fresh pool when none is live leaves exactly that pool live. |
| MssqlManager.Manager.constructor | src/database/mssql-manager.ts:8-10 | A new manager holds the loaded configuration, no pool, and empty logs. |
| MssqlManager.Manager.AtMostOneLivePool | src/database/mssql-manager.ts:101-182 | Under the class invariant, at most one pool is ever live. |
| MssqlManager.Manager.IsConnected | src/database/mssql-manager.ts:249-251 | Connected implies that a pool is held. |
| MssqlManager.Manager.ConnectionInfoIsDriverTarget | src/database/mssql-manager.ts:253-260 | The reported server, port, database and user are the `server`, `port`, `database` and `user` entries of the configuration the driver is given, so the information names where a pool actually connects. |
| MssqlManager.Manager.OpenNewPool | src/database/mssql-manager.ts:152-154 | A fresh pool with the next id and the driver configuration is created and opened, and both are logged. A failed open leaves the pool held but not connected, and its error propagates. |
| MssqlManager.Manager.Connect | src/database/mssql-manager.ts:101-174 | An existing pool is closed first. If that close fails, its error propagates and the old pool is kept. Otherwise a fresh pool is opened. On success, exactly the new pool is live. |
| MssqlManager.Manager.Disconnect | src/database/mssql-manager.ts:176-182 | Without a pool, nothing happens. Otherwise the pool is closed and the close is logged. On success the pool is dropped; on failure the error propagates and the pool is kept. |
| MssqlManager.Manager.Query | src/database/mssql-manager.ts:184-210 | Without a pool, `NotConnected` is returned and nothing is sent. Otherwise exactly one request, the text with its bindings, is appended to the trace, and the driver's answer is returned. |
| Queries.ClassifySpec | src/services/query-service.ts:30-41 | The classifier names a kind exactly when the cleaned text starts with that kind's keyword. It gives `UNKNOWN` exactly when the text starts with no keyword. |
| Queries.GetQueryTypeSpec | src/services/query-service.ts:30-41 | The same statement for the raw text, after trimming and lower-casing. |
| Queries.KeywordSelects | src/services/query-service.ts:30-41 | A text that begins with a kind's keyword is of that kind, whatever follows. |
| Queries.LeadingWhitespaceIgnored | src/services/query-service.ts:31 | Leading whitespace does not change the kind. |
| Queries.CaseIgnored | src/services/query-service.ts:31 | Letter case does not change the kind. |
| Queries.TrimIgnored | src/services/query-service.ts:13-14 | Classifying the trimmed text gives the same kind as classifying the raw text. |
| Queries.BlankIsUnknown | src/services/query-service.ts:30-41 | A blank text is `UNKNOWN`. |
| Queries.AllowedIffKnown | src/services/query-service.ts:43-46 | The gate admits exactly the six kinds the classifier names, and never `UNKNOWN`. |
| Queries.FirstLetterDecides | src/services/query-service.ts:30-41 | A text whose first non-blank letter starts no keyword is `UNKNOWN`. |
| Queries.DropRejected | src/services/query-service.ts:30-46 | `DROP ...` is refused by the gate, after any whitespace prefix. |
| Queries.TransactionControlRejected | src/services/query-service.ts:30-46 | A user's `BEGIN`, `COMMIT` or `ROLLBACK` is refused, so transaction control stays with the service. |
| Queries.TruncateRejected | src/services/query-service.ts:30-46 | `TRUNCATE ...` is refused by the gate, after any whitespace prefix. |
| Queries.SumConcat | src/services/query-service.ts:67-69 | The total of affected rows adds up over concatenated count lists. |
| Queries.FormatCommonFields | src/services/query-service.ts:48-79 | Every envelope carries the kind, the `Nms` time and `success: true`. It carries `returnValue` exactly when the driver gave one. |
| Queries.FormatReadFields | src/services/query-service.ts:55-61 | A read kind carries the records and their count, and no row counts. |
| Queries.FormatWriteFields | src/services/query-service.ts:63-74 | A write kind carries `rowsAffected`, defaulting to `[0]`, and its sum. It carries records exactly when there are some, and no record count. |
| Queries.FormatUnknownFields | src/services/query-service.ts:48-89 | Any other kind carries only the common fields. |
| Queries.FormatSingleRow | src/services/query-service.ts:55-61 | A one-row select reports a count of 1 and that row. |
| Queries.FormatWriteWithoutCounts | src/services/query-service.ts:63-69 | An update whose result has no counts reports `[0]` and a total of 0. |
| Queries.ExecuteQueryGate | src/services/query-service.ts:7-28 | A blank text and an `UNKNOWN` text are refused without sending anything. An admitted text is sent trimmed, with its bindings. Nothing is sent unless a pool is held and the text is admitted. |
| Queries.ExecuteQueryOutcome | src/services/query-service.ts:7-28 | Every failure is wrapped under the query stage, and its message starts with that prefix. A success is the envelope of the driver's answer to exactly the one request sent. |
| Queries.FirstDisallowed | src/services/query-service.ts:97-102 | No refused statement is found exactly when every statement is admitted. A refused kind that is found is not admitted. |
| Queries.FirstDisallowedAt | src/services/query-service.ts:97-102 | The check reports the first refused statement. |
| Queries.RunStatementsSuccess | src/services/query-service.ts:110-117 | When every statement succeeds, the trace grows by exactly their requests, in order. |
| Queries.RunStatementsAllAnswered | src/services/query-service.ts:110-117 | When the driver answers every statement, the loop succeeds, sends every statement in order, and records each one's text with the driver's answer to it. |
| Queries.RunStatementsRecords | src/services/query-service.ts:110-117 | A statement loop that succeeds had every statement answered by the driver. The i-th executed record is the i-th statement's text together with the driver's answer to the i-th request. |
| Queries.RunStatementsFirstFailure | src/services/query-service.ts:110-117 | If the driver answers statements 1..k-1 and refuses statement k, the loop fails with that answer's message after sending exactly statements 1..k. |
| Queries.RunStatementsFailurePoint | src/services/query-service.ts:110-117 | A failed loop has a first statement the driver refused, after answering all earlier ones. |
| Queries.RunStatementsFailure | src/services/query-service.ts:110-117 | A failed loop stopped at some statement k that the driver refused after answering every earlier one. Statements 1..k were sent and nothing after, and the error is the driver's message for statement k. |
| Queries.RunStatementsNoPool | src/services/query-service.ts:110-117 | Without a pool, nothing is sent and `NotConnected` is the error. |
| Queries.TransactionGate | src/services/query-service.ts:91-107 | An empty list is refused without sending anything. Nothing is sent unless a pool is held and every statement is admitted. Without a pool, an admitted list fails as not connected. |
| Queries.TransactionCommittedTrace | src/services/query-service.ts:107-119 | A committed transaction sent exactly `BEGIN TRANSACTION`, every statement in order, then `COMMIT TRANSACTION`. |
| Queries.TransactionCommittedSummary | src/services/query-service.ts:123-139 | The committed reply is the summary of the statements as executed after `BEGIN`. |
| Queries.TransactionReportsClasses | src/services/query-service.ts:123-139 | The i-th result reports the kind of the i-th statement. |
| Queries.TransactionBeginFails | src/services/query-service.ts:107-146 | A refused `BEGIN` is not rolled back. The transaction fails with its message and nothing else is sent. |
| Queries.TransactionStatementFails | src/services/query-service.ts:107-143 | If the driver refuses statement k after answering `BEGIN` and every earlier statement, the trace is `BEGIN`, statements 1..k, `ROLLBACK`, and `COMMIT` is never sent. The error is that statement's message, or the rollback's own when the rollback is refused. |
| Queries.TransactionCommitFails | src/services/query-service.ts:107-143 | If every statement is answered and `COMMIT` is refused, `ROLLBACK` follows the `COMMIT` and nothing follows the `ROLLBACK`. |
| Queries.TransactionCommits | src/services/query-service.ts:107-139 | If `BEGIN`, every statement and `COMMIT` are answered, the transaction succeeds after sending exactly those requests. It reports `queryCount` as the number of statements, and its i-th result summarises the driver's answer to the i-th statement. |
| Queries.TransactionFailed | src/services/query-service.ts:91-147 | A failure is wrapped under the transaction stage. Either nothing was sent, or the gate passed, a pool was held, and the trace is one of three shapes, each tied to the driver's answers: a refused `BEGIN` alone; `BEGIN`, statements 1..k, `ROLLBACK` where k is the first refused statement; or `BEGIN`, every statement, a refused `COMMIT`, `ROLLBACK`. |
| Queries.ExplainAnswered | src/services/query-service.ts:149-165 | With a pool, the plan request succeeds exactly when the driver answers it. The body is the answer's records, or absent when there are none. A refusal carries the driver's message under the plan prefix. |
| Queries.StatisticsAnswered | src/services/query-service.ts:167-194 | With a pool, the statistics request succeeds exactly when the driver answers it. The body lists the answer's records, `[]` when there are none, with `recordCount` equal to their number, and the fixed note. |
| Queries.ExplainTextInjective | src/services/query-service.ts:151 | Different queries give different `SHOWPLAN` texts. |
| Queries.StatisticsTextInjective | src/services/query-service.ts:169-175 | Different queries give different statistics texts. |
| Queries.ExplainBypassesGate | src/services/query-service.ts:149-194 | Both methods send the wrapped text unchecked: there is no classification gate. |
| Queries.ExplainOutcome | src/services/query-service.ts:149-194 | Failures carry each method's own prefix. Successes carry each method's heading. Without a pool, nothing is sent. |
| Queries.WrappedMessage | src/services/query-service.ts:26 | A wrapped error's message starts with its stage prefix. |
| Queries.QueryService.ExecuteQuery | src/services/query-service.ts:7-28 | Its reply and new trace are `ExecuteQuerySpec` of the old trace. |
| Queries.QueryService.RollBackAfter | src/services/query-service.ts:140-143 | A `ROLLBACK` is sent, and the result is the rollback's error or the original cause. |
| Queries.QueryService.FindDisallowed | src/services/query-service.ts:97-102 | The loop returns the index of the first refused statement, or none when all are admitted. |
| Queries.QueryService.RunQueries | src/services/query-service.ts:110-117 | The statement loop is `RunStatements`: in order, stopping at the first failure. |
| Queries.QueryService.ExecuteTransaction | src/services/query-service.ts:91-147 | Its reply and new trace are `TransactionSpec`. The transaction lemmas above characterise that function by the driver's answers. |
| Queries.QueryService.ExplainQuery | src/services/query-service.ts:149-165 | Its reply and new trace are `ExplainSpec`. |
| Queries.QueryService.GetQueryStatistics | src/services/query-service.ts:167-194 | Its reply and new trace are `StatisticsSpec`. |
| StoredProcedures.VarcharsBound | src/services/stored-procedure-service.ts:116-119 | The named text descriptors `{name, value, type: 'varchar'}` are all bound, as `VarChar`, in order. |
| StoredProcedures.ListProceduresOutcome | src/services/stored-procedure-service.ts:7-38 | It sends one request: the listing with the schema, `dbo` by default. A success is the records under the schema's heading. A failure carries the listing prefix. |
| StoredProcedures.DefinitionOf | src/services/stored-procedure-service.ts:107-122 | The definition is truthy, or it is the empty string. |
| StoredProcedures.ParametersOf | src/services/stored-procedure-service.ts:144-180 | There is one parameter record per returned row, mapped column by column, and none without a recordset. |
| StoredProcedures.ProcedureInfoDates | src/services/stored-procedure-service.ts:42-56 | The description carries the name, schema, definition and parameters. Its dates are the catalog's when found, and the current time otherwise. |
| StoredProcedures.LookupDefaults | src/services/stored-procedure-service.ts:121-141 | Dates are found exactly when a row came back. No row means an empty definition. A truthy definition is passed through. |
| StoredProcedures.DescribeProcedureTrace | src/services/stored-procedure-service.ts:40-69 | A description sends the definition, parameter and date lookups, in that order, each with the name and schema bound as `VarChar`. |
| StoredProcedures.DescribeProcedureFailure | src/services/stored-procedure-service.ts:40-69 | Failures carry the describe prefix. Without a pool, nothing is sent. |
| StoredProcedures.Assignments | src/services/stored-procedure-service.ts:79 | Each descriptor becomes `@name = @name`, in order. |
| StoredProcedures.ExecTextShape | src/services/stored-procedure-service.ts:73-81 | With no descriptors the text is `EXEC schema.name`. Otherwise it is that, a space, and the assignments joined by `, `. |
| StoredProcedures.ExecTextRecoverable | src/services/stored-procedure-service.ts:73-81 | Splitting the tail of the `EXEC` text on `, ` gives back the assignments when no name contains a comma. |
| StoredProcedures.ExecTextNamesDroppedDescriptor | src/services/stored-procedure-service.ts:76-84 | A descriptor with an undefined value is named in the `EXEC` text but is not bound. |
| StoredProcedures.ExecutionRecordFields | src/services/stored-procedure-service.ts:91-98 | The execution record holds exactly six fields. The count matches the records, the defaults are `[]` and `[0]`, and the return value is present exactly when the driver gave one. |
| StoredProcedures.ExecuteProcedureOutcome | src/services/stored-procedure-service.ts:71-105 | It sends exactly the `EXEC` text with the bound descriptors. Without a pool it fails as not connected. Failures carry the execute prefix. |
| StoredProcedures.SearchRequestShape | src/services/stored-procedure-service.ts:183-209 | The pattern is `%term%` and comes first. The schema filter and its descriptor are both there exactly when a schema is given. The text ends with the ordering. |
| StoredProcedures.BuildSearchRequest | src/services/stored-procedure-service.ts:183-209 | It builds exactly `SearchRequest`. |
| StoredProcedures.SearchProceduresOutcome | src/services/stored-procedure-service.ts:182-229 | It sends the search request with every descriptor bound. Failures carry the search prefix. |
| StoredProcedures.ProcedureDependenciesBestEffort | src/services/stored-procedure-service.ts:231-280 | It sends one lookup of `schema.name`. A driver failure, or a missing pool, becomes the notice text instead of an error. A success is the records under the dependencies heading. |
| StoredProcedures.StoredProcedureService.ListStoredProcedures | src/services/stored-procedure-service.ts:7-38 | Its reply and new trace are `ListProceduresSpec`. |
| StoredProcedures.StoredProcedureService.GetProcedureDefinition | src/services/stored-procedure-service.ts:107-122 | Its result and new trace are `DefinitionLookup`. |
| StoredProcedures.StoredProcedureService.GetProcedureDateInfo | src/services/stored-procedure-service.ts:124-142 | Its result and new trace are `DateInfoLookup`. |
| StoredProcedures.StoredProcedureService.GetProcedureParameters | src/services/stored-procedure-service.ts:144-180 | Its result and new trace are `ParametersLookup`. |
| StoredProcedures.StoredProcedureService.DescribeStoredProcedure | src/services/stored-procedure-service.ts:40-69 | Its reply and new trace are `DescribeProcedureSpec`. |
| StoredProcedures.StoredProcedureService.ExecuteStoredProcedure | src/services/stored-procedure-service.ts:71-105 | Its reply and new trace are `ExecuteProcedureSpec`. |
| StoredProcedures.StoredProcedureService.SearchStoredProcedures | src/services/stored-procedure-service.ts:182-229 | Its reply and new trace are `SearchProceduresSpec`. |
| StoredProcedures.StoredProcedureService.GetProcedureDependencies | src/services/stored-procedure-service.ts:231-280 | Its report and new trace are `ProcedureDependenciesSpec`. |
| Triggers.EventsOfBlank | src/services/trigger-service.ts:54 | An absent, null or empty events column gives no events. |
| Triggers.EventsRejoin | src/services/trigger-service.ts:54 | Joining the split events gives back the column. |
| Triggers.EventsColumnJoins | src/services/trigger-service.ts:17-30 | The catalog's events column is the fired events joined by `, `. |
| Triggers.EventsOfJoined | src/services/trigger-service.ts:54 | Comma-free names joined by `, ` split back into the same names. |
| Triggers.EventsOfColumn | src/services/trigger-service.ts:17-54 | Splitting the catalog's events column gives back exactly the fired events, in catalog order. |
| Triggers.IsEnabled | src/services/trigger-service.ts:55 | A trigger is enabled exactly when `is_disabled` is falsy. |
| Triggers.EntriesOf | src/services/trigger-service.ts:49-58 | The rows map one to one, and the mapping fails exactly when some row fails. |
| Triggers.EntriesFailure | src/services/trigger-service.ts:49-58 | A mapping failure is the events-not-text error. |
| Triggers.ListRequestShape | src/services/trigger-service.ts:37-44 | The schema descriptor comes first. The table filter and its descriptor are both there exactly when a table name is given. The text ends with the ordering. |
| Triggers.BuildListRequest | src/services/trigger-service.ts:37-44 | It builds exactly `ListRequest`. |
| Triggers.ListOutcomeEntries | src/services/trigger-service.ts:47-71 | The listed body has one entry per row, and the entries are the mapped rows. No recordset gives an empty list. A mapping failure is wrapped under the listing stage. |
| Triggers.ListTriggersOutcome | src/services/trigger-service.ts:7-75 | It sends the listing request with every descriptor bound. A driver success is judged by `ListOutcome`, and a driver refusal carries the driver's message under the listing prefix. Every failure carries the listing prefix. |
| Triggers.DescribeOutcomeRules | src/services/trigger-service.ts:115-137 | No row gives a "trigger not found" error naming `schema.name`. Only the first row counts. A success reports the row's enabled flag, events and definition. |
| Triggers.DescribeTriggerOutcome | src/services/trigger-service.ts:77-141 | It sends one lookup with the trigger name and schema bound. A driver success is judged by `DescribeOutcome`. Failures carry the describe prefix. |
| Triggers.TriggerDependenciesBestEffort | src/services/trigger-service.ts:143-188 | It sends one lookup of `schema.name`. A driver failure, or a missing pool, becomes the notice text. A success is the records under the dependencies heading. |
| Triggers.TriggerService.ListTriggers | src/services/trigger-service.ts:7-75 | Its reply and new trace are `ListTriggersSpec`. |
| Triggers.TriggerService.DescribeTrigger | src/services/trigger-service.ts:77-141 | Its reply and new trace are `DescribeTriggerSpec`. |
| Triggers.TriggerService.GetTriggerDependencies | src/services/trigger-service.ts:143-188 | Its report and new trace are `TriggerDependenciesSpec`. |

## Left out

- Rendering replies as text: the JSON text of `JSON.stringify`, its indentation and its key order. A reply is a heading plus a `Json` value, and the MCP tool wrapper that prints it is not modelled.
- Time: the elapsed milliseconds and the current date are parameters. The two `new Date()` readings in a procedure description are one value.
- Concurrency: the driver's pool hands out connections concurrently, and a transaction's statements may run on different pooled connections. The model sends every request through one ordered trace.
- `parseInt` returning `NaN`: it is a `string -> int` parameter of `LoadConfig`.
- Floating-point values: numbers are integers.
- Unicode case mapping and whitespace beyond JavaScript's list: `toLowerCase` is modelled on ASCII letters only. Only two non-ASCII characters lower-case to ASCII letters (U+0130 and U+212A), and neither can change a match against a keyword or a type name.
- Console logging and the `MSSQL_DEBUG` switch: the logged summary of the configuration is the function `DebugSummary`, but writing it out is not modelled.
- `src/index.ts`, `src/services/schema-service.ts` and the test scripts are not part of this model.
- A `queries` argument of `null` or `undefined` to `executeTransaction`: the model takes a list.
- The error message of a `split` on a non-string events value comes from the JavaScript engine. The model names it with one error value, `EventsNotText`.
- The per-statement `queryType` that `executeTransaction` stores with each result is not kept in the executed record. The summary computes it again from the statement's text, which gives the same value.

## Notes on the source

- When the `ROLLBACK TRANSACTION` request itself fails, `executeTransaction` throws the rollback's error instead of the statement's error (`src/services/query-service.ts:140-143`). The model follows the code, so `Queries.RollBack` returns the rollback's error in that case.
- `connect` closes the old pool before it builds a new one. If that close fails, the error propagates and the old pool object stays held (`src/database/mssql-manager.ts:103-105`).
- A failed `pool.connect()` leaves the new pool object held but not connected, and `isConnected` then answers false (`src/database/mssql-manager.ts:152-154`, `249-251`).
- The driver's own type conversions and the `request.input` calls are modelled as the list of bound parameters the request carries.
