# Agno Agent Framework: a verified model of its decision logic

This project models in Dafny the parts of the Agno Agent Framework that hold their own logic, and proves properties of them. The framework is a Python service that answers a user's question with a pipeline of LLM agents, a MySQL business-database layer and a Milvus knowledge base.

- **The discussion-round controller.** `DiscussionTeam.run` runs up to `max_rounds` debate rounds. A judge scores each round. The loop stops early once the score reaches the threshold. It falls back to the last saved round when a later round fails.
- **The main workflow step.** It adapts the input, reads the intent agent's JSON reply, gates the database agent and the discussion team, absorbs their errors and assembles the final prompt.
- **The configuration loader.** This covers the environment-type priority chain, IP classification, the choice of the dotenv file and the IP-list updates.
- **The SQL text builders and the business-database registry.** The registry parses the database list, initialises once, looks up engines and sessions, guards queries, aggregates health checks and resets. The default-database choice and the Agno database configuration belong here too.
- **The vector query tools and the two text tools.** The query tools choose the database qualifier, guard against missing collections, pick the vector field and shape search hits. The tools list databases with their tables, and knowledge-base collections.

Every LLM agent, `json.loads`, engine creation, SQL execution, table reflection and every Milvus call is an oracle: a function-typed parameter whose answer is either a value or an error (`Result`). Exceptions become `Err` values that carry the text `str(e)` would show. The process environment is a `map<string, string>`. A Python dict whose order matters is a sequence of key/value pairs (module `OrderedDict`). The Python string operations the code relies on are defined once in module `Text`: split, join, strip, find, rfind, `int()` parsing and ASCII lower-casing.

Modules, one per source file, plus three helper modules:

| module | source |
|---|---|
| `DiscussionTeam`, `DiscussionProperties` | src/engine/teams/team.py |
| `Workflow`, `WorkflowProperties` | src/engine/workflows/workflow.py |
| `ConfigLoader` | src/utils/config_loader.py |
| `QueryTools` | src/database/query_tools.py |
| `BusinessDb` | src/database/business_db.py |
| `BusinessQueryTools` | src/database/business_query_tools.py |
| `DbConfig` | src/database/config.py |
| `VectorQueryTools` | src/vector/query_tools.py |
| `DatabaseTools` | src/engine/tools/database_tools.py |
| `VectorTools` | src/engine/tools/vector_tools.py |
| `Wrappers`, `Text`, `OrderedDict`, `Environment` | Python's `Optional`, `str`, `dict` and `os.getenv` |

`DiscussionTeam.run` and the state-changing code in the other files are imperative Dafny: methods with loops and invariants, and classes whose fields the methods update. Each such method is proved equal to a specification function, and the properties are lemmas about that function.

## Model

| member | source | states |
|---|---|---|
| DiscussionTeam.ResolveMaxRounds | src/engine/teams/team.py:45 | A non-zero argument wins. Otherwise the round budget is `int()` of `DISCUSSION_MAX_ROUNDS`, default 3, and it fails exactly when that text is not an integer. On success it is the integer the text parses to |
| DiscussionTeam.ResolveScoreThreshold | src/engine/teams/team.py:46 | A non-zero argument wins. Otherwise the threshold is 7.0 when `DISCUSSION_SCORE_THRESHOLD` is unset, and else `float()` of its text, failing exactly when that parse fails and otherwise equal to the parsed value |
| DiscussionTeam.DiscussionTeam.constructor | src/engine/teams/team.py:30-47 | The team keeps the resolved round budget, threshold and name |
| DiscussionTeam.DiscussionTeam.Run | src/engine/teams/team.py:78-190 | The round loop returns the result of the round state machine `Discussion`, and makes exactly its sequence of team and judge calls |
| DiscussionProperties.RoundsInvariant | src/engine/teams/team.py:114-169 | Every round sequence makes at most two calls per round within the budget and reports at most the budget as `total_rounds`. A reached threshold means the saved score meets it. An error is raised only from round 1 |
| DiscussionProperties.RunBounds | src/engine/teams/team.py:114-186 | `run` makes at most 2·max_rounds calls and reports `total_rounds` ≤ max_rounds. It raises only after a round-1 call. `reached_threshold` implies a non-null `final_score` ≥ threshold |
| DiscussionProperties.RoundsExhaust | src/engine/teams/team.py:156-158 | When every remaining round succeeds below the threshold, all remaining rounds run, two calls each, and the threshold is not reached |
| DiscussionProperties.RoundsEarlyExit | src/engine/teams/team.py:150-153 | The first round whose score reaches the threshold ends the sequence in that round, with `reached_threshold` set |
| DiscussionProperties.RunExhaustsBudget | src/engine/teams/team.py:156-158 | Rounds that all succeed below the threshold give exactly max_rounds rounds and 2·max_rounds calls, with the threshold not reached |
| DiscussionProperties.RunStopsAtThreshold | src/engine/teams/team.py:150-153 | A score reaching the threshold in round k, equality included, after lower scores, ends `run` after exactly k rounds with `reached_threshold` true |
| DiscussionProperties.RoundOneFailureRaises | src/engine/teams/team.py:164-168 | A team failure in round 1, or a judge failure after a successful round-1 team call, is re-raised |
| DiscussionProperties.LaterFailureFallsBack | src/engine/teams/team.py:121-169 | After a saved round, a team failure returns the saved state unchanged. A judge failure returns it with `total_rounds` equal to the failing round |
| DiscussionProperties.SecondRoundFailure | src/engine/teams/team.py:121-169 | A failure in round 2 returns round 1's transcript and evaluation without raising. It reports 1 round for a team failure and 2 for a judge failure |
| DiscussionProperties.RoundsTrace | src/engine/teams/team.py:101-162 | Every call of a round sequence fits the prompt rules. The round-1 prompt carries the context only when it is truthy. A later prompt is the continuation on the previous transcript. The judge always gets the original query |
| DiscussionProperties.RunTrace | src/engine/teams/team.py:101-162 | The whole call trace of `run` fits those prompt rules |
| DiscussionProperties.CallFitsExtend | src/engine/teams/team.py:101-162 | Whether a call fits the prompt rules depends only on the calls before it |
| DiscussionProperties.NextPromptKeepsQuery | src/engine/teams/team.py:162 | A later round's prompt starts with the whole original query and ends with the previous transcript |
| Workflow.ExecutionInput | src/engine/workflows/workflow.py:34-45 | The input is the `execution_input` keyword when it is truthy, so a falsy one such as `0`, `""` or `{}` falls through. Next comes the `input` keyword when given, else the only positional argument, else the second of several |
| Workflow.JsonSpan | src/engine/workflows/workflow.py:76-83 | With a `{` that has a `}` after it, the text parsed runs from the first `{` through the last `}`. Otherwise the whole reply is parsed |
| Workflow.Interpret | src/engine/workflows/workflow.py:85-94 | A decode failure gives both flags false and the raw reply as summary. Missing keys give false flags and the default summary. A present key gives its value's truthiness as the flag, or its text as the summary. Only a non-object JSON value propagates an error |
| Workflow.DiscussionContext | src/engine/workflows/workflow.py:127-129 | A context is passed exactly when the database step ran and returned non-empty content, and it is that content after the `数据查询结果：` prefix |
| Workflow.EvalInfo | src/engine/workflows/workflow.py:145-148 | The evaluation line starts with the score exactly when `final_score` is not None, and always ends with the rounds line |
| Workflow.OutputParts | src/engine/workflows/workflow.py:162-178 | The prompt has the question, the intent, then the database section or its marker, then the discussion section or its marker, and the evaluation info exactly when the discussion has content |
| Workflow.AssembleOutput | src/engine/workflows/workflow.py:162-180 | The successive appends give the `\n\n` join of `OutputParts` followed by the closing instruction |
| Workflow.ReadIntent | src/engine/workflows/workflow.py:69-94 | The intent is read from the reply as `Interpret` states |
| Workflow.RunSteps | src/engine/workflows/workflow.py:97-185 | The steps after the intent make the calls and give the result of the specification `AfterIntent` |
| Workflow.MainWorkflowSteps | src/engine/workflows/workflow.py:19-185 | The whole step returns the result, and makes the calls, of the specification `MainWorkflow` |
| WorkflowProperties.OnlyIntentAndOutputFailuresEscape | src/engine/workflows/workflow.py:62-185 | Only a failure of the intent agent or of the output agent escapes the step. A failed intent makes no other call |
| WorkflowProperties.ReachesAfterIntent | src/engine/workflows/workflow.py:62-97 | Once the intent is read, the rest of the step is `AfterIntent` on the adapted input |
| WorkflowProperties.TracePositions | src/engine/workflows/workflow.py:97-185 | In a trace of the workflow's shape, the database call sits at position 1 and the discussion call just before the output call, each present exactly when enabled |
| WorkflowProperties.StepTrace | src/engine/workflows/workflow.py:97-185 | The calls after a read intent have the workflow's shape: the intent, the gated database call, the gated discussion call, the output call |
| WorkflowProperties.AfterIntentCalls | src/engine/workflows/workflow.py:97-185 | The calls made after the intent are the enabled steps, in order, then the output call on the assembled prompt |
| WorkflowProperties.StepGating | src/engine/workflows/workflow.py:97-185 | Each optional agent is called exactly when the intent enables it, database first, the discussion with the derived context, and the output agent last on the assembled prompt |
| WorkflowProperties.FailuresBecomeText | src/engine/workflows/workflow.py:111-154 | A failing database step or discussion becomes its error text in the prompt, with the failed-evaluation line. A disabled step becomes its marker |
| WorkflowProperties.DbPartText | src/engine/workflows/workflow.py:111-113 | A failing database step shows its error text as the database section, and a disabled one shows its marker |
| WorkflowProperties.DiscussionPartText | src/engine/workflows/workflow.py:151-154 | A failing discussion shows its error text and `讨论评估失败`, and a disabled one shows its marker |
| WorkflowProperties.PromptFrame | src/engine/workflows/workflow.py:162-180 | The output prompt starts with the question and the intent and ends with the closing instruction |
| ConfigLoader.IpMapping | src/utils/config_loader.py:25-49 | Without a mapping module the production and preview lists are empty and the development list is the two local addresses. A module's lists are taken as given |
| ConfigLoader.ConfigLoader.constructor | src/utils/config_loader.py:21-23 | The loader starts with the lists `_load_ip_mapping` gives |
| ConfigLoader.ConfigLoader.DetectEnvByIp | src/utils/config_loader.py:93-124 | "prod" exactly for production addresses, checked first. "show" exactly for preview addresses that are not production ones. "dev" for every other address, listed or not |
| ConfigLoader.EnvTypeFile | src/utils/config_loader.py:145-164 | `.env.{type}` when it exists, else `env.{type}` when it exists, else nothing |
| ConfigLoader.EnvFileChoice | src/utils/config_loader.py:236-247 | `.env` when it exists. Otherwise the typed file when one exists, and it exists. Otherwise the system environment |
| ConfigLoader.ResolveEnvType | src/utils/config_loader.py:196-223 | The resolved environment type is never empty |
| ConfigLoader.FirstNonEmpty | src/utils/config_loader.py:196-223 | The result is empty exactly when every candidate is. Otherwise it is one of the candidates |
| ConfigLoader.ResolveIsFirstNonEmpty | src/utils/config_loader.py:196-223 | The type is the first non-empty of: a valid argv type, the argument, `APP_ENV_TYPE`, the IP-detected type when enabled, and "dev" |
| ConfigLoader.ConfigLoader.LoadConfig | src/utils/config_loader.py:166-252 | The detected type follows the priority chain. A given config file is chosen and the loader itself writes no variable. Otherwise the chosen file is loaded and the loader's only write is `APP_ENV_TYPE` set to the type. The variables a file brings are not modelled |
| ConfigLoader.Environ.constructor | src/utils/config_loader.py:250-252 | The process environment the loader writes to holds the given variables |
| ConfigLoader.AppendAbsentSpec | src/utils/config_loader.py:291-322 | Adding an address makes it a member, keeps the old entries in order as a prefix, grows the list only when it was absent, and keeps a duplicate-free list duplicate-free |
| ConfigLoader.ConfigLoader.AddProdIp | src/utils/config_loader.py:291-300 | The production list gets the address appended when absent, and the other lists are unchanged |
| ConfigLoader.ConfigLoader.AddPreviewIp | src/utils/config_loader.py:302-311 | The preview list gets the address appended when absent, and the other lists are unchanged |
| ConfigLoader.ConfigLoader.AddDevIp | src/utils/config_loader.py:313-322 | The development list gets the address appended when absent, and the other lists are unchanged |
| QueryTools.Equalities | src/database/query_tools.py:164-165 | One `k = :k` clause per key, in the keys' order |
| QueryTools.WhereTrivialIffNoConditions | src/database/query_tools.py:161-170 | The WHERE text is `1=1` exactly when there are no conditions |
| QueryTools.PagingSpec | src/database/query_tools.py:172-175 | The paging text is ` LIMIT n` for a truthy limit followed by ` OFFSET m` for a truthy offset. Each case is stated exactly, and with neither the text is empty |
| QueryTools.Prefixed | src/database/query_tools.py:164-166 | The parameters are the conditions, in order, with each key prefixed |
| QueryTools.GetPrefixed | src/database/query_tools.py:164-166 | Looking up a prefixed key gives the original condition's value |
| QueryTools.PrefixedKeys | src/database/query_tools.py:215-232 | Every parameter key starts with its prefix |
| QueryTools.PrefixedNoDup | src/database/query_tools.py:215-232 | Prefixing keeps the keys distinct |
| QueryTools.PrefixedEmpty | src/database/query_tools.py:164-166 | With no prefix, the parameters are exactly the conditions |
| QueryTools.EqualityClauses | src/database/query_tools.py:161-170 | The clause-and-parameter loop builds the clauses for the keys in order and the prefixed parameter dict |
| QueryTools.AppendPaging | src/database/query_tools.py:172-175 | Appending the LIMIT and OFFSET parts gives the query followed by its paging text |
| QueryTools.SearchRecords | src/database/query_tools.py:147-177 | The statement is the SELECT with the conditions' WHERE text and paging, and the parameters are exactly the conditions |
| QueryTools.DeleteRecord | src/database/query_tools.py:236-257 | The statement is the DELETE with the conditions' WHERE text. Without conditions it is `DELETE FROM t WHERE 1=1` |
| QueryTools.UpdateParamsNoDup | src/database/query_tools.py:215-232 | The `set_` and `where_` parameter keys never clash |
| QueryTools.UpdateParamsSetLookup | src/database/query_tools.py:215-224 | Each `set_k` parameter holds the data's value for k |
| QueryTools.UpdateParamsWhereLookup | src/database/query_tools.py:225-232 | Each `where_k` parameter holds the condition's value for k, even when k is also updated |
| QueryTools.UpdateRecord | src/database/query_tools.py:202-234 | The statement is the UPDATE with `:set_k` assignments and `:where_k` conditions, with both prefixed parameter sets |
| QueryTools.Placeholders | src/database/query_tools.py:190-193 | One `:k` placeholder per column, in the columns' order |
| QueryTools.PlaceholdersMatchColumns | src/database/query_tools.py:190-193 | The joined placeholders are the joined columns with `:` before the first column and after every separator, so they are one character longer per column. No columns give the empty text |
| QueryTools.InsertStatement | src/database/query_tools.py:190-196 | The INSERT names the data's keys as columns and as `:key` placeholders, both in the data's order, and binds the data itself as the parameters |
| QueryTools.FirstValue | src/database/query_tools.py:143-145 | No rows give 0. Otherwise the result is the first row's value in the column, or an error when the column is missing |
| QueryTools.GetTableCount | src/database/query_tools.py:143-145 | No rows give 0. Otherwise the result is the first row's `count`, and it is an error exactly when that row lacks `count` |
| QueryTools.InsertedId | src/database/query_tools.py:198-200 | No rows give 0. Otherwise the result is the first row's `id`, and it is an error exactly when that row lacks `id` |
| BusinessDb.NonEmptyStripped | src/database/business_db.py:44 | Each kept piece is non-empty and already stripped |
| BusinessDb.NonEmptyStrippedMembers | src/database/business_db.py:44 | A name is kept exactly when it is non-empty and some piece strips to it |
| BusinessDb.NamesHaveNoComma | src/database/business_db.py:44 | No listed name contains a comma |
| BusinessDb.DatabaseNamesSpec | src/database/business_db.py:37-49 | The names are the comma-separated pieces, stripped, without the empty ones. An empty variable lists nothing |
| BusinessDb.BaseUrl | src/database/business_db.py:23-29 | The base URL exists exactly when the port text, after its two fallbacks, is an integer. It is then the server URL built from user, password, host and port, each taken from `BUSINESS_MYSQL_*`, else `MYSQL_*`, else its default |
| BusinessDb.Distinct | src/database/business_db.py:67 | A dict's keys after assignments are the assigned keys, each once, in first-assignment order |
| BusinessDb.RegisterKeys | src/database/business_db.py:56-74 | The registered names are the names whose engine creation succeeded, each once, in first-success order, with no duplicates |
| BusinessDb.CreatedMembers | src/database/business_db.py:56-74 | A name is registered exactly when it is listed and its engine creation succeeds |
| BusinessDb.InitializationSpec | src/database/business_db.py:31-74 | The initialisation registers distinct, non-empty names that are listed and were created. An empty variable registers nothing. It fails only when a setting is not an integer |
| BusinessDb.HealthyAggregates | src/database/business_db.py:171-191 | The overall health check is the conjunction of the per-name checks. An unknown name is unhealthy |
| BusinessDb.BusinessDatabaseManager.constructor | src/database/business_db.py:18-21 | A new manager has no engines or sessions and is not initialised |
| BusinessDb.BusinessDatabaseManager.InitializeDatabases | src/database/business_db.py:31-74 | Once initialised, nothing changes. Otherwise the engines become the outcome of the initialisation and the flag is set, unless a setting fails |
| BusinessDb.BusinessDatabaseManager.RegisterAll | src/database/business_db.py:56-72 | The loop stores each created engine under its name and skips failures, giving the `Register` dict with matching session makers |
| BusinessDb.BusinessDatabaseManager.AddEngine | src/database/business_db.py:67-68 | Storing an engine assigns it, and its session maker, under the name |
| BusinessDb.BusinessDatabaseManager.GetEngine | src/database/business_db.py:76-87 | The engine registered under the name, or None for an unknown name |
| BusinessDb.BusinessDatabaseManager.GetSession | src/database/business_db.py:89-103 | A session on the name's engine, or None for an unknown name |
| BusinessDb.BusinessDatabaseManager.ExecuteQuery | src/database/business_db.py:105-134 | A failing first initialisation is recorded in the registry's state and its error is returned. An unknown name raises the "不存在或未配置" error before anything runs. Otherwise the statement runs on the name's engine, with parameters only when there are some |
| BusinessDb.BusinessDatabaseManager.ListDatabases | src/database/business_db.py:136-144 | The registered names, in registration order |
| BusinessDb.BusinessDatabaseManager.DatabaseExists | src/database/business_db.py:146-157 | True exactly when the name is registered |
| BusinessDb.BusinessDatabaseManager.CheckOne | src/database/business_db.py:171-182 | The check of one name is false for an unknown name and the ping's answer otherwise |
| BusinessDb.BusinessDatabaseManager.CheckAll | src/database/business_db.py:184-191 | The loop over the registered names is true exactly when every ping succeeds |
| BusinessDb.BusinessDatabaseManager.HealthCheck | src/database/business_db.py:159-191 | The health check's answer is `Healthy`: one database when a name is given, all of them otherwise, true when none is registered |
| BusinessDb.BusinessDatabaseManager.CloseAll | src/database/business_db.py:193-203 | Engines and sessions are emptied and the flag is cleared, so the next lookup initialises again |
| BusinessQueryTools.DatabaseName | src/database/business_query_tools.py:28-48 | A truthy argument wins, then a truthy default, then the first configured database. It raises when there is none |
| BusinessQueryTools.ChosenNameIsUsable | src/database/business_query_tools.py:28-48 | The chosen name is non-empty and is the argument, the default or a configured name. The error comes exactly when all three are missing |
| BusinessQueryTools.ChosenEngine | src/database/business_query_tools.py:80-83 | Reflection runs on the chosen name's engine. A name without an engine raises the "不存在或未配置" error |
| BusinessQueryTools.GuardPrecedesReflection | src/database/business_query_tools.py:69-130 | `get_table_info` and `list_tables` both raise that error for a name without an engine. Table information names the chosen database |
| BusinessQueryTools.ExecuteQuery | src/database/business_query_tools.py:50-67 | The query runs on the chosen database, and a failed choice raises before anything runs |
| BusinessQueryTools.TableCountSpec | src/database/business_query_tools.py:132-145 | The count is the first row's `count`, 0 when no rows come back, and a query failure propagates |
| BusinessQueryTools.GetBusinessQueryTools | src/database/business_query_tools.py:161-173 | A fresh instance with the default exactly when the default is truthy, the shared one otherwise |
| BusinessQueryTools.InstanceChoosesDefault | src/database/business_query_tools.py:157-173 | Either instance picks the truthy default, or else the first configured database |
| DbConfig.LoadConfigSpec | src/database/config.py:17-29 | Each field falls back from `AGNO_*` to `MYSQL_*` to its literal, and the database through three variables to `agno_backend`. The port, pool size and recycle time are the integers their texts parse to. Echo is true exactly when `MYSQL_ECHO` lowercases to "true". Loading fails exactly when a numeric setting is not an integer |
| DbConfig.DefaultConfig | src/database/config.py:17-29 | With no variables set, the configuration is localhost:3306, root/password, `agno_backend`, utf8mb4, a pool of 20, recycled every 3600 seconds, without echo |
| DbConfig.ServerUrl | src/database/config.py:31-35 | The connection string starts with the `mysql+pymysql://` scheme and ends with `:port` |
| DbConfig.ServerUrlFields | src/database/config.py:31-35 | After the scheme, splitting at `@` and then at `:` gives back exactly user, password, host and port, and no `/` follows, so no database is selected. This holds when the fields contain none of `@`, `:` and `/` |
| DbConfig.DatabaseUrl | src/database/config.py:37-41 | The database URL is the connection string followed by `/database?charset=charset` |
| DbConfig.Pool | src/database/config.py:43-51 | The pool settings are the stored pool size, recycle time and echo |
| VectorQueryTools.ScopeFor | src/vector/query_tools.py:41-45 | The database qualifier is used exactly when the database is non-empty and not "default" |
| VectorQueryTools.QualifierOnlyForNamedDatabase | src/vector/query_tools.py:47-83 | Listing and existence checks use the named database only for a non-empty, non-default name |
| VectorQueryTools.FieldsInfo | src/vector/query_tools.py:107-114 | One information entry per schema field, in order |
| VectorQueryTools.GetCollectionInfo | src/vector/query_tools.py:85-124 | A missing collection raises before any load. Load and count failures propagate. Otherwise the result has the name, the entity count and every field's information |
| VectorQueryTools.GetCollectionCount | src/vector/query_tools.py:199-218 | A missing collection raises before counting. Otherwise the result is the collection's entity count |
| VectorQueryTools.FirstVectorIndex | src/vector/query_tools.py:155-159 | The index of the first float-vector or binary-vector field, with no vector field before it |
| VectorQueryTools.VectorField | src/vector/query_tools.py:155-159 | The loop with `break` gives the first vector field's name, or none |
| VectorQueryTools.HitRecord | src/vector/query_tools.py:180-190 | The hit dict the loop builds is `HitData` |
| VectorQueryTools.WithEntityGet | src/vector/query_tools.py:186-189 | After the entity is merged, each entity field other than the vector field holds its value, and every other key keeps its base value |
| VectorQueryTools.HitDataSpec | src/vector/query_tools.py:180-189 | A hit has `id`, `distance` and `score` (None when absent) plus every entity field except the vector field, and nothing else |
| VectorQueryTools.BaseRecordGet | src/vector/query_tools.py:180-184 | The base hit dict maps `id`, `distance` and `score` and nothing else |
| VectorQueryTools.VectorFieldExcluded | src/vector/query_tools.py:186-189 | The vector field is never a key of a hit dict |
| VectorQueryTools.FormatResults | src/vector/query_tools.py:176-191 | One hit list per query vector, in order, each hit formatted by `HitData` |
| VectorQueryTools.SearchVectors | src/vector/query_tools.py:126-197 | The search returns the outcome of the specification `SearchOutcome` |
| VectorQueryTools.SearchGuards | src/vector/query_tools.py:147-162 | A missing collection, a load failure or a schema without a vector field raises before any search runs |
| VectorQueryTools.SearchResultShape | src/vector/query_tools.py:164-193 | The search uses the first vector field, L2 with nprobe 10, and the given arguments. Exactly one query result gives a flat list of its hits' dicts. Otherwise there is one list per query result, each holding that result's hit dicts in the store's order |
| DatabaseTools.Blocks | src/engine/tools/database_tools.py:28-42 | Three lines per database |
| DatabaseTools.BlockAt | src/engine/tools/database_tools.py:28-42 | The i-th database's three lines are its name line, its table line or error line, and a blank line |
| DatabaseTools.TablesOfNamed | src/engine/tools/database_tools.py:30-31 | A database's tables are listed on its own engine, and a name without one gives the "不存在或未配置" error |
| DatabaseTools.ListingSingleLine | src/engine/tools/database_tools.py:34-41 | A table or error line has no line break when its names or error text have none |
| DatabaseTools.BlocksSingleLine | src/engine/tools/database_tools.py:28-42 | No block line has a line break when no name, table or error text has one |
| DatabaseTools.ListDatabasesAndTables | src/engine/tools/database_tools.py:11-47 | The appending loop returns the text `Report` specifies |
| DatabaseTools.ReportLines | src/engine/tools/database_tools.py:19-47 | A listing failure becomes a message. No databases gives the not-configured message. Otherwise the lines are the header with the count, a blank line, then three lines per database in order |
| VectorTools.ListCollections | src/engine/tools/vector_tools.py:15-49 | The tool returns the text `Report` specifies |
| VectorTools.ReportLines | src/engine/tools/vector_tools.py:24-49 | A connection failure gives its message whatever the store holds. A listing failure gives its message. An empty list gives the empty-knowledge-base message. Otherwise the lines are the header with the count, a blank line, then `- name` per collection |
| Text.Split | src/database/business_db.py:44 | Splitting gives at least one piece, and no piece contains the separator |
| Text.SplitJoin | src/database/business_db.py:44 | Joining the pieces with the separator gives back the text |
| Text.JoinSplit | src/engine/tools/vector_tools.py:45 | Splitting a join of separator-free parts gives the parts back |
| Text.Strip | src/database/business_db.py:44 | The stripped text is a slice of the text with only whitespace cut off before and after it. It is empty exactly when the text is all whitespace, and otherwise neither starts nor ends with whitespace |
| Text.StripKeepsAbsent | src/database/business_db.py:44 | Stripping adds no character |
| Text.Find | src/engine/workflows/workflow.py:76 | The index of the first occurrence, or -1 when there is none |
| Text.RFind | src/engine/workflows/workflow.py:77 | The index of the last occurrence, or -1 when there is none |
| Text.LowerIsTrue | src/database/config.py:28 | The lower-cased text is "true" exactly when the text is "true" up to ASCII case |
| Text.IntRoundTrip | src/database/config.py:21 | `int()` parses a formatted integer back to the same integer |
| OrderedDict.Put | src/database/business_db.py:67 | Assigning keeps the key order, appends a new key at the end, and leaves the other entries in place |
| OrderedDict.GetPut | src/database/query_tools.py:166 | After an assignment the key maps to the new value and every other key is unchanged |
| OrderedDict.PutNoDup | src/database/business_db.py:67 | Assignment never duplicates a key |

## Left out

- The LLM agents (`Team.arun`, the judge's `run`, `Agent.arun`) and `json.loads` are oracles. What they compute is not modelled, and `async`/`await` is irrelevant to this sequential model.
- `float()` is a parameter (`parseFloat`) of `DiscussionTeam.ResolveScoreThreshold`, and printing the score with `str()` is a parameter (`formatScore`) of `Workflow.EvalInfo`. Floating-point arithmetic is not modelled. Scores and thresholds are reals compared with `>=` only.
- `int()` is modelled for ASCII digits, an optional sign and surrounding whitespace. Underscores between digits and non-ASCII digits, which Python also accepts, are not modelled.
- `str.lower()` is modelled for ASCII letters only. The only comparison it feeds is with "true".
- `ConfigLoader.ConfigLoader.LoadConfig`: a given `config_file` is reported as `GivenFile(path)` whether or not it exists. Resolving a relative path against the project root and the existence check in `load_from_env_file` (src/utils/config_loader.py:127-138, 227-231) are not modelled for it, because both are file-system I/O.
- `ConfigLoader.ConfigLoader.AddProdIp`, `AddPreviewIp` and `AddDevIp` append to lists the loader holds as values. In the source, `_load_ip_mapping` (src/utils/config_loader.py:37-47) keeps a reference to the mapping module's own lists, so an append there also changes `PROD_LIST`, `PREVIEW_LIST` or `DEV_LIST` of the module. That aliasing is not modelled, because nothing else in the core reads the module's lists afterwards.
- `get_local_ip` (sockets and interface queries) is a parameter `localIp`. dotenv loading is represented by which file is chosen, because the file contents and their effect on the environment are I/O. Other reads of `os.environ` beyond the modelled variables are left out.
- `get_config_dict` and `get_config_loader` in src/utils/config_loader.py are not part of this model. They only read variables into a dict, or return the module-level instance.
- SQL execution, `LAST_INSERT_ID`, table reflection and engine `dispose()` are oracles or left out. `insert_record`, `get_table_count` and `search_records` are modelled as statement text and parameters plus the shaping of the returned rows.
- `QueryTools.UpdateRecord`: the source assigns the `where_` parameters into the same dict as the `set_` ones. The model concatenates two prefixed dicts instead, which is the same dict because the prefixes keep the keys disjoint (`QueryTools.UpdateParamsNoDup`).
- The module-level singletons and wrapper functions (`business_db_manager`, `get_business_engine`, `get_business_session`, `list_business_databases`, `execute_business_query`, `db_config`, `get_database_config`, `vector_tools`, `get_vector_tools`) only forward to the modelled methods. They are not modelled separately. `BusinessDatabaseQueryTools.list_databases` is the registry's `list_databases`.
- `DatabaseConfig.get_config` returns a copy of the config dict. Configurations are immutable values here, so every read is already a copy and no separate member models it.
- Logging is left out everywhere.
- Milvus connections, `check_milvus_connection`, `get_milvus_client`, `Collection` construction and the import-time global instance are left out. `collection.load()` and the connection attempt are oracles that may fail. `str(field.dtype)` is kept as the data type itself rather than its printed name. A hit without `entity` is a hit with an empty entity.
- The workflow's `session_state` is read but never used by the step, so it is not modelled. A database reply whose content is None is treated like an empty one, because both are falsy where the content is used.
- The health check's per-database `SELECT 1` is a `ping` oracle. `get_session`'s session maker is modelled by the engine it is bound to.
