# QnA core, modelled in Dafny

QnA is a question-answering backend. It connects a user's SQL database, CSV
files and documents to a set of agents. A router classifies each question.
An orchestrating agent graph hands the question to the SQL, CSV, document
(RAG) or general agent, with a fallback when the requested source is
missing. Around it sit a file-driven tool registry, upload and conversation
bookkeeping in two web apps, and a web-search formatter.

This project models the deterministic part of that system: every decision
and every piece of bookkeeping that does not need a language model, a
database engine, a vector store or a web framework to run. Each foreign call
becomes an input. Examples:

- what the database inspector reports;
- the text a language model answered;
- whether a path exists and is a file;
- the clock.

There is one Dafny module per source file. Code that updates state in place
is a `class` with `modifies` clauses:

- the toolkit cache and the current connection;
- the orchestrator's `system_context`;
- the CSV registry;
- the tool and database registries;
- the `upload_status` and `conversations` tables;
- the Django records.

Loops are methods with invariants, each proved equal to a specification
function. The properties the code promises are proved as lemmas over those
functions:

- mode aliases and label defaults;
- the row window of a raw query;
- bounded schema summaries;
- capped suggestion lists;
- safe dispatch and the fallback order;
- registry keys;
- citation formats;
- the status machine;
- the conversation store.

| module | source file |
|---|---|
| Common, Strings | Python values and string operations the services rely on |
| SqlSession, SqlConnection, SqlQuery, SqlSchema, SqlSuggestions | backend/agent/agent_new/sql_tool.py |
| GraphSqlTool | backend/agent/graph/sql_tool.py |
| RouterAgent, SqlAgent, RagAgent, CsvAgent, AgentGraph | backend/agents/*.py |
| Managers | data_app/manager.py, backend/data_app/manager.py |
| ToolRegistry | the two agent_core/tools/sql_tool.py files |
| RagCitations | backend/data_app/agent_core/tools/pdf_rag_tool.py, data_app/agent_core/tools/csv_rag_tool.py |
| TavilySearch | backend/agent/agent_new/tavily_search_tool.py |
| Upload, Chat | backend/router/upload.py, backend/router/chat.py |
| AgentViews | backend/agent/views.py |
| QnaViews | backend/qna_app/views.py (with its models and serializers) |
| QnaForms, QnaModels | qna_app/forms.py, qna_app/models.py |

The model follows the code in these details:

- `describe_sql_schema` returns tables and views in the order the inspector
  yields them. It does not sort them alphabetically.
- `execute_raw_sql_query` refuses a limit of zero or less with an error
  before touching the database. A limit of 0 does not return an empty row
  set.
- `stream_query` in backend/router/chat.py raises its "Agent Graph not
  initialized" 503 inside its own `try`. Its `except Exception` catches it
  and re-raises it as a 500 whose detail is the 503's text. The upload
  router re-raises `HTTPException` first, so its 503s stay 503.
- `process_query` and `get_query_suggestions` are defined twice in
  backend/agents/agent_graph.py. The later definitions are the ones Python
  keeps, and they are the ones modelled.

## Model

| member | source | states |
|---|---|---|
| Strings.StripLeft | backend/agent/agent_new/sql_tool.py:97 | the result is a suffix of the text that does not start with whitespace, and only whitespace was dropped |
| Strings.StripRight | backend/agent/views.py:19 | the result is a prefix of the text that does not end with whitespace, and only whitespace was dropped |
| Strings.StripEnds | backend/agent/agent_new/sql_tool.py:97 | `strip()` leaves no whitespace at either end |
| Strings.StripIdempotent | backend/agent/agent_new/sql_tool.py:97 | stripping twice is stripping once |
| Strings.StripBlank | backend/agent/views.py:169 | a text strips to empty exactly when it is all whitespace |
| Strings.Lower | backend/agent/agent_new/sql_tool.py:97 | `lower()` keeps the length and leaves no ASCII capital |
| Strings.Upper | backend/agents/sql_agent.py:155 | `upper()` keeps the length and leaves no ASCII small letter |
| Strings.Words | backend/agent/views.py:16 | `split()` gives non-empty words with no whitespace in them |
| Strings.CollapseBlank | backend/agent/views.py:16 | `" ".join(value.split())` is empty exactly for a blank text |
| Strings.CollapseSingleSpaced | backend/agent/views.py:16 | the collapsed text has no space at either end and no two spaces in a row |
| SqlSession.PathName | backend/agent/agent_new/sql_tool.py:100 | the name has no `/` and is a suffix of the path |
| SqlSession.AliasesDisjoint | backend/agent/agent_new/sql_tool.py:98-109 | no mode spelling selects both SQLite and remote-URL mode |
| SqlSession.LabelOr | backend/agent/agent_new/sql_tool.py:100-113 | a non-blank display name is used stripped; a missing or blank one gives the default label |
| SqlSession.ResolveDetails | backend/agent/agent_new/sql_tool.py:97-122 | an unknown mode is refused; SQLite mode passes on the path error or builds a `sqlite:///` descriptor for the normalised path; URL mode needs a non-blank connection string and uses it stripped as both identifier and URI |
| SqlSession.CleanModeIdempotent | backend/agent/agent_new/sql_tool.py:97 | cleaning (strip, lower-case) an already cleaned mode changes nothing |
| SqlSession.LowerIdempotent | backend/agent/agent_new/sql_tool.py:97 | lower-casing twice is lower-casing once |
| SqlSession.ResolveIgnoresModeSpelling | backend/agent/agent_new/sql_tool.py:97-122 | padding and letter case in the mode never change the resolved descriptor or error |
| SqlSession.EnvironmentDetails | backend/agent/agent_new/sql_tool.py:63-87 | a non-blank `DATABASE_URL` wins; otherwise a non-empty `SQLITE_DB_PATH` gives a SQLite descriptor or its path error; otherwise no connection; a non-empty `DATABASE_LABEL` is the label |
| SqlSession.ToolkitState.constructor | backend/agent/agent_new/sql_tool.py:36-39 | no current connection and an empty toolkit cache |
| SqlSession.ToolkitState.UseConnection | backend/agent/agent_new/sql_tool.py:126-129 | the given connection becomes current, the previous one is returned as the token, the cache is untouched |
| SqlSession.ToolkitState.ResetConnection | backend/agent/agent_new/sql_tool.py:130-131 | the token's connection is current again, the cache is untouched |
| SqlSession.ToolkitState.ClearCache | backend/agent/agent_new/sql_tool.py:134-138 | without an identifier the cache is emptied; with one only that entry goes and every other entry is kept |
| SqlSession.ToolkitState.GetToolkit | backend/agent/agent_new/sql_tool.py:154-178 | no connection gives no toolkit; a cached toolkit is reused unless a rebuild is forced; otherwise the freshly built toolkit is cached under the connection's identifier, and a failed build leaves no entry for it |
| SqlSession.WithConnection | backend/agent/agent_new/sql_tool.py:125-131 | the previous connection is current again afterwards, and a cached toolkit for the given connection is returned without changing the cache |
| SqlConnection.NormaliseSqlitePath | backend/agent/agent_new/sql_tool.py:47-60 | a blank path (and only that) is "path required"; an accepted path names an existing regular file, absolute when home and root are; a relative path is anchored at the backend root and reported as missing or not a file |
| SqlConnection.ResolveConnectionDetails | backend/agent/agent_new/sql_tool.py:90-122 | a SQLite descriptor always names an existing regular file; SQLite mode with a blank path is "path required" |
| SqlConnection.EnvironmentConnection | backend/agent/agent_new/sql_tool.py:63-87 | a SQLite descriptor from the environment names an existing file |
| SqlConnection.BlankSqliteEnvRaises | backend/agent/agent_new/sql_tool.py:75-77 | a `SQLITE_DB_PATH` of spaces only, with no `DATABASE_URL`, raises "path required" rather than meaning "no connection" |
| SqlConnection.QueryReply | backend/agent/agent_new/sql_tool.py:208-225 | the reply is never empty: not configured, no query tool, the tool's text or the no-results text, or the failure text naming the exception type and message |
| SqlConnection.RunSqlQuery | backend/agent/agent_new/sql_tool.py:196-225 | never empty; no connection gives the not-configured reply; a cached toolkit answers without changing the cache; the current connection is kept |
| SqlQuery.Hex | backend/agent/agent_new/sql_tool.py:245 | two hex digits per byte |
| SqlQuery.Serialise | backend/agent/agent_new/sql_tool.py:232-250 | the result is always JSON-ready and a JSON-ready value is kept as it is; a date or time becomes its ISO text, a decimal its text, bytes their UTF-8 decoding or else their hex text, and any other value that JSON refuses its string form |
| SqlQuery.SerialiseRow | backend/agent/agent_new/sql_tool.py:273-276 | a row keeps its length and each cell is serialised in place |
| SqlQuery.ExecuteRawSqlQuery | backend/agent/agent_new/sql_tool.py:253-292 | a blank query, then a non-positive limit, is refused before execution; a result set gives at most `limit` serialised rows in cursor order, `hasMore` exactly when the cursor held more, and the cursor's columns; a statement without rows gives its row count (0 when unknown); a database failure is passed on |
| SqlQuery.Fetched | backend/agent/agent_new/sql_tool.py:270-282 | the first `limit` cursor rows (all when fewer), each serialised, and their count; `hasMore` exactly when the cursor held more than `limit`; the cursor's columns |
| SqlSchema.DescribeColumns | backend/agent/agent_new/sql_tool.py:306-319 | one entry per column in order, keeping name, type and default; nullable unless reported `False`; primary exactly when the name is in the primary-key constraint |
| SqlSchema.ForeignKeyPairs | backend/agent/agent_new/sql_tool.py:322-335 | a key without a referred table contributes nothing; otherwise row j pairs constrained column j with referred column j under the referred table, for every position of the shorter column list |
| SqlSchema.FlattenedKeysNameReferredTables | backend/agent/agent_new/sql_tool.py:321-335 | every flattened foreign-key row names a non-empty table that one of the inspector's keys refers to |
| SqlSchema.DescribeTable | backend/agent/agent_new/sql_tool.py:305-340 | the table keeps its name; its columns are DescribeColumns of the table and its foreign-key rows are the flattened rows of its keys, each naming a non-empty table that one of its keys refers to |
| SqlSchema.DescribeView | backend/agent/agent_new/sql_tool.py:345-360 | the view keeps its name and has one entry per column, in order, with that column's name and type, nullable unless the inspector says otherwise |
| SqlSchema.Describe | backend/agent/agent_new/sql_tool.py:300-366 | the default schema is reported; table i is DescribeTable of inspected table i, in inspector order; the views are DescribeView of each listed view, or none when the inspector cannot list them |
| SqlSchema.ForeignKeyRows | backend/agent/agent_new/sql_tool.py:321-335 | the loop builds exactly the flattened foreign-key rows |
| SqlSchema.TableEntries | backend/agent/agent_new/sql_tool.py:305-342 | the table loop gives one entry per inspected table, entry k being DescribeTable of table k |
| SqlSchema.DescribeSqlSchema | backend/agent/agent_new/sql_tool.py:300-366 | the table and view loops build exactly the described payload |
| SqlSchema.ChunkDescriptor | backend/agent/agent_new/sql_tool.py:395-399 | a primary-key column is labelled `PK` whatever its nullability; a column that does not mention nullability is labelled `NULL` |
| SqlSchema.ColumnChunksBound | backend/agent/agent_new/sql_tool.py:389-399 | one chunk per column below the column limit, then exactly one trailing `...` when columns remain |
| SqlSchema.TableLinesBound | backend/agent/agent_new/sql_tool.py:382-400 | one line per table below the table limit, then exactly one trailing `...` when tables remain |
| SqlSchema.SummariseColumns | backend/agent/agent_new/sql_tool.py:388-399 | the column loop yields the bounded chunk list, or fails where the source raises |
| SqlSchema.SummariseTable | backend/agent/agent_new/sql_tool.py:386-400 | a table's line is its name and its chunks, or "no columns" |
| SqlSchema.TableLine | backend/agent/agent_new/sql_tool.py:386-400 | an entry that is not a dict gives no line; a line starts with the table's name (or `table_i`) and ": " |
| SqlSchema.SummariseSchema | backend/agent/agent_new/sql_tool.py:374-404 | the table loop yields the bounded summary, "No tables discovered." for no tables, and fails where the source raises on a malformed payload |
| SqlSchema.Summary | backend/agent/agent_new/sql_tool.py:374-404 | a payload that is not a dict gives no summary; a payload without tables gives "No tables discovered." |
| SqlSuggestions.BlockTexts | backend/agent/agent_new/sql_tool.py:461-464 | joining the reply's content blocks can only fail with the `TypeError` of a non-string `text` entry |
| SqlSuggestions.BlockTextsOnePerBlock | backend/agent/agent_new/sql_tool.py:461-464 | every content block contributes exactly one piece of text, at its own position |
| SqlSuggestions.RawContent | backend/agent/agent_new/sql_tool.py:453-466 | reading the reply fails only for a list of content blocks, and then with a `TypeError` |
| SqlSuggestions.KeptWarnings | backend/agent/agent_new/sql_tool.py:491-495 | never more warnings kept than given |
| SqlSuggestions.KeptWarningsNonBlank | backend/agent/agent_new/sql_tool.py:491-495 | no kept warning is empty |
| SqlSuggestions.KeptWarningsComplete | backend/agent/agent_new/sql_tool.py:491-495 | every non-blank string warning is kept, stripped |
| SqlSuggestions.Collected | backend/agent/agent_new/sql_tool.py:479-497 | building the suggestions can only fail with the `TypeError` of a non-iterable `warnings` |
| SqlSuggestions.CollectedFailureSticks | backend/agent/agent_new/sql_tool.py:479-497 | once an item fails, no later item changes the outcome |
| SqlSuggestions.SuggestionOfWellFormed | backend/agent/agent_new/sql_tool.py:480-496 | a built suggestion has a non-blank stripped query, a non-blank title and non-blank warnings |
| SqlSuggestions.CollectedBound | backend/agent/agent_new/sql_tool.py:479-497 | at most one suggestion per item, each well formed (that a usable item is kept at its place is CollectedKeepsItem) |
| SqlSuggestions.WarningsListed | backend/agent/agent_new/sql_tool.py:491-495 | missing warnings iterate as no warnings, a list as its items |
| SqlSuggestions.FallbackText | backend/agent/agent_new/sql_tool.py:488-490 | `str(a or b).strip()`: the first field when non-empty, else the second, stripped |
| SqlSuggestions.ImprovedQueryStripped | backend/agent/agent_new/sql_tool.py:487 | the default title is its own stripped form |
| SqlSuggestions.BuiltFields | backend/agent/agent_new/sql_tool.py:485-496 | a built suggestion holds the query, the stripped title or "Improved query" when blank, the summary falling back to the description, the rationale falling back to the reasoning, and the kept warnings |
| SqlSuggestions.SuggestionOfBuilt | backend/agent/agent_new/sql_tool.py:480-497 | a dict item with a non-blank query and iterable warnings is built into a suggestion |
| SqlSuggestions.SuggestionOfPresent | backend/agent/agent_new/sql_tool.py:480-497 | a dict item with a non-blank query and listed or missing warnings yields the suggestion with exactly those field values |
| SqlSuggestions.CollectedPrefix | backend/agent/agent_new/sql_tool.py:479-497 | the suggestions of the first items are a prefix of the suggestions of all of them |
| SqlSuggestions.CollectedKeepsItem | backend/agent/agent_new/sql_tool.py:479-497 | an item that yields a suggestion has it in the output, right after the suggestions of the items before it |
| SqlSuggestions.CollectSuggestions | backend/agent/agent_new/sql_tool.py:479-497 | the loop builds exactly the collected suggestions, stopping at the first failure |
| SqlSuggestions.GenerateSqlSuggestions | backend/agent/agent_new/sql_tool.py:407-505 | the step-by-step operation yields exactly the report described by the argument checks, the schema overview (8 tables, 6 columns), the reply and the suggestion loop |
| SqlSuggestions.ReportFromContract | backend/agent/agent_new/sql_tool.py:468-505 | a report keeps the raw reply and never holds more than the requested number of suggestions, each well formed; a reply that is not JSON yields no suggestions and becomes the analysis unless blank |
| SqlSuggestions.GenerateContract | backend/agent/agent_new/sql_tool.py:415-422 | a blank query (and only that) is refused first, then a non-positive count, then a missing API key; a report never exceeds the requested count |
| SqlSuggestions.GenerateFromReply | backend/agent/agent_new/sql_tool.py:453-505 | once the argument checks pass, the only failure is the `TypeError` of the reply, and a report holds at most the requested number of well-formed suggestions |
| GraphSqlTool.NormaliseSqlitePath | backend/agent/graph/sql_tool.py:39-46 | a blank path (and only that) is refused; otherwise the stripped path, anchored at the backend root when relative, without any existence check |
| GraphSqlTool.MissingFileAcceptedOnlyHere | backend/agent/graph/sql_tool.py:39-46 | an absolute path to a missing file is accepted by this variant and refused as not found by the agent_new variant |
| GraphSqlTool.ResolveConnectionDetails | backend/agent/graph/sql_tool.py:76-108 | in SQLite mode resolution succeeds exactly when the path is not blank; an unknown mode is refused |
| GraphSqlTool.EnvironmentConnection | backend/agent/graph/sql_tool.py:49-73 | a non-blank `SQLITE_DB_PATH` always yields a connection |
| GraphSqlTool.QueryReply | backend/agent/graph/sql_tool.py:181-193 | not configured, no query tool, the tool's text as it is, or the failure text with the exception message |
| GraphSqlTool.RunSqlQuery | backend/agent/graph/sql_tool.py:179-193 | no connection gives the not-configured reply; a cached toolkit answers without changing the cache; the current connection is kept |
| RouterAgent.EnhancedQuery | backend/agents/router_agent.py:89-96 | the query followed by the SQL, CSV and document markers of the available sources, in that order |
| RouterAgent.EnhancedQueryPlain | backend/agents/router_agent.py:89-96 | without any available source the query reaches the chain unchanged |
| RouterAgent.ClassifyQuery | backend/agents/router_agent.py:76-112 | the chain's classification when it succeeds; otherwise a general classification with confidence 0.5 whose reasoning carries the error |
| RouterAgent.RouteQuery | backend/agents/router_agent.py:124-131 | sql, csv and rag go to their own agent node; anything else to the general agent |
| RouterAgent.RouteQueryInjective | backend/agents/router_agent.py:124-131 | two classified types reach the same node exactly when they are equal |
| RouterAgent.ProcessQuery | backend/agents/router_agent.py:144-153 | the result carries the classification, its type name, the route for that name, and its confidence and reasoning |
| SqlAgent.FirstDangerous | backend/agents/sql_agent.py:154-162 | the keyword reported occurs in the upper-cased text and is the first in list order that does; none is reported exactly when no keyword occurs |
| SqlAgent.CreatedAtIsRefused | backend/agents/sql_agent.py:154-158 | the guard matches substrings: a statement starting with the column name `created_at` is refused because it contains CREATE |
| SqlAgent.FindOpener | backend/agents/sql_agent.py:250-251 | the earliest opening SQL fence at or after the position, or none at all |
| SqlAgent.FindCloser | backend/agents/sql_agent.py:250-251 | the earliest closing fence at or after the position, or none at all |
| SqlAgent.SqlFence | backend/agents/sql_agent.py:250-252 | an extracted body lies between an opening and a closing fence; whenever an opening fence is followed by a closing one, a body is extracted |
| SqlAgent.SqlFenceIsFirst | backend/agents/sql_agent.py:250-252 | the body comes from the first opening fence and contains no closing fence (the lazy match) |
| SqlAgent.TablesPrompts | backend/agents/sql_agent.py:296-302 | four prompts per table, grouped table by table in table order |
| SqlAgent.Suggestions | backend/agents/sql_agent.py:279-305 | without a database the single "No database connected"; otherwise four prompts for each of the first three tables, table by table, then the generic prompts, cut to ten |
| SqlAgent.SqlAgentState.constructor | backend/agents/sql_agent.py:35-54 | an agent created without a URL has no database and is not ready |
| SqlAgent.SqlAgentState.WithUrl | backend/agents/sql_agent.py:35-54 | the URL is stored; a non-empty URL that opens gives a ready agent with that database, any other gives no database |
| SqlAgent.SqlAgentState.ConnectToDatabase | backend/agents/sql_agent.py:85-100 | success exactly when the database opened; then it is the agent's database and the agent is ready; a failure changes nothing |
| SqlAgent.SqlAgentState.Validate | backend/agents/sql_agent.py:139-186 | valid exactly when a database and a stored URL exist, the statement compiles and no dangerous keyword occurs in the upper-cased statement; a valid outcome carries the compiled text |
| SqlAgent.SqlAgentState.ValidateSqlQuery | backend/agents/sql_agent.py:139-186 | accepted only with a database and a stored URL and when no dangerous keyword occurs in the upper-cased statement; without a database the answer is "No database connected"; without a stored URL a keyword-free statement gets the "SQL syntax error" that `create_engine(None)` raises |
| SqlAgent.SqlAgentState.ExecuteSqlQuery | backend/agents/sql_agent.py:188-221 | the statement is executed exactly when validation accepts it and the database runs it, which needs a stored URL; a refusal carries the validation error; SQL and other failures carry their own prefixes |
| SqlAgent.SqlAgentState.ProcessNaturalLanguageQuery | backend/agents/sql_agent.py:223-267 | an agent that is not ready refuses; otherwise the hinted question goes to the language agent, and its answer comes back with the extracted SQL fence, or its failure as an error |
| SqlAgent.SqlAgentState.GetQuerySuggestions | backend/agents/sql_agent.py:269-305 | the loop builds exactly the suggestion list (see SqlAgent.Suggestions); without a database, the single "No database connected" entry |
| SqlAgent.EnhancedQuery | backend/agents/sql_agent.py:234-244 | the question, then the table-hint block, then the column-hint block, each present only when hints are given |
| RagAgent.FormattedEntries | backend/agents/rag_agent.py:122-128 | one entry per document, numbered from 1 in retrieval order |
| RagAgent.FormatDocs | backend/agents/rag_agent.py:119-130 | the loop yields the numbered entries joined by blank lines |
| RagAgent.KeptHits | backend/agents/rag_agent.py:335-338 | a hit is kept exactly when its score reaches the threshold; no hit is invented |
| RagAgent.KeptHitsAppend | backend/agents/rag_agent.py:335-338 | filtering distributes over concatenation, so the kept hits stay in retrieval order |
| RagAgent.KeptHitsAll | backend/agents/rag_agent.py:335-338 | when every hit reaches the threshold, all are kept, in order |
| RagAgent.Bump | backend/agents/rag_agent.py:424-428 | a new source adds one statistic; a known source adds none |
| RagAgent.BumpSums | backend/agents/rag_agent.py:423-429 | adding a document raises the total count by one and the total characters by its length |
| RagAgent.StatsSums | backend/agents/rag_agent.py:420-447 | the per-source counts add up to the number of documents and the per-source characters to their total length |
| RagAgent.BumpKeepsSourcesDistinct | backend/agents/rag_agent.py:424-426 | adding a document keeps the sources distinct and adds exactly its source |
| RagAgent.StatsSourcesDistinct | backend/agents/rag_agent.py:420-428 | each source appears once, and exactly the documents' sources appear |
| RagAgent.Stats | backend/agents/rag_agent.py:420-429 | never more source statistics than documents (per-source values in StatsEntries) |
| RagAgent.BumpValues | backend/agents/rag_agent.py:424-428 | recording one document raises the count of its own source by one and its characters by the document's length, and leaves every other source's values alone |
| RagAgent.StatsValues | backend/agents/rag_agent.py:420-429 | the recorded count and characters of any source are the number and total length of that source's documents |
| RagAgent.StatsEntries | backend/agents/rag_agent.py:420-429 | every entry of the statistics carries the count and characters of its own source's documents |
| RagAgent.Average | backend/agents/rag_agent.py:447 | the integer quotient `total // count` |
| RagAgent.Summary | backend/agents/rag_agent.py:408-451 | an empty summary exactly when there are no documents; otherwise one entry per distinct source whose count is the number of that source's documents and whose characters are their total length; the document count and character total are the sums over the entries, and the average their integer quotient |
| RagAgent.SourcePrompts | backend/agents/rag_agent.py:508-511 | two prompts per source |
| RagAgent.PromptPair | backend/agents/rag_agent.py:510-511 | exactly two prompts about a source |
| RagAgent.EnhancedQuestion | backend/agents/rag_agent.py:380-385 | the question, then the filter block, then the sections block, each present only when given |
| RagAgent.Suggestions | backend/agents/rag_agent.py:490-513 | without documents the single "No documents loaded" entry; otherwise the ten fixed prompts first, then two per source for up to three sources, cut to fifteen |
| RagAgent.RagAgentState.constructor | backend/agents/rag_agent.py:35-71 | the store, retriever and chain exist exactly when a saved store exists; no documents |
| RagAgent.RagAgentState.AddDocuments | backend/agents/rag_agent.py:263-306 | no chunks, or a store failure, is an error that keeps the documents, retriever and chain; the store exists afterwards exactly when it did before or the failure came after it was built; otherwise the documents are appended, the store, retriever and chain exist, and the new total is returned |
| RagAgent.RagAgentState.SearchDocuments | backend/agents/rag_agent.py:325-354 | without a store the search is refused; a failing similarity search gives its message as the error; otherwise the hits at or above the threshold, in retrieval order (KeptHitsAppend), with their number |
| RagAgent.RagAgentState.AnswerQuestion | backend/agents/rag_agent.py:375-406 | without a chain nothing is asked; otherwise the chain's answer to the filtered, sectioned question with the document count, or its failure |
| RagAgent.RagAgentState.GetDocumentSummary | backend/agents/rag_agent.py:408-451 | the summary is that of the stored documents: each source's count and characters are those of its own documents, and they add up (Summary, StatsEntries, StatsSums) |
| RagAgent.RagAgentState.ClearVectorStore | backend/agents/rag_agent.py:464-477 | when the store's directory is removed, the success message and no store, retriever, chain or documents remain; when removing it fails, its message and nothing changes |
| RagAgent.RagAgentState.GetQuerySuggestions | backend/agents/rag_agent.py:483-513 | the suggestion list for the stored documents and the enumeration order of their distinct sources |
| RagAgent.CountSources | backend/agents/rag_agent.py:420-429 | the counting loop yields the per-source statistics and the total characters |
| RagAgent.AddSourcePrompts | backend/agents/rag_agent.py:506-511 | the loop appends two prompts per source, in order |
| CsvAgent.FirstOfKind | backend/agents/csv_agent.py:524-528 | a column is named exactly when the frame has one of the kind, and it is the first such column |
| CsvAgent.Suggestions | backend/agents/csv_agent.py:509-546 | without a frame "No CSV data loaded"; otherwise the eight base prompts first, then three for a numeric column, three for a categorical one and one for a second numeric column: at most fifteen, so the cap never cuts |
| CsvAgent.ShapeBlock | backend/agents/csv_agent.py:350 | the frame description closes with "..." |
| CsvAgent.EnhancedQuery | backend/agents/csv_agent.py:342-351 | the query, then the column-hint block, the analysis-type block and the frame description, in that order |
| CsvAgent.CsvAgentState.constructor | backend/agents/csv_agent.py:30-45 | an empty registry with no current frame and no pandas agent |
| CsvAgent.CsvAgentState.Store | backend/agents/csv_agent.py:146-151 | the frame is registered under the name (a new name is listed last, a known one keeps its place) and becomes current, with an agent built for it |
| CsvAgent.CsvAgentState.LoadCsvFromString | backend/agents/csv_agent.py:124-168 | a parse failure is reported and changes nothing; a parsed frame is registered, made current, and described by its name, row count and column names |
| CsvAgent.CsvAgentState.LoadCsvFile | backend/agents/csv_agent.py:66-122 | as loading from text, the name defaulting to the file's stem: a parse failure changes nothing; a parsed frame is registered under the name, made current, and described by its name, row count and column names |
| CsvAgent.CsvAgentState.SwitchDataframe | backend/agents/csv_agent.py:182-200 | succeeds exactly for a registered name, which becomes current; the registry never changes and a failure moves nothing |
| CsvAgent.CsvAgentState.InfoTarget | backend/agents/csv_agent.py:212-215 | a non-empty registered name selects that frame; anything else falls back to the current frame |
| CsvAgent.CsvAgentState.ProcessNaturalLanguageQuery | backend/agents/csv_agent.py:322-369 | without a current frame and agent the query is refused; otherwise the agent's answer with the current frame's name, or its failure |
| CsvAgent.CsvAgentState.ListDataframes | backend/agents/csv_agent.py:548-564 | one entry per registered frame, each with its own frame, every frame listed, and the current name |
| CsvAgent.CsvAgentState.ClearFrames | backend/agents/agent_graph.py:1068-1074 | the registry is emptied and no frame is current |
| AgentGraph.AvailableAgents | backend/agents/agent_graph.py:532-545 | at most four agents are listed |
| AgentGraph.AvailableAgentsMembers | backend/agents/agent_graph.py:532-545 | an agent is listed exactly when it exists and, for a data agent, its data is loaded; nothing but agent names is listed |
| AgentGraph.AvailableAgentsOrdered | backend/agents/agent_graph.py:532-545 | the agents are listed in the fixed order router, sql, csv, rag |
| AgentGraph.RouteDecision | backend/agents/agent_graph.py:234-247 | the classified type (general when absent) is kept unless its data is missing, and then the route is "fallback" |
| AgentGraph.Fallback | backend/agents/agent_graph.py:1397-1410 | fallback always finds an agent: CSV data answers exactly the SQL questions it can, SQL data exactly the CSV questions, then the documents, then the general agent only without documents |
| AgentGraph.Dispatch | backend/agents/agent_graph.py:1197-1218 | a type whose agent and data exist goes to that agent; general goes to the general agent; otherwise fallback when enabled, else the "not available" response naming the type |
| AgentGraph.DispatchSafe | backend/agents/agent_graph.py:1197-1218 | in a consistent state a data agent only receives queries when it exists and its data is loaded, and a query goes unanswered exactly when fallback is off and its own agent cannot answer |
| AgentGraph.RouteAgreesWithDispatch | backend/agents/agent_graph.py:234-247 | a route to a data agent that is not "fallback" is answered by that very agent |
| AgentGraph.Prefixed | backend/agents/agent_graph.py:1463-1473 | one prompt per input, each carrying the prefix |
| AgentGraph.TakeFive | backend/agents/agent_graph.py:1465 | the first five prompts, or all when fewer |
| AgentGraph.Part | backend/agents/agent_graph.py:1463-1473 | an inactive agent adds nothing; an active one adds its first five prompts (all when fewer), prompt k as the tag followed by prompt k |
| AgentGraph.GraphSuggestionsShape | backend/agents/agent_graph.py:1457-1484 | between four and nineteen prompts, so the cut to twenty never removes any; the four general prompts close the list and every prompt before them carries a source tag |
| AgentGraph.GraphSuggestions | backend/agents/agent_graph.py:1457-1484 | exactly the first five SQL, CSV and document prompts of each active agent with data, each with its source tag, in that order, then the four general prompts; so between four and nineteen, and the cut to twenty never removes any |
| AgentGraph.AllTagged | backend/agents/agent_graph.py:1457-1484 | every prompt of a source carries that source's tag |
| AgentGraph.ReplaceAll | backend/agents/agent_graph.py:808 | text without the pattern is returned unchanged; a replacement no longer than the pattern never lengthens the text |
| AgentGraph.UploadNameOfStem | backend/agents/agent_graph.py:808 | an upload `stem.csv` whose stem has no dot is stored under `stem` |
| AgentGraph.UploadName | backend/agents/agent_graph.py:808 | never longer than the upload name; a name not ending in ".csv" is kept as it is |
| AgentGraph.FileError | backend/agents/agent_graph.py:879-885 | a file contributes no error line exactly when it has a name and loaded |
| AgentGraph.LoadedCount | backend/agents/agent_graph.py:857-886 | never more files loaded than given |
| AgentGraph.UploadErrors | backend/agents/agent_graph.py:857-886 | never more error lines than files |
| AgentGraph.UploadAccounting | backend/agents/agent_graph.py:857-890 | every file is either counted as loaded or contributes one error line; none loaded exactly when every file has an error line |
| AgentGraph.AgentGraphState.constructor | backend/agents/agent_graph.py:70-139 | the SQL agent (and SQL data) exist exactly when a non-empty URL is given; no CSV data or documents; the published list is router, plus sql when connected |
| AgentGraph.AgentGraphState.UpdateSystemContext | backend/agents/agent_graph.py:532-545 | the published list is recomputed from the flags: sql, csv and rag are listed exactly when their data is loaded; no flag changes |
| AgentGraph.AgentGraphState.SelectHandler | backend/agents/agent_graph.py:1197-1218 | on a valid state a data agent is handed a query only when its data is loaded; no agent answers exactly when fallback is off and the type's own agent cannot |
| AgentGraph.AgentGraphState.ConnectSqlDatabase | backend/agents/agent_graph.py:694-744 | success exactly when opening succeeds: then the SQL agent exists with the new URL and sql is listed; a failure changes no SQL state, and an existing agent reports the generic failure text |
| AgentGraph.AgentGraphState.LoadCsvFile | backend/agents/agent_graph.py:746-792 | a parse failure changes nothing; a parsed file is registered under the given name or the file's stem, becomes current, and csv is listed |
| AgentGraph.AgentGraphState.LoadCsvFromUpload | backend/agents/agent_graph.py:794-844 | a decoding or parse failure changes nothing; otherwise the frame is registered under the name with ".csv" removed, becomes current, and csv is listed |
| AgentGraph.AgentGraphState.LoadDocumentsFromUpload | backend/agents/agent_graph.py:846-917 | success exactly when at least one file loaded, reporting the count and the error lines; then documents are marked and rag listed; otherwise every file has an error line and nothing changes |
| AgentGraph.AgentGraphState.ClearDataSource | backend/agents/agent_graph.py:1059-1103 | sql, csv and documents each drop only their own source and its listing; the documents are reported cleared even when removing the store's directory fails, which then leaves the document agent as it was; any other name is refused and changes nothing |
| AgentGraph.AgentGraphState.GetQuerySuggestions | backend/agents/agent_graph.py:1457-1488 | exactly GraphSuggestions on the current state: the tagged first five prompts of the SQL agent with data, the current CSV frame's prompts and the document prompts, each only when its data is loaded, then the general prompts; with no data loaded the general prompts alone |
| Managers.RegistryKeyInjective | data_app/manager.py:213-221 | tool keys of different kinds or file ids never collide, so only a re-upload of the same kind and id replaces a tool |
| Managers.KeyIsNotWrapperName | backend/data_app/manager.py:72 | a file's registry key and its wrapper's reported name differ |
| Managers.WrapperReply | backend/data_app/manager.py:60-104 | a bound wrapper answers the inner tool's text, or on failure the kind-specific message naming the file id |
| Managers.AgentResponse | backend/data_app/manager.py:144-160 | the last message of the run, the fixed text when the run produced none, the apology when it raised |
| Managers.Manager.constructor | data_app/manager.py:126-151 | web search is the only tool and the graph is built from it |
| Managers.Manager.Register | data_app/manager.py:227-232 | the tool is stored under its name, a new name joins the end of the order, and the graph is rebuilt from all tools in order |
| Managers.Manager.ProcessUploadedFile | data_app/manager.py:155-240 | succeeds exactly for .pdf/.csv/.sql with no PDF failure; a success registers the kind's shared tool under its key, a failure changes nothing; a .sql upload configures its database |
| Managers.Manager.ProcessUploadedFileBackend | backend/data_app/manager.py:106-142 | succeeds exactly for a supported existing file whose processing does not raise; registers a wrapper bound to the file id; a refusal changes nothing |
| Managers.ReuploadOverwrites | data_app/manager.py:228 | a PDF and a CSV of the same id keep both tools; the same kind twice keeps the later one |
| ToolRegistry.SplitExt | data_app/manager.py:195 | the extension is empty or a dot followed by no dot or slash, and the path ends with it |
| ToolRegistry.HiddenFileHasNoExtension | backend/data_app/manager.py:108-112 | a hidden file such as `dir/.sql` has no extension, so the managers refuse it |
| ToolRegistry.QueryReplyCases | backend/data_app/agent_core/tools/sql_tool.py:69-79 | once the database is found, a failing generation or run is reported with its details; otherwise the query and its result |
| ToolRegistry.BackendUri | backend/data_app/agent_core/tools/sql_tool.py:28-43 | a `.sql` script opens the database generated for its file id; any other file is opened where it is |
| ToolRegistry.SqlDatabaseRegistry.constructor | data_app/agent_core/tools/sql_tool.py:63 | an empty registry |
| ToolRegistry.SqlDatabaseRegistry.Register | data_app/agent_core/tools/sql_tool.py:111 | the id maps to the database; a new id joins the end of the listing order |
| ToolRegistry.SqlDatabaseRegistry.ConfigureDatabase | data_app/agent_core/tools/sql_tool.py:66-120 | a database that opens is registered under its id; a failure is swallowed and changes nothing |
| ToolRegistry.SqlDatabaseRegistry.ConfigureBackendDatabase | backend/data_app/agent_core/tools/sql_tool.py:22-50 | registered at its URI only when the script (if any) runs and the database opens; otherwise nothing changes |
| ToolRegistry.SqlDatabaseRegistry.Query | backend/data_app/agent_core/tools/sql_tool.py:53-79 | an unknown id lists the registered ids in registration order; a known one answers as `QueryReply` (data_app/agent_core/tools/sql_tool.py:190-225 behaves the same) |
| RagCitations.ProcessPdf | backend/data_app/agent_core/tools/pdf_rag_tool.py:18-41 | succeeds exactly for a loaded PDF with pages and no later failure, writing the index under `data/faiss_index_<id>`; an empty PDF and a missing file fail with their wrapped messages |
| RagCitations.PageCitation | backend/data_app/agent_core/tools/pdf_rag_tool.py:70-72 | "[source]" for a missing or null page, "[page p+1]" for a number, a failure for a page that cannot be added to |
| RagCitations.PdfCitations | backend/data_app/agent_core/tools/pdf_rag_tool.py:68-72 | on success one citation per source, in order |
| RagCitations.PdfCitationsFail | backend/data_app/agent_core/tools/pdf_rag_tool.py:68-72 | the loop fails exactly when some source cannot be cited |
| RagCitations.AnswerQuestionOnPdf | backend/data_app/agent_core/tools/pdf_rag_tool.py:44-85 | the loop computes PdfAnswer: a missing index is answered by the failure the loader raised (the not-processed text only for a missing file), another failure by the error-details text, success by the answer, a blank line and "Sources: " followed by the space-joined citations |
| RagCitations.CitePages | backend/data_app/agent_core/tools/pdf_rag_tool.py:68-72 | the append loop computes the citation function, stopping at the first failure |
| RagCitations.PdfFailureSticks | backend/data_app/agent_core/tools/pdf_rag_tool.py:68-72 | a failed prefix fails the whole loop with the same error |
| RagCitations.PdfFailureStep | backend/data_app/agent_core/tools/pdf_rag_tool.py:68-72 | one more source after a failure keeps that failure |
| RagCitations.Cited | backend/data_app/agent_core/tools/pdf_rag_tool.py:73-74 | the reply is the answer text, a blank line, "Sources: " and the citations joined by single spaces |
| RagCitations.PdfReply | backend/data_app/agent_core/tools/pdf_rag_tool.py:66-85 | a source that cannot be cited gives the error-details text with its message; otherwise the answer text, a blank line, "Sources: " and the space-joined citations |
| RagCitations.FailureReply | backend/data_app/agent_core/tools/pdf_rag_tool.py:75-85 | the not-processed text exactly for a missing file; any other failure gives the error-details text with its message |
| RagCitations.PdfAnswer | backend/data_app/agent_core/tools/pdf_rag_tool.py:44-85 | a missing index is answered by the loader's failure, a failing chain by its failure, otherwise the answer text, a blank line, "Sources: " and the space-joined citations computed from the chain's sources |
| RagCitations.ProcessedPdfIsAnswered | backend/data_app/agent_core/tools/pdf_rag_tool.py:35-50 | the index a successful processing writes is the one the tool reads, so a processed PDF is answered from its chain |
| RagCitations.ProcessCsv | data_app/agent_core/tools/csv_rag_tool.py:18-33 | the CSV index is added on success; a failure is swallowed and adds nothing |
| RagCitations.RowCitation | data_app/agent_core/tools/csv_rag_tool.py:61-63 | "[source]" for a missing or null row, "[row r]" for a row number as stored |
| RagCitations.CsvCitations | data_app/agent_core/tools/csv_rag_tool.py:59-63 | one citation per source, in order |
| RagCitations.CsvAnswer | data_app/agent_core/tools/csv_rag_tool.py:36-67 | a missing index or a failing chain gives the one error text carrying its message; otherwise the answer text, a blank line, "Sources: " and the space-joined row citations of its sources |
| RagCitations.AnswerQuestionOnCsv | data_app/agent_core/tools/csv_rag_tool.py:36-67 | the citation loop computes CsvAnswer: every failure gives the one error text, success the answer, a blank line, "Sources: " and the space-joined row citations |
| RagCitations.ProcessedCsvIsAnswered | data_app/agent_core/tools/csv_rag_tool.py:18-67 | a CSV processed without failure is answered from its chain; a failed one with no earlier index reports the loading error |
| TavilySearch.CutContent | backend/agent/agent_new/tavily_search_tool.py:119-122 | content within 500 characters is kept; longer content keeps its first 500 characters and gains "..." |
| TavilySearch.StripEntry | backend/agent/agent_new/tavily_search_tool.py:106-113 | a string entry is stripped; any other value makes `.strip()` raise, with Python's attribute-error text |
| TavilySearch.ContentEntry | backend/agent/agent_new/tavily_search_tool.py:108-113 | the first truthy one of content, summary and snippet, else the empty string |
| TavilySearch.DictChunk | backend/agent/agent_new/tavily_search_tool.py:105-129 | a non-string title, url or content (checked in that order) raises with Python's attribute-error text; otherwise the chunk built from the stripped title, content and url |
| TavilySearch.DictChunkFull | backend/agent/agent_new/tavily_search_tool.py:105-129 | a dict with non-blank title, content and url renders the bold stripped title, the cut stripped content and "Source: " with the stripped url, on three lines |
| TavilySearch.ChunkParts | backend/agent/agent_new/tavily_search_tool.py:115-125 | no lines exactly when title, content and url are all empty; the last line is never empty |
| TavilySearch.ChunkText | backend/agent/agent_new/tavily_search_tool.py:115-128 | nothing exactly when title, content and url are all empty; otherwise the non-empty newline join of the parts |
| TavilySearch.ChunkTextFull | backend/agent/agent_new/tavily_search_tool.py:115-128 | with all three parts present, the bold title, the cut content and the source line, in that order |
| TavilySearch.JoinNonEmpty | backend/agent/agent_new/tavily_search_tool.py:127-128 | joining lines whose last is non-empty gives a non-empty chunk |
| TavilySearch.ItemChunk | backend/agent/agent_new/tavily_search_tool.py:98-133 | a non-blank string summary renders "**Result idx:**" and the stripped summary; a plain string renders stripped or not at all; only a dict item can raise |
| TavilySearch.Chunks | backend/agent/agent_new/tavily_search_tool.py:97-133 | never more chunks than items |
| TavilySearch.Step | backend/agent/agent_new/tavily_search_tool.py:98-133 | one item adds at most one chunk |
| TavilySearch.ChunksPrefix | backend/agent/agent_new/tavily_search_tool.py:98 | the loop over one more item is one more step |
| TavilySearch.ResultNumberIsPosition | backend/agent/agent_new/tavily_search_tool.py:98-101 | an item is numbered by its place in the list, not by how many chunks came before it |
| TavilySearch.SilentItemAddsNothing | backend/agent/agent_new/tavily_search_tool.py:131-133 | an item that renders nothing leaves the chunks unchanged |
| TavilySearch.Render | backend/agent/agent_new/tavily_search_tool.py:135-138 | a raised item is the failure; no chunks gives "No useful search results were found."; otherwise the chunks joined by the separator line |
| TavilySearch.RenderSingle | backend/agent/agent_new/tavily_search_tool.py:135-138 | a single chunk is the whole rendering, with no separator |
| TavilySearch.Format | backend/agent/agent_new/tavily_search_tool.py:81-138 | no reply, a dict without results and a direct answer each get their own text; a list is rendered item by item |
| TavilySearch.RenderChunks | backend/agent/agent_new/tavily_search_tool.py:96-138 | the loop computes the rendering function |
| TavilySearch.FailureSticks | backend/agent/agent_new/tavily_search_tool.py:97-133 | once an item raises, later items change nothing |
| TavilySearch.SearchCache.constructor | backend/agent/agent_new/tavily_search_tool.py:20 | no cached client |
| TavilySearch.SearchCache.GetTool | backend/agent/agent_new/tavily_search_tool.py:23-49 | the key is checked on every call; the first configuration is cached and later ones are ignored |
| TavilySearch.SearchCache.Reset | backend/agent/agent_new/tavily_search_tool.py:141-144 | the cache is empty |
| TavilySearch.SearchCache.Search | backend/agent/agent_new/tavily_search_tool.py:52-138 | without a key the "unavailable" text and no client; a failed search reports its type and message; otherwise the formatted reply |
| Upload.FileId | backend/router/upload.py:39-42 | the id is the first eight digest characters, an underscore and the file name |
| Upload.FileIdInjective | backend/router/upload.py:39-42 | two uploads share an id only when their digests start alike and their names are equal |
| Upload.ValidFileSize | backend/router/upload.py:44-48 | an unknown or zero size passes; a known size passes exactly when it is within the limit in MiB |
| Upload.SizeLimitMonotone | backend/router/upload.py:44-48 | a size accepted under a limit is accepted under any larger one |
| Upload.FileTypeInfo | backend/router/upload.py:50-71 | the lower-cased extension with its table entry; "unknown"/"Unknown File Type" exactly for extensions not in the table |
| Upload.CheckSingleCsv | backend/router/upload.py:86-98 | accepted exactly for a case-insensitive `.csv` name within 100 MB; a wrong name is 400, an oversize file 413 |
| Upload.UpperCaseSuffixAccepted | backend/router/upload.py:87 | `REPORT.CSV` is accepted as a CSV |
| Upload.CheckSingleDocument | backend/router/upload.py:173-186 | accepted exactly for a .pdf/.txt/.md/.docx name within 50 MB; 400 and 413 otherwise |
| Upload.BatchScan | backend/router/upload.py:276-301 | an accepted batch's running total is the total size and within 200 MB; a refusal is a 400 or the 413 |
| Upload.BatchAcceptedSupported | backend/router/upload.py:281-286 | every file of an accepted batch has a supported type |
| Upload.BatchFailureSticks | backend/router/upload.py:281-295 | once a prefix fails, the whole batch fails with the same error |
| Upload.BatchRejectedAt | backend/router/upload.py:281-295 | a refused batch is refused at a definite file, every earlier file having passed |
| Upload.RejectedEarlier | backend/router/upload.py:281-295 | a refusal within the batch minus its last file is a refusal of the whole batch |
| Upload.BatchAccepted | backend/router/upload.py:281-295 | supported files with a total within 200 MB always pass |
| Upload.ValidateBatch | backend/router/upload.py:276-301 | the validation loop computes the scan function |
| Upload.LexLeTotal | backend/router/upload.py:386-390 | Python's string order is total |
| Upload.LexLeTrans | backend/router/upload.py:386-390 | Python's string order is transitive |
| Upload.Insert | backend/router/upload.py:386-390 | insertion keeps the order descending and adds exactly the item |
| Upload.SortDesc | backend/router/upload.py:386-390 | the sort is a permutation and descending by timestamp (stability is SortDescStable) |
| Upload.InsertStable | backend/router/upload.py:386-390 | an inserted record goes before the records with its timestamp, and those keep their order |
| Upload.SortDescStable | backend/router/upload.py:386-390 | records with equal timestamps keep their input order, as Python's stable sort does |
| Upload.PySlice | backend/router/upload.py:390 | `s[:limit]` is a prefix, with Python's reading of a negative limit |
| Upload.Newest | backend/router/upload.py:386-400 | at most `limit` entries, newest first, each taken from the table |
| Upload.MissingTimestampSortsLast | backend/router/upload.py:388 | a record without a timestamp (a batch) sorts after every record with one |
| Upload.HistoryKeepsNewest | backend/router/upload.py:386-390 | whatever the history leaves out is no newer than anything it lists |
| Upload.ExpiredIds | backend/router/upload.py:430-440 | exactly the ids whose timestamp parses and is before the cutoff |
| Upload.Without | backend/router/upload.py:443-444 | the ids minus the removed ones, order kept, still distinct |
| Upload.WithoutNothing | backend/router/upload.py:443-444 | removing nothing keeps every id |
| Upload.WithoutOneMore | backend/router/upload.py:443-444 | removing one more id is one more step of the deletion loop |
| Upload.CleanupPartition | backend/router/upload.py:426-444 | every id is removed or kept, never both |
| Upload.CleanupCounts | backend/router/upload.py:446-452 | removed and remaining counts add up to the table size before |
| Upload.KeptIds | backend/router/upload.py:430-444 | the records kept are exactly those that have not expired |
| Upload.CleanupOutcome | backend/router/upload.py:419-452 | deleting the expired ids keeps exactly the unexpired records and the counts add up |
| Upload.UploadTable.constructor | backend/router/upload.py:24 | an empty table |
| Upload.UploadTable.Put | backend/router/upload.py:123 | the id maps to the record; a new id goes last, an existing one keeps its place |
| Upload.UploadTable.Items | backend/router/upload.py:387 | one pair per record, and each pair is a stored record |
| Upload.UploadTable.Status | backend/router/upload.py:355-379 | 404 exactly for an unknown id, otherwise the record |
| Upload.UploadTable.GetHistory | backend/router/upload.py:381-416 | the total is the table size; at most `limit` entries, newest first, each a stored record |
| Upload.UploadTable.CollectExpired | backend/router/upload.py:426-440 | the collecting loop finds exactly the expired ids, counting them |
| Upload.UploadTable.Cleanup | backend/router/upload.py:418-460 | exactly the expired records are removed, the rest unchanged; the counts add up |
| Upload.UploadTable.DeleteAll | backend/router/upload.py:443-444 | the listed ids are gone, every other record is unchanged |
| Upload.UploadTable.Delete | backend/router/upload.py:444 | one id is gone, nothing else changes |
| Upload.UploadTable.UploadSingleCsv | backend/router/upload.py:73-158 | no graph 503, failed checks change nothing; otherwise one record under the file id, completed exactly when the dataset loads, with the 400 detail recorded on failure |
| Upload.UploadTable.UploadSingleDocument | backend/router/upload.py:160-252 | no graph 503, failed checks change nothing; otherwise one record, completed exactly when the document loads |
| Upload.UploadTable.UploadDocumentsBatch | backend/router/upload.py:254-353 | more than 20 files and a failed scan change nothing; otherwise one batch record, completed exactly when some document loads, and the reply counts them |
| Upload.UploadTable.ProcessBatch | backend/router/upload.py:303-341 | the processing record is replaced by its completed or failed form; success exactly when some document loaded |
| Upload.LoadCsv | backend/agents/agent_graph.py:794-844 | the dataset loads exactly when decoding and parsing succeed |
| Upload.LoadDocument | backend/agents/agent_graph.py:846-917 | one file loads exactly when its outcome is a load |
| Upload.LoadBatch | backend/agents/agent_graph.py:846-917 | a count is returned exactly when some file loaded, and it is the number loaded |
| Upload.Names | backend/router/upload.py:312 | the batch's file names, in order |
| Upload.Uploaded | backend/router/upload.py:297-301 | one file dictionary per file, in order, with its name |
| Chat.LastMessage | backend/router/chat.py:76 | empty exactly for an empty thread; otherwise exactly the latest message's first 100 characters (all of a shorter one) followed by "..." |
| Chat.Summarise | backend/router/chat.py:70-77 | the thread id, message count and timestamps of the conversation, and a preview that is empty exactly for an empty thread and at most 103 characters |
| Chat.ConversationStore.constructor | backend/router/chat.py:18 | an empty store |
| Chat.ConversationStore.ListConversations | backend/router/chat.py:65-86 | one summary per stored thread, in store order, with that thread's message count, timestamps and preview |
| Chat.ConversationStore.GetConversation | backend/router/chat.py:88-112 | a known thread is returned as stored; an unknown one as a fresh empty history reported as new, without storing it |
| Chat.ConversationStore.ExportConversation | backend/router/chat.py:297-318 | 404 exactly for an unknown thread; otherwise the stored history |
| Chat.ConversationStore.DeleteConversation | backend/router/chat.py:114-130 | the thread is gone and every other thread is kept; the message says whether it existed |
| Chat.ConversationStore.ClearConversation | backend/router/chat.py:132-146 | a known thread is emptied and re-stamped, an unknown one is not created; success either way |
| Chat.ConversationStore.Append | backend/router/chat.py:178 | the message joins the end of its thread; nothing else changes |
| Chat.ConversationStore.StreamQuery | backend/router/chat.py:148-238 | the user message is stored before the agent is asked, so a completed turn adds exactly user then assistant and re-stamps the thread, and a failed one leaves the user message alone; events in order; no graph changes nothing and raises a 500 |
| Chat.ConversationStore.Open | backend/router/chat.py:170-176 | the thread exists afterwards: as stored when present, created empty and stamped now when absent; other threads untouched |
| Chat.Remove | backend/router/chat.py:119 | the thread ids without the deleted one, still distinct |
| AgentViews.TrimText | backend/agent/views.py:15-19 | whitespace runs collapsed; a collapsed text within `limit` is returned whole, a longer one is exactly its first `limit` characters right-stripped plus "...", so never more than `limit + 3` characters; empty exactly for a blank text |
| AgentViews.TrimTextCut | backend/agent/views.py:17-19 | a cut text is a prefix of the collapsed text of at most `limit` characters followed by "..." |
| AgentViews.CutSingleSpaced | backend/agent/views.py:19 | cutting a single-spaced text and right-stripping the cut keeps it single-spaced |
| AgentViews.TrimTextSingleSpaced | backend/agent/views.py:15-19 | trimmed text has no space at either end and no two spaces in a row |
| AgentViews.LatestWith | backend/agent/views.py:60-64 | the newest message with the role, or none exactly when no message has it |
| AgentViews.FirstWith | backend/agent/views.py:77-81 | the oldest message with the role, or none exactly when no message has it |
| AgentViews.ConversationSummary | backend/agent/views.py:59-73 | at most 163 characters; empty for an empty conversation |
| AgentViews.SummaryIgnoresLaterUserMessage | backend/agent/views.py:59-73 | once an assistant reply exists, a later user message leaves the summary unchanged |
| AgentViews.SummaryFollowsLatestReply | backend/agent/views.py:59-73 | a new assistant reply becomes the summary, trimmed to 160 |
| AgentViews.SummaryWithoutReply | backend/agent/views.py:65-73 | without any assistant reply the summary comes from the latest message |
| AgentViews.DefaultTitle | backend/agent/views.py:76-83 | the first user message's content trimmed to 60, or "New chat" when there is no user message or its content is blank; never empty, at most 63 characters |
| AgentViews.DefaultTitleStable | backend/agent/views.py:76-83 | appending messages never changes a default title once a user message exists |
| AgentViews.FirstWithExtended | backend/agent/views.py:77-81 | the oldest message with a role stays the oldest when messages are appended |
| AgentViews.TitleUpdate | backend/agent/views.py:89-96 | a title entry is recorded only when it differs from the current title |
| AgentViews.Updates | backend/agent/views.py:86-100 | the summary entry is present exactly when the regenerated summary differs from the stored one |
| AgentViews.Fields | backend/agent/views.py:102-105 | the fields saved are empty exactly when there is nothing to update |
| AgentViews.CollectUpdates | backend/agent/views.py:86-100 | the loop-free dict building agrees with the update function |
| AgentViews.ExplicitTitleWins | backend/agent/views.py:89-92 | a non-blank explicit title becomes the title, stripped and trimmed to 255 |
| AgentViews.TitleGeneratedOnlyWhenEmpty | backend/agent/views.py:93-96 | without a usable explicit title an existing title is kept and an empty one gets the default title |
| AgentViews.UpdatesIdempotent | backend/agent/views.py:86-105 | applying the metadata a second time has nothing to update |
| AgentViews.AsSequence | backend/agent/views.py:137-138 | only a list or a string is a sequence |
| AgentViews.KeptIds | backend/agent/views.py:139-145 | never more ids than items |
| AgentViews.KeptIdsMembers | backend/agent/views.py:139-145 | an id is kept exactly when some item is an integer or a digit string with that value |
| AgentViews.Normalised | backend/agent/views.py:136-145 | a value that is not a sequence gives no ids |
| AgentViews.NormaliseDocumentIds | backend/agent/views.py:136-145 | the append loop computes the normalised ids |
| AgentViews.BareDigitStringSplit | backend/agent/views.py:136-145 | a bare digit string is iterated character by character, so "12" gives the ids 1 and 2 |
| AgentViews.CharsKept | backend/agent/views.py:139-145 | each prefix of a digit string's characters is kept digit for digit |
| AgentViews.PyIntOfDigits | backend/agent/views.py:143-144 | `int()` of a digit string is its decimal value |
| AgentViews.PyIntOfRendered | backend/agent/views.py:177-178 | `int(str(k))` is k for every integer |
| AgentViews.PyIntOfNegative | backend/agent/views.py:177-178 | a minus sign before digits gives the negated value |
| AgentViews.PyIntIgnoresPadding | backend/agent/views.py:177-178 | surrounding whitespace does not change what `int()` gives |
| AgentViews.ConversationLookup | backend/agent/views.py:177-180 | a falsy id creates a conversation; a non-zero number fetches that key; a non-empty string fetches exactly when `int()` accepts it, under the converted key |
| AgentViews.ConversationLookupOfText | backend/agent/views.py:177-178 | the decimal text of any integer fetches the conversation with that key |
| AgentViews.UserContent | backend/agent/views.py:168-172 | a message exists exactly when the field is a non-blank string, and it is that string stripped |
| AgentViews.History | backend/agent/views.py:182-183 | one role/content pair per earlier message, in order |
| AgentViews.Attached | backend/agent/views.py:148-157 | exactly the requested ids that name an existing document |
| AgentViews.ReadRequest | backend/agent/views.py:163-175 | invalid JSON and a missing or blank message are 400 errors with their messages; otherwise the request carries the stripped message |
| AgentViews.AcceptedMessageIsStripped | backend/agent/views.py:168-172 | an accepted message is non-empty and has no space at either end |
| AgentViews.View | backend/agent/views.py:108-133 | the serialised title is never empty and the message count is the number of messages shown |
| AgentViews.AgentStore.constructor | backend/agent/views.py:162 | an empty store over the given documents |
| AgentViews.AgentStore.ApplyMetadata | backend/agent/views.py:86-105 | the conversation takes the computed updates and is saved, with exactly the changed fields, only when there are any |
| AgentViews.AgentStore.Turn | backend/agent/views.py:182-193 | the user message with its attachments and then the generated reply are appended, the reply computed from the earlier history; then metadata is applied |
| AgentViews.AgentStore.AddMessage | backend/agent/views.py:185 | the message joins the end of its conversation; nothing else changes |
| AgentViews.AgentStore.FindOrCreate | backend/agent/views.py:177-180 | a falsy id creates a new empty conversation, a known id finds it, an unknown one is a 404 that changes nothing |
| AgentViews.AgentStore.Respond | backend/agent/views.py:177-197 | a found conversation gains exactly two messages and is returned serialised; a 404 changes nothing |
| AgentViews.AgentStore.ChatView | backend/agent/views.py:160-199 | a refused request changes nothing and returns its 400; an accepted one adds the user message and reply to one conversation only |
| QnaViews.ThreadId | backend/qna_app/models.py:50-54 | the agent memory key always starts with "user-" |
| QnaViews.ThreadIdInjective | backend/qna_app/models.py:50-54 | different owners or conversations never share a memory key |
| QnaViews.ThreadIdParts | backend/qna_app/models.py:54 | the key is "user-", the owner, "-conv-" and the conversation key, in that order |
| QnaViews.ProcessingFlags | backend/qna_app/views.py:99-108 | processed exactly when the processor returned true; an error is recorded exactly when it did not |
| QnaViews.ProcessingFlagsCases | backend/qna_app/views.py:102-108 | no error exactly for a processed file, "Unable to process file." exactly for a false return, else the raised text |
| QnaViews.ValidateChat | backend/qna_app/serializers.py:106-117 | a blank message is a 400 "may not be blank"; otherwise message and title are stripped |
| QnaViews.ValidatedMessageNotBlank | backend/qna_app/views.py:161-163 | the view's own empty-message check can never fire on validated data |
| QnaViews.Reply | backend/qna_app/views.py:174-184 | the agent's answer when it returned, the fixed apology when it raised |
| QnaViews.NewTitle | backend/qna_app/views.py:207-210 | a new conversation's title is never empty |
| QnaViews.NewTitleTrimmed | backend/qna_app/views.py:207-210 | a new conversation's title has no surrounding whitespace |
| QnaViews.NewTitleSource | backend/qna_app/views.py:207-210 | a non-blank title is kept; else the first 80 characters of the message, stripped, or "Conversation" |
| QnaViews.NewestFirst | backend/qna_app/views.py:223-225 | exactly the requested documents that exist and belong to the owner; over keys listed oldest first, strictly newest first and each once |
| QnaViews.OrderedKeysAppend | backend/qna_app/views.py:90-119 | a document stored under a key newer than every stored one keeps the listing oldest first, each document once and exactly the stored ones |
| QnaViews.Unprocessed | backend/qna_app/views.py:226 | no names exactly when every selected document is processed |
| QnaViews.QnaStore.constructor | backend/qna_app/views.py:79 | an empty database |
| QnaViews.QnaStore.PerformCreate | backend/qna_app/views.py:90-119 | no file is a 400 that stores nothing; otherwise one new document with the upload's name, size, content type and processing flags, listed after every older one, so the listing stays oldest first with each document once |
| QnaViews.QnaStore.FetchConversation | backend/qna_app/views.py:200-205 | another owner's or a missing conversation is a 404 that changes nothing; a non-blank different title renames it |
| QnaViews.QnaStore.CreateConversation | backend/qna_app/views.py:208-211 | one new conversation under a fresh key |
| QnaViews.QnaStore.GetOrCreateConversation | backend/qna_app/views.py:196-212 | a non-zero key fetches the caller's conversation, otherwise a new one is created with its inferred title |
| QnaViews.QnaStore.AttachDocuments | backend/qna_app/views.py:214-237 | no ids change nothing; an unprocessed selected document is a 400 naming all of them and attaches nothing; otherwise all selected documents are linked |
| QnaViews.QnaStore.Respond | backend/qna_app/views.py:161-191 | an empty message is refused; after the document check the user message and then the agent's answer or the apology are stored, keyed by the conversation's memory key |
| QnaViews.QnaStore.ChatPost | backend/qna_app/views.py:155-194 | a new conversation is stored before any later refusal; a success adds exactly the user message and the reply to the caller's conversation |
| QnaForms.SizeTenths | qna_app/forms.py:44 | the size in mebibytes rounded to the nearest tenth, within half a tenth of the exact value |
| QnaForms.TooLargeWholeMebibytes | qna_app/forms.py:44 | a whole number of mebibytes is reported with a zero tenth, e.g. "51.0MB" |
| QnaForms.CleanFile | qna_app/forms.py:35-52 | accepted exactly when a file is present, at most 50 MB, and a known user has fewer than 10 active files; missing file and oversize get their own messages, in that order |
| QnaForms.ValidateUpload | qna_app/forms.py:28-52 | an accepted upload has a supported extension, is within the size limit and within the user's file quota |
| QnaForms.ValidateUploadCases | qna_app/forms.py:28-52 | every refusal is one of the four messages, and every supported file within the limits is accepted |
| QnaForms.FileTypeFor | qna_app/forms.py:66-72 | the type assigned is "pdf", "csv" or "sql" |
| QnaForms.FileTypeForAllowed | qna_app/forms.py:28-72 | a file gets a type exactly when its extension passes the validator |
| QnaForms.MaxId | qna_app/forms.py:77 | the largest existing `file_id` |
| QnaForms.NextFileId | qna_app/forms.py:75-78 | a fresh id, above every existing one, 1 when there are none and otherwise the largest plus one |
| QnaForms.Save | qna_app/forms.py:54-84 | user (when known), name, size and type set; an unset `file_id` gets the next id, a set one is kept; status and timestamps untouched |
| QnaForms.AssignFileType | qna_app/forms.py:66-72 | only the file type changes, and only for a recognised extension |
| QnaForms.CleanMessage | qna_app/forms.py:101-110 | accepted exactly when the stripped message has at least 3 characters, returned stripped; an empty and a short message get their own errors |
| QnaForms.CleanMessageTidy | qna_app/forms.py:102 | an accepted message has no space at either end |
| QnaForms.CleanMessageIdempotent | qna_app/forms.py:101-110 | cleaning an accepted message again gives it back unchanged |
| QnaModels.ParseStatus | qna_app/models.py:20-25 | a stored value names the status whose value it is |
| QnaModels.ParseStatusName | qna_app/models.py:20-25 | each status reads back from its stored value, so the four values are distinct |
| QnaModels.FileExtension | qna_app/models.py:55-58 | empty or starting with the dot, never longer than the name |
| QnaModels.UploadedFile.constructor | qna_app/models.py:27-43 | a new row is pending, active, unprocessed and has no error |
| QnaModels.UploadedFile.MarkProcessing | qna_app/models.py:69-72 | only the status changes, to processing |
| QnaModels.UploadedFile.MarkCompleted | qna_app/models.py:74-79 | completed, stamped, error cleared; nothing else changes |
| QnaModels.UploadedFile.MarkFailed | qna_app/models.py:81-86 | failed, stamped, the given error kept; nothing else changes |
| QnaModels.ProcessUpload | qna_app/views.py:181-197 | whatever the agent did, the row ends processed and stamped, with an error exactly when it failed |
| QnaModels.ShortUserMessage | qna_app/models.py:132-136 | a message within `length` is returned whole, a longer one is its first `length` characters plus "..." |
| QnaModels.ShortUserMessageIdempotent | qna_app/models.py:132-136 | shortening a preview again changes nothing |

## Left out

- Language models, embeddings, text splitters, FAISS/Chroma, LangGraph, pandas, SQLAlchemy engines and inspectors, and the Tavily client are foreign. What each answers is a parameter, and so is the exception it raises wherever the source catches it; the two constructors that let such an exception escape are listed below by name. Their own behaviour is not modelled.
- The clock, `uuid4` ids, the md5 digest, ISO 8601 parsing and rendering, and UTF-8 decoding are parameters.
- Floating-point values are not modelled:
  - `get_file_size_display`;
  - `response_time_seconds`;
  - `executionTimeMs`;
  - `processing_time`;
  - pandas statistics.
- The classifier's confidence is a real number in [0, 1].
- Web-framework plumbing is not modelled: FastAPI/Django routing, ORM querysets, serializers' response bodies, pagination and authentication. Required-field checks made by Django or DRF before a view runs are not modelled either.
- `ChatForm`'s `max_length=2000` is one of these framework checks and is not modelled.
- Transport is not modelled: the websocket endpoint of backend/router/chat.py, `StreamingResponse` delivery, and the asyncio and threading machinery. `stream_query` is modelled as if its event stream were read to the end.
- A 500 raised for an unexpected exception is not modelled. The exception is foreign code failing. Failures with a defined outcome are modelled: the parameters carry them as `Err`.
- `Path.expanduser` is modelled for `~` and `~/...` only. The `~user` form is not modelled. Paths are `/`-separated strings taken as already canonical.
- QnaForms.ValidateUpload: `FileExtensionValidator` checks `Path.suffix`, while the model uses `os.path.splitext` for both the validator and `save`. The two differ on names made of dots before the extension: `..pdf` has the suffix `.pdf`, so Django accepts it, but `splitext` gives no extension, so the model refuses it and QnaForms.FileTypeFor gives it no type.
- `updated_at` timestamps maintained by `auto_now` are not modelled.
- The `ConversationDetailSerializer` payload returned by the Django chat view is not modelled.
- RAG `supporting_documents` and `vector_store_info` are not modelled.
- `AgentResponse` metadata other than the chosen handler is not modelled. This follows from what the handlers build: their responses omit the required `processing_time`.
- MIME types reported by the upload endpoints are not modelled.
- csv_rag_tool is modelled only for its index path, its error swallowing and its row citations.
- AgentViews.AgentStore.Turn: states the title only through `ApplyMetadata`. It does not restate the title rule that `ApplyMetadata` proves.
- Upload.LoadCsv, Upload.LoadDocument and Upload.LoadBatch: state only whether loading succeeded and what was counted. The orchestrator state they change is stated by AgentGraph's own methods.
- SqlAgent.SqlAgentState.ConnectToDatabase: `_initialize_database` assigns `db` before it builds the toolkit and agent. A failure part-way through is not modelled; the connection either succeeds or changes nothing.
- AgentGraph.AgentGraphState.LoadDocumentsFromUpload: the SQL agent is reduced to whether it exists. The RAG agent's own document list is not updated by this method, because each file's load is an outcome parameter.
- SqlSession.WithConnection: states only the restored connection and the cached case. The build case is `GetToolkit`'s contract.
- SqlConnection.RunSqlQuery and GraphSqlTool.RunSqlQuery: state the no-connection and cached cases in full. A fresh build is described by `GetToolkit` and `QueryReply`.
- SqlConnection.EnvironmentConnection: states only that a SQLite path exists. The precedence rules are `SqlSession.EnvironmentDetails`'s contract.
- AgentGraph.ReplaceAll: states the no-occurrence case and a length bound only. Its use on upload names is stated by `UploadNameOfStem`.
- backend/qna_app/views.py: `perform_destroy` (delete the stored file, touch the linked conversations' `updated_at`) is not modelled. It consists of storage and ORM calls.
- backend/qna_app/views.py: `ConversationViewSet` (the owner's conversations, most recently updated first) and the register, login, logout and profile views are not modelled. They are authentication and queryset plumbing.
- backend/router/upload.py: `get_supported_file_types` returns a constant JSON document and is not modelled. Its limits are the constants the modelled checks use.
- The threading lock of backend/data_app/manager.py:33 is not modelled; registration is modelled as sequential.
- Python's Unicode text rules are only partly modelled. Whitespace for `strip` and `split` is the full `str.isspace` set. Case mapping covers ASCII plus the dotless `ı`, the long `ſ` and the Kelvin sign. Other non-ASCII letters, and case mappings that change the length (`ß` to `SS`, ligatures, `ẗ`), are kept unchanged. `isdigit` and `int()` accept ASCII digits only. This affects QnaViews.ValidateChat, QnaForms.CleanMessage, AgentViews.UserContent, AgentViews.TrimText, AgentViews.KeptIdsMembers, AgentViews.ConversationLookup, AgentViews.PyInt and SqlAgent's keyword guard (FirstDangerous, Validate, ValidateSqlQuery): for instance `"inserẗ"` upper-cases to `INSERT̈` in Python, which contains INSERT and is refused, but keeps its `ẗ` in the model, whose guard lets it through.
- AgentViews.ConversationLookup: `int()` is modelled for an optional sign, digits with single underscores between them, and surrounding whitespace. Non-ASCII digits are not modelled.
- AgentGraph.AgentGraphState.constructor: a non-empty database URL that fails to open makes `create_sql_agent` raise, and `_initialize_agents` re-raises it, so no graph is built; a constructor cannot fail in the model, which always builds the graph and marks the SQL agent present for such a URL.
- SqlAgent.SqlAgentState.WithUrl: a URL that fails to open makes `_initialize_database` raise out of the constructor; the model gives an agent that stores the URL and has no database.
- RagAgent.RagAgentState.AddDocuments: a failure while building the store leaves the previous store in place; a failure in a later stage (persisting, the retriever, the chain) leaves the newly assigned store. Which stage failed is a parameter.
- RagCitations.PdfAnswer: the loader's failure on a missing index is a parameter, whatever the vector-store library raises there; only a `FileNotFoundError` gives the not-processed text.
- RagCitations.PdfReply and RagCitations.PdfAnswer: the model does not prove that a cited answer differs from the not-processed text.
- CsvAgent: building the pandas agent is assumed to succeed. A frame is reduced to its row count and typed columns.
