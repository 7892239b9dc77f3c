/** backend/agent/graph/sql_tool.py: the older SQL tool. It shares the
    descriptor, resolution rules and toolkit cache of SqlSession but
    normalises paths without consulting the file system and answers
    `run_sql_query` with its own texts. */
module GraphSqlTool {
  import opened Common
  import opened Strings
  import opened SqlSession
  import SqlConnection

  /** `_normalise_sqlite_path` of the graph variant: strip, reject blank,
      anchor relative paths at the backend root. No `~` expansion and no
      existence or is-file check. */
  function NormaliseSqlitePath(raw: Option<string>, fs: FileSystem): (r: Result<string, SqlError>)
    ensures IsBlank(raw.GetOr("")) <==> r.Err?
    ensures r.Err? ==> r.error == PathRequired
    ensures r.Ok? ==> r.value == (var c := Strip(raw.GetOr(""));
                                  if IsAbsolute(c) then c else JoinPath(fs.backendRoot, c))
  {
    var candidate := Strip(raw.GetOr(""));
    if candidate == [] then Err(PathRequired)
    else if IsAbsolute(candidate) then Ok(candidate)
    else Ok(JoinPath(fs.backendRoot, candidate))
  }

  /** Where the two variants part: a non-blank path to a missing file is
      accepted here and refused by the agent_new variant. */
  lemma MissingFileAcceptedOnlyHere(raw: string, fs: FileSystem)
    requires !IsBlank(raw) && IsAbsolute(Strip(raw)) && Strip(raw) !in fs.entries
    ensures NormaliseSqlitePath(Some(raw), fs) == Ok(Strip(raw))
    ensures SqlConnection.NormaliseSqlitePath(Some(raw), fs) == Err(FileNotFound(Strip(raw)))
  {
    var c := Strip(raw);
    assert c[0] == '/';
    assert SqlConnection.ExpandUser(c, fs.home) == c;
  }

  /** `resolve_connection_details` of the graph variant: the same six mode
      spellings; a SQLite descriptor points at the anchored path. */
  function ResolveConnectionDetails(
    mode: string, sqlitePath: Option<string>, connectionUrl: Option<string>,
    displayName: Option<string>, fs: FileSystem): (r: Result<ConnectionDetails, SqlError>)
    ensures SqliteAlias(CleanMode(mode)) ==> (r.Ok? <==> !IsBlank(sqlitePath.GetOr("")))
    ensures !SqliteAlias(CleanMode(mode)) && !UrlAlias(CleanMode(mode)) ==> r == Err(UnsupportedMode)
  {
    ResolveDetails(mode, NormaliseSqlitePath(sqlitePath, fs), connectionUrl, displayName)
  }

  /** `get_environment_connection` of the graph variant. */
  function EnvironmentConnection(env: map<string, string>, fs: FileSystem)
    : (r: Result<Option<ConnectionDetails>, SqlError>)
    ensures "SQLITE_DB_PATH" in env && !IsBlank(env["SQLITE_DB_PATH"]) ==> r.Ok? && r.value.Some?
  {
    var raw := if "SQLITE_DB_PATH" in env then Some(env["SQLITE_DB_PATH"]) else None;
    EnvironmentDetails(env, NormaliseSqlitePath(raw, fs))
  }

  const NotConfiguredReply := "SQL assistant is not configured yet."
  const NoToolReply := "SQL assistant is ready but no query tool is available."

  /** What this variant's `run_sql_query` answers once the toolkit is
      known: it never raises; a tool result is passed on as is. */
  function QueryReply(toolkit: Option<Toolkit>, outcome: ToolOutcome): (r: string)
    ensures toolkit.None? ==> r == NotConfiguredReply
    ensures toolkit.Some? && toolkit.value.tools == [] ==> r == NoToolReply
    ensures toolkit.Some? && toolkit.value.tools != [] ==>
      match outcome
      case Returned(text) => r == text
      case Raised(_, message) => r == "SQL query failed: " + message
  {
    if toolkit.None? then NotConfiguredReply
    else if toolkit.value.tools == [] then NoToolReply
    else match outcome
      case Returned(text) => text
      case Raised(_, message) => "SQL query failed: " + message
  }

  /** The graph variant's `run_sql_query` tool. */
  method RunSqlQuery(state: ToolkitState, built: Option<Toolkit>, outcome: ToolOutcome)
    returns (reply: string)
    modifies state
    ensures old(state.current).None? ==> reply == NotConfiguredReply && state.cache == old(state.cache)
    ensures old(state.current).Some? && old(state.current).value.identifier in old(state.cache) ==>
      reply == QueryReply(Some(old(state.cache)[old(state.current).value.identifier]), outcome) &&
      state.cache == old(state.cache)
    ensures state.current == old(state.current)
  {
    var toolkit := state.GetToolkit(false, built);
    reply := QueryReply(toolkit, outcome);
  }
}
