/** backend/agent/agent_new/sql_tool.py: path normalisation with existence
    checks, connection resolution, the environment fallback and the
    `run_sql_query` tool. */
module SqlConnection {
  import opened Common
  import opened Strings
  import opened SqlSession

  /** `Path(p).expanduser()` for `~` and `~/...` (the `~user` form is not
      modelled). */
  function ExpandUser(p: string, home: string): string {
    if p == "~" then home
    else if StartsWith(p, "~/") then home + p[1..]
    else p
  }

  /** `_normalise_sqlite_path`: strip, expand `~`, anchor relative paths at
      the backend root, then insist that the target exists and is a regular
      file. */
  function NormaliseSqlitePath(raw: Option<string>, fs: FileSystem): (r: Result<string, SqlError>)
    ensures IsBlank(raw.GetOr("")) <==> r == Err(PathRequired)
    ensures r.Ok? ==> r.value in fs.entries && fs.entries[r.value] == RegularFile
    ensures r.Ok? && IsAbsolute(fs.backendRoot) && IsAbsolute(fs.home) ==> IsAbsolute(r.value)
    ensures var c := Strip(raw.GetOr(""));
      c != [] && !IsAbsolute(c) && c[0] != '~' ==>
        r == (var p := JoinPath(fs.backendRoot, c);
              if p !in fs.entries then Err(FileNotFound(p))
              else if fs.entries[p] != RegularFile then Err(NotAFile(p))
              else Ok(p))
  {
    var candidate := Strip(raw.GetOr(""));
    if candidate == [] then Err(PathRequired)
    else
      var expanded := ExpandUser(candidate, fs.home);
      var path := if IsAbsolute(expanded) then expanded else JoinPath(fs.backendRoot, expanded);
      if path !in fs.entries then Err(FileNotFound(path))
      else if fs.entries[path] != RegularFile then Err(NotAFile(path))
      else Ok(path)
  }

  /** `resolve_connection_details` of agent_new/sql_tool.py. */
  function ResolveConnectionDetails(
    mode: string, sqlitePath: Option<string>, connectionUrl: Option<string>,
    displayName: Option<string>, fs: FileSystem): (r: Result<ConnectionDetails, SqlError>)
    ensures r.Ok? && r.value.mode == Sqlite ==>
      r.value.identifier in fs.entries && fs.entries[r.value.identifier] == RegularFile
    ensures SqliteAlias(CleanMode(mode)) && IsBlank(sqlitePath.GetOr("")) ==> r == Err(PathRequired)
  {
    ResolveDetails(mode, NormaliseSqlitePath(sqlitePath, fs), connectionUrl, displayName)
  }

  /** `get_environment_connection` of agent_new/sql_tool.py. */
  function EnvironmentConnection(env: map<string, string>, fs: FileSystem)
    : (r: Result<Option<ConnectionDetails>, SqlError>)
    ensures r.Ok? && r.value.Some? && r.value.value.mode == Sqlite ==>
      r.value.value.identifier in fs.entries
  {
    var raw := if "SQLITE_DB_PATH" in env then Some(env["SQLITE_DB_PATH"]) else None;
    EnvironmentDetails(env, NormaliseSqlitePath(raw, fs))
  }

  /** A `SQLITE_DB_PATH` made of spaces only is set (so it is consulted) but
      names no path: without a usable `DATABASE_URL` the lookup raises. */
  lemma BlankSqliteEnvRaises(env: map<string, string>, fs: FileSystem)
    requires "DATABASE_URL" !in env
    requires "SQLITE_DB_PATH" in env && env["SQLITE_DB_PATH"] != [] && IsBlank(env["SQLITE_DB_PATH"])
    ensures EnvironmentConnection(env, fs) == Err(PathRequired)
  {
    assert NormaliseSqlitePath(Some(env["SQLITE_DB_PATH"]), fs) == Err(PathRequired);
  }

  const NotConfiguredReply := "SQL database is not configured. Please ensure a database connection has been established before attempting queries."
  const NoToolReply := "SQL toolkit initialized but no query tool is available."
  const NoResultsReply := "Query executed successfully but returned no results."

  /** What `run_sql_query` answers once `get_sql_toolkit()` has produced
      `toolkit`: it never raises and never answers with an empty text. */
  function QueryReply(toolkit: Option<Toolkit>, outcome: ToolOutcome): (r: string)
    ensures r != []
    ensures toolkit.None? ==> r == NotConfiguredReply
    ensures toolkit.Some? && toolkit.value.tools == [] ==> r == NoToolReply
    ensures toolkit.Some? && toolkit.value.tools != [] ==>
      match outcome
      case Returned(text) => r == (if text != [] then text else NoResultsReply)
      case Raised(name, message) => r == "SQL query failed: " + name + ": " + message
  {
    if toolkit.None? then NotConfiguredReply
    else if toolkit.value.tools == [] then NoToolReply
    else match outcome
      case Returned(text) =>
        if text != [] then text else NoResultsReply
      case Raised(name, message) => "SQL query failed: " + name + ": " + message
  }

  /** The `run_sql_query` tool: look up (or build and cache) the toolkit for
      the current connection, then run the query with its first tool. */
  method RunSqlQuery(state: ToolkitState, built: Option<Toolkit>, outcome: ToolOutcome)
    returns (reply: string)
    modifies state
    ensures reply != []
    ensures old(state.current).None? ==> reply == NotConfiguredReply && state.cache == old(state.cache)
    ensures old(state.current).Some? && old(state.current).value.identifier in old(state.cache) ==>
      reply == QueryReply(Some(old(state.cache)[old(state.current).value.identifier]), outcome) &&
      state.cache == old(state.cache)
    ensures state.current == old(state.current)
  {
    var toolkit := state.GetToolkit(false, built);
    reply := QueryReply(toolkit, outcome);
  }
}
