/** The connection descriptor, mode resolution and toolkit cache shared by
    the two SQL tool modules (backend/agent/agent_new/sql_tool.py and its
    older twin backend/agent/graph/sql_tool.py). The two files differ only in
    how they normalise a SQLite path and in the texts `run_sql_query`
    returns; those live in SqlConnection and GraphSqlTool. */
module SqlSession {
  import opened Common
  import opened Strings

  datatype Mode = Sqlite | Url

  /** `SQLConnectionDetails`: a frozen record. */
  datatype ConnectionDetails = ConnectionDetails(
    mode: Mode,
    identifier: string,
    uri: string,
    labelText: string,
    sqlitePath: Option<string>)

  /** The `ValueError`/`EnvironmentError` texts the SQL tools raise. */
  datatype SqlError =
    | PathRequired
    | FileNotFound(path: string)
    | NotAFile(path: string)
    | ConnectionStringRequired
    | UnsupportedMode
    | QueryRequired
    | LimitNotPositive
    | MaxSuggestionsNotPositive
    | MissingApiKey
    | Database(message: string)
    | TypeError(message: string)

  function ErrorMessage(e: SqlError): string {
    match e
    case PathRequired => "A SQLite database path is required."
    case FileNotFound(p) => "SQLite database file not found: " + p
    case NotAFile(p) => "SQLite database path must point to a file: " + p
    case ConnectionStringRequired => "A connection string is required for remote databases."
    case UnsupportedMode => "Unsupported database mode. Use 'sqlite' or 'url'."
    case QueryRequired => "A SQL query is required."
    case LimitNotPositive => "Result limit must be greater than zero."
    case MaxSuggestionsNotPositive => "max_suggestions must be greater than zero."
    case MissingApiKey => "OPENAI_API_KEY environment variable is not set"
    case Database(m) => m
    case TypeError(m) => m
  }

  /** What the file system holds at each canonical absolute path, together
      with the user's home directory and the backend package root the tools
      anchor relative paths at. Paths are `/`-separated strings taken as
      already canonical. */
  datatype EntryKind = RegularFile | Directory
  datatype FileSystem = FileSystem(home: string, backendRoot: string, entries: map<string, EntryKind>)

  /** Paths are `/`-separated strings. */
  predicate IsAbsolute(p: string) {
    p != [] && p[0] == '/'
  }

  /** `Path(p).name`: the last component. */
  function PathName(p: string): (r: string)
    ensures NoSlash(r)
    ensures EndsWith(p, r)
  {
    if p == [] || p[|p| - 1] == '/' then []
    else
      var r := PathName(p[..|p| - 1]);
      assert p[..|p| - 1][|p| - 1 - |r|..] == p[|p| - 1 - |r|..|p| - 1];
      r + [p[|p| - 1]]
  }

  predicate NoSlash(s: string) {
    forall i :: 0 <= i < |s| ==> s[i] != '/'
  }

  /** `root / p` for a relative `p`. */
  function JoinPath(root: string, p: string): string {
    root + "/" + p
  }

  /** No spelling selects both modes. */
  lemma AliasesDisjoint(m: string)
    ensures !(SqliteAlias(m) && UrlAlias(m))
  {
    if SqliteAlias(m) && |m| == 6 {
      assert m[0] == 's';
    }
  }

  /** `(mode or "").strip().lower()`. */
  function CleanMode(mode: string): string {
    Lower(Strip(mode))
  }

  /** The spellings that select SQLite mode. */
  predicate SqliteAlias(m: string) {
    m == "sqlite" || m == "local" || m == "file"
  }

  /** The spellings that select remote-URL mode. */
  predicate UrlAlias(m: string) {
    m == "url" || m == "remote" || m == "external"
  }

  function DefaultSqliteLabel(path: string): string {
    "SQLite (" + PathName(path) + ")"
  }

  /** `(display_name or "").strip() or default`. */
  function LabelOr(displayName: Option<string>, default: string): (r: string)
    ensures displayName.Some? && !IsBlank(displayName.value) ==> r == Strip(displayName.value)
    ensures (displayName.None? || IsBlank(displayName.value)) ==> r == default
  {
    var given := Strip(displayName.GetOr(""));
    if given != [] then given else default
  }

  /** `resolve_connection_details`, given what the file's own path
      normalisation makes of `sqlite_path` (it is consulted only in SQLite
      mode). `connectionUrl` is `None` when the argument is missing or is not
      a string. */
  function ResolveDetails(
    mode: string,
    normalised: Result<string, SqlError>,
    connectionUrl: Option<string>,
    displayName: Option<string>): (r: Result<ConnectionDetails, SqlError>)
    ensures !SqliteAlias(CleanMode(mode)) && !UrlAlias(CleanMode(mode)) ==> r == Err(UnsupportedMode)
    ensures SqliteAlias(CleanMode(mode)) ==>
      match r
      case Err(e) => normalised == Err(e)
      case Ok(d) =>
        normalised == Ok(d.identifier) && d.mode == Sqlite &&
        d.sqlitePath == Some(d.identifier) && d.uri == "sqlite:///" + d.identifier &&
        d.labelText == LabelOr(displayName, DefaultSqliteLabel(d.identifier))
    ensures UrlAlias(CleanMode(mode)) ==>
      match r
      case Err(e) =>
        e == ConnectionStringRequired && (connectionUrl.None? || IsBlank(connectionUrl.value))
      case Ok(d) =>
        connectionUrl.Some? && d.mode == Url && d.sqlitePath == None &&
        d.identifier == d.uri == Strip(connectionUrl.value) && d.uri != [] &&
        d.labelText == LabelOr(displayName, "Remote SQL database")
  {
    var m := CleanMode(mode);
    AliasesDisjoint(m);
    if SqliteAlias(m) then
      match normalised
      case Err(e) => Err(e)
      case Ok(path) =>
        Ok(ConnectionDetails(Sqlite, path, "sqlite:///" + path,
                             LabelOr(displayName, DefaultSqliteLabel(path)), Some(path)))
    else if UrlAlias(m) then
      if connectionUrl.None? || Strip(connectionUrl.value) == [] then Err(ConnectionStringRequired)
      else
        var uri := Strip(connectionUrl.value);
        Ok(ConnectionDetails(Url, uri, uri, LabelOr(displayName, "Remote SQL database"), None))
    else
      Err(UnsupportedMode)
  }

  lemma LowerCharSpace(c: char)
    ensures IsSpace(LowerChar(c)) <==> IsSpace(c)
  {
  }

  lemma {:induction false} StripLeftLower(s: string)
    ensures StripLeft(Lower(s)) == Lower(StripLeft(s))
    decreases |s|
  {
    if s != [] {
      LowerCharSpace(s[0]);
      assert Lower(s)[0] == LowerChar(s[0]);
      if IsSpace(s[0]) {
        assert Lower(s)[1..] == Lower(s[1..]);
        StripLeftLower(s[1..]);
      }
    }
  }

  lemma {:induction false} StripRightLower(s: string)
    ensures StripRight(Lower(s)) == Lower(StripRight(s))
    decreases |s|
  {
    if s != [] {
      LowerCharSpace(s[|s| - 1]);
      assert Lower(s)[|s| - 1] == LowerChar(s[|s| - 1]);
      if IsSpace(s[|s| - 1]) {
        assert Lower(s)[..|s| - 1] == Lower(s[..|s| - 1]);
        StripRightLower(s[..|s| - 1]);
      }
    }
  }

  lemma {:induction false} CleanModeIdempotent(mode: string)
    ensures CleanMode(CleanMode(mode)) == CleanMode(mode)
  {
    var t := Strip(mode);
    StripIdempotent(mode);
    StripLeftLower(t);
    StripRightLower(StripLeft(t));
    assert Strip(Lower(t)) == Lower(Strip(t));
    LowerIdempotent(t);
  }

  lemma LowerIdempotent(s: string)
    ensures Lower(Lower(s)) == Lower(s)
  {
    forall i | 0 <= i < |s| ensures LowerChar(LowerChar(s[i])) == LowerChar(s[i]) {
    }
  }

  /** Padding and letter case in the mode make no difference to the
      outcome: resolving the cleaned mode gives the same descriptor or error. */
  lemma ResolveIgnoresModeSpelling(
    mode: string, normalised: Result<string, SqlError>,
    connectionUrl: Option<string>, displayName: Option<string>)
    ensures ResolveDetails(CleanMode(mode), normalised, connectionUrl, displayName)
         == ResolveDetails(mode, normalised, connectionUrl, displayName)
  {
    CleanModeIdempotent(mode);
  }

  /** `get_environment_connection`: `DATABASE_URL` (stripped, non-blank)
      wins over `SQLITE_DB_PATH` (any non-empty value); `normalised` is what
      the file's path normalisation makes of `SQLITE_DB_PATH`. */
  function EnvironmentDetails(env: map<string, string>, normalised: Result<string, SqlError>)
    : (r: Result<Option<ConnectionDetails>, SqlError>)
    ensures "DATABASE_URL" in env && !IsBlank(env["DATABASE_URL"]) ==>
      r.Ok? && r.value.Some? && r.value.value.mode == Url &&
      r.value.value.uri == r.value.value.identifier == Strip(env["DATABASE_URL"])
    ensures ("DATABASE_URL" !in env || IsBlank(env["DATABASE_URL"])) ==>
      if "SQLITE_DB_PATH" in env && env["SQLITE_DB_PATH"] != [] then
        match r
        case Err(e) => normalised == Err(e)
        case Ok(d) =>
          d.Some? && d.value.mode == Sqlite && normalised == Ok(d.value.identifier) &&
          d.value.sqlitePath == Some(d.value.identifier) &&
          d.value.uri == "sqlite:///" + d.value.identifier
      else r == Ok(None)
    ensures r.Ok? && r.value.Some? && "DATABASE_LABEL" in env && env["DATABASE_LABEL"] != [] ==>
      r.value.value.labelText == env["DATABASE_LABEL"]
  {
    var url := Strip(if "DATABASE_URL" in env then env["DATABASE_URL"] else "");
    var given := if "DATABASE_LABEL" in env then env["DATABASE_LABEL"] else "";
    if url != [] then
      Ok(Some(ConnectionDetails(Url, url, url, if given != [] then given else "Environment database", None)))
    else if "SQLITE_DB_PATH" in env && env["SQLITE_DB_PATH"] != [] then
      match normalised
      case Err(e) => Err(e)
      case Ok(path) =>
        Ok(Some(ConnectionDetails(Sqlite, path, "sqlite:///" + path,
                                  if given != [] then given else DefaultSqliteLabel(path), Some(path))))
    else
      Ok(None)
  }

  /** What `SQLDatabaseToolkit(...).get_tools()` offers: the names of its
      tools, the first being the query tool. */
  datatype Toolkit = Toolkit(uri: string, tools: seq<string>)

  /** The module-level `_TOOLKIT_CACHE` dictionary (keyed by connection
      identifier) and the context-local `_CURRENT_CONNECTION`. */
  class ToolkitState {
    var current: Option<ConnectionDetails>
    var cache: map<string, Toolkit>

    constructor ()
      ensures current == None && cache == map[]
    {
      current := None;
      cache := map[];
    }

    /** Entering `use_sql_connection`: the previous connection is the token. */
    method UseConnection(c: Option<ConnectionDetails>) returns (token: Option<ConnectionDetails>)
      modifies this
      ensures current == c && token == old(current) && cache == old(cache)
    {
      token := current;
      current := c;
    }

    /** Leaving `use_sql_connection` (its `finally`): the token is restored. */
    method ResetConnection(token: Option<ConnectionDetails>)
      modifies this
      ensures current == token && cache == old(cache)
    {
      current := token;
    }

    /** `clear_sql_toolkit_cache`. */
    method ClearCache(identifier: Option<string>)
      modifies this
      ensures identifier.None? ==> cache == map[]
      ensures identifier.Some? ==> cache == old(cache) - {identifier.value}
      ensures identifier.Some? ==> forall k :: k in old(cache) && k != identifier.value ==>
                k in cache && cache[k] == old(cache)[k]
      ensures current == old(current)
    {
      if identifier.None? {
        cache := map[];
      } else {
        cache := cache - {identifier.value};
      }
    }

    /** `get_sql_toolkit`. `built` is what `build_sql_tool` yields for the
        current connection when it is called: `None` when it raises (missing
        API key, unreachable database). */
    method GetToolkit(forceRebuild: bool, built: Option<Toolkit>) returns (t: Option<Toolkit>)
      modifies this
      ensures current == old(current)
      ensures old(current).None? ==> t.None? && cache == old(cache)
      ensures old(current).Some? ==>
        var key := old(current).value.identifier;
        var hit := key in old(cache) && !forceRebuild;
        (hit ==> t == Some(old(cache)[key]) && cache == old(cache)) &&
        (!hit && built.Some? ==> t == built && cache == old(cache)[key := built.value]) &&
        (!hit && built.None? ==> t.None? && cache == old(cache) - {key})
    {
      if current.None? {
        return None;
      }
      var key := current.value.identifier;
      if forceRebuild {
        cache := cache - {key};
      }
      if key in cache {
        return Some(cache[key]);
      }
      if built.None? {
        return None;
      }
      cache := cache[key := built.value];
      t := built;
    }
  }

  /** What the query tool's `invoke`/`run` does: returns text or raises. */
  datatype ToolOutcome = Returned(text: string) | Raised(typeName: string, message: string)

  /** Runs `GetToolkit` inside `use_sql_connection(c)`: whatever happens,
      the previous connection is current again afterwards. */
  method WithConnection(state: ToolkitState, c: Option<ConnectionDetails>, built: Option<Toolkit>)
    returns (t: Option<Toolkit>)
    modifies state
    ensures state.current == old(state.current)
    ensures c.None? ==> t.None? && state.cache == old(state.cache)
    ensures c.Some? && c.value.identifier in old(state.cache) ==>
      t == Some(old(state.cache)[c.value.identifier]) && state.cache == old(state.cache)
  {
    var token := state.UseConnection(c);
    t := state.GetToolkit(false, built);
    state.ResetConnection(token);
  }
}
