/** The per-file SQL database registries of the two tool packages,
    backend/data_app/agent_core/tools/sql_tool.py and
    data_app/agent_core/tools/sql_tool.py, and the file-extension rule
    (`os.path.splitext`) their managers dispatch on. Each package keeps its
    own registry; both are instances of `SqlDatabaseRegistry`. Opening a
    database and running a script are foreign: their outcomes are
    parameters, and a registered database is represented by its URI. */
module ToolRegistry {
  import opened Common
  import opened Strings
  import SqlSession
  import RagAgent

  predicate AllDots(s: string) {
    forall k :: 0 <= k < |s| ==> s[k] == '.'
  }

  /** `os.path.splitext(p)[1]`: from the last dot of the last path
      component, unless only dots precede that dot in the component. */
  function SplitExt(p: string): (r: string)
    ensures r == [] || (r[0] == '.' && EndsWith(p, r))
    ensures forall k :: 1 <= k < |r| ==> r[k] != '.' && r[k] != '/'
  {
    var name := SqlSession.PathName(p);
    match RagAgent.LastDot(name, |name|)
    case None => []
    case Some(i) =>
      if AllDots(name[..i]) then []
      else
        assert name[i..] == name[|name| - |name[i..]|..];
        assert p[|p| - |name|..] == name;
        assert p[|p| - |name[i..]|..] == name[i..] by {
          assert p[|p| - |name[i..]|..] == p[|p| - |name|..][i..];
        }
        name[i..]
  }

  /** The lower-cased extension the managers look up. */
  function Extension(p: string): string {
    Lower(SplitExt(p))
  }

  /** A path whose last component starts with a dot and has no other dot
      has no extension. */
  lemma HiddenFileHasNoExtension(dir: string, name: string)
    requires SqlSession.NoSlash(name) && name != [] && name[0] == '.'
    requires forall k :: 1 <= k < |name| ==> name[k] != '.'
    ensures SplitExt(dir + "/" + name) == []
  {
    var p := dir + "/" + name;
    PathNameOfJoin(dir, name);
    var n := SqlSession.PathName(p);
    assert n == name;
    var d := RagAgent.LastDot(n, |n|);
    assert d == Some(0);
    assert AllDots(n[..0]);
  }

  lemma {:induction false} PathNameOfJoin(dir: string, name: string)
    requires SqlSession.NoSlash(name)
    ensures SqlSession.PathName(dir + "/" + name) == name
    decreases |name|
  {
    var p := dir + "/" + name;
    if name == [] {
      assert p[|p| - 1] == '/';
    } else {
      assert p[..|p| - 1] == dir + "/" + name[..|name| - 1];
      PathNameOfJoin(dir, name[..|name| - 1]);
      assert name[..|name| - 1] + [name[|name| - 1]] == name;
    }
  }

  /** `str(list_of_ints)`. */
  function IdList(ids: seq<int>): string {
    "[" + Join(", ", seq(|ids|, k requires 0 <= k < |ids| => IntToString(ids[k]))) + "]"
  }

  /** The reply to a query for a file id with no registered database. */
  function MissingDatabaseReply(fileId: int, ids: seq<int>): string {
    "Error: No active SQL database found for file ID " + IntToString(fileId) +
    ". Available database IDs: " + IdList(ids) +
    ". Please ensure the database file has been uploaded and configured."
  }

  function QueryFailedReply(details: string): string {
    "Sorry, an error occurred while querying the SQL database. Error details: " + details +
    ". Please try rephrasing your query or check the database schema."
  }

  /** The reply once the database is found: the query and its result, or
      the first exception's text. */
  function QueryReply(generated: Result<string, string>, run: Result<string, string>): string {
    match generated
    case Err(e) => QueryFailedReply(e)
    case Ok(sql) =>
      match run
      case Err(e) => QueryFailedReply(e)
      case Ok(result) => "SQL Query: " + sql + "\nResult: " + result
  }

  /** Once the database is found, the first exception is reported with
      its text, and a query that ran is shown with its result. */
  lemma QueryReplyCases(generated: Result<string, string>, run: Result<string, string>)
    ensures generated.Err? ==> QueryReply(generated, run) == QueryFailedReply(generated.error)
    ensures generated.Ok? && run.Err? ==> QueryReply(generated, run) == QueryFailedReply(run.error)
    ensures generated.Ok? && run.Ok? ==>
      QueryReply(generated, run) == "SQL Query: " + generated.value + "\nResult: " + run.value
  {
  }

  /** The script a `.sql` upload is turned into. */
  function GeneratedDatabasePath(fileId: int): string {
    "data/sqlite_" + IntToString(fileId) + ".db"
  }

  /** The URI the backend package opens for an uploaded file. */
  function BackendUri(filePath: string, fileId: int): (r: string)
    ensures Extension(filePath) == ".sql" ==> r == "sqlite:///" + GeneratedDatabasePath(fileId)
    ensures Extension(filePath) != ".sql" ==> r == "sqlite:///" + filePath
  {
    if Extension(filePath) == ".sql" then "sqlite:///" + GeneratedDatabasePath(fileId)
    else "sqlite:///" + filePath
  }

  /** `_active_dbs`: file id to database, in the order ids were first
      registered (the order `list(_active_dbs.keys())` reports). */
  class SqlDatabaseRegistry {
    var ids: seq<int>
    var uris: map<int, string>

    ghost predicate Valid()
      reads this
    {
      Distinct(ids) && forall id :: id in uris <==> id in ids
    }

    constructor()
      ensures Valid() && ids == [] && uris == map[]
    {
      ids := [];
      uris := map[];
    }

    /** `_active_dbs[file_id] = db`: a new id joins the end of the order,
        a known one keeps its place and is overwritten. */
    method Register(fileId: int, uri: string)
      requires Valid()
      modifies this
      ensures Valid()
      ensures uris == old(uris)[fileId := uri]
      ensures ids == if fileId in old(uris) then old(ids) else old(ids) + [fileId]
    {
      if fileId !in uris {
        ids := ids + [fileId];
      }
      uris := uris[fileId := uri];
    }

    /** `configure_database` of data_app/agent_core/tools/sql_tool.py: the
        URI is always `sqlite:///<file_path>`; a database that does not open
        is logged and the registry is left as it was. Never raises. */
    method ConfigureDatabase(filePath: string, fileId: int, opens: bool)
      requires Valid()
      modifies this
      ensures Valid()
      ensures opens ==> uris == old(uris)[fileId := "sqlite:///" + filePath]
      ensures !opens ==> uris == old(uris) && ids == old(ids)
    {
      if opens {
        Register(fileId, "sqlite:///" + filePath);
      }
    }

    /** `configure_database` of backend/data_app/agent_core/tools/sql_tool.py:
        a `.sql` script is first run into `data/sqlite_<id>.db` (when running
        it fails nothing is registered); the database is registered only
        once it opens. Never raises. */
    method ConfigureBackendDatabase(filePath: string, fileId: int, scriptRuns: bool, opens: bool)
      requires Valid()
      modifies this
      ensures Valid()
      ensures (Extension(filePath) != ".sql" || scriptRuns) && opens ==>
        uris == old(uris)[fileId := BackendUri(filePath, fileId)]
      ensures (Extension(filePath) == ".sql" && !scriptRuns) || !opens ==> uris == old(uris) && ids == old(ids)
    {
      if Extension(filePath) == ".sql" && !scriptRuns {
        return;
      }
      if opens {
        Register(fileId, BackendUri(filePath, fileId));
      }
    }

    /** `query_sql_database` (identical in both packages): `generated` is
        the SQL the model wrote and `run` what the database returned, or
        the text of the exception each raised. An unknown id is answered
        without consulting either. */
    function Query(fileId: int, generated: Result<string, string>, run: Result<string, string>): (r: string)
      reads this
      ensures fileId !in uris ==> r == MissingDatabaseReply(fileId, ids)
      ensures fileId in uris ==> r == QueryReply(generated, run)
    {
      if fileId !in uris then MissingDatabaseReply(fileId, ids) else QueryReply(generated, run)
    }
  }
}
