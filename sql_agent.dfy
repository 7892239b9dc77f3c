/** backend/agents/sql_agent.py: the SQL agent's connection state, the
    keyword guard in front of every statement, statement execution, the
    natural-language query envelope with its SQL-fence extraction, and the
    schema-driven suggestion list. The database, the statement compiler and
    the LangChain agent are foreign: their answers are inputs. */
module SqlAgent {
  import opened Common
  import opened Strings

  /** A connected database, as far as this agent looks at it. */
  datatype Database = Database(tables: seq<string>)

  datatype Validation = Valid(compiled: string) | Invalid(error: string)

  /** What `db.run` does with a statement: a result text, a SQLAlchemy
      error, or any other exception. */
  datatype RunOutcome = RunOk(result: string) | RunSqlError(sqlMessage: string) | RunFailed(message: string)

  datatype Execution = Executed(result: string, query: string) | ExecutionError(error: string)

  datatype NlAnswer =
    | Answered(answer: string, sqlQuery: Option<string>, originalQuery: string)
    | NlError(error: string, askedQuery: Option<string>)

  /** The statements the guard refuses, in the order they are checked. */
  const DangerousKeywords: seq<string> := ["DROP", "DELETE", "UPDATE", "INSERT", "ALTER", "CREATE"]

  /** What SQLAlchemy's `create_engine(None)` raises (an `ArgumentError`
      with this text). */
  const NoUrlEngineError := "Expected string or URL object, got None"

  /** The first keyword, from position `i` of the list on, that occurs
      anywhere in `upper`. */
  function FirstDangerous(upper: string, i: nat): (r: Option<string>)
    ensures r.Some? ==> Contains(upper, r.value)
    ensures r.Some? ==> exists k :: i <= k < |DangerousKeywords| && DangerousKeywords[k] == r.value &&
                                   forall m :: i <= m < k ==> !Contains(upper, DangerousKeywords[m])
    ensures r.None? <==> forall m :: i <= m < |DangerousKeywords| ==> !Contains(upper, DangerousKeywords[m])
    decreases |DangerousKeywords| - i
  {
    if i >= |DangerousKeywords| then None
    else if Contains(upper, DangerousKeywords[i]) then Some(DangerousKeywords[i])
    else FirstDangerous(upper, i + 1)
  }

  /** The guard works on substrings, not words: a column named
      `created_at` trips the CREATE check. */
  lemma CreatedAtIsRefused(query: string)
    requires StartsWith(query, "created_at")
    ensures FirstDangerous(Upper(query), 0).Some?
  {
    var u := Upper(query);
    assert u[..6] == "CREATE";
    assert StartsWith(u[0..], DangerousKeywords[5]);
  }

  /** An opening fence "```sql" followed by a newline, `sql` in any case. */
  predicate IsOpener(s: string, i: nat) {
    i + 7 <= |s| && s[i..i + 3] == "```" && Lower(s[i + 3..i + 6]) == "sql" && s[i + 6] == '\n'
  }

  /** A newline followed by a closing fence. */
  predicate IsCloser(s: string, j: nat) {
    j + 4 <= |s| && s[j..j + 4] == "\n```"
  }

  function FindOpener(s: string, i: nat): (r: Option<nat>)
    ensures r.Some? ==> i <= r.value && IsOpener(s, r.value) && forall m :: i <= m < r.value ==> !IsOpener(s, m)
    ensures r.None? ==> forall m :: i <= m ==> !IsOpener(s, m)
    decreases |s| - i
  {
    if i + 7 > |s| then None
    else if IsOpener(s, i) then Some(i)
    else FindOpener(s, i + 1)
  }

  function FindCloser(s: string, j: nat): (r: Option<nat>)
    ensures r.Some? ==> j <= r.value && IsCloser(s, r.value) && forall m :: j <= m < r.value ==> !IsCloser(s, m)
    ensures r.None? ==> forall m :: j <= m ==> !IsCloser(s, m)
    decreases |s| - j
  {
    if j + 4 > |s| then None
    else if IsCloser(s, j) then Some(j)
    else FindCloser(s, j + 1)
  }

  /** `re.search(r'```sql\n(.*?)\n```', s, DOTALL | IGNORECASE).group(1)`:
      the body of the first SQL fence, ended by the nearest closing fence. */
  function SqlFence(s: string): (r: Option<string>)
    ensures r.Some? ==> exists i: nat :: (IsOpener(s, i) && i + 7 + |r.value| <= |s| &&
                                     s[i + 7..i + 7 + |r.value|] == r.value && IsCloser(s, i + 7 + |r.value|))
    ensures (exists i: nat, j: nat :: IsOpener(s, i) && i + 7 <= j && IsCloser(s, j)) ==> r.Some?
  {
    match FindOpener(s, 0)
    case None => None
    case Some(i) =>
      match FindCloser(s, i + 7)
      case None => None
      case Some(j) => Some(s[i + 7..j])
  }

  /** The first fence wins: no opening comes before the one used, and
      the body holds no closing fence. */
  lemma SqlFenceIsFirst(s: string)
    ensures SqlFence(s).Some? ==> exists i: nat :: (IsOpener(s, i) &&
      (forall m: nat :: m < i ==> !IsOpener(s, m)) &&
      i + 7 + |SqlFence(s).value| <= |s| &&
      forall m: nat :: i + 7 <= m < i + 7 + |SqlFence(s).value| ==> !IsCloser(s, m))
  {
    if SqlFence(s).Some? {
      var i := FindOpener(s, 0).value;
      var j := FindCloser(s, i + 7).value;
      assert i + 7 + |SqlFence(s).value| == j;
      assert forall m: nat :: i + 7 <= m < j ==> !IsCloser(s, m);
    }
  }

  /** The prompts built for one table. */
  function TablePrompts(table: string): seq<string> {
    ["How many records are in the " + table + " table?",
     "Show me the structure of the " + table + " table",
     "What are the unique values in the " + table + " table?",
     "Give me statistics about the " + table + " table"]
  }

  const BaseSuggestions: seq<string> := [
    "Show me the total number of records in each table",
    "What are the column names and types for each table?",
    "Give me a summary of the data in the database",
    "Show me the first 5 rows from each table",
    "What are the most common values in each column?"]

  function TablesPrompts(tables: seq<string>): (r: seq<string>)
    ensures |r| == 4 * |tables|
    ensures forall k :: 0 <= k < |r| ==> r[k] == TablePrompts(tables[k / 4])[k % 4]
  {
    if tables == [] then []
    else
      var front := TablesPrompts(tables[..|tables| - 1]);
      var r := front + TablePrompts(tables[|tables| - 1]);
      assert forall k :: 0 <= k < |front| ==> tables[..|tables| - 1][k / 4] == tables[k / 4];
      r
  }

  function Min(a: int, b: int): int { if a < b then a else b }

  /** The suggestion list: a fixed refusal without a database; otherwise
      four prompts for each of the first three tables, then the generic
      ones, cut to ten. The list holds ten prompts once the schema has
      three tables, and every prompt before the generic ones names one of
      the first three tables. */
  function Suggestions(db: Option<Database>): (r: seq<string>)
    ensures db.None? ==> r == ["No database connected"]
    ensures db.Some? ==> var n := Min(3, |db.value.tables|);
      |r| == Min(10, 4 * n + 5) &&
      (forall k :: 0 <= k < |r| && k < 4 * n ==> k / 4 < n && r[k] == TablePrompts(db.value.tables[k / 4])[k % 4]) &&
      (forall k :: 4 * n <= k < |r| ==> r[k] == BaseSuggestions[k - 4 * n])
  {
    if db.None? then ["No database connected"]
    else
      var all := TablesPrompts(db.value.tables[..Min(3, |db.value.tables|)]) + BaseSuggestions;
      all[..Min(10, |all|)]
  }

  class SqlAgentState {
    var databaseUrl: Option<string>
    var db: Option<Database>
    var agentReady: bool

    /** `SQLAgent()`: an agent created without a database URL. */
    constructor()
      ensures databaseUrl == None && db == None && !agentReady
    {
      databaseUrl := None;
      db := None;
      agentReady := false;
    }

    /** `SQLAgent(database_url=url)`, as `create_sql_agent` builds it: the
        URL is stored, and a non-empty one is opened at once (`connection`
        is what opening it gave). */
    constructor WithUrl(url: string, connection: Option<Database>)
      ensures databaseUrl == Some(url)
      ensures url != "" && connection.Some? ==> db == connection && agentReady
      ensures url == "" || connection.None? ==> db == None && !agentReady
    {
      databaseUrl := Some(url);
      if url != "" && connection.Some? {
        db := connection;
        agentReady := true;
      } else {
        db := None;
        agentReady := false;
      }
    }

    /** `connect_to_database`: `connection` is what opening the URL gave
        (`None` when it raised). The stored URL is not updated. */
    method ConnectToDatabase(connection: Option<Database>) returns (ok: bool)
      modifies this
      ensures ok <==> connection.Some?
      ensures ok ==> db == connection && agentReady
      ensures !ok ==> db == old(db) && agentReady == old(agentReady)
      ensures databaseUrl == old(databaseUrl)
    {
      if connection.None? {
        return false;
      }
      db := connection;
      agentReady := true;
      return true;
    }

    /** What `validate_sql_query` answers; `compiled` is what opening the
        stored URL and compiling the statement gave (its text, or the error
        message). Without a stored URL, `create_engine(None)` raises, so a
        statement that passes the keyword check is a syntax error. */
    function Validate(sqlQuery: string, compiled: Result<string, string>): (v: Validation)
      reads this
      ensures v.Valid? <==> db.Some? && databaseUrl.Some? && compiled.Ok? &&
                            FirstDangerous(Upper(sqlQuery), 0).None?
      ensures v.Valid? ==> v.compiled == compiled.value
    {
      if db.None? then Invalid("No database connected")
      else match FirstDangerous(Upper(sqlQuery), 0)
        case Some(k) => Invalid("Query contains potentially dangerous keyword: " + k)
        case None =>
          if databaseUrl.None? then Invalid("SQL syntax error: " + NoUrlEngineError)
          else match compiled
            case Ok(text) => Valid(text)
            case Err(m) => Invalid("SQL syntax error: " + m)
    }

    /** `validate_sql_query`: the keyword loop, then compilation. A query
        is accepted only when the agent has a database and a URL and no
        keyword occurs in its upper-cased text. */
    method ValidateSqlQuery(sqlQuery: string, compiled: Result<string, string>) returns (v: Validation)
      ensures v == Validate(sqlQuery, compiled)
      ensures v.Valid? ==> (db.Some? && databaseUrl.Some? &&
        forall k :: 0 <= k < |DangerousKeywords| ==> !Contains(Upper(sqlQuery), DangerousKeywords[k]))
      ensures db.None? ==> v == Invalid("No database connected")
      ensures db.Some? && databaseUrl.None? && FirstDangerous(Upper(sqlQuery), 0).None? ==>
        v == Invalid("SQL syntax error: " + NoUrlEngineError)
    {
      if db.None? {
        return Invalid("No database connected");
      }
      var upper := Upper(sqlQuery);
      var i := 0;
      while i < |DangerousKeywords|
        invariant 0 <= i <= |DangerousKeywords|
        invariant FirstDangerous(upper, 0) == FirstDangerous(upper, i)
      {
        if Contains(upper, DangerousKeywords[i]) {
          return Invalid("Query contains potentially dangerous keyword: " + DangerousKeywords[i]);
        }
        i := i + 1;
      }
      if databaseUrl.None? {
        return Invalid("SQL syntax error: " + NoUrlEngineError);
      }
      match compiled {
        case Ok(text) => v := Valid(text);
        case Err(m) => v := Invalid("SQL syntax error: " + m);
      }
    }

    /** `execute_sql_query`: the statement reaches the database only after
        validation accepted it. */
    method ExecuteSqlQuery(sqlQuery: string, compiled: Result<string, string>, run: RunOutcome) returns (r: Execution)
      ensures db.None? ==> r == ExecutionError("No database connected")
      ensures db.Some? && Validate(sqlQuery, compiled).Invalid? ==>
        r == ExecutionError("Invalid query: " + Validate(sqlQuery, compiled).error)
      ensures r.Executed? <==> Validate(sqlQuery, compiled).Valid? && run.RunOk?
      ensures r.Executed? ==> databaseUrl.Some? && compiled.Ok?
      ensures r.Executed? ==> r == Executed(run.result, sqlQuery)
      ensures Validate(sqlQuery, compiled).Valid? && run.RunSqlError? ==> r == ExecutionError("SQL error: " + run.sqlMessage)
      ensures Validate(sqlQuery, compiled).Valid? && run.RunFailed? ==> r == ExecutionError("Execution error: " + run.message)
    {
      if db.None? {
        return ExecutionError("No database connected");
      }
      var validation := ValidateSqlQuery(sqlQuery, compiled);
      if validation.Invalid? {
        return ExecutionError("Invalid query: " + validation.error);
      }
      match run {
        case RunOk(result) => r := Executed(result, sqlQuery);
        case RunSqlError(m) => r := ExecutionError("SQL error: " + m);
        case RunFailed(m) => r := ExecutionError("Execution error: " + m);
      }
    }

    /** `process_natural_language_query`: table hints, then column hints,
        are appended to the question before the agent sees it; `agent`
        answers a question (or fails with a message). */
    method ProcessNaturalLanguageQuery(query: string, tableHints: seq<string>, columnHints: seq<string>,
                                       agent: string -> Result<string, string>) returns (r: NlAnswer)
      ensures !agentReady ==> r == NlError("SQL agent not initialized. Please connect to a database first.", None)
      ensures agentReady ==> var q := EnhancedQuery(query, tableHints, columnHints);
        match agent(q)
        case Ok(answer) => r == Answered(answer, SqlFence(answer), query)
        case Err(m) => r == NlError("Failed to process query: " + m, Some(query))
    {
      if !agentReady {
        return NlError("SQL agent not initialized. Please connect to a database first.", None);
      }
      var enhanced := EnhancedQuery(query, tableHints, columnHints);
      var reply := agent(enhanced);
      match reply {
        case Ok(answer) => r := Answered(answer, SqlFence(answer), query);
        case Err(m) => r := NlError("Failed to process query: " + m, Some(query));
      }
    }

    /** `get_query_suggestions`: four prompts for each of the first three
        tables, then the generic ones, cut to ten. */
    method GetQuerySuggestions() returns (r: seq<string>)
      ensures r == Suggestions(db)
    {
      if db.None? {
        return ["No database connected"];
      }
      var tables := db.value.tables;
      var suggestions: seq<string> := [];
      var i := 0;
      while i < |tables| && i < 3
        invariant 0 <= i <= |tables| && i <= 3
        invariant suggestions == TablesPrompts(tables[..i])
      {
        assert tables[..i + 1][..i] == tables[..i];
        suggestions := suggestions + TablePrompts(tables[i]);
        i := i + 1;
      }
      assert tables[..i] == tables[..Min(3, |tables|)];
      suggestions := suggestions + BaseSuggestions;
      r := suggestions[..Min(10, |suggestions|)];
    }
  }

  const TableHintsLabel := "\n\nFocus on these tables: "
  const ColumnHintsLabel := "\n\nRelevant columns might include: "

  /** One hint block: the heading and the comma-joined hints, or nothing
      when there are no hints. */
  function HintBlock(heading: string, hints: seq<string>): string {
    if hints != [] then heading + Join(", ", hints) else ""
  }

  /** The question with its hints: the table block, then the column block,
      each present only when it has hints. */
  function EnhancedQuery(query: string, tableHints: seq<string>, columnHints: seq<string>): (r: string)
    ensures r == query + HintBlock(TableHintsLabel, tableHints) + HintBlock(ColumnHintsLabel, columnHints)
    ensures StartsWith(r, query)
  {
    var withTables := if tableHints != [] then query + TableHintsLabel + Join(", ", tableHints) else query;
    var r := if columnHints != [] then withTables + ColumnHintsLabel + Join(", ", columnHints) else withTables;
    assert withTables == query + HintBlock(TableHintsLabel, tableHints) by {
      if tableHints == [] { assert query + [] == query; }
    }
    assert r == withTables + HintBlock(ColumnHintsLabel, columnHints) by {
      if columnHints == [] { assert withTables + [] == withTables; }
    }
    Headed(query, HintBlock(TableHintsLabel, tableHints), HintBlock(ColumnHintsLabel, columnHints));
    r
  }
}
