/** backend/agents/agent_graph.py: the orchestrator that owns the router,
    SQL, CSV and RAG agents, tracks which data sources are loaded, and
    decides which agent answers a query. The language models, the SQL
    agent's database and the file decoding are foreign: their outcomes are
    parameters. */
module AgentGraph {
  import opened Common
  import opened Strings
  import CsvAgent
  import RagAgent

  /** Which agents exist and which data sources the system context marks as
      loaded. */
  datatype Availability = Availability(
    router: bool, sql: bool, csv: bool, rag: bool,
    hasSqlData: bool, hasCsvData: bool, hasDocuments: bool)

  /** A data flag is only ever set while its agent exists. */
  predicate Consistent(a: Availability) {
    (a.hasSqlData ==> a.sql) && (a.hasCsvData ==> a.csv) && (a.hasDocuments ==> a.rag)
  }

  /** Position of an agent name in the order the context lists them. */
  function Rank(name: string): nat {
    if name == "router" then 0 else if name == "sql" then 1 else if name == "csv" then 2 else 3
  }

  predicate AgentName(name: string) {
    name == "router" || name == "sql" || name == "csv" || name == "rag"
  }

  /** `[name]` when `flag` holds. */
  function Keep(flag: bool, name: string): (r: seq<string>)
    ensures forall x :: x in r <==> flag && x == name
    ensures |r| <= 1
  {
    if flag then [name] else []
  }

  /** `_update_system_context`: the agents that can answer, in the order
      router, sql, csv, rag, each listed once. */
  function AvailableAgents(a: Availability): (r: seq<string>)
    ensures |r| <= 4
  {
    Keep(a.router, "router") + Keep(a.sql && a.hasSqlData, "sql") +
    Keep(a.csv && a.hasCsvData, "csv") + Keep(a.rag && a.hasDocuments, "rag")
  }

  /** An agent is listed exactly when it exists and, for a data agent,
      its data is loaded; nothing else is listed. */
  lemma AvailableAgentsMembers(a: Availability)
    ensures var r := AvailableAgents(a);
      ("router" in r <==> a.router) &&
      ("sql" in r <==> a.sql && a.hasSqlData) &&
      ("csv" in r <==> a.csv && a.hasCsvData) &&
      ("rag" in r <==> a.rag && a.hasDocuments) &&
      (forall i :: 0 <= i < |r| ==> AgentName(r[i]))
  {
    assert "router" != "sql" && "router" != "csv" && "router" != "rag" && "sql" != "csv" && "sql" != "rag" && "csv" != "rag";
    var k1, k2, k3, k4 := Keep(a.router, "router"), Keep(a.sql && a.hasSqlData, "sql"),
                          Keep(a.csv && a.hasCsvData, "csv"), Keep(a.rag && a.hasDocuments, "rag");
    var r := AvailableAgents(a);
    assert r == k1 + k2 + k3 + k4;
    forall x ensures x in r <==> x in k1 || x in k2 || x in k3 || x in k4 {
    }
  }

  /** The agents are listed in the fixed order router, sql, csv, rag. */
  lemma AvailableAgentsOrdered(a: Availability)
    ensures var r := AvailableAgents(a);
      forall i, j :: 0 <= i < j < |r| ==> Rank(r[i]) < Rank(r[j])
  {
    var k1, k2, k3, k4 := Keep(a.router, "router"), Keep(a.sql && a.hasSqlData, "sql"),
                          Keep(a.csv && a.hasCsvData, "csv"), Keep(a.rag && a.hasDocuments, "rag");
    var r := AvailableAgents(a);
    assert r == k1 + k2 + k3 + k4;
    assert Rank("router") == 0 && Rank("sql") == 1 && Rank("csv") == 2 && Rank("rag") == 3;
    var n1, n2, n3 := |k1|, |k1| + |k2|, |k1| + |k2| + |k3|;
    forall i | 0 <= i < |r|
      ensures Rank(r[i]) == if i < n1 then 0 else if i < n2 then 1 else if i < n3 then 2 else 3
    {
      if i < n1 { assert r[i] == k1[i]; }
      else if i < n2 { assert r[i] == k2[i - n1]; }
      else if i < n3 { assert r[i] == k3[i - n2]; }
      else { assert r[i] == k4[i - n3]; }
    }
  }

  /** The data flag that `intended` needs, if it names a data agent. */
  predicate Missing(intended: string, a: Availability) {
    (intended == "sql" && !a.hasSqlData) ||
    (intended == "csv" && !a.hasCsvData) ||
    (intended == "rag" && !a.hasDocuments)
  }

  /** `_route_decision`: the classified type (default "general"), or
      "fallback" when that type's data is not loaded. */
  function RouteDecision(shouldRouteTo: Option<string>, a: Availability): (r: string)
    ensures var t := shouldRouteTo.GetOr("general");
      (r == "fallback" <==> Missing(t, a) || t == "fallback") && (r != "fallback" ==> r == t)
  {
    var t := shouldRouteTo.GetOr("general");
    if Missing(t, a) then "fallback" else t
  }

  /** The agent that ends up answering a query. */
  datatype Handler =
    | SqlHandler
    | CsvHandler
    | RagHandler
    | GeneralHandler
    | Unavailable(response: string, error: string)

  /** `_handle_fallback`: SQL questions go to the CSV data, CSV questions to
      the SQL data, anything else to the documents, and finally to the
      general agent. */
  function Fallback(intended: string, a: Availability): (r: Handler)
    ensures !r.Unavailable?
    ensures r == CsvHandler <==> intended == "sql" && a.hasCsvData
    ensures r == SqlHandler <==> intended == "csv" && a.hasSqlData
    ensures r == RagHandler ==> a.hasDocuments
    ensures r == GeneralHandler ==> !a.hasDocuments
  {
    if intended == "sql" && a.hasCsvData then CsvHandler
    else if intended == "csv" && a.hasSqlData then SqlHandler
    else if a.hasDocuments then RagHandler
    else GeneralHandler
  }

  /** Whether the classified type's own agent can answer. */
  predicate Direct(agentType: string, a: Availability) {
    (agentType == "sql" && a.sql && a.hasSqlData) ||
    (agentType == "csv" && a.csv && a.hasCsvData) ||
    (agentType == "rag" && a.rag && a.hasDocuments)
  }

  /** The dispatch step of `process_query`. */
  function Dispatch(agentType: string, a: Availability, enableFallback: bool): (r: Handler)
    ensures Direct(agentType, a) ==>
      r == (if agentType == "sql" then SqlHandler else if agentType == "csv" then CsvHandler else RagHandler)
    ensures agentType == "general" ==> r == GeneralHandler
    ensures !Direct(agentType, a) && agentType != "general" ==>
      r == (if enableFallback then Fallback(agentType, a)
            else Unavailable("Agent type '" + agentType + "' is not available or no data loaded",
                             "No " + agentType + " data available"))
  {
    if agentType == "sql" && a.sql && a.hasSqlData then SqlHandler
    else if agentType == "csv" && a.csv && a.hasCsvData then CsvHandler
    else if agentType == "rag" && a.rag && a.hasDocuments then RagHandler
    else if agentType == "general" then GeneralHandler
    else if enableFallback then Fallback(agentType, a)
    else Unavailable("Agent type '" + agentType + "' is not available or no data loaded",
                     "No " + agentType + " data available")
  }

  /** In a consistent state a data agent is only ever handed a query when
      it exists and its data is loaded, and with fallback enabled every
      query is answered by some agent. */
  lemma DispatchSafe(agentType: string, a: Availability, enableFallback: bool)
    requires Consistent(a)
    ensures Dispatch(agentType, a, enableFallback) == SqlHandler ==> a.sql && a.hasSqlData
    ensures Dispatch(agentType, a, enableFallback) == CsvHandler ==> a.csv && a.hasCsvData
    ensures Dispatch(agentType, a, enableFallback) == RagHandler ==> a.rag && a.hasDocuments
    ensures Dispatch(agentType, a, enableFallback).Unavailable? <==>
      !enableFallback && agentType != "general" && !Direct(agentType, a)
  {
  }

  /** Where the graph's routing edge and the dispatch agree: a route that
      is not "fallback" to a data agent is answered by that agent. */
  lemma RouteAgreesWithDispatch(shouldRouteTo: Option<string>, a: Availability, enableFallback: bool)
    requires Consistent(a)
    requires RouteDecision(shouldRouteTo, a) in ["sql", "csv", "rag"]
    ensures var t := RouteDecision(shouldRouteTo, a);
      Dispatch(t, a, enableFallback) ==
        (if t == "sql" then SqlHandler else if t == "csv" then CsvHandler else RagHandler)
  {
    var t := RouteDecision(shouldRouteTo, a);
    assert t == shouldRouteTo.GetOr("general") && !Missing(t, a);
  }

  const GeneralSuggestions: seq<string> := [
    "Hello, what can you help me with?",
    "What data sources are available?",
    "Can you give me an overview of the system?",
    "What types of questions can I ask?"
  ]

  /** `[f"{prefix}{s}" for s in xs]`. */
  function Prefixed(prefix: string, xs: seq<string>): (r: seq<string>)
    ensures |r| == |xs|
    ensures forall k :: 0 <= k < |r| ==> r[k] == prefix + xs[k]
  {
    seq(|xs|, k requires 0 <= k < |xs| => prefix + xs[k])
  }

  function TakeFive(xs: seq<string>): (r: seq<string>)
    ensures |r| == if |xs| < 5 then |xs| else 5
    ensures r == xs[..|r|]
  {
    if |xs| <= 5 then xs else xs[..5]
  }

  /** One agent's share of the suggestions: its first five prompts, each
      tagged, when the agent exists and has its data; nothing otherwise. */
  function Part(tag: string, active: bool, xs: seq<string>): (r: seq<string>)
    ensures !active ==> r == []
    ensures active ==> |r| == (if |xs| < 5 then |xs| else 5)
    ensures active ==> forall k :: 0 <= k < |r| ==> r[k] == tag + xs[k]
  {
    if active then Prefixed(tag, TakeFive(xs)) else []
  }

  /** `get_query_suggestions`: at most five prompts from each agent that
      has data, tagged with its source, then the general prompts; the whole
      list cut to twenty. */
  function GraphSuggestions(sqlSuggestions: seq<string>, csvSuggestions: seq<string>, ragSuggestions: seq<string>, a: Availability): (r: seq<string>)
    ensures r == Part("[SQL] ", a.sql && a.hasSqlData, sqlSuggestions) +
                 Part("[CSV] ", a.csv && a.hasCsvData, csvSuggestions) +
                 Part("[Docs] ", a.rag && a.hasDocuments, ragSuggestions) + GeneralSuggestions
    ensures 4 <= |r| <= 19
    ensures r[|r| - 4..] == GeneralSuggestions
  {
    var s := Part("[SQL] ", a.sql && a.hasSqlData, sqlSuggestions);
    var c := Part("[CSV] ", a.csv && a.hasCsvData, csvSuggestions);
    var d := Part("[Docs] ", a.rag && a.hasDocuments, ragSuggestions);
    var all := s + c + d + GeneralSuggestions;
    GeneralLast(s + c + d, GeneralSuggestions);
    var n := if |all| <= 20 then |all| else 20;
    assert all[..n] == all;
    all[..n]
  }

  predicate Tagged(s: string) {
    StartsWith(s, "[SQL] ") || StartsWith(s, "[CSV] ") || StartsWith(s, "[Docs] ")
  }

  /** The cut to twenty never removes anything: at most fifteen agent
      prompts precede the four general ones, which always close the list;
      every prompt before them is tagged with its source. */
  lemma GraphSuggestionsShape(sqlSuggestions: seq<string>, csvSuggestions: seq<string>, ragSuggestions: seq<string>, a: Availability)
    ensures var r := GraphSuggestions(sqlSuggestions, csvSuggestions, ragSuggestions, a);
      4 <= |r| <= 19 && r[|r| - 4..] == GeneralSuggestions &&
      forall k :: 0 <= k < |r| - 4 ==> Tagged(r[k])
  {
    var s := Part("[SQL] ", a.sql && a.hasSqlData, sqlSuggestions);
    var c := Part("[CSV] ", a.csv && a.hasCsvData, csvSuggestions);
    var d := Part("[Docs] ", a.rag && a.hasDocuments, ragSuggestions);
    AllTagged("[SQL] ", TakeFive(sqlSuggestions));
    AllTagged("[CSV] ", TakeFive(csvSuggestions));
    AllTagged("[Docs] ", TakeFive(ragSuggestions));
    TaggedConcat(s, c, d);
    assert GraphSuggestions(sqlSuggestions, csvSuggestions, ragSuggestions, a) == s + c + d + GeneralSuggestions;
    GeneralLast(s + c + d, GeneralSuggestions);
  }

  lemma TaggedConcat(s: seq<string>, c: seq<string>, d: seq<string>)
    requires forall k :: 0 <= k < |s| ==> Tagged(s[k])
    requires forall k :: 0 <= k < |c| ==> Tagged(c[k])
    requires forall k :: 0 <= k < |d| ==> Tagged(d[k])
    ensures forall k :: 0 <= k < |s + c + d| ==> Tagged((s + c + d)[k])
  {
    var tagged := s + c + d;
    forall k | 0 <= k < |tagged| ensures Tagged(tagged[k]) {
      if k < |s| { assert tagged[k] == s[k]; }
      else if k < |s| + |c| { assert tagged[k] == c[k - |s|]; }
      else { assert tagged[k] == d[k - |s| - |c|]; }
    }
  }

  lemma GeneralLast(tagged: seq<string>, general: seq<string>)
    ensures (tagged + general)[|tagged + general| - |general|..] == general
    ensures forall k :: 0 <= k < |tagged| ==> (tagged + general)[k] == tagged[k]
  {
  }

  /** Every prompt of a source carries that source's tag. */
  lemma AllTagged(tag: string, xs: seq<string>)
    requires tag == "[SQL] " || tag == "[CSV] " || tag == "[Docs] "
    ensures forall k :: 0 <= k < |xs| ==> Tagged(Prefixed(tag, xs)[k])
  {
    forall k | 0 <= k < |xs| ensures Tagged(Prefixed(tag, xs)[k]) {
      var p := Prefixed(tag, xs)[k];
      assert p[..|tag|] == tag;
    }
  }

  /** `filename.replace(old, new)`: every non-overlapping occurrence, left
      to right. */
  function ReplaceAll(s: string, pat: string, rep: string): (r: string)
    requires pat != []
    ensures !Contains(s, pat) ==> r == s
    ensures |rep| <= |pat| ==> |r| <= |s|
    decreases |s|
  {
    if s == [] then []
    else if StartsWith(s, pat) then
      assert s[0..] == s;
      rep + ReplaceAll(s[|pat|..], pat, rep)
    else
      var rest := ReplaceAll(s[1..], pat, rep);
      assert !Contains(s, pat) ==> !Contains(s[1..], pat) by {
        if !Contains(s, pat) {
          forall i | 0 <= i <= |s[1..]| ensures !StartsWith(s[1..][i..], pat) {
            assert s[1..][i..] == s[i + 1..];
          }
        }
      }
      [s[0]] + rest
  }

  /** The dataset name of an uploaded file: every ".csv" removed when the
      name ends with ".csv", otherwise the name itself. */
  function UploadName(filename: string): (r: string)
    ensures |r| <= |filename|
    ensures !EndsWith(filename, ".csv") ==> r == filename
  {
    if EndsWith(filename, ".csv") then ReplaceAll(filename, ".csv", "") else filename
  }

  predicate NoDot(s: string) {
    forall i :: 0 <= i < |s| ==> s[i] != '.'
  }

  /** An upload named `stem.csv` whose stem has no dot is stored as `stem`. */
  lemma {:induction false} UploadNameOfStem(stem: string)
    requires NoDot(stem)
    ensures UploadName(stem + ".csv") == stem
  {
    assert EndsWith(stem + ".csv", ".csv") by { assert (stem + ".csv")[|stem|..] == ".csv"; }
    StemReplace(stem);
  }

  /** Text that does not begin with a dot does not begin with ".csv". */
  lemma NoDotStart(s: string)
    requires s != [] && s[0] != '.'
    ensures !StartsWith(s, ".csv")
  {
    if |s| >= 4 {
      assert s[..4][0] == s[0];
    }
  }

  lemma {:induction false} StemReplace(stem: string)
    requires NoDot(stem)
    ensures ReplaceAll(stem + ".csv", ".csv", "") == stem
    decreases |stem|
  {
    var s := stem + ".csv";
    if stem == [] {
      assert s == ".csv";
      assert s[0..] == s;
      assert StartsWith(s, ".csv");
      assert s[4..] == [];
    } else {
      assert s[0] == stem[0];
      NoDotStart(s);
      assert s[1..] == stem[1..] + ".csv";
      StemReplace(stem[1..]);
      assert [stem[0]] + stem[1..] == stem;
    }
  }

  /** What loading one uploaded document came to: loaded, rejected by the
      RAG agent (with its error, if it gave one), or an exception (a missing
      key, a decode or store failure) with its message. */
  datatype FileOutcome = Loaded | Rejected(error: Option<string>) | Raised(message: string)

  datatype UploadedFile = UploadedFile(filename: Option<string>, outcome: FileOutcome)

  /** The error line one uploaded file contributes, if any. Without a
      filename the lookup itself raises. */
  function FileError(f: UploadedFile): (r: Option<string>)
    ensures r.None? <==> f.filename.Some? && f.outcome.Loaded?
  {
    match f.filename
    case None => Some("unknown: " + (if f.outcome.Raised? then f.outcome.message else "'filename'"))
    case Some(name) =>
      match f.outcome
      case Loaded => None
      case Rejected(e) => Some(name + ": " + e.GetOr("Unknown error"))
      case Raised(m) => Some(name + ": " + m)
  }

  /** The files that loaded, counted. */
  function LoadedCount(files: seq<UploadedFile>): (r: nat)
    ensures r <= |files|
  {
    if files == [] then 0
    else LoadedCount(files[..|files| - 1]) + (if FileError(files[|files| - 1]).None? then 1 else 0)
  }

  /** The error lines, in file order. */
  function UploadErrors(files: seq<UploadedFile>): (r: seq<string>)
    ensures |r| <= |files|
  {
    if files == [] then []
    else
      var e := FileError(files[|files| - 1]);
      UploadErrors(files[..|files| - 1]) + (if e.Some? then [e.value] else [])
  }

  /** Every file is either counted as loaded or contributes one error line. */
  lemma {:induction false} UploadAccounting(files: seq<UploadedFile>)
    ensures LoadedCount(files) + |UploadErrors(files)| == |files|
    ensures LoadedCount(files) == 0 <==> forall k :: 0 <= k < |files| ==> FileError(files[k]).Some?
  {
    if files != [] {
      var front := files[..|files| - 1];
      UploadAccounting(front);
      if LoadedCount(files) == 0 {
        forall k | 0 <= k < |files| ensures FileError(files[k]).Some? {
          if k < |front| { assert files[k] == front[k]; }
        }
      }
      if forall k :: 0 <= k < |files| ==> FileError(files[k]).Some? {
        forall k | 0 <= k < |front| ensures FileError(front[k]).Some? {
          assert front[k] == files[k];
        }
        assert FileError(files[|files| - 1]).Some?;
      }
    }
  }

  /** The orchestrator's state. The router, CSV and RAG agents always
      exist; the SQL agent exists only once a database was connected. */
  class AgentGraphState {
    var sqlPresent: bool
    var sqlDatabaseUrl: Option<string>
    var enableFallback: bool
    var hasSqlData: bool
    var hasCsvData: bool
    var hasDocuments: bool
    var availableAgents: seq<string>
    const csv: CsvAgent.CsvAgentState
    const rag: RagAgent.RagAgentState

    function Avail(): Availability
      reads this
    {
      Availability(true, sqlPresent, true, true, hasSqlData, hasCsvData, hasDocuments)
    }

    /** The published agent list matches the flags, and SQL data is only
        marked as loaded while the SQL agent exists. */
    ghost predicate Valid()
      reads this, csv
    {
      availableAgents == AvailableAgents(Avail()) && (hasSqlData ==> sqlPresent) && csv.Valid()
    }

    /** `__init__`: the SQL agent is created (and SQL data marked) exactly
        when a non-empty database URL is given. */
    constructor(databaseUrl: Option<string>, fallback: bool, storeExists: bool)
      ensures Valid()
      ensures sqlPresent == hasSqlData == (databaseUrl.Some? && databaseUrl.value != [])
      ensures sqlDatabaseUrl == databaseUrl && enableFallback == fallback
      ensures !hasCsvData && !hasDocuments
      ensures availableAgents == if hasSqlData then ["router", "sql"] else ["router"]
      ensures fresh(csv) && fresh(rag) && rag.hasStore == storeExists && rag.documents == []
    {
      csv := new CsvAgent.CsvAgentState();
      rag := new RagAgent.RagAgentState(storeExists);
      var connect := databaseUrl.Some? && databaseUrl.value != [];
      sqlPresent := connect;
      sqlDatabaseUrl := databaseUrl;
      enableFallback := fallback;
      hasSqlData := connect;
      hasCsvData := false;
      hasDocuments := false;
      availableAgents := AvailableAgents(Availability(true, connect, true, true, connect, false, false));
    }

    /** `_update_system_context`. */
    method UpdateSystemContext()
      modifies this
      ensures availableAgents == AvailableAgents(Avail())
      ensures "sql" in availableAgents <==> sqlPresent && hasSqlData
      ensures "csv" in availableAgents <==> hasCsvData
      ensures "rag" in availableAgents <==> hasDocuments
      ensures sqlPresent == old(sqlPresent) && sqlDatabaseUrl == old(sqlDatabaseUrl) && enableFallback == old(enableFallback)
      ensures hasSqlData == old(hasSqlData) && hasCsvData == old(hasCsvData) && hasDocuments == old(hasDocuments)
    {
      availableAgents := AvailableAgents(Avail());
      AvailableAgentsMembers(Avail());
    }

    /** `_route_decision` on the current flags. */
    function Route(shouldRouteTo: Option<string>): string
      reads this
    {
      RouteDecision(shouldRouteTo, Avail())
    }

    /** Which agent `process_query` hands a query of the classified type. */
    function SelectHandler(agentType: string): (r: Handler)
      reads this, csv
      requires Valid()
      ensures r == SqlHandler ==> sqlPresent && hasSqlData
      ensures r == CsvHandler ==> hasCsvData
      ensures r == RagHandler ==> hasDocuments
      ensures r.Unavailable? <==> !enableFallback && agentType != "general" && !Direct(agentType, Avail())
    {
      DispatchSafe(agentType, Avail(), enableFallback);
      Dispatch(agentType, Avail(), enableFallback)
    }

    /** `connect_sql_database`: `opening` is whether creating the agent or
        reconnecting it succeeded (with the exception text when creation
        raised). Returns the success message, or the error. */
    method ConnectSqlDatabase(databaseUrl: string, opening: Result<(), string>) returns (r: Result<string, string>)
      requires Valid()
      modifies this
      ensures Valid()
      ensures r.Ok? <==> opening.Ok?
      ensures opening.Err? ==> (r.error == (if old(sqlPresent) then "Failed to connect to database" else opening.error) &&
        sqlPresent == old(sqlPresent) && sqlDatabaseUrl == old(sqlDatabaseUrl) &&
        hasSqlData == old(hasSqlData) && availableAgents == old(availableAgents))
      ensures opening.Ok? ==> (r == Ok("SQL database connected successfully") &&
        sqlPresent && hasSqlData && sqlDatabaseUrl == Some(databaseUrl) && "sql" in availableAgents)
      ensures hasCsvData == old(hasCsvData) && hasDocuments == old(hasDocuments) && enableFallback == old(enableFallback)
    {
      if opening.Err? {
        if sqlPresent {
          return Err("Failed to connect to database");
        }
        return Err(opening.error);
      }
      sqlPresent := true;
      sqlDatabaseUrl := Some(databaseUrl);
      hasSqlData := true;
      UpdateSystemContext();
      r := Ok("SQL database connected successfully");
    }

    /** `load_csv_file`: marks CSV data as loaded when the CSV agent
        accepted the file. */
    method LoadCsvFile(filePath: string, name: Option<string>, parsed: Result<CsvAgent.Frame, string>) returns (r: Result<string, string>)
      requires Valid()
      modifies this, csv
      ensures Valid()
      ensures parsed.Err? ==> r == Err(parsed.error) && hasCsvData == old(hasCsvData) && csv.frames == old(csv.frames)
      ensures parsed.Ok? ==> (var n := if name.Some? then name.value else RagAgent.Stem(filePath);
        r == Ok("CSV file '" + n + "' loaded successfully") && hasCsvData && "csv" in availableAgents &&
        csv.frames == old(csv.frames)[n := parsed.value] && csv.currentName == Some(n))
      ensures sqlPresent == old(sqlPresent) && hasSqlData == old(hasSqlData) && hasDocuments == old(hasDocuments)
    {
      var loaded := csv.LoadCsvFile(filePath, name, parsed);
      if loaded.Err? {
        return Err(loaded.error);
      }
      hasCsvData := true;
      UpdateSystemContext();
      r := Ok("CSV file '" + loaded.value.name + "' loaded successfully");
    }

    /** `load_csv_from_upload`: `decoded` is the UTF-8 decoding of the
        bytes (its error when they are not UTF-8) and `parsed` what pandas
        made of the text. */
    method LoadCsvFromUpload(filename: string, decoded: Result<string, string>, parsed: Result<CsvAgent.Frame, string>)
      returns (r: Result<string, string>)
      requires Valid()
      modifies this, csv
      ensures Valid()
      ensures decoded.Err? ==> r == Err(decoded.error) && hasCsvData == old(hasCsvData) && csv.frames == old(csv.frames)
      ensures decoded.Ok? && parsed.Err? ==> r == Err(parsed.error) && hasCsvData == old(hasCsvData) && csv.frames == old(csv.frames)
      ensures decoded.Ok? && parsed.Ok? ==> (var n := UploadName(filename);
        r == Ok("CSV file '" + n + "' uploaded and loaded successfully") && hasCsvData && "csv" in availableAgents &&
        csv.frames == old(csv.frames)[n := parsed.value] && csv.currentName == Some(n))
      ensures sqlPresent == old(sqlPresent) && hasSqlData == old(hasSqlData) && hasDocuments == old(hasDocuments)
    {
      if decoded.Err? {
        return Err(decoded.error);
      }
      var name := UploadName(filename);
      var loaded := csv.LoadCsvFromString(name, parsed);
      if loaded.Err? {
        return Err(loaded.error);
      }
      hasCsvData := true;
      UpdateSystemContext();
      r := Ok("CSV file '" + name + "' uploaded and loaded successfully");
    }

    /** `load_documents_from_upload`: counts the files that loaded and
        collects one error line per file that did not; documents are marked
        as loaded only when at least one file loaded. Returns the count and
        the errors, or the errors alone. */
    method LoadDocumentsFromUpload(files: seq<UploadedFile>) returns (r: Result<(nat, seq<string>), seq<string>>)
      requires Valid()
      modifies this
      ensures Valid()
      ensures r.Ok? <==> LoadedCount(files) > 0
      ensures r.Ok? ==> r.value == (LoadedCount(files), UploadErrors(files)) && hasDocuments && "rag" in availableAgents
      ensures r.Err? ==> r.error == UploadErrors(files) && |r.error| == |files| && hasDocuments == old(hasDocuments)
      ensures sqlPresent == old(sqlPresent) && hasSqlData == old(hasSqlData) && hasCsvData == old(hasCsvData)
    {
      var loaded: nat := 0;
      var errors: seq<string> := [];
      var i := 0;
      while i < |files|
        invariant 0 <= i <= |files|
        invariant loaded == LoadedCount(files[..i]) && errors == UploadErrors(files[..i])
      {
        assert files[..i + 1][..i] == files[..i];
        var e := FileError(files[i]);
        if e.None? {
          loaded := loaded + 1;
        } else {
          errors := errors + [e.value];
        }
        i := i + 1;
      }
      assert files[..i] == files;
      UploadAccounting(files);
      if loaded > 0 {
        hasDocuments := true;
        UpdateSystemContext();
        r := Ok((loaded, errors));
      } else {
        r := Err(errors);
      }
    }

    /** `clear_data_source`: drops the SQL agent and its URL, the CSV
        frames, or the document store; any other name is refused and
        changes nothing. `removeError` is what removing the document
        store's directory raised; the graph ignores the outcome, so the
        documents are reported cleared even when the store survives. */
    method ClearDataSource(sourceType: string, removeError: Option<string>) returns (r: Result<string, string>)
      requires Valid()
      modifies this, csv, rag
      ensures Valid()
      ensures sourceType == "sql" ==> (r == Ok("SQL database disconnected") &&
        !sqlPresent && !hasSqlData && sqlDatabaseUrl == None && "sql" !in availableAgents)
      ensures sourceType == "csv" ==> (r == Ok("CSV data cleared") &&
        !hasCsvData && csv.frames == map[] && csv.currentName == None && "csv" !in availableAgents)
      ensures sourceType == "documents" ==> (r == Ok("Documents cleared") &&
        !hasDocuments && "rag" !in availableAgents)
      ensures sourceType == "documents" && removeError.None? ==> rag.documents == [] && !rag.hasStore
      ensures sourceType == "documents" && removeError.Some? ==> rag.documents == old(rag.documents) && rag.hasStore == old(rag.hasStore)
      ensures sourceType != "sql" && sourceType != "csv" && sourceType != "documents" ==>
        (r == Err("Unknown data source type: " + sourceType) &&
         sqlPresent == old(sqlPresent) && hasSqlData == old(hasSqlData) && hasCsvData == old(hasCsvData) &&
         hasDocuments == old(hasDocuments) && availableAgents == old(availableAgents))
      ensures sourceType != "sql" ==> sqlPresent == old(sqlPresent) && hasSqlData == old(hasSqlData) && sqlDatabaseUrl == old(sqlDatabaseUrl)
      ensures sourceType != "csv" ==> hasCsvData == old(hasCsvData) && csv.frames == old(csv.frames)
      ensures sourceType != "documents" ==> hasDocuments == old(hasDocuments) && rag.documents == old(rag.documents)
    {
      if sourceType == "sql" {
        sqlPresent := false;
        hasSqlData := false;
        sqlDatabaseUrl := None;
        r := Ok("SQL database disconnected");
      } else if sourceType == "csv" {
        csv.ClearFrames();
        hasCsvData := false;
        r := Ok("CSV data cleared");
      } else if sourceType == "documents" {
        var _ := rag.ClearVectorStore(removeError);
        hasDocuments := false;
        r := Ok("Documents cleared");
      } else {
        return Err("Unknown data source type: " + sourceType);
      }
      UpdateSystemContext();
    }

    /** `get_query_suggestions` on the current state; the SQL and RAG
        agents' own suggestion lists are given. */
    function GetQuerySuggestions(sqlSuggestions: seq<string>, ragSuggestions: seq<string>): (r: seq<string>)
      reads this, csv
      ensures r == Part("[SQL] ", sqlPresent && hasSqlData, sqlSuggestions) +
                   Part("[CSV] ", hasCsvData, CsvAgent.Suggestions(csv.current)) +
                   Part("[Docs] ", hasDocuments, ragSuggestions) + GeneralSuggestions
      ensures 4 <= |r| <= 19 && r[|r| - 4..] == GeneralSuggestions
      ensures !hasSqlData && !hasCsvData && !hasDocuments ==> r == GeneralSuggestions
    {
      var r := GraphSuggestions(sqlSuggestions, CsvAgent.Suggestions(csv.current), ragSuggestions, Avail());
      GraphSuggestionsShape(sqlSuggestions, CsvAgent.Suggestions(csv.current), ragSuggestions, Avail());
      r
    }
  }
}
