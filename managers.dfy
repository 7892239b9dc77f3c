/** The file-driven agent managers, data_app/manager.py and
    backend/data_app/manager.py: a registry from tool name to tool that
    starts with web search, gains one tool per processed upload, and from
    which the agent graph is rebuilt after every registration. Each file is
    a singleton; both are instances of `Manager`. The graph builder, the
    file processors' foreign work and the agent run are parameters. */
module Managers {
  import opened Common
  import opened Strings
  import ToolRegistry
  import RagCitations

  datatype FileKind = PdfKind | CsvKind | SqlKind

  /** A registered tool: the shared module-level tools of data_app, or a
      per-file wrapper of the backend bound to one file id. */
  datatype Tool =
    | SearchInternet
    | AnswerPdf
    | AnswerCsv
    | QuerySql
    | Bound(kind: FileKind, fileId: int)

  /** The registry key of a file's tool: `pdf_tool_<id>`, `csv_tool_<id>`
      or `sql_tool_<id>`. */
  function RegistryKey(kind: FileKind, fileId: int): string {
    (match kind
     case PdfKind => "pdf_tool_"
     case CsvKind => "csv_tool_"
     case SqlKind => "sql_tool_") + IntToString(fileId)
  }

  /** The name a backend wrapper reports to the model:
      `answer_pdf_<id>`, `answer_csv_<id>` or `query_sql_<id>`. */
  function WrapperName(kind: FileKind, fileId: int): string {
    (match kind
     case PdfKind => "answer_pdf_"
     case CsvKind => "answer_csv_"
     case SqlKind => "query_sql_") + IntToString(fileId)
  }

  /** Keys of different kinds or ids never collide, so only a re-upload of
      the same kind and id overwrites a tool. */
  lemma RegistryKeyInjective(k1: FileKind, i1: int, k2: FileKind, i2: int)
    ensures RegistryKey(k1, i1) == RegistryKey(k2, i2) <==> k1 == k2 && i1 == i2
  {
    if RegistryKey(k1, i1) == RegistryKey(k2, i2) {
      var a, b := RegistryKey(k1, i1), RegistryKey(k2, i2);
      assert a[0] == b[0];
      assert k1 == k2;
      assert a[9..] == IntToString(i1) && b[9..] == IntToString(i2);
      IntToStringInjective(i1, i2);
    }
  }

  /** The registry key and the wrapper's own name differ. */
  lemma KeyIsNotWrapperName(kind: FileKind, fileId: int)
    ensures RegistryKey(kind, fileId) != WrapperName(kind, fileId)
  {
    var k, w := RegistryKey(kind, fileId), WrapperName(kind, fileId);
    match kind
    case PdfKind => assert k[0] == 'p' && w[0] == 'a';
    case CsvKind => assert k[0] == 'c' && w[0] == 'a';
    case SqlKind => assert k[1] == 'q' && w[1] == 'u';
  }

  /** What a backend wrapper answers: the inner tool's text, or the text of
      the exception it raised folded into an error line. */
  function WrapperReply(kind: FileKind, fileId: int, inner: Result<string, string>): (r: string)
    ensures inner.Ok? ==> r == inner.value
    ensures inner.Err? ==> r == (match kind
      case PdfKind => "Error answering PDF question for file "
      case CsvKind => "Error answering CSV question for file "
      case SqlKind => "Error querying SQL database for file ") + IntToString(fileId) + ": " + inner.error
  {
    match inner
    case Ok(text) => text
    case Err(e) =>
      (match kind
       case PdfKind => "Error answering PDF question for file "
       case CsvKind => "Error answering CSV question for file "
       case SqlKind => "Error querying SQL database for file ") + IntToString(fileId) + ": " + e
  }

  /** `get_agent_response`: `run` is the contents of the messages the agent
      returned, or the text of the exception it raised. */
  function AgentResponse(run: Result<seq<string>, string>): (r: string)
    ensures run.Ok? && run.value != [] ==> r == run.value[|run.value| - 1]
    ensures run.Ok? && run.value == [] ==> r == "No response generated by the agent."
    ensures run.Err? ==> r == "Sorry, I am unable to process your request at this time."
  {
    match run
    case Ok(messages) =>
      if messages == [] then "No response generated by the agent." else messages[|messages| - 1]
    case Err(_) => "Sorry, I am unable to process your request at this time."
  }

  /** The extensions data_app/manager.py processes. */
  predicate DataAppSupported(ext: string) {
    ext == ".pdf" || ext == ".sql" || ext == ".csv"
  }

  /** The extensions backend/data_app/manager.py processes. */
  predicate BackendSupported(ext: string) {
    ext == ".pdf" || ext == ".csv" || ext == ".sql" || ext == ".db" || ext == ".sqlite"
  }

  /** The kind of tool a supported extension yields: every extension other
      than `.pdf` and `.csv` is a SQL database. */
  function KindOf(ext: string): FileKind {
    if ext == ".pdf" then PdfKind else if ext == ".csv" then CsvKind else SqlKind
  }

  function SharedTool(kind: FileKind): Tool {
    match kind
    case PdfKind => AnswerPdf
    case CsvKind => AnswerCsv
    case SqlKind => QuerySql
  }

  /** A manager: `_available_tools` with its insertion order, and the tool
      list the current agent graph was built from. */
  class Manager {
    var tools: map<string, Tool>
    var order: seq<string>
    var graph: seq<Tool>

    /** The graph is always built from the registered tools, in
        registration order. */
    ghost predicate Valid()
      reads this
    {
      Distinct(order) &&
      (forall name :: name in tools <==> name in order) &&
      |graph| == |order| &&
      forall i :: 0 <= i < |order| ==> graph[i] == tools[order[i]]
    }

    /** `_initialize_agent`: web search is the only tool. */
    constructor()
      ensures Valid()
      ensures tools == map["tavily_search" := SearchInternet] && order == ["tavily_search"]
      ensures graph == [SearchInternet]
    {
      tools := map["tavily_search" := SearchInternet];
      order := ["tavily_search"];
      graph := [SearchInternet];
    }

    /** `_available_tools[name] = tool` followed by the graph rebuild. */
    method Register(name: string, tool: Tool)
      requires Valid()
      modifies this
      ensures Valid()
      ensures tools == old(tools)[name := tool]
      ensures order == if name in old(tools) then old(order) else old(order) + [name]
    {
      if name !in tools {
        order := order + [name];
      }
      tools := tools[name := tool];
      var o, t := order, tools;
      graph := seq(|o|, i requires 0 <= i < |o| => t[o[i]]);
    }

    /** `process_uploaded_file` of data_app/manager.py: `pdfRaised` is what
        the PDF processor raised. The SQL processor and the CSV processor
        swallow their own errors, so `.sql` and `.csv` uploads are always
        registered, whether or not their database or index came about. */
    method ProcessUploadedFile(path: string, fileId: int, pdfRaised: Option<string>,
                               sqlTools: ToolRegistry.SqlDatabaseRegistry, databaseOpens: bool)
      returns (ok: bool)
      requires Valid() && sqlTools.Valid()
      modifies this, sqlTools
      ensures Valid() && sqlTools.Valid()
      ensures var ext := ToolRegistry.Extension(path);
        ok <==> DataAppSupported(ext) && (ext == ".pdf" ==> pdfRaised.None?)
      ensures var ext := ToolRegistry.Extension(path);
        ok ==> tools == old(tools)[RegistryKey(KindOf(ext), fileId) := SharedTool(KindOf(ext))]
      ensures !ok ==> tools == old(tools) && order == old(order) && graph == old(graph)
      ensures ToolRegistry.Extension(path) == ".sql" && databaseOpens ==>
        sqlTools.uris == old(sqlTools.uris)[fileId := "sqlite:///" + path]
      ensures ToolRegistry.Extension(path) != ".sql" || !databaseOpens ==> sqlTools.uris == old(sqlTools.uris)
    {
      var ext := ToolRegistry.Extension(path);
      if !DataAppSupported(ext) {
        return false;
      }
      if ext == ".pdf" && pdfRaised.Some? {
        return false;
      }
      if ext == ".sql" {
        sqlTools.ConfigureDatabase(path, fileId, databaseOpens);
      }
      var kind := KindOf(ext);
      Register(RegistryKey(kind, fileId), SharedTool(kind));
      ok := true;
    }

    /** `process_uploaded_file` of backend/data_app/manager.py: unsupported
        extensions and missing files are refused before any processing; a
        PDF is processed by the PDF tool (which raises on failure), a CSV
        by a processor whose failure is `csvRaised`, anything else is
        configured as a SQL database (which never raises). A bound wrapper
        is registered. */
    method ProcessUploadedFileBackend(path: string, fileId: int, fileExists: bool,
                                      load: RagCitations.PdfLoad, later: Option<RagCitations.Failure>,
                                      csvRaised: Option<string>,
                                      sqlTools: ToolRegistry.SqlDatabaseRegistry, scriptRuns: bool, databaseOpens: bool)
      returns (ok: bool)
      requires Valid() && sqlTools.Valid()
      modifies this, sqlTools
      ensures Valid() && sqlTools.Valid()
      ensures var ext := ToolRegistry.Extension(path);
        ok <==> (BackendSupported(ext) && fileExists &&
          (ext == ".pdf" ==> RagCitations.ProcessPdf(path, fileId, load, later).Ok?) &&
          (ext == ".csv" ==> csvRaised.None?))
      ensures var ext := ToolRegistry.Extension(path);
        ok ==> tools == old(tools)[RegistryKey(KindOf(ext), fileId) := Bound(KindOf(ext), fileId)]
      ensures !ok ==> tools == old(tools) && order == old(order) && graph == old(graph)
      ensures !BackendSupported(ToolRegistry.Extension(path)) || !fileExists ==> sqlTools.uris == old(sqlTools.uris)
      ensures ToolRegistry.Extension(path) == ".pdf" || ToolRegistry.Extension(path) == ".csv" ==>
        sqlTools.uris == old(sqlTools.uris)
    {
      var ext := ToolRegistry.Extension(path);
      if !BackendSupported(ext) {
        return false;
      }
      if !fileExists {
        return false;
      }
      if ext == ".pdf" {
        if RagCitations.ProcessPdf(path, fileId, load, later).Err? {
          return false;
        }
      } else if ext == ".csv" {
        if csvRaised.Some? {
          return false;
        }
      } else {
        sqlTools.ConfigureBackendDatabase(path, fileId, scriptRuns, databaseOpens);
      }
      var kind := KindOf(ext);
      Register(RegistryKey(kind, fileId), Bound(kind, fileId));
      ok := true;
    }
  }

  /** Uploading the same file id as a PDF and as a CSV keeps both tools;
      uploading it twice with the same kind keeps one. */
  lemma ReuploadOverwrites(tools: map<string, Tool>, fileId: int, t1: Tool, t2: Tool)
    ensures var m := tools[RegistryKey(PdfKind, fileId) := t1][RegistryKey(CsvKind, fileId) := t2];
      m[RegistryKey(PdfKind, fileId)] == t1 && m[RegistryKey(CsvKind, fileId)] == t2
    ensures tools[RegistryKey(PdfKind, fileId) := t1][RegistryKey(PdfKind, fileId) := t2] ==
      tools[RegistryKey(PdfKind, fileId) := t2]
  {
    RegistryKeyInjective(PdfKind, fileId, CsvKind, fileId);
  }
}
