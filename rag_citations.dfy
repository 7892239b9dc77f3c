/** The retrieval tools bound to one uploaded file:
    backend/data_app/agent_core/tools/pdf_rag_tool.py (PDF, pages cited)
    and data_app/agent_core/tools/csv_rag_tool.py (CSV, rows cited).
    Loading, splitting, embedding and the question-answering chain are
    foreign; the set of index directories on disk is a parameter. */
module RagCitations {
  import opened Common
  import opened Strings

  /** A source document the chain returned, with its metadata entries
      (absent or `None` metadata is an empty list). */
  datatype SourceDocument = SourceDocument(metadata: seq<(string, Json)>)

  /** What the chain answered: its `result` entry and its sources. */
  datatype QaResult = QaResult(answer: Option<Json>, sources: seq<SourceDocument>)

  /** An exception raised by the chain or by loading its index. */
  datatype Failure = Failure(fileNotFound: bool, message: string)

  /** `str(result.get('result'))`. */
  function AnswerText(answer: Option<Json>): string {
    match answer
    case None => "None"
    case Some(j) => PyStr(j)
  }

  /** `f"{answer}\n\nSources: {' '.join(citations)}"`. */
  function Cited(answer: Option<Json>, citations: seq<string>): (r: string)
    ensures r == AnswerText(answer) + "\n\nSources: " + Join(" ", citations)
    ensures StartsWith(r, AnswerText(answer) + "\n\nSources: ")
    ensures citations == [] ==> r == AnswerText(answer) + "\n\nSources: "
  {
    var head := AnswerText(answer) + "\n\nSources: ";
    var r := head + Join(" ", citations);
    assert r[..|head|] == head;
    r
  }

  // ---------------------------------------------------------------- PDF

  /** Where the PDF index of a file is written and read. */
  function PdfIndexPath(fileId: int): string {
    "data/faiss_index_" + IntToString(fileId)
  }

  /** What loading the PDF gave. */
  datatype PdfLoad = PdfMissing | PdfUnreadable(message: string) | PdfPages(count: nat)

  datatype ProcessError = FileNotFoundError(message: string) | GenericError(message: string)

  /** `process_and_vectorize` for PDFs: `later` is an exception raised
      while splitting, embedding or saving. Every failure is re-raised as a
      file-not-found error or a generic one; success yields the index path. */
  function ProcessPdf(filePath: string, fileId: int, load: PdfLoad, later: Option<Failure>): (r: Result<string, ProcessError>)
    ensures r.Ok? <==> load.PdfPages? && load.count > 0 && later.None?
    ensures r.Ok? ==> r.value == PdfIndexPath(fileId)
    ensures load == PdfPages(0) ==>
      r == Err(GenericError("Unexpected error processing PDF file: No content extracted from PDF: " + filePath))
    ensures r.Err? && r.error.FileNotFoundError? ==> r.error.message == "PDF file not found: " + filePath
  {
    match load
    case PdfMissing => Err(FileNotFoundError("PDF file not found: " + filePath))
    case PdfUnreadable(m) => Err(GenericError("Unexpected error processing PDF file: " + m))
    case PdfPages(count) =>
      if count == 0 then
        Err(GenericError("Unexpected error processing PDF file: No content extracted from PDF: " + filePath))
      else match later
        case Some(f) =>
          if f.fileNotFound then Err(FileNotFoundError("PDF file not found: " + filePath))
          else Err(GenericError("Unexpected error processing PDF file: " + f.message))
        case None => Ok(PdfIndexPath(fileId))
  }

  const PdfNotProcessed := "Sorry, the PDF with the specified ID has not been processed yet. Please ensure the file has been uploaded and processed before asking questions."

  function PdfNotFound(details: string): string {
    "Sorry, I could not find information on this topic in the specified PDF. Error details: " + details +
    ". The document may not contain relevant information about your question."
  }

  /** The citation of one source: `[page p+1]` for a page number, `[source]`
      without one; adding 1 to a page that is not a number raises. */
  function PageCitation(doc: SourceDocument): (r: Result<string, string>)
    ensures Get(doc.metadata, "page").None? || Get(doc.metadata, "page") == Some(JNull) ==> r == Ok("[source]")
    ensures (Get(doc.metadata, "page").Some? && Get(doc.metadata, "page").value.JNum?) ==>
      r == Ok("[page " + IntToString(Get(doc.metadata, "page").value.n + 1) + "]")
  {
    match Get(doc.metadata, "page")
    case None => Ok("[source]")
    case Some(page) =>
      match page
      case JNull => Ok("[source]")
      case JNum(n) => Ok("[page " + IntToString(n + 1) + "]")
      case JBool(b) => Ok("[page " + (if b then "2" else "1") + "]")
      case JStr(_) => Err("can only concatenate str (not \"int\") to str")
      case JArr(_) => Err("can only concatenate list (not \"int\") to list")
      case JObj(_) => Err("unsupported operand type(s) for +: 'dict' and 'int'")
  }

  /** The citation loop: one citation per source, in order, or the first
      exception. */
  function PdfCitations(sources: seq<SourceDocument>): (r: Result<seq<string>, string>)
    ensures r.Ok? ==> (|r.value| == |sources| &&
      forall k :: 0 <= k < |sources| ==> PageCitation(sources[k]) == Ok(r.value[k]))
  {
    if sources == [] then Ok([])
    else
      var front := sources[..|sources| - 1];
      var last := sources[|sources| - 1];
      match PdfCitations(front)
      case Err(e) => Err(e)
      case Ok(cs) =>
        assert forall k :: 0 <= k < |front| ==> front[k] == sources[k];
        match PageCitation(last)
        case Err(e) => Err(e)
        case Ok(c) => Ok(cs + [c])
  }

  /** The loop fails exactly when some source cannot be cited. */
  lemma {:induction false} PdfCitationsFail(sources: seq<SourceDocument>)
    ensures PdfCitations(sources).Err? <==> exists k :: 0 <= k < |sources| && PageCitation(sources[k]).Err?
  {
    if sources != [] {
      var front := sources[..|sources| - 1];
      PdfCitationsFail(front);
      if PdfCitations(front).Err? {
        var k :| 0 <= k < |front| && PageCitation(front[k]).Err?;
        assert sources[k] == front[k];
      }
    }
  }

  /** The tool's two handlers: a `FileNotFoundError` gives the
      not-processed text, any other exception the apology with its
      details. */
  function FailureReply(f: Failure): (r: string)
    ensures f.fileNotFound <==> r == PdfNotProcessed
    ensures !f.fileNotFound ==> r == PdfNotFound(f.message)
  {
    if f.fileNotFound then PdfNotProcessed else PdfNotFound(f.message)
  }

  /** `answer_question_on_pdf`: when the index was never written, loading
      it raises `loadError` (whatever the vector store's loader raises for
      a missing directory); otherwise the chain's exception or result
      decides. Either exception goes through the same two handlers. */
  function PdfAnswer(fileId: int, indexes: set<string>, loadError: Failure, qa: Result<QaResult, Failure>): (r: string)
    ensures PdfIndexPath(fileId) !in indexes ==> r == FailureReply(loadError)
    ensures PdfIndexPath(fileId) in indexes && qa.Err? ==> r == FailureReply(qa.error)
    ensures PdfIndexPath(fileId) in indexes && qa.Ok? ==>
      match PdfCitations(qa.value.sources)
      case Err(e) => r == PdfNotFound(e)
      case Ok(cs) => r == AnswerText(qa.value.answer) + "\n\nSources: " + Join(" ", cs)
  {
    if PdfIndexPath(fileId) !in indexes then FailureReply(loadError)
    else match qa
      case Err(f) => FailureReply(f)
      case Ok(res) => PdfReply(res.answer, PdfCitations(res.sources))
  }

  /** The answer with its citations, or the apology for a citation that
      raised. */
  function PdfReply(answer: Option<Json>, citations: Result<seq<string>, string>): (r: string)
    ensures citations.Err? ==> r == PdfNotFound(citations.error)
    ensures citations.Ok? ==> r == AnswerText(answer) + "\n\nSources: " + Join(" ", citations.value)
  {
    match citations
    case Err(e) => PdfNotFound(e)
    case Ok(cs) => Cited(answer, cs)
  }

  /** The tool itself. */
  method AnswerQuestionOnPdf(fileId: int, indexes: set<string>, loadError: Failure, qa: Result<QaResult, Failure>) returns (r: string)
    ensures r == PdfAnswer(fileId, indexes, loadError, qa)
  {
    if PdfIndexPath(fileId) !in indexes {
      return FailureReply(loadError);
    }
    if qa.Err? {
      return FailureReply(qa.error);
    }
    var citations := CitePages(qa.value.sources);
    r := PdfReply(qa.value.answer, citations);
  }

  /** The tool's citation loop over the chain's sources, stopping at the
      first exception. */
  method CitePages(sources: seq<SourceDocument>) returns (r: Result<seq<string>, string>)
    ensures r == PdfCitations(sources)
  {
    var citations: seq<string> := [];
    var i := 0;
    while i < |sources|
      invariant 0 <= i <= |sources|
      invariant PdfCitations(sources[..i]) == Ok(citations)
    {
      assert sources[..i + 1][..i] == sources[..i];
      var c := PageCitation(sources[i]);
      if c.Err? {
        assert PdfCitations(sources[..i + 1]) == Err(c.error);
        PdfFailureSticks(sources, i + 1);
        return Err(c.error);
      }
      citations := citations + [c.value];
      i := i + 1;
    }
    assert sources[..i] == sources;
    r := Ok(citations);
  }

  /** A failed citation prefix fails the whole loop with the same error. */
  lemma {:induction false} PdfFailureSticks(sources: seq<SourceDocument>, n: nat)
    requires n <= |sources| && PdfCitations(sources[..n]).Err?
    ensures PdfCitations(sources) == PdfCitations(sources[..n])
    decreases |sources| - n
  {
    if n < |sources| {
      assert sources[..n + 1][..n] == sources[..n];
      PdfFailureStep(sources[..n + 1]);
      PdfFailureSticks(sources, n + 1);
    } else {
      assert sources[..n] == sources;
    }
  }

  /** One more source after a failure keeps the failure. */
  lemma PdfFailureStep(sources: seq<SourceDocument>)
    requires sources != [] && PdfCitations(sources[..|sources| - 1]).Err?
    ensures PdfCitations(sources) == PdfCitations(sources[..|sources| - 1])
  {
  }

  /** The index a successful processing writes is the one the tool reads:
      a processed file is answered from its chain. */
  lemma ProcessedPdfIsAnswered(filePath: string, fileId: int, load: PdfLoad, later: Option<Failure>,
                               indexes: set<string>, loadError: Failure, res: QaResult)
    requires ProcessPdf(filePath, fileId, load, later).Ok?
    requires PdfCitations(res.sources).Ok?
    ensures PdfAnswer(fileId, indexes + {ProcessPdf(filePath, fileId, load, later).value}, loadError, Ok(res)) ==
      Cited(res.answer, PdfCitations(res.sources).value)
  {
  }

  // ---------------------------------------------------------------- CSV

  /** Where the CSV index of a file is written and read. */
  function CsvIndexPath(fileId: int): string {
    "data/faiss_index_csv_" + IntToString(fileId)
  }

  /** `process_and_vectorize` for CSVs: `failure` is an exception raised on
      the way, which is logged and swallowed; the index exists afterwards
      only when nothing failed. */
  function ProcessCsv(indexes: set<string>, fileId: int, failure: Option<string>): (r: set<string>)
    ensures failure.None? ==> r == indexes + {CsvIndexPath(fileId)}
    ensures failure.Some? ==> r == indexes
  {
    if failure.None? then indexes + {CsvIndexPath(fileId)} else indexes
  }

  function CsvNotFound(details: string): string {
    "Sorry, I could not find information on this topic in the specified CSV. Error: " + details
  }

  /** The citation of one source: `[row r]` with the row as stored (no
      offset), `[source]` without one. */
  function RowCitation(doc: SourceDocument): (r: string)
    ensures Get(doc.metadata, "row").None? || Get(doc.metadata, "row") == Some(JNull) ==> r == "[source]"
    ensures Get(doc.metadata, "row").Some? && Get(doc.metadata, "row").value.JNum? ==>
      r == "[row " + IntToString(Get(doc.metadata, "row").value.n) + "]"
  {
    match Get(doc.metadata, "row")
    case None => "[source]"
    case Some(row) => if row.JNull? then "[source]" else "[row " + PyStr(row) + "]"
  }

  function CsvCitations(sources: seq<SourceDocument>): (r: seq<string>)
    ensures |r| == |sources|
    ensures forall k :: 0 <= k < |sources| ==> r[k] == RowCitation(sources[k])
  {
    seq(|sources|, k requires 0 <= k < |sources| => RowCitation(sources[k]))
  }

  /** `answer_question_on_csv`: every failure (a missing index reports
      `loadError`) becomes the apology with its text. */
  function CsvAnswer(fileId: int, indexes: set<string>, loadError: string, qa: Result<QaResult, string>): (r: string)
    ensures CsvIndexPath(fileId) !in indexes ==> r == CsvNotFound(loadError)
    ensures CsvIndexPath(fileId) in indexes && qa.Err? ==> r == CsvNotFound(qa.error)
    ensures CsvIndexPath(fileId) in indexes && qa.Ok? ==>
      r == AnswerText(qa.value.answer) + "\n\nSources: " + Join(" ", CsvCitations(qa.value.sources))
  {
    if CsvIndexPath(fileId) !in indexes then CsvNotFound(loadError)
    else match qa
      case Err(e) => CsvNotFound(e)
      case Ok(res) => Cited(res.answer, CsvCitations(res.sources))
  }

  /** The tool itself, building the citations in a loop. */
  method AnswerQuestionOnCsv(fileId: int, indexes: set<string>, loadError: string, qa: Result<QaResult, string>)
    returns (r: string)
    ensures r == CsvAnswer(fileId, indexes, loadError, qa)
  {
    if CsvIndexPath(fileId) !in indexes {
      return CsvNotFound(loadError);
    }
    if qa.Err? {
      return CsvNotFound(qa.error);
    }
    var sources := qa.value.sources;
    var citations: seq<string> := [];
    var i := 0;
    while i < |sources|
      invariant 0 <= i <= |sources|
      invariant citations == CsvCitations(sources[..i])
    {
      citations := citations + [RowCitation(sources[i])];
      i := i + 1;
    }
    assert sources[..i] == sources;
    r := Cited(qa.value.answer, citations);
  }

  /** A CSV processed without failure is answered from its chain; one
      whose processing failed (and was never indexed) is not. */
  lemma ProcessedCsvIsAnswered(indexes: set<string>, fileId: int, failure: Option<string>, loadError: string, res: QaResult)
    ensures failure.None? ==>
      CsvAnswer(fileId, ProcessCsv(indexes, fileId, failure), loadError, Ok(res)) == Cited(res.answer, CsvCitations(res.sources))
    ensures failure.Some? && CsvIndexPath(fileId) !in indexes ==>
      CsvAnswer(fileId, ProcessCsv(indexes, fileId, failure), loadError, Ok(res)) == CsvNotFound(loadError)
  {
  }
}
