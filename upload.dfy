/** backend/router/upload.py: the advanced upload endpoints. Files are
    checked by name and size, identified by a content digest, handed to the
    agent graph, and recorded in the in-memory `upload_status` table, which
    can be listed newest first and purged of old records.

    The digest (`hashlib.md5(...).hexdigest()`), the clock, ISO timestamp
    parsing, UTF-8 decoding and pandas parsing are foreign: they enter as
    parameters. */
module Upload {
  import opened Common
  import opened Strings
  import ToolRegistry
  import CsvAgent
  import AgentGraph

  const MiB := 1024 * 1024
  /** A `timedelta(days=1)` in microseconds, the resolution of the parsed
      timestamps. */
  const DayMicros := 86400 * 1000000

  /** `datetime.now() - timedelta(days=days_old)`, in microseconds. */
  function Cutoff(now: int, daysOld: int): int {
    now - daysOld * DayMicros
  }

  /** `generate_file_id`: the first eight hex digits of the digest, an
      underscore, then the filename. */
  function FileId(digest: string, filename: string): (r: string)
    ensures |digest| >= 8 ==>
      |r| == 9 + |filename| && r[..8] == digest[..8] && r[8] == '_' && r[9..] == filename
  {
    Take(digest, 8) + "_" + filename
  }

  /** Two uploads share an identifier only when their digests start alike
      and their filenames are equal. */
  lemma FileIdInjective(d1: string, f1: string, d2: string, f2: string)
    requires |d1| >= 8 && |d2| >= 8 && FileId(d1, f1) == FileId(d2, f2)
    ensures d1[..8] == d2[..8] && f1 == f2
  {
    var r := FileId(d1, f1);
    assert r[9..] == f1 && r[9..] == f2;
  }

  /** `validate_file_size`: a missing or zero size is let through. */
  function ValidFileSize(size: Option<int>, maxMb: int): (ok: bool)
    ensures size.None? || size.value == 0 ==> ok
    ensures size.Some? && size.value != 0 ==> (ok <==> size.value <= maxMb * MiB)
  {
    match size
    case None => true
    case Some(n) => if n != 0 then n <= maxMb * MiB else true
  }

  /** A size accepted under one limit is accepted under any larger one. */
  lemma SizeLimitMonotone(size: Option<int>, small: int, large: int)
    requires small <= large && ValidFileSize(size, small)
    ensures ValidFileSize(size, large)
  {
    if size.Some? && size.value != 0 {
      assert size.value <= small * MiB <= large * MiB;
    }
  }

  datatype TypeInfo = TypeInfo(extension: string, category: string, description: string)

  /** The `file_types` table: category and description per extension. */
  function KnownType(ext: string): Option<(string, string)> {
    if ext == ".csv" then Some(("data", "Comma Separated Values"))
    else if ext == ".xlsx" then Some(("data", "Excel Spreadsheet"))
    else if ext == ".pdf" then Some(("document", "PDF Document"))
    else if ext == ".txt" then Some(("document", "Text File"))
    else if ext == ".md" then Some(("document", "Markdown File"))
    else if ext == ".docx" then Some(("document", "Word Document"))
    else if ext == ".json" then Some(("data", "JSON Data"))
    else if ext == ".xml" then Some(("data", "XML Data"))
    else None
  }

  /** `get_file_type_info` without the MIME type: the lower-cased extension
      and what the table says about it. */
  function FileTypeInfo(filename: string): (r: TypeInfo)
    ensures r.extension == ToolRegistry.Extension(filename)
    ensures KnownType(r.extension).None? <==> r.category == "unknown"
    ensures KnownType(r.extension).None? ==> r.description == "Unknown File Type"
    ensures KnownType(r.extension).Some? ==> (r.category, r.description) == KnownType(r.extension).value
    ensures r.category == "data" || r.category == "document" || r.category == "unknown"
  {
    var ext := ToolRegistry.Extension(filename);
    match KnownType(ext)
    case Some((category, description)) => TypeInfo(ext, category, description)
    case None => TypeInfo(ext, "unknown", "Unknown File Type")
  }

  // ---------------------------------------------------------------------
  // Request checks

  const AgentGraphMissing := "Agent Graph not initialized"
  const DocumentTypesText := "['.pdf', '.txt', '.md', '.docx']"

  /** The name and size checks of `upload_single_csv`. */
  function CheckSingleCsv(filename: string, size: Option<int>): (r: Result<(), HttpError>)
    ensures r.Ok? <==> EndsWith(Lower(filename), ".csv") && ValidFileSize(size, 100)
    ensures !EndsWith(Lower(filename), ".csv") ==>
      r == Err(HttpError(400, "Only CSV files are supported for this endpoint"))
    ensures EndsWith(Lower(filename), ".csv") && !ValidFileSize(size, 100) ==>
      r == Err(HttpError(413, "File too large. Maximum size is 100MB"))
  {
    if !EndsWith(Lower(filename), ".csv") then
      Err(HttpError(400, "Only CSV files are supported for this endpoint"))
    else if !ValidFileSize(size, 100) then
      Err(HttpError(413, "File too large. Maximum size is 100MB"))
    else Ok(())
  }

  /** The suffix test ignores case: `REPORT.CSV` is a CSV upload. */
  lemma UpperCaseSuffixAccepted(stem: string)
    ensures CheckSingleCsv(stem + ".CSV", None).Ok?
  {
    var f := stem + ".CSV";
    var l := Lower(f);
    assert l[|l| - 4..] == ".csv" by {
      assert l[|l| - 4] == LowerChar(f[|f| - 4]) == '.';
      assert l[|l| - 3] == LowerChar(f[|f| - 3]) == LowerChar('C') == 'c';
      assert l[|l| - 2] == LowerChar(f[|f| - 2]) == LowerChar('S') == 's';
      assert l[|l| - 1] == LowerChar(f[|f| - 1]) == LowerChar('V') == 'v';
    }
  }

  /** `any(name.lower().endswith(ext) for ext in supported_types)`. */
  predicate SupportedDocument(filename: string) {
    var l := Lower(filename);
    EndsWith(l, ".pdf") || EndsWith(l, ".txt") || EndsWith(l, ".md") || EndsWith(l, ".docx")
  }

  /** The name and size checks of `upload_single_document`. */
  function CheckSingleDocument(filename: string, size: Option<int>): (r: Result<(), HttpError>)
    ensures r.Ok? <==> SupportedDocument(filename) && ValidFileSize(size, 50)
    ensures !SupportedDocument(filename) ==>
      r == Err(HttpError(400, "Unsupported file type. Supported: " + DocumentTypesText))
    ensures SupportedDocument(filename) && !ValidFileSize(size, 50) ==>
      r == Err(HttpError(413, "File too large. Maximum size is 50MB"))
  {
    if !SupportedDocument(filename) then
      Err(HttpError(400, "Unsupported file type. Supported: " + DocumentTypesText))
    else if !ValidFileSize(size, 50) then
      Err(HttpError(413, "File too large. Maximum size is 50MB"))
    else Ok(())
  }

  /** One file of a batch: its name, the length of its content, and what
      the RAG agent makes of it. */
  datatype BatchFile = BatchFile(filename: string, size: nat, outcome: AgentGraph.FileOutcome)

  const MaxBatchFiles := 20
  const MaxBatchBytes := 200 * MiB
  const TooManyFiles := "Too many files. Maximum batch size is 20 files"
  const BatchTooLarge := "Total batch size too large. Maximum is 200MB"

  function TotalSize(files: seq<BatchFile>): nat {
    if files == [] then 0 else TotalSize(files[..|files| - 1]) + files[|files| - 1].size
  }

  function UnsupportedInBatch(filename: string): string {
    "Unsupported file type: " + filename + ". Supported: " + DocumentTypesText
  }

  /** The validation pass over a batch: each file in order is checked for
      its type, read, and added to the running total, which may not pass
      200 MB. The total on success, otherwise the first failure. */
  function BatchScan(files: seq<BatchFile>): (r: Result<nat, HttpError>)
    ensures r.Ok? ==> r.value == TotalSize(files) && r.value <= MaxBatchBytes
    ensures r.Err? ==> r.error.status == 400 || r.error == HttpError(413, BatchTooLarge)
  {
    if files == [] then Ok(0)
    else
      var front, f := files[..|files| - 1], files[|files| - 1];
      var rest := BatchScan(front);
      if rest.Err? then rest
      else if !SupportedDocument(f.filename) then Err(HttpError(400, UnsupportedInBatch(f.filename)))
      else if rest.value + f.size > MaxBatchBytes then Err(HttpError(413, BatchTooLarge))
      else
        Ok(rest.value + f.size)
  }

  /** Every file of an accepted batch has a supported type. */
  lemma {:induction false} BatchAcceptedSupported(files: seq<BatchFile>)
    requires BatchScan(files).Ok?
    ensures forall k :: 0 <= k < |files| ==> SupportedDocument(files[k].filename)
  {
    if files != [] {
      var front := files[..|files| - 1];
      BatchAcceptedSupported(front);
      forall k | 0 <= k < |files| ensures SupportedDocument(files[k].filename) {
        if k < |front| { assert files[k] == front[k]; }
      }
    }
  }

  /** Once a prefix of the batch fails, the whole batch fails the same
      way: later files are never looked at. */
  lemma {:induction false} BatchFailureSticks(files: seq<BatchFile>, j: nat)
    requires j <= |files| && BatchScan(files[..j]).Err?
    ensures BatchScan(files) == BatchScan(files[..j])
    decreases |files| - j
  {
    if j < |files| {
      assert files[..j + 1][..j] == files[..j];
      BatchFailureSticks(files, j + 1);
    } else {
      assert files[..j] == files;
    }
  }

  /** The batch was rejected at file `k`: every earlier file passed, and
      that file has an unsupported type (400) or is the first to take the
      running total over 200 MB (413). */
  predicate RejectedAt(files: seq<BatchFile>, k: nat)
    requires k < |files|
  {
    BatchScan(files[..k]).Ok? &&
    ((!SupportedDocument(files[k].filename) &&
      BatchScan(files) == Err(HttpError(400, UnsupportedInBatch(files[k].filename)))) ||
     (SupportedDocument(files[k].filename) && TotalSize(files[..k]) <= MaxBatchBytes &&
      TotalSize(files[..k]) + files[k].size > MaxBatchBytes &&
      BatchScan(files) == Err(HttpError(413, BatchTooLarge))))
  }

  /** A rejected batch was rejected at a definite file. */
  lemma {:induction false} BatchRejectedAt(files: seq<BatchFile>)
    requires BatchScan(files).Err?
    ensures exists k: nat :: k < |files| && RejectedAt(files, k)
  {
    var n := |files|;
    var front := files[..n - 1];
    if BatchScan(front).Err? {
      BatchRejectedAt(front);
      var k: nat :| k < |front| && RejectedAt(front, k);
      RejectedEarlier(files, k);
    } else {
      assert RejectedAt(files, n - 1);
    }
  }

  /** A rejection inside the batch minus its last file is a rejection of
      the whole batch at the same file. */
  lemma RejectedEarlier(files: seq<BatchFile>, k: nat)
    requires files != [] && k < |files| - 1 && RejectedAt(files[..|files| - 1], k)
    ensures RejectedAt(files, k)
  {
    var front := files[..|files| - 1];
    assert front[..k] == files[..k] && front[k] == files[k];
    assert BatchScan(files) == BatchScan(front);
  }

  /** A batch of supported files whose total stays within 200 MB passes. */
  lemma {:induction false} BatchAccepted(files: seq<BatchFile>)
    requires forall k :: 0 <= k < |files| ==> SupportedDocument(files[k].filename)
    requires TotalSize(files) <= MaxBatchBytes
    ensures BatchScan(files) == Ok(TotalSize(files))
  {
    if files != [] {
      var front := files[..|files| - 1];
      assert forall k :: 0 <= k < |front| ==> front[k] == files[k];
      BatchAccepted(front);
    }
  }

  /** One more file of the batch, after a prefix that passed. */
  lemma BatchScanStep(files: seq<BatchFile>, i: nat)
    requires i < |files|
    ensures BatchScan(files[..i + 1]) ==
      if BatchScan(files[..i]).Err? then BatchScan(files[..i])
      else if !SupportedDocument(files[i].filename) then Err(HttpError(400, UnsupportedInBatch(files[i].filename)))
      else if BatchScan(files[..i]).value + files[i].size > MaxBatchBytes then Err(HttpError(413, BatchTooLarge))
      else Ok(BatchScan(files[..i]).value + files[i].size)
  {
    assert files[..i + 1][..i] == files[..i];
  }

  /** The validation loop of `upload_documents_batch`. */
  method ValidateBatch(files: seq<BatchFile>) returns (r: Result<nat, HttpError>)
    ensures r == BatchScan(files)
  {
    var total: nat := 0;
    var i := 0;
    while i < |files|
      invariant 0 <= i <= |files|
      invariant BatchScan(files[..i]) == Ok(total)
    {
      var f := files[i];
      BatchScanStep(files, i);
      if !SupportedDocument(f.filename) {
        BatchFailureSticks(files, i + 1);
        return Err(HttpError(400, UnsupportedInBatch(f.filename)));
      }
      total := total + f.size;
      if total > MaxBatchBytes {
        BatchFailureSticks(files, i + 1);
        return Err(HttpError(413, BatchTooLarge));
      }
      i := i + 1;
    }
    assert files[..i] == files;
    r := Ok(total);
  }

  // ---------------------------------------------------------------------
  // The upload table

  datatype ProcessingOptions = ProcessingOptions(extractText: Option<bool>, chunkSize: Option<int>)

  /** The `file_info` recorded for a single upload. */
  datatype FileInfo = FileInfo(
    fileId: string, originalFilename: string, displayName: Option<string>,
    description: Option<string>, size: nat, uploadTimestamp: string,
    typeInfo: TypeInfo, options: Option<ProcessingOptions>)

  datatype BatchInfo = BatchInfo(batchId: string, totalFiles: nat, totalSize: nat, startTime: string)

  /** One `upload_status` value. Single uploads carry a timestamp; batch
      records do not, and carry the batch fields instead. */
  datatype UploadRecord = UploadRecord(
    status: string, timestamp: Option<string>, fileInfo: Option<FileInfo>,
    batchInfo: Option<BatchInfo>, files: seq<string>, progress: Option<nat>,
    error: Option<string>, endTime: Option<string>)

  function SingleRecord(ok: bool, info: FileInfo, error: string, now: string): UploadRecord {
    UploadRecord(if ok then "completed" else "failed", Some(now), Some(info), None, [], None,
                 if ok then None else Some(error), None)
  }

  datatype UploadReply = UploadReply(message: string, id: string, fileInfo: Option<FileInfo>)

  /** One row of the history listing. */
  datatype HistoryEntry = HistoryEntry(
    uploadId: string, status: string, timestamp: Option<string>,
    fileInfo: Option<FileInfo>, batchInfo: Option<BatchInfo>)

  datatype History = History(uploads: seq<HistoryEntry>, totalCount: nat)

  datatype CleanupReply = CleanupReply(message: string, removed: nat, remaining: nat)

  /** Python's ordering of strings: code point by code point, a proper
      prefix first. */
  predicate LexLe(a: string, b: string) {
    a == [] || (b != [] && (a[0] < b[0] || (a[0] == b[0] && LexLe(a[1..], b[1..]))))
  }

  lemma {:induction false} LexLeTotal(a: string, b: string)
    ensures LexLe(a, b) || LexLe(b, a)
  {
    if a != [] && b != [] && a[0] == b[0] {
      LexLeTotal(a[1..], b[1..]);
    }
  }

  lemma {:induction false} LexLeTrans(a: string, b: string, c: string)
    requires LexLe(a, b) && LexLe(b, c)
    ensures LexLe(a, c)
  {
    if a != [] && b != [] && c != [] && a[0] == b[0] && b[0] == c[0] {
      LexLeTrans(a[1..], b[1..], c[1..]);
    }
  }

  /** The sort key `x[1].get('timestamp', '')`. */
  function Key(item: (string, UploadRecord)): string {
    item.1.timestamp.GetOr("")
  }

  /** Newest first: keys never increase along the sequence. */
  predicate Descending(s: seq<(string, UploadRecord)>) {
    forall i, j :: 0 <= i < j < |s| ==> LexLe(Key(s[j]), Key(s[i]))
  }

  /** Places `x` before the first element whose key is not larger, so that
      among equal keys the element inserted first stays first. */
  function Insert(x: (string, UploadRecord), s: seq<(string, UploadRecord)>): (r: seq<(string, UploadRecord)>)
    requires Descending(s)
    ensures Descending(r)
    ensures multiset(r) == multiset(s) + multiset{x}
  {
    if s == [] then [x]
    else if LexLe(Key(s[0]), Key(x)) then
      forall j | 0 <= j < |s| ensures LexLe(Key(s[j]), Key(x)) {
        if j > 0 { LexLeTrans(Key(s[j]), Key(s[0]), Key(x)); }
      }
      [x] + s
    else
      LexLeTotal(Key(s[0]), Key(x));
      var rest := Insert(x, s[1..]);
      assert s == [s[0]] + s[1..];
      forall j | 0 <= j < |rest| ensures LexLe(Key(rest[j]), Key(s[0])) {
        assert rest[j] in multiset(rest);
        if rest[j] != x {
          var k :| 1 <= k < |s| && s[k] == rest[j];
        }
      }
      [s[0]] + rest
  }

  /** `sorted(items, key=..., reverse=True)`: a stable sort, newest first. */
  function SortDesc(s: seq<(string, UploadRecord)>): (r: seq<(string, UploadRecord)>)
    ensures Descending(r)
    ensures multiset(r) == multiset(s)
  {
    if s == [] then []
    else
      assert s == [s[0]] + s[1..];
      Insert(s[0], SortDesc(s[1..]))
  }

  /** The elements whose sort key is `k`, in order. */
  function WithKey(s: seq<(string, UploadRecord)>, k: string): seq<(string, UploadRecord)> {
    if s == [] then []
    else (if Key(s[0]) == k then [s[0]] else []) + WithKey(s[1..], k)
  }

  /** Inserting puts `x` ahead of every element with its key. */
  lemma {:induction false} InsertStable(x: (string, UploadRecord), s: seq<(string, UploadRecord)>, k: string)
    requires Descending(s)
    ensures WithKey(Insert(x, s), k) == (if Key(x) == k then [x] else []) + WithKey(s, k)
  {
    var xs := if Key(x) == k then [x] else [];
    if s == [] {
      assert Insert(x, s) == [x];
      assert [x][1..] == [];
    } else if LexLe(Key(s[0]), Key(x)) {
      assert Insert(x, s) == [x] + s;
      assert ([x] + s)[1..] == s;
    } else {
      LexLeTotal(Key(x), Key(x));
      assert Key(s[0]) != Key(x);
      var heads := if Key(s[0]) == k then [s[0]] else [];
      var rest := Insert(x, s[1..]);
      assert Insert(x, s) == [s[0]] + rest;
      assert ([s[0]] + rest)[1..] == rest;
      InsertStable(x, s[1..], k);
      assert WithKey(Insert(x, s), k) == heads + (xs + WithKey(s[1..], k));
      assert heads == [] || xs == [];
      assert WithKey(s, k) == heads + WithKey(s[1..], k);
    }
  }

  /** The sort is stable: records with equal keys keep their relative
      order. */
  lemma {:induction false} SortDescStable(s: seq<(string, UploadRecord)>, k: string)
    ensures WithKey(SortDesc(s), k) == WithKey(s, k)
  {
    if s != [] {
      SortDescStable(s[1..], k);
      InsertStable(s[0], SortDesc(s[1..]), k);
    }
  }

  /** `s[:limit]`, including Python's reading of a negative limit as
      "all but the last -limit". */
  function PySlice<T>(s: seq<T>, limit: int): (r: seq<T>)
    ensures |r| <= |s| && r == s[..|r|]
    ensures limit >= 0 ==> |r| == if limit < |s| then limit else |s|
    ensures limit < 0 ==> |r| == if |s| + limit > 0 then |s| + limit else 0
  {
    if limit >= 0 then (if limit < |s| then s[..limit] else s)
    else if |s| + limit > 0 then s[..|s| + limit]
    else []
  }

  function Entry(item: (string, UploadRecord)): HistoryEntry {
    HistoryEntry(item.0, item.1.status, item.1.timestamp, item.1.fileInfo, item.1.batchInfo)
  }

  /** The first `limit` of `items` (Python's slice), newest first. */
  function Newest(items: seq<(string, UploadRecord)>, limit: int): (r: seq<HistoryEntry>)
    ensures limit >= 0 ==> |r| == if limit < |items| then limit else |items|
    ensures forall i, j :: 0 <= i < j < |r| ==> LexLe(r[j].timestamp.GetOr(""), r[i].timestamp.GetOr(""))
    ensures forall e :: e in r ==> exists x :: x in items && e == Entry(x)
  {
    var s := SortDesc(items);
    assert |s| == |items| by {
      assert |s| == |multiset(s)| && |items| == |multiset(items)|;
    }
    var p := PySlice(s, limit);
    var r := seq(|p|, i requires 0 <= i < |p| => Entry(p[i]));
    forall e | e in r ensures exists x :: x in items && e == Entry(x) {
      var i :| 0 <= i < |r| && r[i] == e;
      assert p[i] == s[i] && s[i] in multiset(items);
    }
    forall i, j | 0 <= i < j < |r| ensures LexLe(r[j].timestamp.GetOr(""), r[i].timestamp.GetOr("")) {
      assert p[i] == s[i] && p[j] == s[j];
    }
    r
  }

  /** A record without a timestamp sorts after every record with one. */
  lemma MissingTimestampSortsLast(s: seq<(string, UploadRecord)>, i: nat, j: nat)
    requires Descending(s) && i < j < |s| && s[i].1.timestamp.None?
    ensures Key(s[j]) == ""
  {
    assert LexLe(Key(s[j]), "");
  }

  /** Whatever the history leaves out is no newer than anything it lists. */
  lemma {:induction false} HistoryKeepsNewest(items: seq<(string, UploadRecord)>, limit: int, x: (string, UploadRecord))
    requires x in items && limit >= 0
    requires x !in PySlice(SortDesc(items), limit)
    ensures forall e :: e in PySlice(SortDesc(items), limit) ==> LexLe(Key(x), Key(e))
  {
    var s := SortDesc(items);
    var p := PySlice(s, limit);
    assert x in multiset(s);
    var k :| 0 <= k < |s| && s[k] == x;
    assert forall m :: 0 <= m < |p| ==> p[m] == s[m];
    assert k >= |p|;
    forall e | e in p ensures LexLe(Key(x), Key(e)) {
      var i :| 0 <= i < |p| && p[i] == e;
    }
  }

  /** The ids of `ids` whose records the cleanup removes, in order. */
  predicate Expired(rec: UploadRecord, parse: string -> Option<int>, cutoff: int) {
    var ts := rec.timestamp.GetOr("");
    ts != [] && parse(ts).Some? && parse(ts).value < cutoff
  }

  function ExpiredIds(ids: seq<string>, recs: map<string, UploadRecord>, parse: string -> Option<int>, cutoff: int)
    : (r: seq<string>)
    requires forall k :: 0 <= k < |ids| ==> ids[k] in recs
    ensures forall x :: x in r <==> x in ids && x in recs && Expired(recs[x], parse, cutoff)
    ensures |r| <= |ids|
  {
    if ids == [] then []
    else
      var front, last := ids[..|ids| - 1], ids[|ids| - 1];
      assert forall x :: x in ids <==> x in front || x == last;
      ExpiredIds(front, recs, parse, cutoff) + (if Expired(recs[last], parse, cutoff) then [last] else [])
  }

  /** `ids` without the members of `gone`, order kept. */
  function Without(ids: seq<string>, gone: seq<string>): (r: seq<string>)
    ensures forall x :: x in r <==> x in ids && x !in gone
    ensures Distinct(ids) ==> Distinct(r)
    ensures |r| <= |ids|
  {
    if ids == [] then []
    else
      var front, last := ids[..|ids| - 1], ids[|ids| - 1];
      assert forall x :: x in ids <==> x in front || x == last;
      var r := Without(front, gone) + (if last in gone then [] else [last]);
      assert Distinct(ids) ==> Distinct(front) && last !in front;
      r
  }

  lemma WithoutNothing(ids: seq<string>)
    ensures Without(ids, []) == ids
  {
  }

  lemma {:induction false} WithoutOneMore(ids: seq<string>, gone: seq<string>, x: string)
    ensures Without(Without(ids, gone), [x]) == Without(ids, gone + [x])
  {
    if ids != [] {
      var front, last := ids[..|ids| - 1], ids[|ids| - 1];
      WithoutOneMore(front, gone, x);
      var w := Without(ids, gone);
      if last !in gone {
        assert w[..|w| - 1] == Without(front, gone);
      } else {
        assert w == Without(front, gone);
      }
    }
  }

  /** Each listed id is either removed or kept, never both. */
  lemma {:induction false} CleanupPartition(ids: seq<string>, recs: map<string, UploadRecord>,
                                            parse: string -> Option<int>, cutoff: int, gone: seq<string>)
    requires forall k :: 0 <= k < |ids| ==> ids[k] in recs
    requires forall x :: x in ids ==> (x in gone <==> Expired(recs[x], parse, cutoff))
    ensures |ExpiredIds(ids, recs, parse, cutoff)| + |Without(ids, gone)| == |ids|
  {
    if ids != [] {
      var front := ids[..|ids| - 1];
      assert forall x :: x in front ==> x in ids;
      CleanupPartition(front, recs, parse, cutoff, gone);
    }
  }

  /** The removed and the kept ids together are all the ids. */
  lemma CleanupCounts(ids: seq<string>, recs: map<string, UploadRecord>, parse: string -> Option<int>, cutoff: int)
    requires forall k :: 0 <= k < |ids| ==> ids[k] in recs
    ensures var gone := ExpiredIds(ids, recs, parse, cutoff);
      |gone| + |Without(ids, gone)| == |ids|
  {
    CleanupPartition(ids, recs, parse, cutoff, ExpiredIds(ids, recs, parse, cutoff));
  }

  /** Deleting the expired ids keeps exactly the records that have not
      expired. */
  lemma KeptIds(ids: seq<string>, before: map<string, UploadRecord>, after: map<string, UploadRecord>,
                parse: string -> Option<int>, cutoff: int)
    requires forall k :: k in before <==> k in ids
    requires forall k :: k in after <==> k in before && k !in ExpiredIds(ids, before, parse, cutoff)
    ensures forall k :: k in after <==> k in before && !Expired(before[k], parse, cutoff)
  {
  }

  /** What deleting the expired ids leaves: the records that have not
      expired, unchanged, and as many of them as were not removed. */
  lemma CleanupOutcome(ids: seq<string>, before: map<string, UploadRecord>,
                       kept: seq<string>, after: map<string, UploadRecord>,
                       parse: string -> Option<int>, cutoff: int, gone: seq<string>)
    requires forall k :: k in before <==> k in ids
    requires gone == ExpiredIds(ids, before, parse, cutoff)
    requires kept == Without(ids, gone)
    requires forall k :: k in after <==> k in before && k !in gone
    requires forall k :: k in after ==> after[k] == before[k]
    ensures forall k :: k in after <==> k in before && !Expired(before[k], parse, cutoff)
    ensures |gone| + |kept| == |ids|
  {
    CleanupCounts(ids, before, parse, cutoff);
    KeptIds(ids, before, after, parse, cutoff);
  }

  function CleanedUp(removed: nat): string {
    "Cleaned up " + NatToString(removed) + " old upload records"
  }

  /** `upload_status`: upload id to record, kept in insertion order (the
      order `dict.items()` yields, which the stable sort keeps among equal
      timestamps). */
  class UploadTable {
    var order: seq<string>
    var records: map<string, UploadRecord>

    ghost predicate Valid()
      reads this
    {
      Distinct(order) && forall id :: id in records <==> id in order
    }

    constructor()
      ensures Valid() && order == [] && records == map[]
    {
      order := [];
      records := map[];
    }

    /** `upload_status[id] = record`: a new id goes last, an existing one
        keeps its place. */
    method Put(id: string, rec: UploadRecord)
      requires Valid()
      modifies this
      ensures Valid()
      ensures records == old(records)[id := rec]
      ensures order == if id in old(records) then old(order) else old(order) + [id]
    {
      if id !in records {
        order := order + [id];
      }
      records := records[id := rec];
    }

    /** `upload_status.items()`. */
    function Items(): (r: seq<(string, UploadRecord)>)
      requires Valid()
      reads this
      ensures |r| == |order|
      ensures forall x :: x in r <==> x.0 in records && x.1 == records[x.0]
    {
      var ids, recs := order, records;
      var r := seq(|ids|, i requires 0 <= i < |ids| && ids[i] in recs => (ids[i], recs[ids[i]]));
      forall x: (string, UploadRecord) | x.0 in recs && x.1 == recs[x.0] ensures x in r {
        var i :| 0 <= i < |ids| && ids[i] == x.0;
        assert r[i] == x;
      }
      r
    }

    /** `get_upload_status`. */
    function Status(id: string): (r: Result<UploadRecord, HttpError>)
      reads this
      ensures id !in records <==> r == Err(HttpError(404, "Upload ID not found"))
      ensures id in records ==> r == Ok(records[id])
    {
      if id in records then Ok(records[id]) else Err(HttpError(404, "Upload ID not found"))
    }

    /** `get_upload_history`: at most `limit` records, newest first, and
        the size of the whole table. */
    function GetHistory(limit: int): (r: History)
      requires Valid()
      reads this
      ensures r.totalCount == |order|
      ensures limit >= 0 ==> |r.uploads| == if limit < |order| then limit else |order|
      ensures forall i, j :: 0 <= i < j < |r.uploads| ==>
        LexLe(r.uploads[j].timestamp.GetOr(""), r.uploads[i].timestamp.GetOr(""))
      ensures forall e :: e in r.uploads ==> e.uploadId in records && e == Entry((e.uploadId, records[e.uploadId]))
    {
      var items := Items();
      var uploads := Newest(items, limit);
      assert forall e :: e in uploads ==> e.uploadId in records && e == Entry((e.uploadId, records[e.uploadId])) by {
        forall e | e in uploads ensures e.uploadId in records && e == Entry((e.uploadId, records[e.uploadId])) {
          var x :| x in items && e == Entry(x);
        }
      }
      History(uploads, |order|)
    }

    /** The collecting pass of `cleanup_upload_history`: in table order,
        the ids whose timestamp is present, parses, and lies before
        `cutoff`, and how many there are. */
    method CollectExpired(parse: string -> Option<int>, cutoff: int) returns (toRemove: seq<string>, removed: nat)
      requires Valid()
      ensures toRemove == ExpiredIds(order, records, parse, cutoff)
      ensures removed == |toRemove|
    {
      toRemove, removed := [], 0;
      var i := 0;
      while i < |order|
        invariant 0 <= i <= |order|
        invariant toRemove == ExpiredIds(order[..i], records, parse, cutoff)
        invariant removed == |toRemove|
      {
        assert order[..i + 1][..i] == order[..i];
        var id := order[i];
        var ts := records[id].timestamp.GetOr("");
        if ts != [] {
          var instant := parse(ts);
          if instant.Some? && instant.value < cutoff {
            toRemove := toRemove + [id];
            removed := removed + 1;
          }
        }
        i := i + 1;
      }
      assert order[..i] == order;
    }

    /** `cleanup_upload_history`: collects, then deletes, the records whose
        timestamp parses to an instant before `now - days_old`. Records
        without a timestamp, or with one that does not parse, stay. */
    method Cleanup(parse: string -> Option<int>, now: int, daysOld: int) returns (reply: CleanupReply)
      requires Valid()
      modifies this
      ensures Valid()
      ensures forall k :: k in records <==> k in old(records) && !Expired(old(records)[k], parse, Cutoff(now, daysOld))
      ensures forall k :: k in records ==> records[k] == old(records)[k]
      ensures reply.removed == |ExpiredIds(old(order), old(records), parse, Cutoff(now, daysOld))|
      ensures reply.remaining == |order| && reply.removed + reply.remaining == |old(order)|
      ensures reply.message == CleanedUp(reply.removed)
    {
      var cutoff := Cutoff(now, daysOld);
      ghost var order0, records0 := order, records;
      var toRemove, removed := CollectExpired(parse, cutoff);
      DeleteAll(toRemove);
      CleanupOutcome(order0, records0, order, records, parse, cutoff, toRemove);
      reply := CleanupReply(CleanedUp(removed), removed, |order|);
    }

    /** The deleting pass: `del upload_status[id]` for each id, in turn. */
    method DeleteAll(ids: seq<string>)
      requires Valid()
      modifies this
      ensures Valid()
      ensures order == Without(old(order), ids)
      ensures forall k :: k in records <==> k in old(records) && k !in ids
      ensures forall k :: k in records ==> records[k] == old(records)[k]
    {
      WithoutNothing(order);
      var j := 0;
      while j < |ids|
        invariant 0 <= j <= |ids| && Valid()
        invariant order == Without(old(order), ids[..j])
        invariant forall k :: k in records <==> k in old(records) && k !in ids[..j]
        invariant forall k :: k in records ==> records[k] == old(records)[k]
      {
        var id := ids[j];
        assert ids[..j + 1] == ids[..j] + [id];
        WithoutOneMore(old(order), ids[..j], id);
        Delete(id);
        j := j + 1;
      }
      assert ids[..j] == ids;
    }

    /** `del upload_status[id]`. */
    method Delete(id: string)
      requires Valid()
      modifies this
      ensures Valid()
      ensures order == Without(old(order), [id])
      ensures records == old(records) - {id}
    {
      order := Without(order, [id]);
      records := records - {id};
    }

    /** `upload_single_csv`. `graph` is `None` before start-up; `digest` is
        the hex digest of the content, `decoded` and `parsed` what UTF-8
        decoding and pandas make of it. The dataset is loaded under the
        display name (`name or file.filename`). */
    method UploadSingleCsv(
      graph: AgentGraph.AgentGraphState?, filename: string, size: Option<int>,
      name: Option<string>, description: Option<string>, contentLength: nat,
      digest: string, now: string,
      decoded: Result<string, string>, parsed: Result<CsvAgent.Frame, string>)
      returns (r: Result<UploadReply, HttpError>)
      requires Valid() && (graph != null ==> graph.Valid())
      modifies this, graph, if graph != null then {graph.csv} else {}
      ensures Valid() && (graph != null ==> graph.Valid())
      ensures graph == null ==> r == Err(HttpError(503, AgentGraphMissing)) && records == old(records)
      ensures graph != null && CheckSingleCsv(filename, size).Err? ==>
        r == Err(CheckSingleCsv(filename, size).error) && records == old(records)
      ensures graph != null && CheckSingleCsv(filename, size).Ok? ==>
        var id := FileId(digest, filename);
        var display := if name.Some? && name.value != [] then name.value else filename;
        id in records && records == old(records)[id := records[id]] &&
        records[id].fileInfo == Some(FileInfo(id, filename, Some(display), description, contentLength, now,
                                              FileTypeInfo(filename), None)) &&
        (r.Ok? <==> decoded.Ok? && parsed.Ok?) &&
        (r.Ok? <==> records[id].status == "completed") &&
        (r.Ok? ==> r.value.message == "CSV file '" + display + "' uploaded and processed successfully" &&
                   r.value.id == id) &&
        (r.Err? ==> r.error.status == 400 && records[id].error == Some(r.error.detail))
    {
      if graph == null {
        return Err(HttpError(503, AgentGraphMissing));
      }
      var check := CheckSingleCsv(filename, size);
      if check.Err? {
        return Err(check.error);
      }
      var id := FileId(digest, filename);
      var display := if name.Some? && name.value != [] then name.value else filename;
      var info := FileInfo(id, filename, Some(display), description, contentLength, now,
                           FileTypeInfo(filename), None);
      var loaded := LoadCsv(graph, display, decoded, parsed);
      if loaded.Ok? {
        Put(id, SingleRecord(true, info, "", now));
        r := Ok(UploadReply("CSV file '" + display + "' uploaded and processed successfully", id, Some(info)));
      } else {
        Put(id, SingleRecord(false, info, loaded.error, now));
        r := Err(HttpError(400, loaded.error));
      }
    }

    /** `upload_single_document`: one file handed to the agent graph's
        document loader, whose verdict on it is `outcome`. */
    method UploadSingleDocument(
      graph: AgentGraph.AgentGraphState?, filename: string, size: Option<int>,
      options: ProcessingOptions, contentLength: nat, digest: string, now: string,
      outcome: AgentGraph.FileOutcome)
      returns (r: Result<UploadReply, HttpError>)
      requires Valid() && (graph != null ==> graph.Valid())
      modifies this, graph
      ensures Valid() && (graph != null ==> graph.Valid())
      ensures graph == null ==> r == Err(HttpError(503, AgentGraphMissing)) && records == old(records)
      ensures graph != null && CheckSingleDocument(filename, size).Err? ==>
        r == Err(CheckSingleDocument(filename, size).error) && records == old(records)
      ensures graph != null && CheckSingleDocument(filename, size).Ok? ==>
        var id := FileId(digest, filename);
        id in records && records == old(records)[id := records[id]] &&
        records[id].fileInfo == Some(FileInfo(id, filename, None, None, contentLength, now,
                                              FileTypeInfo(filename), Some(options))) &&
        (r.Ok? <==> outcome.Loaded?) &&
        (r.Ok? <==> records[id].status == "completed") &&
        (r.Ok? ==> r.value.message == "Document '" + filename + "' uploaded and processed successfully") &&
        (r.Err? ==> r == Err(HttpError(400, NoDocumentsLoaded)) && records[id].error == Some(NoDocumentsLoaded))
    {
      if graph == null {
        return Err(HttpError(503, AgentGraphMissing));
      }
      var check := CheckSingleDocument(filename, size);
      if check.Err? {
        return Err(check.error);
      }
      var id := FileId(digest, filename);
      var info := FileInfo(id, filename, None, None, contentLength, now, FileTypeInfo(filename), Some(options));
      var loaded := LoadDocument(graph, filename, outcome);
      if loaded {
        Put(id, SingleRecord(true, info, "", now));
        r := Ok(UploadReply("Document '" + filename + "' uploaded and processed successfully", id, Some(info)));
      } else {
        Put(id, SingleRecord(false, info, NoDocumentsLoaded, now));
        r := Err(HttpError(400, NoDocumentsLoaded));
      }
    }

    /** `upload_documents_batch`: the count limit, then the validation
        pass, and only then a "processing" record under
        `batch_<stamp>`, completed or failed once the agent graph has loaded
        the files. A batch that fails validation leaves no record. */
    method UploadDocumentsBatch(
      graph: AgentGraph.AgentGraphState?, files: seq<BatchFile>, stamp: string,
      startTime: string, endTime: string)
      returns (r: Result<UploadReply, HttpError>)
      requires Valid() && (graph != null ==> graph.Valid())
      modifies this, graph
      ensures Valid() && (graph != null ==> graph.Valid())
      ensures graph == null ==> r == Err(HttpError(503, AgentGraphMissing)) && records == old(records)
      ensures graph != null && |files| > MaxBatchFiles ==>
        r == Err(HttpError(400, TooManyFiles)) && records == old(records)
      ensures graph != null && |files| <= MaxBatchFiles && BatchScan(files).Err? ==>
        r == Err(BatchScan(files).error) && records == old(records)
      ensures graph != null && |files| <= MaxBatchFiles && BatchScan(files).Ok? ==>
        var id := "batch_" + stamp;
        id in records && records == old(records)[id := records[id]] &&
        records[id].batchInfo == Some(BatchInfo(id, |files|, TotalSize(files), startTime)) &&
        records[id].files == Names(files) && records[id].progress == Some(100) &&
        records[id].timestamp.None? &&
        (r.Ok? <==> records[id].status == "completed")
      ensures graph != null && |files| <= MaxBatchFiles && BatchScan(files).Ok? ==>
        (r.Ok? <==> AgentGraph.LoadedCount(Uploaded(files)) > 0) &&
        (r.Ok? ==> r.value.message == BatchCompleted(AgentGraph.LoadedCount(Uploaded(files)))) &&
        (r.Err? ==> r == Err(HttpError(400, NoDocumentsLoaded)))
    {
      if graph == null {
        return Err(HttpError(503, AgentGraphMissing));
      }
      if |files| > MaxBatchFiles {
        return Err(HttpError(400, TooManyFiles));
      }
      var id := "batch_" + stamp;
      var scanned := ValidateBatch(files);
      if scanned.Err? {
        return Err(scanned.error);
      }
      var batch := BatchInfo(id, |files|, scanned.value, startTime);
      r := ProcessBatch(graph, files, batch, endTime);
    }

    /** The processing half of `upload_documents_batch`, once the batch
        has passed validation: the "processing" record, the load, and the
        record's completion. */
    method ProcessBatch(graph: AgentGraph.AgentGraphState, files: seq<BatchFile>, batch: BatchInfo, endTime: string)
      returns (r: Result<UploadReply, HttpError>)
      requires Valid() && graph.Valid()
      modifies this, graph
      ensures Valid() && graph.Valid()
      ensures var id := batch.batchId;
        id in records && records == old(records)[id := records[id]] &&
        records[id].batchInfo == Some(batch) && records[id].files == Names(files) &&
        records[id].progress == Some(100) && records[id].timestamp.None? &&
        (r.Ok? <==> records[id].status == "completed")
      ensures r.Ok? <==> AgentGraph.LoadedCount(Uploaded(files)) > 0
      ensures r.Ok? ==> r.value == UploadReply(BatchCompleted(AgentGraph.LoadedCount(Uploaded(files))), batch.batchId, None)
      ensures r.Err? ==> r == Err(HttpError(400, NoDocumentsLoaded))
    {
      var id := batch.batchId;
      var names := Names(files);
      Put(id, UploadRecord("processing", None, None, Some(batch), names, Some(0), None, None));
      ghost var processing := records;
      var loaded := LoadBatch(graph, files);
      var status := if loaded.Some? then "completed" else "failed";
      Put(id, UploadRecord(status, None, None, Some(batch), names, Some(100), None, Some(endTime)));
      assert records == old(records)[id := records[id]] by {
        assert processing == old(records)[id := processing[id]];
      }
      if loaded.Some? {
        r := Ok(UploadReply(BatchCompleted(loaded.value), id, None));
      } else {
        r := Err(HttpError(400, NoDocumentsLoaded));
      }
    }
  }

  /** The agent graph's `load_csv_from_upload`: the dataset loads when
      the content decodes and parses, otherwise the first error. */
  method LoadCsv(graph: AgentGraph.AgentGraphState, name: string,
                 decoded: Result<string, string>, parsed: Result<CsvAgent.Frame, string>)
    returns (r: Result<string, string>)
    requires graph.Valid()
    modifies graph, graph.csv
    ensures graph.Valid()
    ensures r.Ok? <==> decoded.Ok? && parsed.Ok?
  {
    r := graph.LoadCsvFromUpload(name, decoded, parsed);
  }

  /** The agent graph's `load_documents_from_upload` on one file: whether
      it loaded. */
  method LoadDocument(graph: AgentGraph.AgentGraphState, filename: string, outcome: AgentGraph.FileOutcome)
    returns (loaded: bool)
    requires graph.Valid()
    modifies graph
    ensures graph.Valid()
    ensures loaded <==> outcome.Loaded?
  {
    var file := AgentGraph.UploadedFile(Some(filename), outcome);
    assert [file][..0] == [];
    var r := graph.LoadDocumentsFromUpload([file]);
    loaded := r.Ok?;
  }

  /** The agent graph's `load_documents_from_upload` on a batch: how many
      of its files loaded, when any did. */
  method LoadBatch(graph: AgentGraph.AgentGraphState, files: seq<BatchFile>) returns (loaded: Option<nat>)
    requires graph.Valid()
    modifies graph
    ensures graph.Valid()
    ensures loaded.Some? <==> AgentGraph.LoadedCount(Uploaded(files)) > 0
    ensures loaded.Some? ==> loaded.value == AgentGraph.LoadedCount(Uploaded(files))
  {
    var r := graph.LoadDocumentsFromUpload(Uploaded(files));
    loaded := if r.Ok? then Some(r.value.0) else None;
  }

  /** The error the agent graph reports when no document of an upload
      loaded. */
  const NoDocumentsLoaded := "No documents were successfully loaded"

  function BatchCompleted(loaded: nat): string {
    "Batch upload completed: " + NatToString(loaded) + " documents processed"
  }

  function Names(files: seq<BatchFile>): (r: seq<string>)
    ensures |r| == |files| && forall k :: 0 <= k < |files| ==> r[k] == files[k].filename
  {
    seq(|files|, k requires 0 <= k < |files| => files[k].filename)
  }

  /** The file dictionaries the batch hands to the agent graph. */
  function Uploaded(files: seq<BatchFile>): (r: seq<AgentGraph.UploadedFile>)
    ensures |r| == |files|
    ensures forall k :: 0 <= k < |files| ==> r[k] == AgentGraph.UploadedFile(Some(files[k].filename), files[k].outcome)
  {
    seq(|files|, k requires 0 <= k < |files| => AgentGraph.UploadedFile(Some(files[k].filename), files[k].outcome))
  }
}
