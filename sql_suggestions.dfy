/** backend/agent/agent_new/sql_tool.py: `generate_sql_suggestions`. The
    language model and `json.loads` are foreign code: the model's reply to
    the prompt is the function `llm`, and the decoder is the function
    `decode` (`None` where `json.loads` raises `JSONDecodeError`). The
    suggestion ids (`uuid4`) are not modelled. */
module SqlSuggestions {
  import opened Common
  import opened Strings
  import opened SqlSession
  import SqlSchema

  /** The `content` of the model's response: text, a list of content
      blocks, some other object (shown through its `str`), or missing. */
  datatype Content = Text(text: string) | Blocks(blocks: seq<Json>) | Other(shown: string) | Missing

  datatype Suggestion = Suggestion(title: string, summary: string, query: string, rationale: string, warnings: seq<string>)

  datatype SuggestionReport = SuggestionReport(analysis: Option<string>, suggestions: seq<Suggestion>, raw: string)

  /** The text of one content block: a dict's "text" entry (its `str` when
      absent), anything else through `str`. `Err` when the entry is not a
      string, which makes the newline join raise. */
  function BlockText(block: Json, index: nat): Result<string, SqlError> {
    if block.JObj? then
      match Get(block.fields, "text")
      case None => Ok(PyStr(block))
      case Some(JStr(s)) => Ok(s)
      case Some(v) => Err(TypeError("sequence item " + NatToString(index) + ": expected str instance, " + TypeName(v) + " found"))
    else Ok(PyStr(block))
  }

  function BlockTexts(blocks: seq<Json>, index: nat): (r: Result<seq<string>, SqlError>)
    ensures r.Err? ==> r.error.TypeError?
    decreases |blocks|
  {
    if blocks == [] then Ok([])
    else match BlockText(blocks[0], index)
      case Err(e) => Err(e)
      case Ok(t) =>
        match BlockTexts(blocks[1..], index + 1)
        case Err(e) => Err(e)
        case Ok(ts) => Ok([t] + ts)
  }

  /** Every block contributes exactly one piece of text, in order. */
  lemma {:induction false} BlockTextsOnePerBlock(blocks: seq<Json>, index: nat)
    ensures BlockTexts(blocks, index).Ok? ==> |BlockTexts(blocks, index).value| == |blocks|
    ensures BlockTexts(blocks, index).Ok? ==> forall k :: 0 <= k < |blocks| ==>
      BlockText(blocks[k], index + k) == Ok(BlockTexts(blocks, index).value[k])
    decreases |blocks|
  {
    if blocks != [] {
      BlockTextsOnePerBlock(blocks[1..], index + 1);
      if BlockTexts(blocks, index).Ok? {
        var ts := BlockTexts(blocks, index).value;
        forall k | 0 <= k < |blocks|
          ensures BlockText(blocks[k], index + k) == Ok(ts[k])
        {
          if k > 0 {
            assert blocks[k] == blocks[1..][k - 1];
          }
        }
      }
    }
  }

  /** `raw_content`: the text the reply is read from. */
  function RawContent(response: Option<Content>): (r: Result<string, SqlError>)
    ensures r.Err? ==> response.Some? && response.value.Blocks? && r.error.TypeError?
  {
    match response
    case None => Ok("")
    case Some(Missing) => Ok("")
    case Some(Text(t)) => Ok(t)
    case Some(Other(shown)) => Ok(shown)
    case Some(Blocks(bs)) =>
      match BlockTexts(bs, 0)
      case Err(e) => Err(e)
      case Ok(ts) => Ok(Join("\n", ts))
  }

  /** The user message sent to the model. */
  function Prompt(query: string, schemaSummary: Option<string>, maxSuggestions: int): string {
    var overview := if schemaSummary.Some? && schemaSummary.value != [] then ["Schema overview:\n" + schemaSummary.value] else [];
    Join("\n\n", ["Original query:\n" + query] + overview + ["Return at most " + IntToString(maxSuggestions) + " suggestions."])
  }

  /** `str(value).strip()`. */
  function StrippedText(j: Json): string {
    Strip(PyStr(j))
  }

  /** The warnings kept from an iterated `warnings` value: the non-blank
      strings, stripped, in order. */
  function KeptWarnings(ws: seq<Json>): (r: seq<string>)
    ensures |r| <= |ws|
  {
    if ws == [] then []
    else
      var rest := KeptWarnings(ws[1..]);
      if ws[0].JStr? && !IsBlank(ws[0].s) then [Strip(ws[0].s)] + rest else rest
  }

  /** Every kept warning is non-blank text. */
  lemma {:induction false} KeptWarningsNonBlank(ws: seq<Json>)
    ensures forall k :: 0 <= k < |KeptWarnings(ws)| ==> KeptWarnings(ws)[k] != []
  {
    if ws != [] {
      KeptWarningsNonBlank(ws[1..]);
    }
  }

  /** Every non-blank string warning is kept, stripped. */
  lemma {:induction false} KeptWarningsComplete(ws: seq<Json>, k: nat)
    requires k < |ws| && ws[k].JStr? && !IsBlank(ws[k].s)
    ensures Strip(ws[k].s) in KeptWarnings(ws)
  {
    if k > 0 {
      assert ws[1..][k - 1] == ws[k];
      KeptWarningsComplete(ws[1..], k - 1);
    } else {
      assert KeptWarnings(ws) == [Strip(ws[0].s)] + KeptWarnings(ws[1..]);
    }
  }

  /** One element of the reply's `suggestions` list: `Ok(None)` when it is
      skipped (not a dict, or no query), `Err` when its `warnings` cannot be
      iterated. */
  function SuggestionOf(item: Json): Result<Option<Suggestion>, SqlError> {
    if !item.JObj? then Ok(None)
    else
      var f := item.fields;
      var query := StrippedText(Or(GetOr(f, "query", JNull), JStr("")));
      if query == [] then Ok(None)
      else
        var warnings := Or(GetOr(f, "warnings", JNull), JArr([]));
        match Iterate(warnings)
        case None => Err(TypeError("'" + TypeName(warnings) + "' object is not iterable"))
        case Some(ws) => Ok(Some(Built(f, query, ws)))
  }

  /** The suggestion a dict item with a non-blank query builds. */
  function Built(f: seq<(string, Json)>, query: string, ws: seq<Json>): Suggestion {
    var title := StrippedText(Or(GetOr(f, "title", JNull), JStr("Improved query")));
    var summary := StrippedText(Or(Or(GetOr(f, "summary", JNull), GetOr(f, "description", JNull)), JStr("")));
    var rationale := StrippedText(Or(Or(GetOr(f, "rationale", JNull), GetOr(f, "reasoning", JNull)), JStr("")));
    Suggestion(if title == [] then "Improved query" else title, summary, query, rationale, KeptWarnings(ws))
  }

  /** The suggestions built so far, extended by one more item. */
  function Step(acc: Result<seq<Suggestion>, SqlError>, item: Json): Result<seq<Suggestion>, SqlError> {
    match acc
    case Err(e) => Err(e)
    case Ok(prev) =>
      match SuggestionOf(item)
      case Err(e) => Err(e)
      case Ok(None) => Ok(prev)
      case Ok(Some(s)) => Ok(prev + [s])
  }

  /** The suggestions built from `items`, in order; the first failure wins. */
  function Collected(items: seq<Json>): (r: Result<seq<Suggestion>, SqlError>)
    ensures r.Err? ==> r.error.TypeError?
  {
    if items == [] then Ok([]) else Step(Collected(items[..|items| - 1]), items[|items| - 1])
  }

  /** A failure stops the loop: no later item changes it. */
  lemma {:induction false} CollectedFailureSticks(items: seq<Json>, n: nat)
    requires n <= |items| && Collected(items[..n]).Err?
    ensures Collected(items) == Collected(items[..n])
    decreases |items| - n
  {
    if n < |items| {
      CollectedStep(items, n);
      CollectedFailureSticks(items, n + 1);
    } else {
      assert items[..n] == items;
    }
  }

  /** A suggestion that is built has a non-blank stripped query and title
      and only non-blank warnings. */
  predicate WellFormed(s: Suggestion) {
    s.query != [] && !IsSpace(s.query[0]) && !IsSpace(s.query[|s.query| - 1]) &&
    s.title != [] &&
    forall k :: 0 <= k < |s.warnings| ==> s.warnings[k] != []
  }

  lemma SuggestionOfWellFormed(item: Json)
    ensures SuggestionOf(item).Ok? && SuggestionOf(item).value.Some? ==> WellFormed(SuggestionOf(item).value.value)
  {
    if item.JObj? {
      var f := item.fields;
      var query := StrippedText(Or(GetOr(f, "query", JNull), JStr("")));
      StripEnds(PyStr(Or(GetOr(f, "query", JNull), JStr(""))));
      var warnings := Or(GetOr(f, "warnings", JNull), JArr([]));
      if query != [] && Iterate(warnings).Some? {
        var ws := Iterate(warnings).value;
        KeptWarningsNonBlank(ws);
        assert SuggestionOf(item) == Ok(Some(Built(f, query, ws)));
        BuiltWellFormed(f, query, ws);
      }
    }
  }

  lemma BuiltWellFormed(f: seq<(string, Json)>, query: string, ws: seq<Json>)
    requires query != [] && !IsSpace(query[0]) && !IsSpace(query[|query| - 1])
    requires forall k :: 0 <= k < |KeptWarnings(ws)| ==> KeptWarnings(ws)[k] != []
    ensures WellFormed(Built(f, query, ws))
  {
  }

  /** At most one suggestion per item, each well formed. */
  lemma {:induction false} CollectedBound(items: seq<Json>)
    ensures Collected(items).Ok? ==> |Collected(items).value| <= |items|
    ensures Collected(items).Ok? ==> forall k :: 0 <= k < |Collected(items).value| ==> WellFormed(Collected(items).value[k])
  {
    if items != [] {
      var front, last := items[..|items| - 1], items[|items| - 1];
      CollectedBound(front);
      SuggestionOfWellFormed(last);
      assert Collected(items) == Step(Collected(front), last);
    }
  }

  /** A field of a suggestion dict that is a string or missing (`None`
      counting as missing); its text, "" when missing. */
  predicate TextOrMissing(f: seq<(string, Json)>, key: string) {
    GetOr(f, key, JNull).JStr? || GetOr(f, key, JNull).JNull?
  }

  function TextField(f: seq<(string, Json)>, key: string): string {
    var v := GetOr(f, key, JNull);
    if v.JStr? then v.s else ""
  }

  /** `str(text or default).strip()` for a string or missing value. */
  lemma StrippedTextOfField(f: seq<(string, Json)>, key: string, default: string)
    requires TextOrMissing(f, key)
    ensures StrippedText(Or(GetOr(f, key, JNull), JStr(default))) ==
      Strip(if TextField(f, key) != "" then TextField(f, key) else default)
  {
  }

  /** `str(a or b or "").strip()` for two string or missing values. */
  lemma FallbackText(f: seq<(string, Json)>, first: string, second: string)
    requires TextOrMissing(f, first) && TextOrMissing(f, second)
    ensures StrippedText(Or(Or(GetOr(f, first, JNull), GetOr(f, second, JNull)), JStr(""))) ==
      Strip(if TextField(f, first) != "" then TextField(f, first) else TextField(f, second))
  {
    var a, b := GetOr(f, first, JNull), GetOr(f, second, JNull);
    assert PyStr(Or(Or(a, b), JStr(""))) == if TextField(f, first) != "" then TextField(f, first) else TextField(f, second);
  }

  /** A dict item with a non-blank query, whose other fields are strings
      or missing and whose warnings are a list or missing, yields one
      suggestion: the stripped query; the stripped title, or "Improved
      query" when it is blank; the summary falling back to the
      description, and the rationale to the reasoning; the kept
      warnings. */
  lemma {:induction false} SuggestionOfPresent(f: seq<(string, Json)>)
    requires TextOrMissing(f, "query") && TextOrMissing(f, "title")
    requires TextOrMissing(f, "summary") && TextOrMissing(f, "description")
    requires TextOrMissing(f, "rationale") && TextOrMissing(f, "reasoning")
    requires GetOr(f, "warnings", JNull).JArr? || GetOr(f, "warnings", JNull).JNull?
    requires !IsBlank(TextField(f, "query"))
    ensures SuggestionOf(JObj(f)).Ok? && SuggestionOf(JObj(f)).value.Some?
    ensures var s := SuggestionOf(JObj(f)).value.value;
      s.query == Strip(TextField(f, "query")) &&
      s.title == (if IsBlank(TextField(f, "title")) then "Improved query" else Strip(TextField(f, "title")))
    ensures var s := SuggestionOf(JObj(f)).value.value;
      s.summary == Strip(if TextField(f, "summary") != "" then TextField(f, "summary") else TextField(f, "description")) &&
      s.rationale == Strip(if TextField(f, "rationale") != "" then TextField(f, "rationale") else TextField(f, "reasoning"))
    ensures var warnings := GetOr(f, "warnings", JNull);
      SuggestionOf(JObj(f)).value.value.warnings == KeptWarnings(if warnings.JArr? then warnings.items else [])
  {
    StrippedTextOfField(f, "query", "");
    var warnings := GetOr(f, "warnings", JNull);
    var ws := if warnings.JArr? then warnings.items else [];
    WarningsListed(f);
    SuggestionOfBuilt(f, ws);
    BuiltFields(f, Strip(TextField(f, "query")), ws);
  }

  lemma {:induction false} WarningsListed(f: seq<(string, Json)>)
    requires GetOr(f, "warnings", JNull).JArr? || GetOr(f, "warnings", JNull).JNull?
    ensures var warnings := GetOr(f, "warnings", JNull);
      Iterate(Or(warnings, JArr([]))) == Some(if warnings.JArr? then warnings.items else [])
  {
  }

  lemma {:induction false} SuggestionOfBuilt(f: seq<(string, Json)>, ws: seq<Json>)
    requires StrippedText(Or(GetOr(f, "query", JNull), JStr(""))) != []
    requires Iterate(Or(GetOr(f, "warnings", JNull), JArr([]))) == Some(ws)
    ensures SuggestionOf(JObj(f)) == Ok(Some(Built(f, StrippedText(Or(GetOr(f, "query", JNull), JStr(""))), ws)))
  {
  }

  lemma {:induction false} BuiltFields(f: seq<(string, Json)>, query: string, ws: seq<Json>)
    requires TextOrMissing(f, "title")
    requires TextOrMissing(f, "summary") && TextOrMissing(f, "description")
    requires TextOrMissing(f, "rationale") && TextOrMissing(f, "reasoning")
    ensures var s := Built(f, query, ws);
      s.query == query && s.warnings == KeptWarnings(ws) &&
      s.title == (if IsBlank(TextField(f, "title")) then "Improved query" else Strip(TextField(f, "title"))) &&
      s.summary == Strip(if TextField(f, "summary") != "" then TextField(f, "summary") else TextField(f, "description")) &&
      s.rationale == Strip(if TextField(f, "rationale") != "" then TextField(f, "rationale") else TextField(f, "reasoning"))
  {
    StrippedTextOfField(f, "title", "Improved query");
    ImprovedQueryStripped();
    FallbackText(f, "summary", "description");
    FallbackText(f, "rationale", "reasoning");
  }

  lemma ImprovedQueryStripped()
    ensures Strip("Improved query") == "Improved query"
  {
    StripOfTrimmed("Improved query");
  }

  /** The loop keeps what it built: a prefix of the items builds a prefix
      of the suggestions. */
  lemma {:induction false} CollectedPrefix(items: seq<Json>, n: nat)
    requires n <= |items| && Collected(items).Ok?
    ensures Collected(items[..n]).Ok? && Collected(items[..n]).value <= Collected(items).value
    decreases |items| - n
  {
    if n < |items| {
      var front := items[..|items| - 1];
      assert front[..n] == items[..n];
      CollectedPrefix(front, n);
    } else {
      assert items[..n] == items;
    }
  }

  /** Every item that yields a suggestion has it in the result, at the
      place after the suggestions of the items before it. */
  lemma {:induction false} CollectedKeepsItem(items: seq<Json>, k: nat)
    requires k < |items| && Collected(items).Ok?
    requires SuggestionOf(items[k]).Ok? && SuggestionOf(items[k]).value.Some?
    ensures Collected(items[..k]).Ok?
    ensures var before := Collected(items[..k]).value;
      |before| < |Collected(items).value| &&
      Collected(items).value[|before|] == SuggestionOf(items[k]).value.value
  {
    CollectedPrefix(items, k + 1);
    CollectedStep(items, k);
    StepOk(Collected(items[..k]), items[k]);
    var before := Collected(items[..k]).value;
    var c := Collected(items[..k + 1]).value;
    assert c[|before|] == SuggestionOf(items[k]).value.value;
  }

  /** The loop's result on one more item is one more step. */
  lemma CollectedStep(items: seq<Json>, k: nat)
    requires k < |items|
    ensures Collected(items[..k + 1]) == Step(Collected(items[..k]), items[k])
  {
    var upto := items[..k + 1];
    assert upto[..|upto| - 1] == items[..k] && upto[|upto| - 1] == items[k];
  }

  /** One step that yields a suggestion appends it. */
  lemma StepOk(acc: Result<seq<Suggestion>, SqlError>, item: Json)
    requires Step(acc, item).Ok? && SuggestionOf(item).Ok? && SuggestionOf(item).value.Some?
    ensures acc.Ok? && Step(acc, item).value == acc.value + [SuggestionOf(item).value.value]
  {
  }

  /** The suggestion loop of `generate_sql_suggestions`, over the first
      `maxSuggestions` items of the reply's list. */
  method CollectSuggestions(items: seq<Json>) returns (r: Result<seq<Suggestion>, SqlError>)
    ensures r == Collected(items)
  {
    var payload: seq<Suggestion> := [];
    var i := 0;
    while i < |items|
      invariant 0 <= i <= |items|
      invariant Collected(items[..i]) == Ok(payload)
    {
      assert items[..i + 1][..i] == items[..i];
      assert Collected(items[..i + 1]) == Step(Ok(payload), items[i]);
      var item := SuggestionOf(items[i]);
      if item.Err? {
        CollectedFailureSticks(items, i + 1);
        return Err(item.error);
      }
      if item.value.Some? {
        payload := payload + [item.value.value];
      }
      i := i + 1;
    }
    assert items[..|items|] == items;
    return Ok(payload);
  }

  /** What the reply yields once read: the parsed analysis and suggestions,
      or the stripped raw text as analysis when it is not JSON. */
  function ReportFrom(raw: string, decode: string -> Option<Json>, maxSuggestions: nat): Result<SuggestionReport, SqlError> {
    match decode(raw)
    case None => Ok(SuggestionReport(if IsBlank(raw) then None else Some(Strip(raw)), [], raw))
    case Some(parsed) =>
      if !parsed.JObj? then Ok(SuggestionReport(None, [], raw))
      else
        var analysis := GetOr(parsed.fields, "analysis", JNull);
        var analysisText := if analysis.JStr? && !IsBlank(analysis.s) then Some(Strip(analysis.s)) else None;
        var listed := GetOr(parsed.fields, "suggestions", JNull);
        if !listed.JArr? then Ok(SuggestionReport(analysisText, [], raw))
        else
          match Collected(Take(listed.items, maxSuggestions))
          case Err(e) => Err(e)
          case Ok(ss) => Ok(SuggestionReport(analysisText, ss, raw))
  }

  /** `seq[:n]` for `n >= 0`. */
  function Take<T>(s: seq<T>, n: nat): (r: seq<T>)
    ensures |r| <= n && |r| <= |s| && r == s[..|r|]
  {
    if |s| <= n then s else s[..n]
  }

  /** `generate_sql_suggestions`. `apiKeySet` says whether OPENAI_API_KEY
      is set; the schema overview is computed with the source's limits of 8
      tables and 6 columns. */
  function Generate(query: Option<string>, schemaSnapshot: Option<Json>, maxSuggestions: int, apiKeySet: bool,
                    llm: string -> Option<Content>, decode: string -> Option<Json>): Result<SuggestionReport, SqlError>
  {
    var cleaned := Strip(query.GetOr(""));
    if cleaned == [] then Err(QueryRequired)
    else if maxSuggestions <= 0 then Err(MaxSuggestionsNotPositive)
    else if !apiKeySet then Err(MissingApiKey)
    else
      var summary := if schemaSnapshot.Some? && Truthy(schemaSnapshot.value) then SqlSchema.Summary(schemaSnapshot.value, 8, 6) else None;
      match RawContent(llm(Prompt(cleaned, summary, maxSuggestions)))
      case Err(e) => Err(e)
      case Ok(raw) => ReportFrom(raw, decode, maxSuggestions)
  }

  /** The operation itself: reads the reply, then runs the suggestion loop. */
  method GenerateSqlSuggestions(query: Option<string>, schemaSnapshot: Option<Json>, maxSuggestions: int, apiKeySet: bool,
                                llm: string -> Option<Content>, decode: string -> Option<Json>)
    returns (r: Result<SuggestionReport, SqlError>)
    ensures r == Generate(query, schemaSnapshot, maxSuggestions, apiKeySet, llm, decode)
  {
    var cleaned := Strip(query.GetOr(""));
    if cleaned == [] { return Err(QueryRequired); }
    if maxSuggestions <= 0 { return Err(MaxSuggestionsNotPositive); }
    if !apiKeySet { return Err(MissingApiKey); }
    var summary: Option<string> := None;
    if schemaSnapshot.Some? && Truthy(schemaSnapshot.value) {
      summary := SqlSchema.SummariseSchema(schemaSnapshot.value, 8, 6);
    }
    var raw := RawContent(llm(Prompt(cleaned, summary, maxSuggestions)));
    if raw.Err? { return Err(raw.error); }
    var parsed := decode(raw.value);
    if parsed.None? {
      return Ok(SuggestionReport(if IsBlank(raw.value) then None else Some(Strip(raw.value)), [], raw.value));
    }
    var doc := parsed.value;
    if !doc.JObj? { return Ok(SuggestionReport(None, [], raw.value)); }
    var analysis := GetOr(doc.fields, "analysis", JNull);
    var analysisText := if analysis.JStr? && !IsBlank(analysis.s) then Some(Strip(analysis.s)) else None;
    var listed := GetOr(doc.fields, "suggestions", JNull);
    if !listed.JArr? { return Ok(SuggestionReport(analysisText, [], raw.value)); }
    var collected := CollectSuggestions(Take(listed.items, maxSuggestions));
    if collected.Err? { return Err(collected.error); }
    r := Ok(SuggestionReport(analysisText, collected.value, raw.value));
  }

  /** A report read from a reply never holds more suggestions than asked
      for, each well formed; a reply that is not JSON becomes the analysis
      (unless blank) and yields no suggestions. */
  lemma ReportFromContract(raw: string, decode: string -> Option<Json>, maxSuggestions: nat)
    ensures var r := ReportFrom(raw, decode, maxSuggestions);
      (r.Err? ==> r.error.TypeError?) &&
      (r.Ok? ==> r.value.raw == raw && |r.value.suggestions| <= maxSuggestions &&
                 forall k :: 0 <= k < |r.value.suggestions| ==> WellFormed(r.value.suggestions[k])) &&
      (decode(raw).None? ==>
         r.Ok? && r.value.suggestions == [] && (r.value.analysis.None? <==> IsBlank(raw)))
  {
    var parsed := decode(raw);
    if parsed.Some? && parsed.value.JObj? {
      var listed := GetOr(parsed.value.fields, "suggestions", JNull);
      if listed.JArr? {
        CollectedBound(Take(listed.items, maxSuggestions));
      }
    }
  }

  /** The argument checks come first, in the source's order; after them
      the outcome is what the reply yields. */
  lemma GenerateContract(query: Option<string>, schemaSnapshot: Option<Json>, maxSuggestions: int, apiKeySet: bool,
                         llm: string -> Option<Content>, decode: string -> Option<Json>)
    ensures var r := Generate(query, schemaSnapshot, maxSuggestions, apiKeySet, llm, decode);
      (IsBlank(query.GetOr("")) <==> r == Err(QueryRequired)) &&
      (!IsBlank(query.GetOr("")) && maxSuggestions <= 0 ==> r == Err(MaxSuggestionsNotPositive)) &&
      (!IsBlank(query.GetOr("")) && maxSuggestions > 0 && !apiKeySet ==> r == Err(MissingApiKey)) &&
      (r.Ok? ==> |r.value.suggestions| <= maxSuggestions &&
                 forall k :: 0 <= k < |r.value.suggestions| ==> WellFormed(r.value.suggestions[k]))
  {
    var r := Generate(query, schemaSnapshot, maxSuggestions, apiKeySet, llm, decode);
    var cleaned := Strip(query.GetOr(""));
    assert IsBlank(query.GetOr("")) == (cleaned == []);
    if cleaned == [] {
      assert r == Err(QueryRequired);
    } else if maxSuggestions <= 0 {
      assert r == Err(MaxSuggestionsNotPositive);
    } else if !apiKeySet {
      assert r == Err(MissingApiKey);
    } else {
      GenerateFromReply(query, schemaSnapshot, maxSuggestions, apiKeySet, llm, decode);
      assert r.Err? ==> r.error.TypeError?;
    }
  }

  /** Once the arguments pass, every failure comes from reading the reply,
      and a report is bounded and well formed. */
  lemma GenerateFromReply(query: Option<string>, schemaSnapshot: Option<Json>, maxSuggestions: int, apiKeySet: bool,
                          llm: string -> Option<Content>, decode: string -> Option<Json>)
    requires !IsBlank(query.GetOr("")) && maxSuggestions > 0 && apiKeySet
    ensures var r := Generate(query, schemaSnapshot, maxSuggestions, apiKeySet, llm, decode);
      (r.Err? ==> r.error.TypeError?) &&
      (r.Ok? ==> |r.value.suggestions| <= maxSuggestions &&
                 forall k :: 0 <= k < |r.value.suggestions| ==> WellFormed(r.value.suggestions[k]))
  {
    var cleaned := Strip(query.GetOr(""));
    var summary := if schemaSnapshot.Some? && Truthy(schemaSnapshot.value) then SqlSchema.Summary(schemaSnapshot.value, 8, 6) else None;
    var raw := RawContent(llm(Prompt(cleaned, summary, maxSuggestions)));
    if raw.Ok? {
      ReportFromContract(raw.value, decode, maxSuggestions);
    }
  }
}
