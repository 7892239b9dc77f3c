/** backend/agent/agent_new/tavily_search_tool.py: the cached search client
    and the rendering of whatever the search returned into one text. The
    search service is foreign: its reply (or the exception it raised) is a
    parameter, as is whether the API key is set. */
module TavilySearch {
  import opened Common
  import opened Strings

  /** One result item: an object whose `summary` attribute holds the given
      value (`None` when it has no such attribute), or a plain value. */
  datatype Item = Record(summary: Option<Json>) | Value(j: Json)

  /** What the search returned: `None`, a dict, or a list of items. */
  datatype Raw = RawNone | RawDict(fields: seq<(string, Json)>) | RawList(items: seq<Item>)

  const MaxContentLength := 500

  /** Content longer than the limit is cut to it and marked with "...". */
  function CutContent(content: string): (r: string)
    ensures |content| <= MaxContentLength ==> r == content
    ensures |content| > MaxContentLength ==> |r| == MaxContentLength + 3 && r[..MaxContentLength] == content[..MaxContentLength]
  {
    if |content| > MaxContentLength then content[..MaxContentLength] + "..." else content
  }

  /** `value.strip()` on a dict entry: only strings can be stripped. */
  function StripEntry(j: Json): (r: Result<string, string>)
    ensures j.JStr? ==> r == Ok(Strip(j.s))
    ensures !j.JStr? ==> r == Err("'" + TypeName(j) + "' object has no attribute 'strip'")
  {
    if j.JStr? then Ok(Strip(j.s)) else Err("'" + TypeName(j) + "' object has no attribute 'strip'")
  }

  /** `item.get("content") or item.get("summary") or item.get("snippet")
      or ""`: the first truthy one of the three entries. */
  function ContentEntry(fields: seq<(string, Json)>): (c: Json)
    ensures Truthy(GetOr(fields, "content", JNull)) ==> c == GetOr(fields, "content", JNull)
    ensures (!Truthy(GetOr(fields, "content", JNull)) && Truthy(GetOr(fields, "summary", JNull))) ==>
      c == GetOr(fields, "summary", JNull)
    ensures (!Truthy(GetOr(fields, "content", JNull)) && !Truthy(GetOr(fields, "summary", JNull)) &&
             Truthy(GetOr(fields, "snippet", JNull))) ==> c == GetOr(fields, "snippet", JNull)
    ensures (!Truthy(GetOr(fields, "content", JNull)) && !Truthy(GetOr(fields, "summary", JNull)) &&
             !Truthy(GetOr(fields, "snippet", JNull))) ==> c == JStr("")
  {
    Or(Or(Or(GetOr(fields, "content", JNull), GetOr(fields, "summary", JNull)),
          GetOr(fields, "snippet", JNull)), JStr(""))
  }

  /** The chunk of a dict whose entries stripped to `title`, `text` and
      `url`: its lines joined by newlines, or nothing when it has none. */
  function ChunkText(title: string, text: string, url: string): (r: Option<string>)
    ensures r.None? <==> title == [] && text == [] && url == []
    ensures r.Some? ==> r.value != [] && r.value == Join("\n", ChunkParts(title, text, url))
  {
    var parts := ChunkParts(title, text, url);
    if parts == [] then None
    else
      JoinNonEmpty("\n", parts);
      Some(Join("\n", parts))
  }

  /** A dict result: bold title, cut content, then the source URL, each
      only when non-empty, one per line; nothing when all three are empty.
      Stripping `title`, then `url`, then the content raises for a value
      that is not a string. */
  function DictChunk(fields: seq<(string, Json)>): (r: Result<Option<string>, string>)
    ensures var title := GetOr(fields, "title", JStr(""));
      !title.JStr? ==> r == Err(StripEntry(title).error)
    ensures var title, url := GetOr(fields, "title", JStr("")), GetOr(fields, "url", JStr(""));
      title.JStr? && !url.JStr? ==> r == Err(StripEntry(url).error)
    ensures var title, url, content := GetOr(fields, "title", JStr("")), GetOr(fields, "url", JStr("")), ContentEntry(fields);
      title.JStr? && url.JStr? && !content.JStr? ==> r == Err(StripEntry(content).error)
    ensures var title, url, content := GetOr(fields, "title", JStr("")), GetOr(fields, "url", JStr("")), ContentEntry(fields);
      title.JStr? && url.JStr? && content.JStr? ==> r == Ok(ChunkText(Strip(title.s), Strip(content.s), Strip(url.s)))
  {
    match StripEntry(GetOr(fields, "title", JStr("")))
    case Err(e) => Err(e)
    case Ok(title) =>
      match StripEntry(GetOr(fields, "url", JStr("")))
      case Err(e) => Err(e)
      case Ok(url) =>
        match StripEntry(ContentEntry(fields))
        case Err(e) => Err(e)
        case Ok(text) => Ok(ChunkText(title, text, url))
  }

  /** A dict with a title, some content and a URL renders as three lines:
      the bold title, the content cut to 500 characters, and the source. */
  lemma DictChunkFull(fields: seq<(string, Json)>, title: string, content: string, url: string)
    requires GetOr(fields, "title", JStr("")) == JStr(title) && GetOr(fields, "url", JStr("")) == JStr(url)
    requires ContentEntry(fields) == JStr(content)
    requires !IsBlank(title) && !IsBlank(content) && !IsBlank(url)
    ensures DictChunk(fields) ==
      Ok(Some(("**" + Strip(title) + "**") + "\n" + CutContent(Strip(content)) + "\n" + ("Source: " + Strip(url))))
  {
    ChunkTextFull(Strip(title), Strip(content), Strip(url));
  }

  lemma ChunkTextFull(title: string, text: string, url: string)
    requires title != [] && text != [] && url != []
    ensures ChunkText(title, text, url) == Some(("**" + title + "**") + "\n" + CutContent(text) + "\n" + ("Source: " + url))
  {
    var a, b, c := "**" + title + "**", CutContent(text), "Source: " + url;
    var parts := ChunkParts(title, text, url);
    assert parts == [a, b, c];
    assert parts[..2] == [a, b] && [a, b][..1] == [a];
    assert Join("\n", parts) == Join("\n", [a, b]) + "\n" + c;
    assert Join("\n", [a, b]) == a + "\n" + b;
  }

  /** The lines of a dict chunk: each present piece, none of them empty. */
  function ChunkParts(title: string, text: string, url: string): (parts: seq<string>)
    ensures parts == [] <==> title == [] && text == [] && url == []
    ensures parts != [] ==> parts[|parts| - 1] != []
  {
    (if title != [] then ["**" + title + "**"] else []) +
    (if text != [] then [CutContent(text)] else []) +
    (if url != [] then ["Source: " + url] else [])
  }

  lemma JoinNonEmpty(sep: string, parts: seq<string>)
    requires parts != [] && parts[|parts| - 1] != []
    ensures Join(sep, parts) != []
  {
  }

  /** The chunk rendered for the item at 1-based position `idx`, if any. */
  function ItemChunk(idx: nat, item: Item): (r: Result<Option<string>, string>)
    ensures item.Record? && item.summary.Some? && item.summary.value.JStr? && !IsBlank(item.summary.value.s) ==>
      r == Ok(Some("**Result " + NatToString(idx) + ":**\n" + Strip(item.summary.value.s)))
    ensures item.Value? && item.j.JStr? ==> r == Ok(if IsBlank(item.j.s) then None else Some(Strip(item.j.s)))
    ensures r.Err? ==> item.Value? && item.j.JObj?
  {
    match item
    case Record(summary) =>
      if summary.Some? && summary.value.JStr? && !IsBlank(summary.value.s) then
        Ok(Some("**Result " + NatToString(idx) + ":**\n" + Strip(summary.value.s)))
      else Ok(None)
    case Value(j) =>
      match j
      case JObj(fields) => DictChunk(fields)
      case JStr(s) => if IsBlank(s) then Ok(None) else Ok(Some(Strip(s)))
      case _ => Ok(None)
  }

  /** The rendering loop: the chunks of the items in order, each item
      numbered by its position in the whole list, or the first exception. */
  function Chunks(items: seq<Item>): (r: Result<seq<string>, string>)
    ensures r.Ok? ==> |r.value| <= |items|
  {
    if items == [] then Ok([])
    else Step(Chunks(items[..|items| - 1]), |items|, items[|items| - 1])
  }

  /** One turn of the loop: the item at position `idx` after `sofar`. */
  function Step(sofar: Result<seq<string>, string>, idx: nat, item: Item): (r: Result<seq<string>, string>)
    ensures sofar.Ok? && r.Ok? ==> |r.value| <= |sofar.value| + 1
  {
    match sofar
    case Err(e) => Err(e)
    case Ok(cs) =>
      match ItemChunk(idx, item)
      case Err(e) => Err(e)
      case Ok(c) => Ok(cs + (if c.Some? then [c.value] else []))
  }

  lemma ChunksPrefix(items: seq<Item>, i: nat)
    requires i < |items|
    ensures Chunks(items[..i + 1]) == Step(Chunks(items[..i]), i + 1, items[i])
  {
    var pre := items[..i + 1];
    assert pre[..|pre| - 1] == items[..i] && pre[|pre| - 1] == items[i];
  }

  /** An item's number is its place in the list, not among the rendered
      chunks: items that render nothing still use up a number. */
  lemma {:induction false} ResultNumberIsPosition(items: seq<Item>, s: string)
    requires Chunks(items).Ok? && !IsBlank(s)
    ensures Chunks(items + [Record(Some(JStr(s)))]) ==
      Ok(Chunks(items).value + ["**Result " + NatToString(|items| + 1) + ":**\n" + Strip(s)])
  {
    var all := items + [Record(Some(JStr(s)))];
    assert all[..|all| - 1] == items;
  }

  /** An item that renders nothing leaves the chunks as they were (but,
      by the lemma above, still moves the numbering on). */
  lemma SilentItemAddsNothing(items: seq<Item>, j: Json)
    requires j.JNum? || j.JNull? || j.JBool?
    ensures Chunks(items + [Value(j)]) == Chunks(items)
  {
    var all := items + [Value(j)];
    assert all[..|all| - 1] == items;
    assert ItemChunk(|all|, Value(j)) == Ok(None);
    match Chunks(items)
    case Err(e) =>
    case Ok(cs) => assert cs + [] == cs;
  }

  const Separator := "\n\n---\n\n"

  /** The chunks of a list of items joined by rules. */
  function Render(items: seq<Item>): (r: Result<string, string>)
    ensures Chunks(items).Err? ==> r == Err(Chunks(items).error)
    ensures Chunks(items) == Ok([]) ==> r == Ok("No useful search results were found.")
    ensures Chunks(items).Ok? && Chunks(items).value != [] ==> r == Ok(Join(Separator, Chunks(items).value))
  {
    match Chunks(items)
    case Err(e) => Err(e)
    case Ok(cs) => if cs == [] then Ok("No useful search results were found.") else Ok(Join(Separator, cs))
  }

  /** A single rendered chunk is the whole text, with no rule. */
  lemma RenderSingle(items: seq<Item>)
    requires Chunks(items).Ok? && |Chunks(items).value| == 1
    ensures Render(items) == Ok(Chunks(items).value[0])
  {
  }

  /** The whole formatting of `tavily_search` after a successful search.
      `Err` is an exception the formatting itself raises. */
  function Format(raw: Raw): (r: Result<string, string>)
    ensures raw.RawNone? ==> r == Ok("No search results were returned.")
    ensures raw.RawList? ==> r == Render(raw.items)
    ensures raw.RawDict? && !Truthy(GetOr(raw.fields, "results", JNull)) ==>
      (var answer := Get(raw.fields, "answer");
       r == Ok(if answer.Some? && answer.value.JStr? && !IsBlank(answer.value.s)
               then "**Answer:** " + Strip(answer.value.s) else "No results found for your query."))
  {
    match raw
    case RawNone => Ok("No search results were returned.")
    case RawList(items) => Render(items)
    case RawDict(fields) =>
      var results := Or(GetOr(fields, "results", JNull), JArr([]));
      if !Truthy(results) then
        var answer := Get(fields, "answer");
        Ok(if answer.Some? && answer.value.JStr? && !IsBlank(answer.value.s)
           then "**Answer:** " + Strip(answer.value.s) else "No results found for your query.")
      else match Iterate(results)
        case None => Err("'" + TypeName(results) + "' object is not iterable")
        case Some(js) => Render(seq(|js|, k requires 0 <= k < |js| => Value(js[k])))
  }

  /** The rendering loop as the tool runs it. */
  method RenderChunks(items: seq<Item>) returns (r: Result<string, string>)
    ensures r == Render(items)
  {
    var chunks: seq<string> := [];
    var i := 0;
    while i < |items|
      invariant 0 <= i <= |items|
      invariant Chunks(items[..i]) == Ok(chunks)
    {
      ChunksPrefix(items, i);
      var c := ItemChunk(i + 1, items[i]);
      if c.Err? {
        FailureSticks(items, i + 1);
        return Err(c.error);
      }
      assert Step(Ok(chunks), i + 1, items[i]) == Ok(chunks + (if c.value.Some? then [c.value.value] else []));
      if c.value.Some? {
        chunks := chunks + [c.value.value];
      } else {
        assert chunks + [] == chunks;
      }
      i := i + 1;
    }
    assert items[..i] == items;
    if chunks == [] {
      return Ok("No useful search results were found.");
    }
    r := Ok(Join(Separator, chunks));
  }

  lemma {:induction false} FailureSticks(items: seq<Item>, n: nat)
    requires n <= |items| && Chunks(items[..n]).Err?
    ensures Chunks(items) == Chunks(items[..n])
    decreases |items| - n
  {
    if n < |items| {
      assert items[..n + 1][..n] == items[..n];
      FailureSticks(items, n + 1);
    } else {
      assert items[..n] == items;
    }
  }

  const KeyMissing := "TAVILY_API_KEY environment variable is not set. Get your API key from https://tavily.com"

  /** The settings a client was created with. */
  datatype SearchConfig = SearchConfig(maxResults: int, topic: string, searchDepth: string)

  const DefaultConfig := SearchConfig(3, "general", "basic")

  /** The module-level `_tavily_search` slot. */
  class SearchCache {
    var instance: Option<SearchConfig>

    constructor()
      ensures instance == None
    {
      instance := None;
    }

    /** `get_tavily_search_tool`: the key is checked on every call; the
        first successful call creates the client, later ones return it and
        ignore their settings. */
    method GetTool(keySet: bool, config: SearchConfig) returns (r: Result<SearchConfig, string>)
      modifies this
      ensures !keySet ==> r == Err(KeyMissing) && instance == old(instance)
      ensures keySet && old(instance).Some? ==> r == Ok(old(instance).value) && instance == old(instance)
      ensures keySet && old(instance).None? ==> r == Ok(config) && instance == Some(config)
    {
      if !keySet {
        return Err(KeyMissing);
      }
      if instance.None? {
        instance := Some(config);
      }
      r := Ok(instance.value);
    }

    /** `reset_tavily_tool`. */
    method Reset()
      modifies this
      ensures instance == None
    {
      instance := None;
    }

    /** `tavily_search`: `outcome` is the search reply, or the type name and
        text of the exception the search raised. Only an exception of the
        formatting itself escapes, as `Err`. */
    method Search(keySet: bool, outcome: Result<Raw, (string, string)>) returns (r: Result<string, string>)
      modifies this
      ensures !keySet ==> r == Ok("Web search unavailable: " + KeyMissing) && instance == old(instance)
      ensures keySet ==> instance == (if old(instance).None? then Some(DefaultConfig) else old(instance))
      ensures keySet && outcome.Err? ==> r == Ok("Search failed: " + outcome.error.0 + ": " + outcome.error.1)
      ensures keySet && outcome.Ok? ==> r == Format(outcome.value)
    {
      var searcher := GetTool(keySet, DefaultConfig);
      if searcher.Err? {
        return Ok("Web search unavailable: " + searcher.error);
      }
      if outcome.Err? {
        return Ok("Search failed: " + outcome.error.0 + ": " + outcome.error.1);
      }
      match outcome.value
      case RawNone =>
        r := Ok("No search results were returned.");
      case RawList(items) =>
        r := RenderChunks(items);
      case RawDict(fields) =>
        var results := Or(GetOr(fields, "results", JNull), JArr([]));
        if !Truthy(results) {
          var answer := Get(fields, "answer");
          if answer.Some? && answer.value.JStr? && !IsBlank(answer.value.s) {
            return Ok("**Answer:** " + Strip(answer.value.s));
          }
          return Ok("No results found for your query.");
        }
        var js := Iterate(results);
        if js.None? {
          return Err("'" + TypeName(results) + "' object is not iterable");
        }
        var items := seq(|js.value|, k requires 0 <= k < |js.value| => Value(js.value[k]));
        r := RenderChunks(items);
    }
  }
}
