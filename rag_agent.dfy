/** backend/agents/rag_agent.py: the document agent's bookkeeping around
    its vector store. The splitter, the embedding store and the answering
    chain are foreign: the number of chunks, the scored search hits and the
    chain's answer are inputs, and the store itself is reduced to whether
    it exists. */
module RagAgent {
  import opened Common
  import opened Strings
  import SqlSession

  /** A loaded document: its text and the `source` entry of its metadata. */
  datatype Document = Document(content: string, source: Option<string>)

  /** One line of `_format_docs`, numbered from 1. */
  function FormatEntry(number: nat, doc: Document): string {
    "Document " + NatToString(number) + " (Source: " + doc.source.GetOr("Unknown source") + "):\n" + doc.content
  }

  function FormattedEntries(docs: seq<Document>): (r: seq<string>)
    ensures |r| == |docs|
    ensures forall k :: 0 <= k < |docs| ==> r[k] == FormatEntry(k + 1, docs[k])
  {
    seq(|docs|, k requires 0 <= k < |docs| => FormatEntry(k + 1, docs[k]))
  }

  /** `_format_docs`: one numbered entry per retrieved document, in order,
      separated by a blank line. */
  method FormatDocs(docs: seq<Document>) returns (r: string)
    ensures r == Join("\n\n", FormattedEntries(docs))
  {
    var formatted: seq<string> := [];
    var i := 0;
    while i < |docs|
      invariant 0 <= i <= |docs|
      invariant formatted == FormattedEntries(docs[..i])
    {
      formatted := formatted + [FormatEntry(i + 1, docs[i])];
      i := i + 1;
    }
    assert docs[..|docs|] == docs;
    r := Join("\n\n", formatted);
  }

  /** A search hit: the document and its similarity score. */
  datatype Hit = Hit(doc: Document, score: real)

  /** The hits whose score reaches the threshold, in order. */
  function KeptHits(hits: seq<Hit>, threshold: real): (r: seq<Hit>)
    ensures |r| <= |hits|
    ensures forall h :: h in r <==> h in hits && h.score >= threshold
  {
    if hits == [] then []
    else
      var rest := KeptHits(hits[1..], threshold);
      if hits[0].score >= threshold then [hits[0]] + rest else rest
  }

  /** Filtering distributes over concatenation: kept hits stay in their
      original order. */
  lemma {:induction false} KeptHitsAppend(a: seq<Hit>, b: seq<Hit>, threshold: real)
    ensures KeptHits(a + b, threshold) == KeptHits(a, threshold) + KeptHits(b, threshold)
  {
    if a == [] {
      assert a + b == b;
    } else {
      assert (a + b)[1..] == a[1..] + b;
      KeptHitsAppend(a[1..], b, threshold);
    }
  }

  /** When every hit reaches the threshold, all are kept, in order. */
  lemma {:induction false} KeptHitsAll(hits: seq<Hit>, threshold: real)
    requires forall k :: 0 <= k < |hits| ==> hits[k].score >= threshold
    ensures KeptHits(hits, threshold) == hits
  {
    if hits != [] {
      KeptHitsAll(hits[1..], threshold);
    }
  }

  datatype SearchReport = SearchReport(query: string, results: seq<Hit>, totalFound: nat)

  /** Per-source statistics, in the order sources were first seen (the
      insertion order of the source's dict). */
  datatype SourceStat = SourceStat(source: string, count: nat, characters: nat)

  function SourceKey(d: Document): string {
    d.source.GetOr("unknown")
  }

  function Sources(stats: seq<SourceStat>): seq<string> {
    seq(|stats|, k requires 0 <= k < |stats| => stats[k].source)
  }

  /** Adds one document of `length` characters from `source`. */
  function Bump(stats: seq<SourceStat>, source: string, length: nat): (r: seq<SourceStat>)
    ensures |r| == |stats| + (if source in Sources(stats) then 0 else 1)
  {
    if stats == [] then [SourceStat(source, 1, length)]
    else if stats[0].source == source then
      assert Sources(stats)[0] == source;
      [SourceStat(source, stats[0].count + 1, stats[0].characters + length)] + stats[1..]
    else
      assert Sources(stats) == [stats[0].source] + Sources(stats[1..]);
      [stats[0]] + Bump(stats[1..], source, length)
  }

  /** The per-source statistics: never more sources than documents. */
  function Stats(docs: seq<Document>): (r: seq<SourceStat>)
    ensures |r| <= |docs|
  {
    if docs == [] then []
    else Bump(Stats(docs[..|docs| - 1]), SourceKey(docs[|docs| - 1]), |docs[|docs| - 1].content|)
  }

  function TotalCharacters(docs: seq<Document>): nat {
    if docs == [] then 0 else TotalCharacters(docs[..|docs| - 1]) + |docs[|docs| - 1].content|
  }

  function SumCounts(stats: seq<SourceStat>): nat {
    if stats == [] then 0 else stats[0].count + SumCounts(stats[1..])
  }

  function SumCharacters(stats: seq<SourceStat>): nat {
    if stats == [] then 0 else stats[0].characters + SumCharacters(stats[1..])
  }

  lemma {:induction false} BumpSums(stats: seq<SourceStat>, source: string, length: nat)
    ensures SumCounts(Bump(stats, source, length)) == SumCounts(stats) + 1
    ensures SumCharacters(Bump(stats, source, length)) == SumCharacters(stats) + length
  {
    if stats != [] && stats[0].source != source {
      BumpSums(stats[1..], source, length);
    }
  }

  /** Every document is counted under exactly one source: the counts add
      up to the number of documents and the characters to the total. */
  lemma {:induction false} StatsSums(docs: seq<Document>)
    ensures SumCounts(Stats(docs)) == |docs|
    ensures SumCharacters(Stats(docs)) == TotalCharacters(docs)
  {
    if docs != [] {
      StatsSums(docs[..|docs| - 1]);
      BumpSums(Stats(docs[..|docs| - 1]), SourceKey(docs[|docs| - 1]), |docs[|docs| - 1].content|);
    }
  }

  lemma SourcesSplit(stats: seq<SourceStat>)
    requires stats != []
    ensures Sources(stats) == [stats[0].source] + Sources(stats[1..])
  {
  }

  lemma {:induction false} BumpKeepsSourcesDistinct(stats: seq<SourceStat>, source: string, length: nat)
    requires Distinct(Sources(stats))
    ensures Distinct(Sources(Bump(stats, source, length)))
    ensures forall s :: s in Sources(Bump(stats, source, length)) <==> s in Sources(stats) || s == source
  {
    var b := Bump(stats, source, length);
    if stats == [] {
      assert Sources(b) == [source];
    } else {
      SourcesSplit(stats);
      SourcesSplit(b);
      var tail := Sources(stats[1..]);
      assert Distinct(tail) by {
        forall i, j | 0 <= i < j < |tail| ensures tail[i] != tail[j] {
          assert tail[i] == Sources(stats)[i + 1] && tail[j] == Sources(stats)[j + 1];
        }
      }
      assert stats[0].source !in tail by {
        forall k | 0 <= k < |tail| ensures tail[k] != stats[0].source {
          assert tail[k] == Sources(stats)[k + 1];
          assert Sources(stats)[0] == stats[0].source;
          assert 0 < k + 1 < |Sources(stats)|;
        }
      }
      if stats[0].source != source {
        BumpKeepsSourcesDistinct(stats[1..], source, length);
        assert b[1..] == Bump(stats[1..], source, length);
        DistinctCons(stats[0].source, Sources(b[1..]));
      } else {
        assert b[1..] == stats[1..];
        DistinctCons(stats[0].source, tail);
      }
    }
  }

  /** Each source appears once, and exactly the documents' sources appear. */
  lemma {:induction false} StatsSourcesDistinct(docs: seq<Document>)
    ensures Distinct(Sources(Stats(docs)))
    ensures forall s :: s in Sources(Stats(docs)) <==> exists d :: d in docs && SourceKey(d) == s
  {
    if docs != [] {
      var front := docs[..|docs| - 1];
      StatsSourcesDistinct(front);
      BumpKeepsSourcesDistinct(Stats(front), SourceKey(docs[|docs| - 1]), |docs[|docs| - 1].content|);
      forall s ensures s in Sources(Stats(docs)) <==> exists d :: d in docs && SourceKey(d) == s {
        if s in Sources(Stats(front)) {
          var d :| d in front && SourceKey(d) == s;
          assert d in docs;
        }
        if exists d :: d in docs && SourceKey(d) == s {
          var d :| d in docs && SourceKey(d) == s;
          if d != docs[|docs| - 1] {
            assert d in front;
          }
        }
      }
    }
  }

  /** How many of the documents come from `source`, and how many
      characters they hold together. */
  function CountKey(docs: seq<Document>, source: string): nat {
    if docs == [] then 0
    else CountKey(docs[..|docs| - 1], source) + (if SourceKey(docs[|docs| - 1]) == source then 1 else 0)
  }

  function CharsKey(docs: seq<Document>, source: string): nat {
    if docs == [] then 0
    else CharsKey(docs[..|docs| - 1], source) + (if SourceKey(docs[|docs| - 1]) == source then |docs[|docs| - 1].content| else 0)
  }

  /** The statistic recorded for `source` (the first entry naming it), or
      zero for a source not listed. */
  function CountOf(stats: seq<SourceStat>, source: string): nat {
    if stats == [] then 0 else if stats[0].source == source then stats[0].count else CountOf(stats[1..], source)
  }

  function CharsOf(stats: seq<SourceStat>, source: string): nat {
    if stats == [] then 0 else if stats[0].source == source then stats[0].characters else CharsOf(stats[1..], source)
  }

  /** Adding a document changes its own source's statistic only. */
  lemma {:induction false} BumpValues(stats: seq<SourceStat>, source: string, length: nat, s: string)
    ensures CountOf(Bump(stats, source, length), s) == CountOf(stats, s) + (if s == source then 1 else 0)
    ensures CharsOf(Bump(stats, source, length), s) == CharsOf(stats, s) + (if s == source then length else 0)
  {
    if stats != [] && stats[0].source != source {
      BumpValues(stats[1..], source, length, s);
    }
  }

  /** Each source's statistic counts exactly that source's documents and
      their characters. */
  lemma {:induction false} StatsValues(docs: seq<Document>, s: string)
    ensures CountOf(Stats(docs), s) == CountKey(docs, s)
    ensures CharsOf(Stats(docs), s) == CharsKey(docs, s)
  {
    if docs != [] {
      StatsValues(docs[..|docs| - 1], s);
      BumpValues(Stats(docs[..|docs| - 1]), SourceKey(docs[|docs| - 1]), |docs[|docs| - 1].content|, s);
    }
  }

  /** With distinct sources, the entry at `k` is the one recorded for its
      source. */
  lemma {:induction false} EntryIsRecorded(stats: seq<SourceStat>, k: nat)
    requires Distinct(Sources(stats)) && k < |stats|
    ensures CountOf(stats, stats[k].source) == stats[k].count
    ensures CharsOf(stats, stats[k].source) == stats[k].characters
  {
    if k > 0 {
      assert Sources(stats)[0] != Sources(stats)[k];
      var tail := Sources(stats[1..]);
      assert Distinct(tail) by {
        forall i, j | 0 <= i < j < |tail| ensures tail[i] != tail[j] {
          assert tail[i] == Sources(stats)[i + 1] && tail[j] == Sources(stats)[j + 1];
        }
      }
      EntryIsRecorded(stats[1..], k - 1);
    }
  }

  /** Every listed statistic counts its own source's documents: the count
      and the characters of entry `k` are those of the documents whose
      source it names. */
  lemma StatsEntries(docs: seq<Document>)
    ensures forall k :: 0 <= k < |Stats(docs)| ==>
      Stats(docs)[k].count == CountKey(docs, Stats(docs)[k].source) &&
      Stats(docs)[k].characters == CharsKey(docs, Stats(docs)[k].source)
  {
    var stats := Stats(docs);
    StatsSourcesDistinct(docs);
    forall k | 0 <= k < |stats|
      ensures stats[k].count == CountKey(docs, stats[k].source) && stats[k].characters == CharsKey(docs, stats[k].source)
    {
      EntryIsRecorded(stats, k);
      StatsValues(docs, stats[k].source);
    }
  }

  datatype DocumentSummary = NoDocuments | DocumentSummary(
    totalDocuments: nat, totalCharacters: nat, averageDocumentSize: nat, sources: seq<SourceStat>)

  /** The summary of the stored documents: none without documents;
      otherwise the per-source counts add up to the number of documents,
      the per-source characters to the total, and the average is the total
      over the count, rounded down. */
  function Summary(docs: seq<Document>): (r: DocumentSummary)
    ensures r.NoDocuments? <==> docs == []
    ensures r.DocumentSummary? ==>
      r.totalDocuments == |docs| == SumCounts(r.sources) &&
      r.totalCharacters == SumCharacters(r.sources) &&
      r.averageDocumentSize == Average(r.totalCharacters, |docs|)
    ensures r.DocumentSummary? ==> r.sources == Stats(docs) && Distinct(Sources(r.sources))
    ensures r.DocumentSummary? ==> forall k :: 0 <= k < |r.sources| ==>
      r.sources[k].count == CountKey(docs, r.sources[k].source) &&
      r.sources[k].characters == CharsKey(docs, r.sources[k].source)
  {
    if docs == [] then NoDocuments
    else
      StatsSums(docs);
      StatsEntries(docs);
      StatsSourcesDistinct(docs);
      var total := TotalCharacters(docs);
      DocumentSummary(|docs|, total, Average(total, |docs|), Stats(docs))
  }

  /** `total // count`: integer division rounds down, so the quotient
      times the count lies within one count of the total. */
  function Average(total: nat, count: nat): (q: nat)
    requires count > 0
    ensures q * count <= total < (q + 1) * count
  {
    var q, m := total / count, total % count;
    assert total == q * count + m;
    assert (q + 1) * count == q * count + count;
    q
  }

  /** `Path(source).stem`: the last component without its last suffix. */
  function Stem(p: string): string {
    var name := SqlSession.PathName(p);
    match LastDot(name, |name|)
    case Some(i) => if 0 < i < |name| - 1 then name[..i] else name
    case None => name
  }

  function LastDot(s: string, n: nat): (r: Option<nat>)
    requires n <= |s|
    ensures r.Some? ==> r.value < n && s[r.value] == '.' && forall k :: r.value < k < n ==> s[k] != '.'
    ensures r.None? ==> forall k :: 0 <= k < n ==> s[k] != '.'
  {
    if n == 0 then None else if s[n - 1] == '.' then Some(n - 1) else LastDot(s, n - 1)
  }

  function SourceName(source: string): string {
    if source != "unknown" then Stem(source) else source
  }

  const FixedSuggestions: seq<string> := [
    "What is the main topic of the documents?",
    "Can you summarize the key points?",
    "What are the most important findings?",
    "Are there any specific recommendations mentioned?",
    "What methodologies or approaches are discussed?",
    "What are the main conclusions?",
    "Are there any statistics or data mentioned?",
    "What problems or challenges are identified?",
    "What solutions are proposed?",
    "Are there any future directions mentioned?"]

  function SourcePrompts(sources: seq<string>): (r: seq<string>)
    ensures |r| == 2 * |sources|
  {
    if sources == [] then []
    else
      SourcePrompts(sources[..|sources| - 1]) + PromptPair(SourceName(sources[|sources| - 1]))
  }

  /** The two prompts about one source. */
  function PromptPair(name: string): (r: seq<string>)
    ensures |r| == 2
  {
    ["What does " + name + " say about this topic?", "Summarize the content from " + name]
  }

  function Min(a: int, b: int): int { if a < b then a else b }

  /** The suggestions for documents whose distinct sources are enumerated
      in `order` (the iteration order of the source's set). The ten fixed
      prompts always come first, and at most five per-source prompts
      follow: with three or more sources, the sixteenth prompt is cut. */
  function Suggestions(docs: seq<Document>, order: seq<string>): (r: seq<string>)
    ensures docs == [] ==> r == ["No documents loaded. Please add documents first."]
    ensures docs != [] ==> |r| == Min(15, 10 + 2 * Min(3, |order|)) && r[..10] == FixedSuggestions
  {
    if docs == [] then ["No documents loaded. Please add documents first."]
    else
      var all := FixedSuggestions + SourcePrompts(order[..Min(3, |order|)]);
      assert all[..10] == FixedSuggestions;
      all[..Min(15, |all|)]
  }

  /** Where `add_documents` can raise: building or extending the store
      (the store field is then untouched), persisting it, or making its
      retriever (the store field is then already assigned). */
  datatype StoreStage = Building | Persisting | Retrieving
  datatype StoreFailure = StoreFailure(stage: StoreStage, message: string)

  /** The document agent. `hasStore`, `hasRetriever` and `hasChain` say
      whether the vector store, its retriever and the answering chain
      exist. */
  class RagAgentState {
    var hasStore: bool
    var hasRetriever: bool
    var hasChain: bool
    var documents: seq<Document>

    /** A fresh agent: the store is loaded when its directory exists, and
        the chain is built exactly when a retriever exists. */
    constructor(storeExists: bool)
      ensures hasStore == storeExists && hasRetriever == storeExists && hasChain == storeExists
      ensures documents == []
    {
      hasStore := storeExists;
      hasRetriever := storeExists;
      hasChain := storeExists;
      documents := [];
    }

    /** `add_documents`: `chunkCount` is how many chunks the splitter made
        and `storeError` an exception raised on the way, with the stage it
        came from. On success the documents are appended and the store,
        retriever and chain exist. Returns the total document count. */
    method AddDocuments(docs: seq<Document>, chunkCount: nat, storeError: Option<StoreFailure>) returns (r: Result<nat, string>)
      modifies this
      ensures chunkCount == 0 ==> r == Err("No chunks created from documents")
      ensures chunkCount > 0 && storeError.Some? ==> r == Err(storeError.value.message)
      ensures r.Ok? <==> chunkCount > 0 && storeError.None?
      ensures r.Err? ==> documents == old(documents) && hasRetriever == old(hasRetriever) && hasChain == old(hasChain)
      ensures r.Err? ==> hasStore == (old(hasStore) || (chunkCount > 0 && storeError.value.stage != Building))
      ensures r.Ok? ==> documents == old(documents) + docs && r.value == |documents| &&
                        hasStore && hasRetriever && hasChain
    {
      if chunkCount == 0 {
        return Err("No chunks created from documents");
      }
      if storeError.Some? && storeError.value.stage == Building {
        return Err(storeError.value.message);
      }
      hasStore := true;
      if storeError.Some? {
        return Err(storeError.value.message);
      }
      hasRetriever := true;
      hasChain := true;
      documents := documents + docs;
      r := Ok(|documents|);
    }

    /** `search_documents`: keeps, in order, the hits scoring at least the
        threshold. `retrieved` is what the store's similarity search
        returned, or the message of the exception it raised. */
    method SearchDocuments(query: string, retrieved: Result<seq<Hit>, string>, threshold: real) returns (r: Result<SearchReport, string>)
      ensures !hasStore ==> r == Err("No vector store available. Please add documents first.")
      ensures hasStore && retrieved.Err? ==> r == Err(retrieved.error)
      ensures hasStore && retrieved.Ok? ==>
        r == Ok(SearchReport(query, KeptHits(retrieved.value, threshold), |KeptHits(retrieved.value, threshold)|))
    {
      if !hasStore {
        return Err("No vector store available. Please add documents first.");
      }
      if retrieved.Err? {
        return Err(retrieved.error);
      }
      var hits := retrieved.value;
      var results: seq<Hit> := [];
      var i := |hits|;
      while i > 0
        invariant 0 <= i <= |hits|
        invariant results == KeptHits(hits[i..], threshold)
      {
        i := i - 1;
        assert hits[i..][1..] == hits[i + 1..];
        if hits[i].score >= threshold {
          results := [hits[i]] + results;
        }
      }
      r := Ok(SearchReport(query, results, |results|));
    }

    /** `answer_question`: without a chain nothing is asked; otherwise the
        chain's answer is reported with the number of stored documents.
        `chain` answers the enhanced question. */
    method AnswerQuestion(question: string, documentFilter: Option<string>, sections: seq<string>,
                          chain: string -> Result<string, string>) returns (r: Result<(string, nat), string>)
      ensures !hasChain ==> r == Err("RAG system not initialized. Please add documents first.")
      ensures hasChain ==> match chain(EnhancedQuestion(question, documentFilter, sections))
        case Ok(answer) => r == Ok((answer, |documents|))
        case Err(m) => r == Err(m)
    {
      if !hasChain {
        return Err("RAG system not initialized. Please add documents first.");
      }
      var reply := chain(EnhancedQuestion(question, documentFilter, sections));
      match reply {
        case Ok(answer) => r := Ok((answer, |documents|));
        case Err(m) => r := Err(m);
      }
    }

    /** `get_document_summary`: counts documents and characters per source
        in one pass; the average size is the floor of their quotient. */
    method GetDocumentSummary() returns (r: DocumentSummary)
      ensures r == Summary(documents)
    {
      if documents == [] {
        return NoDocuments;
      }
      var stats, total := CountSources(documents);
      r := DocumentSummary(|documents|, total, total / |documents|, stats);
    }

    /** `clear_vector_store`: removes the store's directory, then forgets the
        store, retriever, chain and documents. `removeError` is the message
        of an exception removing the directory raised; the agent is then
        left as it was. */
    method ClearVectorStore(removeError: Option<string>) returns (r: Result<string, string>)
      modifies this
      ensures removeError.None? ==> r == Ok("Vector store cleared") && !hasStore && !hasRetriever && !hasChain && documents == []
      ensures removeError.Some? ==> r == Err(removeError.value)
      ensures removeError.Some? ==> unchanged(this)
    {
      if removeError.Some? {
        return Err(removeError.value);
      }
      r := Ok("Vector store cleared");
      hasStore := false;
      hasRetriever := false;
      hasChain := false;
      documents := [];
    }

    /** `get_query_suggestions`: the fixed prompts, then two per source for
        the first three sources of `order`, cut to fifteen. */
    method GetQuerySuggestions(order: seq<string>) returns (r: seq<string>)
      requires Distinct(order)
      requires forall s :: s in order <==> exists d :: d in documents && SourceKey(d) == s
      ensures r == Suggestions(documents, order)
    {
      if documents == [] {
        return ["No documents loaded. Please add documents first."];
      }
      var suggestions := AddSourcePrompts(FixedSuggestions, order[..Min(3, |order|)]);
      r := suggestions[..Min(15, |suggestions|)];
    }
  }

  /** The summary's pass over the documents: per-source counts and the
      total number of characters. */
  method CountSources(documents: seq<Document>) returns (stats: seq<SourceStat>, total: nat)
    ensures stats == Stats(documents) && total == TotalCharacters(documents)
  {
    stats, total := [], 0;
    var i := 0;
    while i < |documents|
      invariant 0 <= i <= |documents|
      invariant stats == Stats(documents[..i]) && total == TotalCharacters(documents[..i])
    {
      assert documents[..i + 1][..i] == documents[..i];
      stats := Bump(stats, SourceKey(documents[i]), |documents[i].content|);
      total := total + |documents[i].content|;
      i := i + 1;
    }
    assert documents[..|documents|] == documents;
  }

  /** The suggestions loop: two prompts per source, appended in order. */
  method AddSourcePrompts(suggestions: seq<string>, sources: seq<string>) returns (r: seq<string>)
    ensures r == suggestions + SourcePrompts(sources)
  {
    r := suggestions;
    var i := 0;
    while i < |sources|
      invariant 0 <= i <= |sources|
      invariant r == suggestions + SourcePrompts(sources[..i])
    {
      assert sources[..i + 1][..i] == sources[..i];
      var pair := PromptPair(SourceName(sources[i]));
      assert suggestions + SourcePrompts(sources[..i + 1]) == suggestions + SourcePrompts(sources[..i]) + pair;
      r := r + pair;
      i := i + 1;
    }
    assert sources[..|sources|] == sources;
  }

  const FilterLabel := "\n\nFocus on documents related to: "
  const SectionsLabel := "\n\nLook specifically in sections about: "

  /** The document-filter block: empty when absent or empty (falsy). */
  function FilterBlock(documentFilter: Option<string>): string {
    if documentFilter.Some? && documentFilter.value != [] then FilterLabel + documentFilter.value else ""
  }

  /** The sections block: empty without sections. */
  function SectionsBlock(sections: seq<string>): string {
    if sections != [] then SectionsLabel + Join(", ", sections) else ""
  }

  /** The question with the document filter, then the sections, appended:
      the question comes first and untouched, then each block in that
      order. */
  function EnhancedQuestion(question: string, documentFilter: Option<string>, sections: seq<string>): (r: string)
    ensures r == question + FilterBlock(documentFilter) + SectionsBlock(sections)
    ensures StartsWith(r, question)
  {
    var withFilter := if documentFilter.Some? && documentFilter.value != [] then question + FilterLabel + documentFilter.value else question;
    var r := if sections != [] then withFilter + SectionsLabel + Join(", ", sections) else withFilter;
    assert withFilter == question + FilterBlock(documentFilter) by {
      if !(documentFilter.Some? && documentFilter.value != []) { assert question + [] == question; }
    }
    assert r == withFilter + SectionsBlock(sections) by {
      if sections == [] { assert withFilter + [] == withFilter; }
    }
    Headed(question, FilterBlock(documentFilter), SectionsBlock(sections));
    r
  }
}
