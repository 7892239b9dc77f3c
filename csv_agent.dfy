/** backend/agents/csv_agent.py: the CSV agent's registry of named data
    frames with a mark on the current one. Parsing with pandas and the
    pandas agent are foreign: a parsed frame (or the parser's error) and
    the agent's answer are inputs, and a frame is reduced to its row count
    and its typed columns. Building the pandas agent is taken to succeed. */
module CsvAgent {
  import opened Common
  import opened Strings
  import RagAgent

  /** How pandas classifies a column: numeric, `object`, or anything else. */
  datatype ColumnKind = Numeric | Categorical | OtherKind
  datatype Column = Column(name: string, kind: ColumnKind)
  datatype Frame = Frame(rows: nat, columns: seq<Column>)

  datatype LoadInfo = LoadInfo(name: string, rows: nat, columnNames: seq<string>)
  datatype FrameListing = FrameListing(entries: seq<(string, Frame)>, currentName: Option<string>)

  function ColumnNames(cols: seq<Column>): (r: seq<string>)
    ensures |r| == |cols|
  {
    seq(|cols|, k requires 0 <= k < |cols| => cols[k].name)
  }

  /** Whether no column before position `k` has the kind. */
  predicate NoneBefore(cols: seq<Column>, kind: ColumnKind, k: int)
    requires 0 <= k <= |cols|
  {
    forall j :: 0 <= j < k ==> cols[j].kind != kind
  }

  /** The first column of a kind, in column order (`select_dtypes(...)
      .columns[0]`): it has the kind and no earlier column does. */
  function FirstOfKind(cols: seq<Column>, kind: ColumnKind): (r: Option<string>)
    ensures r.Some? <==> exists k :: 0 <= k < |cols| && cols[k].kind == kind
    ensures r.None? ==> NoneBefore(cols, kind, |cols|)
    ensures r.Some? ==> exists k :: 0 <= k < |cols| && cols[k].kind == kind && cols[k].name == r.value && NoneBefore(cols, kind, k)
  {
    if cols == [] then None
    else if cols[0].kind == kind then
      assert NoneBefore(cols, kind, 0);
      Some(cols[0].name)
    else
      var r := FirstOfKind(cols[1..], kind);
      assert forall k :: 1 <= k < |cols| ==> cols[k] == cols[1..][k - 1];
      if r.Some? then
        var k :| 0 <= k < |cols[1..]| && cols[1..][k].kind == kind && cols[1..][k].name == r.value && NoneBefore(cols[1..], kind, k);
        assert cols[k + 1].kind == kind && cols[k + 1].name == r.value && NoneBefore(cols, kind, k + 1);
        r
      else
        r
  }

  function SecondNumeric(cols: seq<Column>): Option<string> {
    if cols == [] then None
    else if cols[0].kind == Numeric then FirstOfKind(cols[1..], Numeric)
    else SecondNumeric(cols[1..])
  }

  const BaseSuggestions: seq<string> := [
    "What are the basic statistics of this dataset?",
    "Show me the first 10 rows of data",
    "What columns have missing values?",
    "How many rows and columns are in this dataset?",
    "What are the data types of each column?",
    "Show me a summary of each column",
    "Are there any duplicate rows?",
    "What are the unique values in each categorical column?"]

  /** The suggestions for the current frame: eight base prompts, three
      more with a numeric column, three more with a categorical one, one
      more with two numeric columns. That is at most fifteen, so the cap
      never cuts. */
  function Suggestions(current: Option<Frame>): (r: seq<string>)
    ensures current.None? ==> r == ["No CSV data loaded"]
    ensures current.Some? ==> var cols := current.value.columns;
      |r| == 8 + 3 * Count(FirstOfKind(cols, Numeric).Some?) + 3 * Count(FirstOfKind(cols, Categorical).Some?) +
        Count(FirstOfKind(cols, Numeric).Some? && SecondNumeric(cols).Some?)
    ensures current.Some? ==> r[..8] == BaseSuggestions
  {
    if current.None? then ["No CSV data loaded"]
    else
      var cols := current.value.columns;
      var numeric := FirstOfKind(cols, Numeric);
      var categorical := FirstOfKind(cols, Categorical);
      var withNumeric := BaseSuggestions +
        (if numeric.Some? then
          ["What is the average value of " + numeric.value + "?",
           "Show me the distribution of " + numeric.value,
           "Find outliers in " + numeric.value]
         else []);
      var withCategorical := withNumeric +
        (if categorical.Some? then
          ["What are the most common values in " + categorical.value + "?",
           "How many unique values are in " + categorical.value + "?",
           "Show me the frequency distribution of " + categorical.value]
         else []);
      var all := withCategorical +
        (if numeric.Some? && SecondNumeric(cols).Some? then
          ["What is the correlation between " + numeric.value + " and " + SecondNumeric(cols).value + "?"]
         else []);
      assert |withNumeric| == 8 + 3 * Count(numeric.Some?);
      assert |withCategorical| == |withNumeric| + 3 * Count(categorical.Some?);
      assert |all| == |withCategorical| + Count(numeric.Some? && SecondNumeric(cols).Some?);
      assert all[..8] == BaseSuggestions;
      var n := if |all| <= 15 then |all| else 15;
      assert all[..n] == all;
      all[..n]
  }

  function Count(b: bool): nat { if b then 1 else 0 }

  class CsvAgentState {
    /** The registry and the insertion order its entries are listed in. */
    var frames: map<string, Frame>
    var order: seq<string>
    var current: Option<Frame>
    var currentName: Option<string>
    /** Whether a pandas agent has been built. */
    var hasAgent: bool

    /** The registry lists each name once, and the current name names a
        registered frame. */
    ghost predicate Valid()
      reads this
    {
      Distinct(order) && (forall n :: n in frames <==> n in order) &&
      (currentName.Some? <==> current.Some?) &&
      (currentName.Some? ==> currentName.value in frames && current == Some(frames[currentName.value]))
    }

    constructor()
      ensures Valid() && frames == map[] && order == [] && current == None && currentName == None && !hasAgent
    {
      frames := map[];
      order := [];
      current := None;
      currentName := None;
      hasAgent := false;
    }

    /** Stores a parsed frame under `name` and makes it current. */
    method Store(name: string, frame: Frame)
      requires Valid()
      modifies this
      ensures Valid()
      ensures frames == old(frames)[name := frame]
      ensures order == if name in old(frames) then old(order) else old(order) + [name]
      ensures current == Some(frame) && currentName == Some(name) && hasAgent
    {
      if name !in frames {
        order := order + [name];
      }
      frames := frames[name := frame];
      current := Some(frame);
      currentName := Some(name);
      hasAgent := true;
    }

    /** `load_csv_from_string`: `parsed` is what pandas made of the text.
        A parse failure leaves the registry untouched. */
    method LoadCsvFromString(name: string, parsed: Result<Frame, string>) returns (r: Result<LoadInfo, string>)
      requires Valid()
      modifies this
      ensures Valid()
      ensures parsed.Err? ==> (r == Err(parsed.error) &&
        frames == old(frames) && order == old(order) && current == old(current) &&
        currentName == old(currentName) && hasAgent == old(hasAgent))
      ensures parsed.Ok? ==> (r == Ok(LoadInfo(name, parsed.value.rows, ColumnNames(parsed.value.columns))) &&
        frames == old(frames)[name := parsed.value] && currentName == Some(name) && current == Some(parsed.value) &&
        order == (if name in old(frames) then old(order) else old(order) + [name]) && hasAgent)
    {
      if parsed.Err? {
        return Err(parsed.error);
      }
      Store(name, parsed.value);
      r := Ok(LoadInfo(name, parsed.value.rows, ColumnNames(parsed.value.columns)));
    }

    /** `load_csv_file`: as above, the name defaulting to the file's stem. */
    method LoadCsvFile(filePath: string, name: Option<string>, parsed: Result<Frame, string>) returns (r: Result<LoadInfo, string>)
      requires Valid()
      modifies this
      ensures Valid()
      ensures parsed.Err? ==> (r == Err(parsed.error) &&
        frames == old(frames) && order == old(order) && current == old(current) &&
        currentName == old(currentName) && hasAgent == old(hasAgent))
      ensures parsed.Ok? ==> var n := if name.Some? then name.value else RagAgent.Stem(filePath);
        (r == Ok(LoadInfo(n, parsed.value.rows, ColumnNames(parsed.value.columns))) &&
         frames == old(frames)[n := parsed.value] && currentName == Some(n) && current == Some(parsed.value) &&
         order == (if n in old(frames) then old(order) else old(order) + [n]) && hasAgent)
    {
      if parsed.Err? {
        return Err(parsed.error);
      }
      var n := if name.Some? then name.value else RagAgent.Stem(filePath);
      Store(n, parsed.value);
      r := Ok(LoadInfo(n, parsed.value.rows, ColumnNames(parsed.value.columns)));
    }

    /** `switch_dataframe`: makes only a registered name current. */
    method SwitchDataframe(name: string) returns (ok: bool)
      requires Valid()
      modifies this
      ensures Valid()
      ensures ok <==> name in old(frames)
      ensures frames == old(frames) && order == old(order)
      ensures ok ==> currentName == Some(name) && current == Some(frames[name]) && hasAgent
      ensures !ok ==> currentName == old(currentName) && current == old(current) && hasAgent == old(hasAgent)
    {
      if name in frames {
        current := Some(frames[name]);
        currentName := Some(name);
        hasAgent := true;
        return true;
      }
      return false;
    }

    /** The frame `get_dataframe_info` describes: the named one when
        registered, otherwise the current one (`None`: "No dataframe
        available"). */
    function InfoTarget(name: Option<string>): (r: Option<Frame>)
      reads this
      requires Valid()
      ensures name.Some? && name.value != [] && name.value in frames ==> r == Some(frames[name.value])
      ensures (name.None? || name.value == [] || name.value !in frames) ==> r == current
    {
      if name.Some? && name.value != [] then
        (if name.value in frames then Some(frames[name.value]) else current)
      else current
    }

    /** `process_natural_language_query`: column hints, the analysis type
        and the frame's shape are appended before the agent is asked. */
    method ProcessNaturalLanguageQuery(query: string, columnHints: seq<string>, analysisType: Option<string>,
                                       agent: string -> Result<string, string>) returns (r: Result<(string, string, Frame), string>)
      requires Valid()
      ensures !hasAgent || current.None? ==> r == Err("No CSV data loaded. Please load a CSV file first.")
      ensures hasAgent && current.Some? ==>
        match agent(EnhancedQuery(query, columnHints, analysisType, current.value))
        case Ok(answer) => r == Ok((answer, currentName.value, current.value))
        case Err(m) => r == Err("Failed to process query: " + m)
    {
      if !hasAgent || current.None? {
        return Err("No CSV data loaded. Please load a CSV file first.");
      }
      var reply := agent(EnhancedQuery(query, columnHints, analysisType, current.value));
      match reply {
        case Ok(answer) => r := Ok((answer, currentName.value, current.value));
        case Err(m) => r := Err("Failed to process query: " + m);
      }
    }

    /** `list_dataframes`: one entry per registered name, in insertion order,
        and the current name. */
    function ListDataframes(): (r: FrameListing)
      reads this
      requires Valid()
      ensures |r.entries| == |frames|
      ensures forall k :: 0 <= k < |r.entries| ==> r.entries[k].0 in frames && r.entries[k].1 == frames[r.entries[k].0]
      ensures forall n :: n in frames ==> exists k :: 0 <= k < |r.entries| && r.entries[k].0 == n
      ensures r.currentName == currentName
    {
      DistinctKeysCount(order, frames);
      var o, f := order, frames;
      var entries := seq(|o|, k requires 0 <= k < |o| => (o[k], f[o[k]]));
      assert forall n :: n in f ==> exists k :: 0 <= k < |o| && o[k] == n && entries[k].0 == n;
      FrameListing(entries, currentName)
    }

    /** Empties the registry and drops the current frame (what clearing
        the CSV data source does to this agent). */
    method ClearFrames()
      modifies this
      ensures frames == map[] && order == [] && current == None && currentName == None
      ensures hasAgent == old(hasAgent)
      ensures Valid()
    {
      frames := map[];
      order := [];
      current := None;
      currentName := None;
    }
  }

  /** A duplicate-free listing of exactly a map's keys has one entry per key. */
  lemma DistinctKeysCount(order: seq<string>, m: map<string, Frame>)
    requires Distinct(order) && forall n :: n in m <==> n in order
    ensures |order| == |m|
  {
    var keys := set k | 0 <= k < |order| :: order[k];
    assert keys == m.Keys;
    IndexSetSize(order);
  }

  lemma {:induction false} IndexSetSize(xs: seq<string>)
    requires Distinct(xs)
    ensures |set k | 0 <= k < |xs| :: xs[k]| == |xs|
  {
    if xs != [] {
      var front := xs[..|xs| - 1];
      IndexSetSize(front);
      var s := set k | 0 <= k < |xs| :: xs[k];
      var sf := set k | 0 <= k < |front| :: front[k];
      assert s == sf + {xs[|xs| - 1]};
      assert xs[|xs| - 1] !in sf;
    }
  }

  const ColumnHintsLabel := "\n\nFocus on these columns: "
  const AnalysisTypeLabel := "\n\nType of analysis: "

  /** The column-hint block: empty without hints. */
  function HintBlock(hints: seq<string>): string {
    if hints != [] then ColumnHintsLabel + Join(", ", hints) else ""
  }

  /** The analysis-type block: empty when absent or empty (falsy). */
  function TypeBlock(analysisType: Option<string>): string {
    if analysisType.Some? && analysisType.value != [] then AnalysisTypeLabel + analysisType.value else ""
  }

  /** The frame block: the shape as a Python tuple and at most the first
      ten column names, always followed by "...". */
  function ShapeBlock(frame: Frame): (r: string)
    ensures EndsWith(r, "...")
  {
    var names := ColumnNames(frame.columns);
    var head := "\n\nDataFrame info: Shape (" + NatToString(frame.rows) + ", " + NatToString(|frame.columns|) + "), Columns: " +
      Join(", ", if |names| <= 10 then names else names[..10]);
    assert (head + "...")[|head|..] == "...";
    head + "..."
  }

  /** The question with its column hints, analysis type and frame shape:
      the question comes first and untouched, then each block in that
      order, the frame block always last. */
  function EnhancedQuery(query: string, columnHints: seq<string>, analysisType: Option<string>, frame: Frame): (r: string)
    ensures r == query + HintBlock(columnHints) + TypeBlock(analysisType) + ShapeBlock(frame)
    ensures StartsWith(r, query) && EndsWith(r, "...")
  {
    var withHints := if columnHints != [] then query + ColumnHintsLabel + Join(", ", columnHints) else query;
    var withType := if analysisType.Some? && analysisType.value != [] then withHints + AnalysisTypeLabel + analysisType.value else withHints;
    assert withHints == query + HintBlock(columnHints) by {
      if columnHints == [] { assert query + [] == query; }
    }
    assert withType == withHints + TypeBlock(analysisType) by {
      if !(analysisType.Some? && analysisType.value != []) { assert withHints + [] == withHints; }
    }
    Framed(query, HintBlock(columnHints), TypeBlock(analysisType), ShapeBlock(frame), "...");
    withType + ShapeBlock(frame)
  }
}
