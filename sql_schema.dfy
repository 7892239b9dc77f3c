/** backend/agent/agent_new/sql_tool.py: `describe_sql_schema` (flattening
    the inspector's catalogue into a JSON-ready payload) and
    `_summarise_schema` (a bounded one-line-per-table digest of such a
    payload). The inspector is an input: the catalogue it reports. */
module SqlSchema {
  import opened Common
  import opened Strings

  /** A column as `inspector.get_columns` reports it; `typeName` is
      `str(column["type"])`, `nullable` is `None` when the key is absent. */
  datatype RawColumn = RawColumn(name: string, typeName: string, nullable: Option<bool>, default: Option<string>)

  /** A foreign key as `inspector.get_foreign_keys` reports it. */
  datatype RawForeignKey = RawForeignKey(referredTable: Option<string>, constrained: seq<string>, referred: seq<string>)

  datatype TableCatalog = TableCatalog(
    name: string, columns: seq<RawColumn>, primaryKey: seq<string>, foreignKeys: seq<RawForeignKey>)

  datatype ViewCatalog = ViewCatalog(name: string, columns: seq<RawColumn>)

  /** The catalogue, in the order the inspector yields it. `views` is `None`
      when the dialect does not implement `get_view_names`. */
  datatype Inspector = Inspector(defaultSchema: Option<string>, tables: seq<TableCatalog>, views: Option<seq<ViewCatalog>>)

  datatype ColumnInfo = ColumnInfo(name: string, typeName: string, nullable: bool, default: Option<string>, primaryKey: bool)
  datatype ForeignKeyInfo = ForeignKeyInfo(column: string, referencedTable: string, referencedColumn: string)
  datatype TableInfo = TableInfo(name: string, columns: seq<ColumnInfo>, foreignKeys: seq<ForeignKeyInfo>)
  /** A view column; the payload always reports `primaryKey: False` for it. */
  datatype ViewColumn = ViewColumn(name: string, typeName: string, nullable: bool)
  datatype ViewInfo = ViewInfo(name: string, columns: seq<ViewColumn>)
  datatype SchemaPayload = SchemaPayload(schema: Option<string>, tables: seq<TableInfo>, views: seq<ViewInfo>)

  /** The column list of one table: nullability defaults to true and a
      column is flagged primary exactly when its name is in the table's
      primary-key constraint. */
  function DescribeColumns(t: TableCatalog): (r: seq<ColumnInfo>)
    ensures |r| == |t.columns|
    ensures forall k :: 0 <= k < |r| ==>
      r[k].name == t.columns[k].name && r[k].typeName == t.columns[k].typeName &&
      r[k].default == t.columns[k].default &&
      (r[k].primaryKey <==> t.columns[k].name in t.primaryKey) &&
      (r[k].nullable <==> t.columns[k].nullable != Some(false))
  {
    seq(|t.columns|, k requires 0 <= k < |t.columns| =>
      var c := t.columns[k];
      ColumnInfo(c.name, c.typeName, c.nullable.GetOr(true), c.default, c.name in t.primaryKey))
  }

  /** The rows one foreign key contributes: nothing when it names no
      referred table, otherwise the constrained and referred columns paired
      up position by position, as far as the shorter list goes. */
  function ForeignKeyPairs(fk: RawForeignKey): (r: seq<ForeignKeyInfo>)
    ensures fk.referredTable.None? || fk.referredTable.value == [] ==> r == []
    ensures fk.referredTable.Some? && fk.referredTable.value != [] ==>
      |r| == (if |fk.constrained| < |fk.referred| then |fk.constrained| else |fk.referred|)
    ensures |r| <= |fk.constrained| && |r| <= |fk.referred| && (r != [] ==> fk.referredTable.Some?)
    ensures forall j :: 0 <= j < |r| ==> r[j] == ForeignKeyInfo(fk.constrained[j], fk.referredTable.value, fk.referred[j])
  {
    if fk.referredTable.None? || fk.referredTable.value == [] then []
    else
      var n := if |fk.constrained| < |fk.referred| then |fk.constrained| else |fk.referred|;
      seq(n, j requires 0 <= j < n =>
        ForeignKeyInfo(fk.constrained[j], fk.referredTable.value, fk.referred[j]))
  }

  function FlattenForeignKeys(fks: seq<RawForeignKey>): seq<ForeignKeyInfo> {
    if fks == [] then []
    else FlattenForeignKeys(fks[..|fks| - 1]) + ForeignKeyPairs(fks[|fks| - 1])
  }

  /** Every flattened foreign-key row names a table that one of the
      table's foreign keys refers to. */
  lemma {:induction false} FlattenedKeysNameReferredTables(fks: seq<RawForeignKey>)
    ensures forall row :: row in FlattenForeignKeys(fks) ==>
      row.referencedTable != [] && exists fk :: fk in fks && fk.referredTable == Some(row.referencedTable)
  {
    if fks != [] {
      var front, last := fks[..|fks| - 1], fks[|fks| - 1];
      FlattenedKeysNameReferredTables(front);
      forall row | row in FlattenForeignKeys(fks)
        ensures row.referencedTable != [] && exists fk :: fk in fks && fk.referredTable == Some(row.referencedTable)
      {
        if row in FlattenForeignKeys(front) {
          var fk :| fk in front && fk.referredTable == Some(row.referencedTable);
          assert fk in fks;
        } else {
          assert row in ForeignKeyPairs(last);
          assert last in fks;
        }
      }
    }
  }

  /** One table's entry: its own name, one entry per column, and
      foreign-key rows that each name a table some key of it refers to. */
  function DescribeTable(t: TableCatalog): (r: TableInfo)
    ensures r.name == t.name && |r.columns| == |t.columns|
    ensures forall row :: row in r.foreignKeys ==>
      row.referencedTable != [] && exists fk :: fk in t.foreignKeys && fk.referredTable == Some(row.referencedTable)
    ensures r.columns == DescribeColumns(t) && r.foreignKeys == FlattenForeignKeys(t.foreignKeys)
  {
    FlattenedKeysNameReferredTables(t.foreignKeys);
    TableInfo(t.name, DescribeColumns(t), FlattenForeignKeys(t.foreignKeys))
  }

  /** One view's entry: its name and its columns in order, nullability
      defaulting to true. */
  function DescribeView(v: ViewCatalog): (r: ViewInfo)
    ensures r.name == v.name && |r.columns| == |v.columns|
    ensures forall k :: 0 <= k < |r.columns| ==> r.columns[k].name == v.columns[k].name && r.columns[k].typeName == v.columns[k].typeName
    ensures forall k :: 0 <= k < |r.columns| ==> (r.columns[k].nullable <==> v.columns[k].nullable != Some(false))
  {
    ViewInfo(v.name, seq(|v.columns|, k requires 0 <= k < |v.columns| =>
      ViewColumn(v.columns[k].name, v.columns[k].typeName, v.columns[k].nullable.GetOr(true))))
  }

  /** The payload `describe_sql_schema` returns: tables and views in
      inspector order, never re-sorted. */
  function Describe(insp: Inspector): (p: SchemaPayload)
    ensures |p.tables| == |insp.tables|
    ensures forall i :: 0 <= i < |p.tables| ==> p.tables[i].name == insp.tables[i].name
    ensures insp.views.None? ==> p.views == []
    ensures p.schema == insp.defaultSchema
    ensures forall i :: 0 <= i < |p.tables| ==> p.tables[i] == DescribeTable(insp.tables[i])
    ensures insp.views.Some? ==> |p.views| == |insp.views.value|
    ensures forall i :: 0 <= i < |p.views| ==> insp.views.Some? && p.views[i] == DescribeView(insp.views.value[i])
  {
    var views := insp.views.GetOr([]);
    SchemaPayload(
      insp.defaultSchema,
      seq(|insp.tables|, i requires 0 <= i < |insp.tables| => DescribeTable(insp.tables[i])),
      seq(|views|, i requires 0 <= i < |views| => DescribeView(views[i])))
  }

  /** The foreign-key loop of `describe_sql_schema`. */
  method ForeignKeyRows(fks: seq<RawForeignKey>) returns (rows: seq<ForeignKeyInfo>)
    ensures rows == FlattenForeignKeys(fks)
  {
    rows := [];
    var i := 0;
    while i < |fks|
      invariant 0 <= i <= |fks|
      invariant rows == FlattenForeignKeys(fks[..i])
    {
      var fk := fks[i];
      var pairs: seq<ForeignKeyInfo> := [];
      if fk.referredTable.Some? && fk.referredTable.value != [] {
        var n := if |fk.constrained| < |fk.referred| then |fk.constrained| else |fk.referred|;
        var j := 0;
        while j < n
          invariant 0 <= j <= n
          invariant |pairs| == j
          invariant forall k :: 0 <= k < j ==>
            pairs[k] == ForeignKeyInfo(fk.constrained[k], fk.referredTable.value, fk.referred[k])
        {
          pairs := pairs + [ForeignKeyInfo(fk.constrained[j], fk.referredTable.value, fk.referred[j])];
          j := j + 1;
        }
      }
      assert pairs == ForeignKeyPairs(fk);
      rows := rows + pairs;
      assert fks[..i + 1][..i] == fks[..i];
      i := i + 1;
    }
    assert fks[..|fks|] == fks;
  }

  /** The table loop of `describe_sql_schema`. */
  method TableEntries(catalog: seq<TableCatalog>) returns (tables: seq<TableInfo>)
    ensures |tables| == |catalog|
    ensures forall k :: 0 <= k < |catalog| ==> tables[k] == DescribeTable(catalog[k])
  {
    tables := [];
    var i := 0;
    while i < |catalog|
      invariant 0 <= i <= |catalog|
      invariant |tables| == i
      invariant forall k :: 0 <= k < i ==> tables[k] == DescribeTable(catalog[k])
    {
      var t := catalog[i];
      var fks := ForeignKeyRows(t.foreignKeys);
      assert TableInfo(t.name, DescribeColumns(t), fks) == DescribeTable(t);
      tables := tables + [TableInfo(t.name, DescribeColumns(t), fks)];
      i := i + 1;
    }
  }

  /** `describe_sql_schema`: walks the catalogue table by table, then view
      by view, appending to the payload lists. */
  method DescribeSqlSchema(insp: Inspector) returns (p: SchemaPayload)
    ensures p == Describe(insp)
  {
    var tables := TableEntries(insp.tables);
    var viewNames := if insp.views.Some? then insp.views.value else [];
    var views: seq<ViewInfo> := [];
    var i := 0;
    while i < |viewNames|
      invariant 0 <= i <= |viewNames|
      invariant |views| == i
      invariant forall k :: 0 <= k < i ==> views[k] == DescribeView(viewNames[k])
    {
      views := views + [DescribeView(viewNames[i])];
      i := i + 1;
    }
    ghost var d := Describe(insp);
    assert tables == d.tables;
    assert views == d.views;
    p := SchemaPayload(insp.defaultSchema, tables, views);
  }

  // ----- _summarise_schema -------------------------------------------------

  /** The nullability word of a column: "PK" for a primary key, otherwise
      "NULL" unless the column says `nullable` is falsy (a missing key counts
      as nullable). */
  function Descriptor(col: seq<(string, Json)>): string {
    if Truthy(GetOr(col, "primaryKey", JNull)) then "PK"
    else if Truthy(GetOr(col, "nullable", JBool(true))) then "NULL"
    else "NOT NULL"
  }

  /** `"<name> <type> <descriptor>"` for the column at position `j`. */
  function ColumnChunk(col: seq<(string, Json)>, j: nat): string {
    PyStr(Or(GetOr(col, "name", JNull), JStr("col_" + NatToString(j)))) + " " +
    PyStr(Or(GetOr(col, "type", JNull), JStr("unknown"))) + " " + Descriptor(col)
  }

  lemma EndsWithTail(a: string, b: string)
    ensures EndsWith(a + b, b)
  {
    assert (a + b)[|a + b| - |b|..] == b;
  }

  /** A primary key is always labelled "PK", whatever its nullability; a
      column that does not mention nullability is labelled "NULL". */
  lemma ChunkDescriptor(col: seq<(string, Json)>, j: nat)
    ensures Truthy(GetOr(col, "primaryKey", JNull)) ==> EndsWith(ColumnChunk(col, j), " PK")
    ensures !Truthy(GetOr(col, "primaryKey", JNull)) && Get(col, "nullable").None? ==>
      EndsWith(ColumnChunk(col, j), " NULL")
  {
    var head := PyStr(Or(GetOr(col, "name", JNull), JStr("col_" + NatToString(j)))) + " " +
                PyStr(Or(GetOr(col, "type", JNull), JStr("unknown")));
    var tail := " " + Descriptor(col);
    assert ColumnChunk(col, j) == head + tail;
    EndsWithTail(head, tail);
    if Truthy(GetOr(col, "primaryKey", JNull)) {
      assert tail == " PK";
    } else if Get(col, "nullable").None? {
      assert tail == " NULL";
    }
  }

  function Prepend(prefix: seq<string>, rest: Option<seq<string>>): Option<seq<string>> {
    if rest.Some? then Some(prefix + rest.value) else None
  }

  lemma PrependTwice(a: seq<string>, b: seq<string>, rest: Option<seq<string>>)
    ensures Prepend(a + b, rest) == Prepend(a, Prepend(b, rest))
  {
    if rest.Some? {
      assert (a + b) + rest.value == a + (b + rest.value);
    }
  }

  lemma PrependNothing(rest: Option<seq<string>>)
    ensures Prepend([], rest) == rest
  {
    if rest.Some? {
      assert [] + rest.value == rest.value;
    }
  }

  /** The chunks for columns `j..`: `None` when a column that is reached is
      not a mapping (the source's `.get` raises). */
  function ColumnChunks(cols: seq<Json>, j: nat, limit: int): Option<seq<string>>
    decreases |cols| - j
  {
    if j >= |cols| then Some([])
    else if j >= limit then Some(["..."])
    else if !cols[j].JObj? then None
    else Prepend([ColumnChunk(cols[j].fields, j)], ColumnChunks(cols, j + 1, limit))
  }

  function TableName(t: seq<(string, Json)>, i: nat): string {
    PyStr(Or(GetOr(t, "name", JNull), JStr("table_" + NatToString(i))))
  }

  /** One table's line: its name, a colon, then its chunks or "no
      columns"; `None` for a table that is not a mapping. */
  function TableLine(t: Json, i: nat, columnLimit: int): (r: Option<string>)
    ensures !t.JObj? ==> r.None?
    ensures r.Some? ==> StartsWith(r.value, TableName(t.fields, i) + ": ")
  {
    if !t.JObj? then None
    else match Iterate(Or(GetOr(t.fields, "columns", JNull), JArr([])))
      case None => None
      case Some(cols) =>
        match ColumnChunks(cols, 0, columnLimit)
        case None => None
        case Some(chunks) =>
          var head := TableName(t.fields, i) + ": ";
          var line := head + (if chunks == [] then "no columns" else Join(", ", chunks));
          assert line[..|head|] == head;
          Some(line)
  }

  function TableLines(tables: seq<Json>, i: nat, tableLimit: int, columnLimit: int): Option<seq<string>>
    decreases |tables| - i
  {
    if i >= |tables| then Some([])
    else if i >= tableLimit then Some(["..."])
    else match TableLine(tables[i], i, columnLimit)
      case None => None
      case Some(line) => Prepend([line], TableLines(tables, i + 1, tableLimit, columnLimit))
  }

  /** What `_summarise_schema` returns for a payload: `None` where the
      source raises (a payload that is not shaped like a schema). */
  function Summary(payload: Json, tableLimit: int, columnLimit: int): (r: Option<string>)
    ensures !payload.JObj? ==> r.None?
    ensures payload.JObj? && Iterate(Or(GetOr(payload.fields, "tables", JNull), JArr([]))) == Some([]) ==>
      r == Some("No tables discovered.")
  {
    if !payload.JObj? then None
    else match Iterate(Or(GetOr(payload.fields, "tables", JNull), JArr([])))
      case None => None
      case Some(tables) =>
        match TableLines(tables, 0, tableLimit, columnLimit)
        case None => None
        case Some(lines) => Some(if lines == [] then "No tables discovered." else Join("\n", lines))
  }

  function Min(a: int, b: int): int { if a < b then a else b }
  function Max(a: int, b: int): int { if a < b then b else a }

  /** Positions `j..` emit one chunk per column below the limit, then one
      "..." if columns remain past the limit. */
  lemma {:induction false} ColumnChunksBound(cols: seq<Json>, j: nat, limit: int)
    requires j <= |cols|
    ensures var r := ColumnChunks(cols, j, limit);
      r.Some? ==>
        |r.value| == Min(|cols|, Max(limit, j)) - j + (if |cols| > Max(limit, j) then 1 else 0) &&
        (|cols| > Max(limit, j) ==> r.value[|r.value| - 1] == "...")
    decreases |cols| - j
  {
    if j < |cols| && j < limit && cols[j].JObj? {
      ColumnChunksBound(cols, j + 1, limit);
    }
  }

  /** Tables `i..` emit one line per table below the limit, then one "..."
      if tables remain past the limit. */
  lemma {:induction false} TableLinesBound(tables: seq<Json>, i: nat, tableLimit: int, columnLimit: int)
    requires i <= |tables|
    ensures var r := TableLines(tables, i, tableLimit, columnLimit);
      r.Some? ==>
        |r.value| == Min(|tables|, Max(tableLimit, i)) - i + (if |tables| > Max(tableLimit, i) then 1 else 0) &&
        (|tables| > Max(tableLimit, i) ==> r.value[|r.value| - 1] == "...")
    decreases |tables| - i
  {
    if i < |tables| && i < tableLimit && TableLine(tables[i], i, columnLimit).Some? {
      TableLinesBound(tables, i + 1, tableLimit, columnLimit);
    }
  }

  /** The column loop of `_summarise_schema`: one chunk per column below
      the limit, then "..." if columns remain. */
  method SummariseColumns(cols: seq<Json>, columnLimit: int) returns (r: Option<seq<string>>)
    ensures r == ColumnChunks(cols, 0, columnLimit)
  {
    var chunks: seq<string> := [];
    var j := 0;
    PrependNothing(ColumnChunks(cols, 0, columnLimit));
    while j < |cols|
      invariant 0 <= j <= |cols|
      invariant Prepend(chunks, ColumnChunks(cols, j, columnLimit)) == ColumnChunks(cols, 0, columnLimit)
      decreases |cols| - j
    {
      if j >= columnLimit {
        chunks := chunks + ["..."];
        return Some(chunks);
      }
      if !cols[j].JObj? {
        return None;
      }
      PrependTwice(chunks, [ColumnChunk(cols[j].fields, j)], ColumnChunks(cols, j + 1, columnLimit));
      chunks := chunks + [ColumnChunk(cols[j].fields, j)];
      j := j + 1;
    }
    assert chunks + [] == chunks;
    return Some(chunks);
  }

  /** One table's line: `"<name>: <chunks>"`, or "no columns". */
  method SummariseTable(t: Json, i: nat, columnLimit: int) returns (r: Option<string>)
    ensures r == TableLine(t, i, columnLimit)
  {
    if !t.JObj? { return None; }
    var colIter := Iterate(Or(GetOr(t.fields, "columns", JNull), JArr([])));
    if colIter.None? { return None; }
    var chunks := SummariseColumns(colIter.value, columnLimit);
    if chunks.None? { return None; }
    r := Some(TableName(t.fields, i) + ": " + (if chunks.value == [] then "no columns" else Join(", ", chunks.value)));
  }

  /** `_summarise_schema`: the loop over tables (stopping with "..." at the
      table limit) around the loop over columns (stopping with "..." at the
      column limit). `None` where the source raises. */
  method SummariseSchema(payload: Json, tableLimit: int, columnLimit: int) returns (r: Option<string>)
    ensures r == Summary(payload, tableLimit, columnLimit)
  {
    if !payload.JObj? { return None; }
    var iter := Iterate(Or(GetOr(payload.fields, "tables", JNull), JArr([])));
    if iter.None? { return None; }
    var tables := iter.value;
    var lines: seq<string> := [];
    var i := 0;
    PrependNothing(TableLines(tables, 0, tableLimit, columnLimit));
    while i < |tables|
      invariant 0 <= i <= |tables|
      invariant Prepend(lines, TableLines(tables, i, tableLimit, columnLimit)) == TableLines(tables, 0, tableLimit, columnLimit)
      decreases |tables| - i
    {
      if i >= tableLimit {
        lines := lines + ["..."];
        assert TableLines(tables, 0, tableLimit, columnLimit) == Some(lines);
        break;
      }
      var line := SummariseTable(tables[i], i, columnLimit);
      if line.None? { return None; }
      PrependTwice(lines, [line.value], TableLines(tables, i + 1, tableLimit, columnLimit));
      lines := lines + [line.value];
      i := i + 1;
    }
    assert lines + [] == lines;
    assert TableLines(tables, 0, tableLimit, columnLimit) == Some(lines);
    r := Some(if lines == [] then "No tables discovered." else Join("\n", lines));
  }
}
