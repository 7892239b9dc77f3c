/** backend/agent/agent_new/sql_tool.py: `_serialise_sql_value` and the row
    window of `execute_raw_sql_query`. The database itself is an input: what
    executing the statement yields. */
module SqlQuery {
  import opened Common
  import opened Strings
  import opened SqlSession

  /** A value as the database driver hands it over. */
  datatype SqlValue =
    | VNone
    | VStr(s: string)
    | VInt(i: int)
    | VFloat(repr: string)
    | VBool(b: bool)
      /** A date, datetime or time; `iso` is its `isoformat()`. */
    | VTemporal(iso: string)
      /** A `Decimal`; `text` is `str(value)`. */
    | VDecimal(text: string)
      /** Bytes; `utf8` is the result of `decode("utf-8")`, `None` when the
          bytes are not valid UTF-8. */
    | VBytes(data: seq<bv8>, utf8: Option<string>)
      /** Anything else; `json` is `Some` when `json.dumps` accepts it, and
          `text` is `str(value)`. */
    | VOther(json: Option<Json>, text: string)

  /** The values `json.dumps` can send as they are. */
  predicate JsonReady(v: SqlValue) {
    v.VNone? || v.VStr? || v.VInt? || v.VFloat? || v.VBool? || (v.VOther? && v.json.Some?)
  }

  function HexDigit(d: bv8): char
    requires d < 16
  {
    "0123456789abcdef"[d as int]
  }

  /** `bytes.hex()`: two lower-case hex digits per byte. */
  function Hex(data: seq<bv8>): (r: string)
    ensures |r| == 2 * |data|
  {
    if data == [] then []
    else [HexDigit(data[0] >> 4), HexDigit(data[0] & 15)] + Hex(data[1..])
  }

  /** `_serialise_sql_value`: turn a driver value into one JSON can carry. */
  function Serialise(v: SqlValue): (r: SqlValue)
    ensures JsonReady(r)
    ensures JsonReady(v) ==> r == v
    ensures v.VTemporal? ==> r == VStr(v.iso)
    ensures v.VDecimal? ==> r == VStr(v.text)
    ensures v.VBytes? && v.utf8.Some? ==> r == VStr(v.utf8.value)
    ensures v.VBytes? && v.utf8.None? ==> r == VStr(Hex(v.data))
    ensures v.VOther? && v.json.None? ==> r == VStr(v.text)
  {
    match v
    case VNone => VNone
    case VStr(_) => v
    case VInt(_) => v
    case VFloat(_) => v
    case VBool(_) => v
    case VTemporal(iso) => VStr(iso)
    case VDecimal(text) => VStr(text)
    case VBytes(data, utf8) => if utf8.Some? then VStr(utf8.value) else VStr(Hex(data))
    case VOther(json, text) => if json.Some? then v else VStr(text)
  }

  function SerialiseRow(row: seq<SqlValue>): (r: seq<SqlValue>)
    ensures |r| == |row| && forall i :: 0 <= i < |r| ==> r[i] == Serialise(row[i])
  {
    seq(|row|, i requires 0 <= i < |row| => Serialise(row[i]))
  }

  /** What executing the statement yields: a cursor with column names and
      all the rows it would produce, a statement without rows (with the
      driver's `rowcount`, possibly `None`), or a database error. */
  datatype StatementOutcome =
    | Rows(columns: seq<string>, cursor: seq<seq<SqlValue>>)
    | Ack(rowcount: Option<int>)
    | Failed(message: string)

  datatype QueryPayload =
    | RowsPayload(columns: seq<string>, rows: seq<seq<SqlValue>>, rowCount: nat, hasMore: bool)
    | AckPayload(ackCount: int, message: string)

  /** `execute_raw_sql_query`: a blank statement or a non-positive limit is
      refused before the database is touched; otherwise `limit + 1` rows
      are fetched, at most `limit` are returned, and `hasMore` reports
      whether the extra row was there. */
  function ExecuteRawSqlQuery(query: string, limit: int, outcome: StatementOutcome)
    : (r: Result<QueryPayload, SqlError>)
    ensures IsBlank(query) ==> r == Err(QueryRequired)
    ensures !IsBlank(query) && limit <= 0 ==> r == Err(LimitNotPositive)
    ensures r.Ok? ==> limit > 0
    ensures r.Ok? && outcome.Rows? ==>
      var cursor := outcome.cursor;
      r.value.RowsPayload? &&
      r.value.rowCount == |r.value.rows| <= limit &&
      |r.value.rows| == (if |cursor| < limit then |cursor| else limit) &&
      (forall i :: 0 <= i < |r.value.rows| ==> r.value.rows[i] == SerialiseRow(cursor[i])) &&
      (r.value.hasMore <==> |cursor| > limit) &&
      r.value.columns == outcome.columns
    ensures r.Ok? && outcome.Ack? ==>
      r.value == AckPayload(outcome.rowcount.GetOr(0), "Query executed successfully.")
    ensures !IsBlank(query) && limit > 0 && outcome.Failed? ==> r == Err(Database(outcome.message))
  {
    if Strip(query) == [] then Err(QueryRequired)
    else if limit <= 0 then Err(LimitNotPositive)
    else match outcome
      case Failed(message) => Err(Database(message))
      case Ack(rowcount) => Ok(AckPayload(rowcount.GetOr(0), "Query executed successfully."))
      case Rows(columns, cursor) => Ok(Fetched(columns, cursor, limit))
  }

  /** `fetchmany(limit + 1)`, then the first `limit` of those rows
      serialised, and whether the extra row came back. */
  function Fetched(columns: seq<string>, cursor: seq<seq<SqlValue>>, limit: nat): (p: QueryPayload)
    requires limit > 0
    ensures p.RowsPayload? && p.columns == columns
    ensures p.rowCount == |p.rows| == (if |cursor| < limit then |cursor| else limit)
    ensures forall i :: 0 <= i < |p.rows| ==> p.rows[i] == SerialiseRow(cursor[i])
    ensures p.hasMore <==> |cursor| > limit
  {
    var fetched := cursor[..if |cursor| < limit + 1 then |cursor| else limit + 1];
    var kept := fetched[..if |fetched| < limit then |fetched| else limit];
    var rows := seq(|kept|, i requires 0 <= i < |kept| => SerialiseRow(kept[i]));
    RowsPayload(columns, rows, |rows|, |fetched| > limit)
  }
}
