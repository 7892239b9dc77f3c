/** Shared value types: optional values, results with an error, and the JSON
    values that the services exchange, with the Python operations applied to
    them (`bool(x)`, `d.get(k)`, `a or b`, iteration and `str(x)`). */
module Common {
  import opened Strings

  /** A value that may be absent (Python's `None`). */
  datatype Option<+T> = None | Some(value: T) {
    function GetOr(default: T): T {
      match this
      case Some(v) => v
      case None => default
    }
  }

  /** The outcome of an operation that raises in the source: `Err` carries
      what the raised exception says. */
  datatype Result<+T, +E> = Ok(value: T) | Err(error: E)

  /** A sequence without repeated elements. */
  predicate Distinct<T(==)>(xs: seq<T>) {
    forall i, j :: 0 <= i < j < |xs| ==> xs[i] != xs[j]
  }

  lemma DistinctCons<T>(a: T, xs: seq<T>)
    requires Distinct(xs) && a !in xs
    ensures Distinct([a] + xs)
  {
    var ys := [a] + xs;
    forall i, j | 0 <= i < j < |ys| ensures ys[i] != ys[j] {
      if i == 0 {
        assert ys[j] == xs[j - 1];
      } else {
        assert ys[i] == xs[i - 1] && ys[j] == xs[j - 1];
      }
    }
  }

  /** An HTTP error response raised by an endpoint: status code and detail. */
  datatype HttpError = HttpError(status: nat, detail: string)

  /** A decoded JSON document. An object keeps its entries in insertion
      order, one entry per key, as `json.loads` builds a dict; numbers are
      integers (fractional numbers are not modelled). */
  datatype Json =
    | JNull
    | JBool(b: bool)
    | JNum(n: int)
    | JStr(s: string)
    | JArr(items: seq<Json>)
    | JObj(fields: seq<(string, Json)>)

  /** Python truthiness of a decoded JSON value. */
  predicate Truthy(j: Json) {
    match j
    case JNull => false
    case JBool(b) => b
    case JNum(n) => n != 0
    case JStr(s) => s != []
    case JArr(items) => items != []
    case JObj(fields) => fields != []
  }

  /** `d.get(key)` on a JSON object: `None` for a missing key. */
  function Get(fields: seq<(string, Json)>, key: string): Option<Json> {
    if fields == [] then None
    else if fields[0].0 == key then Some(fields[0].1)
    else Get(fields[1..], key)
  }

  /** `d.get(key, default)`. */
  function GetOr(fields: seq<(string, Json)>, key: string, default: Json): Json {
    Get(fields, key).GetOr(default)
  }

  /** Python's `a or b`. */
  function Or(a: Json, b: Json): Json {
    if Truthy(a) then a else b
  }

  /** `for x in value`: a list yields its items, a string its characters, a
      dict its keys; numbers and booleans are not iterable (`TypeError`),
      shown as `None`. */
  function Iterate(j: Json): (r: Option<seq<Json>>)
    ensures j.JArr? ==> r == Some(j.items)
    ensures j.JNum? || j.JBool? || j.JNull? <==> r.None?
  {
    match j
    case JArr(items) => Some(items)
    case JStr(s) => Some(seq(|s|, i requires 0 <= i < |s| => JStr([s[i]])))
    case JObj(fields) => Some(seq(|fields|, i requires 0 <= i < |fields| => JStr(fields[i].0)))
    case _ => None
  }

  /** `type(value).__name__`. */
  function TypeName(j: Json): string {
    match j
    case JNull => "NoneType"
    case JBool(_) => "bool"
    case JNum(_) => "int"
    case JStr(_) => "str"
    case JArr(_) => "list"
    case JObj(_) => "dict"
  }

  /** `str(value)`. Containers are rendered as Python's `repr` does, except
      that the quoting of strings inside them escapes nothing. */
  function PyStr(j: Json): string
    decreases j, 1
  {
    match j
    case JNull => "None"
    case JBool(b) => if b then "True" else "False"
    case JNum(n) => IntToString(n)
    case JStr(s) => s
    case JArr(items) => "[" + ReprItems(j, items) + "]"
    case JObj(fields) => "{" + ReprFields(j, fields) + "}"
  }

  /** `repr(value)` inside a container. */
  function PyRepr(j: Json): string
    decreases j, 2
  {
    if j.JStr? then "'" + j.s + "'" else PyStr(j)
  }

  function ReprItems(parent: Json, items: seq<Json>): string
    requires forall x :: x in items ==> x < parent
    decreases parent, 0, |items|
  {
    if items == [] then []
    else
      assert items[0] in items;
      if |items| == 1 then PyRepr(items[0])
      else
        assert forall x :: x in items[1..] ==> x in items;
        PyRepr(items[0]) + ", " + ReprItems(parent, items[1..])
  }

  function ReprFields(parent: Json, fields: seq<(string, Json)>): string
    requires forall p :: p in fields ==> p.1 < parent
    decreases parent, 0, |fields|
  {
    if fields == [] then []
    else
      var entry := "'" + fields[0].0 + "': " + PyRepr(fields[0].1);
      if |fields| == 1 then entry else entry + ", " + ReprFields(parent, fields[1..])
  }
}
