/**
 * The parsed query string an Express handler sees as `req.query`: string
 * values, arrays for repeated keys, and nested objects for bracketed keys
 * such as `averageCost[lte]=10000`; with the JavaScript coercions the core
 * applies to them (truthiness, `String(v)`) and `JSON.stringify`.
 */
module QueryString {
  import opened Wrappers
  import opened JsText
  import Hex

  datatype QValue = Str(s: string) | Arr(items: seq<QValue>) | Obj(fields: seq<Entry>)

  datatype Entry = Entry(key: string, value: QValue)

  /** A JavaScript object as an ordered list of entries (its key order). */
  type Query = seq<Entry>

  function Keys(q: Query): (ks: seq<string>)
    ensures |ks| == |q| && forall i :: 0 <= i < |q| ==> ks[i] == q[i].key
  {
    if q == [] then [] else [q[0].key] + Keys(q[1..])
  }

  /** An object never holds the same key twice. */
  predicate DistinctKeys(q: Query) {
    forall i, j :: 0 <= i < j < |q| ==> q[i].key != q[j].key
  }

  /** `q[k]`, `None` for `undefined`. */
  function Get(q: Query, k: string): (v: Option<QValue>)
    ensures v.None? <==> k !in Keys(q)
    ensures v.Some? ==> exists i :: 0 <= i < |q| && q[i] == Entry(k, v.value)
  {
    if q == [] then None else if q[0].key == k then Some(q[0].value) else Get(q[1..], k)
  }

  /** `delete q[k]`: the entries of `q` other than `k`, in their order. */
  function Delete(q: Query, k: string): (r: Query)
    ensures forall e :: e in r <==> e in q && e.key != k
    ensures DistinctKeys(q) ==> DistinctKeys(r)
    ensures k !in Keys(q) ==> r == q
  {
    if q == [] then []
    else if q[0].key == k then Delete(q[1..], k)
    else [q[0]] + Delete(q[1..], k)
  }

  /** Truthiness of `req.query.x`: `undefined` and the empty string are falsy, arrays and objects truthy. */
  predicate Truthy(v: Option<QValue>) {
    match v
    case None => false
    case Some(Str(s)) => s != ""
    case Some(_) => true
  }

  /** `String(v)`: `undefined` for an absent value, arrays joined by commas, objects as `[object Object]`. */
  function ToJsString(v: Option<QValue>): string {
    match v
    case None => "undefined"
    case Some(x) => ValueString(x)
  }

  function ValueString(x: QValue): string
    decreases x, 1
  {
    match x
    case Str(s) => s
    case Arr(items) => Join(ItemStrings(items), ",")
    case Obj(_) => "[object Object]"
  }

  function ItemStrings(items: seq<QValue>): (r: seq<string>)
    ensures |r| == |items|
    decreases items, 0
  {
    if items == [] then [] else [ValueString(items[0])] + ItemStrings(items[1..])
  }

  /** `JSON.stringify(q)` for an object of query values. */
  function Stringify(q: Query): string
    decreases q, 2
  {
    "{" + Members(q) + "}"
  }

  function Members(q: Query): string
    decreases q, 1
  {
    if q == [] then ""
    else
      var member := Quote(q[0].key) + ":" + StringifyValue(q[0].value);
      if |q| == 1 then member else member + "," + Members(q[1..])
  }

  function StringifyValue(x: QValue): string
    decreases x, 3
  {
    match x
    case Str(s) => Quote(s)
    case Arr(items) => "[" + Elements(items) + "]"
    case Obj(fields) => Stringify(fields)
  }

  function Elements(items: seq<QValue>): string
    decreases items, 0
  {
    if items == [] then ""
    else if |items| == 1 then StringifyValue(items[0])
    else StringifyValue(items[0]) + "," + Elements(items[1..])
  }

  /** A JSON string literal as `JSON.stringify` writes it. */
  function Quote(s: string): string {
    "\"" + Escape(s) + "\""
  }

  function Escape(s: string): string {
    if s == [] then "" else EscapeChar(s[0]) + Escape(s[1..])
  }

  function EscapeChar(c: char): string {
    if c == '"' then "\\\""
    else if c == '\\' then "\\\\"
    else if c == '\U{8}' then "\\b"
    else if c == '\U{C}' then "\\f"
    else if c == '\n' then "\\n"
    else if c == '\r' then "\\r"
    else if c == '\t' then "\\t"
    else if c < ' ' then "\\u00" + Hex.Encode([c as int])
    else [c]
  }
}
