/** The parsed JSON request bodies the route handlers work on, with the three
    pieces of JavaScript semantics they rely on: truthiness, property reads
    (plain and optional-chained) and template-literal string conversion.
    Numbers are integers only. */
module Json {
  import opened Common

  datatype Json =
    | JNull
    | JBool(b: bool)
    | JNum(n: int)
    | JStr(s: string)
    | JArr(items: seq<Json>)
    | JObj(fields: map<string, Json>)

  /** JavaScript truthiness; None stands for `undefined`. Arrays and objects
      are truthy even when empty. */
  predicate Truthy(v: Option<Json>) {
    match v
    case None => false
    case Some(JNull) => false
    case Some(JBool(b)) => b
    case Some(JNum(n)) => n != 0
    case Some(JStr(s)) => s != ""
    case Some(_) => true
  }

  /** `v.key` on a value that is not null: only objects have the keys the
      routes read. */
  function Prop(v: Json, key: string): (r: Option<Json>)
    ensures r.Some? <==> v.JObj? && key in v.fields
  {
    if v.JObj? && key in v.fields then Some(v.fields[key]) else None
  }

  /** `v?.key`: undefined when `v` is null or undefined. */
  function OptProp(v: Option<Json>, key: string): (r: Option<Json>)
    ensures r.Some? ==> v.Some? && v.value.JObj? && key in v.value.fields && r.value == v.value.fields[key]
  {
    match v
    case None => None
    case Some(JNull) => None
    case Some(o) => Prop(o, key)
  }

  /** The value found by following a path of keys through nested objects. */
  function At(v: Json, path: seq<string>): Option<Json> {
    if path == [] then Some(v)
    else if v.JObj? && path[0] in v.fields then At(v.fields[path[0]], path[1..])
    else None
  }

  /** `${v}` for a JSON value: decimal integers, `true`/`false`, `null`,
      `undefined`, arrays joined by commas (null elements as the empty
      string) and plain objects as "[object Object]". */
  function ToJsString(v: Option<Json>): string
    decreases v
  {
    match v
    case None => "undefined"
    case Some(j) => JsonString(j)
  }

  function JsonString(j: Json): string
    decreases j, 1
  {
    match j
    case JNull => "null"
    case JBool(b) => if b then "true" else "false"
    case JNum(n) => IntToString(n)
    case JStr(s) => s
    case JArr(items) => JoinItems(items, j)
    case JObj(_) => "[object Object]"
  }

  /** Array.prototype.join(",") over the items of `parent`. */
  function JoinItems(items: seq<Json>, ghost parent: Json): string
    requires forall k :: 0 <= k < |items| ==> items[k] < parent
    decreases parent, 0, |items|
  {
    if items == [] then ""
    else
      var first := if items[0].JNull? then "" else JsonString(items[0]);
      if |items| == 1 then first else first + "," + JoinItems(items[1..], parent)
  }
}
