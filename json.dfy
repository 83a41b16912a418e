/**
 * The JSON values the HackTheBox API returns and the CLI sends, with Python's
 * notion of truthiness, which the CLI uses for every optional field.
 */
module Json {
  import opened Wrappers
  import opened PyStr

  /** A decoded JSON value; numbers are integers, objects are Python dicts. */
  datatype Json =
    | JNull
    | JBool(b: bool)
    | JInt(i: int)
    | JStr(s: string)
    | JArr(items: seq<Json>)
    | JObj(fields: map<string, Json>)

  /** `bool(v)` in Python. */
  predicate Truthy(v: Json) {
    match v
    case JNull => false
    case JBool(b) => b
    case JInt(i) => i != 0
    case JStr(s) => s != ""
    case JArr(items) => items != []
    case JObj(fields) => fields != map[]
  }

  /** `d.get(key)` */
  function DictGet(d: map<string, Json>, key: string): Option<Json> {
    if key in d then Some(d[key]) else None
  }

  /** `d.get(key, default)` */
  function GetOr(d: map<string, Json>, key: string, default: Json): Json {
    if key in d then d[key] else default
  }

  /** `d.get(key, 'N/A') or 'N/A'`: the value shown in a table cell. */
  function CellOrNA(d: map<string, Json>, key: string): (r: Json)
    ensures Truthy(r)
    ensures key in d && Truthy(d[key]) ==> r == d[key]
    ensures !(key in d && Truthy(d[key])) ==> r == JStr("N/A")
  {
    var v := GetOr(d, key, JStr("N/A"));
    if Truthy(v) then v else JStr("N/A")
  }

  /** `"Yes" if d.get(key) else "No"` */
  function YesNo(d: map<string, Json>, key: string): (r: string)
    ensures r == "Yes" <==> key in d && Truthy(d[key])
    ensures r == "Yes" || r == "No"
  {
    if key in d && Truthy(d[key]) then "Yes" else "No"
  }

  /**
   * `f"{v}"` for a scalar: `None`, `True`/`False`, the decimal integer, the
   * string itself. Arrays and objects render as the empty string here.
   */
  function Format(v: Json): string {
    match v
    case JNull => "None"
    case JBool(b) => if b then "True" else "False"
    case JInt(i) => IntToString(i)
    case JStr(s) => s
    case _ => ""
  }
}
