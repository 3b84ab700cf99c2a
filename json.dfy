/** JSON values as the back end holds them after `json.loads`, with Python's
    truthiness, `dict.get` and `str()` on them. */
module JsonValue {
  import opened Common
  import opened Text

  /** Numbers are integers; an object keeps its members in document order. */
  datatype Json =
    | JNull
    | JBool(b: bool)
    | JNum(n: int)
    | JStr(s: string)
    | JArr(items: seq<Json>)
    | JObj(members: seq<Member>)

  datatype Member = Member(key: string, value: Json)

  /** Python `bool(v)`. */
  predicate Truthy(j: Json) {
    match j
    case JNull => false
    case JBool(b) => b
    case JNum(n) => n != 0
    case JStr(s) => s != []
    case JArr(items) => items != []
    case JObj(members) => members != []
  }

  /** JavaScript truthiness of the same value once parsed in the browser:
      unlike Python, an empty array or object is truthy. */
  predicate JsTruthy(j: Json) {
    match j
    case JNull => false
    case JBool(b) => b
    case JNum(n) => n != 0
    case JStr(s) => s != []
    case JArr(_) => true
    case JObj(_) => true
  }

  /** The value stored under `key`; of repeated keys the last one counts,
      as `json.loads` keeps it. */
  function Lookup(members: seq<Member>, key: string): (r: Option<Json>)
    ensures r.None? <==> forall k :: 0 <= k < |members| ==> members[k].key != key
  {
    if members == [] then None
    else if members[|members| - 1].key == key then Some(members[|members| - 1].value)
    else Lookup(members[..|members| - 1], key)
  }

  /** Python `d.get(key, default)` on an object. */
  function Get(members: seq<Member>, key: string, default: Json): Json {
    Lookup(members, key).GetOr(default)
  }

  /** Python `str(v)`: a string is itself, anything else its `repr`. */
  function PyStr(j: Json): string {
    if j.JStr? then j.s else Repr(j)
  }

  /** Python `repr(v)` (strings are quoted without escaping). */
  function Repr(j: Json): string
    decreases j
  {
    match j
    case JNull => "None"
    case JBool(b) => if b then "True" else "False"
    case JNum(n) => IntToString(n)
    case JStr(s) => "'" + s + "'"
    case JArr(items) => "[" + ReprItems(items) + "]"
    case JObj(members) => "{" + ReprMembers(members) + "}"
  }

  function ReprItems(items: seq<Json>): string
    decreases items
  {
    if items == [] then ""
    else if |items| == 1 then Repr(items[0])
    else Repr(items[0]) + ", " + ReprItems(items[1..])
  }

  function ReprMembers(members: seq<Member>): string
    decreases members
  {
    if members == [] then ""
    else
      var m := members[0];
      var one := "'" + m.key + "': " + Repr(m.value);
      if |members| == 1 then one else one + ", " + ReprMembers(members[1..])
  }
}
