/** The Python values that flow through the roadmap pipeline: decoded JSON documents,
    plus the `datetime` objects that pydantic's `.dict()` leaves inside a dictionary. */
module Json {

  import Text

  datatype Value =
    | VNull
    | VBool(b: bool)
    | VInt(i: int)
    | VFloat(r: real)
    | VStr(s: string)
    | VList(items: seq<Value>)
    | VDict(fields: map<string, Value>)
    | VDateTime(iso: string)

  /** A value `json.dumps` accepts: no `datetime` anywhere inside it. */
  predicate JsonCompatible(v: Value)
  {
    match v
    case VList(xs) => forall i :: 0 <= i < |xs| ==> JsonCompatible(xs[i])
    case VDict(m) => forall k :: k in m ==> JsonCompatible(m[k])
    case VDateTime(_) => false
    case _ => true
  }

  /** A value `json.loads` can produce and `json.dumps` can write. */
  type Json = v: Value | JsonCompatible(v) witness VNull

  /** A JSON object as Python holds it: a `dict` with string keys. */
  type Dict = map<string, Json>

  /** A Python list of JSON values is itself JSON. */
  function ListOf(xs: seq<Json>): (v: Json)
    ensures v == VList(xs)
  {
    VList(xs)
  }

  /** A Python dict of JSON values is itself JSON. */
  function DictOf(m: Dict): (v: Json)
    ensures v == VDict(m)
  {
    VDict(m)
  }

  /** Python truthiness: `None`, `False`, zero, and empty strings, lists and dicts are falsy. */
  predicate Truthy(v: Value)
  {
    match v
    case VNull => false
    case VBool(b) => b
    case VInt(i) => i != 0
    case VFloat(r) => r != 0.0
    case VStr(s) => s != ""
    case VList(xs) => xs != []
    case VDict(m) => m != map[]
    case VDateTime(_) => true
  }

  /** `d.get(key, default)`. */
  function GetOr(d: Dict, key: string, default: Json): Json
  {
    if key in d then d[key] else default
  }

  /** The text an f-string inserts for `v`, that is `str(v)`. Scalars are spelled out;
      for a float, a list or a dict Python prints its `repr`, which `repr` stands for. */
  function Display(v: Json, repr: Json -> string): string
  {
    match v
    case VNull => "None"
    case VBool(b) => if b then "True" else "False"
    case VInt(i) => Text.IntToString(i)
    case VStr(s) => s
    case _ => repr(v)
  }
}
