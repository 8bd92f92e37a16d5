/** Decoded JSON values as the Python handler sees them after `resp.json()`,
    with the bits of Python semantics the handler relies on: truthiness,
    `dict.get`, `== 0`, the `or` operator and the message of an
    AttributeError. */
module PyJson {

  /** A decoded JSON value. JSON numbers are modelled as integers only. */
  datatype Json =
    | Null
    | Bool(b: bool)
    | Int(i: int)
    | Str(s: string)
    | List(items: seq<Json>)
    | Dict(fields: map<string, Json>)

  /** Python truthiness: None, False, 0, "", [] and {} are false. */
  predicate Truthy(j: Json) {
    match j
    case Null => false
    case Bool(b) => b
    case Int(i) => i != 0
    case Str(s) => s != ""
    case List(items) => |items| > 0
    case Dict(fields) => |fields| > 0
  }

  /** `obj.get(key)` on a dict: a missing key reads as None. */
  function Get(fields: map<string, Json>, key: string): Json {
    if key in fields then fields[key] else Null
  }

  /** `value == 0` in Python; `False == 0` holds there too. */
  predicate EqualsZero(j: Json) {
    j == Int(0) || j == Bool(false)
  }

  /** The name Python reports for the type of a decoded value. */
  function TypeName(j: Json): string {
    match j
    case Null => "NoneType"
    case Bool(_) => "bool"
    case Int(_) => "int"
    case Str(_) => "str"
    case List(_) => "list"
    case Dict(_) => "dict"
  }

  /** `str(e)` of the AttributeError raised by `j.attr` when `j` lacks it. */
  function NoAttributeMessage(j: Json, attr: string): string {
    "'" + TypeName(j) + "' object has no attribute '" + attr + "'"
  }

  /** `xs[0] or xs[1] or ... or xs[n-1]`: the first truthy operand, or the
      last operand when none is truthy. */
  function OrChain(xs: seq<Json>): (r: Json)
    requires |xs| > 0
    ensures Truthy(r) <==> exists i :: 0 <= i < |xs| && Truthy(xs[i])
    ensures Truthy(r) ==>
      exists i :: 0 <= i < |xs| && xs[i] == r && forall k :: 0 <= k < i ==> !Truthy(xs[k])
    ensures !Truthy(r) ==> r == xs[|xs| - 1]
    decreases |xs|
  {
    if |xs| == 1 || Truthy(xs[0]) then xs[0] else OrChain(xs[1..])
  }
}
