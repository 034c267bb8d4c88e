/** JSON values as Python's `json` module hands them to the server, and the two
    Python operations the server applies to them: truth testing (`if data`) and
    `dict.get`, which raises when its receiver is not a dict. */
module PyJson {
  import opened Wrappers

  /** A decoded JSON value. Numbers are kept as their literal text: the server
      never computes with them, it only copies them into its record. */
  datatype Json =
    | Null
    | Bool(b: bool)
    | Num(literal: string)
    | Str(s: string)
    | Arr(items: seq<Json>)
    | Obj(fields: map<string, Json>)

  /** A Python dict literal: keys in insertion order, which `json.dumps` keeps. */
  type Dict = seq<(string, Json)>

  /** `json.dumps` with fixed options; its exact output is not modelled. */
  type Dumps = Dict -> string

  const EmptyObject: Json := Obj(map[])

  /** The one exception the normalisation can raise: `AttributeError` from
      calling `.get` on a value that is not a dict. */
  datatype PyError = NoAttributeGet(receiver: Json)

  /** Name of the Python type `json.loads` gives the value. */
  function TypeName(v: Json): string {
    match v
    case Null => "NoneType"
    case Bool(_) => "bool"
    case Num(lit) => if '.' in lit || 'e' in lit || 'E' in lit then "float" else "int"
    case Str(_) => "str"
    case Arr(_) => "list"
    case Obj(_) => "dict"
  }

  /** `str(e)` for the exception. */
  function ErrorText(e: PyError): string {
    "'" + TypeName(e.receiver) + "' object has no attribute 'get'"
  }

  /** The digits of a number literal before its exponent. */
  function Mantissa(lit: string): (m: string)
    ensures |m| <= |lit| && m == lit[..|m|]
    ensures 'e' !in m && 'E' !in m
  {
    if lit == [] || lit[0] == 'e' || lit[0] == 'E' then [] else [lit[0]] + Mantissa(lit[1..])
  }

  /** Python truth value: None, False, zero, "", [] and {} are false. */
  predicate Truthy(v: Json) {
    match v
    case Null => false
    case Bool(b) => b
    case Num(lit) => exists c :: c in Mantissa(lit) && '1' <= c <= '9'
    case Str(s) => s != []
    case Arr(xs) => xs != []
    case Obj(m) => m != map[]
  }

  /** `if data:` on what the request helper returned (None on failure). */
  predicate TruthyResult(data: Option<Json>) {
    data.Some? && Truthy(data.value)
  }

  /** `d.get(key, default)` on a dict. */
  function DictGet(d: map<string, Json>, key: string, default: Json): Json {
    if key in d then d[key] else default
  }

  /** `receiver.get(key, default)` on any value: raises unless it is a dict. */
  function GetOr(receiver: Json, key: string, default: Json): Result<Json, PyError> {
    if receiver.Obj? then Success(DictGet(receiver.fields, key, default))
    else Failure(NoAttributeGet(receiver))
  }
}
