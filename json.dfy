/** JSON values as Python's `json` module and PyJWT hand them to the code:
    `None`, booleans, integers, strings, lists and dicts. */
module Json {

  datatype Value =
    | Null
    | Bool(b: bool)
    | Num(n: int)
    | Str(s: string)
    | Arr(items: seq<Value>)
    | Obj(fields: map<string, Value>)

  /** A decoded JSON object, the `dict` that `json.loads` returns for `{...}`. */
  type Object = map<string, Value>

  /** `d.get(key)`: the value under `key`, or `None` when the key is absent.
      An explicit JSON `null` and an absent key read the same. */
  function Get(d: Object, key: string): Value
  {
    if key in d then d[key] else Null
  }

  /** Python truthiness of a JSON value: `None`, `False`, `0`, `''`, `[]`
      and `{}` are false, everything else is true. */
  predicate Truthy(v: Value) {
    match v
    case Null => false
    case Bool(b) => b
    case Num(n) => n != 0
    case Str(s) => s != ""
    case Arr(items) => items != []
    case Obj(fields) => fields != map[]
  }
}
