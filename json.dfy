/**
  JSON-like values: the records the app's collectors build, the snapshot it
  posts, and the `data` column the server's dashboard reads back.

  JavaScript's `undefined` and `null` are both `Null` here, and numbers are
  mathematical integers. `Option` is the usual optional value.
 */
module Json {

  datatype Option<T> = None | Some(value: T)

  datatype Value =
    | Null
    | Bool(b: bool)
    | Num(n: int)
    | Str(s: string)
    | Arr(items: seq<Value>)
    | Obj(fields: map<string, Value>)

  /** JavaScript truthiness, as in `if (v)` and `v || w`. */
  predicate JsTruthy(v: Value) {
    match v
    case Null => false
    case Bool(b) => b
    case Num(n) => n != 0
    case Str(s) => s != ""
    case Arr(_) => true
    case Obj(_) => true
  }

  /** JavaScript's `a || b`: the first operand when it is truthy, else the second. */
  function JsOr(a: Value, b: Value): (r: Value) {
    if JsTruthy(a) then a else b
  }

  /** Python truthiness, as in `if v:`; unlike JavaScript, empty containers are false. */
  predicate PyTruthy(v: Value) {
    match v
    case Null => false
    case Bool(b) => b
    case Num(n) => n != 0
    case Str(s) => s != ""
    case Arr(items) => items != []
    case Obj(fields) => fields != map[]
  }

  /** A JavaScript property read `v.k`: a missing property reads as `Null`. */
  function Prop(v: Value, k: string): (r: Value) {
    if v.Obj? && k in v.fields then v.fields[k] else Null
  }

  /**
    `null` or `undefined`: reading any property of it throws a TypeError,
    where for any other value the read gives the property or `undefined`.
   */
  predicate Nullish(v: Value) {
    v.Null?
  }

  /** Python's `d.get(k, default)`. */
  function GetOr(m: map<string, Value>, k: string, default: Value): (r: Value) {
    if k in m then m[k] else default
  }

  /** Python's `d.get(k)`: a missing key reads as `None`. */
  function Get(m: map<string, Value>, k: string): (r: Value) {
    GetOr(m, k, Null)
  }

  /** `v and isinstance(v, dict)` in Python: a non-empty dict. */
  predicate PyDict(v: Value) {
    v.Obj? && v.fields != map[]
  }

  /** A record with the single field `error`, the shape of a failed snapshot entry. */
  function ErrorRecord(message: string): (r: Value) {
    Obj(map["error" := Str(message)])
  }
}
