/** Values shared by the front-end and back-end models: an optional value,
    a JavaScript/JSON value with JavaScript's notion of truthiness, and
    property access on it. */
module Values {

  datatype Option<+T> = None | Some(value: T) {
    function GetOr(default: T): T {
      match this
      case Some(v) => v
      case None => default
    }
  }

  /** The outcome of a call that may raise: the raised exception is
      reduced to its message. */
  datatype Result<+T> = Ok(value: T) | Err(message: string)

  /** A value as JavaScript sees it after `JSON.parse`, or as a Python dict
      holds it. Numbers are integers here (floating point is not modelled). */
  datatype Value =
    | Undefined
    | Null
    | Bool(b: bool)
    | Num(n: int)
    | Str(s: string)
    | Arr(items: seq<Value>)
    | Obj(fields: map<string, Value>)

  /** JavaScript truthiness: `undefined`, `null`, `false`, `0` and `""` are
      falsy; every array and object, even an empty one, is truthy. */
  predicate Truthy(v: Value) {
    match v
    case Undefined => false
    case Null => false
    case Bool(b) => b
    case Num(n) => n != 0
    case Str(s) => s != ""
    case Arr(_) => true
    case Obj(_) => true
  }

  /** `v.key` on an object; `undefined` when the object lacks the key or `v`
      is not an object. */
  function Field(v: Value, key: string): Value {
    if v.Obj? && key in v.fields then v.fields[key] else Undefined
  }

  /** `o?.key`: optional chaining, `undefined` for a nullish `o`. */
  function OptField(v: Value, key: string): Value {
    if v.Undefined? || v.Null? then Undefined else Field(v, key)
  }

  /** Python-style truthiness of an optional string (`None` and `""` are
      falsy). */
  predicate PresentStr(s: Option<string>) {
    s.Some? && s.value != ""
  }
}
