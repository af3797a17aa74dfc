/** Values that cross the boundary between the routes and the outside world:
    optional values, and parsed JSON request bodies as the validation schemas
    see them. */
module Values {

  datatype Option<+T> = None | Some(value: T) {
    function GetOr(default: T): T {
      match this
      case Some(v) => v
      case None => default
    }
  }

  /** A parsed JSON value. Numbers are integers; arrays carry no content
      because no schema of the dashboard looks inside one. */
  datatype Json =
    | Undefined
    | Null
    | Bool(b: bool)
    | Num(n: int)
    | Str(s: string)
    | Arr
    | Obj(fields: map<string, Json>)

  /** `body[key]` for an object body; an absent key reads as `undefined`. */
  function Get(body: Json, key: string): Json {
    if body.Obj? && key in body.fields then body.fields[key] else Undefined
  }

  /** JavaScript truthiness. */
  predicate Truthy(v: Json) {
    match v
    case Undefined => false
    case Null => false
    case Bool(b) => b
    case Num(n) => n != 0
    case Str(s) => s != ""
    case Arr => true
    case Obj(_) => true
  }
}
