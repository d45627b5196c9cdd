/**
  * The JSON values that travel through the service: request bodies, Firestore
  * documents, upstream responses and replies. Python's truthiness and
  * `dict.get` are defined here once.
  */
module Json {

  datatype Value =
    | Null
    | Bool(b: bool)
    | Int(i: int)
    | Str(s: string)
    | Arr(items: seq<Value>)
    | Obj(fields: map<string, Value>)

  /** A JSON object as Python sees it after `request.json` or `doc.to_dict()`. */
  type Object = map<string, Value>

  /** Python's `bool(v)`: None, False, 0, "" and empty containers are false. */
  predicate Truthy(v: Value) {
    match v
    case Null => false
    case Bool(b) => b
    case Int(i) => i != 0
    case Str(s) => |s| > 0
    case Arr(items) => |items| > 0
    case Obj(fields) => |fields| > 0
  }

  /** `o.get(key, default)`. */
  function GetOr(o: Object, key: string, default: Value): Value {
    if key in o then o[key] else default
  }

  /** `o.get(key)`: a missing key reads as None. */
  function Get(o: Object, key: string): Value {
    GetOr(o, key, Null)
  }

  /** The `{"message": text}` bodies the service returns. */
  function Message(text: string): Value {
    Obj(map["message" := Str(text)])
  }

  /** The `{"error": text}` bodies of the `except Exception` paths. */
  function ErrorBody(text: string): Value {
    Obj(map["error" := Str(text)])
  }

  /** The `[status, body]` pair that the store functions and `_is_available` return. */
  datatype Reply = Reply(status: int, body: Value)

  /** An upstream HTTP response: its status code and its decoded JSON body. */
  datatype Answer = Answer(status: int, body: Value)
}
