/** Values shared by every part of the model: failure wrappers, bytes,
    parsed JSON and HTTP responses. */
module Common {

  datatype Option<+T> = None | Some(value: T)

  /** The outcome of an operation that may throw: the value, or the error it throws. */
  datatype Result<+T, +E> = Ok(value: T) | Err(error: E)

  /** An element of a Uint8Array or of a Node Buffer. */
  type Byte = b: int | 0 <= b < 256

  /** A value produced by JSON.parse. Numbers are restricted to integers. */
  datatype Json =
    | JNull
    | JBool(b: bool)
    | JNum(n: int)
    | JStr(s: string)
    | JArr(items: seq<Json>)
    | JObj(fields: map<string, Json>)

  /** JavaScript truthiness of a JSON value (integers cannot be NaN). */
  predicate Truthy(j: Json) {
    match j
    case JNull => false
    case JBool(b) => b
    case JNum(n) => n != 0
    case JStr(s) => s != ""
    case _ => true
  }

  /** The property `key` of a parsed value: only objects have properties here. */
  function Property(j: Json, key: string): Option<Json> {
    if j.JObj? && key in j.fields then Some(j.fields[key]) else None
  }

  /** A Request as the worker reads it: its method (`verb`), the pathname of its URL and its
      headers, keyed by lower-case name as the Headers class normalises them. */
  datatype Request = Request(verb: string, path: string, headers: map<string, string>)

  /** The body of a Response: none, plain text, or JSON.stringify of a value. */
  datatype Body = NoBody | Text(text: string) | JsonBody(json: Json)

  /** A Response as the worker builds it; status 200 unless given. */
  datatype Response = Response(status: int, headers: map<string, string>, body: Body)

  /** `{ error: message }`, the body of every error response. */
  function ErrorJson(message: string): Json {
    JObj(map["error" := JStr(message)])
  }
}
