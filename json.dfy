/**
 * The JSON values that `json.loads` can yield, with the two pieces of Python
 * semantics the client relies on: truthiness (`if not user_features`) and
 * subscription (`user_features["nickname"]`), which raises KeyError on an
 * object lacking the key and TypeError on any value that is not an object.
 * Decoding itself is a foreign call and is passed to the model as a
 * function `parse: string -> Option<Json>`, None standing for JSONDecodeError.
 */
module Json {
  import opened Wrappers

  datatype Json =
    | JNull
    | JBool(b: bool)
    | JNum(n: real)
    | JStr(s: string)
    | JArr(items: seq<Json>)
    | JObj(fields: map<string, Json>)

  /** The Python exceptions the core lets escape or catches. */
  datatype PyError = ConnectionError | JsonDecodeError | KeyError | TypeError

  /** Python truthiness of the decoded value: None, false, 0, "", [] and {} are falsy. */
  predicate Truthy(j: Json) {
    match j
    case JNull => false
    case JBool(b) => b
    case JNum(n) => n != 0.0
    case JStr(s) => s != ""
    case JArr(items) => items != []
    case JObj(fields) => fields != map[]
  }

  /**
   * `j[key]`: succeeds exactly on an object holding the key; an object
   * without it raises KeyError, every other value raises TypeError.
   */
  function Subscript(j: Json, key: string): (r: Result<Json, PyError>)
    ensures r.Ok? <==> j.JObj? && key in j.fields
    ensures r.Ok? ==> r.value == j.fields[key]
    ensures r.Err? ==> r.error == (if j.JObj? then KeyError else TypeError)
  {
    match j
    case JObj(fields) => if key in fields then Ok(fields[key]) else Err(KeyError)
    case _ => Err(TypeError)
  }
}
