/**
  Python values as the connection sees them: parsed JSON documents, the
  exceptions the code raises or catches, and a Result type for operations that
  either return a value or raise.
 */
module Values {

  datatype Option<+T> = None | Some(value: T)

  /** The exceptions that matter to the control flow of the connection. */
  datatype Exc =
    | LookupError          // KeyError / IndexError / StopIteration: a missing key or element
    | TypeError            // wrong operand type: indexing a list by a string, str + None, ...
    | AttributeError       // `.get` on a non-dict, `.find_all` on None, `.split` on a non-string
    | TransportError       // the HTTP client gave up: connection error or timeout
    | ContentError         // `response.json()` on a body that is not JSON
    | JwtError             // a token that the JWT library cannot decode
    | NameError            // a local variable read before it was ever assigned
    | ResponseError(status: int)  // aiohttp's ClientResponseError from raise_for_status

  datatype Result<+T> = Ok(value: T) | Raised(error: Exc)

  /** A parsed JSON document (numbers are integers). */
  datatype Json =
    | JNull
    | JBool(b: bool)
    | JNum(n: int)
    | JStr(s: string)
    | JArr(items: seq<Json>)
    | JObj(fields: map<string, Json>)

  /** Python truthiness: empty containers, "", 0, False and None are false. */
  predicate Truthy(j: Json)
  {
    match j
    case JNull => false
    case JBool(b) => b
    case JNum(n) => n != 0
    case JStr(s) => s != ""
    case JArr(a) => a != []
    case JObj(m) => m != map[]
  }

  /** Values Python can use as dictionary keys. */
  predicate Hashable(j: Json)
  {
    !j.JArr? && !j.JObj?
  }

  /** Python `j[key]` for a string key. */
  function Index(j: Json, key: string): (r: Result<Json>)
    ensures r.Ok? <==> j.JObj? && key in j.fields
    ensures r.Ok? ==> r.value == j.fields[key]
    ensures r.Raised? ==> r.error == (if j.JObj? then LookupError else TypeError)
  {
    match j
    case JObj(m) => if key in m then Ok(m[key]) else Raised(LookupError)
    case _ => Raised(TypeError)
  }

  /** Python `j.get(key, default)`. */
  function GetOr(j: Json, key: string, default: Json): (r: Result<Json>)
    ensures r.Raised? <==> !j.JObj?
    ensures r.Ok? ==> r.value == (if key in j.fields then j.fields[key] else default)
  {
    match j
    case JObj(m) => Ok(if key in m then m[key] else default)
    case _ => Raised(AttributeError)
  }

  /** Python `j[0]` for an integer subscript. */
  function First(j: Json): (r: Result<Json>)
    ensures r.Ok? <==> (j.JArr? && j.items != []) || (j.JStr? && j.s != "")
    ensures r.Ok? && j.JArr? ==> r.value == j.items[0]
  {
    match j
    case JArr(a) => if a != [] then Ok(a[0]) else Raised(LookupError)
    case JStr(s) => if s != "" then Ok(JStr([s[0]])) else Raised(LookupError)
    case JObj(_) => Raised(LookupError)
    case _ => Raised(TypeError)
  }

  /** A JSON object whose values are all strings. */
  function StrObj(m: map<string, string>): (j: Json)
    ensures j.JObj? && j.fields.Keys == m.Keys
    ensures forall k :: k in m ==> j.fields[k] == JStr(m[k])
  {
    JObj(map k | k in m :: JStr(m[k]))
  }
}
