/** Values shared by every part of the model: optional values and the JSON
    values that the serverless functions and the session store pass around. */
module Common {

  datatype Option<+T> = None | Some(value: T) {
    function GetOr(default: T): T {
      match this
      case Some(v) => v
      case None => default
    }
  }

  /** A JSON value as the database columns and request bodies carry it.
      Numbers are integers; floating point is not part of this model. */
  datatype Json =
    | JNull
    | JBool(b: bool)
    | JNum(n: int)
    | JStr(s: string)
    | JArr(items: seq<Json>)
    | JObj(fields: map<string, Json>)

  /** JavaScript truthiness of a JSON value (NaN cannot occur here). */
  predicate Truthy(j: Json) {
    match j
    case JNull => false
    case JBool(b) => b
    case JNum(n) => n != 0
    case JStr(s) => s != ""
    case JArr(_) => true
    case JObj(_) => true
  }

  /** JavaScript truthiness of an optional string: undefined and "" are falsy. */
  predicate Given(s: Option<string>) {
    s.Some? && s.value != ""
  }

  /** What the AI gateway answered a chat-completion request with: a
      non-OK HTTP status, or the content of the first choice's message
      (`None` when there is none). */
  datatype GatewayReply = GatewayFailed(status: nat) | GatewayOk(content: Option<string>)

  /** The number of rows a lookup returned, zero when it failed. */
  function Count<T>(data: Option<seq<T>>): (r: nat)
    ensures data.None? ==> r == 0
    ensures data.Some? ==> r == |data.value|
  {
    match data
    case None => 0
    case Some(s) => |s|
  }

  function Min(a: int, b: int): int {
    if a <= b then a else b
  }
}
