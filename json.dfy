/**
 * JSON values as the handlers build them with Vert.x `JsonObject` and
 * `JsonArray`, and the response envelopes the handlers send.
 */
module Json {
  import opened Wrappers

  /**
   * An object is a map from field name to value (a `put` of a fresh name
   * adds it). `JBinary` is a byte string, which the wire encoding writes
   * as Base64 and a reader's `getBinary` turns back into the same bytes.
   */
  datatype Json =
    | JBool(b: bool)
    | JInt(i: int)
    | JStr(s: string)
    | JBinary(bytes: seq<bv8>)
    | JArray(items: seq<Json>)
    | JObject(fields: map<string, Json>)

  function Get(j: Json, name: string): Option<Json>
  {
    if j.JObject? && name in j.fields then Some(j.fields[name]) else None
  }

  function GetInt(j: Json, name: string): Option<int>
  {
    match Get(j, name)
    case Some(JInt(i)) => Some(i)
    case _ => None
  }

  function GetString(j: Json, name: string): Option<string>
  {
    match Get(j, name)
    case Some(JStr(s)) => Some(s)
    case _ => None
  }

  function GetBinary(j: Json, name: string): Option<seq<bv8>>
  {
    match Get(j, name)
    case Some(JBinary(b)) => Some(b)
    case _ => None
  }

  /**
   * What a handler sends. `Success`, `SuccessNoBody`, `Error` and
   * `ClientError` are the status envelopes `{status, body|message}`;
   * `RawJson` is a bare JSON document with no envelope (the deprecated
   * routes); `Fail` is a bare HTTP failure with no body.
   */
  datatype Response =
    | Success(body: Json)
    | SuccessNoBody(status: string)
    | Error(status: string, code: int)
    | ClientError(message: string)
    | RawJson(json: Json)
    | Fail(code: int)
  {
    function StatusCode(): int
    {
      match this
      case Success(_) => 200
      case SuccessNoBody(_) => 200
      case Error(_, c) => c
      case ClientError(_) => 400
      case RawJson(_) => 200
      case Fail(c) => c
    }

    /** The envelope's `status` field; bare responses have none. */
    function Status(): Option<string>
    {
      match this
      case Success(_) => Some("success")
      case SuccessNoBody(s) => Some(s)
      case Error(s, _) => Some(s)
      case ClientError(_) => Some("client_error")
      case RawJson(_) => None
      case Fail(_) => None
    }
  }
}
