/**
 * Response bodies and the envelopes the serving loop writes, one per line, with the
 * error codes of the JSON-RPC 2.0 error-code table (section 5.1 of the JSON-RPC 2.0
 * specification).
 */
module Protocol {
  import opened Json

  const MethodNotFound := -32601
  const InvalidParams := -32602
  const InternalError := -32603

  const JsonRpcVersion := "2.0"

  /** What `handle_request` returns: a `result` payload or an `error` with code and message. */
  datatype Response = Result(result: Value) | Error(code: int, message: string)

  /** A response stamped with the request's `id` (or null), as the loop writes it. */
  datatype Envelope = Envelope(id: Value, response: Response)

  /** The JSON object written for an envelope. */
  function Render(e: Envelope): (j: map<string, Value>)
    ensures ("result" in j) != ("error" in j)
    ensures j.Keys == {"jsonrpc", "id", "result"} || j.Keys == {"jsonrpc", "id", "error"}
    ensures j["jsonrpc"] == Str(JsonRpcVersion) && j["id"] == e.id
    ensures "result" in j <==> e.response.Result?
    ensures "error" in j ==> j["error"].Obj? && j["error"].fields.Keys == {"code", "message"}
  {
    var body := match e.response
      case Result(payload) => map["result" := payload]
      case Error(code, message) => map["error" := Obj(map["code" := Int(code), "message" := Str(message)])];
    body["jsonrpc" := Str(JsonRpcVersion)]["id" := e.id]
  }
}
