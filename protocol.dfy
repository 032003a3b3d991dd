/**
 * The JSON-RPC 2.0 response envelopes the server writes (section 5 of the
 * JSON-RPC 2.0 Specification), and the error codes it uses (section 5.1).
 */
module Protocol {
  import opened Json
  import opened Wrappers

  const ParseError: int := -32700
  const InvalidRequest: int := -32600
  const MethodNotFound: int := -32601

  /** The "error" member: a code and a message. */
  function ErrorObject(code: int, message: string): Value
  {
    Value.Object(map["code" := Number(code), "message" := Str(message)])
  }

  /**
   * createErrorResponse. The id is stored as given, so an Undefined id (a
   * request without one) leaves the member out; the default is null.
   */
  function ErrorResponse(code: int, message: string, id: Value := Null): (r: Object)
    ensures Get(r, "jsonrpc") == Str("2.0")
    ensures Get(r, "id") == id
    ensures Get(r, "error") == ErrorObject(code, message)
    ensures "result" !in r
    ensures r.Keys == {"jsonrpc", "error"} + (if id == Undefined then {} else {"id"})
  {
    Put(Put(Put(map[], "jsonrpc", Str("2.0")), "id", id), "error", ErrorObject(code, message))
  }

  /** createSuccessResponse, with the same treatment of the id. */
  function SuccessResponse(result: Value, id: Value := Null): (r: Object)
    ensures Get(r, "jsonrpc") == Str("2.0")
    ensures Get(r, "id") == id
    ensures Get(r, "result") == result
    ensures "error" !in r
    ensures r.Keys == {"jsonrpc"} + (if id == Undefined then {} else {"id"}) + (if result == Undefined then {} else {"result"})
  {
    Put(Put(Put(map[], "jsonrpc", Str("2.0")), "id", id), "result", result)
  }

  /** The error code a response carries, as a client reads it. */
  function ErrorCodeOf(r: Object): Option<int>
  {
    var e := Get(r, "error");
    if e.Object? && "code" in e.fields && e.fields["code"].Number? then Some(e.fields["code"].n) else None
  }

  /** The error message a response carries, or the empty string. */
  function ErrorMessageOf(r: Object): string
  {
    var e := Get(r, "error");
    if e.Object? && "message" in e.fields then ToStr(e.fields["message"]) else ""
  }

  /** A client reads back the code and message an error response was built with. */
  lemma ErrorResponseReadBack(code: int, message: string, id: Value)
    ensures ErrorCodeOf(ErrorResponse(code, message, id)) == Some(code)
    ensures ErrorMessageOf(ErrorResponse(code, message, id)) == message
  {
  }

  /** A success response carries no error code. */
  lemma SuccessResponseHasNoCode(result: Value, id: Value)
    ensures ErrorCodeOf(SuccessResponse(result, id)) == None
  {
  }
}
