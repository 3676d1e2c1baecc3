/** The JSON-RPC front door (src/app/api/mcp/route.ts, `POST`): checks the
    envelope, answers `initialize` and `initialized` itself and hands every other
    method to the server's request handler. Error codes are those of section 5.1
    of the JSON-RPC 2.0 Specification. Body parsing and the request handler are
    supplied as their outcomes. */
module Route {
  import opened Results
  import opened Json
  import opened Auth
  import opened Protocol

  /** A thrown value: an `Error` with its message, or anything else. */
  datatype Thrown = ErrorValue(message: string) | OtherValue

  /** A response object before serialization; `id`, `result` and `error` may be absent. */
  datatype Envelope = Envelope(jsonrpc: string, id: Option<Json>, result: Option<Json>, error: Option<RpcError>)

  datatype HttpOut =
    | JsonOut(status: int, headers: seq<(string, string)>, body: Envelope)
    | EmptyOut(status: int)

  /** `handleRequest(method, params, context)`: the result, or what it threw. */
  type Handler = (Option<Json>, Option<Json>, Option<Context>) -> Result<Json, Thrown>

  const InvalidRequest := -32600
  const MethodNotFound := -32601
  const ParseErrorCode := -32700

  /** Message of the `TypeError` raised by reading `jsonrpc` of a `null` body. */
  const NullBodyRead := "Cannot read properties of null (reading 'jsonrpc')"

  const CorsHeaders: seq<(string, string)> := [
    ("Content-Type", "application/json"),
    ("Access-Control-Allow-Origin", "*"),
    ("Access-Control-Allow-Methods", "GET, POST, OPTIONS"),
    ("Access-Control-Allow-Headers", "Content-Type, Authorization")]

  /** The fixed answer to `initialize`. */
  const InitializeResult: Json := JObj([
    ("protocolVersion", JStr("2024-11-05")),
    ("capabilities", JObj([
      ("resources", JObj([("subscribe", JBool(false)), ("templates", JBool(false))])),
      ("tools", JObj([]))])),
    ("serverInfo", JObj([("name", JStr("streaming-mcp-server")), ("version", JStr("1.0.0"))]))])

  /** `error instanceof Error ? error.message : "Unknown error"`. */
  function ErrorData(t: Thrown): Json {
    match t
    case ErrorValue(m) => JStr(m)
    case OtherValue => JStr("Unknown error")
  }

  function ParseErrorOut(data: Json): HttpOut {
    JsonOut(400, [], Envelope("2.0", Some(JNull), None, Some(RpcError(ParseErrorCode, "Parse error", Some(data)))))
  }

  /** A JSON response envelope is well formed: version 2.0 and exactly one of
      `result` and `error`. */
  predicate WellFormed(r: HttpOut) {
    r.JsonOut? ==> r.body.jsonrpc == "2.0" && (r.body.result.Some? <==> r.body.error.None?)
  }

  /** `body.jsonrpc === "2.0"` (the source's `!body.jsonrpc ||` adds nothing). */
  predicate IsJsonRpc2(body: Json) {
    Get(body, "jsonrpc") == Some(JStr("2.0"))
  }

  /** The handler of `POST` once authenticated: `parsed` is what reading the body
      as JSON gave. */
  function Dispatch(parsed: Result<Json, Thrown>, ctx: Option<Context>, handle: Handler): (r: HttpOut)
    ensures WellFormed(r)
    ensures r.JsonOut? && r.body.error.Some? ==>
              r.body.error.value.code in {InvalidRequest, MethodNotFound, ParseErrorCode}
    ensures r.JsonOut? && r.body.error.Some? && r.body.error.value.code != MethodNotFound ==> r.status == 400
    ensures parsed.Err? ==> r == ParseErrorOut(ErrorData(parsed.error))
    ensures parsed == Ok(JNull) ==> r == ParseErrorOut(JStr(NullBodyRead))
    ensures parsed.Ok? && parsed.value != JNull ==>
              (r.JsonOut? && r.body.error.Some? && r.body.error.value.code == InvalidRequest
               <==> !IsJsonRpc2(parsed.value))
    ensures parsed.Ok? && parsed.value != JNull && !IsJsonRpc2(parsed.value) ==>
              r.body.id == Some(if Truthy(Get(parsed.value, "id")) then Get(parsed.value, "id").value else JNull)
    ensures parsed.Ok? && parsed.value != JNull && IsJsonRpc2(parsed.value) && r.JsonOut? ==>
              r.status == 200 && r.body.id == Get(parsed.value, "id") && r.headers == CorsHeaders
    ensures r.EmptyOut? <==>
              parsed.Ok? && parsed.value != JNull && IsJsonRpc2(parsed.value) &&
              Get(parsed.value, "method") == Some(JStr("initialized"))
    ensures r.EmptyOut? ==> r.status == 204
  {
    match parsed
    case Err(t) => ParseErrorOut(ErrorData(t))
    case Ok(body) =>
      if body == JNull then ParseErrorOut(JStr(NullBodyRead))
      else
        var id := Get(body, "id");
        if !IsJsonRpc2(body) then
          JsonOut(400, [], Envelope("2.0", Some(if Truthy(id) then id.value else JNull), None,
                                    Some(RpcError(InvalidRequest, "Invalid Request - must be JSON-RPC 2.0", None))))
        else
          var rpcMethod := Get(body, "method");
          if rpcMethod == Some(JStr("initialize")) then
            JsonOut(200, CorsHeaders, Envelope("2.0", id, Some(InitializeResult), None))
          else if rpcMethod == Some(JStr("initialized")) then
            EmptyOut(204)
          else
            match handle(rpcMethod, Get(body, "params"), ctx)
            case Ok(result) => JsonOut(200, CorsHeaders, Envelope("2.0", id, Some(result), None))
            case Err(t) =>
              JsonOut(200, CorsHeaders, Envelope("2.0", id, None,
                Some(RpcError(MethodNotFound, "Method not found: " + Display(rpcMethod), Some(ErrorData(t))))))
  }

  /** `initialize` is answered with the fixed result and the request's id, without
      consulting the handler. */
  lemma InitializeAnsweredLocally(body: Json, ctx: Option<Context>, h1: Handler, h2: Handler)
    requires body != JNull && IsJsonRpc2(body) && Get(body, "method") == Some(JStr("initialize"))
    ensures Dispatch(Ok(body), ctx, h1) == Dispatch(Ok(body), ctx, h2)
    ensures Dispatch(Ok(body), ctx, h1).body == Envelope("2.0", Get(body, "id"), Some(InitializeResult), None)
  {
  }

  /** Every other method is the handler's: its value becomes `result`, and what it
      throws becomes -32601 naming the method, with the thrown message as `data`. */
  lemma OtherMethodsDelegated(body: Json, ctx: Option<Context>, handle: Handler)
    requires body != JNull && IsJsonRpc2(body)
    requires Get(body, "method") != Some(JStr("initialize")) && Get(body, "method") != Some(JStr("initialized"))
    ensures var out := handle(Get(body, "method"), Get(body, "params"), ctx);
            var r := Dispatch(Ok(body), ctx, handle);
            && (out.Ok? ==> r.body.result == Some(out.value))
            && (out.Err? ==> r.body.error == Some(RpcError(MethodNotFound, "Method not found: " + Display(Get(body, "method")),
                                                           Some(ErrorData(out.error)))))
  {
  }

  /** An id of 0 (falsy) in an invalid request is answered with a null id. */
  lemma ZeroIdBecomesNull(body: Json)
    requires body != JNull && !IsJsonRpc2(body) && Get(body, "id") == Some(JNum(0))
    ensures forall ctx, handle :: Dispatch(Ok(body), ctx, handle).body.id == Some(JNull)
  {
  }

  /** `POST`: authentication first, then dispatch with the validated context. */
  function Post(header: Option<string>, verify: Verifier, session: Session, protocol: string, host: string,
                timestamp: string, parsed: Result<Json, Thrown>, handle: Handler): (r: Gate<HttpOut>)
    ensures var auth := ValidateMcpAuth(header, verify, session);
            && (!auth.isValid ==> r.Rejected? && r.response.status == 401)
            && (auth.isValid ==> r == Handled(Dispatch(parsed, auth.context, handle)))
  {
    WithMcpAuth(ValidateMcpAuth(header, verify, session), protocol, host, timestamp,
                (ctx: Option<Context>) => Dispatch(parsed, ctx, handle))
  }
}
