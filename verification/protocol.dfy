/** The JSON-RPC envelopes exchanged with an upstream tool server, and the two
    abstract collaborators every exchange goes through: the HTTP transport and
    the JSON parser. */
module Protocol {
  import opened Results
  import opened Json

  /** Protocol revision the gateway announces, and its client identity. */
  const ProtocolRevision := "2024-11-05"
  const ClientName := "mcp-gateway"
  const ClientVersion := "1.0.0"

  /** A tool as an upstream lists it. `others` holds any further members, which
      the object spread in the source carries along. */
  datatype Tool = Tool(name: string, description: Option<string>, inputSchema: Option<Json>,
                       others: seq<(string, Json)>)

  /** One item of a tool result's `content`. */
  datatype Content = Content(kind: string, text: Option<string>, data: Option<Json>)

  /** The members of a response's `result` object that the client reads. */
  datatype Payload = Payload(protocolVersion: Option<string>, tools: Option<seq<Tool>>,
                             content: Option<seq<Content>>)

  /** A JSON-RPC error object, as an upstream returns it and as the front door answers. */
  datatype RpcError = RpcError(code: int, message: string, data: Option<Json>)

  /** A decoded response envelope: `result` and `error` are both optional. */
  datatype Response = Response(result: Option<Payload>, error: Option<RpcError>)

  datatype Params =
    | InitializeParams(protocolVersion: string, clientName: string, clientVersion: string)
    | ListToolsParams
    | CallToolParams(name: string, arguments: Json)

  datatype Request = Request(jsonrpc: string, methodName: string, params: Params, id: nat)

  /** What `fetch` yields: a network failure (the promise rejects) or a response
      with its `ok` flag, status, `content-type` header (if any) and body text. */
  datatype HttpReply =
    | NetworkFailure(message: string)
    | Reply(ok: bool, status: int, contentType: Option<string>, body: string)

  /** POSTing a request to a URL. */
  type Transport = (string, Request) -> HttpReply

  /** `JSON.parse` of a body as a response envelope; `None` when it throws or the
      text is not an object. */
  type Decoder = string -> Option<Response>

  function InitializeRequest(id: nat): Request {
    Request("2.0", "initialize", InitializeParams(ProtocolRevision, ClientName, ClientVersion), id)
  }

  function ListToolsRequest(id: nat): Request {
    Request("2.0", "tools/list", ListToolsParams, id)
  }

  function CallToolRequest(name: string, arguments: Json, id: nat): Request {
    Request("2.0", "tools/call", CallToolParams(name, arguments), id)
  }

  /** Stand-in message of the `SyntaxError` a failed `JSON.parse` throws. */
  const ParseFailure := "Unexpected token in JSON"
  /** Stand-in message of the `TypeError` raised by reading a member of `undefined`. */
  const UndefinedRead := "Cannot read properties of undefined"
}
