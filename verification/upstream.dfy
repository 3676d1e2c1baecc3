/** One upstream tool server as seen by the gateway (src/mcp/upstream-client.ts,
    `UpstreamMcpClient`). The client is an immutable value; every operation returns
    the next client, the requests it put on the wire in order, and its outcome. */
module Upstream {
  import opened Results
  import opened Strings
  import opened Json
  import opened Protocol
  import Sse

  /** Client state: name (the namespace prefix), endpoint, handshake flag,
      discovered tools (already namespaced) and the last request id used. */
  datatype Client = Client(name: string, url: string, initialized: bool, tools: seq<Tool>,
                           requestId: nat)

  /** What one operation did: the next client, the requests sent, the outcome. */
  datatype Step<+T> = Step(client: Client, sent: seq<Request>, out: Result<T, string>)

  /** Operations a caller can run on a client, for reasoning about sequences of them. */
  datatype Op = InitializeOp | CallToolOp(toolName: string, arguments: Json)

  const EventStream := "text/event-stream"
  const InvalidInitialization := "Invalid initialization response"

  function NewClient(name: string, url: string): (c: Client)
    ensures c.name == name && c.url == url
    ensures !c.initialized && c.tools == [] && c.requestId == 0
  {
    Client(name, url, false, [], 0)
  }

  /** The namespace prefix of a server's tools. */
  function Prefix(server: string): string {
    server + "_"
  }

  /** The name under which the gateway exposes an upstream tool. */
  function Qualify(server: string, raw: string): string {
    Prefix(server) + raw
  }

  /** `name` with the first occurrence of the server's prefix removed. */
  function Unqualify(server: string, name: string): string {
    ReplaceFirst(name, Prefix(server), "")
  }

  /** Request ids of `sent` continue a counter that stood at `from`. */
  predicate NumberedFrom(sent: seq<Request>, from: nat) {
    forall k :: 0 <= k < |sent| ==> sent[k].id == from + 1 + k
  }

  /** A tool list is `raw` with every name namespaced and every other field kept. */
  predicate IsNamespaced(server: string, raw: seq<Tool>, tools: seq<Tool>) {
    |tools| == |raw| &&
    forall i :: 0 <= i < |raw| ==> tools[i] == raw[i].(name := Qualify(server, raw[i].name))
  }

  /** Decoding an ok reply: event-stream bodies through `Sse.Parse`, anything else
      straight through the parser. */
  function ReadBody(contentType: Option<string>, body: string, decode: Decoder): (r: Result<Response, string>)
    ensures Contains(contentType.GetOr(""), EventStream) ==>
              (r.Ok? <==> Sse.Data(body) != "" && decode(Sse.Data(body)).Some?) &&
              (r.Ok? ==> r.value == decode(Sse.Data(body)).value)
    ensures !Contains(contentType.GetOr(""), EventStream) ==>
              (r.Ok? <==> decode(body).Some?) && (r.Ok? ==> r.value == decode(body).value)
    ensures contentType.None? ==> (r.Ok? <==> decode(body).Some?)
  {
    if Contains(contentType.GetOr(""), EventStream) then Sse.Parse(body, decode)
    else match decode(body)
      case None => Err(ParseFailure)
      case Some(resp) => Ok(resp)
  }

  /** `sendRequest`: fails on a network failure, a non-ok status, an undecodable body
      and a response carrying an `error` object; otherwise yields the decoded response. */
  function Exchange(url: string, req: Request, net: Transport, decode: Decoder): (r: Result<Response, string>)
    ensures r.Ok? <==>
            && net(url, req).Reply?
            && net(url, req).ok
            && ReadBody(net(url, req).contentType, net(url, req).body, decode).Ok?
            && ReadBody(net(url, req).contentType, net(url, req).body, decode).value.error.None?
    ensures r.Ok? ==> r.value == ReadBody(net(url, req).contentType, net(url, req).body, decode).value
    ensures net(url, req).NetworkFailure? ==> r == Err(net(url, req).message)
  {
    match net(url, req)
    case NetworkFailure(msg) => Err(msg)
    case Reply(ok, status, contentType, body) =>
      if !ok then Err("HTTP error! status: " + IntToString(status) + ", body: " + body)
      else match ReadBody(contentType, body, decode)
        case Err(e) => Err(e)
        case Ok(resp) =>
          if resp.error.Some? then Err("MCP error: " + resp.error.value.message) else Ok(resp)
  }

  /** The negotiation response reports a (non-empty) protocol version. */
  predicate ReportsVersion(resp: Response) {
    resp.result.Some? && resp.result.value.protocolVersion.Some? &&
    resp.result.value.protocolVersion.value != ""
  }

  /** The discovery response carries a tool list. */
  predicate ListsTools(resp: Response) {
    resp.result.Some? && resp.result.value.tools.Some?
  }

  /** Both handshake exchanges of a client that has not yet initialized succeed
      with the members the client needs. */
  predicate HandshakeSucceeds(c: Client, net: Transport, decode: Decoder) {
    var hello := Exchange(c.url, InitializeRequest(c.requestId + 1), net, decode);
    var listing := Exchange(c.url, ListToolsRequest(c.requestId + 2), net, decode);
    hello.Ok? && ReportsVersion(hello.value) && listing.Ok? && ListsTools(listing.value)
  }

  /** The tool list the upstream returned in a successful handshake. */
  function Discovered(c: Client, net: Transport, decode: Decoder): seq<Tool>
    requires HandshakeSucceeds(c, net, decode)
  {
    Exchange(c.url, ListToolsRequest(c.requestId + 2), net, decode).value.result.value.tools.value
  }

  /** `initialize`: a no-op once initialized; otherwise negotiation then discovery.
      The flag is set only when both succeed, and then the tools are the discovered
      list, namespaced. On failure the tools and the flag stay as they were. */
  function Initialize(c: Client, net: Transport, decode: Decoder): (r: Step<()>)
    ensures c.initialized ==> r == Step(c, [], Ok(()))
    ensures NumberedFrom(r.sent, c.requestId) && r.client.requestId == c.requestId + |r.sent|
    ensures r.client.name == c.name && r.client.url == c.url
    ensures r.out.Ok? <==> r.client.initialized
    ensures r.out.Err? ==> r.client.tools == c.tools
    ensures !c.initialized ==> 1 <= |r.sent| <= 2 && r.sent[0] == InitializeRequest(c.requestId + 1)
    ensures !c.initialized && |r.sent| == 2 ==> r.sent[1] == ListToolsRequest(c.requestId + 2)
    ensures !c.initialized && r.out.Ok? ==>
              r.sent == [InitializeRequest(c.requestId + 1), ListToolsRequest(c.requestId + 2)]
    ensures !c.initialized ==> (r.out.Ok? <==> HandshakeSucceeds(c, net, decode))
    ensures !c.initialized && r.out.Ok? ==> IsNamespaced(c.name, Discovered(c, net, decode), r.client.tools)
  {
    if c.initialized then Step(c, [], Ok(()))
    else
      var hello := InitializeRequest(c.requestId + 1);
      var c1 := c.(requestId := c.requestId + 1);
      match Exchange(c.url, hello, net, decode)
      case Err(e) => Step(c1, [hello], Err(e))
      case Ok(resp) =>
        if resp.result.None? then Step(c1, [hello], Err(UndefinedRead))
        else if !ReportsVersion(resp) then Step(c1, [hello], Err(InvalidInitialization))
        else
          var listing := ListToolsRequest(c1.requestId + 1);
          var c2 := c1.(requestId := c1.requestId + 1);
          match Exchange(c.url, listing, net, decode)
          case Err(e) => Step(c2, [hello, listing], Err(e))
          case Ok(resp2) =>
            if !ListsTools(resp2) then Step(c2, [hello, listing], Err(UndefinedRead))
            else
              var raw := resp2.result.value.tools.value;
              var tools := seq(|raw|, i requires 0 <= i < |raw| => raw[i].(name := Qualify(c.name, raw[i].name)));
              Step(c2.(tools := tools, initialized := true), [hello, listing], Ok(()))
  }

  /** The `tools/call` request a client sends next: the prefix stripped from the
      name, the caller's arguments, the next id. */
  function CallRequest(c: Client, toolName: string, arguments: Json): Request {
    CallToolRequest(Unqualify(c.name, toolName), arguments, c.requestId + 1)
  }

  /** `callTool`: initializes first when needed (a failed initialization is
      returned and no call is sent), then sends `tools/call` with the caller's name
      stripped of the prefix and the caller's arguments, and yields the response's
      `result` (possibly absent). Exchange failures are returned unchanged. */
  function CallTool(c: Client, net: Transport, decode: Decoder, toolName: string, arguments: Json)
    : (r: Step<Option<Payload>>)
    ensures NumberedFrom(r.sent, c.requestId) && r.client.requestId == c.requestId + |r.sent|
    ensures r.client.name == c.name && r.client.url == c.url
    ensures !c.initialized ==> |r.sent| >= 1 && r.sent[0] == InitializeRequest(c.requestId + 1)
    ensures c.initialized ==> r.sent == [CallRequest(c, toolName, arguments)]
    ensures r.client.initialized <==> Initialize(c, net, decode).out.Ok?
    ensures r.client.tools == Initialize(c, net, decode).client.tools
    ensures var s := Initialize(c, net, decode);
            s.out.Err? ==> r.out == Err(s.out.error) && r.sent == s.sent
    ensures var s := Initialize(c, net, decode);
            s.out.Ok? ==> r.sent == s.sent + [CallRequest(s.client, toolName, arguments)]
    ensures var s := Initialize(c, net, decode);
            var reply := Exchange(c.url, CallRequest(s.client, toolName, arguments), net, decode);
            s.out.Ok? ==> (r.out.Ok? <==> reply.Ok?) && (r.out.Ok? ==> r.out.value == reply.value.result)
  {
    var s := Initialize(c, net, decode);
    if s.out.Err? then Step(s.client, s.sent, Err(s.out.error))
    else
      var call := CallRequest(s.client, toolName, arguments);
      var c1 := s.client.(requestId := s.client.requestId + 1);
      match Exchange(c.url, call, net, decode)
      case Err(e) => Step(c1, s.sent + [call], Err(e))
      case Ok(resp) => Step(c1, s.sent + [call], Ok(resp.result))
  }

  /** Stripping the prefix from a namespaced name gives back the raw name. */
  lemma UnqualifyQualify(server: string, raw: string)
    ensures Unqualify(server, Qualify(server, raw)) == raw
  {
    ReplaceFirstOfPrefixed(Prefix(server), raw);
  }

  /** Calling a tool by its namespaced name on an initialized client sends exactly
      one request: `tools/call` with the raw name and the caller's arguments. */
  lemma CallSendsRawName(c: Client, net: Transport, decode: Decoder, raw: string, arguments: Json)
    requires c.initialized
    ensures CallTool(c, net, decode, Qualify(c.name, raw), arguments).sent
            == [CallToolRequest(raw, arguments, c.requestId + 1)]
  {
    UnqualifyQualify(c.name, raw);
  }

  /** A failed initialization leaves the flag clear, so the next call starts with
      a fresh `initialize` request. */
  lemma FailedInitializeIsRetried(c: Client, net: Transport, decode: Decoder, toolName: string, arguments: Json)
    requires !c.initialized && Initialize(c, net, decode).out.Err?
    ensures var c1 := Initialize(c, net, decode).client;
            CallTool(c1, net, decode, toolName, arguments).sent[0] == InitializeRequest(c1.requestId + 1)
  {
  }

  /** One operation on a client. */
  function Perform(c: Client, op: Op, net: Transport, decode: Decoder): Step<()> {
    match op
    case InitializeOp => Initialize(c, net, decode)
    case CallToolOp(name, arguments) =>
      var s := CallTool(c, net, decode, name, arguments);
      Step(s.client, s.sent, if s.out.Ok? then Ok(()) else Err(s.out.error))
  }

  /** A sequence of operations, run in order on one client; yields the final client
      and every request sent. */
  function Run(c: Client, ops: seq<Op>, net: Transport, decode: Decoder): (Client, seq<Request>)
    decreases |ops|
  {
    if |ops| == 0 then (c, [])
    else
      var s := Perform(c, ops[0], net, decode);
      var rest := Run(s.client, ops[1..], net, decode);
      (rest.0, s.sent + rest.1)
  }

  lemma {:induction false} RunNumbersRequests(c: Client, ops: seq<Op>, net: Transport, decode: Decoder)
    ensures NumberedFrom(Run(c, ops, net, decode).1, c.requestId)
    ensures Run(c, ops, net, decode).0.requestId == c.requestId + |Run(c, ops, net, decode).1|
    decreases |ops|
  {
    if |ops| > 0 {
      var s := Perform(c, ops[0], net, decode);
      RunNumbersRequests(s.client, ops[1..], net, decode);
    }
  }

  /** Over any sequence of operations on a new client, the requests put on the wire
      carry the ids 1, 2, 3, ... in order, so they strictly increase. */
  lemma RequestIdsCount(name: string, url: string, ops: seq<Op>, net: Transport, decode: Decoder)
    ensures var sent := Run(NewClient(name, url), ops, net, decode).1;
            (forall k :: 0 <= k < |sent| ==> sent[k].id == k + 1) &&
            (forall i, j :: 0 <= i < j < |sent| ==> sent[i].id < sent[j].id)
  {
    RunNumbersRequests(NewClient(name, url), ops, net, decode);
  }

  /** In a namespaced name whose server has no underscore, the first underscore
      is the one right after the server name. */
  lemma FirstUnderscore(server: string, raw: string)
    requires '_' !in server
    ensures forall k :: 0 <= k < |server| ==> Qualify(server, raw)[k] != '_'
    ensures Qualify(server, raw)[|server|] == '_'
  {
    assert forall k :: 0 <= k < |server| ==> Qualify(server, raw)[k] == server[k];
  }

  /** Namespaced names are unambiguous when server names contain no underscore:
      the name determines both the server and the raw tool name. */
  lemma QualifyInjective(s1: string, r1: string, s2: string, r2: string)
    requires '_' !in s1 && '_' !in s2
    requires Qualify(s1, r1) == Qualify(s2, r2)
    ensures s1 == s2 && r1 == r2
  {
    var q := Qualify(s1, r1);
    FirstUnderscore(s1, r1);
    FirstUnderscore(s2, r2);
    assert |s1| == |s2| by {
      assert !(|s1| < |s2|) by { assert q[|s1|] == '_'; }
      assert !(|s2| < |s1|) by { assert q[|s2|] == '_'; }
    }
    assert s1 == q[..|s1|] == s2;
    assert r1 == q[|s1| + 1..] == r2;
  }

  /** Without that restriction names collide: server `a` with tool `b_c` and
      server `a_b` with tool `c` both expose `a_b_c`. */
  lemma QualifyCollides()
    ensures Qualify("a", "b_c") == Qualify("a_b", "c")
  {
  }
}
