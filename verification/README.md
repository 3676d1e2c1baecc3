# MCP gateway core of mcp-rbac, modelled in Dafny

mcp-rbac puts one Model Context Protocol (MCP) endpoint in front of several
upstream MCP tool servers. Each upstream's tools are exposed under the name
`<server>_<tool>`, and a per-user registry records which servers are enabled.
This project models the decision logic of that gateway and proves properties of
it:

- **`Upstream`** (`src/mcp/upstream-client.ts`): the upstream client.
  - Request ids run 1, 2, 3, …
  - The two-step handshake: `initialize`, then `tools/list`.
  - Decoding of a reply, plain JSON or an event stream (module `Sse`).
  - Tool names are namespaced on discovery and the prefix is stripped again on `tools/call`.
- **`Gateway`** (`src/mcp/gateway-manager.ts`): the catalog builder.
  - One client per config, with failures isolated per client.
  - The per-tool enable filter and the tool-name → client index.
  - Listing, dispatch and the membership test.
- **`ToolFetcher`** (`src/mcp/tool-fetcher.ts`): discovery that returns raw names and turns any failure into an empty list.
- **`Auth`** (`src/middleware/mcp-auth.ts`): bearer-token extraction, the valid/invalid decision, the `WWW-Authenticate` challenge and the authentication gate.
  - The challenge uses the Bearer scheme of section 3 of RFC 6750 and the `resource_metadata` parameter of section 5.1 of RFC 9728.
- **`Route`** (`src/app/api/mcp/route.ts`): the JSON-RPC front door of `POST`.
  - Error codes are those of section 5.1 of the JSON-RPC 2.0 Specification.
- **`Users`, `McpServers`, `Tables`** (`convex/users.ts`, `convex/mcpServers.ts`): the enabled-server lists and the server registry.
  - Tables are sequences of rows in insertion order.
  - Indexes are filters.
  - Generated ids and timestamps are parameters.

The model is functional. Clients, managers and tables are immutable values, and
every operation returns the next state. A client operation also returns the
requests it put on the wire, so properties about request ids can be stated.

Everything outside the gateway becomes a parameter:

| What the code calls | Parameter in the model |
|---|---|
| the network (`fetch`) | `Protocol.Transport` |
| `JSON.parse` | `Protocol.Decoder`, and for the front door the already-parsed body |
| JWT verification | `Auth.Verifier` |
| the browser-session lookup | `Auth.Session` |
| the streaming server's `handleRequest` | `Route.Handler` |

JavaScript behaviour the code relies on is written out:

- `String.replace(str, "")` removes the FIRST occurrence anywhere in the string (`Strings.ReplaceFirst`).
- `split("\n")` always gives at least one piece (`Strings.Split`).
- `.` in `^Bearer (.+)$` matches no line terminator (`Auth.BearerToken`).
- `Map.set` keeps an existing key where it was (`Gateway.Put`).
- Truthiness and template-literal display are modelled too (`Json.Truthy`, `Json.Display`).

`Promise.all` over the upstream clients is modelled as a sequential fold (`Gateway.InitAll`). Each client's outcome depends on that client alone.

In a few places the behaviour one would expect of a gateway and what the code
does differ; the model follows the code:

- A client whose handshake failed is not marked failed for good. Its
  `initialized` flag stays false, so the next `callTool` runs the handshake
  again (`Upstream.FailedInitializeIsRetried`).
- A reply with neither `result` nor `error` is not rejected by the client.
  Reading a member of the absent `result` is what fails.
- Namespaced names are not always unambiguous.
  - Server `a` with tool `b_c` and server `a_b` with tool `c` both expose `a_b_c` (`Upstream.QualifyCollides`).
  - They are unambiguous when server names contain no underscore (`Upstream.QualifyInjective`).
- The -32603 "Internal error" branch of the front door cannot be reached. The inner `try` already catches everything `handleRequest` throws. The model therefore has no such branch.
- A body that parses to `null` fails on reading `jsonrpc`, and that failure is answered with -32700 "Parse error".

## Model

| member | source | states |
|---|---|---|
| Sse.Parse | src/mcp/upstream-client.ts:72-87 | fails with "No data found in SSE response" exactly when the concatenated data payload is empty; succeeds exactly when the payload is non-empty and parses, yielding the parsed response |
| Sse.CollectData | src/mcp/upstream-client.ts:73-80 | the loop over the `\n`-separated lines builds exactly the concatenation of `line[6..]` of every line starting with `data: `, in order |
| Sse.DataOfAppend | src/mcp/upstream-client.ts:76-80 | the payload of a concatenation of line lists is the concatenation of their payloads, so order is kept |
| Sse.OtherLinesIgnored | src/mcp/upstream-client.ts:76-80 | inserting a line that does not start with `data: ` anywhere changes nothing |
| Sse.DataEmptyIff | src/mcp/upstream-client.ts:82-84 | the payload is empty exactly when every data line is bare `data: `, which covers no data lines and empty data lines |
| Sse.SingleDataLine | src/mcp/upstream-client.ts:77-79 | a single `data: ` line yields its payload |
| Sse.EncodeDecodes | src/mcp/upstream-client.ts:72-80 | newline-free pieces sent as consecutive data lines decode to their concatenation |
| Sse.SplitPayloadRoundTrip | src/mcp/upstream-client.ts:72-80 | splitting a payload over several data lines decodes the same as sending it on one line: no separator is inserted |
| Strings.SplitJoin | src/mcp/upstream-client.ts:73 | splitting lines joined by `\n` gives back the lines when none holds `\n` |
| Strings.JoinSplit | src/mcp/upstream-client.ts:73 | joining the pieces of a split with `\n` gives back the text |
| Strings.ReplaceFirstOfPrefixed | src/mcp/upstream-client.ts:182 | removing the first occurrence of a prefix from a string that starts with it gives the rest |
| Upstream.NewClient | src/mcp/upstream-client.ts:56-66 | a new client is uninitialized, has no tools and its id counter stands at 0 |
| Upstream.ReadBody | src/mcp/upstream-client.ts:107-118 | a content type containing `text/event-stream` reads the body through the event-stream decoder; any other, or none, parses the body as JSON; it succeeds exactly when that parse does |
| Upstream.Exchange | src/mcp/upstream-client.ts:89-127 | succeeds exactly when the reply arrives with an ok status, decodes (event stream or JSON, by content type) and carries no `error`; the value is then the decoded response; a network failure is returned as is |
| Upstream.Initialize | src/mcp/upstream-client.ts:129-171 | no-op once initialized; otherwise sends `initialize` then `tools/list` with the next ids; the flag is set exactly when both exchanges succeed with a non-empty `protocolVersion` and a tool list, and then exactly those two requests (two ids) were sent and the tools are the upstream's list, same order, each name prefixed `<server>_`, other fields kept; on failure tools and flag are unchanged |
| Upstream.CallTool | src/mcp/upstream-client.ts:177-196 | initializes first when needed (its failure is returned and no call is sent); after a successful initialization exactly one more request is sent (one id), `tools/call` with the prefix-stripped name, the caller's arguments and the next id; succeeds exactly when that exchange does, yielding its `result` |
| Upstream.UnqualifyQualify | src/mcp/upstream-client.ts:165-182 | stripping the server prefix from a namespaced name gives back the raw name |
| Upstream.CallSendsRawName | src/mcp/upstream-client.ts:182-191 | on an initialized client, calling `<server>_<raw>` sends exactly one `tools/call` naming `raw`, with the caller's arguments and id `requestId + 1` |
| Upstream.FailedInitializeIsRetried | src/mcp/upstream-client.ts:170-180 | after a failed handshake the next call starts with a fresh `initialize` request |
| Upstream.RunNumbersRequests | src/mcp/upstream-client.ts:68-70 | over any sequence of operations the ids sent continue the counter one by one and the counter ends at the number sent |
| Upstream.RequestIdsCount | src/mcp/upstream-client.ts:61-70 | from a new client the ids on the wire are 1, 2, 3, … and strictly increase |
| Upstream.QualifyInjective | src/mcp/upstream-client.ts:165-168 | when server names hold no `_`, a namespaced name determines its server and raw name |
| Upstream.QualifyCollides | src/mcp/upstream-client.ts:165-168 | without that restriction two different server/tool pairs share one namespaced name |
| Gateway.Put | src/mcp/gateway-manager.ts:30-34 | `Map.set` on the client map: names stay distinct; an existing name keeps its position and gets the new client, a new name is appended at the end; every other entry stays at its position |
| Gateway.ConfigMap | src/mcp/gateway-manager.ts:24-26 | one entry per config name, holding the last config of that name |
| Gateway.SetupClients | src/mcp/gateway-manager.ts:30-35 | one fresh client per distinct config name, with the URL of that name's last config; clients are ordered by where each name first occurs among the configs, the `Map` insertion order that `getAllTools` follows |
| Gateway.SetupClientsOrder | src/mcp/gateway-manager.ts:31-34 | putting one more config's client keeps the clients in first-occurrence order: a repeated name stays where it was, a new name goes after all earlier ones |
| Gateway.NewManager | src/mcp/gateway-manager.ts:21-28 | a new manager is uninitialized with an empty index and one fresh client per config name, in first-occurrence order of the names |
| Gateway.FindSetting | src/mcp/gateway-manager.ts:53 | `find` returns the first setting with the raw name, or nothing when there is none |
| Gateway.EnabledIff | src/mcp/gateway-manager.ts:52-57 | a tool is enabled exactly when its config has no tool list, no setting of its raw name, or a first such setting that is enabled |
| Gateway.EnabledTools | src/mcp/gateway-manager.ts:84-91 | a client's listed tools are exactly those of its tools that pass the filter |
| Gateway.EnabledToolsAppend | src/mcp/gateway-manager.ts:84-91 | filtering distributes over concatenation, so each client's tool order is kept |
| Gateway.EnabledToolsOne | src/mcp/gateway-manager.ts:84-91 | a single tool is kept exactly when it passes the filter |
| Gateway.Register | src/mcp/gateway-manager.ts:50-61 | entering a client's tools adds exactly their names, all pointing at that client, and keeps other entries |
| Gateway.InitAll | src/mcp/gateway-manager.ts:42-68 | each client ends as its own handshake leaves it, independent of the others; the index gains exactly the enabled tool names of the clients that succeeded |
| Gateway.InitAllOwners | src/mcp/gateway-manager.ts:42-68 | every entry the fan-out adds points at a client whose handshake succeeded and whose enabled tools include that name |
| Gateway.Initialize | src/mcp/gateway-manager.ts:37-71 | no-op once run; otherwise initializes every client and ends initialized whatever their outcomes; every new index entry points at a succeeded client that lists an enabled tool of that name |
| Gateway.InitializeIdempotent | src/mcp/gateway-manager.ts:37-38 | running `initialize` twice is the same as running it once |
| Gateway.FailureIsolation | src/mcp/gateway-manager.ts:42-68 | whatever the other upstreams do, a succeeding client has all its enabled tools in the index and a failing one stays uninitialized with no tools |
| Gateway.GetAllTools | src/mcp/gateway-manager.ts:73-95 | initializes if needed; lists exactly the tools of the clients that pass the filter |
| Gateway.Listing | src/mcp/gateway-manager.ts:79-93 | a tool is listed exactly when some client holds it and it passes that client's filter |
| Gateway.ListingAppend | src/mcp/gateway-manager.ts:79-93 | the listing distributes over concatenation of the client sequence, so client insertion order is kept |
| Gateway.ListingOne | src/mcp/gateway-manager.ts:84-92 | one client contributes exactly its enabled tools, in its own order |
| Gateway.ListingNames | src/mcp/gateway-manager.ts:79-93 | the names listed are the names the clients contributed to the index |
| Gateway.CatalogMatchesIndex | src/mcp/gateway-manager.ts:50-93 | after initialization the names `getAllTools` lists are exactly the index keys |
| Gateway.IsUpstreamTool | src/mcp/gateway-manager.ts:118-120 | a membership test on the index that never initializes; false for every name on a new manager |
| Gateway.IsUpstreamToolMatchesCatalog | src/mcp/gateway-manager.ts:118-120 | after initialization a name is an upstream tool exactly when `getAllTools` lists a tool of that name |
| Gateway.CallUpstreamTool | src/mcp/gateway-manager.ts:97-116 | a name not in the index gives `null`; otherwise the owning client's call runs, its errors come back unchanged and only `content` of the result is kept |
| Gateway.IndexOwnersPresent | src/mcp/gateway-manager.ts:102-108 | every indexed name points at a present, initialized client that lists an enabled tool of that name |
| Gateway.EnabledToolIndexed | src/mcp/gateway-manager.ts:50-58 | every enabled tool of a client after initialization is in the index |
| Gateway.ToolsNamespaced | src/mcp/upstream-client.ts:165-168 | after a handshake from scratch every tool a client holds carries that client's prefix |
| Gateway.RoutesToOwner | src/mcp/gateway-manager.ts:50-58 | with distinct, underscore-free server names, every enabled tool of a succeeded client is indexed under that client and dispatch finds that client, whatever the other upstreams list |
| ToolFetcher.FetchServerTools | src/mcp/tool-fetcher.ts:10-31 | a failed handshake on a new client gives `[]`; otherwise the upstream's tools in order with their raw names, descriptions and schemas |
| Auth.BearerToken | src/middleware/mcp-auth.ts:28-29 | a token is found only when the header is `Bearer ` followed by a non-empty rest without line terminators, and the token is that rest |
| Auth.BearerTokenComplete | src/middleware/mcp-auth.ts:29 | every header of that shape yields its token |
| Auth.ValidateMcpAuth | src/middleware/mcp-auth.ts:21-84 | with a token, valid exactly when verification succeeds (else "Authentication validation failed"), the context taken from the claims; without one, a missing user gives "No authenticated user session found", a failing lookup "Bearer token required for MCP client authentication", and a user gives the context of its id, email and organization (empty read as absent); valid exactly when a context is present |
| Auth.TokenIgnoresSession | src/middleware/mcp-auth.ts:31-47 | a present token never falls back to the session |
| Auth.SessionIgnoresVerifier | src/middleware/mcp-auth.ts:49-76 | without a token the verifier is never consulted |
| Auth.SessionOrganization | src/middleware/mcp-auth.ts:60-64 | a session user's empty organization id reads as absent |
| Auth.WwwAuthenticate | src/middleware/mcp-auth.ts:13-19 | the challenge is the Bearer error part, the description part and `resource_metadata="<base>/.well-known/oauth-protected-resource"`, joined by `", "` |
| Auth.AuthError | src/middleware/mcp-auth.ts:86-101 | the error response: the given status, the challenge header for the base URL, JSON content, and a body of "Authentication failed", the message and the timestamp |
| Auth.WithMcpAuth | src/middleware/mcp-auth.ts:103-120 | an invalid result gives a 401 with the challenge for `protocol//host` and the error (or "Unauthorized") as message; a valid one runs the handler with the context |
| Auth.RejectionIgnoresHandler | src/middleware/mcp-auth.ts:109-113 | a rejection does not depend on the handler: it is never run |
| Auth.ValidatedGate | src/middleware/mcp-auth.ts:103-120 | through validation, a rejection carries one of the validator's three messages and a valid request reaches the handler with a context |
| Route.Dispatch | src/app/api/mcp/route.ts:18-124 | every JSON body has `jsonrpc` "2.0" and exactly one of `result`/`error`; -32600 with status 400 exactly when `jsonrpc` is not "2.0", with the id if truthy else null; `initialized` gives 204 with no body; an unreadable body gives 400 with -32700 and a null id |
| Route.InitializeAnsweredLocally | src/app/api/mcp/route.ts:42-61 | `initialize` is answered with the fixed result and the request's id, whatever the handler does |
| Route.OtherMethodsDelegated | src/app/api/mcp/route.ts:67-87 | any other method returns the handler's value as `result`; a throw becomes -32601 "Method not found: <method>" with the thrown message as `data` |
| Route.ZeroIdBecomesNull | src/app/api/mcp/route.ts:22-33 | an invalid request with id 0 is answered with a null id |
| Route.Post | src/app/api/mcp/route.ts:16-17 | authentication comes first; only a validated request is dispatched, with its context |
| Seqs.FirstIndex | convex/users.ts:13-16 | the lookup finds the first row with the key, and nothing exactly when no row has it |
| Seqs.FirstIndexIs | convex/users.ts:13-16 | the first row with the key is the one the lookup finds |
| Json.NatToString | src/app/api/mcp/route.ts:83 | a number interpolated into the message is rendered as decimal digits with no leading zero that denote the number |
| Tables.Where | convex/mcpServers.ts:41-44 | an index query returns exactly the rows with the key |
| Users.WithServer | convex/users.ts:33-39 | enabling appends the id at the end exactly when it is absent, never duplicates, and otherwise leaves the list as it was |
| Users.WithoutServer | convex/users.ts:40-43 | disabling keeps exactly the ids different from the server |
| Users.WithoutServerAppend | convex/users.ts:42 | removal distributes over concatenation, so the other ids keep their order |
| Users.WithoutAbsent | convex/users.ts:42 | removing an absent id changes nothing |
| Users.EnableThenDisable | convex/users.ts:33-43 | enabling then disabling a server that was not enabled restores the list |
| Users.GetUserEnabledServers | convex/users.ts:54-70 | an unknown user has the empty list; a known user's list is its `enabledServers`, read as empty when absent |
| Users.ToggleServerEnabled | convex/users.ts:5-52 | an unknown user gets a new row with `[serverId]` or `[]`; otherwise only the user's first row changes, in its list and `updatedAt`, and its id is returned |
| Users.ToggleEffect | convex/users.ts:5-52 | afterwards the server is enabled exactly when switched on, and every other server as before |
| Users.ToggleIdempotent | convex/users.ts:33-48 | toggling twice the same way leaves the same enabled list as once |
| Users.GetOrCreateUser | convex/users.ts:72-95 | an existing row comes back with nothing changed; otherwise a row with an empty list is inserted, returned, and then found for the user |
| McpServers.AddMcpServer | convex/mcpServers.ts:4-34 | rejected with `Server with name "<name>" already exists` exactly when the user has a server of that name; otherwise exactly one row with the given fields is appended and its id returned |
| McpServers.AddKeepsNamesUnique | convex/mcpServers.ts:14-30 | registration keeps server names unique per user |
| McpServers.SameNameOtherUser | convex/mcpServers.ts:14-21 | a name used only by another user is accepted |
| McpServers.ListMcpServers | convex/mcpServers.ts:36-48 | exactly the rows of the user |
| McpServers.GetMcpServers | convex/mcpServers.ts:50-75 | the user's rows in order, each enabled exactly when its id is in the user's list; all off without a user row |
| McpServers.Resolve | convex/mcpServers.ts:94-108 | one enabled entry per id whose row still exists, and nothing for a deleted one |
| McpServers.ResolveAppend | convex/mcpServers.ts:94-108 | resolution distributes over concatenation of the id list, so entries follow list order |
| McpServers.ResolveOne | convex/mcpServers.ts:95-104 | one id resolves to its server's entry, or to nothing once the row is gone |
| McpServers.GetUserEnabledMcpServers | convex/mcpServers.ts:77-110 | empty for an unknown user or an empty list; otherwise exactly the entries of the listed ids whose rows exist, all enabled |
| McpServers.ListOrganizationServers | convex/mcpServers.ts:112-143 | exactly the organization's rows in order, each enabled only when a non-empty user id is given and that user's list holds it |
| McpServers.UpdateMcpServer | convex/mcpServers.ts:145-167 | nothing supplied gives "No updates provided"; otherwise exactly the supplied fields of that row change, and nothing else |
| McpServers.DeleteMcpServer | convex/mcpServers.ts:169-177 | exactly the rows with another id remain; the users table is untouched |
| McpServers.DeleteLeavesDanglingIds | convex/mcpServers.ts:169-177 | a deletion leaves every enabled list as it was, while the resolved enabled servers no longer include the deleted one |

## Left out

- Logging: every `console.log`/`console.error` call has no effect on results and is not modelled.
- HTTP and JSON are parameters, as listed in the table above: request headers, `JSON.stringify`, the `Accept` header and the `McpResponse` casts are not modelled. A decoded value of an unexpected shape (say, `tools` not an array) is the parser parameter's business.
- Concurrency: `Promise.all` is a sequential fold. If two clients expose the same namespaced name, the index entry goes to the later client in the model and to the later-settling one in the code.
- `src/mcp/streaming-server.ts` is not part of this model. Its `handleRequest` is the `Route.Handler` parameter, and the model's handler always returns a JSON value.
- Route.Dispatch: a handler that resolves to `undefined` is not modelled. In the code its response body then has neither `result` nor `error`.
- The `GET` and `OPTIONS` handlers of `src/app/api/mcp/route.ts` are not modelled. They return constant metadata and the context.
- JWT verification against the remote key set and the WorkOS session lookup are the `Auth.Verifier` and `Auth.Session` parameters. The issuer check happens inside the verifier.
- Auth.WithMcpAuth: the base URL is `protocol + "//" + host` as given. URL parsing is not modelled.
- Timestamps (`Date.now()`, `new Date().toISOString()`) and Convex-generated ids are parameters. An id passed in must be free in the tables (`Tables.IdFree`).
- Convex runtime: `.first()` on an index is the first matching row in table order, and `.collect()` keeps table order. Transactions are not modelled, and each mutation is one step.
- McpServers.UpdateMcpServer: patching a row that does not exist is an error with a stand-in message. The runtime's own wording is not modelled.
- McpServers.DeleteMcpServer: deleting an id that is not in the table changes nothing. In the runtime it throws.
- Json.Display: JSON numbers are integers throughout the model (`Json.JNum` holds an `int`). Fractional numbers cannot be expressed anywhere: not as a request `id` (route.ts lines 26, 45 and 74 echo it), not in `params` or tool `arguments`, not in tool schemas. Rendering is plain decimal for every integer, whereas JavaScript writes integers of 1e21 or more in exponent form (`1e+21`); neither exponent nor fractional rendering is modelled, because floating-point formatting is outside the model.
- One network function serves every client: a reply depends on the URL and the request only. Two registered servers with the same URL therefore see the same replies, and their handshakes succeed or fail together, while in the code each fetch is independent. Failure isolation is stated between clients as such, not between fetches to one URL.
- Getters (`getTools`, `getName`) are the client's `tools` and `name` fields.
