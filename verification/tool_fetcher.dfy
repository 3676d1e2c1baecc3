/** Tool discovery for a server being registered (src/mcp/tool-fetcher.ts,
    `ToolFetcher.fetchServerTools`): a fresh client runs the handshake and its
    tools come back under their raw names; any failure gives an empty list. */
module ToolFetcher {
  import opened Results
  import opened Json
  import opened Protocol
  import opened Upstream

  /** The fields the fetcher keeps of each tool. */
  datatype ServerTool = ServerTool(name: string, description: Option<string>, inputSchema: Option<Json>)

  /** Each call builds a new client, so nothing carries over between calls. On a
      successful handshake the result lists the upstream's tools in order, under
      their raw names, with description and schema carried over; otherwise it is
      empty. */
  function FetchServerTools(serverName: string, serverUrl: string, net: Transport, decode: Decoder)
    : (r: seq<ServerTool>)
    ensures !HandshakeSucceeds(NewClient(serverName, serverUrl), net, decode) ==> r == []
    ensures HandshakeSucceeds(NewClient(serverName, serverUrl), net, decode) ==>
              var raw := Discovered(NewClient(serverName, serverUrl), net, decode);
              |r| == |raw| &&
              forall i :: 0 <= i < |raw| ==>
                r[i] == ServerTool(raw[i].name, raw[i].description, raw[i].inputSchema)
  {
    var c := NewClient(serverName, serverUrl);
    var s := Upstream.Initialize(c, net, decode);
    if s.out.Err? then []
    else
      var tools := s.client.tools;
      var r := seq(|tools|, i requires 0 <= i < |tools| =>
        ServerTool(Unqualify(serverName, tools[i].name), tools[i].description, tools[i].inputSchema));
      assert forall i :: 0 <= i < |tools| ==> r[i].name == Discovered(c, net, decode)[i].name by {
        forall i | 0 <= i < |tools| ensures r[i].name == Discovered(c, net, decode)[i].name {
          UnqualifyQualify(serverName, Discovered(c, net, decode)[i].name);
        }
      }
      r
  }
}
