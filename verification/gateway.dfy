/** The catalog builder (src/mcp/gateway-manager.ts, `GatewayManager`): one client
    per configured upstream, a handshake with each whose failures stay isolated, a
    per-tool enable filter, and the index from namespaced tool name to owning
    client. The manager is an immutable value threaded through its operations. */
module Gateway {
  import opened Results
  import opened Json
  import opened Protocol
  import opened Upstream
  import opened Seqs

  /** A per-tool entry of an upstream's configuration. */
  datatype ToolSetting = ToolSetting(name: string, description: Option<string>,
                                     inputSchema: Option<Json>, enabled: bool)

  datatype UpstreamConfig = UpstreamConfig(name: string, url: string, tools: Option<seq<ToolSetting>>)

  /** `clients` is an insertion-ordered map keyed by client name; `index` maps a
      namespaced tool name to the name of the client that owns it. */
  datatype Manager = Manager(configs: seq<UpstreamConfig>,
                             configByName: map<string, UpstreamConfig>,
                             clients: seq<Client>,
                             index: map<string, string>,
                             initialized: bool)

  /** What `callUpstreamTool` returns for a found tool: only the result's `content`. */
  datatype ToolReply = ToolReply(content: Option<seq<Content>>)

  // ---------------------------------------------------------------------------
  // Construction

  predicate DistinctNames(cs: seq<Client>) {
    forall i, j :: 0 <= i < j < |cs| ==> cs[i].name != cs[j].name
  }

  function ClientNames(cs: seq<Client>): set<string> {
    set c | c in cs :: c.name
  }

  function ConfigNames(configs: seq<UpstreamConfig>): set<string> {
    set cfg | cfg in configs :: cfg.name
  }

  /** The first position of a client with the given name; none exactly when no
      client has it. */
  function Position(cs: seq<Client>, name: string): (r: Option<nat>)
    ensures r.Some? ==> r.value < |cs| && cs[r.value].name == name
    ensures r.Some? ==> forall j :: 0 <= j < r.value ==> cs[j].name != name
    ensures r.None? <==> name !in ClientNames(cs)
  {
    FirstIndex(cs, (c: Client) => c.name == name)
  }

  /** `Map.set` on the client map: an existing key keeps its position and gets the
      new value; a new key goes at the end. */
  function Put(cs: seq<Client>, c: Client): (r: seq<Client>)
    requires DistinctNames(cs)
    ensures DistinctNames(r)
    ensures ClientNames(r) == ClientNames(cs) + {c.name}
    ensures c in r
    ensures forall d :: d in r ==> d == c || (d in cs && d.name != c.name)
    ensures |r| == |cs| + (if c.name in ClientNames(cs) then 0 else 1)
    ensures forall j :: 0 <= j < |cs| && cs[j].name != c.name ==> r[j] == cs[j]
    ensures c.name in ClientNames(cs) ==> r[Position(cs, c.name).value] == c
    ensures c.name !in ClientNames(cs) ==> r[|cs|] == c
  {
    match Position(cs, c.name)
    case None => cs + [c]
    case Some(i) =>
      var r := cs[i := c];
      assert ClientNames(r) == ClientNames(cs) by {
        forall n | n in ClientNames(cs) ensures n in ClientNames(r) {
          var k :| 0 <= k < |cs| && cs[k].name == n;
          assert r[k].name == n;
        }
        forall n | n in ClientNames(r) ensures n in ClientNames(cs) {
          var k :| 0 <= k < |r| && r[k].name == n;
          assert cs[k].name == n;
        }
      }
      assert forall d :: d in cs && d.name != c.name ==> d in r by {
        forall d | d in cs && d.name != c.name ensures d in r {
          var k :| 0 <= k < |cs| && cs[k] == d;
          assert r[k] == d;
        }
      }
      r
  }

  /** `configByServerName`: the last config of each name wins. */
  function ConfigMap(configs: seq<UpstreamConfig>): (m: map<string, UpstreamConfig>)
    ensures m.Keys == ConfigNames(configs)
    ensures forall j :: 0 <= j < |configs| && (forall k :: j < k < |configs| ==> configs[k].name != configs[j].name)
                        ==> m[configs[j].name] == configs[j]
    ensures forall n :: n in m ==> m[n] in configs && m[n].name == n
  {
    if |configs| == 0 then map[]
    else
      var init := configs[..|configs| - 1];
      var last := configs[|configs| - 1];
      assert configs == init + [last];
      var m := ConfigMap(init)[last.name := last];
      assert forall j :: 0 <= j < |init| ==> init[j] == configs[j];
      m
  }

  /** The position of the first config with the given name. */
  function ConfigPosition(configs: seq<UpstreamConfig>, name: string): Option<nat> {
    FirstIndex(configs, (cfg: UpstreamConfig) => cfg.name == name)
  }

  /** Clients ordered by where each name first occurs among the configs: the
      insertion order of a `Map` filled by `set` in config order. */
  predicate InFirstOccurrenceOrder(cs: seq<Client>, configs: seq<UpstreamConfig>) {
    forall i, j :: 0 <= i < j < |cs| ==>
      var p, q := ConfigPosition(configs, cs[i].name), ConfigPosition(configs, cs[j].name);
      p.Some? && q.Some? && p.value < q.value
  }

  lemma ConfigPositionSome(configs: seq<UpstreamConfig>, name: string)
    requires name in ConfigNames(configs)
    ensures ConfigPosition(configs, name).Some?
  {
  }

  /** `setupUpstreamClients`: a fresh client per config, put in order. */
  function SetupClients(configs: seq<UpstreamConfig>): (cs: seq<Client>)
    ensures DistinctNames(cs)
    ensures ClientNames(cs) == ConfigNames(configs)
    ensures forall c :: c in cs ==> c == NewClient(c.name, ConfigMap(configs)[c.name].url)
    ensures InFirstOccurrenceOrder(cs, configs)
  {
    if |configs| == 0 then []
    else
      var init := configs[..|configs| - 1];
      var last := configs[|configs| - 1];
      assert configs == init + [last];
      assert ConfigNames(configs) == ConfigNames(init) + {last.name};
      var prev := SetupClients(init);
      var c := NewClient(last.name, last.url);
      var r := Put(prev, c);
      SetupClientsOrder(init, last, prev, r);
      r
  }

  /** One step of `setupUpstreamClients` keeps the first-occurrence order. */
  lemma SetupClientsOrder(init: seq<UpstreamConfig>, last: UpstreamConfig, prev: seq<Client>, r: seq<Client>)
    requires DistinctNames(prev) && ClientNames(prev) == ConfigNames(init)
    requires InFirstOccurrenceOrder(prev, init)
    requires r == Put(prev, NewClient(last.name, last.url))
    ensures InFirstOccurrenceOrder(r, init + [last])
  {
    var configs := init + [last];
    forall n | n in ConfigNames(init)
      ensures ConfigPosition(configs, n) == ConfigPosition(init, n)
    {
      ConfigPositionSome(init, n);
      FirstIndexPrefix(init, [last], (cfg: UpstreamConfig) => cfg.name == n);
    }
    if last.name in ClientNames(prev) {
      assert forall j :: 0 <= j < |r| ==> r[j].name == prev[j].name;
    } else {
      FirstIndexAppended(init, last, (cfg: UpstreamConfig) => cfg.name == last.name);
      assert r == prev + [r[|prev|]];
      forall i | 0 <= i < |prev| ensures prev[i].name in ConfigNames(init) {
        assert prev[i] in prev;
      }
    }
  }

  /** No handshake has run: empty index, every client fresh. */
  predicate Fresh(g: Manager) {
    && !g.initialized
    && g.index == map[]
    && DistinctNames(g.clients)
    && forall c :: c in g.clients ==> !c.initialized && c.tools == []
  }

  /** The constructor: one fresh client per distinct name, with the URL of the
      LAST config of that name, and the config lookup by name. */
  function NewManager(configs: seq<UpstreamConfig>): (g: Manager)
    ensures Fresh(g)
    ensures g.configs == configs && g.configByName == ConfigMap(configs)
    ensures ClientNames(g.clients) == ConfigNames(configs)
    ensures forall c :: c in g.clients ==> c.url == g.configByName[c.name].url
    ensures InFirstOccurrenceOrder(g.clients, configs)
  {
    Manager(configs, ConfigMap(configs), SetupClients(configs), map[], false)
  }

  // ---------------------------------------------------------------------------
  // Enable filter

  /** `tools.find(t => t.name === raw)`: the first setting with that name. */
  function FindSetting(ts: seq<ToolSetting>, raw: string): (r: Option<ToolSetting>)
    ensures r.None? <==> forall k :: 0 <= k < |ts| ==> ts[k].name != raw
    ensures r.Some? ==> exists k :: 0 <= k < |ts| && ts[k] == r.value && ts[k].name == raw &&
                                    forall j :: 0 <= j < k ==> ts[j].name != raw
  {
    if |ts| == 0 then None
    else if ts[0].name == raw then Some(ts[0])
    else
      var r := FindSetting(ts[1..], raw);
      assert forall k :: 1 <= k < |ts| ==> ts[1..][k - 1] == ts[k];
      if r.Some? then
        var k :| 0 <= k < |ts[1..]| && ts[1..][k] == r.value && ts[1..][k].name == raw &&
                 forall j :: 0 <= j < k ==> ts[1..][j].name != raw;
        assert ts[k + 1] == r.value;
        r
      else r
  }

  /** `!configTool || configTool.enabled` for a raw tool name. */
  predicate Enabled(config: Option<UpstreamConfig>, raw: string) {
    match config
    case None => true
    case Some(cfg) =>
      match cfg.tools
      case None => true
      case Some(ts) =>
        match FindSetting(ts, raw)
        case None => true
        case Some(t) => t.enabled
  }

  /** A tool is enabled exactly when its upstream's config lists no setting for its
      raw name, or the FIRST such setting says enabled. */
  lemma EnabledIff(cfg: UpstreamConfig, raw: string)
    ensures Enabled(Some(cfg), raw) <==>
            || cfg.tools.None?
            || (forall k :: 0 <= k < |cfg.tools.value| ==> cfg.tools.value[k].name != raw)
            || (exists k :: 0 <= k < |cfg.tools.value| && cfg.tools.value[k].name == raw &&
                  cfg.tools.value[k].enabled &&
                  forall j :: 0 <= j < k ==> cfg.tools.value[j].name != raw)
  {
    if cfg.tools.Some? {
      var ts := cfg.tools.value;
      var r := FindSetting(ts, raw);
      if r.Some? {
        var k :| 0 <= k < |ts| && ts[k] == r.value && ts[k].name == raw &&
                 forall j :: 0 <= j < k ==> ts[j].name != raw;
        forall k' | 0 <= k' < |ts| && ts[k'].name == raw && forall j :: 0 <= j < k' ==> ts[j].name != raw
          ensures k' == k
        {
        }
      }
    }
  }

  function ConfigOf(configs: map<string, UpstreamConfig>, name: string): Option<UpstreamConfig> {
    if name in configs then Some(configs[name]) else None
  }

  /** The filter both the index and the listing apply to a client's tool. */
  predicate ToolEnabled(configs: map<string, UpstreamConfig>, c: Client, t: Tool) {
    Enabled(ConfigOf(configs, c.name), Unqualify(c.name, t.name))
  }

  /** The enabled tools of a client, in the client's order. */
  function EnabledTools(configs: map<string, UpstreamConfig>, c: Client, tools: seq<Tool>): (r: seq<Tool>)
    ensures forall t :: t in r <==> t in tools && ToolEnabled(configs, c, t)
    ensures |r| <= |tools|
  {
    if |tools| == 0 then []
    else
      var rest := EnabledTools(configs, c, tools[1..]);
      assert forall t :: t in tools <==> t == tools[0] || t in tools[1..] by {
        assert tools == [tools[0]] + tools[1..];
      }
      if ToolEnabled(configs, c, tools[0]) then [tools[0]] + rest else rest
  }

  /** Filtering keeps each client's tool order: it distributes over
      concatenation ... */
  lemma {:induction false} EnabledToolsAppend(configs: map<string, UpstreamConfig>, c: Client, a: seq<Tool>, b: seq<Tool>)
    ensures EnabledTools(configs, c, a + b) == EnabledTools(configs, c, a) + EnabledTools(configs, c, b)
    decreases |a|
  {
    if |a| == 0 {
      assert a + b == b;
    } else {
      assert (a + b)[0] == a[0];
      assert (a + b)[1..] == a[1..] + b;
      EnabledToolsAppend(configs, c, a[1..], b);
    }
  }

  /** ... and keeps or drops a single tool by the filter. */
  lemma EnabledToolsOne(configs: map<string, UpstreamConfig>, c: Client, t: Tool)
    ensures EnabledTools(configs, c, [t]) == if ToolEnabled(configs, c, t) then [t] else []
  {
    assert [t][1..] == [];
  }

  function Names(ts: seq<Tool>): set<string> {
    set t | t in ts :: t.name
  }

  // ---------------------------------------------------------------------------
  // Initialization

  /** Enter every tool of `ts` in the index, owned by `owner`. */
  function Register(index: map<string, string>, owner: string, ts: seq<Tool>): (r: map<string, string>)
    ensures r.Keys == index.Keys + Names(ts)
    ensures forall k :: k in Names(ts) ==> r[k] == owner
    ensures forall k :: k in index && k !in Names(ts) ==> r[k] == index[k]
    decreases |ts|
  {
    if |ts| == 0 then index
    else
      assert Names(ts) == {ts[0].name} + Names(ts[1..]) by {
        assert ts == [ts[0]] + ts[1..];
      }
      Register(index[ts[0].name := owner], owner, ts[1..])
  }

  /** The index keys an initialized client contributes; a client whose handshake
      failed contributes none. */
  function Contribution(configs: map<string, UpstreamConfig>, c: Client): set<string> {
    if c.initialized then Names(EnabledTools(configs, c, c.tools)) else {}
  }

  function Contributions(configs: map<string, UpstreamConfig>, cs: seq<Client>): set<string> {
    if |cs| == 0 then {} else Contribution(configs, cs[0]) + Contributions(configs, cs[1..])
  }

  /** The fan-out over clients, as a sequential fold: each client runs its own
      handshake; a success enters its enabled tools in the index, a failure is
      swallowed. Each client's outcome depends on that client alone. */
  function InitAll(cs: seq<Client>, configs: map<string, UpstreamConfig>, index: map<string, string>,
                   net: Transport, decode: Decoder): (r: (seq<Client>, map<string, string>))
    ensures |r.0| == |cs|
    ensures forall i :: 0 <= i < |cs| ==> r.0[i] == Upstream.Initialize(cs[i], net, decode).client
    ensures r.1.Keys == index.Keys + Contributions(configs, r.0)
    decreases |cs|
  {
    if |cs| == 0 then ([], index)
    else
      var s := Upstream.Initialize(cs[0], net, decode);
      var rest := InitAll(cs[1..], configs, Enter(index, configs, s), net, decode);
      var r := ([s.client] + rest.0, rest.1);
      assert r.0[1..] == rest.0;
      r
  }

  /** What one client's handshake adds to the index: its enabled tools on success,
      nothing on failure. */
  function Enter(index: map<string, string>, configs: map<string, UpstreamConfig>, s: Step<()>): map<string, string> {
    if s.out.Ok? then Register(index, s.client.name, EnabledTools(configs, s.client, s.client.tools))
    else index
  }

  /** Every index entry the fan-out adds routes the name to a client whose
      handshake succeeded and whose enabled tools include that name. */
  lemma {:induction false} InitAllOwners(cs: seq<Client>, configs: map<string, UpstreamConfig>,
                                         index: map<string, string>, net: Transport, decode: Decoder)
    ensures var r := InitAll(cs, configs, index, net, decode);
            forall k :: k in r.1 ==>
              (k in index && r.1[k] == index[k]) ||
              exists i :: 0 <= i < |r.0| && r.0[i].initialized && r.1[k] == r.0[i].name &&
                          k in Contribution(configs, r.0[i])
    decreases |cs|
  {
    if |cs| > 0 {
      var s := Upstream.Initialize(cs[0], net, decode);
      var index1 := Enter(index, configs, s);
      InitAllOwners(cs[1..], configs, index1, net, decode);
      var rest := InitAll(cs[1..], configs, index1, net, decode);
      var r := InitAll(cs, configs, index, net, decode);
      assert r.1 == rest.1 && r.0 == [s.client] + rest.0;
      forall k | k in r.1
        ensures (k in index && r.1[k] == index[k]) ||
                exists i :: 0 <= i < |r.0| && r.0[i].initialized && r.1[k] == r.0[i].name &&
                            k in Contribution(configs, r.0[i])
      {
        if k in index1 && rest.1[k] == index1[k] {
          if !(k in index && index1[k] == index[k]) {
            assert s.out.Ok? && index1[k] == s.client.name;
            assert s.client.initialized;
            assert k in Names(EnabledTools(configs, s.client, s.client.tools));
            assert r.0[0] == s.client;
          }
        } else {
          var i :| 0 <= i < |rest.0| && rest.0[i].initialized && rest.1[k] == rest.0[i].name &&
                   k in Contribution(configs, rest.0[i]);
          assert r.0[i + 1] == rest.0[i];
        }
      }
    }
  }

  /** `initialize`: a no-op once run; otherwise every client is initialized and the
      manager is marked initialized whatever their outcomes. */
  function Initialize(g: Manager, net: Transport, decode: Decoder): (r: Manager)
    ensures g.initialized ==> r == g
    ensures r.initialized
    ensures r.configs == g.configs && r.configByName == g.configByName
    ensures !g.initialized ==>
              && |r.clients| == |g.clients|
              && (forall i :: 0 <= i < |g.clients| ==>
                    r.clients[i] == Upstream.Initialize(g.clients[i], net, decode).client)
              && r.index.Keys == g.index.Keys + Contributions(g.configByName, r.clients)
    ensures forall k :: k in r.index && k !in g.index ==>
              exists i :: 0 <= i < |r.clients| && r.clients[i].initialized && r.index[k] == r.clients[i].name &&
                          k in Contribution(r.configByName, r.clients[i])
  {
    if g.initialized then g
    else
      var r := InitAll(g.clients, g.configByName, g.index, net, decode);
      InitAllOwners(g.clients, g.configByName, g.index, net, decode);
      g.(clients := r.0, index := r.1, initialized := true)
  }

  // ---------------------------------------------------------------------------
  // Listing and dispatch

  /** The enabled tools of every client, client by client, each in its own
      order: a tool is listed exactly when some client holds it and it passes
      that client's filter. */
  function Listing(configs: map<string, UpstreamConfig>, cs: seq<Client>): (r: seq<Tool>)
    ensures forall t :: t in r <==>
              exists i :: 0 <= i < |cs| && t in cs[i].tools && ToolEnabled(configs, cs[i], t)
    decreases |cs|
  {
    if |cs| == 0 then []
    else
      var head := EnabledTools(configs, cs[0], cs[0].tools);
      var rest := Listing(configs, cs[1..]);
      assert forall t :: t in head + rest ==>
               exists i :: 0 <= i < |cs| && t in cs[i].tools && ToolEnabled(configs, cs[i], t) by {
        forall t | t in head + rest
          ensures exists i :: 0 <= i < |cs| && t in cs[i].tools && ToolEnabled(configs, cs[i], t)
        {
          if t !in head {
            var i :| 0 <= i < |cs[1..]| && t in cs[1..][i].tools && ToolEnabled(configs, cs[1..][i], t);
            assert cs[i + 1] == cs[1..][i];
          }
        }
      }
      assert forall t :: (exists i :: 0 <= i < |cs| && t in cs[i].tools && ToolEnabled(configs, cs[i], t)) ==>
               t in head + rest by {
        forall t | exists i :: 0 <= i < |cs| && t in cs[i].tools && ToolEnabled(configs, cs[i], t)
          ensures t in head + rest
        {
          var i :| 0 <= i < |cs| && t in cs[i].tools && ToolEnabled(configs, cs[i], t);
          if i > 0 {
            assert cs[1..][i - 1] == cs[i];
          }
        }
      }
      head + rest
  }

  /** `getAllTools`: initializes if needed, then lists the enabled tools. */
  function GetAllTools(g: Manager, net: Transport, decode: Decoder): (r: (Manager, seq<Tool>))
    ensures r.0 == Initialize(g, net, decode)
    ensures forall t :: t in r.1 <==>
              exists i :: 0 <= i < |r.0.clients| && t in r.0.clients[i].tools && ToolEnabled(r.0.configByName, r.0.clients[i], t)
  {
    var g1 := Initialize(g, net, decode);
    (g1, Listing(g1.configByName, g1.clients))
  }

  /** Listing keeps client order: it distributes over concatenation of the
      client sequence. */
  lemma {:induction false} ListingAppend(configs: map<string, UpstreamConfig>, a: seq<Client>, b: seq<Client>)
    ensures Listing(configs, a + b) == Listing(configs, a) + Listing(configs, b)
    decreases |a|
  {
    if |a| == 0 {
      assert a + b == b;
    } else {
      assert (a + b)[0] == a[0];
      assert (a + b)[1..] == a[1..] + b;
      ListingAppend(configs, a[1..], b);
    }
  }

  /** One client lists exactly its enabled tools. */
  lemma ListingOne(configs: map<string, UpstreamConfig>, c: Client)
    ensures Listing(configs, [c]) == EnabledTools(configs, c, c.tools)
  {
    assert [c][1..] == [];
  }

  /** When every uninitialized client holds no tools, the names listed are exactly
      the keys the clients contributed to the index. */
  lemma {:induction false} ListingNames(configs: map<string, UpstreamConfig>, cs: seq<Client>)
    requires forall c :: c in cs ==> c.initialized || c.tools == []
    ensures Names(Listing(configs, cs)) == Contributions(configs, cs)
    decreases |cs|
  {
    if |cs| > 0 {
      assert forall c :: c in cs[1..] ==> c in cs;
      ListingNames(configs, cs[1..]);
      var head := EnabledTools(configs, cs[0], cs[0].tools);
      assert Names(head + Listing(configs, cs[1..])) == Names(head) + Names(Listing(configs, cs[1..])) by {
        var both := head + Listing(configs, cs[1..]);
        assert forall t :: t in both <==> t in head || t in Listing(configs, cs[1..]);
      }
      if !cs[0].initialized {
        assert cs[0] in cs;
        assert head == [];
      }
    }
  }

  /** After initialization of a fresh manager, the names `getAllTools` lists are
      exactly the keys of the index: both apply the same filter. */
  lemma CatalogMatchesIndex(g: Manager, net: Transport, decode: Decoder)
    requires Fresh(g)
    ensures var r := GetAllTools(g, net, decode);
            Names(r.1) == r.0.index.Keys
  {
    var g1 := Initialize(g, net, decode);
    forall c | c in g1.clients ensures c.initialized || c.tools == [] {
      var i :| 0 <= i < |g1.clients| && g1.clients[i] == c;
      assert g.clients[i] in g.clients;
    }
    ListingNames(g1.configByName, g1.clients);
  }

  lemma {:induction false} ContributionsInclude(configs: map<string, UpstreamConfig>, cs: seq<Client>, j: nat)
    requires j < |cs|
    ensures Contribution(configs, cs[j]) <= Contributions(configs, cs)
    decreases j
  {
    if j > 0 {
      ContributionsInclude(configs, cs[1..], j - 1);
      assert cs[1..][j - 1] == cs[j];
    }
  }

  /** Failure isolation: whatever the other upstreams do, a client whose handshake
      succeeds has all its enabled tools in the index, and a client whose handshake
      fails contributes nothing. */
  lemma FailureIsolation(g: Manager, net: Transport, decode: Decoder, j: nat)
    requires Fresh(g) && j < |g.clients|
    ensures var g1 := Initialize(g, net, decode);
            var s := Upstream.Initialize(g.clients[j], net, decode);
            && (s.out.Ok? ==> Names(EnabledTools(g.configByName, s.client, s.client.tools)) <= g1.index.Keys)
            && (s.out.Err? ==> !g1.clients[j].initialized && g1.clients[j].tools == [])
  {
    var g1 := Initialize(g, net, decode);
    ContributionsInclude(g.configByName, g1.clients, j);
    assert g.clients[j] in g.clients;
  }

  /** `initialize` is idempotent. */
  lemma InitializeIdempotent(g: Manager, net: Transport, decode: Decoder)
    ensures Initialize(Initialize(g, net, decode), net, decode) == Initialize(g, net, decode)
  {
  }

  /** `isUpstreamTool`: membership in the index as it stands; it never initializes,
      so on a fresh manager it answers false for every name. */
  function IsUpstreamTool(g: Manager, name: string): (r: bool)
    ensures Fresh(g) ==> !r
  {
    name in g.index
  }

  /** After initialization of a fresh manager, a name is an upstream tool exactly
      when `getAllTools` lists a tool of that name. */
  lemma IsUpstreamToolMatchesCatalog(g: Manager, net: Transport, decode: Decoder, name: string)
    requires Fresh(g)
    ensures var r := GetAllTools(g, net, decode);
            IsUpstreamTool(r.0, name) <==> exists t :: t in r.1 && t.name == name
  {
    CatalogMatchesIndex(g, net, decode);
  }

  /** `callUpstreamTool`: initializes if needed; a name not in the index gives
      `None` (the source's `null`); otherwise the owning client runs the call, and
      the reply keeps only the result's `content`. The client's errors come back
      unchanged; a response without a `result` fails reading `content`. */
  function CallUpstreamTool(g: Manager, net: Transport, decode: Decoder, name: string, arguments: Json)
    : (r: (Manager, Result<Option<ToolReply>, string>))
    ensures var g1 := Initialize(g, net, decode);
            name !in g1.index ==> r == (g1, Ok(None))
    ensures var g1 := Initialize(g, net, decode);
            r.0.index == g1.index && r.0.initialized && |r.0.clients| == |g1.clients|
    ensures var g1 := Initialize(g, net, decode);
            name in g1.index && Position(g1.clients, g1.index[name]).Some? ==>
              var i := Position(g1.clients, g1.index[name]).value;
              var s := Upstream.CallTool(g1.clients[i], net, decode, name, arguments);
              && r.0.clients == g1.clients[i := s.client]
              && (s.out.Err? ==> r.1 == Err(s.out.error))
              && (s.out.Ok? && s.out.value.Some? ==> r.1 == Ok(Some(ToolReply(s.out.value.value.content))))
              && (s.out.Ok? && s.out.value.None? ==> r.1.Err?)
  {
    var g1 := Initialize(g, net, decode);
    if name !in g1.index then (g1, Ok(None))
    else match Position(g1.clients, g1.index[name])
      case None => (g1, Ok(None))
      case Some(i) =>
        var s := Upstream.CallTool(g1.clients[i], net, decode, name, arguments);
        var g2 := g1.(clients := g1.clients[i := s.client]);
        match s.out
        case Err(e) => (g2, Err(e))
        case Ok(None) => (g2, Err(UndefinedRead))
        case Ok(Some(p)) => (g2, Ok(Some(ToolReply(p.content))))
  }

  /** In a manager built from a fresh one, every index entry names a present,
      initialized client that lists an enabled tool of that name, so dispatch
      always finds the owner. */
  lemma IndexOwnersPresent(g: Manager, net: Transport, decode: Decoder, name: string)
    requires Fresh(g)
    requires name in Initialize(g, net, decode).index
    ensures var g1 := Initialize(g, net, decode);
            && Position(g1.clients, g1.index[name]).Some?
            && g1.clients[Position(g1.clients, g1.index[name]).value].initialized
            && name in Contribution(g1.configByName, g1.clients[Position(g1.clients, g1.index[name]).value])
  {
    var g1 := Initialize(g, net, decode);
    var i :| 0 <= i < |g1.clients| && g1.clients[i].initialized && g1.index[name] == g1.clients[i].name &&
             name in Contribution(g1.configByName, g1.clients[i]);
    assert g1.clients[i] in g1.clients;
    var p := Position(g1.clients, g1.index[name]).value;
    InitializedNamesDistinct(g, net, decode);
    assert p == i;
  }

  /** Initialization keeps each client's name, so client names stay distinct. */
  lemma InitializedNamesDistinct(g: Manager, net: Transport, decode: Decoder)
    requires Fresh(g)
    ensures DistinctNames(Initialize(g, net, decode).clients)
    ensures forall i :: 0 <= i < |g.clients| ==> Initialize(g, net, decode).clients[i].name == g.clients[i].name
  {
    var g1 := Initialize(g, net, decode);
    forall a, b | 0 <= a < b < |g1.clients| ensures g1.clients[a].name != g1.clients[b].name {
      assert g.clients[a].name != g.clients[b].name;
    }
  }

  /** After a handshake from scratch, every tool a client holds carries that
      client's namespace prefix. */
  lemma ToolsNamespaced(c: Client, net: Transport, decode: Decoder, t: Tool)
    requires !c.initialized && c.tools == []
    requires t in Upstream.Initialize(c, net, decode).client.tools
    ensures exists raw :: t.name == Qualify(c.name, raw)
  {
    var s := Upstream.Initialize(c, net, decode);
    var raw := Discovered(c, net, decode);
    var m :| 0 <= m < |s.client.tools| && s.client.tools[m] == t;
    assert t.name == Qualify(c.name, raw[m].name);
  }

  /** An enabled tool of a client after initialization of a fresh manager is in
      the index. */
  lemma EnabledToolIndexed(g: Manager, net: Transport, decode: Decoder, j: nat, t: Tool)
    requires Fresh(g) && j < |g.clients|
    requires t in Initialize(g, net, decode).clients[j].tools
    requires ToolEnabled(g.configByName, Initialize(g, net, decode).clients[j], t)
    ensures t.name in Initialize(g, net, decode).index
  {
    var cj := Initialize(g, net, decode).clients[j];
    assert g.clients[j] in g.clients;
    assert cj.initialized;
    assert t.name in Names(EnabledTools(g.configByName, cj, cj.tools));
    FailureIsolation(g, net, decode, j);
  }

  /** A namespaced name held by two clients with distinct, underscore-free names
      belongs to one of them only. */
  lemma SameNamespace(cs: seq<Client>, i: nat, j: nat, n: string, x: string, y: string)
    requires DistinctNames(cs) && i < |cs| && j < |cs|
    requires '_' !in cs[i].name && '_' !in cs[j].name
    requires n == Qualify(cs[i].name, x) && n == Qualify(cs[j].name, y)
    ensures i == j
  {
    QualifyInjective(cs[i].name, x, cs[j].name, y);
  }

  /** Routing: when server names are distinct and hold no underscore, every
      enabled tool of a client whose handshake succeeded is indexed under that
      client, and dispatch finds that client, whatever the other upstreams list. */
  lemma RoutesToOwner(g: Manager, net: Transport, decode: Decoder, j: nat, t: Tool)
    requires Fresh(g) && j < |g.clients|
    requires forall c :: c in g.clients ==> '_' !in c.name
    requires t in Initialize(g, net, decode).clients[j].tools
    requires ToolEnabled(g.configByName, Initialize(g, net, decode).clients[j], t)
    ensures var g1 := Initialize(g, net, decode);
            && t.name in g1.index
            && g1.index[t.name] == g.clients[j].name
            && Position(g1.clients, g1.index[t.name]) == Some(j)
  {
    var g1 := Initialize(g, net, decode);
    EnabledToolIndexed(g, net, decode, j, t);
    IndexOwnersPresent(g, net, decode, t.name);
    InitializedNamesDistinct(g, net, decode);
    var i := Position(g1.clients, g1.index[t.name]).value;
    var ci := g1.clients[i];
    var t2 :| t2 in EnabledTools(g.configByName, ci, ci.tools) && t2.name == t.name;
    assert g.clients[i] in g.clients && g.clients[j] in g.clients;
    ToolsNamespaced(g.clients[i], net, decode, t2);
    ToolsNamespaced(g.clients[j], net, decode, t);
    var x :| t.name == Qualify(g.clients[i].name, x);
    var y :| t.name == Qualify(g.clients[j].name, y);
    SameNamespace(g.clients, i, j, t.name, x, y);
  }
}
