/**
 * The tool-server connection registry. `McpClient` owns an ordered list of
 * connection records; each record carries a lifecycle status, the last error
 * text, the tools and resources discovered on the server, and the disabled
 * flag copied from its configuration entry.
 *
 * The protocol client, the transports and the subprocesses are not modelled;
 * what they do is given as outcomes: an `Attempt` says how starting the
 * transport, the handshake and the two listings went for one server, a
 * `RequestOracle` answers `tools/call` requests, and transport events are
 * delivered by calling `TransportError` and `TransportClose`.
 */
module Mcp {
  import opened Wrappers
  import opened JsonText
  import opened McpConfig

  /** Milliseconds allowed to a request when the configuration gives no timeout. */
  const DefaultRequestTimeoutMs: int := 5000
  /** The mime type given to a resource the server lists without one. */
  const DefaultMimeType: string := "application/octet-stream"

  datatype Status = Connecting | Connected | Disconnected

  datatype TransportKind = StdioTransport | SseTransport

  /**
   * The `onerror` handler a transport currently has: the first one marks the
   * connection disconnected and records the message; once a subprocess
   * transport has started, it is replaced by one that only appends the message
   * to the recorded error text.
   */
  datatype ErrorHandler = MarkDisconnected | AppendError

  datatype Transport = Transport(kind: TransportKind, onError: ErrorHandler)

  datatype Tool = Tool(name: string, description: string, schema: Json, autoApprove: bool)

  datatype Resource = Resource(
    uri: string, name: string, mimeType: string, title: Option<string>, description: Option<string>)

  datatype Connection = Connection(
    name: string,
    transport: Transport,
    tools: seq<Tool>,
    resources: seq<Resource>,
    disabled: bool,
    status: Status,
    error: Option<string>)

  /** A tool as the server lists it. */
  datatype ListedTool = ListedTool(name: string, description: Option<string>, inputSchema: Json)

  /** A resource as the server lists it. */
  datatype ListedResource = ListedResource(
    uri: string, name: string, mimeType: Option<string>, title: Option<string>, description: Option<string>)

  /** How one awaited step went: it completed, or it threw an error with this message. */
  datatype Step = Done | Threw(message: string)

  /**
   * The outcomes of connecting to one server: starting a subprocess transport,
   * the protocol handshake, the `tools/list` and `resources/list` requests
   * (None when a request failed), and the configuration file as re-read while
   * the tools are fetched.
   */
  datatype Attempt = Attempt(
    start: Step,
    handshake: Step,
    toolList: Option<seq<ListedTool>>,
    resourceList: Option<seq<ListedResource>>,
    configNow: Option<Settings>)

  /** Answers a `tools/call` request: server, tool, arguments, timeout in milliseconds. */
  type RequestOracle = (string, string, Json, int) -> Result<Json, string>

  datatype CallError =
    | UnknownServer(server: string)
    | NotConnected(server: string)
    | ServerDisabled(server: string)
    | RequestFailed(message: string)
  {
    /** The message of the error `callTool` throws. */
    function Message(): string {
      match this
      case UnknownServer(s) => "No connection found for server: " + s
      case NotConnected(s) => "Server \"" + s + "\" is not connected"
      case ServerDisabled(s) => "Server \"" + s + "\" is disabled"
      case RequestFailed(m) => m
    }
  }

  // ---------------------------------------------------------------------------
  // Looking records up by name

  predicate Named(c: seq<Connection>, name: string) {
    exists j :: 0 <= j < |c| && c[j].name == name
  }

  /** `c[j]` is the record `c.find(conn => conn.name === name)` returns. */
  predicate FirstNamed(c: seq<Connection>, name: string, j: int) {
    0 <= j < |c| && c[j].name == name && forall k :: 0 <= k < j ==> c[k].name != name
  }

  /** The index of the first record with this name. */
  function Find(c: seq<Connection>, name: string): (r: Option<nat>)
    ensures r.Some? ==> FirstNamed(c, name, r.value)
    ensures r.None? <==> !Named(c, name)
  {
    if c == [] then None
    else if c[0].name == name then Some(0)
    else
      match Find(c[1..], name)
      case Some(j) =>
        assert c[j + 1] == c[1..][j];
        Some(j + 1)
      case None =>
        assert forall j :: 1 <= j < |c| ==> c[j] == c[1..][j - 1];
        None
  }

  predicate UniqueNames(c: seq<Connection>) {
    forall i, j :: 0 <= i < j < |c| ==> c[i].name != c[j].name
  }

  /** No record is left in the middle of connecting. */
  predicate NoneConnecting(c: seq<Connection>) {
    forall i :: 0 <= i < |c| ==> c[i].status != Connecting
  }

  predicate NoneDisabled(c: seq<Connection>) {
    forall i :: 0 <= i < |c| ==> !c[i].disabled
  }

  // ---------------------------------------------------------------------------
  // Discovery

  /** `config?.mcpServers[server]?.autoApprove || []`. */
  function AutoApproveList(config: Option<Settings>, server: string): seq<string> {
    if config.None? then []
    else
      match Lookup(config.value, server)
      case Some(entry) => entry.autoApprove.GetOr([])
      case None => []
  }

  /** The tool descriptors `fetchTools` returns; a failed listing yields none. */
  function FetchTools(listing: Option<seq<ListedTool>>, config: Option<Settings>, server: string): (r: seq<Tool>)
    ensures listing.None? ==> r == []
    ensures listing.Some? ==> |r| == |listing.value|
    ensures listing.Some? ==> forall i :: 0 <= i < |r| ==>
      && r[i].name == listing.value[i].name
      && r[i].schema == listing.value[i].inputSchema
      && r[i].description == listing.value[i].description.GetOr("")
      && (r[i].autoApprove <==> listing.value[i].name in AutoApproveList(config, server))
  {
    match listing
    case None => []
    case Some(ts) =>
      var approved := AutoApproveList(config, server);
      seq(|ts|, i requires 0 <= i < |ts| =>
        Tool(ts[i].name, ts[i].description.GetOr(""), ts[i].inputSchema, ts[i].name in approved))
  }

  /** `resource.mimeType || "application/octet-stream"`: an empty mime type is replaced too. */
  function MimeTypeOf(given: Option<string>): (m: string)
    ensures m != ""
    ensures given.Some? && given.value != "" ==> m == given.value
    ensures given.None? || given.value == "" ==> m == DefaultMimeType
  {
    if given.Some? && given.value != "" then given.value else DefaultMimeType
  }

  /** The resource descriptors `fetchResources` returns; a failed listing yields none. */
  function FetchResources(listing: Option<seq<ListedResource>>): (r: seq<Resource>)
    ensures listing.None? ==> r == []
    ensures listing.Some? ==> |r| == |listing.value|
    ensures listing.Some? ==> forall i :: 0 <= i < |r| ==>
      && r[i].uri == listing.value[i].uri
      && r[i].name == listing.value[i].name
      && r[i].mimeType == MimeTypeOf(listing.value[i].mimeType)
      && r[i].title == listing.value[i].title
      && r[i].description == listing.value[i].description
  {
    match listing
    case None => []
    case Some(rs) =>
      seq(|rs|, i requires 0 <= i < |rs| =>
        Resource(rs[i].uri, rs[i].name, MimeTypeOf(rs[i].mimeType), rs[i].title, rs[i].description))
  }

  // ---------------------------------------------------------------------------
  // Connecting, and the state a connection attempt leaves behind

  function KindOf(config: ServerConfig): TransportKind {
    if config.transport.Stdio? then StdioTransport else SseTransport
  }

  /** The record `connectToServer` appends before anything is awaited. */
  function NewRecord(name: string, config: ServerConfig): Connection {
    Connection(name, Transport(KindOf(config), MarkDisconnected), [], [], config.IsDisabled(), Connecting, None)
  }

  /** What `connectToServer` reports: the first step that threw, if any. */
  function ConnectResult(config: ServerConfig, a: Attempt): Step {
    if KindOf(config) == StdioTransport && a.start.Threw? then a.start else a.handshake
  }

  /** The catch block of `connectToServer`, and the first `onerror` handler. */
  function MarkFailed(c: seq<Connection>, name: string, message: string): (r: seq<Connection>)
    ensures |r| == |c|
  {
    match Find(c, name)
    case None => c
    case Some(j) => c[j := c[j].(status := Disconnected, error := Some(message))]
  }

  /**
   * The list after `connectToServer(name, config)`. The status, handler, tools
   * and resources are set on the appended record itself; the catch block
   * updates the first record with that name.
   */
  function AfterConnect(c: seq<Connection>, name: string, config: ServerConfig, a: Attempt): seq<Connection> {
    var n := |c|;
    var pushed := c + [NewRecord(name, config)];
    if KindOf(config) == StdioTransport && a.start.Threw? then MarkFailed(pushed, name, a.start.message)
    else
      var started :=
        if KindOf(config) == StdioTransport then pushed[n := pushed[n].(transport := Transport(StdioTransport, AppendError))]
        else pushed;
      if a.handshake.Threw? then MarkFailed(started, name, a.handshake.message)
      else
        started[n := started[n].(
          status := Connected,
          tools := FetchTools(a.toolList, a.configNow, name),
          resources := FetchResources(a.resourceList))]
  }

  /**
   * The record a server whose name is not yet in the list ends up as: connected
   * with its discovered tools and resources exactly when every step succeeded,
   * otherwise disconnected with the error message and nothing discovered.
   */
  function Settled(name: string, config: ServerConfig, a: Attempt): (r: Connection)
    ensures r.name == name && r.disabled == config.IsDisabled()
    ensures r.status != Connecting
    ensures r.status == Connected <==> ConnectResult(config, a) == Done
    ensures ConnectResult(config, a).Threw? ==>
      r.error == Some(ConnectResult(config, a).message) && r.tools == [] && r.resources == []
    ensures ConnectResult(config, a) == Done ==>
      r.error == None && r.tools == FetchTools(a.toolList, a.configNow, name) &&
      r.resources == FetchResources(a.resourceList)
    ensures r.transport.onError == AppendError <==> KindOf(config) == StdioTransport && a.start == Done
  {
    var handler := if KindOf(config) == StdioTransport && a.start == Done then AppendError else MarkDisconnected;
    var base := Connection(name, Transport(KindOf(config), handler), [], [], config.IsDisabled(), Disconnected, None);
    match ConnectResult(config, a)
    case Threw(m) => base.(error := Some(m))
    case Done =>
      base.(status := Connected, tools := FetchTools(a.toolList, a.configNow, name),
            resources := FetchResources(a.resourceList))
  }

  /** Connecting under a fresh name appends exactly the settled record and changes nothing else. */
  lemma AfterConnectFresh(c: seq<Connection>, name: string, config: ServerConfig, a: Attempt)
    requires !Named(c, name)
    ensures AfterConnect(c, name, config, a) == c + [Settled(name, config, a)]
  {
    var pushed := c + [NewRecord(name, config)];
    assert FirstNamed(pushed, name, |c|);
    var started :=
      if KindOf(config) == StdioTransport then pushed[|c| := pushed[|c|].(transport := Transport(StdioTransport, AppendError))]
      else pushed;
    assert FirstNamed(started, name, |c|);
  }

  /**
   * When an earlier record already has the name, a failed attempt marks that
   * earlier record and leaves the appended one connecting.
   */
  lemma ConnectFailureHitsEarlierRecord(c: seq<Connection>, name: string, config: ServerConfig, a: Attempt)
    requires Named(c, name) && ConnectResult(config, a).Threw?
    ensures |AfterConnect(c, name, config, a)| == |c| + 1
    ensures AfterConnect(c, name, config, a)[|c|].status == Connecting
    ensures exists j :: FirstNamed(c, name, j) && AfterConnect(c, name, config, a)[j].status == Disconnected
  {
    var j := Find(c, name).value;
    var pushed := c + [NewRecord(name, config)];
    assert FirstNamed(pushed, name, j);
    var started :=
      if KindOf(config) == StdioTransport then pushed[|c| := pushed[|c|].(transport := Transport(StdioTransport, AppendError))]
      else pushed;
    assert FirstNamed(started, name, j);
  }

  // ---------------------------------------------------------------------------
  // setupConnections

  /** The configuration entries that are not disabled, in configuration order. */
  function Enabled(servers: Settings): (r: Settings)
    ensures forall x :: x in r ==> x in servers && !x.1.IsDisabled()
    ensures forall i :: 0 <= i < |servers| && !servers[i].1.IsDisabled() ==> servers[i] in r
  {
    if servers == [] then []
    else
      var init := Enabled(servers[..|servers| - 1]);
      var last := servers[|servers| - 1];
      assert forall i :: 0 <= i < |servers| - 1 ==> servers[..|servers| - 1][i] == servers[i];
      if last.1.IsDisabled() then init else init + [last]
  }

  /** Entries are kept in configuration order: one more entry adds itself at the end, unless it is disabled. */
  lemma EnabledSnoc(servers: Settings, x: (string, ServerConfig))
    ensures Enabled(servers + [x]) == Enabled(servers) + (if x.1.IsDisabled() then [] else [x])
  {
    assert (servers + [x])[..|servers|] == servers;
  }

  /** One settled record per entry, in order. */
  function SettleAll(entries: Settings, attempt: (string, ServerConfig) -> Attempt): (r: seq<Connection>)
    ensures |r| == |entries|
  {
    seq(|entries|, i requires 0 <= i < |entries| =>
      Settled(entries[i].0, entries[i].1, attempt(entries[i].0, entries[i].1)))
  }

  /** The list after `setupConnections(servers)`: disabled entries are skipped, the others connected in turn. */
  function AfterSetup(c: seq<Connection>, servers: Settings, attempt: (string, ServerConfig) -> Attempt): seq<Connection> {
    if servers == [] then c
    else
      var prev := AfterSetup(c, servers[..|servers| - 1], attempt);
      var (name, config) := servers[|servers| - 1];
      if config.IsDisabled() then prev else AfterConnect(prev, name, config, attempt(name, config))
  }

  predicate UniqueKeys(servers: Settings) {
    forall i, j :: 0 <= i < j < |servers| ==> servers[i].0 != servers[j].0
  }

  /** No configured name is already in the list. */
  predicate FreshFor(c: seq<Connection>, servers: Settings) {
    forall i :: 0 <= i < |servers| ==> !Named(c, servers[i].0)
  }

  /**
   * With distinct configured names that are not yet in the list, setting up
   * appends one settled record for every enabled entry, in configuration order:
   * disabled entries get no record, and one entry's failure does not keep the
   * later entries from being attempted.
   */
  lemma {:induction false} SetupAppendsSettled(c: seq<Connection>, servers: Settings, attempt: (string, ServerConfig) -> Attempt)
    requires UniqueKeys(servers) && FreshFor(c, servers)
    ensures AfterSetup(c, servers, attempt) == c + SettleAll(Enabled(servers), attempt)
  {
    if servers != [] {
      var init := servers[..|servers| - 1];
      var (name, config) := servers[|servers| - 1];
      assert forall i :: 0 <= i < |init| ==> init[i] == servers[i];
      SetupAppendsSettled(c, init, attempt);
      if !config.IsDisabled() {
        SettledNamesFresh(c, init, attempt, name);
        var prev := c + SettleAll(Enabled(init), attempt);
        AfterConnectFresh(prev, name, config, attempt(name, config));
        assert servers == init + [(name, config)];
        EnabledSnoc(init, (name, config));
        SettleAllSnoc(Enabled(init), (name, config), attempt);
      }
    }
  }

  /** A name that no earlier entry has is not among the records set-up appends for them. */
  lemma SettledNamesFresh(c: seq<Connection>, servers: Settings, attempt: (string, ServerConfig) -> Attempt, name: string)
    requires !Named(c, name) && forall i :: 0 <= i < |servers| ==> servers[i].0 != name
    ensures !Named(c + SettleAll(Enabled(servers), attempt), name)
  {
  }

  lemma SettleAllSnoc(entries: Settings, x: (string, ServerConfig), attempt: (string, ServerConfig) -> Attempt)
    ensures SettleAll(entries + [x], attempt) == SettleAll(entries, attempt) + [Settled(x.0, x.1, attempt(x.0, x.1))]
  {
  }

  /** Names of the enabled entries appear at most once when the configured names are distinct. */
  lemma {:induction false} EnabledUniqueKeys(servers: Settings)
    requires UniqueKeys(servers)
    ensures UniqueKeys(Enabled(servers))
  {
    if servers != [] {
      var init := servers[..|servers| - 1];
      assert forall i :: 0 <= i < |init| ==> init[i] == servers[i];
      EnabledUniqueKeys(init);
      var last := servers[|servers| - 1];
      if !last.1.IsDisabled() {
        var e := Enabled(init);
        forall i | 0 <= i < |e| ensures e[i].0 != last.0 {
          assert e[i] in init;
          var k :| 0 <= k < |init| && init[k] == e[i];
        }
      }
    }
  }

  /**
   * Starting from an empty list, setting up leaves every record connected or
   * disconnected (never connecting), none of them disabled, all names distinct,
   * and a record holds tools only if its server connected.
   */
  lemma SetupFromEmpty(servers: Settings, attempt: (string, ServerConfig) -> Attempt)
    requires UniqueKeys(servers)
    ensures |AfterSetup([], servers, attempt)| == |Enabled(servers)|
    ensures forall i :: 0 <= i < |Enabled(servers)| ==>
      AfterSetup([], servers, attempt)[i].name == Enabled(servers)[i].0
    ensures NoneConnecting(AfterSetup([], servers, attempt))
    ensures NoneDisabled(AfterSetup([], servers, attempt))
    ensures UniqueNames(AfterSetup([], servers, attempt))
    ensures forall i :: 0 <= i < |Enabled(servers)| && AfterSetup([], servers, attempt)[i].status != Connected ==>
      AfterSetup([], servers, attempt)[i].tools == []
  {
    SetupAppendsSettled([], servers, attempt);
    EnabledUniqueKeys(servers);
    var e := Enabled(servers);
    var r := AfterSetup([], servers, attempt);
    assert r == SettleAll(e, attempt);
    forall i | 0 <= i < |r|
      ensures r[i] == Settled(e[i].0, e[i].1, attempt(e[i].0, e[i].1)) && !e[i].1.IsDisabled()
    {
      assert e[i] in e;
    }
  }

  // ---------------------------------------------------------------------------
  // Transport events

  /**
   * The error text after a message is appended: an earlier non-empty text is
   * kept in front, separated by a newline; otherwise the message alone.
   */
  function AppendedError(previous: Option<string>, message: string): (r: string)
    ensures |r| >= |message| && r[|r| - |message|..] == message
    ensures previous.Some? && previous.value != "" ==>
      |r| == |previous.value| + 1 + |message| && r[..|previous.value|] == previous.value && r[|previous.value|] == '\n'
    ensures (previous.None? || previous.value == "") ==> r == message
  {
    if previous.Some? && previous.value != "" then previous.value + "\n" + message else message
  }

  /** `handler` can be the current error handler of a transport created for server `name`. */
  predicate HandlerOf(c: seq<Connection>, name: string, handler: ErrorHandler) {
    !Named(c, name) || exists i :: 0 <= i < |c| && c[i].name == name && c[i].transport.onError == handler
  }

  /** The list after the named server's transport reports an error to `handler`. */
  function AfterTransportError(c: seq<Connection>, name: string, handler: ErrorHandler, message: string): seq<Connection> {
    match handler
    case MarkDisconnected => MarkFailed(c, name, message)
    case AppendError =>
      match Find(c, name)
      case None => c
      case Some(j) => c[j := c[j].(error := Some(AppendedError(c[j].error, message)))]
  }

  /** The list after the named server's transport closes. */
  function AfterTransportClose(c: seq<Connection>, name: string): seq<Connection> {
    match Find(c, name)
    case None => c
    case Some(j) => c[j := c[j].(status := Disconnected)]
  }

  /**
   * Transport events touch only the first record with the server's name, keep
   * its name, tools, resources and flag, never make a record connected or
   * connecting, and record the message of an error.
   */
  lemma TransportEventsOnlyDisconnect(c: seq<Connection>, name: string, handler: ErrorHandler, message: string)
    ensures var e := AfterTransportError(c, name, handler, message);
      var d := AfterTransportClose(c, name);
      && |e| == |c| && |d| == |c|
      && (forall i :: 0 <= i < |c| ==>
            && e[i].name == c[i].name && e[i].tools == c[i].tools && e[i].resources == c[i].resources
            && e[i].disabled == c[i].disabled && d[i].name == c[i].name && d[i].tools == c[i].tools
            && d[i].disabled == c[i].disabled
            && (e[i].status == Connected ==> c[i].status == Connected)
            && (d[i].status == Connected ==> c[i].status == Connected)
            && (c[i].status != Connecting ==> e[i].status != Connecting && d[i].status != Connecting)
            && (!FirstNamed(c, name, i) ==> e[i] == c[i] && d[i] == c[i]))
      && (forall j :: FirstNamed(c, name, j) ==>
            && d[j] == c[j].(status := Disconnected)
            && (handler == MarkDisconnected ==> e[j] == c[j].(status := Disconnected, error := Some(message)))
            && (handler == AppendError ==> e[j] == c[j].(error := Some(AppendedError(c[j].error, message)))))
  {
    var f := Find(c, name);
    forall j | FirstNamed(c, name, j) ensures f == Some(j) {
    }
  }

  /**
   * With distinct names, an error on a transport whose handler has been
   * replaced by the appending one (a started subprocess) leaves the record's
   * status as it was: only the error text grows.
   */
  lemma ErrorAfterStartKeepsStatus(c: seq<Connection>, name: string, handler: ErrorHandler, message: string, j: nat)
    requires UniqueNames(c) && HandlerOf(c, name, handler)
    requires j < |c| && c[j].name == name && c[j].transport.onError == AppendError
    ensures AfterTransportError(c, name, handler, message)[j].status == c[j].status
    ensures AfterTransportError(c, name, handler, message)[j].error == Some(AppendedError(c[j].error, message))
  {
    var i :| 0 <= i < |c| && c[i].name == name && c[i].transport.onError == handler;
    assert i == j;
    assert FirstNamed(c, name, j);
    TransportEventsOnlyDisconnect(c, name, handler, message);
  }

  // ---------------------------------------------------------------------------
  // The tool catalogue

  /** `connections.flatMap(conn => conn.tools)`. */
  function AllTools(c: seq<Connection>): seq<Tool> {
    if c == [] then [] else AllTools(c[..|c| - 1]) + c[|c| - 1].tools
  }

  lemma {:induction false} AllToolsAppend(a: seq<Connection>, b: seq<Connection>)
    ensures AllTools(a + b) == AllTools(a) + AllTools(b)
  {
    if b == [] {
      assert a + b == a;
    } else {
      var init := b[..|b| - 1];
      assert (a + b)[..|a + b| - 1] == a + init;
      assert (a + b)[|a + b| - 1] == b[|b| - 1];
      AllToolsAppend(a, init);
      assert AllTools(a + b) == AllTools(a + init) + b[|b| - 1].tools;
      assert AllTools(b) == AllTools(init) + b[|b| - 1].tools;
    }
  }

  /** A tool is in the catalogue exactly when some record lists it; nothing is de-duplicated or dropped. */
  lemma {:induction false} AllToolsMembers(c: seq<Connection>, t: Tool)
    ensures t in AllTools(c) <==> exists i :: 0 <= i < |c| && t in c[i].tools
  {
    if c != [] {
      var init := c[..|c| - 1];
      AllToolsMembers(init, t);
      assert forall i :: 0 <= i < |init| ==> init[i] == c[i];
    }
  }

  /** The catalogue has as many entries as the records' tool lists together. */
  lemma {:induction false} AllToolsCount(c: seq<Connection>, counts: seq<nat>)
    requires |counts| == |c| && forall i :: 0 <= i < |c| ==> counts[i] == |c[i].tools|
    ensures |AllTools(c)| == Sum(counts)
  {
    if c != [] {
      AllToolsCount(c[..|c| - 1], counts[..|c| - 1]);
      SumSnoc(counts[..|c| - 1], counts[|c| - 1]);
      assert counts[..|c| - 1] + [counts[|c| - 1]] == counts;
    }
  }

  function Sum(s: seq<nat>): nat {
    if s == [] then 0 else s[0] + Sum(s[1..])
  }

  lemma {:induction false} SumSnoc(s: seq<nat>, x: nat)
    ensures Sum(s + [x]) == Sum(s) + x
  {
    if s != [] {
      assert (s + [x])[1..] == s[1..] + [x];
      SumSnoc(s[1..], x);
    }
  }

  /** `serverConfig?.timeout ? serverConfig.timeout * 1000 : 5000`, a zero timeout being falsy. */
  function RequestTimeoutMs(config: Option<Settings>, server: string): (ms: int)
    ensures config.None? ==> ms == DefaultRequestTimeoutMs
    ensures config.Some? && Lookup(config.value, server).None? ==> ms == DefaultRequestTimeoutMs
  {
    if config.None? then DefaultRequestTimeoutMs
    else
      match Lookup(config.value, server)
      case Some(entry) => if entry.timeout != 0 then entry.timeout * 1000 else DefaultRequestTimeoutMs
      case None => DefaultRequestTimeoutMs
  }

  /** For a configuration that passed the schema, a configured server gets its own timeout, at least five seconds. */
  lemma ParsedRequestTimeout(file: Option<RawSettings>, isUrl: string -> bool, server: string)
    requires ParseSettings(file, isUrl).Some?
    requires Lookup(ParseSettings(file, isUrl).value, server).Some?
    ensures RequestTimeoutMs(ParseSettings(file, isUrl), server) ==
            Lookup(ParseSettings(file, isUrl).value, server).value.timeout * 1000
    ensures RequestTimeoutMs(ParseSettings(file, isUrl), server) >= DefaultRequestTimeoutMs
  {
    ParsedTimeoutsAtLeastMinimum(file, isUrl, server);
  }

  /** The names of the records whose close threw (logged, not raised), in list order. */
  function FailedCloses(c: seq<Connection>, close: Connection -> Step): seq<string> {
    if c == [] then []
    else FailedCloses(c[..|c| - 1], close) + (if close(c[|c| - 1]).Threw? then [c[|c| - 1].name] else [])
  }

  // ---------------------------------------------------------------------------
  // The registry object

  class McpClient {
    var connections: seq<Connection>

    constructor ()
      ensures connections == []
    {
      connections := [];
    }

    /**
     * `initialize`: reads the configuration (None when it cannot be read or
     * fails the schema) and sets up its servers; nothing is thrown either way.
     */
    method Initialize(file: Option<RawSettings>, isUrl: string -> bool, attempt: (string, ServerConfig) -> Attempt)
      modifies this
      ensures ParseSettings(file, isUrl).None? ==> connections == old(connections)
      ensures ParseSettings(file, isUrl).Some? ==>
        connections == AfterSetup(old(connections), ParseSettings(file, isUrl).value, attempt)
    {
      var config := ParseSettings(file, isUrl);
      if config.Some? {
        SetupConnections(config.value, attempt);
      }
    }

    method SetupConnections(servers: Settings, attempt: (string, ServerConfig) -> Attempt)
      modifies this
      ensures connections == AfterSetup(old(connections), servers, attempt)
    {
      for i := 0 to |servers|
        invariant connections == AfterSetup(old(connections), servers[..i], attempt)
      {
        assert servers[..i + 1][..i] == servers[..i];
        var (name, config) := servers[i];
        if config.IsDisabled() {
          continue;
        }
        // A failure has been recorded on the connection; it is logged and the loop goes on.
        var outcome := ConnectToServer(name, config, attempt(name, config));
      }
      assert servers[..|servers|] == servers;
    }

    method ConnectToServer(name: string, config: ServerConfig, a: Attempt) returns (outcome: Step)
      modifies this
      ensures connections == AfterConnect(old(connections), name, config, a)
      ensures outcome == ConnectResult(config, a)
    {
      var n := |connections|;
      connections := connections + [NewRecord(name, config)];
      if KindOf(config) == StdioTransport {
        if a.start.Threw? {
          connections := MarkFailed(connections, name, a.start.message);
          return a.start;
        }
        connections := connections[n := connections[n].(transport := Transport(StdioTransport, AppendError))];
      }
      if a.handshake.Threw? {
        connections := MarkFailed(connections, name, a.handshake.message);
        return a.handshake;
      }
      connections := connections[n := connections[n].(status := Connected)];
      connections := connections[n := connections[n].(tools := FetchTools(a.toolList, a.configNow, name))];
      connections := connections[n := connections[n].(resources := FetchResources(a.resourceList))];
      outcome := Done;
    }

    /**
     * The transport created for server `name` reports an error to its current
     * handler: the handler of a record with that name, or any handler once no
     * record has the name (the lookup then finds nothing).
     */
    method TransportError(name: string, handler: ErrorHandler, message: string)
      requires HandlerOf(connections, name, handler)
      modifies this
      ensures connections == AfterTransportError(old(connections), name, handler, message)
    {
      var found := Find(connections, name);
      if found.Some? {
        var j := found.value;
        match handler
        case MarkDisconnected =>
          connections := connections[j := connections[j].(status := Disconnected, error := Some(message))];
        case AppendError =>
          connections := connections[j := connections[j].(error := Some(AppendedError(connections[j].error, message)))];
      }
    }

    /** The transport created for server `name` closes. */
    method TransportClose(name: string)
      modifies this
      ensures connections == AfterTransportClose(old(connections), name)
    {
      var found := Find(connections, name);
      if found.Some? {
        connections := connections[found.value := connections[found.value].(status := Disconnected)];
      }
    }

    /**
     * `callTool`: fails with no connection of that name, then with a record
     * that is not connected, then with a disabled one; otherwise sends the
     * request with the server's configured timeout.
     */
    function CallTool(server: string, tool: string, args: Json, config: Option<Settings>, request: RequestOracle)
      : (r: Result<Json, CallError>)
      reads this
      ensures r == Failure(UnknownServer(server)) <==> !Named(connections, server)
      ensures r == Failure(NotConnected(server)) <==>
        exists j :: FirstNamed(connections, server, j) && connections[j].status != Connected
      ensures r == Failure(ServerDisabled(server)) <==>
        exists j :: FirstNamed(connections, server, j) && connections[j].status == Connected && connections[j].disabled
      ensures forall j :: FirstNamed(connections, server, j) && connections[j].status == Connected && !connections[j].disabled ==>
        match request(server, tool, args, RequestTimeoutMs(config, server))
        case Success(response) => r == Success(response)
        case Failure(m) => r == Failure(RequestFailed(m))
    {
      match Find(connections, server)
      case None => Failure(UnknownServer(server))
      case Some(j) =>
        if connections[j].status != Connected then Failure(NotConnected(server))
        else if connections[j].disabled then Failure(ServerDisabled(server))
        else
          match request(server, tool, args, RequestTimeoutMs(config, server))
          case Success(response) => Success(response)
          case Failure(m) => Failure(RequestFailed(m))
    }

    /**
     * `getTools(serverName?)`: the tools of the first record with that name
     * (none if there is no such record); without a name, or with the empty
     * name, the tools of every record in list order.
     */
    function GetTools(server: Option<string>): (r: seq<Tool>)
      reads this
      ensures server.Some? && server.value != "" && !Named(connections, server.value) ==> r == []
      ensures forall j :: server.Some? && server.value != "" && FirstNamed(connections, server.value, j) ==>
        r == connections[j].tools
      ensures server.None? || server.value == "" ==> r == AllTools(connections)
    {
      if server.Some? && server.value != "" then
        match Find(connections, server.value)
        case Some(j) => connections[j].tools
        case None => []
      else AllTools(connections)
    }

    /** `dispose`: tries to close every connection, logging the failures, then empties the list. */
    method Dispose(close: Connection -> Step) returns (failures: seq<string>)
      modifies this
      ensures connections == []
      ensures failures == FailedCloses(old(connections), close)
    {
      failures := [];
      for i := 0 to |connections|
        invariant failures == FailedCloses(connections[..i], close)
      {
        assert connections[..i + 1][..i] == connections[..i];
        if close(connections[i]).Threw? {
          failures := failures + [connections[i].name];
        }
      }
      assert connections[..|connections|] == connections;
      connections := [];
    }
  }

  /** When no record is disabled (as after setting up), `callTool` never fails for a disabled server. */
  lemma NeverDisabledAfterSetup(client: McpClient, server: string, tool: string, args: Json,
                                config: Option<Settings>, request: RequestOracle)
    requires NoneDisabled(client.connections)
    ensures client.CallTool(server, tool, args, config, request) != Failure(ServerDisabled(server))
  {
  }
}
