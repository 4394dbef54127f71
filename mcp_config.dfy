/**
 * The tool-server configuration schema: each entry of the `mcpServers` record
 * is either a subprocess ("stdio") server with a command, or a network
 * ("sse") server with a URL, and shares the `autoApprove`, `disabled` and
 * `timeout` settings. Validation is all-or-nothing over the whole record.
 */
module McpConfig {
  import opened Wrappers

  /** Seconds, used when an entry gives no timeout. */
  const DefaultTimeoutSeconds: int := 30
  /** Smallest timeout, in seconds, that the schema admits. */
  const MinTimeoutSeconds: int := 5

  /** One entry of the configuration file as read, before validation. */
  datatype RawServer = RawServer(
    command: Option<string>,
    args: Option<seq<string>>,
    env: Option<map<string, string>>,
    url: Option<string>,
    autoApprove: Option<seq<string>>,
    disabled: Option<bool>,
    timeout: Option<int>)

  datatype TransportConfig =
    | Stdio(command: string, args: Option<seq<string>>, env: Option<map<string, string>>)
    | Sse(url: string)

  /** A validated entry: the timeout default has been applied. */
  datatype ServerConfig = ServerConfig(
    transport: TransportConfig,
    autoApprove: Option<seq<string>>,
    disabled: Option<bool>,
    timeout: int)
  {
    /** The `transportType` tag the schema's transforms add. */
    function TransportType(): string {
      if transport.Stdio? then "stdio" else "sse"
    }

    /** Truthiness of `config.disabled`. */
    predicate IsDisabled() {
      disabled == Some(true)
    }
  }

  /** The entries of the `mcpServers` record, in enumeration order. */
  type RawSettings = seq<(string, RawServer)>
  type Settings = seq<(string, ServerConfig)>

  /** `z.number().min(5).optional().default(30)`. */
  function ParseTimeout(t: Option<int>): (r: Option<int>)
    ensures r.Some? <==> (t.None? || t.value >= MinTimeoutSeconds)
    ensures t.None? ==> r == Some(DefaultTimeoutSeconds)
    ensures t.Some? && r.Some? ==> r.value == t.value
    ensures r.Some? ==> r.value >= MinTimeoutSeconds
  {
    match t
    case None => Some(DefaultTimeoutSeconds)
    case Some(v) => if v >= MinTimeoutSeconds then Some(v) else None
  }

  /**
   * `z.union([StdioConfigSchema, SseConfigSchema])`: the subprocess variant is
   * tried first and wins whenever a command is present; otherwise the entry
   * needs a URL that `isUrl` (the URL validator) accepts. Both variants share
   * the timeout rule.
   */
  function ParseServer(raw: RawServer, isUrl: string -> bool): (r: Option<ServerConfig>)
    ensures r.Some? <==>
      ParseTimeout(raw.timeout).Some? && (raw.command.Some? || (raw.url.Some? && isUrl(raw.url.value)))
    ensures r.Some? ==> r.value.timeout >= MinTimeoutSeconds
    ensures r.Some? ==> Some(r.value.timeout) == ParseTimeout(raw.timeout)
    ensures r.Some? ==> r.value.autoApprove == raw.autoApprove && r.value.disabled == raw.disabled
    ensures r.Some? ==> (r.value.TransportType() == "stdio" <==> raw.command.Some?)
    ensures r.Some? && raw.command.Some? ==>
      r.value.transport == Stdio(raw.command.value, raw.args, raw.env)
    ensures r.Some? && raw.command.None? ==> r.value.transport == Sse(raw.url.value)
  {
    match ParseTimeout(raw.timeout)
    case None => None
    case Some(timeout) =>
      if raw.command.Some? then
        Some(ServerConfig(Stdio(raw.command.value, raw.args, raw.env), raw.autoApprove, raw.disabled, timeout))
      else if raw.url.Some? && isUrl(raw.url.value) then
        Some(ServerConfig(Sse(raw.url.value), raw.autoApprove, raw.disabled, timeout))
      else None
  }

  function ParseEntries(entries: RawSettings, isUrl: string -> bool): (r: Option<Settings>)
    ensures r.Some? <==> forall i :: 0 <= i < |entries| ==> ParseServer(entries[i].1, isUrl).Some?
    ensures r.Some? ==> |r.value| == |entries|
    ensures r.Some? ==> forall i :: 0 <= i < |entries| ==>
      r.value[i] == (entries[i].0, ParseServer(entries[i].1, isUrl).value)
  {
    if entries == [] then Some([])
    else
      match (ParseServer(entries[0].1, isUrl), ParseEntries(entries[1..], isUrl))
      case (Some(first), Some(rest)) => Some([(entries[0].0, first)] + rest)
      case _ => None
  }

  /**
   * `McpSettingsSchema.safeParse` of the file's contents; `file` is None when
   * the file cannot be read, is not JSON or has no `mcpServers` record. Any
   * invalid entry invalidates the whole configuration.
   */
  function ParseSettings(file: Option<RawSettings>, isUrl: string -> bool): Option<Settings> {
    if file.Some? then ParseEntries(file.value, isUrl) else None
  }

  /** `settings[name]`: record keys are unique, so the first entry is the only one. */
  function Lookup(settings: Settings, name: string): (r: Option<ServerConfig>)
    ensures r.None? <==> forall i :: 0 <= i < |settings| ==> settings[i].0 != name
    ensures r.Some? ==> exists i :: 0 <= i < |settings| && settings[i] == (name, r.value)
  {
    if settings == [] then None
    else if settings[0].0 == name then Some(settings[0].1)
    else
      var r := Lookup(settings[1..], name);
      assert r.Some? ==> exists i :: 1 <= i < |settings| && settings[i] == (name, r.value) by {
        if r.Some? {
          var i :| 0 <= i < |settings[1..]| && settings[1..][i] == (name, r.value);
          assert settings[i + 1] == (name, r.value);
        }
      }
      r
  }

  /** Every entry that survives validation carries a timeout of at least five seconds. */
  lemma ParsedTimeoutsAtLeastMinimum(file: Option<RawSettings>, isUrl: string -> bool, name: string)
    requires ParseSettings(file, isUrl).Some?
    requires Lookup(ParseSettings(file, isUrl).value, name).Some?
    ensures Lookup(ParseSettings(file, isUrl).value, name).value.timeout >= MinTimeoutSeconds
  {
    var s := ParseSettings(file, isUrl).value;
    var i :| 0 <= i < |s| && s[i] == (name, Lookup(s, name).value);
    assert s[i].1 == ParseServer(file.value[i].1, isUrl).value;
  }
}
