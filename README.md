# Chat backend with tool servers: a Dafny model

This project models the core of a chat backend that lets language models call
tools served by external Model Context Protocol servers. It has two parts:

- **The tool-server registry (`McpClient`).** It validates the
  `mcpServers` configuration: subprocess ("stdio") or network ("sse")
  entries, with `disabled`, `autoApprove` and a `timeout` of at least 5
  seconds that defaults to 30. It connects to every enabled server and
  keeps one connection record per attempt. A record holds a status
  (connecting / connected / disconnected), the last error text and the
  tools and resources the server advertised. Transport errors and
  closes change the record. The registry also serves the flattened tool
  catalogue, routes `tools/call` requests with their guards and timeout,
  and tears everything down.
- **The chat service (`ChatService`).** It keeps the configured language
  models in an insertion-ordered table keyed by `provider/modelName`. It
  wraps every registry tool as a model-callable tool. `sendMessage`
  stores the user's turn, asks the model, runs the requested tool calls
  one by one, writing one "tool" turn per call that ran, and asks the
  model a second time with their outputs. The message store is an
  append-only table of `(chatId, content, role)` rows.

Modules:

- `Wrappers`: `Option` and `Result`.
- `JsonText`: `JSON.stringify` of a string, and its inverse for string literals.
- `McpConfig`: the configuration schema.
- `Mcp`: the registry, `class McpClient`.
- `ChatModels`: model keys and the model table.
- `ChatStore`: the message store, `class MessageStore`.
- `Chat`: the service, `class ChatService`.

Stateful objects are classes whose methods update `seq` fields. Each
method is proved against a function of the old state, such as
`AfterConnect`, `AfterSetup` or `SendOutcome`, and the lemmas state
what those functions guarantee.

Everything the code awaits from the outside is given to the model as an
outcome or an oracle function:

- **Connecting to a server:** an `Attempt` gives the outcome of starting
  the subprocess, the handshake, the two listings, and the configuration
  as re-read while fetching tools.
- **Tool-server requests:** a `RequestOracle`.
- **The language model:** `Env.invoke`.
- **The tool wrapper's check of arguments against the tool's schema:**
  `Env.validate`.
- **Reading the configuration file:** it is given as
  `Option<RawSettings>` (None when the file cannot be read or parsed).
- **URL validation:** an `isUrl` predicate.

Where the documented design and the code differ, the model follows the code:

- **A failed second model call keeps what was written.** When the second
  call to the model fails, the user's turn and the tool turns stay in the
  store. Nothing is rolled back.
- **Disconnected servers keep their tools.** A server that disconnects
  keeps its cached tools. `getTools()` still lists them.
- **The later subprocess error handler does not disconnect.** Once a
  subprocess transport has started, its error handler is replaced. The new
  handler only appends the message to the record's error text and leaves
  the status unchanged. Each record carries its transport's current
  handler, and an error event must use the handler of a transport created
  for that name (`Mcp.ErrorAfterStartKeepsStatus`).
- **The user's message is sent twice.** The message is stored before the
  history is read, so the first message list ends with the message twice
  (`Chat.FirstPrompt`).
- **Tool outputs go back as plain text.** They are passed to the second
  model call as plain strings, which the model client reads as user
  messages.
- **Requested tools that are not wrapped leave no trace.** Such a call
  writes nothing to the store and sends nothing to the model. The model is
  asked at most twice.
- **Name lookups find the first match.** Every lookup by server name
  (`find`) hits the first record with that name. With duplicate names, a
  failed attempt marks an earlier record
  (`Mcp.ConnectFailureHitsEarlierRecord`).
- **Content is stored differently depending on the branch.** A reply with
  no tool calls is stored raw. A reply with tool calls, and the second
  answer, are stored as their JSON text. The return value is always the
  JSON text of the content.

## Model

| member | source | states |
|---|---|---|
| McpConfig.ParseTimeout | mcp-backend/src/mcpClient/index.ts:22 | a timeout is accepted iff absent or at least 5; absent becomes 30; a given one is kept |
| McpConfig.ParseServer | mcp-backend/src/mcpClient/index.ts:19-41 | an entry is valid iff its timeout is valid and it has a command or a valid URL; the stdio variant wins when a command is present; the transport tag, fields and defaulted timeout (>= 5) of the result |
| McpConfig.ParseEntries | mcp-backend/src/mcpClient/index.ts:43-45 | the record validates iff every entry does; then entry i keeps its name and is the parsed entry |
| McpConfig.Lookup | mcp-backend/src/mcpClient/index.ts:290 | `mcpServers[name]` is None iff no entry has the name, otherwise an entry with that name |
| McpConfig.ParsedTimeoutsAtLeastMinimum | mcp-backend/src/mcpClient/index.ts:22 | every server of a validated configuration has a timeout of at least 5 seconds |
| Mcp.Find | mcp-backend/src/mcpClient/index.ts:275 | `connections.find` by name: None iff no record has the name, otherwise the first record with it |
| Mcp.FetchTools | mcp-backend/src/mcpClient/index.ts:219-249 | a failed listing gives no tools; otherwise one tool per listed tool, in order, with name, schema, description defaulted to "" and auto-approval iff listed in the server's `autoApprove` |
| Mcp.MimeTypeOf | mcp-backend/src/mcpClient/index.ts:266 | the mime type is never empty; a non-empty given one is kept; a missing or empty one becomes "application/octet-stream" |
| Mcp.FetchResources | mcp-backend/src/mcpClient/index.ts:251-272 | a failed listing gives no resources; otherwise every listed resource, in order, with its fields and a defaulted mime type |
| Mcp.Settled | mcp-backend/src/mcpClient/index.ts:126-217 | after an attempt, a fresh record is never connecting; it is connected iff start and handshake succeeded, then holds the fetched tools and resources and no error, otherwise the error message and nothing discovered; it has the appending error handler iff a subprocess started |
| Mcp.AfterConnectFresh | mcp-backend/src/mcpClient/index.ts:171-214 | connecting under a new name appends exactly the settled record and changes no other record |
| Mcp.ConnectFailureHitsEarlierRecord | mcp-backend/src/mcpClient/index.ts:208-214 | with the name already present, a failed attempt disconnects the earlier record and leaves the new one connecting |
| Mcp.Enabled | mcp-backend/src/mcpClient/index.ts:113-116 | an entry is kept iff it is configured and not disabled |
| Mcp.EnabledSnoc | mcp-backend/src/mcpClient/index.ts:113-116 | entries are kept in configuration order: a further entry goes last unless it is disabled |
| Mcp.SetupAppendsSettled | mcp-backend/src/mcpClient/index.ts:112-124 | with distinct new names, set-up appends one settled record per enabled entry in configuration order; a failure does not stop later entries |
| Mcp.EnabledUniqueKeys | mcp-backend/src/mcpClient/index.ts:113-116 | skipping disabled entries keeps the names distinct |
| Mcp.SetupFromEmpty | mcp-backend/src/mcpClient/index.ts:112-124 | from an empty list: one record per enabled entry with its name, none connecting, none disabled, names distinct, tools only on connected records |
| Mcp.AppendedError | mcp-backend/src/mcpClient/index.ts:190 | the new error text ends with the message and keeps an earlier non-empty text in front, separated by a newline |
| Mcp.TransportEventsOnlyDisconnect | mcp-backend/src/mcpClient/index.ts:155-192 | transport errors and closes touch only the first record with the name and never connect a record; on it, a close changes only the status to disconnected, the first handler only the status and the error, the appending handler only the error |
| Mcp.ErrorAfterStartKeepsStatus | mcp-backend/src/mcpClient/index.ts:184-192 | with distinct names, an error on a started subprocess server leaves its status as it was and appends the message to its error text |
| Mcp.AllToolsAppend | mcp-backend/src/mcpClient/index.ts:319 | the catalogue of two lists is the concatenation of their catalogues |
| Mcp.AllToolsMembers | mcp-backend/src/mcpClient/index.ts:319 | a tool is in the catalogue iff some record lists it |
| Mcp.AllToolsCount | mcp-backend/src/mcpClient/index.ts:319 | the catalogue's length is the sum of the records' tool counts |
| Mcp.RequestTimeoutMs | mcp-backend/src/mcpClient/index.ts:289-291 | without a configuration or an entry for the server, the timeout is 5000 ms |
| Mcp.ParsedRequestTimeout | mcp-backend/src/mcpClient/index.ts:288-291 | a configured server's calls use its timeout in milliseconds, at least 5000 |
| Mcp.McpClient.constructor | mcp-backend/src/mcpClient/index.ts:73-80 | the registry starts with no connections |
| Mcp.McpClient.Initialize | mcp-backend/src/mcpClient/index.ts:82-110 | an unreadable or invalid configuration changes nothing; a valid one sets up its servers |
| Mcp.McpClient.SetupConnections | mcp-backend/src/mcpClient/index.ts:112-124 | the new list is `AfterSetup` of the old one |
| Mcp.McpClient.ConnectToServer | mcp-backend/src/mcpClient/index.ts:126-217 | the new list is `AfterConnect` of the old; the first step that threw is reported |
| Mcp.McpClient.TransportError | mcp-backend/src/mcpClient/index.ts:155-192 | the new list is `AfterTransportError` of the old, under the current handler of a transport created for that name |
| Mcp.McpClient.TransportClose | mcp-backend/src/mcpClient/index.ts:164-169 | the new list is `AfterTransportClose` of the old |
| Mcp.McpClient.CallTool | mcp-backend/src/mcpClient/index.ts:274-306 | fails "no connection" iff no record has the name, "not connected" iff the first one is not connected, "disabled" iff it is connected and disabled; otherwise the request's answer or failure, with the configured timeout |
| Mcp.McpClient.GetTools | mcp-backend/src/mcpClient/index.ts:312-320 | with a non-empty name, the first such record's tools or none; otherwise the whole catalogue in list order |
| Mcp.McpClient.Dispose | mcp-backend/src/mcpClient/index.ts:322-332 | every connection is closed, failures are reported in order, and the list ends empty |
| Mcp.NeverDisabledAfterSetup | mcp-backend/src/mcpClient/index.ts:284-286 | with no disabled record, as after set-up, `callTool` never fails for a disabled server |
| JsonText.UnescapeEscape | mcp-backend/src/services/chat-service.ts:204 | decoding the escaped text of a string gives the string back |
| JsonText.StringifyRoundTrip | mcp-backend/src/services/chat-service.ts:204 | `JSON.stringify` of a string parses back as that string |
| JsonText.StringifyInjective | mcp-backend/src/services/chat-service.ts:210 | distinct contents give distinct JSON texts |
| ChatModels.ModelKeyRoundTrip | mcp-backend/src/services/chat-service.ts:31 | a model key splits back into its provider and model name |
| ChatModels.ModelKeyInjective | mcp-backend/src/services/chat-service.ts:31 | equal keys mean equal provider and model name |
| ChatModels.IndexOfKey | mcp-backend/src/services/chat-service.ts:131 | the position of a key in the table, the first holding it, or None iff absent |
| ChatModels.KeysGet | mcp-backend/src/services/chat-service.ts:103 | a key is listed iff `get` finds it |
| ChatModels.PutSpec | mcp-backend/src/services/chat-service.ts:34 | `set` maps the key to the value, leaves other keys alone, keeps keys distinct, keeps an existing key's position and appends a new one |
| ChatModels.BuildModelsDistinct | mcp-backend/src/services/chat-service.ts:30-54 | the model table never holds a key twice |
| ChatModels.BuildModelsKeys | mcp-backend/src/services/chat-service.ts:30-54 | a key is in the table iff some configured model has it |
| ChatModels.BuildModelsGet | mcp-backend/src/services/chat-service.ts:30-54 | a key maps to the last configured model with that key |
| ChatStore.ChatRows | mcp-backend/src/services/chatService.ts:15-18 | a chat's history is no longer than the store; which rows it holds, how often and in what order is stated by the three lemmas below |
| ChatStore.ChatRowsAppend | mcp-backend/src/services/chatService.ts:15-18 | writing a row of the chat adds exactly that row at the end of its history; other chats' rows leave it alone |
| ChatStore.ChatRowsMembers | mcp-backend/src/services/chatService.ts:15-18 | a row is in the chat's history iff it is in the store with that chat id |
| ChatStore.ChatRowsCounts | mcp-backend/src/services/chatService.ts:15-18 | a row of the chat occurs in its history exactly as often as in the store; a row of another chat never |
| ChatStore.MessageStore.constructor | mcp-backend/src/db/schema.ts:10-15 | the store starts empty |
| ChatStore.MessageStore.CreateMessage | mcp-backend/src/services/chat-service.ts:120 | writing a message appends exactly one row, which becomes the last of its chat's history |
| ChatStore.MessageStore.MessagesByChat | mcp-backend/src/services/chatService.ts:15-18 | the result holds exactly the stored rows of that chat, each as often as it is stored |
| Chat.FirstAdvertising | mcp-backend/src/services/chat-service.ts:79-82 | the first record advertising the tool, or None iff no record does |
| Chat.FindTool | mcp-backend/src/services/chat-service.ts:159 | `tools.find` by name: None iff no wrapped tool has the name, otherwise the first one with it |
| Chat.NamesFindTool | mcp-backend/src/services/chat-service.ts:107 | a name is among the tool names iff `find` finds a tool by it |
| Chat.WrappedToolsResolve | mcp-backend/src/services/chat-service.ts:79-86 | every catalogue tool has a record advertising it |
| Chat.WrapperNeverUnknownServer | mcp-backend/src/services/chat-service.ts:84-89 | the wrapper never gets the registry's "no connection found" failure |
| Chat.HistoryPrompt | mcp-backend/src/services/chat-service.ts:124-128 | one prompt message per row, in order: role "human" gives a user message, any other role an assistant message |
| Chat.ChatService.constructor | mcp-backend/src/services/chat-service.ts:25-58 | the table is built by one `set` per configured model in order; no tools; an empty registry |
| Chat.ChatService.Initialize | mcp-backend/src/services/chat-service.ts:60-66 | the registry is initialized, then every catalogue tool is wrapped in order |
| Chat.ChatService.SetupTools | mcp-backend/src/services/chat-service.ts:68-100 | the tools are extended by one wrapper per catalogue tool, in order; models unchanged |
| Chat.ChatService.GetAvailableModels | mcp-backend/src/services/chat-service.ts:102-104 | the table's keys in insertion order; a key is listed iff `get` finds a model; no key twice while the table is a map |
| Chat.ChatService.GetAvailableTools | mcp-backend/src/services/chat-service.ts:106-108 | the wrapped tools' names in order; a name is listed iff `find` finds a tool |
| Chat.ChatService.RunTool | mcp-backend/src/services/chat-service.ts:76-95 | no advertising record or an empty server name gives "Error: Could not find server ..."; otherwise the registry's response, or "Error: " and its failure message |
| Chat.ChatService.ExecuteCall | mcp-backend/src/services/chat-service.ts:157-190 | a call writes and returns nothing iff its tool is not wrapped |
| Chat.ChatService.RunCall | mcp-backend/src/services/chat-service.ts:158-189 | the imperative find, validate and run of one call gives `ExecuteCall` |
| Chat.ChatService.RecordCall | mcp-backend/src/services/chat-service.ts:169-188 | a call that ran appends its one tool turn and yields its output; a skipped call changes nothing |
| Chat.ChatService.RunCalls | mcp-backend/src/services/chat-service.ts:157-190 | the loop appends the turns of the calls that ran, in order, and collects exactly their outputs |
| Chat.ChatService.SendMessage | mcp-backend/src/services/chat-service.ts:114-213 | the rows appended, the result or thrown message, and the message lists sent are those of `SendOutcome` on the old store |
| Chat.ChatService.Converse | mcp-backend/src/services/chat-service.ts:122-145 | asking the model about the stored history plus the message, then handling the reply, matches `Exchange` |
| Chat.ChatService.Respond | mcp-backend/src/services/chat-service.ts:147-211 | handling the first reply matches `AfterReply` |
| Chat.ChatService.RespondToCalls | mcp-backend/src/services/chat-service.ts:148-206 | handling a reply with tool calls matches `AfterReply` |
| Chat.ChatService.AskAgain | mcp-backend/src/services/chat-service.ts:195-204 | a failed second call writes nothing and fails; an answer is written as the one "ai" turn and returned, both as the JSON text of its content |
| Chat.AvailableModelsAreConfigured | mcp-backend/src/services/chat-service.ts:102-104 | after construction, a key is listed iff some configured model has it |
| Chat.PromptRepeatsMessage | mcp-backend/src/services/chat-service.ts:120-145 | the first message list is the prior history followed by the message twice |
| Chat.CallTurnRecordsOutput | mcp-backend/src/services/chat-service.ts:169-188 | a rejected call records "Error executing tool ..." as turn and output; an accepted one records the tool's output as turn and output |
| Chat.ToolRoundEmpty | mcp-backend/src/services/chat-service.ts:157-193 | no call runs iff no requested tool is wrapped |
| Chat.ToolRoundAllFound | mcp-backend/src/services/chat-service.ts:157-190 | when every requested tool is wrapped, every call runs once, in request order |
| Chat.TurnOrder | mcp-backend/src/services/chat-service.ts:114-213 | the user's turn is written first; every row belongs to the chat; the middle rows are tool turns; the last is a tool or "ai" turn |
| Chat.UnknownModel | mcp-backend/src/services/chat-service.ts:130-134 | the model is never asked iff the id is unknown; then only the user's turn is written and "Model not found" is thrown |
| Chat.FirstPrompt | mcp-backend/src/services/chat-service.ts:120-145 | for a known model, the first list is the chat's prior history then the message twice |
| Chat.AtMostTwoCalls | mcp-backend/src/services/chat-service.ts:142-205 | the model is asked once or twice; twice iff there were tool calls and some ran; the second list is the first, the reply and the outputs in order |
| Chat.NoToolCalls | mcp-backend/src/services/chat-service.ts:207-211 | without tool calls the raw content is the one "ai" turn and its JSON text is returned |
| Chat.WithToolCalls | mcp-backend/src/services/chat-service.ts:148-204 | with tool calls the reply is a tool turn followed by one turn per call that ran; all wrapped and answered gives 3 more rows than calls |
| Chat.AllToolsMissing | mcp-backend/src/services/chat-service.ts:193-206 | when no requested tool is wrapped, the model is asked once, no "ai" turn is written and the first reply's JSON text is returned |
| Chat.ReturnIsJsonString | mcp-backend/src/services/chat-service.ts:203-210 | a result is always a JSON string literal that round-trips; an "ai" turn holds the returned content, raw or as that text |
| Chat.SecondCall | mcp-backend/src/services/chat-service.ts:193-204 | when some call ran and the second call answers, the rows are the user's turn, the reply as a tool turn, the call turns, then one "ai" turn with the JSON text of the second answer, which is returned |
| Chat.FailureWritesNoAnswer | mcp-backend/src/services/chat-service.ts:142-205 | a failed model call leaves no "ai" turn |

## Left out

- Reading the configuration file, JSON parsing and URL syntax: the file's contents arrive as `Option<RawSettings>` and URL validity as the `isUrl` predicate. Unknown keys are dropped when the file becomes `RawSettings`, as the schema strips them. A file that fails the schema for a type error arrives as None.
- McpConfig.ParseServer: fields of the wrong type cannot be written in a `RawServer`. So the model does not capture the union's fallback, where an entry whose `command` is not a string but which has a valid `url` is accepted as a network ("sse") entry.
- Mcp.McpClient.TransportError: an error from a transport whose record has been dropped, while another record with the same name exists (after `dispose` and a second `initialize`), is not modelled; such an error would apply its handler to that other record.
- The order of `Object.entries` over the `mcpServers` record: the entries arrive as a sequence in their enumeration order.
- The protocol client, the transports, spawning subprocesses, the environment passed to them (`PATH`), the client name and version: they become the outcomes in `Attempt` and the `RequestOracle`.
- Concurrency and interleaving: every awaited step completes before the next operation. A transport event is modelled as a separate call (`TransportError`, `TransportClose`) between operations, not in the middle of one. The no-op `start` override is therefore not needed.
- `getConnections`: the `connections` field of `McpClient` is what it returns.
- Logging to the console.
- Floating-point timeouts: timeouts are integers.
- `args || {}` in `callTool`: arguments are always present as JSON text.
- Chat.ChatService.RunTool: the registry's response object is given as its JSON text; `JSON.stringify` of that object is not modelled separately.
- The language-model clients, how tools are bound to them, and the check of tool arguments against the schema: these are the `Env.invoke` and `Env.validate` oracles. A provider outside the four known ones cannot be written in the model, since `Provider` has exactly four values.
- Message content that is not a string: a reply's content is modelled as text only, and `JSON.stringify` is modelled for strings only.
- Failures of the message store while writing: every write succeeds.
- The order of `getMessagesByChatId`: the query has no `ORDER BY`, and insertion order is assumed.
- The `toolResults` list of missing tools: nothing reads it, so it is not modelled.
- `createNewChat` and the chat table: they lie outside the conversation modelled here.
- `createMessage`: it is imported from `chatService.ts`, but that file does not define it. The model uses the store's append (`ChatStore.MessageStore.CreateMessage`).
