/**
 * The chat service: it keeps the table of configured models, wraps every tool
 * of the tool-server registry as a model-callable tool, and runs the
 * single-round tool-calling conversation of `sendMessage`, writing each turn
 * to the message store as it goes.
 *
 * The language-model clients are an oracle (`Env.invoke`), as is the check of
 * a tool call's arguments against the tool's input schema that the tool
 * wrapper performs before running the tool (`Env.validate`). Tool calls go
 * through the registry's `CallTool` with the configuration and request oracle
 * given in `Env`.
 */
module Chat {
  import opened Wrappers
  import opened JsonText
  import opened McpConfig
  import Mcp
  import opened ChatModels
  import opened ChatStore

  /** A tool call the model requests: the tool's name and its arguments. */
  datatype ToolCall = ToolCall(name: string, args: Json)

  /** What the model answers: its text content and the tool calls it requests, in order. */
  datatype Reply = Reply(content: string, toolCalls: seq<ToolCall>)

  /** One entry of the message list sent to the model. */
  datatype PromptMessage =
    | UserMessage(text: string)
    | AssistantMessage(text: string)
    | ModelReply(reply: Reply)

  /** A registry tool as the model sees it. */
  datatype WrappedTool = WrappedTool(name: string, description: string, schema: Json)

  /** The collaborators a conversation needs. */
  datatype Env = Env(
    invoke: (ModelConfig, seq<WrappedTool>, seq<PromptMessage>) -> Result<Reply, string>,
    validate: (WrappedTool, Json) -> Option<string>,
    config: Option<Settings>,
    request: Mcp.RequestOracle)

  /** What running one requested call leaves: the turn written to the store and the text handed back to the model. */
  datatype CallStep = CallStep(turn: string, output: string)

  /**
   * What `sendMessage` does: the rows it appends to the store, what it returns
   * or throws, and the message lists it sends to the model, in order.
   */
  datatype Outcome = Outcome(appended: seq<Message>, result: Result<string, string>, prompts: seq<seq<PromptMessage>>)

  // ---------------------------------------------------------------------------
  // Tools

  function Wrap(t: Mcp.Tool): WrappedTool {
    WrappedTool(t.name, t.description, t.schema)
  }

  function WrapTools(ts: seq<Mcp.Tool>): (r: seq<WrappedTool>)
    ensures |r| == |ts|
  {
    seq(|ts|, i requires 0 <= i < |ts| => Wrap(ts[i]))
  }

  function Names(tools: seq<WrappedTool>): (r: seq<string>)
    ensures |r| == |tools|
  {
    seq(|tools|, i requires 0 <= i < |tools| => tools[i].name)
  }

  /** `conn.tools.some(t => t.name === tool)`. */
  predicate Advertises(conn: Mcp.Connection, tool: string) {
    exists i :: 0 <= i < |conn.tools| && conn.tools[i].name == tool
  }

  /** The index of the first record advertising a tool of this name. */
  function FirstAdvertising(c: seq<Mcp.Connection>, tool: string): (r: Option<nat>)
    ensures r.None? <==> forall j :: 0 <= j < |c| ==> !Advertises(c[j], tool)
    ensures r.Some? ==>
      r.value < |c| && Advertises(c[r.value], tool) && forall j :: 0 <= j < r.value ==> !Advertises(c[j], tool)
  {
    if c == [] then None
    else if Advertises(c[0], tool) then Some(0)
    else
      match FirstAdvertising(c[1..], tool)
      case Some(j) =>
        assert c[j + 1] == c[1..][j];
        assert forall k :: 1 <= k < j + 1 ==> c[k] == c[1..][k - 1];
        Some(j + 1)
      case None =>
        assert forall k :: 1 <= k < |c| ==> c[k] == c[1..][k - 1];
        None
  }

  /** `tools[i]` is the tool `this.tools.find(t => t.name === name)` returns. */
  predicate FirstTool(tools: seq<WrappedTool>, name: string, i: int) {
    0 <= i < |tools| && tools[i].name == name && forall k :: 0 <= k < i ==> tools[k].name != name
  }

  /** `this.tools.find(t => t.name === name)`. */
  function FindTool(tools: seq<WrappedTool>, name: string): (r: Option<WrappedTool>)
    ensures r.None? <==> forall i :: 0 <= i < |tools| ==> tools[i].name != name
    ensures r.Some? ==> exists i :: FirstTool(tools, name, i) && tools[i] == r.value
  {
    if tools == [] then None
    else if tools[0].name == name then
      assert FirstTool(tools, name, 0);
      Some(tools[0])
    else
      var r := FindTool(tools[1..], name);
      assert forall k :: 1 <= k < |tools| ==> tools[k] == tools[1..][k - 1];
      if r.Some? then
        var i :| FirstTool(tools[1..], name, i) && tools[1..][i] == r.value;
        assert FirstTool(tools, name, i + 1);
        r
      else r
  }

  /** A name is among the wrapped tools' names exactly when `find` finds a tool by it. */
  lemma NamesFindTool(tools: seq<WrappedTool>, name: string)
    ensures name in Names(tools) <==> FindTool(tools, name).Some?
  {
    if name in Names(tools) {
      var i :| 0 <= i < |tools| && Names(tools)[i] == name;
    }
    if FindTool(tools, name).Some? {
      var i :| FirstTool(tools, name, i) && tools[i] == FindTool(tools, name).value;
      assert Names(tools)[i] == name;
    }
  }

  /** Every tool of the registry's catalogue has a record advertising it, so its wrapper always resolves a server. */
  lemma WrappedToolsResolve(c: seq<Mcp.Connection>, i: nat)
    requires i < |Mcp.AllTools(c)|
    ensures FirstAdvertising(c, Mcp.AllTools(c)[i].name).Some?
  {
    var t := Mcp.AllTools(c)[i];
    Mcp.AllToolsMembers(c, t);
    var j :| 0 <= j < |c| && t in c[j].tools;
    var k :| 0 <= k < |c[j].tools| && c[j].tools[k] == t;
    assert Advertises(c[j], t.name);
  }

  /**
   * The wrapper only calls the registry with the name of a record it found, so
   * the registry never answers that no connection of that name exists.
   */
  lemma WrapperNeverUnknownServer(client: Mcp.McpClient, tool: string, args: Json, env: Env, j: nat)
    requires FirstAdvertising(client.connections, tool) == Some(j)
    ensures client.CallTool(client.connections[j].name, tool, args, env.config, env.request) !=
            Failure(Mcp.UnknownServer(client.connections[j].name))
  {
    assert Mcp.Named(client.connections, client.connections[j].name);
  }

  // ---------------------------------------------------------------------------
  // The history sent to the model

  /** Stored rows as prompt messages: role "human" is the user's, every other role the assistant's. */
  function HistoryPrompt(rows: seq<Message>): (r: seq<PromptMessage>)
    ensures |r| == |rows|
    ensures forall i :: 0 <= i < |rows| ==>
      (rows[i].role == HumanRole ==> r[i] == UserMessage(rows[i].content)) &&
      (rows[i].role != HumanRole ==> r[i] == AssistantMessage(rows[i].content))
  {
    seq(|rows|, i requires 0 <= i < |rows| =>
      if rows[i].role == HumanRole then UserMessage(rows[i].content) else AssistantMessage(rows[i].content))
  }

  /** The first message list: the chat's stored history, then the message once more as a user message. */
  function Prompt(rows: seq<Message>, chatId: int, message: string): seq<PromptMessage> {
    HistoryPrompt(ChatRows(rows, chatId)) + [UserMessage(message)]
  }

  /** The rows written for the calls that ran, in request order. */
  function Turns(chatId: int, steps: seq<CallStep>): (r: seq<Message>)
    ensures |r| == |steps|
  {
    seq(|steps|, i requires 0 <= i < |steps| => Message(chatId, steps[i].turn, ToolRole))
  }

  /** `toolCallsMessages`: the calls' outputs, which the model client reads as user messages. */
  function Outputs(steps: seq<CallStep>): (r: seq<PromptMessage>)
    ensures |r| == |steps|
  {
    seq(|steps|, i requires 0 <= i < |steps| => UserMessage(steps[i].output))
  }

  /** The steps that are present, in order. */
  function Present(opts: seq<Option<CallStep>>): (r: seq<CallStep>)
    ensures |r| <= |opts|
  {
    if opts == [] then []
    else
      var last := opts[|opts| - 1];
      Present(opts[..|opts| - 1]) + (if last.Some? then [last.value] else [])
  }

  lemma PresentSnoc(opts: seq<Option<CallStep>>, x: Option<CallStep>)
    ensures Present(opts + [x]) == Present(opts) + (if x.Some? then [x.value] else [])
  {
    assert (opts + [x])[..|opts|] == opts;
  }

  lemma {:induction false} PresentEmpty(opts: seq<Option<CallStep>>)
    ensures Present(opts) == [] <==> forall i :: 0 <= i < |opts| ==> opts[i].None?
  {
    if opts != [] {
      var init := opts[..|opts| - 1];
      PresentEmpty(init);
      assert forall i :: 0 <= i < |init| ==> init[i] == opts[i];
    }
  }

  lemma {:induction false} PresentAllSome(opts: seq<Option<CallStep>>)
    requires forall i :: 0 <= i < |opts| ==> opts[i].Some?
    ensures |Present(opts)| == |opts|
    ensures forall i :: 0 <= i < |opts| ==> Present(opts)[i] == opts[i].value
  {
    if opts != [] {
      var init := opts[..|opts| - 1];
      assert forall i :: 0 <= i < |init| ==> init[i] == opts[i];
      PresentAllSome(init);
    }
  }

  lemma StepsSnoc(chatId: int, steps: seq<CallStep>, step: CallStep)
    ensures Turns(chatId, steps + [step]) == Turns(chatId, steps) + [Message(chatId, step.turn, ToolRole)]
    ensures Outputs(steps + [step]) == Outputs(steps) + [UserMessage(step.output)]
  {
  }

  lemma AppendAssoc(a: seq<Message>, m: Message, b: seq<Message>)
    ensures a + [m] + b == a + ([m] + b)
  {
  }

  lemma Regroup(a: seq<Message>, m: Message, b: seq<Message>, c: seq<Message>)
    ensures a + [m] + b + c == a + ([m] + b + c)
  {
  }

  lemma StepsSnocAll(chatId: int, steps: seq<CallStep>, x: Option<CallStep>)
    ensures Turns(chatId, steps + (if x.Some? then [x.value] else [])) ==
      Turns(chatId, steps) + (if x.Some? then [Message(chatId, x.value.turn, ToolRole)] else [])
    ensures Outputs(steps + (if x.Some? then [x.value] else [])) ==
      Outputs(steps) + (if x.Some? then [UserMessage(x.value.output)] else [])
  {
    if x.Some? {
      StepsSnoc(chatId, steps, x.value);
    } else {
      assert steps + [] == steps;
    }
  }

  function SuccessTurn(name: string, args: Json, output: string): string {
    "Tool execution: " + name + "\nInput: " + args + "\nOutput: " + output
  }

  function ErrorTurn(name: string, args: Json, message: string): string {
    "Tool execution error: " + name + "\nInput: " + args + "\nError: " + message
  }

  function NoServerMessage(tool: string): string {
    "Error: Could not find server for tool: " + tool
  }

  // ---------------------------------------------------------------------------
  // The service object

  class ChatService {
    var models: ModelTable
    var tools: seq<WrappedTool>
    const mcp: Mcp.McpClient

    /** The model table is a map: no key is held twice. */
    predicate Valid()
      reads this
    {
      DistinctKeys(models)
    }

    /** Stores every configured model under its key, a later entry replacing an earlier one with the same key. */
    constructor (configs: seq<ModelConfig>)
      ensures models == BuildModels(configs) && tools == []
      ensures fresh(mcp) && mcp.connections == []
      ensures Valid()
    {
      var table: ModelTable := [];
      for i := 0 to |configs|
        invariant table == BuildModels(configs[..i])
      {
        assert configs[..i + 1][..i] == configs[..i];
        table := Put(table, ModelKey(configs[i]), configs[i]);
      }
      assert configs[..|configs|] == configs;
      BuildModelsDistinct(configs);
      models := table;
      tools := [];
      mcp := new Mcp.McpClient();
    }

    /** `initialize`: sets up the registry's servers, then wraps the tools they advertise. */
    method Initialize(file: Option<RawSettings>, isUrl: string -> bool, attempt: (string, ServerConfig) -> Mcp.Attempt)
      modifies this, mcp
      ensures ParseSettings(file, isUrl).None? ==> mcp.connections == old(mcp.connections)
      ensures ParseSettings(file, isUrl).Some? ==>
        mcp.connections == Mcp.AfterSetup(old(mcp.connections), ParseSettings(file, isUrl).value, attempt)
      ensures models == old(models)
      ensures tools == old(tools) + WrapTools(mcp.GetTools(None))
      ensures old(Valid()) ==> Valid()
    {
      mcp.Initialize(file, isUrl, attempt);
      SetupTools();
    }

    /** `setupTools`: one wrapped tool per registry tool, in catalogue order. */
    method SetupTools()
      modifies this
      ensures models == old(models)
      ensures tools == old(tools) + WrapTools(mcp.GetTools(None))
    {
      var catalogue := mcp.GetTools(None);
      for i := 0 to |catalogue|
        invariant models == old(models)
        invariant tools == old(tools) + WrapTools(catalogue[..i])
      {
        assert WrapTools(catalogue[..i + 1]) == WrapTools(catalogue[..i]) + [Wrap(catalogue[i])];
        tools := tools + [Wrap(catalogue[i])];
      }
      assert catalogue[..|catalogue|] == catalogue;
    }

    /** `getAvailableModels`: the keys of the model table, in insertion order, each once. */
    function GetAvailableModels(): (keys: seq<string>)
      reads this
      ensures |keys| == |models|
      ensures forall i :: 0 <= i < |models| ==> keys[i] == models[i].0
      ensures forall k :: k in keys <==> Get(models, k).Some?
      ensures Valid() ==> forall i, j :: 0 <= i < j < |keys| ==> keys[i] != keys[j]
    {
      assert forall k :: k in Keys(models) <==> Get(models, k).Some? by {
        forall k {
          KeysGet(models, k);
        }
      }
      Keys(models)
    }

    /** `getAvailableTools`: the wrapped tools' names, in order. */
    function GetAvailableTools(): (names: seq<string>)
      reads this
      ensures |names| == |tools|
      ensures forall i :: 0 <= i < |tools| ==> names[i] == tools[i].name
      ensures forall n :: n in names <==> FindTool(tools, n).Some?
    {
      assert forall n :: n in Names(tools) <==> FindTool(tools, n).Some? by {
        forall n {
          NamesFindTool(tools, n);
        }
      }
      Names(tools)
    }

    /**
     * The wrapped tool's function: it looks up the first record advertising
     * the tool and calls the tool there; a missing server and a failed call
     * become an "Error: ..." text instead of an exception.
     */
    function RunTool(name: string, args: Json, env: Env): (out: string)
      reads mcp
      ensures FirstAdvertising(mcp.connections, name).None? ==> out == NoServerMessage(name)
      ensures forall j :: FirstAdvertising(mcp.connections, name) == Some(j) ==>
        var server := mcp.connections[j].name;
        (server == "" ==> out == NoServerMessage(name)) &&
        (server != "" ==>
          match mcp.CallTool(server, name, args, env.config, env.request)
          case Success(response) => out == response
          case Failure(e) => out == "Error: " + e.Message())
    {
      match FirstAdvertising(mcp.connections, name)
      case None => NoServerMessage(name)
      case Some(j) =>
        var server := mcp.connections[j].name;
        if server == "" then NoServerMessage(name)
        else
          match mcp.CallTool(server, name, args, env.config, env.request)
          case Success(response) => response
          case Failure(e) => "Error: " + e.Message()
    }

    /**
     * One iteration of the tool loop: nothing for a tool that is not wrapped;
     * an error turn when the arguments fail the tool's schema; otherwise the
     * tool's output.
     */
    function ExecuteCall(call: ToolCall, env: Env): (r: Option<CallStep>)
      reads this, mcp
      ensures r.None? <==> FindTool(tools, call.name).None?
    {
      match FindTool(tools, call.name)
      case None => None
      case Some(tool) =>
        match env.validate(tool, call.args)
        case Some(problem) =>
          var message := "Error executing tool " + call.name + ": " + problem;
          Some(CallStep(ErrorTurn(call.name, call.args, message), message))
        case None =>
          var output := RunTool(tool.name, call.args, env);
          Some(CallStep(SuccessTurn(call.name, call.args, output), output))
    }

    /** What each requested call gives, in request order. */
    function CallSteps(calls: seq<ToolCall>, env: Env): (r: seq<Option<CallStep>>)
      reads this, mcp
      ensures |r| == |calls|
    {
      seq(|calls|, i requires 0 <= i < |calls| reads this, mcp => ExecuteCall(calls[i], env))
    }

    /** The steps of the calls that ran, in request order. */
    function ToolRound(calls: seq<ToolCall>, env: Env): (r: seq<CallStep>)
      reads this, mcp
    {
      Present(CallSteps(calls, env))
    }

    /** The whole of `sendMessage(chatId, message, modelId)` against a store holding `rows`. */
    function SendOutcome(rows: seq<Message>, chatId: int, message: string, modelId: string, env: Env): Outcome
      reads this, mcp
    {
      var human := Message(chatId, message, HumanRole);
      match Get(models, modelId)
      case None => Outcome([human], Failure("Model not found: " + modelId), [])
      case Some(model) =>
        var rest := Exchange(rows + [human], chatId, message, model, env);
        Outcome([human] + rest.appended, rest.result, rest.prompts)
    }

    /**
     * The conversation once the model is known, against a store already
     * holding the user's turn: the first call to the model and what follows.
     */
    function Exchange(rows: seq<Message>, chatId: int, message: string, model: ModelConfig, env: Env): Outcome
      reads this, mcp
    {
      var first := Prompt(rows, chatId, message);
      match env.invoke(model, tools, first)
      case Failure(e) => Outcome([], Failure(e), [first])
      case Success(reply) =>
        var rest := AfterReply(chatId, model, first, reply, env);
        Outcome(rest.appended, rest.result, [first] + rest.prompts)
    }

    /**
     * What follows the model's first reply to `first`: the rows written after
     * the user's turn, the result, and the message lists sent after `first`.
     */
    function AfterReply(chatId: int, model: ModelConfig, first: seq<PromptMessage>, reply: Reply, env: Env): Outcome
      reads this, mcp
    {
      if reply.toolCalls == [] then
        Outcome([Message(chatId, reply.content, AiRole)], Success(Stringify(reply.content)), [])
      else
        var steps := ToolRound(reply.toolCalls, env);
        var written := [Message(chatId, Stringify(reply.content), ToolRole)] + Turns(chatId, steps);
        if steps == [] then Outcome(written, Success(Stringify(reply.content)), [])
        else
          var second := first + [ModelReply(reply)] + Outputs(steps);
          match env.invoke(model, tools, second)
          case Failure(e) => Outcome(written, Failure(e), [second])
          case Success(final) =>
            Outcome(written + [Message(chatId, Stringify(final.content), AiRole)], Success(Stringify(final.content)), [second])
    }

    /**
     * The loop over the requested calls: each call whose tool is wrapped
     * writes one turn and adds one output; the others are skipped.
     */
    method RunCalls(store: MessageStore, chatId: int, calls: seq<ToolCall>, env: Env)
      returns (outputs: seq<PromptMessage>)
      modifies store
      ensures store.messages == old(store.messages) + Turns(chatId, ToolRound(calls, env))
      ensures outputs == Outputs(ToolRound(calls, env))
    {
      outputs := [];
      for k := 0 to |calls|
        invariant store.messages == old(store.messages) + Turns(chatId, ToolRound(calls[..k], env))
        invariant outputs == Outputs(ToolRound(calls[..k], env))
      {
        ToolRoundStep(calls, k, env);
        var output := RecordCall(store, chatId, calls[k], env);
        if output.Some? {
          outputs := outputs + [output.value];
        }
        StepsSnocAll(chatId, ToolRound(calls[..k], env), ExecuteCall(calls[k], env));
      }
      assert calls[..|calls|] == calls;
    }

    /** Runs one requested call and writes its turn, giving back its output for the model. */
    method RecordCall(store: MessageStore, chatId: int, call: ToolCall, env: Env) returns (output: Option<PromptMessage>)
      modifies store
      ensures var step := ExecuteCall(call, env);
        && store.messages == old(store.messages) + (if step.Some? then [Message(chatId, step.value.turn, ToolRole)] else [])
        && output == (if step.Some? then Some(UserMessage(step.value.output)) else None)
    {
      var step := RunCall(call, env);
      if step.Some? {
        store.CreateMessage(chatId, step.value.turn, ToolRole);
        output := Some(UserMessage(step.value.output));
      } else {
        output := None;
      }
    }

    /**
     * One requested call: a tool that is not wrapped is skipped; arguments the
     * tool's schema rejects give an error turn; otherwise the tool runs. This
     * is the executable step of `RecordCall`, proved to compute the
     * specification `ExecuteCall`.
     */
    method RunCall(call: ToolCall, env: Env) returns (step: Option<CallStep>)
      ensures step == ExecuteCall(call, env)
    {
      var tool := FindTool(tools, call.name);
      if tool.None? {
        return None;
      }
      var problem := env.validate(tool.value, call.args);
      if problem.Some? {
        var failure := "Error executing tool " + call.name + ": " + problem.value;
        step := Some(CallStep(ErrorTurn(call.name, call.args, failure), failure));
      } else {
        var output := RunTool(tool.value.name, call.args, env);
        step := Some(CallStep(SuccessTurn(call.name, call.args, output), output));
      }
    }

    lemma ToolRoundStep(calls: seq<ToolCall>, k: nat, env: Env)
      requires k < |calls|
      ensures ToolRound(calls[..k + 1], env) ==
        ToolRound(calls[..k], env) + (if ExecuteCall(calls[k], env).Some? then [ExecuteCall(calls[k], env).value] else [])
    {
      var a, b := CallSteps(calls[..k], env), CallSteps(calls[..k + 1], env);
      assert b == a + [ExecuteCall(calls[k], env)];
      PresentSnoc(a, ExecuteCall(calls[k], env));
    }

    /**
     * `sendMessage`: writes the user's turn, asks the model, runs the tool
     * calls it requests one by one, and asks the model once more with their
     * outputs. Returns what the service returns or throws, and the message
     * lists sent to the model.
     */
    method SendMessage(store: MessageStore, chatId: int, message: string, modelId: string, env: Env)
      returns (r: Result<string, string>, prompts: seq<seq<PromptMessage>>)
      modifies store
      ensures var o := SendOutcome(old(store.messages), chatId, message, modelId, env);
        store.messages == old(store.messages) + o.appended && r == o.result && prompts == o.prompts
    {
      ghost var before := store.messages;
      var human := Message(chatId, message, HumanRole);
      store.CreateMessage(chatId, message, HumanRole);
      var model := Get(models, modelId);
      if model.None? {
        r, prompts := Failure("Model not found: " + modelId), [];
      } else {
        r, prompts := Converse(store, chatId, message, model.value, env);
        AppendAssoc(before, human, Exchange(before + [human], chatId, message, model.value, env).appended);
      }
      SendOutcomeSteps(before, chatId, message, modelId, env);
    }

    lemma SendOutcomeSteps(rows: seq<Message>, chatId: int, message: string, modelId: string, env: Env)
      ensures var human := Message(chatId, message, HumanRole);
        var o := SendOutcome(rows, chatId, message, modelId, env);
        && (Get(models, modelId).None? ==> o == Outcome([human], Failure("Model not found: " + modelId), []))
        && (Get(models, modelId).Some? ==>
              var x := Exchange(rows + [human], chatId, message, Get(models, modelId).value, env);
              o == Outcome([human] + x.appended, x.result, x.prompts))
    {
    }

    /** Asks the model about the chat's history followed by the message, then handles its reply. */
    method Converse(store: MessageStore, chatId: int, message: string, model: ModelConfig, env: Env)
      returns (r: Result<string, string>, prompts: seq<seq<PromptMessage>>)
      modifies store
      ensures var o := Exchange(old(store.messages), chatId, message, model, env);
        store.messages == old(store.messages) + o.appended && r == o.result && prompts == o.prompts
    {
      var history := HistoryPrompt(store.MessagesByChat(chatId));
      var first := history + [UserMessage(message)];
      var result := env.invoke(model, tools, first);
      if result.Failure? {
        r, prompts := Failure(result.error), [first];
        return;
      }
      var later;
      r, later := Respond(store, chatId, model, first, result.value, env);
      prompts := [first] + later;
    }

    /** Handles the model's first reply: its tool calls, if any, and the second call to the model. */
    method Respond(store: MessageStore, chatId: int, model: ModelConfig, first: seq<PromptMessage>, reply: Reply, env: Env)
      returns (r: Result<string, string>, later: seq<seq<PromptMessage>>)
      modifies store
      ensures var o := AfterReply(chatId, model, first, reply, env);
        store.messages == old(store.messages) + o.appended && r == o.result && later == o.prompts
    {
      if |reply.toolCalls| == 0 {
        store.CreateMessage(chatId, reply.content, AiRole);
        r, later := Success(Stringify(reply.content)), [];
        return;
      }
      r, later := RespondToCalls(store, chatId, model, first, reply, env);
    }

    /** A reply with tool calls: it is written as a tool turn, the calls run, and the model is asked again if any ran. */
    method RespondToCalls(store: MessageStore, chatId: int, model: ModelConfig, first: seq<PromptMessage>, reply: Reply, env: Env)
      returns (r: Result<string, string>, later: seq<seq<PromptMessage>>)
      requires reply.toolCalls != []
      modifies store
      ensures var o := AfterReply(chatId, model, first, reply, env);
        store.messages == old(store.messages) + o.appended && r == o.result && later == o.prompts
    {
      ghost var before := store.messages;
      ghost var steps := ToolRound(reply.toolCalls, env);
      var announce := Message(chatId, Stringify(reply.content), ToolRole);
      store.CreateMessage(chatId, Stringify(reply.content), ToolRole);
      var outputs := RunCalls(store, chatId, reply.toolCalls, env);
      Regroup(before, announce, Turns(chatId, steps), []);
      if |outputs| > 0 {
        var second := first + [ModelReply(reply)] + outputs;
        later := [second];
        ghost var written := store.messages;
        r := AskAgain(store, chatId, model, second, env);
        if r.Success? {
          Regroup(before, announce, Turns(chatId, steps), store.messages[|written|..]);
        }
        return;
      }
      r, later := Success(Stringify(reply.content)), [];
    }

    /** The second call to the model; its answer, if it comes, is written as the "ai" turn and returned as JSON text. */
    method AskAgain(store: MessageStore, chatId: int, model: ModelConfig, second: seq<PromptMessage>, env: Env)
      returns (r: Result<string, string>)
      modifies store
      ensures match env.invoke(model, tools, second)
        case Failure(e) => store.messages == old(store.messages) && r == Failure(e)
        case Success(final) =>
          && store.messages == old(store.messages) + [Message(chatId, Stringify(final.content), AiRole)]
          && r == Success(Stringify(final.content))
    {
      var final := env.invoke(model, tools, second);
      if final.Failure? {
        r := Failure(final.error);
        return;
      }
      store.CreateMessage(chatId, Stringify(final.value.content), AiRole);
      r := Success(Stringify(final.value.content));
    }
  }

  // ---------------------------------------------------------------------------
  // Properties of the conversation

  /** After construction, `getAvailableModels` lists exactly the keys of the configured models. */
  lemma AvailableModelsAreConfigured(svc: ChatService, configs: seq<ModelConfig>, k: string)
    requires svc.models == BuildModels(configs)
    ensures k in svc.GetAvailableModels() <==> Configured(configs, k)
  {
    BuildModelsKeys(configs, k);
  }

  /** Writing the user's turn adds the message to the history a second time, so the first list ends with it twice. */
  lemma PromptRepeatsMessage(rows: seq<Message>, chatId: int, message: string)
    ensures Prompt(rows + [Message(chatId, message, HumanRole)], chatId, message) ==
      HistoryPrompt(ChatRows(rows, chatId)) + [UserMessage(message), UserMessage(message)]
  {
    var human := Message(chatId, message, HumanRole);
    ChatRowsAppend(rows, human, chatId);
    var h := ChatRows(rows, chatId);
    assert ChatRows(rows + [human], chatId) == h + [human];
    HistorySnoc(h, human);
  }

  lemma HistorySnoc(h: seq<Message>, m: Message)
    requires m.role == HumanRole
    ensures HistoryPrompt(h + [m]) == HistoryPrompt(h) + [UserMessage(m.content)]
  {
    var a, b := HistoryPrompt(h + [m]), HistoryPrompt(h) + [UserMessage(m.content)];
    assert |a| == |b|;
    forall i | 0 <= i < |a| ensures a[i] == b[i] {
      if i < |h| {
        assert (h + [m])[i] == h[i];
      }
    }
  }

  /**
   * The turn written for a call that ran records the tool's name, its input
   * and exactly the text handed back to the model: the tool's output, or the
   * error raised when its arguments were rejected.
   */
  lemma CallTurnRecordsOutput(svc: ChatService, call: ToolCall, env: Env)
    requires svc.ExecuteCall(call, env).Some?
    ensures var step := svc.ExecuteCall(call, env).value;
      var tool := FindTool(svc.tools, call.name).value;
      && (env.validate(tool, call.args).Some? ==>
            step.output == "Error executing tool " + call.name + ": " + env.validate(tool, call.args).value &&
            step.turn == ErrorTurn(call.name, call.args, step.output))
      && (env.validate(tool, call.args).None? ==>
            step.output == svc.RunTool(call.name, call.args, env) &&
            step.turn == SuccessTurn(call.name, call.args, step.output))
  {
    var tool := FindTool(svc.tools, call.name).value;
    var i :| FirstTool(svc.tools, call.name, i) && svc.tools[i] == tool;
  }

  /** The calls that ran are none exactly when no requested tool is wrapped. */
  lemma ToolRoundEmpty(svc: ChatService, calls: seq<ToolCall>, env: Env)
    ensures svc.ToolRound(calls, env) == [] <==>
      forall i :: 0 <= i < |calls| ==> FindTool(svc.tools, calls[i].name).None?
  {
    var opts := svc.CallSteps(calls, env);
    PresentEmpty(opts);
    assert forall i :: 0 <= i < |calls| ==> opts[i] == svc.ExecuteCall(calls[i], env);
  }

  /** When every requested tool is wrapped, every call runs, once, in request order. */
  lemma ToolRoundAllFound(svc: ChatService, calls: seq<ToolCall>, env: Env)
    requires forall i :: 0 <= i < |calls| ==> FindTool(svc.tools, calls[i].name).Some?
    ensures |svc.ToolRound(calls, env)| == |calls|
    ensures forall i :: 0 <= i < |calls| ==> svc.ToolRound(calls, env)[i] == svc.ExecuteCall(calls[i], env).value
  {
    var opts := svc.CallSteps(calls, env);
    assert forall i :: 0 <= i < |calls| ==> opts[i] == svc.ExecuteCall(calls[i], env);
    PresentAllSome(opts);
  }

  /**
   * The user's turn is written first, whatever happens next, and every row
   * written belongs to the chat; the rows between it and the last are tool
   * turns, and the last is a tool or an "ai" turn.
   */
  lemma TurnOrder(svc: ChatService, rows: seq<Message>, chatId: int, message: string, modelId: string, env: Env)
    ensures var o := svc.SendOutcome(rows, chatId, message, modelId, env);
      && |o.appended| >= 1
      && o.appended[0] == Message(chatId, message, HumanRole)
      && (forall i :: 0 <= i < |o.appended| ==> o.appended[i].chatId == chatId)
      && (forall i :: 1 <= i < |o.appended| - 1 ==> o.appended[i].role == ToolRole)
      && (|o.appended| >= 2 ==> o.appended[|o.appended| - 1].role in {ToolRole, AiRole})
  {
  }

  /** An unknown model id fails after the user's turn is written, and the model is never asked. */
  lemma UnknownModel(svc: ChatService, rows: seq<Message>, chatId: int, message: string, modelId: string, env: Env)
    ensures var o := svc.SendOutcome(rows, chatId, message, modelId, env);
      (o.prompts == [] <==> Get(svc.models, modelId).None?) &&
      (Get(svc.models, modelId).None? ==>
         o.appended == [Message(chatId, message, HumanRole)] && o.result == Failure("Model not found: " + modelId))
  {
  }

  /**
   * When the model is known, it is first asked about the chat's history
   * followed by the message, which thus appears twice at the end.
   */
  lemma FirstPrompt(svc: ChatService, rows: seq<Message>, chatId: int, message: string, modelId: string, env: Env)
    requires Get(svc.models, modelId).Some?
    ensures var o := svc.SendOutcome(rows, chatId, message, modelId, env);
      |o.prompts| >= 1 &&
      o.prompts[0] == HistoryPrompt(ChatRows(rows, chatId)) + [UserMessage(message), UserMessage(message)]
  {
    PromptRepeatsMessage(rows, chatId, message);
    var first := Prompt(rows + [Message(chatId, message, HumanRole)], chatId, message);
    var o := svc.SendOutcome(rows, chatId, message, modelId, env);
    var x := svc.Exchange(rows + [Message(chatId, message, HumanRole)], chatId, message, Get(svc.models, modelId).value, env);
    assert o.prompts == x.prompts;
    assert x.prompts[0] == first;
  }

  /**
   * The model is asked at most twice: a second time exactly when some call
   * ran, about the first list, the model's reply and the calls' outputs in
   * request order.
   */
  lemma AtMostTwoCalls(svc: ChatService, rows: seq<Message>, chatId: int, message: string, modelId: string, env: Env,
                       model: ModelConfig, reply: Reply)
    requires Get(svc.models, modelId) == Some(model)
    requires env.invoke(model, svc.tools, Prompt(rows + [Message(chatId, message, HumanRole)], chatId, message)) ==
             Success(reply)
    ensures var o := svc.SendOutcome(rows, chatId, message, modelId, env);
      var steps := svc.ToolRound(reply.toolCalls, env);
      && 1 <= |o.prompts| <= 2
      && (|o.prompts| == 2 <==> reply.toolCalls != [] && steps != [])
      && (|o.prompts| == 2 ==> o.prompts[1] == o.prompts[0] + [ModelReply(reply)] + Outputs(steps))
  {
    var first := Prompt(rows + [Message(chatId, message, HumanRole)], chatId, message);
    var rest := svc.AfterReply(chatId, model, first, reply, env);
    var o := svc.SendOutcome(rows, chatId, message, modelId, env);
    assert o.prompts == [first] + rest.prompts;
  }

  /** Without tool calls the raw reply is written as the one "ai" turn, and its JSON text is returned. */
  lemma NoToolCalls(svc: ChatService, rows: seq<Message>, chatId: int, message: string, modelId: string, env: Env,
                    model: ModelConfig, reply: Reply)
    requires Get(svc.models, modelId) == Some(model)
    requires env.invoke(model, svc.tools, Prompt(rows + [Message(chatId, message, HumanRole)], chatId, message)) ==
             Success(reply)
    requires reply.toolCalls == []
    ensures var o := svc.SendOutcome(rows, chatId, message, modelId, env);
      && o.appended == [Message(chatId, message, HumanRole), Message(chatId, reply.content, AiRole)]
      && o.result == Success(Stringify(reply.content))
  {
  }

  /**
   * With tool calls, the reply is written as a tool turn, then one tool turn
   * per call that ran, in request order; when every tool is wrapped and the
   * second answer arrives, that makes three rows more than there were calls.
   */
  lemma WithToolCalls(svc: ChatService, rows: seq<Message>, chatId: int, message: string, modelId: string, env: Env,
                      model: ModelConfig, reply: Reply)
    requires Get(svc.models, modelId) == Some(model)
    requires env.invoke(model, svc.tools, Prompt(rows + [Message(chatId, message, HumanRole)], chatId, message)) ==
             Success(reply)
    requires reply.toolCalls != []
    ensures var o := svc.SendOutcome(rows, chatId, message, modelId, env);
      var steps := svc.ToolRound(reply.toolCalls, env);
      && |o.appended| >= 2 + |steps|
      && o.appended[..2 + |steps|] ==
         [Message(chatId, message, HumanRole), Message(chatId, Stringify(reply.content), ToolRole)] + Turns(chatId, steps)
      && (((forall i :: 0 <= i < |reply.toolCalls| ==> FindTool(svc.tools, reply.toolCalls[i].name).Some?) &&
           o.result.Success?) ==> |o.appended| == 3 + |reply.toolCalls|)
  {
    var o := svc.SendOutcome(rows, chatId, message, modelId, env);
    var steps := svc.ToolRound(reply.toolCalls, env);
    var written := [Message(chatId, message, HumanRole), Message(chatId, Stringify(reply.content), ToolRole)] +
                   Turns(chatId, steps);
    assert o.appended == written || o.appended == written + [o.appended[|o.appended| - 1]];
    assert o.appended[..2 + |steps|] == written;
    if forall i :: 0 <= i < |reply.toolCalls| ==> FindTool(svc.tools, reply.toolCalls[i].name).Some? {
      ToolRoundAllFound(svc, reply.toolCalls, env);
      ToolRoundEmpty(svc, reply.toolCalls, env);
    }
  }

  /** When no requested tool is wrapped, the model is not asked again, no "ai" turn is written, and the first reply's JSON text is returned. */
  lemma AllToolsMissing(svc: ChatService, rows: seq<Message>, chatId: int, message: string, modelId: string, env: Env,
                        model: ModelConfig, reply: Reply)
    requires Get(svc.models, modelId) == Some(model)
    requires env.invoke(model, svc.tools, Prompt(rows + [Message(chatId, message, HumanRole)], chatId, message)) ==
             Success(reply)
    requires reply.toolCalls != []
    requires forall i :: 0 <= i < |reply.toolCalls| ==> FindTool(svc.tools, reply.toolCalls[i].name).None?
    ensures var o := svc.SendOutcome(rows, chatId, message, modelId, env);
      && o.appended == [Message(chatId, message, HumanRole), Message(chatId, Stringify(reply.content), ToolRole)]
      && o.result == Success(Stringify(reply.content))
      && |o.prompts| == 1
  {
    ToolRoundEmpty(svc, reply.toolCalls, env);
  }

  /**
   * What is returned is always a JSON string literal: the text of the
   * reply's content. An "ai" turn, when one is written, holds that content:
   * raw when there were no tool calls, as the returned JSON text after them.
   */
  lemma ReturnIsJsonString(svc: ChatService, rows: seq<Message>, chatId: int, message: string, modelId: string, env: Env)
    ensures var o := svc.SendOutcome(rows, chatId, message, modelId, env);
      && (o.result.Success? ==>
            ParseString(o.result.value).Some? && Stringify(ParseString(o.result.value).value) == o.result.value)
      && (o.appended[|o.appended| - 1].role == AiRole ==>
            && o.result.Success?
            && (|o.appended| == 2 ==> o.result.value == Stringify(o.appended[1].content))
            && (|o.appended| > 2 ==> o.result.value == o.appended[|o.appended| - 1].content))
  {
    var o := svc.SendOutcome(rows, chatId, message, modelId, env);
    if o.result.Success? {
      var c :| o.result.value == Stringify(c);
      StringifyRoundTrip(c);
    }
  }

  /**
   * When some call ran and the second call to the model answers, exactly one
   * "ai" turn follows the tool turns, holding the JSON text of the second
   * answer's content, and that text is what is returned.
   */
  lemma SecondCall(svc: ChatService, rows: seq<Message>, chatId: int, message: string, modelId: string, env: Env,
                   model: ModelConfig, reply: Reply, final: Reply)
    requires Get(svc.models, modelId) == Some(model)
    requires env.invoke(model, svc.tools, Prompt(rows + [Message(chatId, message, HumanRole)], chatId, message)) ==
             Success(reply)
    requires reply.toolCalls != [] && svc.ToolRound(reply.toolCalls, env) != []
    requires env.invoke(model, svc.tools,
               Prompt(rows + [Message(chatId, message, HumanRole)], chatId, message) + [ModelReply(reply)] +
               Outputs(svc.ToolRound(reply.toolCalls, env))) == Success(final)
    ensures var o := svc.SendOutcome(rows, chatId, message, modelId, env);
      && o.appended ==
         [Message(chatId, message, HumanRole), Message(chatId, Stringify(reply.content), ToolRole)] +
         Turns(chatId, svc.ToolRound(reply.toolCalls, env)) + [Message(chatId, Stringify(final.content), AiRole)]
      && o.result == Success(Stringify(final.content))
  {
  }

  /** A failed call to the model leaves the rows written before it, but never an "ai" turn. */
  lemma FailureWritesNoAnswer(svc: ChatService, rows: seq<Message>, chatId: int, message: string, modelId: string, env: Env)
    ensures var o := svc.SendOutcome(rows, chatId, message, modelId, env);
      o.result.Failure? ==> forall i :: 0 <= i < |o.appended| ==> o.appended[i].role != AiRole
  {
  }
}
