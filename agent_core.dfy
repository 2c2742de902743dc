/** The agent of `agent/core.py`: a registry of tools, guarded tool dispatch,
    provider routing, conversion of a stored history into provider messages,
    the single tool-resolution round of the OpenAI exchange, and `chat`, which
    records the exchange in the conversation store.

    A provider client is an oracle: a function from the request the agent sends
    to the reply (text, an ordered list of tool calls, or a failure). A tool's
    `execute` is the abstract executor of its `Tool` value. */
module AgentCore {
  import opened Wrappers
  import opened ToolBase
  import opened Conversation

  // ---------------------------------------------------------------- dispatch

  /** What a call of `execute` becomes: its own result, or a failed result
      carrying the fault's message. */
  function Outcome(e: Execution): (r: ToolResult)
    ensures e.Returned? ==> r == e.result
    ensures e.Raised? ==> !r.success && r.error == Some(ExecutionFailedPrefix + e.message)
  {
    match e
    case Returned(result) => result
    case Raised(message) => Failure(ExecutionFailedPrefix + message)
  }

  const ExecutionFailedPrefix := "Tool execution failed: "

  function NotFoundError(name: string): string {
    "Tool '" + name + "' not found"
  }

  function InvalidParametersError(name: string): string {
    "Invalid parameters for tool '" + name + "'"
  }

  /** `execute_tool`: an unknown name fails first, then a call missing a required
      parameter, and only then is the executor run; a fault never escapes. */
  function ExecuteTool(registry: map<string, Tool>, name: string, args: Args): (r: ToolResult)
    ensures name !in registry ==> r == Failure(NotFoundError(name))
    ensures name in registry && !ValidateParameters(registry[name].parameters, args) ==>
      r == Failure(InvalidParametersError(name))
    ensures name in registry && ValidateParameters(registry[name].parameters, args) ==>
      r == Outcome(registry[name].execute(args))
  {
    if name !in registry then Failure(NotFoundError(name))
    else if !ValidateParameters(registry[name].parameters, args) then Failure(InvalidParametersError(name))
    else Outcome(registry[name].execute(args))
  }

  /** The executor is never consulted for an unknown name or an invalid call: two
      registries that agree on which names exist and on the tool's parameters
      give the same result whatever their executors do. */
  lemma ExecutorNotInvoked(registry: map<string, Tool>, other: map<string, Tool>, name: string, args: Args)
    requires name in registry <==> name in other
    requires name in registry ==> registry[name].parameters == other[name].parameters
    requires name !in registry || !ValidateParameters(registry[name].parameters, args)
    ensures ExecuteTool(registry, name, args) == ExecuteTool(other, name, args)
  {
  }

  /** A call that passes validation returns exactly what the executor returned,
      or a failure naming the fault; it is never reported as a lookup or
      validation failure. */
  lemma ValidCallReachesExecutor(registry: map<string, Tool>, name: string, args: Args)
    requires name in registry && ValidateParameters(registry[name].parameters, args)
    ensures registry[name].execute(args).Returned? ==> ExecuteTool(registry, name, args) == registry[name].execute(args).result
    ensures registry[name].execute(args).Raised? ==>
      var r := ExecuteTool(registry, name, args);
      !r.success && r.error.Some? && ExecutionFailedPrefix <= r.error.value
  {
    var r := ExecuteTool(registry, name, args);
    if registry[name].execute(args).Raised? {
      assert r.error.value == ExecutionFailedPrefix + registry[name].execute(args).message;
      assert r.error.value[..|ExecutionFailedPrefix|] == ExecutionFailedPrefix;
    }
  }

  // ---------------------------------------------------------------- routing

  datatype Provider = OpenAI | Anthropic

  /** The provider a request goes to and the model it names. */
  datatype Route = Route(provider: Provider, model: string)

  const OpenAIFallbackModel := "gpt-4"
  const AnthropicFallbackModel := "claude-3-sonnet-20240229"
  const NoProviderError := "No AI providers available"

  function FallbackModel(p: Provider): string {
    match p
    case OpenAI => OpenAIFallbackModel
    case Anthropic => AnthropicFallbackModel
  }

  /** `model or settings.DEFAULT_MODEL`. */
  function EffectiveModel(requested: Option<string>, defaultModel: string): string {
    if requested.Some? && requested.value != "" then requested.value else defaultModel
  }

  /** The model name selects this provider by its prefix. */
  predicate Names(p: Provider, model: string) {
    match p
    case OpenAI => "gpt" <= model
    case Anthropic => "claude" <= model
  }

  /** `_generate_response`'s choice: OpenAI for a "gpt" model, Anthropic for a
      "claude" model, each only when its client exists; otherwise whichever client
      exists, OpenAI first, with that provider's fixed model; nothing when there
      is no client. */
  function SelectProvider(requested: Option<string>, defaultModel: string, hasOpenAI: bool, hasAnthropic: bool): (r: Option<Route>)
    ensures r.None? <==> !hasOpenAI && !hasAnthropic
    ensures r.Some? && r.value.provider == OpenAI ==> hasOpenAI
    ensures r.Some? && r.value.provider == Anthropic ==> hasAnthropic
    ensures r.Some? && Names(r.value.provider, EffectiveModel(requested, defaultModel)) ==>
      r.value.model == EffectiveModel(requested, defaultModel)
    ensures r.Some? && !Names(r.value.provider, EffectiveModel(requested, defaultModel)) ==>
      r.value.model == FallbackModel(r.value.provider)
    ensures hasAnthropic && Names(Anthropic, EffectiveModel(requested, defaultModel)) ==> r.value.provider == Anthropic
    ensures hasOpenAI && !(hasAnthropic && Names(Anthropic, EffectiveModel(requested, defaultModel))) ==> r.value.provider == OpenAI
  {
    var model := EffectiveModel(requested, defaultModel);
    PrefixesExclusive(model);
    if hasOpenAI && "gpt" <= model then Some(Route(OpenAI, model))
    else if hasAnthropic && "claude" <= model then Some(Route(Anthropic, model))
    else if hasOpenAI then Some(Route(OpenAI, OpenAIFallbackModel))
    else if hasAnthropic then Some(Route(Anthropic, AnthropicFallbackModel))
    else None
  }

  /** No model name selects both providers. */
  lemma PrefixesExclusive(model: string)
    ensures !(Names(OpenAI, model) && Names(Anthropic, model))
  {
    if "gpt" <= model {
      assert model[0] == 'g';
    }
  }

  // ---------------------------------------------------------------- provider messages

  /** A tool call as the provider asks for it. */
  datatype WireCall = WireCall(id: string, name: string, arguments: Args)

  /** A message of an OpenAI request. */
  datatype WireMessage =
    | SystemMessage(content: Option<string>)
    | UserMessage(content: Option<string>)
      /** A stored assistant message; an empty list stands for the absent `tool_calls` key. */
    | AssistantMessage(content: Option<string>, toolCalls: seq<ToolCallRecord>)
      /** The assistant turn that asked for the tool calls of this round. */
    | AssistantCallsMessage(content: Option<string>, calls: seq<WireCall>)
    | ToolMessage(toolCallId: string, result: ToolResult)

  /** The wire form of one stored message; other roles have none. */
  function WireOf(m: Message): (w: Option<WireMessage>)
    ensures w.Some? <==> m.role in {"system", "user", "assistant"}
    ensures w.Some? ==> (w.value.SystemMessage? || w.value.UserMessage? || w.value.AssistantMessage?) && w.value.content == m.content
  {
    if m.role == "system" then Some(SystemMessage(m.content))
    else if m.role == "user" then Some(UserMessage(m.content))
    else if m.role == "assistant" then Some(AssistantMessage(m.content, m.toolCalls))
    else None
  }

  /** The converted history: each system, user and assistant message in order. */
  function Converted(history: seq<Message>): (messages: seq<WireMessage>)
    ensures |messages| <= |history|
    ensures forall w :: w in messages ==> !w.ToolMessage? && !w.AssistantCallsMessage?
  {
    if history == [] then []
    else Converted(history[..|history| - 1]) + WireSeq(history[|history| - 1])
  }

  /** The wire form of one message as a sequence of zero or one messages. */
  function WireSeq(m: Message): (ws: seq<WireMessage>)
    ensures forall w :: w in ws ==> !w.ToolMessage? && !w.AssistantCallsMessage?
  {
    match WireOf(m)
    case None => []
    case Some(w) => [w]
  }

  /** Conversion works message by message: converting a concatenation
      concatenates the conversions, so order is kept. */
  lemma {:induction false} ConvertedAppend(a: seq<Message>, b: seq<Message>)
    ensures Converted(a + b) == Converted(a) + Converted(b)
  {
    if b != [] {
      var ab := a + b;
      var init, last := b[..|b| - 1], b[|b| - 1];
      assert ab[..|ab| - 1] == a + init;
      assert ab[|ab| - 1] == last;
      ConvertedAppend(a, init);
      calc {
        Converted(ab);
        Converted(a + init) + WireSeq(last);
        Converted(a) + Converted(init) + WireSeq(last);
        Converted(a) + (Converted(init) + WireSeq(last));
        Converted(a) + Converted(b);
      }
    } else {
      assert a + b == a;
    }
  }

  /** A stored message of any other role (a `tool` message, say) does not reach the provider. */
  lemma OtherRolesDropped(history: seq<Message>, m: Message)
    requires m.role !in {"system", "user", "assistant"}
    ensures Converted(history + [m]) == Converted(history)
  {
    assert (history + [m])[..|history|] == history;
  }

  /** A history of system, user and assistant messages converts one for one. */
  lemma {:induction false} KnownRolesKept(history: seq<Message>)
    requires forall m :: m in history ==> m.role in {"system", "user", "assistant"}
    ensures |Converted(history)| == |history|
    ensures forall i :: 0 <= i < |history| ==> Some(Converted(history)[i]) == WireOf(history[i])
  {
    if history != [] {
      var init := history[..|history| - 1];
      assert forall m :: m in init ==> m in history;
      assert history[|history| - 1] in history;
      KnownRolesKept(init);
    }
  }

  function DefaultSystemPrompt(agentName: string): string {
    "You are " + agentName + ", a helpful AI assistant with access to various tools. "
      + "Use tools when necessary to help users with their requests."
  }

  /** The request messages: a default system message goes first exactly when the
      converted list is empty or does not start with a system message. */
  function WithDefaultSystem(agentName: string, converted: seq<WireMessage>): (messages: seq<WireMessage>)
    ensures messages != [] && messages[0].SystemMessage?
    ensures converted != [] && converted[0].SystemMessage? ==> messages == converted
    ensures !(converted != [] && converted[0].SystemMessage?) ==>
      messages == [SystemMessage(Some(DefaultSystemPrompt(agentName)))] + converted
  {
    if converted == [] || !converted[0].SystemMessage? then [SystemMessage(Some(DefaultSystemPrompt(agentName)))] + converted
    else converted
  }

  /** The wire calls a list of records is sent back as. */
  function CallsOf(records: seq<ToolCallRecord>): (calls: seq<WireCall>)
    ensures |calls| == |records|
  {
    seq(|records|, i requires 0 <= i < |records| => WireCall(records[i].id, records[i].name, records[i].arguments))
  }

  /** One `tool` message per executed call, in call order. */
  function ToolMessages(records: seq<ToolCallRecord>): (messages: seq<WireMessage>)
    ensures |messages| == |records|
    ensures forall i :: 0 <= i < |records| ==> messages[i] == ToolMessage(records[i].id, records[i].result)
  {
    seq(|records|, i requires 0 <= i < |records| => ToolMessage(records[i].id, records[i].result))
  }

  function RecordOf(registry: map<string, Tool>, call: WireCall): ToolCallRecord {
    ToolCallRecord(call.id, call.name, call.arguments, ExecuteTool(registry, call.name, call.arguments))
  }

  /** The records of a round: each provider call executed, in provider order. */
  function Resolve(registry: map<string, Tool>, calls: seq<WireCall>): (records: seq<ToolCallRecord>)
    ensures |records| == |calls|
  {
    seq(|calls|, i requires 0 <= i < |calls| => RecordOf(registry, calls[i]))
  }

  /** The calls sent back in the follow-up request are exactly the calls the
      provider asked for, and each `tool` message answers the call at its position. */
  lemma ResolveRoundTrip(registry: map<string, Tool>, calls: seq<WireCall>)
    ensures CallsOf(Resolve(registry, calls)) == calls
    ensures forall i :: 0 <= i < |calls| ==>
      ToolMessages(Resolve(registry, calls))[i] == ToolMessage(calls[i].id, ExecuteTool(registry, calls[i].name, calls[i].arguments))
  {
    var records := Resolve(registry, calls);
    assert forall i :: 0 <= i < |calls| ==> CallsOf(records)[i] == calls[i];
  }

  /** A request to the OpenAI chat completions endpoint; `tools` is absent in the follow-up. */
  datatype OpenAIRequest = OpenAIRequest(model: string, messages: seq<WireMessage>, tools: Option<seq<Schema>>)

  /** The first choice of a completion, or the fault the client raised. */
  datatype OpenAIReply =
    | Completion(content: Option<string>, calls: seq<WireCall>)
    | OpenAIFault(error: string)

  /** A message of an Anthropic request. */
  datatype AnthropicMessage = AnthropicMessage(role: string, content: Option<string>)

  datatype AnthropicRequest = AnthropicRequest(model: string, messages: seq<AnthropicMessage>)

  /** The text blocks of the reply, or the fault the client raised. */
  datatype AnthropicReply =
    | AnthropicText(blocks: seq<string>)
    | AnthropicFault(error: string)

  /** The fault indexing the first block of an empty reply raises. */
  const EmptyReplyError := "list index out of range"

  /** The user and assistant messages of a history, in order, as Anthropic messages. */
  function AnthropicConverted(history: seq<Message>): (messages: seq<AnthropicMessage>)
    ensures |messages| <= |history|
  {
    if history == [] then []
    else
      var init, last := history[..|history| - 1], history[|history| - 1];
      var prefix := AnthropicConverted(init);
      if last.role in {"user", "assistant"} then prefix + [AnthropicMessage(last.role, last.content)] else prefix
  }

  /** The Anthropic messages are exactly the user and assistant messages of the
      history, with their role and content; every other role is dropped. */
  lemma {:induction false} AnthropicConvertedMembers(history: seq<Message>)
    ensures forall m :: m in AnthropicConverted(history) <==>
      exists h :: h in history && h.role in {"user", "assistant"} && m == AnthropicMessage(h.role, h.content)
  {
    if history != [] {
      var init, last := history[..|history| - 1], history[|history| - 1];
      AnthropicConvertedMembers(init);
      assert history == init + [last];
    }
  }

  /** Conversion works message by message, so the Anthropic messages keep the
      order of the history. */
  lemma {:induction false} AnthropicConvertedAppend(front: seq<Message>, back: seq<Message>)
    ensures AnthropicConverted(front + back) == AnthropicConverted(front) + AnthropicConverted(back)
  {
    if back == [] {
      assert front + back == front;
    } else {
      var init, last := back[..|back| - 1], back[|back| - 1];
      var whole, tail := front + back, if last.role in {"user", "assistant"} then [AnthropicMessage(last.role, last.content)] else [];
      assert whole[..|whole| - 1] == front + init && whole[|whole| - 1] == last;
      AnthropicConvertedAppend(front, init);
      assert AnthropicConverted(back) == AnthropicConverted(init) + tail;
      assert AnthropicConverted(whole) == (AnthropicConverted(front) + AnthropicConverted(init)) + tail;
    }
  }

  /** A history of only user and assistant messages converts one for one. */
  lemma {:induction false} AnthropicOneForOne(history: seq<Message>)
    requires forall h :: h in history ==> h.role in {"user", "assistant"}
    ensures |AnthropicConverted(history)| == |history|
    ensures forall i :: 0 <= i < |history| ==>
      AnthropicConverted(history)[i] == AnthropicMessage(history[i].role, history[i].content)
  {
    if history != [] {
      var init, last := history[..|history| - 1], history[|history| - 1];
      assert history == init + [last];
      AnthropicOneForOne(init);
    }
  }

  /** What a provider exchange produces. */
  datatype Response = Response(content: Option<string>, toolCalls: seq<ToolCallRecord>, model: string)

  /** What `chat` returns. */
  datatype ChatReply = ChatReply(conversationId: ConversationId, response: string, toolCalls: seq<ToolCallRecord>, model: string)

  /** The fault the store raises for a message without content. */
  const MissingContentError := "NOT NULL constraint failed: messages.content"
  /** The fault the store raises for a conversation id that is already a key. */
  const DuplicateIdError := "UNIQUE constraint failed: conversations.id"

  /** The outcome of `_anthropic_chat` as a function of what the client answers:
      its fault, the fault of indexing an empty reply, or the first text block. */
  function AnthropicAnswer(history: seq<Message>, model: string, client: AnthropicRequest -> AnthropicReply): (r: Result<Response>)
    ensures r.Ok? ==> r.value.model == model && r.value.toolCalls == [] && r.value.content.Some?
    ensures client(AnthropicRequest(model, AnthropicConverted(history))).AnthropicFault? ==>
      r == Err(client(AnthropicRequest(model, AnthropicConverted(history))).error)
  {
    match client(AnthropicRequest(model, AnthropicConverted(history)))
    case AnthropicFault(e) => Err(e)
    case AnthropicText(blocks) => if blocks == [] then Err(EmptyReplyError) else Ok(Response(Some(blocks[0]), [], model))
  }

  /** What `chat` returns for the provider's outcome: its fault, the store's fault
      for an answer without content, or the answer itself. */
  function ReplyOf(id: ConversationId, answer: Result<Response>): (r: Result<ChatReply>)
    ensures answer.Err? ==> r == Err(answer.error)
    ensures r.Ok? <==> answer.Ok? && answer.value.content.Some?
    ensures answer.Ok? && answer.value.content.None? ==> r == Err(MissingContentError)
    ensures r.Ok? ==> r.value == ChatReply(id, answer.value.content.value, answer.value.toolCalls, answer.value.model)
  {
    match answer
    case Err(e) => Err(e)
    case Ok(response) =>
      if response.content.None? then Err(MissingContentError)
      else Ok(ChatReply(id, response.content.value, response.toolCalls, response.model))
  }

  /** The store after one turn of `chat` on `id`, whose history ends with the user
      message at `t`, given the provider's answer. The user row is stored and
      `updated_at` bumped to `t` in every case. On a provider fault the cached
      history ends with the user message and the clock stands at `t + 1`.
      Otherwise the assistant message (at `t + 1`) closes the cached history;
      its row is stored, and `updated_at` bumped to `t + 1`, only when it has
      content. */
  ghost predicate Recorded(id: ConversationId, message: string, t: nat, history: seq<Message>, answer: Result<Response>,
    before: seq<MessageRow>, after: seq<MessageRow>,
    cacheBefore: map<ConversationId, seq<Message>>, cacheAfter: map<ConversationId, seq<Message>>,
    rowsBefore: seq<ConversationRow>, rowsAfter: seq<ConversationRow>, clockAfter: nat)
  {
    var user := MessageRow(id, "user", message, [], t);
    && (answer.Err? ==>
          && after == before + [user]
          && cacheAfter == cacheBefore[id := history]
          && rowsAfter == Touch(rowsBefore, id, t)
          && clockAfter == t + 1)
    && (answer.Ok? ==>
          && cacheAfter == cacheBefore[id := history + [Message("assistant", answer.value.content, answer.value.toolCalls, t + 1)]]
          && clockAfter == t + 2)
    && (answer.Ok? && answer.value.content.None? ==>
          && after == before + [user]
          && rowsAfter == Touch(rowsBefore, id, t))
    && (answer.Ok? && answer.value.content.Some? ==>
          && after == before + [user, MessageRow(id, "assistant", answer.value.content.value, answer.value.toolCalls, t + 1)]
          && rowsAfter == Touch(Touch(rowsBefore, id, t), id, t + 1))
  }

  /** The names of a sequence are pairwise different. */
  predicate DistinctNames(names: seq<string>) {
    forall i, j :: 0 <= i < j < |names| ==> names[i] != names[j]
  }

  /** The sequence without `name`, in order. */
  function Without(names: seq<string>, name: string): (rest: seq<string>)
    ensures forall n :: n in rest <==> n in names && n != name
    ensures DistinctNames(names) ==> DistinctNames(rest)
  {
    if names == [] then []
    else
      var init, last := names[..|names| - 1], names[|names| - 1];
      var prefix := Without(init, name);
      assert forall n :: n in names <==> n in init || n == last;
      assert DistinctNames(names) ==> last !in init;
      if last == name then prefix else prefix + [last]
  }

  /** As many distinct names as positions. */
  lemma {:induction false} DistinctSize(names: seq<string>)
    requires DistinctNames(names)
    ensures |set n | n in names| == |names|
  {
    if names != [] {
      var init, last := names[..|names| - 1], names[|names| - 1];
      DistinctSize(init);
      assert (set n | n in names) == (set n | n in init) + {last};
      assert last !in (set n | n in init);
    }
  }

  /** The follow-up messages of `_openai_chat`: the assistant turn that asked for
      the calls, then one `tool` message per executed call. */
  method AppendToolRound(messages: seq<WireMessage>, content: Option<string>, records: seq<ToolCallRecord>)
    returns (out: seq<WireMessage>)
    ensures out == messages + [AssistantCallsMessage(content, CallsOf(records))] + ToolMessages(records)
  {
    out := messages + [AssistantCallsMessage(content, CallsOf(records))];
    ghost var sent := out;
    var k := 0;
    while k < |records|
      invariant 0 <= k <= |records|
      invariant out == sent + ToolMessages(records)[..k]
    {
      assert ToolMessages(records)[..k + 1] == ToolMessages(records)[..k] + [ToolMessage(records[k].id, records[k].result)];
      out := out + [ToolMessage(records[k].id, records[k].result)];
      k := k + 1;
    }
    assert ToolMessages(records)[..k] == ToolMessages(records);
  }

  /** The schemas of the named tools, in the order of the names. */
  function SchemasOf(registry: map<string, Tool>, names: seq<string>): (schemas: seq<Schema>)
    requires forall n :: n in names ==> n in registry
    ensures |schemas| == |names|
  {
    seq(|names|, i requires 0 <= i < |names| => GetSchema(registry[names[i]]))
  }

  /** A map whose keys are listed once by `names` has one entry per name. */
  lemma {:induction false} RegistrySize(registry: map<string, Tool>, names: seq<string>)
    requires DistinctNames(names)
    requires forall n :: n in registry <==> n in names
    ensures |registry| == |names|
  {
    DistinctSize(names);
    assert registry.Keys == set n | n in names;
  }

  /** With each tool filed under its own name, the schemas carry the names in order. */
  lemma SchemaNamesInOrder(registry: map<string, Tool>, names: seq<string>)
    requires forall n :: n in names ==> n in registry
    requires forall n :: n in registry ==> registry[n].name == n
    ensures forall i :: 0 <= i < |names| ==> SchemasOf(registry, names)[i].name == names[i]
  {
    var schemas := SchemasOf(registry, names);
    forall i | 0 <= i < |names| ensures schemas[i].name == names[i] {
      assert schemas[i] == GetSchema(registry[names[i]]);
    }
  }

  /** With each tool filed under its own name and no name listed twice, no two
      schemas share a name. */
  lemma SchemaNamesDistinct(registry: map<string, Tool>, names: seq<string>)
    requires DistinctNames(names)
    requires forall n :: n in names ==> n in registry
    requires forall n :: n in registry ==> registry[n].name == n
    ensures var schemas := SchemasOf(registry, names);
      forall i, j :: 0 <= i < j < |schemas| ==> schemas[i].name != schemas[j].name
  {
    SchemaNamesInOrder(registry, names);
  }

  /** Over a registry listed once by `names`, with each tool filed under its own
      name, the schemas are those of the listed tools in order and name every
      registered tool. */
  lemma SchemasCoverRegistry(registry: map<string, Tool>, names: seq<string>)
    requires DistinctNames(names)
    requires forall n :: n in registry <==> n in names
    requires forall n :: n in registry ==> registry[n].name == n
    ensures var schemas := SchemasOf(registry, names);
      && |schemas| == |registry|
      && |schemas| == |names|
      && (forall i :: 0 <= i < |names| ==> names[i] in registry && schemas[i] == GetSchema(registry[names[i]]))
      && (forall n :: n in registry <==> exists i :: 0 <= i < |schemas| && schemas[i].name == n)
  {
    RegistrySize(registry, names);
    SchemaNamesInOrder(registry, names);
    SchemasNameEveryTool(registry, names);
  }

  /** Every tool listed by `names`, filed under its own name, has a schema. */
  lemma SchemasNameEveryTool(registry: map<string, Tool>, names: seq<string>)
    requires forall n :: n in registry <==> n in names
    requires forall n :: n in registry ==> registry[n].name == n
    ensures var schemas := SchemasOf(registry, names);
      forall n :: n in registry ==> exists i :: 0 <= i < |schemas| && schemas[i].name == n
  {
    var schemas := SchemasOf(registry, names);
    SchemaNamesInOrder(registry, names);
    forall n | n in registry ensures exists i :: 0 <= i < |schemas| && schemas[i].name == n {
      var i :| 0 <= i < |names| && names[i] == n;
      assert schemas[i].name == n;
    }
  }

  // ---------------------------------------------------------------- the agent

  /** `AIAgent`. The tool dictionary is the map `tools` together with `order`,
      the order in which its keys were first inserted. */
  class Agent {
    const agentName: string
    const defaultModel: string
    const openAIClient: Option<OpenAIRequest -> OpenAIReply>
    const anthropicClient: Option<AnthropicRequest -> AnthropicReply>
    const store: ConversationStore
    var tools: map<string, Tool>
    var order: seq<string>

    /** Every registered name appears once in insertion order, and each tool is
        filed under its own name. */
    ghost predicate Valid()
      reads this
    {
      && DistinctNames(order)
      && (forall n :: n in tools <==> n in order)
      && (forall n :: n in tools ==> tools[n].name == n)
    }

    /** `AIAgent(agent_name)` with the given clients and store and no tools yet. */
    constructor (
      agentName: Option<string>,
      configuredName: string,
      defaultModel: string,
      openAIClient: Option<OpenAIRequest -> OpenAIReply>,
      anthropicClient: Option<AnthropicRequest -> AnthropicReply>,
      store: ConversationStore)
      ensures Valid()
      ensures this.agentName == if agentName.Some? && agentName.value != "" then agentName.value else configuredName
      ensures this.defaultModel == defaultModel && this.store == store
      ensures this.openAIClient == openAIClient && this.anthropicClient == anthropicClient
      ensures tools == map[] && order == []
    {
      this.agentName := if agentName.Some? && agentName.value != "" then agentName.value else configuredName;
      this.defaultModel := defaultModel;
      this.openAIClient := openAIClient;
      this.anthropicClient := anthropicClient;
      this.store := store;
      tools := map[];
      order := [];
    }

    /** `register_tool`: file the tool under its name, replacing an earlier tool
        of that name in place. */
    method RegisterTool(t: Tool)
      requires Valid()
      modifies this
      ensures Valid()
      ensures tools == old(tools)[t.name := t]
      ensures order == if t.name in old(tools) then old(order) else old(order) + [t.name]
    {
      if t.name !in tools {
        order := order + [t.name];
      }
      tools := tools[t.name := t];
    }

    /** `unregister_tool`: remove the name if present; otherwise nothing changes. */
    method UnregisterTool(name: string)
      requires Valid()
      modifies this
      ensures Valid()
      ensures tools == old(tools) - {name}
      ensures name !in old(tools) ==> order == old(order)
      ensures order == Without(old(order), name)
    {
      if name in tools {
        tools := tools - {name};
      } else {
        assert forall n :: n in order ==> n != name;
        WithoutAbsent(order, name);
      }
      order := Without(order, name);
    }

    /** `get_available_tools`: one schema per registered tool, in insertion order. */
    function AvailableTools(): (schemas: seq<Schema>)
      reads this
      requires Valid()
      ensures |schemas| == |order|
    {
      SchemasOf(tools, order)
    }

    /** One schema per registered tool, in insertion order, naming each
        registered tool exactly once. */
    lemma AvailableToolsCoverRegistry()
      requires Valid()
      ensures var schemas := AvailableTools();
        && |schemas| == |tools|
        && (forall i :: 0 <= i < |order| ==> order[i] in tools && schemas[i] == GetSchema(tools[order[i]]))
        && (forall n :: n in tools <==> exists i :: 0 <= i < |schemas| && schemas[i].name == n)
        && (forall i, j :: 0 <= i < j < |schemas| ==> schemas[i].name != schemas[j].name)
    {
      SchemasCoverRegistry(tools, order);
      SchemaNamesDistinct(tools, order);
    }

    /** The first half of `_openai_chat`: convert the history message by message,
        then put the default system message first when none leads. */
    method ConvertHistory(history: seq<Message>) returns (messages: seq<WireMessage>)
      ensures messages == WithDefaultSystem(agentName, Converted(history))
    {
      messages := [];
      var i := 0;
      while i < |history|
        invariant 0 <= i <= |history|
        invariant messages == Converted(history[..i])
      {
        assert history[..i + 1][..i] == history[..i];
        match WireOf(history[i]) {
          case Some(w) => messages := messages + [w];
          case None =>
        }
        i := i + 1;
      }
      assert history[..i] == history;
      if messages == [] || !messages[0].SystemMessage? {
        messages := [SystemMessage(Some(DefaultSystemPrompt(agentName)))] + messages;
      }
    }

    /** The tool loop of `_openai_chat`: execute each call in provider order. */
    method RunToolCalls(calls: seq<WireCall>) returns (records: seq<ToolCallRecord>)
      ensures records == Resolve(tools, calls)
    {
      records := [];
      var k := 0;
      while k < |calls|
        invariant 0 <= k <= |calls|
        invariant |records| == k
        invariant forall j :: 0 <= j < k ==> records[j] == RecordOf(tools, calls[j])
      {
        var call := calls[k];
        records := records + [ToolCallRecord(call.id, call.name, call.arguments, ExecuteTool(tools, call.name, call.arguments))];
        k := k + 1;
      }
    }

    /** The first request of `_openai_chat`: the converted history, with the tool schemas. */
    function FirstRequest(history: seq<Message>, model: string): (request: OpenAIRequest)
      reads this
      requires Valid()
      ensures request.model == model && request.tools == Some(AvailableTools())
      ensures request.messages != [] && request.messages[0].SystemMessage?
      ensures |request.messages| <= |history| + 1
    {
      OpenAIRequest(model, WithDefaultSystem(agentName, Converted(history)), Some(AvailableTools()))
    }

    /** The outcome of `_openai_chat` as a function of what the client answers: the
        first reply's fault, its text ("" for none) when it asks for no tool, or
        else the follow-up's fault or content together with the executed calls. */
    function OpenAIAnswer(history: seq<Message>, model: string, client: OpenAIRequest -> OpenAIReply): (r: Result<Response>)
      reads this
      requires Valid()
      ensures r.Ok? ==> r.value.model == model
      ensures client(FirstRequest(history, model)).OpenAIFault? ==> r == Err(client(FirstRequest(history, model)).error)
      ensures r.Ok? && r.value.toolCalls == [] ==> r.value.content.Some?
    {
      var first := FirstRequest(history, model);
      match client(first)
      case OpenAIFault(e) => Err(e)
      case Completion(content, calls) =>
        if calls == [] then Ok(Response(Some(content.GetOr("")), [], model))
        else
          var records := Resolve(tools, calls);
          var followUp := OpenAIRequest(model, first.messages + [AssistantCallsMessage(content, calls)] + ToolMessages(records), None);
          match client(followUp)
          case OpenAIFault(e) => Err(e)
          case Completion(final, _) => Ok(Response(final, records, model))
    }

    /** `_openai_chat`: send the converted history with the tool schemas; when the
        reply asks for tools, run them in order, send exactly one follow-up
        request carrying the calls and their results, and take its content as
        final whatever it asks for. Returns the requests sent, in order. */
    method OpenAIChat(history: seq<Message>, model: string, client: OpenAIRequest -> OpenAIReply)
      returns (r: Result<Response>, requests: seq<OpenAIRequest>)
      requires Valid()
      ensures 1 <= |requests| <= 2
      ensures requests[0] == OpenAIRequest(model, WithDefaultSystem(agentName, Converted(history)), Some(AvailableTools()))
      ensures client(requests[0]).OpenAIFault? ==> |requests| == 1 && r == Err(client(requests[0]).error)
      ensures client(requests[0]).Completion? && client(requests[0]).calls == [] ==>
        |requests| == 1 && r == Ok(Response(Some(client(requests[0]).content.GetOr("")), [], model))
      ensures client(requests[0]).Completion? && client(requests[0]).calls != [] ==>
        var first := client(requests[0]);
        var records := Resolve(tools, first.calls);
        && |requests| == 2
        && requests[1] == OpenAIRequest(model,
             requests[0].messages + [AssistantCallsMessage(first.content, first.calls)] + ToolMessages(records), None)
        && r == match client(requests[1])
                case OpenAIFault(e) => Err(e)
                case Completion(content, _) => Ok(Response(content, records, model))
      ensures r.Ok? ==> r.value.model == model
      ensures r == OpenAIAnswer(history, model, client)
    {
      var messages := ConvertHistory(history);
      var request := OpenAIRequest(model, messages, Some(AvailableTools()));
      requests := [request];
      var reply := client(request);
      if reply.OpenAIFault? {
        return Err(reply.error), requests;
      }
      if reply.calls == [] {
        return Ok(Response(Some(reply.content.GetOr("")), [], model)), requests;
      }
      var records := RunToolCalls(reply.calls);
      ResolveRoundTrip(tools, reply.calls);
      messages := AppendToolRound(messages, reply.content, records);
      var followUp := OpenAIRequest(model, messages, None);
      requests := requests + [followUp];
      var last := client(followUp);
      match last {
        case OpenAIFault(e) => r := Err(e);
        case Completion(content, _) => r := Ok(Response(content, records, model));
      }
    }

    /** `_anthropic_chat`: send the user and assistant messages and take the first
        text block of the reply. */
    method AnthropicChat(history: seq<Message>, model: string, client: AnthropicRequest -> AnthropicReply)
      returns (r: Result<Response>, request: AnthropicRequest)
      ensures request == AnthropicRequest(model, AnthropicConverted(history))
      ensures client(request).AnthropicFault? ==> r == Err(client(request).error)
      ensures client(request).AnthropicText? && client(request).blocks == [] ==> r == Err(EmptyReplyError)
      ensures client(request).AnthropicText? && client(request).blocks != [] ==>
        r == Ok(Response(Some(client(request).blocks[0]), [], model))
      ensures r == AnthropicAnswer(history, model, client)
    {
      var messages := [];
      var i := 0;
      while i < |history|
        invariant 0 <= i <= |history|
        invariant messages == AnthropicConverted(history[..i])
      {
        assert history[..i + 1][..i] == history[..i];
        if history[i].role in {"user", "assistant"} {
          messages := messages + [AnthropicMessage(history[i].role, history[i].content)];
        }
        i := i + 1;
      }
      assert history[..i] == history;
      request := AnthropicRequest(model, messages);
      match client(request) {
        case AnthropicFault(e) => r := Err(e);
        case AnthropicText(blocks) =>
          if blocks == [] {
            r := Err(EmptyReplyError);
          } else {
            r := Ok(Response(Some(blocks[0]), [], model));
          }
      }
    }

    /** The route `_generate_response` takes for a requested model. */
    function RouteFor(model: Option<string>): Option<Route> {
      SelectProvider(model, defaultModel, openAIClient.Some?, anthropicClient.Some?)
    }

    /** The outcome of `_generate_response`: the no-provider fault, or the outcome
        of the exchange with the routed provider and model. */
    function ProviderAnswer(history: seq<Message>, model: Option<string>): Result<Response>
      reads this
      requires Valid()
    {
      match RouteFor(model)
      case None => Err(NoProviderError)
      case Some(route) =>
        if route.provider == OpenAI then OpenAIAnswer(history, route.model, openAIClient.value)
        else AnthropicAnswer(history, route.model, anthropicClient.value)
    }

    /** The answer comes from the routed provider's client, with the routed model;
        without a route it is the no-provider fault. */
    lemma ProviderAnswerRouted(history: seq<Message>, model: Option<string>)
      requires Valid()
      ensures RouteFor(model).None? ==> ProviderAnswer(history, model) == Err(NoProviderError)
      ensures RouteFor(model).Some? && RouteFor(model).value.provider == OpenAI ==>
        openAIClient.Some? && ProviderAnswer(history, model) == OpenAIAnswer(history, RouteFor(model).value.model, openAIClient.value)
      ensures RouteFor(model).Some? && RouteFor(model).value.provider == Anthropic ==>
        anthropicClient.Some? && ProviderAnswer(history, model) == AnthropicAnswer(history, RouteFor(model).value.model, anthropicClient.value)
      ensures ProviderAnswer(history, model).Ok? ==>
        RouteFor(model).Some? && ProviderAnswer(history, model).value.model == RouteFor(model).value.model
      ensures ProviderAnswer(history, model).Ok? && RouteFor(model).value.provider == Anthropic ==>
        ProviderAnswer(history, model).value.toolCalls == []
    {
    }

    /** `_generate_response`: the exchange with the selected provider, or the
        no-provider fault. */
    method GenerateResponse(history: seq<Message>, model: Option<string>) returns (r: Result<Response>)
      requires Valid()
      ensures r == ProviderAnswer(history, model)
    {
      var route := RouteFor(model);
      if route.None? {
        return Err(NoProviderError);
      }
      if route.value.provider == OpenAI {
        var requests;
        r, requests := OpenAIChat(history, route.value.model, openAIClient.value);
      } else {
        var request;
        r, request := AnthropicChat(history, route.value.model, anthropicClient.value);
      }
    }

    /** `chat`: create a conversation when no id is given, store the user message,
        answer from the history and store exactly one assistant message (with the
        executed tool calls). A fault from the provider or the store ends the call
        with the user message already stored. */
    method Chat(message: string, conversationId: ConversationId, model: Option<string>, freshId: ConversationId, nowLabel: string)
      returns (r: Result<ChatReply>)
      requires Valid() && store.Valid()
      modifies store
      ensures store.Valid()
      ensures var id := if conversationId == "" then freshId else conversationId;
        r.Ok? ==> r.value.conversationId == id
      ensures RouteFor(model).None? && !(conversationId == "" && freshId in ConversationIds(old(store.conversations))) ==>
        r == Err(NoProviderError)
      ensures conversationId == "" && freshId in ConversationIds(old(store.conversations)) ==>
        && r == Err(DuplicateIdError)
        && store.messages == old(store.messages)
        && store.cache == old(store.cache)[freshId := []]
        && store.conversations == old(store.conversations)
        && store.clock == old(store.clock) + 1
      ensures conversationId == "" && freshId !in ConversationIds(old(store.conversations)) ==>
        ConversationIds(store.conversations) == ConversationIds(old(store.conversations)) + {freshId}
      ensures conversationId == "" && freshId !in ConversationIds(old(store.conversations)) ==>
        var t := old(store.clock) + 1;
        var history := [Message("user", Some(message), [], t)];
        var created := ConversationRow(freshId, old(store.clock), old(store.clock), ChosenTitle(None, nowLabel));
        && r == ReplyOf(freshId, ProviderAnswer(history, model))
        && Recorded(freshId, message, t, history, ProviderAnswer(history, model),
             old(store.messages), store.messages, old(store.cache)[freshId := []], store.cache,
             old(store.conversations) + [created], store.conversations, store.clock)
      ensures conversationId != "" ==> ConversationIds(store.conversations) == ConversationIds(old(store.conversations))
      ensures conversationId != "" ==>
        var t := old(store.clock);
        var history := (if conversationId in old(store.cache) then old(store.cache)[conversationId] else [])
          + [Message("user", Some(message), [], t)];
        && r == ReplyOf(conversationId, ProviderAnswer(history, model))
        && Recorded(conversationId, message, t, history, ProviderAnswer(history, model),
             old(store.messages), store.messages, old(store.cache), store.cache,
             old(store.conversations), store.conversations, store.clock)
    {
      if conversationId == "" {
        r := StartConversation(message, model, freshId, nowLabel);
      } else {
        r := Exchange(conversationId, message, model, store.clock,
          (if conversationId in store.cache then store.cache[conversationId] else []) + [Message("user", Some(message), [], store.clock)]);
      }
    }

    /** `chat` without a conversation id: create the conversation under the fresh
        id (refused when the id is taken), then exchange on it. */
    method StartConversation(message: string, model: Option<string>, freshId: ConversationId, nowLabel: string)
      returns (r: Result<ChatReply>)
      requires Valid() && store.Valid()
      modifies store
      ensures store.Valid()
      ensures freshId in ConversationIds(old(store.conversations)) ==>
        && r == Err(DuplicateIdError)
        && store.messages == old(store.messages)
        && store.cache == old(store.cache)[freshId := []]
        && store.conversations == old(store.conversations)
        && store.clock == old(store.clock) + 1
      ensures freshId !in ConversationIds(old(store.conversations)) ==>
        ConversationIds(store.conversations) == ConversationIds(old(store.conversations)) + {freshId}
      ensures freshId !in ConversationIds(old(store.conversations)) ==>
        var t := old(store.clock) + 1;
        var history := [Message("user", Some(message), [], t)];
        var created := ConversationRow(freshId, old(store.clock), old(store.clock), ChosenTitle(None, nowLabel));
        && r == ReplyOf(freshId, ProviderAnswer(history, model))
        && Recorded(freshId, message, t, history, ProviderAnswer(history, model),
             old(store.messages), store.messages, old(store.cache)[freshId := []], store.cache,
             old(store.conversations) + [created], store.conversations, store.clock)
    {
      ghost var before := store.conversations;
      var created := store.CreateConversation(freshId, None, nowLabel);
      if !created {
        return Err(DuplicateIdError);
      }
      ConversationIdsAppend(before, store.conversations[|store.conversations| - 1]);
      r := Exchange(freshId, message, model, old(store.clock) + 1, [Message("user", Some(message), [], old(store.clock) + 1)]);
    }

    /** The first store step of `chat`: add the user message and read the history
        back, which is the cached list (seeded empty when not cached) with the
        user message appended. */
    method RecordUser(id: ConversationId, message: string) returns (history: seq<Message>)
      requires store.Valid()
      modifies store
      ensures store.Valid()
      ensures history == (if id in old(store.cache) then old(store.cache)[id] else []) + [Message("user", Some(message), [], old(store.clock))]
      ensures store.cache == old(store.cache)[id := history]
      ensures store.messages == old(store.messages) + [MessageRow(id, "user", message, [], old(store.clock))]
      ensures store.conversations == Touch(old(store.conversations), id, old(store.clock))
      ensures ConversationIds(store.conversations) == ConversationIds(old(store.conversations))
      ensures store.clock == old(store.clock) + 1
    {
      var userStored := store.AddMessage(id, "user", Some(message), []);
      history := store.GetConversation(id);
    }

    /** The last store step of `chat`: add the assistant message of a provider
        answer, and turn the answer into the reply. A provider fault leaves the
        store as it was. */
    method RecordAnswer(id: ConversationId, answer: Result<Response>) returns (r: Result<ChatReply>)
      requires store.Valid() && id in store.cache
      modifies store
      ensures store.Valid()
      ensures r == ReplyOf(id, answer)
      ensures r.Err? ==> store.messages == old(store.messages) && store.conversations == old(store.conversations)
      ensures r.Ok? ==> store.messages == old(store.messages) + [MessageRow(id, "assistant", r.value.response, r.value.toolCalls, old(store.clock))]
      ensures r.Ok? ==> store.conversations == Touch(old(store.conversations), id, old(store.clock))
      ensures answer.Err? ==> store.cache == old(store.cache) && store.clock == old(store.clock)
      ensures answer.Ok? ==> store.cache == old(store.cache)[id := old(store.cache)[id] + [Message("assistant", answer.value.content, answer.value.toolCalls, old(store.clock))]]
      ensures answer.Ok? ==> store.clock == old(store.clock) + 1
      ensures ConversationIds(store.conversations) == ConversationIds(old(store.conversations))
    {
      if answer.Err? {
        return Err(answer.error);
      }
      var stored := store.AddMessage(id, "assistant", answer.value.content, answer.value.toolCalls);
      if !stored {
        return Err(MissingContentError);
      }
      r := Ok(ChatReply(id, answer.value.content.value, answer.value.toolCalls, answer.value.model));
    }

    /** The part of `chat` after the conversation id is settled: store the user
        message, answer from the history, store the assistant message. */
    method Exchange(id: ConversationId, message: string, model: Option<string>, ghost t: nat, ghost history: seq<Message>)
      returns (r: Result<ChatReply>)
      requires Valid() && store.Valid()
      requires t == store.clock
      requires history == (if id in store.cache then store.cache[id] else []) + [Message("user", Some(message), [], t)]
      modifies store
      ensures store.Valid()
      ensures ConversationIds(store.conversations) == ConversationIds(old(store.conversations))
      ensures r == ReplyOf(id, ProviderAnswer(history, model))
      ensures Recorded(id, message, t, history, ProviderAnswer(history, model),
        old(store.messages), store.messages, old(store.cache), store.cache,
        old(store.conversations), store.conversations, store.clock)
    {
      ghost var rows0, cache0, conversations0 := store.messages, store.cache, store.conversations;
      var conversation := RecordUser(id, message);
      ghost var rows1, cache1, conversations1 := store.messages, store.cache, store.conversations;
      r := AnswerTurn(id, conversation, model, t);
      TurnRecorded(id, message, t, history, ProviderAnswer(history, model), r,
        rows0, rows1, store.messages, cache0, cache1, store.cache, conversations0, conversations1, store.conversations, store.clock);
    }

    /** The part of `chat` after the user message is stored: answer from the
        history, store the assistant message. */
    method AnswerTurn(id: ConversationId, history: seq<Message>, model: Option<string>, ghost t: nat)
      returns (r: Result<ChatReply>)
      requires Valid() && store.Valid()
      requires id in store.cache && store.cache[id] == history && store.clock == t + 1
      modifies store
      ensures store.Valid()
      ensures ConversationIds(store.conversations) == ConversationIds(old(store.conversations))
      ensures r == ReplyOf(id, ProviderAnswer(history, model))
      ensures r.Err? ==> store.messages == old(store.messages) && store.conversations == old(store.conversations)
      ensures r.Ok? ==>
        store.messages == old(store.messages) + [MessageRow(id, "assistant", r.value.response, r.value.toolCalls, t + 1)]
      ensures r.Ok? ==> store.conversations == Touch(old(store.conversations), id, t + 1)
      ensures ProviderAnswer(history, model).Err? ==> store.cache == old(store.cache) && store.clock == t + 1
      ensures ProviderAnswer(history, model).Ok? ==>
        && store.cache == old(store.cache)[id := history + [Message("assistant", ProviderAnswer(history, model).value.content,
             ProviderAnswer(history, model).value.toolCalls, t + 1)]]
        && store.clock == t + 2
    {
      var answer := GenerateResponse(history, model);
      r := RecordAnswer(id, answer);
    }
  }

  /** The two store steps of a turn (the user message, then the answer) make up
      `Recorded`. */
  lemma TurnRecorded(id: ConversationId, message: string, t: nat, history: seq<Message>, answer: Result<Response>,
    r: Result<ChatReply>, rows0: seq<MessageRow>, rows1: seq<MessageRow>, rows2: seq<MessageRow>,
    cache0: map<ConversationId, seq<Message>>, cache1: map<ConversationId, seq<Message>>, cache2: map<ConversationId, seq<Message>>,
    conversations0: seq<ConversationRow>, conversations1: seq<ConversationRow>, conversations2: seq<ConversationRow>, clock2: nat)
    requires r == ReplyOf(id, answer)
    requires rows1 == rows0 + [MessageRow(id, "user", message, [], t)]
    requires cache1 == cache0[id := history]
    requires conversations1 == Touch(conversations0, id, t)
    requires r.Err? ==> rows2 == rows1 && conversations2 == conversations1
    requires r.Ok? ==> rows2 == rows1 + [MessageRow(id, "assistant", r.value.response, r.value.toolCalls, t + 1)]
    requires r.Ok? ==> conversations2 == Touch(conversations1, id, t + 1)
    requires answer.Err? ==> cache2 == cache1 && clock2 == t + 1
    requires answer.Ok? ==>
      cache2 == cache1[id := history + [Message("assistant", answer.value.content, answer.value.toolCalls, t + 1)]] && clock2 == t + 2
    ensures Recorded(id, message, t, history, answer, rows0, rows2, cache0, cache2, conversations0, conversations2, clock2)
  {
    if answer.Ok? {
      var last := history + [Message("assistant", answer.value.content, answer.value.toolCalls, t + 1)];
      assert cache0[id := history][id := last] == cache0[id := last];
      if answer.value.content.Some? {
        assert rows2 == rows0 + [MessageRow(id, "user", message, [], t), MessageRow(id, "assistant", answer.value.content.value, answer.value.toolCalls, t + 1)];
      }
    }
  }

  /** Removing an absent name changes nothing. */
  lemma {:induction false} WithoutAbsent(names: seq<string>, name: string)
    requires name !in names
    ensures Without(names, name) == names
  {
    if names != [] {
      var init, last := names[..|names| - 1], names[|names| - 1];
      assert forall n :: n in init ==> n in names;
      WithoutAbsent(init, name);
      assert names == init + [last];
    }
  }
}
