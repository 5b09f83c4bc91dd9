/**
 * The Bedrock provider's message shaping: the request body sent for a chat (system
 * messages lifted out, tool replies turned into `tool_result` blocks, tools listed only
 * when there are some) and the reading of the model's reply (text blocks concatenated,
 * `tool_use` blocks collected, usage counts defaulted). The AWS client is outside the
 * model; JSON serialisation of a tool call's input is a parameter.
 */
module Bedrock {
  import opened Wrappers
  import opened Json
  import opened ToolTypes
  import JsonRpc
  import Seqs

  const ProviderName := "bedrock"
  const AnthropicVersion := "bedrock-2023-05-31"
  const MaxTokens: nat := 4096

  /** The provider instance: its model id and region. */
  datatype BedrockProvider = BedrockProvider(model: string, region: string)

  // ---------------------------------------------------------------------------------
  // The request body.
  // ---------------------------------------------------------------------------------

  datatype Role = System | User | Assistant | Tool

  /** `ChatMessage`, without the `tool_calls` it may carry (the body never reads them). */
  datatype ChatMessage = ChatMessage(role: Role, content: string, toolCallId: Option<string>)

  /** A wire message's content: the plain text, or a single `tool_result` block. */
  datatype Content = Text(text: string) | ToolResult(toolUseId: string, result: string)

  datatype WireMessage = WireMessage(role: string, content: Content)

  /** The request body; an absent `system` or `tools` field is `None`. */
  datatype RequestBody = RequestBody(anthropicVersion: string, maxTokens: nat, messages: seq<WireMessage>,
                                     system: Option<string>, tools: Option<seq<ToolDefinition>>)

  /** `m.role === 'system'`. */
  predicate IsSystem(m: ChatMessage)
  {
    m.role == System
  }

  /** A `tool_call_id` counts only when it is a non-empty string. */
  predicate HasToolCallId(m: ChatMessage)
  {
    m.toolCallId.Some? && m.toolCallId.value != ""
  }

  /** `messages.filter(m => m.role === 'system')`. */
  function SystemMessages(messages: seq<ChatMessage>): seq<ChatMessage>
  {
    if messages == [] then []
    else (if IsSystem(messages[0]) then [messages[0]] else []) + SystemMessages(messages[1..])
  }

  /** `messages.filter(m => m.role !== 'system')`. */
  function OtherMessages(messages: seq<ChatMessage>): seq<ChatMessage>
  {
    if messages == [] then []
    else (if IsSystem(messages[0]) then [] else [messages[0]]) + OtherMessages(messages[1..])
  }

  function Contents(messages: seq<ChatMessage>): (r: seq<string>)
    ensures |r| == |messages| && forall i :: 0 <= i < |r| ==> r[i] == messages[i].content
  {
    seq(|messages|, i requires 0 <= i < |messages| => messages[i].content)
  }

  /** One non-system message on the wire. */
  function Wire(m: ChatMessage): (r: WireMessage)
    ensures r.role == (if m.role == Assistant then "assistant" else if m.role == System then "system" else "user")
    ensures r.content.ToolResult? <==> HasToolCallId(m)
    ensures r.content == if HasToolCallId(m) then ToolResult(m.toolCallId.value, m.content) else Text(m.content)
  {
    var role := match m.role
      case System => "system"
      case User => "user"
      case Assistant => "assistant"
      case Tool => "user";
    WireMessage(role, if HasToolCallId(m) then ToolResult(m.toolCallId.value, m.content) else Text(m.content))
  }

  /** `buildRequestBody`. */
  function BuildRequestBody(messages: seq<ChatMessage>, tools: Option<seq<ToolDefinition>>): (r: RequestBody)
    ensures r.anthropicVersion == AnthropicVersion && r.maxTokens == MaxTokens
    ensures |r.messages| == |OtherMessages(messages)|
    ensures forall i :: 0 <= i < |r.messages| ==> r.messages[i] == Wire(OtherMessages(messages)[i])
    ensures r.system.Some? <==> SystemMessages(messages) != []
    ensures r.tools.Some? <==> tools.Some? && tools.value != []
    ensures r.tools.Some? ==> r.tools == tools
  {
    var system := SystemMessages(messages);
    var others := OtherMessages(messages);
    RequestBody(AnthropicVersion, MaxTokens,
                seq(|others|, i requires 0 <= i < |others| => Wire(others[i])),
                if system != [] then Some(JsonRpc.Join(Contents(system))) else None,
                if tools.Some? && tools.value != [] then tools else None)
  }

  /** Both filters distribute over concatenation, so each keeps its messages' relative order. */
  lemma {:induction false} FiltersAppend(a: seq<ChatMessage>, b: seq<ChatMessage>)
    ensures SystemMessages(a + b) == SystemMessages(a) + SystemMessages(b)
    ensures OtherMessages(a + b) == OtherMessages(a) + OtherMessages(b)
  {
    SystemAppend(a, b);
    OtherAppend(a, b);
  }

  lemma {:induction false} SystemAppend(a: seq<ChatMessage>, b: seq<ChatMessage>)
    ensures SystemMessages(a + b) == SystemMessages(a) + SystemMessages(b)
  {
    if a == [] {
      assert a + b == b;
    } else {
      var head := if IsSystem(a[0]) then [a[0]] else [];
      assert (a + b)[0] == a[0] && (a + b)[1..] == a[1..] + b;
      assert SystemMessages(a + b) == head + SystemMessages(a[1..] + b);
      SystemAppend(a[1..], b);
      assert SystemMessages(a) == head + SystemMessages(a[1..]);
    }
  }

  lemma {:induction false} OtherAppend(a: seq<ChatMessage>, b: seq<ChatMessage>)
    ensures OtherMessages(a + b) == OtherMessages(a) + OtherMessages(b)
  {
    if a == [] {
      assert a + b == b;
    } else {
      var head := if IsSystem(a[0]) then [] else [a[0]];
      assert (a + b)[0] == a[0] && (a + b)[1..] == a[1..] + b;
      assert OtherMessages(a + b) == head + OtherMessages(a[1..] + b);
      OtherAppend(a[1..], b);
      assert OtherMessages(a) == head + OtherMessages(a[1..]);
    }
  }

  /** The two filters split the messages: each message lands in exactly one of them. */
  lemma {:induction false} FiltersPartition(messages: seq<ChatMessage>)
    ensures |SystemMessages(messages)| + |OtherMessages(messages)| == |messages|
    ensures forall m :: m in SystemMessages(messages) <==> m in messages && IsSystem(m)
    ensures forall m :: m in OtherMessages(messages) <==> m in messages && !IsSystem(m)
  {
    if messages != [] {
      FiltersPartition(messages[1..]);
      assert messages == [messages[0]] + messages[1..];
    }
  }

  /** No message on the wire has role `system`. */
  lemma NoSystemOnTheWire(messages: seq<ChatMessage>, tools: Option<seq<ToolDefinition>>, i: nat)
    requires i < |BuildRequestBody(messages, tools).messages|
    ensures BuildRequestBody(messages, tools).messages[i].role in {"user", "assistant"}
  {
    FiltersPartition(messages);
    assert OtherMessages(messages)[i] in OtherMessages(messages);
  }

  /** The body has a `system` field exactly when some message has role `system`. */
  lemma SystemFieldIffSystemMessage(messages: seq<ChatMessage>, tools: Option<seq<ToolDefinition>>)
    ensures BuildRequestBody(messages, tools).system.Some? <==> exists m :: m in messages && IsSystem(m)
  {
    FiltersPartition(messages);
    if exists m :: m in messages && IsSystem(m) {
      var m :| m in messages && IsSystem(m);
      assert m in SystemMessages(messages);
    } else if SystemMessages(messages) != [] {
      assert SystemMessages(messages)[0] in SystemMessages(messages);
    }
  }

  /**
   * The `system` field is the system messages' contents joined by newlines: when none
   * of them holds a newline, splitting it at newlines gives them back, in order.
   */
  lemma SystemContentsRecoverable(messages: seq<ChatMessage>, tools: Option<seq<ToolDefinition>>)
    requires forall m :: m in messages && IsSystem(m) ==> '\n' !in m.content
    ensures var r := BuildRequestBody(messages, tools);
      r.system.Some? ==> JsonRpc.Split(r.system.value) == Contents(SystemMessages(messages))
  {
    var system := SystemMessages(messages);
    FiltersPartition(messages);
    if system != [] {
      var parts := Contents(system);
      forall i | 0 <= i < |parts| ensures '\n' !in parts[i] {
        assert system[i] in system;
      }
      JsonRpc.SplitJoin(parts);
    }
  }

  /** A system message followed by a user message, as in the provider's own tests. */
  lemma SystemAndUserExample()
    ensures var r := BuildRequestBody([ChatMessage(System, "You are a helpful assistant.", None),
                                       ChatMessage(User, "Hello", None)], None);
      r.system == Some("You are a helpful assistant.") && |r.messages| == 1 &&
      r.messages[0] == WireMessage("user", Text("Hello")) && r.tools.None?
  {
    var ms := [ChatMessage(System, "You are a helpful assistant.", None), ChatMessage(User, "Hello", None)];
    assert ms[1..][1..] == [];
    assert SystemMessages(ms) == [ms[0]];
    assert OtherMessages(ms) == [ms[1]];
  }

  // ---------------------------------------------------------------------------------
  // The reply.
  // ---------------------------------------------------------------------------------

  /** A collected `tool_use` block; its fields hold whatever the reply held (`undefined` as `None`). */
  datatype ResponseToolCall = ResponseToolCall(id: Option<Value>, name: Option<Value>, arguments: Option<string>)

  datatype Usage = Usage(inputTokens: Value, outputTokens: Value)

  datatype ChatResponse = ChatResponse(content: string, toolCalls: Option<seq<ResponseToolCall>>,
                                       usage: Usage, model: string, provider: string)

  /** The message `block.type` throws with when a block is `null`. */
  const NullBlockMessage := "Cannot read properties of null (reading 'type')"

  /** `v.key` for a non-null value: an own property of an object, `undefined` otherwise. */
  function Field(v: Value, key: string): Option<Value>
  {
    if v.Obj? then Get(v.fields, key) else None
  }

  predicate IsTextBlock(block: Value)
  {
    Field(block, "type") == Some(Str("text"))
  }

  predicate IsToolUseBlock(block: Value)
  {
    Field(block, "type") == Some(Str("tool_use"))
  }

  /** `'' + v`: `undefined` becomes the text `undefined`. */
  function Appended(v: Option<Value>): string
  {
    match v
    case None => "undefined"
    case Some(x) => ToText(x)
  }

  /** The call a `tool_use` block yields; `JSON.stringify(undefined)` is `undefined`. */
  function CallOf(block: Value, stringify: Value -> string): ResponseToolCall
  {
    var input := Field(block, "input");
    ResponseToolCall(Field(block, "id"), Field(block, "name"),
                     if input.Some? then Some(stringify(input.value)) else None)
  }

  /** The text blocks' texts, concatenated in order. */
  function TextOf(blocks: seq<Value>): string
  {
    if blocks == [] then ""
    else
      var last := blocks[|blocks| - 1];
      TextOf(blocks[..|blocks| - 1]) + (if IsTextBlock(last) then Appended(Field(last, "text")) else "")
  }

  /** The `tool_use` blocks' calls, in order. */
  function CallsOf(blocks: seq<Value>, stringify: Value -> string): seq<ResponseToolCall>
  {
    if blocks == [] then []
    else
      var last := blocks[|blocks| - 1];
      CallsOf(blocks[..|blocks| - 1], stringify) + (if IsToolUseBlock(last) then [CallOf(last, stringify)] else [])
  }

  /** The blocks `parseResponse` walks: `content` when it is an array, none otherwise. */
  function Blocks(responseBody: Object): seq<Value>
  {
    match Get(responseBody, "content")
    case Some(Arr(items)) => items
    case _ => []
  }

  /** `usage` is an object with a non-null `key` of its own. */
  predicate HasCount(usage: Option<Value>, key: string)
  {
    usage.Some? && usage.value.Obj? && key in usage.value.fields && usage.value.fields[key] != Null
  }

  /** `usage?.key ?? 0`. */
  function Count(usage: Option<Value>, key: string): (r: Value)
    ensures r != Null
    ensures HasCount(usage, key) ==> r == usage.value.fields[key]
    ensures !HasCount(usage, key) ==> r == Num(0)
  {
    match usage
    case Some(Obj(fields)) => if key in fields && fields[key] != Null then fields[key] else Num(0)
    case _ => Num(0)
  }

  /** What `parseResponse` returns, or the error it throws. */
  function Parsed(provider: BedrockProvider, responseBody: Object, stringify: Value -> string): (r: Result<ChatResponse>)
    ensures r.Err? <==> Null in Blocks(responseBody)
    ensures r.Err? ==> r.message == NullBlockMessage
    ensures r.Ok? ==> r.value.model == provider.model && r.value.provider == ProviderName
  {
    var blocks := Blocks(responseBody);
    if Null in blocks then Err(NullBlockMessage)
    else
      var calls := CallsOf(blocks, stringify);
      var usage := Get(responseBody, "usage");
      Ok(ChatResponse(TextOf(blocks), if calls == [] then None else Some(calls),
                      Usage(Count(usage, "input_tokens"), Count(usage, "output_tokens")),
                      provider.model, ProviderName))
  }

  /** `parseResponse`: one pass over the blocks, appending text and collecting calls. */
  method ParseResponse(provider: BedrockProvider, responseBody: Object, stringify: Value -> string)
    returns (r: Result<ChatResponse>)
    ensures r == Parsed(provider, responseBody, stringify)
  {
    var blocks := Blocks(responseBody);
    var text := "";
    var calls: seq<ResponseToolCall> := [];
    var i := 0;
    while i < |blocks|
      invariant 0 <= i <= |blocks|
      invariant Null !in blocks[..i]
      invariant text == TextOf(blocks[..i]) && calls == CallsOf(blocks[..i], stringify)
    {
      var block := blocks[i];
      if block == Null {
        assert blocks[i] in blocks;
        return Err(NullBlockMessage);
      }
      ReplyStep(blocks, i, stringify);
      if IsTextBlock(block) {
        text := text + Appended(Field(block, "text"));
      } else if IsToolUseBlock(block) {
        calls := calls + [CallOf(block, stringify)];
      }
      i := i + 1;
    }
    assert blocks[..i] == blocks;
    var usage := Get(responseBody, "usage");
    r := Ok(ChatResponse(text, if calls == [] then None else Some(calls),
                         Usage(Count(usage, "input_tokens"), Count(usage, "output_tokens")),
                         provider.model, ProviderName));
  }

  /** One more block adds its text, or its call, to those of the blocks before it. */
  lemma ReplyStep(blocks: seq<Value>, i: nat, stringify: Value -> string)
    requires i < |blocks|
    ensures TextOf(blocks[..i + 1]) ==
              TextOf(blocks[..i]) + (if IsTextBlock(blocks[i]) then Appended(Field(blocks[i], "text")) else "")
    ensures CallsOf(blocks[..i + 1], stringify) ==
              CallsOf(blocks[..i], stringify) + (if IsToolUseBlock(blocks[i]) then [CallOf(blocks[i], stringify)] else [])
  {
    assert blocks[..i + 1][..i] == blocks[..i] && blocks[..i + 1][i] == blocks[i];
  }

  /** Text is concatenated block by block, in order. */
  lemma {:induction false} TextOfAppend(a: seq<Value>, b: seq<Value>)
    ensures TextOf(a + b) == TextOf(a) + TextOf(b)
    decreases |b|
  {
    if b == [] {
      assert a + b == a;
    } else {
      var n := |b| - 1;
      var last := if IsTextBlock(b[n]) then Appended(Field(b[n], "text")) else "";
      assert (a + b)[..|a + b| - 1] == a + b[..n] && (a + b)[|a + b| - 1] == b[n];
      assert TextOf(a + b) == TextOf(a + b[..n]) + last;
      assert TextOf(b) == TextOf(b[..n]) + last;
      TextOfAppend(a, b[..n]);
      Seqs.AppendAssoc(TextOf(a), TextOf(b[..n]), last);
    }
  }

  /** Calls are collected block by block, in order. */
  lemma {:induction false} CallsOfAppend(a: seq<Value>, b: seq<Value>, stringify: Value -> string)
    ensures CallsOf(a + b, stringify) == CallsOf(a, stringify) + CallsOf(b, stringify)
    decreases |b|
  {
    if b == [] {
      assert a + b == a;
    } else {
      var n := |b| - 1;
      assert (a + b)[..|a + b| - 1] == a + b[..n];
      CallsOfAppend(a, b[..n], stringify);
    }
  }

  /** A block of any other kind adds neither text nor a call. */
  lemma OtherBlockIgnored(blocks: seq<Value>, block: Value, stringify: Value -> string)
    requires !IsTextBlock(block) && !IsToolUseBlock(block)
    ensures TextOf(blocks + [block]) == TextOf(blocks)
    ensures CallsOf(blocks + [block], stringify) == CallsOf(blocks, stringify)
  {
    assert (blocks + [block])[..|blocks|] == blocks;
  }

  /** The calls are exactly the `tool_use` blocks: there is one per such block. */
  lemma {:induction false} CallsCountToolUses(blocks: seq<Value>, stringify: Value -> string)
    ensures CallsOf(blocks, stringify) == [] <==> forall i :: 0 <= i < |blocks| ==> !IsToolUseBlock(blocks[i])
  {
    if blocks != [] {
      var n := |blocks| - 1;
      CallsCountToolUses(blocks[..n], stringify);
      forall i | 0 <= i < n ensures blocks[..n][i] == blocks[i] {
      }
    }
  }

  /** `tool_calls` is absent exactly when the reply has no `tool_use` block. */
  lemma ToolCallsAbsentIffNoToolUse(provider: BedrockProvider, responseBody: Object, stringify: Value -> string)
    requires Null !in Blocks(responseBody)
    ensures var r := Parsed(provider, responseBody, stringify);
      r.Ok? && (r.value.toolCalls.None? <==>
                forall i :: 0 <= i < |Blocks(responseBody)| ==> !IsToolUseBlock(Blocks(responseBody)[i]))
  {
    CallsCountToolUses(Blocks(responseBody), stringify);
  }

  /** Missing usage counts read as 0. */
  lemma UsageDefaultsToZero(provider: BedrockProvider, responseBody: Object, stringify: Value -> string)
    requires Null !in Blocks(responseBody)
    requires "usage" !in responseBody
    ensures Parsed(provider, responseBody, stringify).value.usage == Usage(Num(0), Num(0))
  {
  }

  /**
   * The reported counts: a non-null count of an object `usage` is passed through as it is;
   * a missing or null count, or a `usage` that is missing or not an object, gives 0.
   */
  lemma ParsedUsage(provider: BedrockProvider, responseBody: Object, stringify: Value -> string)
    requires Null !in Blocks(responseBody)
    ensures var u := Parsed(provider, responseBody, stringify).value.usage;
      var usage := if "usage" in responseBody then Some(responseBody["usage"]) else None;
      (HasCount(usage, "input_tokens") ==> u.inputTokens == responseBody["usage"].fields["input_tokens"]) &&
      (!HasCount(usage, "input_tokens") ==> u.inputTokens == Num(0)) &&
      (HasCount(usage, "output_tokens") ==> u.outputTokens == responseBody["usage"].fields["output_tokens"]) &&
      (!HasCount(usage, "output_tokens") ==> u.outputTokens == Num(0))
  {
  }

  /** A single text block with usage counts, as in the provider's own tests. */
  lemma TextReplyExample(provider: BedrockProvider, stringify: Value -> string)
    ensures var body := map["content" := Arr([Obj(map["type" := Str("text"), "text" := Str("Hello, world!")])]),
                             "usage" := Obj(map["input_tokens" := Num(10), "output_tokens" := Num(5)])];
      Parsed(provider, body, stringify) ==
        Ok(ChatResponse("Hello, world!", None, Usage(Num(10), Num(5)), provider.model, ProviderName))
  {
    var block := Obj(map["type" := Str("text"), "text" := Str("Hello, world!")]);
    assert [block][..0] == [];
    assert TextOf([block]) == "Hello, world!";
  }

  /** A text block then a `tool_use` block: the text is the first block's, the only call the second's. */
  lemma TextThenToolUse(text: Value, use: Value, stringify: Value -> string)
    requires IsTextBlock(text) && IsToolUseBlock(use)
    ensures TextOf([text, use]) == Appended(Field(text, "text"))
    ensures CallsOf([text, use], stringify) == [CallOf(use, stringify)]
  {
    assert [text, use][..1] == [text] && [text][..0] == [];
    assert !IsToolUseBlock(text) && !IsTextBlock(use);
    assert TextOf([text]) == "" + Appended(Field(text, "text"));
    assert CallsOf([text], stringify) == [];
  }

  /** A text block followed by a `tool_use` block, as in the provider's own tests. */
  lemma ToolUseReplyExample(provider: BedrockProvider, stringify: Value -> string)
    ensures var input := Obj(map["query" := Str("test query")]);
      var body := map["content" := Arr([Obj(map["type" := Str("text"), "text" := Str("I will call the tool.")]),
                                        Obj(map["type" := Str("tool_use"), "id" := Str("tool-123"),
                                                "name" := Str("search"), "input" := input])])];
      Parsed(provider, body, stringify) ==
        Ok(ChatResponse("I will call the tool.",
                        Some([ResponseToolCall(Some(Str("tool-123")), Some(Str("search")), Some(stringify(input)))]),
                        Usage(Num(0), Num(0)), provider.model, ProviderName))
  {
    var input := Obj(map["query" := Str("test query")]);
    var text := Obj(map["type" := Str("text"), "text" := Str("I will call the tool.")]);
    var use := Obj(map["type" := Str("tool_use"), "id" := Str("tool-123"), "name" := Str("search"), "input" := input]);
    var body := map["content" := Arr([text, use])];
    assert Blocks(body) == [text, use];
    assert IsTextBlock(text) && IsToolUseBlock(use);
    TextThenToolUse(text, use, stringify);
    assert Field(text, "text") == Some(Str("I will call the tool."));
    assert CallOf(use, stringify) == ResponseToolCall(Some(Str("tool-123")), Some(Str("search")), Some(stringify(input))) by {
      assert Field(use, "id") == Some(Str("tool-123")) && Field(use, "name") == Some(Str("search"));
      assert Field(use, "input") == Some(input);
    }
    assert "usage" !in body;
  }
}
