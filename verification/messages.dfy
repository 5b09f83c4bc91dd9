/**
 * The WebSocket wire schema: the nine message types and the message object, as a
 * validation predicate and a parser that keeps the four known fields.
 */
module Messages {
  import opened Wrappers
  import opened Json

  /** `WSMessageType`. */
  datatype MessageType =
    | Thought | ToolCall | ToolResult | ApprovalRequest | ApprovalResponse
    | Bankrupt | Panic | Chat | Status

  /** The nine types in the order the schema lists them. */
  const AllTypes: seq<MessageType> :=
    [Thought, ToolCall, ToolResult, ApprovalRequest, ApprovalResponse, Bankrupt, Panic, Chat, Status]

  function TypeName(t: MessageType): string
  {
    match t
    case Thought => "thought"
    case ToolCall => "tool_call"
    case ToolResult => "tool_result"
    case ApprovalRequest => "approval_request"
    case ApprovalResponse => "approval_response"
    case Bankrupt => "bankrupt"
    case Panic => "panic"
    case Chat => "chat"
    case Status => "status"
  }

  /** The spellings the type enum accepts. */
  const TypeNames: set<string> :=
    {"thought", "tool_call", "tool_result", "approval_request", "approval_response",
     "bankrupt", "panic", "chat", "status"}

  /** `WSMessageTypeSchema`: exactly the nine names, each decoding to the type it spells. */
  function TypeFromName(s: string): (r: Option<MessageType>)
    ensures r.Some? <==> s in TypeNames
    ensures r.Some? ==> TypeName(r.value) == s
  {
    if s == "thought" then Some(Thought)
    else if s == "tool_call" then Some(ToolCall)
    else if s == "tool_result" then Some(ToolResult)
    else if s == "approval_request" then Some(ApprovalRequest)
    else if s == "approval_response" then Some(ApprovalResponse)
    else if s == "bankrupt" then Some(Bankrupt)
    else if s == "panic" then Some(Panic)
    else if s == "chat" then Some(Chat)
    else if s == "status" then Some(Status)
    else None
  }

  /** Every type is listed once, and its name decodes back to it. */
  lemma TypeNamesRoundTrip(t: MessageType)
    ensures t in AllTypes
    ensures TypeFromName(TypeName(t)) == Some(t)
  {
  }

  /** `WSMessage`: `kind` is the wire field `type`. */
  datatype Message = Message(kind: MessageType, id: string, timestamp: string, payload: Json.Object)

  /**
   * `WSMessageSchema` as a predicate: a known `type`, a string `id`, a `timestamp` string
   * that is an ISO 8601 date-time (the date-time grammar is the parameter `isDateTime`),
   * and an object `payload`.
   */
  predicate ValidMessage(v: Value, isDateTime: string -> bool)
  {
    v.Obj? &&
    "type" in v.fields && v.fields["type"].Str? && v.fields["type"].s in TypeNames &&
    "id" in v.fields && v.fields["id"].Str? &&
    "timestamp" in v.fields && v.fields["timestamp"].Str? && isDateTime(v.fields["timestamp"].s) &&
    "payload" in v.fields && v.fields["payload"].Obj?
  }

  /** `WSMessageSchema.safeParse(raw)`: the message with its four fields, or a failure. */
  function ParseMessage(v: Value, isDateTime: string -> bool): (r: Option<Message>)
    ensures r.Some? <==> ValidMessage(v, isDateTime)
    ensures r.Some? ==> TypeName(r.value.kind) == v.fields["type"].s && r.value.id == v.fields["id"].s &&
                        r.value.timestamp == v.fields["timestamp"].s && Obj(r.value.payload) == v.fields["payload"]
  {
    if !ValidMessage(v, isDateTime) then None
    else
      Some(Message(TypeFromName(v.fields["type"].s).value, v.fields["id"].s,
                   v.fields["timestamp"].s, v.fields["payload"].fields))
  }

  /** A message as the JSON object a client sends. */
  function EncodeMessage(m: Message): Value
  {
    Obj(map["type" := Str(TypeName(m.kind)), "id" := Str(m.id),
             "timestamp" := Str(m.timestamp), "payload" := Obj(m.payload)])
  }

  /** Parsing the object of a message with a date-time timestamp gives the message back. */
  lemma MessageRoundTrip(m: Message, isDateTime: string -> bool)
    requires isDateTime(m.timestamp)
    ensures ParseMessage(EncodeMessage(m), isDateTime) == Some(m)
  {
    TypeNamesRoundTrip(m.kind);
  }

  /** An object lacking any of the four fields fails validation. */
  lemma MissingFieldInvalid(v: Value, isDateTime: string -> bool)
    requires v.Obj? && !("type" in v.fields && "id" in v.fields && "timestamp" in v.fields && "payload" in v.fields)
    ensures ParseMessage(v, isDateTime).None?
  {
  }
}
