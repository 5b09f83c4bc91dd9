/**
 * The tool host: it starts Model Context Protocol servers as child processes, performs
 * the 2024-11-05 lifecycle handshake over JSON-RPC, keeps a registry of the tools each
 * server offers under `<server>:<tool>` keys, forwards tool calls, and stops every server
 * on shutdown. Spawning a process is a parameter (the new process's handle), what the
 * process writes to stdout is a parameter (the chunks it writes before the request's
 * timer fires), and writes to stdin and kills are recorded in order.
 */
module Mcp {
  import opened Wrappers
  import opened Json
  import opened JsonRpc
  import OrderedMap
  import opened ToolTypes

  /** A spawned server process. */
  type ProcId = nat

  /** A line written to a process's stdin. */
  datatype Write = Write(proc: ProcId, message: JsonRpc.Message)

  /** A registry entry: the server a tool came from and its normalised definition. */
  datatype ToolEntry = ToolEntry(server: string, definition: ToolDefinition)

  /** The host's state: both maps, the request counter, and what it has written and killed. */
  datatype Host = Host(servers: OrderedMap.OMap<ProcId>, tools: OrderedMap.OMap<ToolEntry>, nextId: nat,
                       written: seq<Write>, killed: seq<ProcId>)

  const ProtocolVersion := "2024-11-05"
  const ClientName := "crevnclaw"
  const ClientVersion := "0.1.0"
  const InitializedName := "notifications/initialized"
  const NotIterableMessage := "tools is not iterable"
  const MalformedToolMessage := "Malformed tool definition"

  /** The `initialize` request's parameters. */
  const InitializeParams: Value :=
    Obj(map["protocolVersion" := Str(ProtocolVersion),
            "capabilities" := Obj(map[]),
            "clientInfo" := Obj(map["name" := Str(ClientName), "version" := Str(ClientVersion)])])

  function NotConnectedMessage(serverName: string): string
  {
    "MCP server not connected: " + serverName
  }

  /** The registry key of a server's tool. */
  function ToolKey(server: string, tool: string): string
  {
    server + ":" + tool
  }

  // ---------------------------------------------------------------------------------
  // Request ids.
  // ---------------------------------------------------------------------------------

  /** The ids of the requests among the writes, in writing order. */
  function RequestIds(written: seq<Write>): seq<nat>
  {
    if written == [] then []
    else
      var last := written[|written| - 1];
      RequestIds(written[..|written| - 1]) + (if last.message.Request? then [last.message.id] else [])
  }

  /** 1, 2, …, next - 1. */
  function IdsBelow(next: nat): (r: seq<nat>)
    requires next >= 1
    ensures |r| == next - 1
    ensures forall i :: 0 <= i < |r| ==> r[i] == i + 1
  {
    seq(next - 1, i => i + 1)
  }

  /**
   * The host's invariant: both maps are well formed, and the requests written so far
   * carry the ids 1, 2, … up to the counter, in order.
   */
  ghost predicate Valid(h: Host)
  {
    h.servers.Valid() && h.tools.Valid() && h.nextId >= 1 && RequestIds(h.written) == IdsBelow(h.nextId)
  }

  /** A new host: no servers, no tools, the counter at 1, nothing written. */
  function Initial(): (h: Host)
    ensures Valid(h) && h.nextId == 1 && h.servers.keys == [] && h.tools.keys == [] && h.written == []
  {
    Host(OrderedMap.Empty(), OrderedMap.Empty(), 1, [], [])
  }

  /** Request ids are distinct and increase in writing order, and none reaches the counter. */
  lemma RequestIdsIncrease(h: Host)
    requires Valid(h)
    ensures forall i, j :: 0 <= i < j < |RequestIds(h.written)| ==> RequestIds(h.written)[i] < RequestIds(h.written)[j]
    ensures forall i :: 0 <= i < |RequestIds(h.written)| ==> 1 <= RequestIds(h.written)[i] < h.nextId
  {
  }

  // ---------------------------------------------------------------------------------
  // Requests and notifications.
  // ---------------------------------------------------------------------------------

  /**
   * `sendRequest`: the request takes the counter's value as its id, the counter
   * advances, the request is written, and the chunks decide the reply.
   */
  function AfterRequest(h: Host, proc: ProcId, methodName: string, params: Value,
                        chunks: seq<string>, parse: string -> Option<Value>): (Host, Reply)
  {
    (h.(nextId := h.nextId + 1, written := h.written + [Write(proc, Request(h.nextId, methodName, params))]),
     AwaitPerChunk(chunks, h.nextId, methodName, parse))
  }

  /** `sendNotification`: the notification is written; it has no id and the counter stays. */
  function AfterNotify(h: Host, proc: ProcId, methodName: string, params: Value): Host
  {
    h.(written := h.written + [Write(proc, Notification(methodName, params))])
  }

  /** A request uses the next id and keeps the ids running. */
  lemma RequestTakesNextId(h: Host, proc: ProcId, methodName: string, params: Value,
                           chunks: seq<string>, parse: string -> Option<Value>)
    requires Valid(h)
    ensures var h' := AfterRequest(h, proc, methodName, params, chunks, parse).0;
      Valid(h') && h'.nextId == h.nextId + 1 && RequestIds(h'.written) == RequestIds(h.written) + [h.nextId] &&
      h'.servers == h.servers && h'.tools == h.tools && h'.killed == h.killed
  {
    var h' := AfterRequest(h, proc, methodName, params, chunks, parse).0;
    assert h'.written[..|h'.written| - 1] == h.written;
    assert IdsBelow(h.nextId + 1) == IdsBelow(h.nextId) + [h.nextId];
  }

  /** A notification leaves the counter and the ids where they were. */
  lemma NotificationKeepsIds(h: Host, proc: ProcId, methodName: string, params: Value)
    requires Valid(h)
    ensures var h' := AfterNotify(h, proc, methodName, params);
      Valid(h') && h'.nextId == h.nextId && RequestIds(h'.written) == RequestIds(h.written)
  {
    var h' := AfterNotify(h, proc, methodName, params);
    assert h'.written[..|h'.written| - 1] == h.written;
  }

  // ---------------------------------------------------------------------------------
  // Tool discovery.
  // ---------------------------------------------------------------------------------

  /**
   * `result?.tools || []`: the `tools` of an object result when truthy, otherwise none.
   * A truthy `tools` that is not an array cannot be iterated.
   */
  function ToolsOf(result: Option<Value>): (r: Result<seq<Value>>)
    ensures r.Err? <==> result.Some? && result.value.Obj? && Truthy(Get(result.value.fields, "tools")) &&
                        !result.value.fields["tools"].Arr?
    ensures r.Ok? && result.Some? && result.value.Obj? && Truthy(Get(result.value.fields, "tools")) ==>
              r.value == result.value.fields["tools"].items
    ensures r.Ok? && !(result.Some? && result.value.Obj? && Truthy(Get(result.value.fields, "tools"))) ==>
              r.value == []
  {
    match result
    case Some(Obj(fields)) =>
      if !Truthy(Get(fields, "tools")) then Ok([])
      else if fields["tools"].Arr? then Ok(fields["tools"].items)
      else Err(NotIterableMessage)
    case _ => Ok([])
  }

  /**
   * A discovered tool, normalised: a falsy description becomes `''` and a falsy input
   * schema `{}`. An item that is not an object with a string name, a string or falsy
   * description and an object or falsy schema is malformed.
   */
  function Normalise(item: Value): Option<ToolDefinition>
  {
    if !item.Obj? then None
    else
      var name := Get(item.fields, "name");
      var description := Get(item.fields, "description");
      var schema := Get(item.fields, "inputSchema");
      if name.Some? && name.value.Str? &&
         (!Truthy(description) || description.value.Str?) &&
         (!Truthy(schema) || schema.value.Obj?)
      then
        Some(ToolDefinition(name.value.s,
                            if Truthy(description) then description.value.s else "",
                            if Truthy(schema) then schema.value.fields else map[]))
      else None
  }

  /** The name is kept, and the defaults replace exactly the falsy fields. */
  lemma NormaliseDefaults(item: Value)
    requires Normalise(item).Some?
    ensures var d := Normalise(item).value;
      item.Obj? && Get(item.fields, "name") == Some(Str(d.name)) &&
      (d.description == "" <==> !Truthy(Get(item.fields, "description"))) &&
      (Truthy(Get(item.fields, "description")) ==> Get(item.fields, "description") == Some(Str(d.description))) &&
      (!Truthy(Get(item.fields, "inputSchema")) ==> d.inputSchema == map[]) &&
      (Truthy(Get(item.fields, "inputSchema")) ==> Get(item.fields, "inputSchema") == Some(Obj(d.inputSchema)))
  {
  }

  /** The definitions of the items before the first malformed one. */
  function NormalisedPrefix(items: seq<Value>): (r: seq<ToolDefinition>)
    ensures |r| <= |items|
    ensures forall i :: 0 <= i < |r| ==> Normalise(items[i]) == Some(r[i])
    ensures |r| < |items| ==> Normalise(items[|r|]).None?
  {
    if items == [] then []
    else match Normalise(items[0])
      case None => []
      case Some(d) =>
        var rest := NormalisedPrefix(items[1..]);
        assert forall i :: 1 <= i < |rest| + 1 ==> items[i] == items[1..][i - 1];
        [d] + rest
  }

  /** The tools of one server registered, in order, under their composite keys. */
  function Registered(tools: OrderedMap.OMap<ToolEntry>, server: string, defs: seq<ToolDefinition>): (r: OrderedMap.OMap<ToolEntry>)
    requires tools.Valid()
    ensures r.Valid()
  {
    if defs == [] then tools
    else
      var last := defs[|defs| - 1];
      OrderedMap.Set(Registered(tools, server, defs[..|defs| - 1]), ToolKey(server, last.name), ToolEntry(server, last))
  }

  /** A key no definition produces keeps its entry, or its absence. */
  lemma {:induction false} RegisteredLeavesOthers(tools: OrderedMap.OMap<ToolEntry>, server: string, defs: seq<ToolDefinition>, key: string)
    requires tools.Valid()
    requires forall i :: 0 <= i < |defs| ==> ToolKey(server, defs[i].name) != key
    ensures OrderedMap.Get(Registered(tools, server, defs), key) == OrderedMap.Get(tools, key)
  {
    if defs != [] {
      RegisteredLeavesOthers(tools, server, defs[..|defs| - 1], key);
    }
  }

  /**
   * Each definition is found under `<server>:<name>`; when a name repeats, the last
   * definition with it wins.
   */
  lemma {:induction false} RegisteredLastWins(tools: OrderedMap.OMap<ToolEntry>, server: string, defs: seq<ToolDefinition>, i: nat)
    requires tools.Valid()
    requires i < |defs|
    requires forall j :: i < j < |defs| ==> defs[j].name != defs[i].name
    ensures OrderedMap.Get(Registered(tools, server, defs), ToolKey(server, defs[i].name)) == Some(ToolEntry(server, defs[i]))
  {
    if i < |defs| - 1 {
      var last := defs[|defs| - 1];
      assert last.name != defs[i].name;
      KeyDeterminesTool(server, last.name, defs[i].name);
      RegisteredLastWins(tools, server, defs[..|defs| - 1], i);
    }
  }

  /** One server's keys for two tools are equal exactly when the tool names are. */
  lemma KeyDeterminesTool(server: string, a: string, b: string)
    ensures ToolKey(server, a) == ToolKey(server, b) <==> a == b
  {
    if ToolKey(server, a) == ToolKey(server, b) {
      assert ToolKey(server, a)[|server| + 1..] == a;
      assert ToolKey(server, b)[|server| + 1..] == b;
    }
  }

  /** The key has a colon right after the server name. */
  lemma ColonAfterServer(server: string, tool: string)
    ensures |ToolKey(server, tool)| > |server| && ToolKey(server, tool)[|server|] == ':'
  {
  }

  /** Keys built from server names without a colon determine the server and the tool. */
  lemma KeyDeterminesServerAndTool(s1: string, t1: string, s2: string, t2: string)
    requires ':' !in s1 && ':' !in s2
    requires ToolKey(s1, t1) == ToolKey(s2, t2)
    ensures s1 == s2 && t1 == t2
  {
    var k := ToolKey(s1, t1);
    if |s1| < |s2| {
      ColonAfterServer(s1, t1);
      assert false;
    } else if |s2| < |s1| {
      ColonAfterServer(s2, t2);
      assert false;
    }
    assert s1 == k[..|s1|] == s2;
    assert t1 == k[|s1| + 1..] == t2;
  }

  /** With a colon in a server name, two different tools share one key. */
  lemma ColonInServerNameCollides()
    ensures ("a:b", "c") != ("a", "b:c") && ToolKey("a:b", "c") == ToolKey("a", "b:c")
  {
  }

  // ---------------------------------------------------------------------------------
  // The host's operations.
  // ---------------------------------------------------------------------------------

  /**
   * The handshake `connect` performs: the server is recorded first; then `initialize` is
   * requested, the `initialized` notification written and `tools/list` requested. A
   * rejected request makes `connect` throw; otherwise the `tools/list` result is returned.
   */
  function Handshake(h: Host, name: string, proc: ProcId, initChunks: seq<string>, listChunks: seq<string>,
                     parse: string -> Option<Value>): (r: (Host, Result<Option<Value>>))
    requires h.servers.Valid()
    ensures r.0.tools == h.tools && r.0.killed == h.killed
  {
    var h1 := h.(servers := OrderedMap.Set(h.servers, name, proc));
    var (h2, init) := AfterRequest(h1, proc, "initialize", InitializeParams, initChunks, parse);
    if init.Rejected? then (h2, Err(init.message))
    else
      var (h4, list) := AfterRequest(AfterNotify(h2, proc, InitializedName, Obj(map[])),
                                     proc, "tools/list", Obj(map[]), listChunks, parse);
      match list
      case Rejected(message) => (h4, Err(message))
      case Resolved(result) => (h4, Ok(result))
  }

  /**
   * Discovery: the listed tools of server `name` are registered in order, and the
   * normalised list is returned; a malformed item stops the registration there.
   */
  function Discover(tools: OrderedMap.OMap<ToolEntry>, name: string, result: Option<Value>)
    : (r: (OrderedMap.OMap<ToolEntry>, Result<seq<ToolDefinition>>))
    requires tools.Valid()
    ensures r.0.Valid()
  {
    match ToolsOf(result)
    case Err(message) => (tools, Err(message))
    case Ok(items) =>
      var defs := NormalisedPrefix(items);
      (Registered(tools, name, defs), if |defs| == |items| then Ok(defs) else Err(MalformedToolMessage))
  }

  /** `connect`: the handshake, then discovery. */
  function AfterConnect(h: Host, name: string, proc: ProcId, initChunks: seq<string>, listChunks: seq<string>,
                        parse: string -> Option<Value>): (Host, Result<seq<ToolDefinition>>)
    requires Valid(h)
  {
    var (h4, list) := Handshake(h, name, proc, initChunks, listChunks, parse);
    match list
    case Err(message) => (h4, Err(message))
    case Ok(result) =>
      var (tools, r) := Discover(h4.tools, name, result);
      (h4.(tools := tools), r)
  }

  /** The handshake when `initialize` is rejected: one request written, then the error. */
  lemma HandshakeRejected(h: Host, name: string, proc: ProcId, initChunks: seq<string>, listChunks: seq<string>,
                          parse: string -> Option<Value>)
    requires h.servers.Valid()
    requires AwaitPerChunk(initChunks, h.nextId, "initialize", parse).Rejected?
    ensures Handshake(h, name, proc, initChunks, listChunks, parse) ==
      (h.(servers := OrderedMap.Set(h.servers, name, proc), nextId := h.nextId + 1,
          written := h.written + [Write(proc, Request(h.nextId, "initialize", InitializeParams))]),
       Err(AwaitPerChunk(initChunks, h.nextId, "initialize", parse).message))
  {
  }

  /** The handshake when `initialize` resolves: both requests and the notification are written. */
  lemma HandshakeResolved(h: Host, name: string, proc: ProcId, initChunks: seq<string>, listChunks: seq<string>,
                          parse: string -> Option<Value>)
    requires h.servers.Valid()
    requires AwaitPerChunk(initChunks, h.nextId, "initialize", parse).Resolved?
    ensures Handshake(h, name, proc, initChunks, listChunks, parse).0 ==
      h.(servers := OrderedMap.Set(h.servers, name, proc), nextId := h.nextId + 2,
         written := h.written + [Write(proc, Request(h.nextId, "initialize", InitializeParams)),
                                 Write(proc, Notification(InitializedName, Obj(map[]))),
                                 Write(proc, Request(h.nextId + 1, "tools/list", Obj(map[])))])
  {
    var h1 := h.(servers := OrderedMap.Set(h.servers, name, proc));
    var h2 := AfterRequest(h1, proc, "initialize", InitializeParams, initChunks, parse).0;
    var h3 := AfterNotify(h2, proc, InitializedName, Obj(map[]));
    assert Handshake(h, name, proc, initChunks, listChunks, parse).0 ==
           AfterRequest(h3, proc, "tools/list", Obj(map[]), listChunks, parse).0;
  }

  /** The handshake keeps the invariant, records the server, and writes its messages in order. */
  lemma HandshakeOrder(h: Host, name: string, proc: ProcId, initChunks: seq<string>, listChunks: seq<string>,
                       parse: string -> Option<Value>)
    requires Valid(h)
    ensures var (h', r) := Handshake(h, name, proc, initChunks, listChunks, parse);
      var n := h.nextId;
      var init := Write(proc, Request(n, "initialize", InitializeParams));
      var initialized := Write(proc, Notification(InitializedName, Obj(map[])));
      var list := Write(proc, Request(n + 1, "tools/list", Obj(map[])));
      Valid(h') && OrderedMap.Get(h'.servers, name) == Some(proc) &&
      (AwaitPerChunk(initChunks, n, "initialize", parse).Rejected? ==>
         h'.written == h.written + [init] && h'.nextId == n + 1 &&
         r == Err(AwaitPerChunk(initChunks, n, "initialize", parse).message)) &&
      (AwaitPerChunk(initChunks, n, "initialize", parse).Resolved? ==>
         h'.written == h.written + [init, initialized, list] && h'.nextId == n + 2)
  {
    var h1 := h.(servers := OrderedMap.Set(h.servers, name, proc));
    RequestTakesNextId(h1, proc, "initialize", InitializeParams, initChunks, parse);
    var h2 := AfterRequest(h1, proc, "initialize", InitializeParams, initChunks, parse).0;
    if AwaitPerChunk(initChunks, h.nextId, "initialize", parse).Rejected? {
      HandshakeRejected(h, name, proc, initChunks, listChunks, parse);
    } else {
      NotificationKeepsIds(h2, proc, InitializedName, Obj(map[]));
      var h3 := AfterNotify(h2, proc, InitializedName, Obj(map[]));
      RequestTakesNextId(h3, proc, "tools/list", Obj(map[]), listChunks, parse);
      HandshakeResolved(h, name, proc, initChunks, listChunks, parse);
      assert Handshake(h, name, proc, initChunks, listChunks, parse).0 ==
             AfterRequest(h3, proc, "tools/list", Obj(map[]), listChunks, parse).0;
    }
  }

  /** `connect` keeps the invariant; only discovery touches the tools, and only after both requests resolved. */
  lemma ConnectKeepsInvariant(h: Host, name: string, proc: ProcId, initChunks: seq<string>, listChunks: seq<string>,
                              parse: string -> Option<Value>)
    requires Valid(h)
    ensures var (h', r) := AfterConnect(h, name, proc, initChunks, listChunks, parse);
      var (hs, list) := Handshake(h, name, proc, initChunks, listChunks, parse);
      Valid(h') && h'.servers == hs.servers && h'.written == hs.written && h'.nextId == hs.nextId &&
      h'.killed == h.killed && (list.Err? ==> h'.tools == h.tools && r == Err(list.message))
  {
    HandshakeOrder(h, name, proc, initChunks, listChunks, parse);
  }

  /**
   * A successful discovery returns the normalised tools, and each of them is then
   * registered under `<server>:<name>` unless a later tool of the same name replaced it.
   */
  lemma DiscoverRegistersTools(tools: OrderedMap.OMap<ToolEntry>, name: string, result: Option<Value>, i: nat)
    requires tools.Valid()
    requires Discover(tools, name, result).1.Ok?
    ensures var (tools', r) := Discover(tools, name, result);
      i < |r.value| && (forall j :: i < j < |r.value| ==> r.value[j].name != r.value[i].name) ==>
        OrderedMap.Get(tools', ToolKey(name, r.value[i].name)) == Some(ToolEntry(name, r.value[i]))
  {
    var (tools', r) := Discover(tools, name, result);
    if i < |r.value| && (forall j :: i < j < |r.value| ==> r.value[j].name != r.value[i].name) {
      RegisteredLastWins(tools, name, r.value, i);
    }
  }

  /**
   * `callTool`: an unknown server throws before anything is written; otherwise a
   * `tools/call` request goes to that server's process and its reply is returned.
   */
  function AfterCallTool(h: Host, serverName: string, toolName: string, args: Object,
                         chunks: seq<string>, parse: string -> Option<Value>): (Host, Result<Option<Value>>)
  {
    match OrderedMap.Get(h.servers, serverName)
    case None => (h, Err(NotConnectedMessage(serverName)))
    case Some(proc) =>
      var (h', reply) := AfterRequest(h, proc, "tools/call",
                                      Obj(map["name" := Str(toolName), "arguments" := Obj(args)]), chunks, parse);
      match reply
      case Resolved(result) => (h', Ok(result))
      case Rejected(message) => (h', Err(message))
  }

  /** The guard: exactly the unknown servers are refused, and refusing changes nothing. */
  lemma CallToolGuard(h: Host, serverName: string, toolName: string, args: Object,
                      chunks: seq<string>, parse: string -> Option<Value>)
    requires Valid(h)
    ensures var (h', r) := AfterCallTool(h, serverName, toolName, args, chunks, parse);
      Valid(h') &&
      (serverName !in h.servers.entries <==> r == Err(NotConnectedMessage(serverName)) && h' == h) &&
      (serverName in h.servers.entries ==>
         h'.written == h.written + [Write(h.servers.entries[serverName],
                                          Request(h.nextId, "tools/call",
                                                  Obj(map["name" := Str(toolName), "arguments" := Obj(args)])))])
  {
    if serverName in h.servers.entries {
      RequestTakesNextId(h, h.servers.entries[serverName], "tools/call",
                         Obj(map["name" := Str(toolName), "arguments" := Obj(args)]), chunks, parse);
    }
  }

  /** `listAllTools`: every registered definition, in registration order. */
  function ToolList(tools: OrderedMap.OMap<ToolEntry>): (r: seq<ToolDefinition>)
    requires tools.Valid()
    ensures |r| == |tools.keys|
    ensures forall i :: 0 <= i < |r| ==> r[i] == tools.entries[tools.keys[i]].definition
  {
    seq(|tools.keys|, i requires 0 <= i < |tools.keys| => tools.entries[tools.keys[i]].definition)
  }

  /** `disconnectAll`: every process is killed in connection order; both maps end empty. */
  function AfterDisconnect(h: Host): Host
    requires Valid(h)
  {
    h.(servers := OrderedMap.Empty(), tools := OrderedMap.Empty(), killed := h.killed + OrderedMap.Values(h.servers))
  }

  /** After `disconnectAll` no server is connected, no tool is listed, and calls are refused. */
  lemma DisconnectClears(h: Host, serverName: string, toolName: string, args: Object,
                         chunks: seq<string>, parse: string -> Option<Value>)
    requires Valid(h)
    ensures var h' := AfterDisconnect(h);
      Valid(h') && ToolList(h'.tools) == [] && h'.nextId == h.nextId && h'.written == h.written &&
      |h'.killed| == |h.killed| + |h.servers.keys| &&
      AfterCallTool(h', serverName, toolName, args, chunks, parse).1 == Err(NotConnectedMessage(serverName))
  {
  }

  // ---------------------------------------------------------------------------------
  // The host object.
  // ---------------------------------------------------------------------------------

  class McpHost {
    var servers: OrderedMap.OMap<ProcId>
    var tools: OrderedMap.OMap<ToolEntry>
    var nextId: nat
    /** Every line written to a server's stdin, in order. */
    var written: seq<Write>
    /** Every process killed, in order. */
    var killed: seq<ProcId>

    function Model(): Host
      reads this
    {
      Host(servers, tools, nextId, written, killed)
    }

    ghost predicate Inv()
      reads this
    {
      Valid(Model())
    }

    constructor ()
      ensures Inv() && Model() == Initial()
    {
      servers := OrderedMap.Empty();
      tools := OrderedMap.Empty();
      nextId := 1;
      written := [];
      killed := [];
    }

    /** `sendRequest`: write the request, then match each chunk until one answers it. */
    method SendRequest(proc: ProcId, methodName: string, params: Value, chunks: seq<string>,
                       parse: string -> Option<Value>) returns (reply: Reply)
      requires Inv()
      modifies this
      ensures Inv()
      ensures (Model(), reply) == AfterRequest(old(Model()), proc, methodName, params, chunks, parse)
    {
      ghost var h := Model();
      ghost var after := AfterRequest(h, proc, methodName, params, chunks, parse);
      RequestTakesNextId(h, proc, methodName, params, chunks, parse);
      var id := nextId;
      nextId := nextId + 1;
      written := written + [Write(proc, Request(id, methodName, params))];
      assert Model() == after.0;
      reply := Await(chunks, id, methodName, parse);
    }

    /** `sendNotification`: write the notification; no id is used. */
    method SendNotification(proc: ProcId, methodName: string, params: Value)
      requires Inv()
      modifies this
      ensures Inv()
      ensures Model() == AfterNotify(old(Model()), proc, methodName, params)
    {
      NotificationKeepsIds(Model(), proc, methodName, params);
      written := written + [Write(proc, Notification(methodName, params))];
    }

    /** `connect`, with `proc` the process just spawned for the server. */
    method Connect(name: string, proc: ProcId, initChunks: seq<string>, listChunks: seq<string>,
                   parse: string -> Option<Value>) returns (r: Result<seq<ToolDefinition>>)
      requires Inv()
      modifies this
      ensures Inv()
      ensures (Model(), r) == AfterConnect(old(Model()), name, proc, initChunks, listChunks, parse)
    {
      ghost var h := Model();
      servers := OrderedMap.Set(servers, name, proc);
      var init := SendRequest(proc, "initialize", InitializeParams, initChunks, parse);
      if init.Rejected? {
        return Err(init.message);
      }
      SendNotification(proc, InitializedName, Obj(map[]));
      var list := SendRequest(proc, "tools/list", Obj(map[]), listChunks, parse);
      if list.Rejected? {
        return Err(list.message);
      }
      assert (Model(), Ok(list.result)) == Handshake(h, name, proc, initChunks, listChunks, parse);
      r := RegisterTools(name, list.result);
    }

    /** The discovery loop of `connect`: register each listed tool in turn. */
    method RegisterTools(name: string, result: Option<Value>) returns (r: Result<seq<ToolDefinition>>)
      requires tools.Valid()
      modifies this
      ensures (tools, r) == Discover(old(tools), name, result)
      ensures servers == old(servers) && nextId == old(nextId) && written == old(written) && killed == old(killed)
    {
      var items := ToolsOf(result);
      if items.Err? {
        return Err(items.message);
      }
      var defs: seq<ToolDefinition> := [];
      var i := 0;
      while i < |items.value|
        invariant 0 <= i <= |items.value|
        invariant tools.Valid()
        invariant defs == NormalisedPrefix(items.value[..i])
        invariant |defs| == i
        invariant tools == Registered(old(tools), name, defs)
        invariant servers == old(servers) && nextId == old(nextId) && written == old(written) && killed == old(killed)
      {
        PrefixExtends(items.value, i);
        var def := Normalise(items.value[i]);
        if def.None? {
          PrefixStops(items.value, i);
          return Err(MalformedToolMessage);
        }
        tools := OrderedMap.Set(tools, ToolKey(name, def.value.name), ToolEntry(name, def.value));
        defs := defs + [def.value];
        assert defs[..|defs| - 1] == defs[..i];
        i := i + 1;
      }
      assert items.value[..i] == items.value;
      return Ok(defs);
    }

    /** `callTool`. */
    method CallTool(serverName: string, toolName: string, args: Object, chunks: seq<string>,
                    parse: string -> Option<Value>) returns (r: Result<Option<Value>>)
      requires Inv()
      modifies this
      ensures Inv()
      ensures (Model(), r) == AfterCallTool(old(Model()), serverName, toolName, args, chunks, parse)
    {
      var proc := OrderedMap.Get(servers, serverName);
      if proc.None? {
        return Err(NotConnectedMessage(serverName));
      }
      var reply := SendRequest(proc.value, "tools/call",
                               Obj(map["name" := Str(toolName), "arguments" := Obj(args)]), chunks, parse);
      match reply
      case Resolved(result) => return Ok(result);
      case Rejected(message) => return Err(message);
    }

    /** `listAllTools`. */
    function ListAllTools(): seq<ToolDefinition>
      requires Inv()
      reads this
    {
      ToolList(tools)
    }

    /** `disconnectAll`: kill and delete each server in turn, then clear the tools. */
    method DisconnectAll()
      requires Inv()
      modifies this
      ensures Inv()
      ensures Model() == AfterDisconnect(old(Model()))
    {
      KillAll();
      tools := OrderedMap.Empty();
    }

    /** The loop of `disconnectAll`: kill the first remaining server and delete it, until none is left. */
    method KillAll()
      requires servers.Valid()
      modifies this
      ensures servers == OrderedMap.Empty()
      ensures killed == old(killed) + OrderedMap.Values(old(servers))
      ensures tools == old(tools) && nextId == old(nextId) && written == old(written)
    {
      var remaining, stopped := servers, killed;
      ghost var procs := OrderedMap.Values(remaining);
      ghost var i := 0;
      while remaining.keys != []
        invariant 0 <= i <= |procs|
        invariant remaining.Valid() && OrderedMap.Values(remaining) == procs[i..]
        invariant stopped == old(killed) + procs[..i]
        invariant servers == old(servers) && killed == old(killed)
        invariant tools == old(tools) && nextId == old(nextId) && written == old(written)
        decreases |remaining.keys|
      {
        var name := remaining.keys[0];
        var proc := remaining.entries[name];
        OrderedMap.DeleteFirstValue(remaining);
        stopped := stopped + [proc];
        remaining := OrderedMap.Delete(remaining, name);
        assert procs[..i + 1] == procs[..i] + [proc];
        i := i + 1;
      }
      assert procs[..i] == procs;
      OrderedMap.EmptyWithoutKeys(remaining);
      servers, killed := remaining, stopped;
    }
  }

  /** The defined prefix grows by the next item while that item is well formed. */
  lemma PrefixExtends(items: seq<Value>, i: nat)
    requires i < |items| && |NormalisedPrefix(items[..i])| == i
    ensures Normalise(items[i]).Some? ==> NormalisedPrefix(items[..i + 1]) == NormalisedPrefix(items[..i]) + [Normalise(items[i]).value]
  {
    if Normalise(items[i]).Some? {
      PrefixAppend(items[..i], items[i]);
      assert items[..i + 1] == items[..i] + [items[i]];
    }
  }

  /** The first malformed item ends the defined prefix. */
  lemma PrefixStops(items: seq<Value>, i: nat)
    requires i < |items| && |NormalisedPrefix(items[..i])| == i && Normalise(items[i]).None?
    ensures NormalisedPrefix(items) == NormalisedPrefix(items[..i])
  {
    PrefixOfFull(items, i);
    var whole, part := NormalisedPrefix(items), NormalisedPrefix(items[..i]);
    forall j | 0 <= j < i ensures whole[j] == part[j] {
      assert items[..i][j] == items[j];
    }
  }

  lemma {:induction false} PrefixAppend(items: seq<Value>, item: Value)
    requires |NormalisedPrefix(items)| == |items| && Normalise(item).Some?
    ensures NormalisedPrefix(items + [item]) == NormalisedPrefix(items) + [Normalise(item).value]
  {
    if items != [] {
      assert (items + [item])[1..] == items[1..] + [item];
      assert (items + [item])[0] == items[0];
      PrefixAppend(items[1..], item);
    } else {
      assert [item][1..] == [];
    }
  }

  lemma {:induction false} PrefixOfFull(items: seq<Value>, i: nat)
    requires i < |items| && |NormalisedPrefix(items[..i])| == i && Normalise(items[i]).None?
    ensures |NormalisedPrefix(items)| == i
    decreases i
  {
    if i > 0 {
      assert items[..i][0] == items[0] && items[..i][1..] == items[1..][..i - 1];
      PrefixOfFull(items[1..], i - 1);
    }
  }
}
