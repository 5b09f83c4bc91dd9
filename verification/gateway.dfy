/**
 * The WebSocket gateway: admission of an upgrade request (origin allow-list, then a
 * `Bearer` token), the set of connected clients, broadcast to the open ones, and shutdown.
 * Token signing and verification are a parameter `valid(secret, token)`; the transport is
 * replaced by a record of what is sent to and closed on each client.
 */
module Gateway {
  import opened Wrappers
  import Json

  type ClientId = nat

  /** The handshake's answer: accepted, or refused with a status code and the reason. */
  datatype Admission = Accepted | Refused(code: int, reason: string)

  /** What the gateway writes to clients. */
  datatype Output =
    | Sent(client: ClientId, data: string)
    | Closed(client: ClientId, code: int, reason: string)

  /** The events the gateway emits. */
  datatype Event =
    | ConnectionEvent(client: ClientId)
    | MessageEvent(message: Json.Value, client: ClientId)
    | DisconnectEvent(client: ClientId)

  const BearerPrefix := "Bearer "
  const MissingAuthMessage := "Missing or invalid Authorization header"
  const InvalidTokenMessage := "Invalid token"
  /** The close code for "going away" (section 7.4.1 of RFC 6455). */
  const GoingAway := 1001
  const ShutdownReason := "Server shutting down"
  /** The reply to a frame that is not JSON: the serialisation of `{ error: 'Invalid JSON' }`. */
  const InvalidJsonReply := "{\"error\":\"Invalid JSON\"}"
  const Issuer := "crevnclaw"

  function OriginRejectedMessage(origin: string): string
  {
    "Origin " + origin + " not allowed"
  }

  /**
   * `verifyClient(req)`: a present, non-empty origin must be on a non-empty allow-list;
   * then the Authorization header must start with exactly `Bearer `, and the rest of it
   * must be a valid token. The first failing check decides the reason.
   */
  function VerifyClient(origin: Option<string>, authorization: Option<string>, allowlist: seq<string>,
                        secret: string, valid: (string, string) -> bool): (r: Result<()>)
    ensures r.Ok? <==>
      (origin.None? || origin.value == "" || |allowlist| == 0 || origin.value in allowlist) &&
      authorization.Some? && |authorization.value| >= 7 && authorization.value[..7] == BearerPrefix &&
      valid(secret, authorization.value[7..])
  {
    if origin.Some? && origin.value != "" && |allowlist| > 0 && origin.value !in allowlist then
      Err(OriginRejectedMessage(origin.value))
    else if authorization.None? || authorization.value == "" || !(BearerPrefix <= authorization.value) then
      Err(MissingAuthMessage)
    else if !valid(secret, authorization.value[|BearerPrefix|..]) then
      Err(InvalidTokenMessage)
    else Ok(())
  }

  /** The origin check comes first: a disallowed origin is refused whatever the credentials. */
  lemma OriginCheckedFirst(origin: string, authorization: Option<string>, allowlist: seq<string>,
                           secret: string, valid: (string, string) -> bool)
    requires origin != "" && |allowlist| > 0 && origin !in allowlist
    ensures VerifyClient(Some(origin), authorization, allowlist, secret, valid) == Err(OriginRejectedMessage(origin))
  {
  }

  /** A missing header, or one not starting with exactly `Bearer ` (case included), is refused as such. */
  lemma BearerRequired(origin: Option<string>, authorization: Option<string>, allowlist: seq<string>,
                       secret: string, valid: (string, string) -> bool)
    requires origin.None? || origin.value == "" || |allowlist| == 0 || origin.value in allowlist
    requires authorization.None? || !(BearerPrefix <= authorization.value)
    ensures VerifyClient(origin, authorization, allowlist, secret, valid) == Err(MissingAuthMessage)
    ensures VerifyClient(origin, Some("bearer x"), allowlist, secret, valid) == Err(MissingAuthMessage)
  {
    assert !(BearerPrefix <= "bearer x") by { assert "bearer x"[0] != BearerPrefix[0]; }
  }

  /** The token checked is the header with its first seven characters dropped. */
  lemma TokenIsRestOfHeader(token: string, allowlist: seq<string>, secret: string, valid: (string, string) -> bool)
    ensures VerifyClient(None, Some(BearerPrefix + token), allowlist, secret, valid).Ok? <==> valid(secret, token)
  {
    assert (BearerPrefix + token)[|BearerPrefix|..] == token;
    assert BearerPrefix <= BearerPrefix + token;
  }

  /** The handshake answer for a verification result: a refusal is a 401 with the check's message. */
  function AdmissionOf(verified: Result<()>): (r: Admission)
    ensures r.Accepted? <==> verified.Ok?
    ensures r.Refused? ==> r.code == 401 && r.reason != ""
    ensures r.Refused? && verified.message != "" ==> r.reason == verified.message
  {
    match verified
    case Ok(_) => Accepted
    case Err(message) => Refused(401, if message != "" then message else "Unauthorized")
  }

  /** `generateToken(payload)`: the claims signed are the caller's, with `iss` forced to `crevnclaw`. */
  function TokenClaims(payload: Json.Object): (r: Json.Object)
    ensures "iss" in r && r["iss"] == Json.Str(Issuer)
    ensures r.Keys == payload.Keys + {"iss"}
    ensures forall k :: k in payload && k != "iss" ==> r[k] == payload[k]
  {
    Json.Spread(payload, map["iss" := Json.Str(Issuer)])
  }

  // ---------------------------------------------------------------------------------
  // The client set.
  // ---------------------------------------------------------------------------------

  /** A set kept in insertion order, as a JavaScript `Set` iterates. */
  ghost predicate Distinct(clients: seq<ClientId>)
  {
    forall i, j :: 0 <= i < j < |clients| ==> clients[i] != clients[j]
  }

  /** `clients.add(ws)`. */
  function WithClient(clients: seq<ClientId>, ws: ClientId): (r: seq<ClientId>)
    ensures Distinct(clients) ==> Distinct(r)
    ensures ws in r && forall c :: c in clients ==> c in r
    ensures forall c :: c in r ==> c == ws || c in clients
    ensures |r| == if ws in clients then |clients| else |clients| + 1
  {
    if ws in clients then clients else clients + [ws]
  }

  /** `clients.delete(ws)`. */
  function WithoutClient(clients: seq<ClientId>, ws: ClientId): (r: seq<ClientId>)
    ensures Distinct(clients) ==> Distinct(r)
    ensures ws !in r && forall c :: c in r <==> c in clients && c != ws
    ensures Distinct(clients) ==> |r| == if ws in clients then |clients| - 1 else |clients|
  {
    if clients == [] then []
    else if clients[0] == ws then
      var rest := WithoutClient(clients[1..], ws);
      assert Distinct(clients) ==> ws !in clients[1..];
      rest
    else
      var rest := WithoutClient(clients[1..], ws);
      assert Distinct(clients) ==> Distinct(clients[1..]) && clients[0] !in clients[1..];
      [clients[0]] + rest
  }

  /** What `broadcast` writes: the same payload to each open client, in set order. */
  function BroadcastOutputs(clients: seq<ClientId>, isOpen: ClientId -> bool, payload: string): (r: seq<Output>)
    ensures forall o :: o in r ==> o.Sent? && o.data == payload && o.client in clients && isOpen(o.client)
    ensures forall c :: c in clients && isOpen(c) ==> Sent(c, payload) in r
  {
    if clients == [] then []
    else (if isOpen(clients[0]) then [Sent(clients[0], payload)] else []) + BroadcastOutputs(clients[1..], isOpen, payload)
  }

  /** What `shutdown` writes: a going-away close to every client, in set order. */
  function ShutdownOutputs(clients: seq<ClientId>): (r: seq<Output>)
    ensures |r| == |clients|
    ensures forall i :: 0 <= i < |r| ==> r[i] == Closed(clients[i], GoingAway, ShutdownReason)
  {
    seq(|clients|, i requires 0 <= i < |clients| => Closed(clients[i], GoingAway, ShutdownReason))
  }

  /** A broadcast reaches each open client exactly once, in a set without repeats. */
  lemma {:induction false} BroadcastOncePerOpenClient(clients: seq<ClientId>, isOpen: ClientId -> bool, payload: string, c: ClientId)
    requires Distinct(clients)
    ensures multiset(BroadcastOutputs(clients, isOpen, payload))[Sent(c, payload)] ==
            if c in clients && isOpen(c) then 1 else 0
  {
    if clients != [] {
      assert Distinct(clients[1..]);
      BroadcastOncePerOpenClient(clients[1..], isOpen, payload, c);
      if clients[0] == c {
        assert c !in clients[1..];
      }
    }
  }

  /** The set of sockets a client list stands for (the source keeps a `Set`). */
  ghost function Members(clients: seq<ClientId>): set<ClientId>
  {
    set c | c in clients
  }

  /** A list of distinct sockets has as many elements as the set it stands for. */
  lemma {:induction false} DistinctSize(clients: seq<ClientId>)
    requires Distinct(clients)
    ensures |Members(clients)| == |clients|
  {
    if clients != [] {
      assert Distinct(clients[1..]);
      DistinctSize(clients[1..]);
      assert clients[0] !in Members(clients[1..]);
      assert Members(clients) == {clients[0]} + Members(clients[1..]);
    }
  }

  /**
   * `GatewayServer`: the connected clients, the events emitted, and everything written to
   * clients. `listening` stands for the underlying server object being present.
   */
  class GatewayServer {
    const allowlist: seq<string>
    const secret: string
    var listening: bool
    var clients: seq<ClientId>
    var events: seq<Event>
    var outputs: seq<Output>

    ghost predicate Valid()
      reads this
    {
      Distinct(clients)
    }

    constructor (allowlist: seq<string>, secret: string)
      ensures Valid() && this.allowlist == allowlist && this.secret == secret
      ensures !listening && clients == [] && events == [] && outputs == []
    {
      this.allowlist := allowlist;
      this.secret := secret;
      listening := false;
      clients := [];
      events := [];
      outputs := [];
    }

    /** `start()`. */
    method Start()
      modifies this
      ensures listening && clients == old(clients) && events == old(events) && outputs == old(outputs)
    {
      listening := true;
    }

    /**
     * An upgrade request from socket `ws`: verified first; an accepted socket joins the
     * set and `connection` is emitted; a refused one is answered 401 and nothing changes.
     */
    method Upgrade(ws: ClientId, origin: Option<string>, authorization: Option<string>,
                   valid: (string, string) -> bool) returns (answer: Admission)
      requires Valid()
      modifies this
      ensures Valid()
      ensures answer == AdmissionOf(VerifyClient(origin, authorization, allowlist, secret, valid))
      ensures answer.Refused? ==> clients == old(clients) && events == old(events)
      ensures answer.Accepted? ==> clients == WithClient(old(clients), ws) &&
                                   events == old(events) + [ConnectionEvent(ws)]
      ensures outputs == old(outputs) && listening == old(listening)
    {
      var verified := VerifyClient(origin, authorization, allowlist, secret, valid);
      answer := AdmissionOf(verified);
      if answer.Accepted? {
        clients := WithClient(clients, ws);
        events := events + [ConnectionEvent(ws)];
      }
    }

    /** A client's `message`: JSON is re-emitted as `message`; anything else gets the `Invalid JSON` reply. */
    method Receive(ws: ClientId, data: string, parse: string -> Option<Json.Value>)
      modifies this
      ensures clients == old(clients) && listening == old(listening)
      ensures parse(data).Some? ==> events == old(events) + [MessageEvent(parse(data).value, ws)] && outputs == old(outputs)
      ensures parse(data).None? ==> events == old(events) && outputs == old(outputs) + [Sent(ws, InvalidJsonReply)]
    {
      var message := parse(data);
      if message.Some? {
        events := events + [MessageEvent(message.value, ws)];
      } else {
        outputs := outputs + [Sent(ws, InvalidJsonReply)];
      }
    }

    /** A client's `close`: it leaves the set and `disconnect` is emitted. */
    method Close(ws: ClientId)
      requires Valid()
      modifies this
      ensures Valid()
      ensures clients == WithoutClient(old(clients), ws) && events == old(events) + [DisconnectEvent(ws)]
      ensures outputs == old(outputs) && listening == old(listening)
    {
      clients := WithoutClient(clients, ws);
      events := events + [DisconnectEvent(ws)];
    }

    /** `broadcast(data)`: serialised once, sent to each client whose socket is open. */
    method Broadcast(data: Json.Value, stringify: Json.Value -> string, isOpen: ClientId -> bool)
      modifies this
      ensures outputs == old(outputs) + BroadcastOutputs(clients, isOpen, stringify(data))
      ensures clients == old(clients) && events == old(events) && listening == old(listening)
    {
      var payload := stringify(data);
      for i := 0 to |clients|
        invariant clients == old(clients) && events == old(events) && listening == old(listening)
        invariant outputs == old(outputs) + BroadcastOutputs(clients[..i], isOpen, payload)
      {
        assert clients[..i + 1] == clients[..i] + [clients[i]];
        BroadcastAppend(clients[..i], clients[i], isOpen, payload);
        if isOpen(clients[i]) {
          outputs := outputs + [Sent(clients[i], payload)];
        }
      }
      assert clients[..|clients|] == clients;
    }

    /** `getClientCount()`: the size of the set of connected sockets. */
    function GetClientCount(): (n: nat)
      reads this
      ensures Valid() ==> n == |Members(clients)|
    {
      assert Valid() ==> |Members(clients)| == |clients| by {
        if Valid() { DistinctSize(clients); }
      }
      |clients|
    }

    /** `shutdown()`: every client is closed with code 1001, then the set is emptied. */
    method Shutdown()
      modifies this
      ensures outputs == old(outputs) + ShutdownOutputs(old(clients))
      ensures clients == [] && events == old(events) && !listening
    {
      for i := 0 to |clients|
        invariant clients == old(clients) && events == old(events)
        invariant outputs == old(outputs) + ShutdownOutputs(clients[..i])
      {
        assert ShutdownOutputs(clients[..i + 1]) == ShutdownOutputs(clients[..i]) + [Closed(clients[i], GoingAway, ShutdownReason)];
        outputs := outputs + [Closed(clients[i], GoingAway, ShutdownReason)];
      }
      assert clients[..|clients|] == clients;
      clients := [];
      listening := false;
    }
  }

  lemma {:induction false} BroadcastAppend(clients: seq<ClientId>, c: ClientId, isOpen: ClientId -> bool, payload: string)
    ensures BroadcastOutputs(clients + [c], isOpen, payload) ==
            BroadcastOutputs(clients, isOpen, payload) + (if isOpen(c) then [Sent(c, payload)] else [])
  {
    if clients != [] {
      assert (clients + [c])[1..] == clients[1..] + [c];
      BroadcastAppend(clients[1..], c, isOpen, payload);
    }
  }

  /**
   * The client count follows connections: admitting a new socket adds one, closing a
   * member removes one, so the count is always the number of distinct connected sockets.
   */
  lemma ClientCountTracksSet(clients: seq<ClientId>, ws: ClientId)
    requires Distinct(clients)
    ensures ws !in clients ==> |WithClient(clients, ws)| == |clients| + 1
    ensures ws in clients ==> |WithoutClient(clients, ws)| == |clients| - 1
    ensures |WithoutClient(WithClient(clients, ws), ws)| == if ws in clients then |clients| - 1 else |clients|
  {
  }
}
