/** `ChatGateway`: the WebSocket gateway that admits a connection by its origin, keeps one
    session entry per open socket, and turns each raw message into a client event for the
    session's usecase or into an error reply. Sockets are named by a `ClientId`; what the
    gateway does to them (a send, a close, a call into the usecase) is recorded, in order,
    in `trace`. The usecase itself is `ProcessClientEvent.Usecase`; here a call into it is
    the `Dispatched` effect, and whether that call throws is a parameter. */
module Gateway {
  import opened Wrappers
  import opened Json
  import opened Domain
  import opened Schemas
  import opened Metrics

  type ClientId = nat

  /** What the gateway does to the outside world. */
  datatype Effect =
    | Sent(client: ClientId, event: ServerEvent)
    | Closed(client: ClientId, code: int, reason: string)
    | Dispatched(client: ClientId, clientEvent: ClientEvent)

  /** The close code for a policy violation (section 7.4.1 of RFC 6455). */
  const PolicyViolation := 1008

  /** `sessions` maps every open socket to its session's id. */
  datatype GatewayState = GatewayState(sessions: map<ClientId, string>, trace: seq<Effect>, metrics: Tables)

  /** `origin_allowed`: a `*` in the configured list allows every origin; otherwise the
      origin must be non-empty and listed. */
  function OriginAllowed(allowed: seq<string>, origin: string): (r: bool)
    ensures "*" in allowed ==> r
    ensures "*" !in allowed ==> (r <==> origin != "" && origin in allowed)
  {
    if "*" in allowed then true
    else if origin == "" then false
    else origin in allowed
  }

  /** What `handle_message` does with a message of a registered socket, when the usecase
      call (if any) throws or not. */
  function MessageEffects(client: ClientId, raw: string, parse: JsonParser, usecaseThrows: bool): seq<Effect> {
    match parse(raw)
    case None => [Sent(client, ErrorEvent("invalid_json", None))]
    case Some(j) =>
      match ParseClientEvent(j)
      case None => [Sent(client, ErrorEvent("invalid_payload", None))]
      case Some(e) =>
        [Dispatched(client, e)] + (if usecaseThrows then [Sent(client, ErrorEvent("internal_error", None))] else [])
  }

  /** `handleConnection`; `sessionId` is the id the new session draws. */
  function ConnectSpec(st: GatewayState, allowed: seq<string>, client: ClientId, origin: string,
                       sessionId: string): GatewayState
  {
    if !OriginAllowed(allowed, origin) then
      st.(trace := st.trace + [Closed(client, PolicyViolation, "origin_not_allowed")])
    else
      st.(sessions := st.sessions[client := sessionId], metrics := Inc(st.metrics, "ws_connections_total", 1),
          trace := st.trace + [Sent(client, SessionCreated(sessionId))])
  }

  /** `handleDisconnect`. */
  function DisconnectSpec(st: GatewayState, client: ClientId): GatewayState {
    if client !in st.sessions then st
    else st.(sessions := st.sessions - {client}, metrics := Inc(st.metrics, "ws_disconnects_total", 1))
  }

  /** `handle_message`. */
  function MessageSpec(st: GatewayState, client: ClientId, raw: string, parse: JsonParser,
                       usecaseThrows: bool): GatewayState
  {
    if client !in st.sessions then st
    else st.(trace := st.trace + MessageEffects(client, raw, parse, usecaseThrows))
  }

  class ChatGateway {
    /** `env.ws_allowed_origins`. */
    const allowed: seq<string>
    const registry: Registry
    var sessions: map<ClientId, string>
    var trace: seq<Effect>

    function State(): GatewayState
      reads this, registry
    {
      GatewayState(sessions, trace, registry.State())
    }

    constructor (allowed: seq<string>, registry: Registry)
      ensures this.allowed == allowed && this.registry == registry
      ensures State() == GatewayState(map[], [], registry.State())
    {
      this.allowed := allowed;
      this.registry := registry;
      sessions := map[];
      trace := [];
    }

    /** `safe_send`; a failing send is only logged by the source, and is not modelled. */
    method SafeSend(client: ClientId, e: ServerEvent)
      modifies this
      ensures State() == old(State()).(trace := old(State()).trace + [Sent(client, e)])
    {
      trace := trace + [Sent(client, e)];
    }

    method HandleConnection(client: ClientId, origin: string, sessionId: string)
      modifies this, registry
      ensures State() == ConnectSpec(old(State()), allowed, client, origin, sessionId)
    {
      if !OriginAllowed(allowed, origin) {
        trace := trace + [Closed(client, PolicyViolation, "origin_not_allowed")];
        return;
      }
      sessions := sessions[client := sessionId];
      registry.IncrementCounter("ws_connections_total", 1);
      SafeSend(client, SessionCreated(sessionId));
    }

    method HandleDisconnect(client: ClientId)
      modifies this, registry
      ensures State() == DisconnectSpec(old(State()), client)
    {
      if client !in sessions {
        return;
      }
      sessions := sessions - {client};
      registry.IncrementCounter("ws_disconnects_total", 1);
    }

    method HandleMessage(client: ClientId, raw: string, parse: JsonParser, usecaseThrows: bool)
      modifies this
      ensures State() == MessageSpec(old(State()), client, raw, parse, usecaseThrows)
    {
      if client !in sessions {
        return;
      }
      var parsed := parse(raw);
      if parsed.None? {
        SafeSend(client, ErrorEvent("invalid_json", None));
        return;
      }
      var validation := ParseClientEvent(parsed.value);
      if validation.None? {
        SafeSend(client, ErrorEvent("invalid_payload", None));
        return;
      }
      trace := trace + [Dispatched(client, validation.value)];
      if usecaseThrows {
        SafeSend(client, ErrorEvent("internal_error", None));
      }
    }
  }
}
