/** What the gateway promises about admission, the session map and message handling. */
module GatewayProperties {
  import opened Wrappers
  import opened Json
  import opened Domain
  import opened Schemas
  import opened Metrics
  import opened SeqLemmas
  import opened Gateway

  // ---------------------------------------------------------------- connections

  /** A refused origin gets one close with code 1008 and leaves no entry and no count. */
  lemma RefusedOriginRegistersNothing(st: GatewayState, allowed: seq<string>, client: ClientId,
                                      origin: string, sessionId: string)
    requires !OriginAllowed(allowed, origin)
    ensures var r := ConnectSpec(st, allowed, client, origin, sessionId);
            && r.sessions == st.sessions && r.metrics == st.metrics
            && r.trace == st.trace + [Closed(client, 1008, "origin_not_allowed")]
  {
  }

  /** An admitted socket gets one entry, one count and one `session_created` with its id. */
  lemma AdmittedOriginRegisters(st: GatewayState, allowed: seq<string>, client: ClientId,
                                origin: string, sessionId: string)
    requires OriginAllowed(allowed, origin)
    ensures var r := ConnectSpec(st, allowed, client, origin, sessionId);
            && r.sessions == st.sessions[client := sessionId]
            && |r.sessions| == |st.sessions| + (if client in st.sessions then 0 else 1)
            && CounterValue(r.metrics, "ws_connections_total") == CounterValue(st.metrics, "ws_connections_total") + 1
            && r.trace == st.trace + [Sent(client, SessionCreated(sessionId))]
  {
    var r := ConnectSpec(st, allowed, client, origin, sessionId);
    if client !in st.sessions {
      assert r.sessions.Keys == st.sessions.Keys + {client};
    } else {
      assert r.sessions.Keys == st.sessions.Keys;
    }
  }

  /** Disconnecting removes the socket's entry and touches no other. */
  lemma DisconnectRemovesEntry(st: GatewayState, client: ClientId)
    ensures var r := DisconnectSpec(st, client);
            && client !in r.sessions && r.trace == st.trace
            && (forall c :: c != client ==> (c in r.sessions <==> c in st.sessions))
            && (forall c :: c != client && c in st.sessions ==> r.sessions[c] == st.sessions[c])
  {
  }

  /** A socket the gateway never registered can disconnect without effect. */
  lemma UnknownDisconnectIsNoop(st: GatewayState, client: ClientId)
    requires client !in st.sessions
    ensures DisconnectSpec(st, client) == st
  {
  }

  /** Opening and closing a new socket leaves the session map as it was. */
  lemma ConnectThenDisconnect(st: GatewayState, allowed: seq<string>, client: ClientId,
                              origin: string, sessionId: string)
    requires client !in st.sessions
    ensures DisconnectSpec(ConnectSpec(st, allowed, client, origin, sessionId), client).sessions == st.sessions
  {
    var r := DisconnectSpec(ConnectSpec(st, allowed, client, origin, sessionId), client);
    if OriginAllowed(allowed, origin) {
      assert r.sessions == st.sessions[client := sessionId] - {client};
      assert r.sessions.Keys == st.sessions.Keys;
    }
  }

  // ---------------------------------------------------------------- messages

  /** A message from a socket without an entry does nothing. */
  lemma UnknownMessageIsNoop(st: GatewayState, client: ClientId, raw: string, parse: JsonParser, throws: bool)
    requires client !in st.sessions
    ensures MessageSpec(st, client, raw, parse, throws) == st
  {
  }

  /** Text that is not JSON gets exactly `invalid_json`. */
  lemma NonJsonRejected(st: GatewayState, client: ClientId, raw: string, parse: JsonParser, throws: bool)
    requires client in st.sessions && parse(raw).None?
    ensures MessageSpec(st, client, raw, parse, throws) ==
              st.(trace := st.trace + [Sent(client, ErrorEvent("invalid_json", None))])
  {
  }

  /** JSON that is not a client event gets exactly `invalid_payload`, and the usecase is not
      called. */
  lemma InvalidPayloadRejected(st: GatewayState, client: ClientId, raw: string, j: Json,
                               parse: JsonParser, throws: bool)
    requires client in st.sessions && parse(raw) == Some(j) && ParseClientEvent(j).None?
    ensures MessageSpec(st, client, raw, parse, throws) ==
              st.(trace := st.trace + [Sent(client, ErrorEvent("invalid_payload", None))])
  {
  }

  /** The usecase is called for a message exactly when the socket is registered and the text
      parses and validates; it is then called once, with the validated event. */
  lemma DispatchExactlyWhenValid(st: GatewayState, client: ClientId, raw: string, parse: JsonParser, throws: bool)
    ensures var added := MessageSpec(st, client, raw, parse, throws).trace[|st.trace|..];
            && ((exists k :: 0 <= k < |added| && added[k].Dispatched?) <==>
                  client in st.sessions && parse(raw).Some? && ParseClientEvent(parse(raw).value).Some?)
            && (forall k :: 0 <= k < |added| && added[k].Dispatched? ==>
                  k == 0 && added[k] == Dispatched(client, ParseClientEvent(parse(raw).value).value))
  {
    var r := MessageSpec(st, client, raw, parse, throws);
    if client in st.sessions {
      var effects := MessageEffects(client, raw, parse, throws);
      assert r.trace[|st.trace|..] == effects;
      if parse(raw).Some? && ParseClientEvent(parse(raw).value).Some? {
        assert effects[0].Dispatched?;
      }
    } else {
      assert r.trace[|st.trace|..] == [];
    }
  }

  /** An event the browser serialises reaches the usecase unchanged; a usecase that throws
      is answered with `internal_error` after the call. */
  lemma BrowserEventDispatched(st: GatewayState, client: ClientId, raw: string, e: ClientEvent,
                               parse: JsonParser, throws: bool)
    requires client in st.sessions && parse(raw) == Some(ClientEventJson(e))
    requires match e
             case UserMessageEvent(text) => text != ""
             case ToolApproval(id, _) => id != ""
    ensures MessageSpec(st, client, raw, parse, throws).trace ==
              st.trace + [Dispatched(client, e)]
                       + (if throws then [Sent(client, ErrorEvent("internal_error", None))] else [])
  {
    ClientEventRoundTrip(e);
    SeqAssoc(st.trace, [Dispatched(client, e)],
             if throws then [Sent(client, ErrorEvent("internal_error", None))] else []);
  }

  // ---------------------------------------------------------------- the gateway's invariant

  /** Every registered socket was told its session id, and every call into a usecase comes
      after the `session_created` of that socket. */
  predicate Inv(st: GatewayState) {
    && (forall c :: c in st.sessions ==> Sent(c, SessionCreated(st.sessions[c])) in st.trace)
    && (forall k :: 0 <= k < |st.trace| && st.trace[k].Dispatched? ==> CreatedBefore(st.trace, k))
  }

  predicate CreatedBefore(trace: seq<Effect>, k: nat)
    requires k < |trace|
  {
    exists j :: 0 <= j < k && trace[j].Sent? && trace[j].event.SessionCreated? && trace[j].client == trace[k].client
  }

  lemma InitialInv(metrics: Tables)
    ensures Inv(GatewayState(map[], [], metrics))
  {
  }

  /** Appending effects keeps the earlier calls' `CreatedBefore`. */
  lemma CreatedBeforeAppend(trace: seq<Effect>, more: seq<Effect>, k: nat)
    requires k < |trace| && CreatedBefore(trace, k)
    ensures CreatedBefore(trace + more, k)
  {
    var j :| 0 <= j < k && trace[j].Sent? && trace[j].event.SessionCreated? && trace[j].client == trace[k].client;
    assert (trace + more)[j] == trace[j];
  }

  lemma AppendKeepsCalls(st: GatewayState, more: seq<Effect>)
    requires Inv(st)
    requires forall k :: 0 <= k < |more| ==> !more[k].Dispatched?
    ensures forall k :: 0 <= k < |st.trace + more| && (st.trace + more)[k].Dispatched? ==>
              CreatedBefore(st.trace + more, k)
  {
    forall k | 0 <= k < |st.trace + more| && (st.trace + more)[k].Dispatched?
      ensures CreatedBefore(st.trace + more, k)
    {
      if k < |st.trace| {
        CreatedBeforeAppend(st.trace, more, k);
      }
    }
  }

  lemma ConnectKeepsInv(st: GatewayState, allowed: seq<string>, client: ClientId, origin: string, sessionId: string)
    requires Inv(st)
    ensures Inv(ConnectSpec(st, allowed, client, origin, sessionId))
  {
    var r := ConnectSpec(st, allowed, client, origin, sessionId);
    var more := r.trace[|st.trace|..];
    assert r.trace == st.trace + more;
    AppendKeepsCalls(st, more);
    forall c | c in r.sessions
      ensures Sent(c, SessionCreated(r.sessions[c])) in r.trace
    {
      if c != client || !OriginAllowed(allowed, origin) {
        var k :| 0 <= k < |st.trace| && st.trace[k] == Sent(c, SessionCreated(st.sessions[c]));
        assert r.trace[k] == st.trace[k];
      } else {
        assert r.trace[|st.trace|] == Sent(c, SessionCreated(r.sessions[c]));
      }
    }
  }

  lemma DisconnectKeepsInv(st: GatewayState, client: ClientId)
    requires Inv(st)
    ensures Inv(DisconnectSpec(st, client))
  {
  }

  lemma MessageKeepsInv(st: GatewayState, client: ClientId, raw: string, parse: JsonParser, throws: bool)
    requires Inv(st)
    ensures Inv(MessageSpec(st, client, raw, parse, throws))
  {
    if client in st.sessions {
      var r := MessageSpec(st, client, raw, parse, throws);
      var k0 :| 0 <= k0 < |st.trace| && st.trace[k0] == Sent(client, SessionCreated(st.sessions[client]));
      forall c | c in r.sessions
        ensures Sent(c, SessionCreated(r.sessions[c])) in r.trace
      {
        var k :| 0 <= k < |st.trace| && st.trace[k] == Sent(c, SessionCreated(st.sessions[c]));
        assert r.trace[k] == st.trace[k];
      }
      forall k | 0 <= k < |r.trace| && r.trace[k].Dispatched?
        ensures CreatedBefore(r.trace, k)
      {
        if k < |st.trace| {
          CreatedBeforeAppend(st.trace, MessageEffects(client, raw, parse, throws), k);
        } else {
          assert r.trace[k0] == st.trace[k0];
          assert r.trace[k].client == client;
        }
      }
    }
  }
}
