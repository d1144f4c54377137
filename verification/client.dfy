/**
 * client.go: the InitProxy request a client sends for each accepted
 * TCP connection, and the register / unregister step of the accept
 * loop around it. The wait for the Response is its own step
 * (`FinishInitProxy`), so that the dispatcher can deliver the Response
 * in between.
 */
module Client {
  import opened Wrappers
  import opened Bytes
  import opened Text
  import opened Packet
  import opened Engine
  import opened Utils
  import opened Connection
  import opened Server

  /** `LocalHost:LocalPort:RemoteHost:RemotePort:connectionID`, numbers in decimal. */
  function InitProxyPayload(m: PortMapping, connectionID: uint32): (r: seq<uint8>)
    ensures Colon !in m.localHost && Colon !in m.remoteHost ==> Occurrences(r, Colon) == 4
  {
    var fields := [m.localHost, FormatInt(m.localPort), m.remoteHost, FormatInt(m.remotePort), FormatNat(connectionID)];
    var r := Join(fields, Colon);
    assert Colon !in m.localHost && Colon !in m.remoteHost ==> Occurrences(r, Colon) == 4 by {
      if Colon !in m.localHost && Colon !in m.remoteHost {
        FormatIntIsPlain(m.localPort);
        FormatIntIsPlain(m.remotePort);
        FormatIntIsPlain(connectionID);
        SplitJoin(fields, Colon);
        SplitCount(r, Colon);
      }
    }
    r
  }

  /**
   * For colon-free hosts the server splits the payload into exactly the
   * five fields the client put in: it dials the mapping's remote
   * `host:port`, and the forwarder it starts carries the local host and
   * port and the client's connection ID.
   */
  lemma InitProxyPayloadParses(m: PortMapping, connectionID: uint32)
    requires Colon !in m.localHost && Colon !in m.remoteHost
    ensures var f := ParseInitProxy(InitProxyPayload(m, connectionID));
      f == Some(InitProxyFields(m.localHost, m.localPort, m.remoteHost, m.remotePort, connectionID)) &&
      SplitHostPort(DialAddress(f.value)) == Ok(HostPort(m.remoteHost, m.remotePort))
  {
    var fields := [m.localHost, FormatInt(m.localPort), m.remoteHost, FormatInt(m.remotePort), FormatNat(connectionID)];
    FormatIntIsPlain(m.localPort);
    FormatIntIsPlain(m.remotePort);
    FormatIntIsPlain(connectionID);
    InitProxyAcceptsAnyFiveFields(fields);
    AtoiFormatInt(m.localPort);
    AtoiFormatInt(m.remotePort);
    ParseUint32FormatNat(connectionID);
    SplitHostPortFormatted(m.remoteHost, m.remotePort);
  }

  /** Every mapping `parsePortMappings` produces yields an InitProxy request the server accepts as sent. */
  lemma ParsedMappingReachesServer(mappings: seq<uint8>, i: nat, connectionID: uint32)
    requires ParsePortMappings(mappings).Ok? && i < |ParsePortMappings(mappings).value|
    ensures var m := ParsePortMappings(mappings).value[i];
      ParseInitProxy(InitProxyPayload(m, connectionID)) ==
        Some(InitProxyFields(m.localHost, m.localPort, m.remoteHost, m.remotePort, connectionID))
  {
    ParsedHostsHaveNoColon(mappings);
    var m := ParsePortMappings(mappings).value[i];
    assert m in ParsePortMappings(mappings).value;
    InitProxyPayloadParses(m, connectionID);
  }

  /**
   * The whole trip of an InitProxy request: the frame `SendRequest`
   * queues, read back on the other side, is an InitProxy packet whose
   * request ID and fields are the ones the client sent.
   */
  lemma InitProxyRequestArrives(m: PortMapping, connectionID: uint32, requestID: uint32, rest: seq<uint8>)
    requires Colon !in m.localHost && Colon !in m.remoteHost
    requires 4 + |InitProxyPayload(m, connectionID)| <= MaxUint16
    ensures var d := DecodeFrame(Frame(InitProxy, BE32(requestID) + InitProxyPayload(m, connectionID)) + rest);
      d.Ok? && d.value.rest == rest && d.value.packet.ptype == InitProxy &&
      |d.value.packet.payload| >= 4 &&
      GetPacketRequestID(d.value.packet) == (requestID, InitProxyPayload(m, connectionID)) &&
      ParseInitProxy(GetPacketRequestID(d.value.packet).1) ==
        Some(InitProxyFields(m.localHost, m.localPort, m.remoteHost, m.remotePort, connectionID))
  {
    var payload := BE32(requestID) + InitProxyPayload(m, connectionID);
    FrameRoundTrip(InitProxy, payload, rest);
    RequestIDPrefixRoundTrip(requestID, InitProxyPayload(m, connectionID), InitProxy);
    InitProxyPayloadParses(m, connectionID);
  }

  datatype ClientError = RequestFailed(cause: RequestError) | ProxyRefused(message: seq<uint8>)

  /** The decision of `initProxy` on the outcome of its request. */
  function InitProxyResult(outcome: Result<ResponsePacket, RequestError>): (err: Option<ClientError>)
    ensures err == None <==> outcome.Ok? && outcome.value.success
    ensures outcome == Err(Timeout) ==> err == Some(RequestFailed(Timeout))
  {
    match outcome
    case Err(e) => Some(RequestFailed(e))
    case Ok(response) =>
      if response.success then None else Some(ProxyRefused(Ascii("failed to init proxy: ") + response.message))
  }

  /** The sending half of `initProxy`: an InitProxy request with the formatted payload. */
  method StartInitProxy(st: State, m: PortMapping, connectionID: uint32) returns (requestID: uint32)
    requires st.Valid()
    modifies st`nextRequestID, st`pending, st`replies, st`outgoing
    ensures st.Valid()
    ensures requestID == old(st.nextRequestID) && st.nextRequestID == Successor(requestID)
    ensures st.pending == old(st.pending) + {requestID} && st.replies == old(st.replies) - {requestID}
    ensures st.outgoing ==
      old(st.outgoing) + [OutgoingPacket(InitProxy, BE32(requestID) + InitProxyPayload(m, connectionID))]
  {
    requestID := SendRequest(st, InitProxy, InitProxyPayload(m, connectionID));
  }

  /**
   * The waiting half of `initProxy`: success exactly when the Response
   * arrived before the timeout and reports success.
   */
  method FinishInitProxy(st: State, requestID: uint32) returns (err: Option<ClientError>)
    requires st.Valid()
    modifies st`pending, st`replies
    ensures st.Valid()
    ensures err == None <==> requestID in old(st.replies) && old(st.replies)[requestID].success
    ensures requestID !in old(st.replies) ==>
      err == Some(RequestFailed(Timeout)) &&
      st.pending == old(st.pending) - {requestID} && st.replies == old(st.replies)
    ensures requestID in old(st.replies) ==>
      st.pending == old(st.pending) && st.replies == old(st.replies) - {requestID}
  {
    var response := AwaitResponse(st, requestID);
    err := InitProxyResult(response);
  }

  /**
   * The accept loop up to the request (client.go:50-56): a fresh
   * connection ID, the socket registered under it, then the InitProxy
   * request for it.
   */
  method AcceptConnection(st: State, m: PortMapping, conn: Conn) returns (connectionID: uint32, requestID: uint32)
    requires st.Valid()
    modifies st`nextConnectionID, st`connections, st`nextRequestID, st`pending, st`replies, st`outgoing
    ensures st.Valid()
    ensures connectionID == old(st.nextConnectionID) && st.nextConnectionID == Successor(connectionID)
    ensures st.connections == old(st.connections)[connectionID := conn]
    ensures requestID == old(st.nextRequestID) && st.nextRequestID == Successor(requestID)
    ensures st.pending == old(st.pending) + {requestID} && st.replies == old(st.replies) - {requestID}
    ensures st.outgoing ==
      old(st.outgoing) + [OutgoingPacket(InitProxy, BE32(requestID) + InitProxyPayload(m, connectionID))]
  {
    connectionID := NextConnectionID(st);
    st.connections := st.connections[connectionID := conn];
    requestID := StartInitProxy(st, m, connectionID);
  }

  /** The `handleConnection` task the accept loop starts: a socket and the connection ID it was registered under. */
  datatype ClientForwarder = ClientForwarder(conn: Conn, connectionID: uint32)

  /**
   * The accept loop after the request (client.go:56-66): on failure
   * only this connection's entry is removed and its socket closed, and
   * no forwarder starts; on success nothing changes here and the
   * forwarder to start (`HandleConnection`) carries the same socket and
   * connection ID that were registered.
   */
  method CompleteAccept(st: State, conn: Conn, connectionID: uint32, requestID: uint32) returns (fwd: Option<ClientForwarder>)
    requires st.Valid()
    modifies st`connections, st`pending, st`replies, st`socketLog
    ensures st.Valid()
    ensures fwd.Some? <==> requestID in old(st.replies) && old(st.replies)[requestID].success
    ensures fwd.Some? ==> fwd.value == ClientForwarder(conn, connectionID)
    ensures fwd.Some? ==> st.connections == old(st.connections) && st.socketLog == old(st.socketLog)
    ensures fwd.None? ==>
      st.connections == old(st.connections) - {connectionID} &&
      st.socketLog == old(st.socketLog) + [SocketClose(conn)]
    ensures requestID !in old(st.replies) ==>
      st.pending == old(st.pending) - {requestID} && st.replies == old(st.replies)
    ensures requestID in old(st.replies) ==>
      st.pending == old(st.pending) && st.replies == old(st.replies) - {requestID}
  {
    var err := FinishInitProxy(st, requestID);
    if err.Some? {
      st.connections := st.connections - {connectionID};
      st.socketLog := st.socketLog + [SocketClose(conn)];
      return None;
    }
    return Some(ClientForwarder(conn, connectionID));
  }
}
