/**
 * connection.go: the connection-ID counter and the two forwarders that
 * turn what a TCP socket reads into Data frames, followed by one
 * ClosePort frame once the socket reports EOF or an error. A socket's
 * reads are given as the sequence of chunks it returns before that end.
 */
module Connection {
  import opened Wrappers
  import opened Bytes
  import opened Text
  import opened Packet
  import opened Engine

  /** `getNextConnectionID`: hand out the counter and advance it; the request counter is not touched. */
  method NextConnectionID(st: State) returns (id: uint32)
    modifies st`nextConnectionID
    ensures id == old(st.nextConnectionID) && st.nextConnectionID == Successor(id)
  {
    id := st.nextConnectionID;
    st.nextConnectionID := Successor(st.nextConnectionID);
  }

  /** A Data payload: the connection ID in four big-endian bytes, then the bytes read. */
  function DataPayload(connectionID: uint32, chunk: seq<uint8>): seq<uint8>
  {
    BE32(connectionID) + chunk
  }

  /** One Data packet per read, in read order. */
  function DataPackets(connectionID: uint32, chunks: seq<seq<uint8>>): (packets: seq<OutgoingPacket>)
    ensures |packets| == |chunks|
    ensures forall i :: 0 <= i < |chunks| ==>
      packets[i].ptype == Data && |packets[i].payload| == 4 + |chunks[i]| &&
      Uint32At(packets[i].payload) == connectionID && packets[i].payload[4..] == chunks[i]
  {
    BE32RoundTrip(connectionID);
    seq(|chunks|, i requires 0 <= i < |chunks| => OutgoingPacket(Data, DataPayload(connectionID, chunks[i])))
  }

  /** A read into the 8 KiB buffer returns at most 8 KiB. */
  predicate ReadsFit(chunks: seq<seq<uint8>>)
  {
    forall i :: 0 <= i < |chunks| ==> |chunks[i]| <= MaxPayloadSize
  }

  /**
   * Every Data payload a forwarder produces is at most 4 + 8192 bytes,
   * so its length field is never truncated and it reads back whole.
   */
  lemma DataPayloadFits(connectionID: uint32, chunks: seq<seq<uint8>>, i: nat, rest: seq<uint8>)
    requires ReadsFit(chunks) && i < |chunks|
    ensures var p := DataPackets(connectionID, chunks)[i];
      |p.payload| <= 4 + MaxPayloadSize &&
      DecodeFrame(Frame(p.ptype, p.payload) + rest) == Ok(Decoded(Packet(Data, 0, p.payload), rest))
  {
    var p := DataPackets(connectionID, chunks)[i];
    FrameRoundTrip(p.ptype, p.payload, rest);
  }

  // ---------------------------------------------------------------- forwarder steps
  // Each forwarder is a goroutine, so its effects are given one step at a
  // time: a caller can interleave these steps with the dispatcher's, and
  // the dispatcher then sees the registry as it is between them.

  /** `handleServerConnection`'s registration (connection.go:55-57): the socket is entered under its ID before any read. */
  method RegisterServerConnection(st: State, conn: Conn, connectionID: uint32)
    modifies st`connections
    ensures st.connections == old(st.connections)[connectionID := conn]
  {
    st.connections := st.connections[connectionID := conn];
  }

  /** One successful read of either forwarder: one Data packet tagged with the connection ID is queued. */
  method ForwardRead(st: State, connectionID: uint32, chunk: seq<uint8>)
    requires |chunk| <= MaxPayloadSize
    modifies st`outgoing
    ensures st.outgoing == old(st.outgoing) + [OutgoingPacket(Data, DataPayload(connectionID, chunk))]
  {
    st.outgoing := st.outgoing + [OutgoingPacket(Data, DataPayload(connectionID, chunk))];
  }

  /** The end of `handleConnection`: a ClosePort naming the connection ID, then the deferred close; the registry is left alone. */
  method FinishConnection(st: State, conn: Conn, connectionID: uint32)
    modifies st`outgoing, st`socketLog
    ensures st.outgoing == old(st.outgoing) + [OutgoingPacket(ClosePort, FormatNat(connectionID))]
    ensures st.socketLog == old(st.socketLog) + [SocketClose(conn)]
  {
    st.outgoing := st.outgoing + [OutgoingPacket(ClosePort, FormatNat(connectionID))];
    st.socketLog := st.socketLog + [SocketClose(conn)];
  }

  /**
   * The end of `handleServerConnection`: a ClosePort carrying the local
   * port, then the deferred calls in reverse order, removing the
   * registry entry and closing the socket.
   */
  method FinishServerConnection(st: State, conn: Conn, connectionID: uint32, localPort: int)
    modifies st`connections, st`outgoing, st`socketLog
    ensures st.outgoing == old(st.outgoing) + [OutgoingPacket(ClosePort, FormatInt(localPort))]
    ensures st.connections == old(st.connections) - {connectionID}
    ensures st.socketLog == old(st.socketLog) + [SocketClose(conn)]
  {
    st.outgoing := st.outgoing + [OutgoingPacket(ClosePort, FormatInt(localPort))];
    st.connections := st.connections - {connectionID};
    st.socketLog := st.socketLog + [SocketClose(conn)];
  }

  // ---------------------------------------------------------------- whole runs

  /**
   * `handleConnection` (the client side), run with no step of anyone
   * else in between: one Data packet per read, in order, then one
   * ClosePort naming the connection ID in decimal, and the socket is
   * closed. The registry is left alone, so the entry the accept loop
   * made stays behind.
   */
  method HandleConnection(st: State, conn: Conn, connectionID: uint32, chunks: seq<seq<uint8>>)
    requires ReadsFit(chunks)
    modifies st`outgoing, st`socketLog
    ensures st.outgoing ==
      old(st.outgoing) + DataPackets(connectionID, chunks) + [OutgoingPacket(ClosePort, FormatNat(connectionID))]
    ensures st.socketLog == old(st.socketLog) + [SocketClose(conn)]
  {
    for i := 0 to |chunks|
      invariant st.outgoing == old(st.outgoing) + DataPackets(connectionID, chunks[..i])
      invariant st.socketLog == old(st.socketLog)
    {
      ForwardRead(st, connectionID, chunks[i]);
      assert DataPackets(connectionID, chunks[..i + 1]) ==
        DataPackets(connectionID, chunks[..i]) + [OutgoingPacket(Data, DataPayload(connectionID, chunks[i]))];
    }
    assert chunks[..|chunks|] == chunks;
    FinishConnection(st, conn, connectionID);
  }

  /**
   * `handleServerConnection`, run with no step of anyone else in
   * between: register the socket under the connection ID, forward its
   * reads as Data packets, then queue one ClosePort that carries the
   * decimal `localPort` (not the connection ID), remove the registry
   * entry and close the socket. While the reads go on, the entry is
   * present (the loop's invariant); the steps above let a caller act in
   * that window.
   */
  method HandleServerConnection(st: State, conn: Conn, localHost: seq<uint8>, localPort: int,
                                connectionID: uint32, chunks: seq<seq<uint8>>)
    requires ReadsFit(chunks)
    modifies st`connections, st`outgoing, st`socketLog
    ensures st.connections == old(st.connections) - {connectionID}
    ensures st.outgoing ==
      old(st.outgoing) + DataPackets(connectionID, chunks) + [OutgoingPacket(ClosePort, FormatInt(localPort))]
    ensures st.socketLog == old(st.socketLog) + [SocketClose(conn)]
  {
    RegisterServerConnection(st, conn, connectionID);
    for i := 0 to |chunks|
      invariant st.outgoing == old(st.outgoing) + DataPackets(connectionID, chunks[..i])
      invariant st.socketLog == old(st.socketLog)
      invariant st.connections == old(st.connections)[connectionID := conn]
    {
      ForwardRead(st, connectionID, chunks[i]);
      assert DataPackets(connectionID, chunks[..i + 1]) ==
        DataPackets(connectionID, chunks[..i]) + [OutgoingPacket(Data, DataPayload(connectionID, chunks[i]))];
    }
    assert chunks[..|chunks|] == chunks;
    FinishServerConnection(st, conn, connectionID, localPort);
    assert old(st.connections)[connectionID := conn] - {connectionID} == old(st.connections) - {connectionID};
  }
}
