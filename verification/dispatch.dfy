/**
 * `handleSerialPacket` (utils.go:179-232): the dispatcher that acts on
 * each frame read from the serial port, by type.
 */
module Dispatch {
  import opened Wrappers
  import opened Bytes
  import opened Text
  import opened Packet
  import opened Engine
  import opened Utils
  import opened Connection
  import opened Server

  /** A Data payload: four bytes of connection ID, then the bytes for that connection. */
  function ParseDataPayload(payload: seq<uint8>): (r: Option<(uint32, seq<uint8>)>)
    ensures r.Some? <==> |payload| >= 4
    ensures r.Some? ==> DataPayload(r.value.0, r.value.1) == payload
  {
    if |payload| < 4 then None
    else
      Uint32AtRoundTrip(payload[..4]);
      Some((Uint32At(payload), payload[4..]))
  }

  /** A forwarder's Data payload reads back as its connection ID and exactly the bytes it read. */
  lemma DataPayloadRoundTrip(connectionID: uint32, chunk: seq<uint8>)
    ensures ParseDataPayload(DataPayload(connectionID, chunk)) == Some((connectionID, chunk))
  {
    BE32RoundTrip(connectionID);
    assert DataPayload(connectionID, chunk)[4..] == chunk;
  }

  /**
   * A server-side ClosePort carries a port number: on the client it is
   * read as the connection ID equal to that port (and ignored for a
   * negative port), not as the connection the server closed.
   */
  lemma ServerClosePortNamesPort(port: int)
    ensures 0 <= port <= MaxUint32 ==> ParseUint32(FormatInt(port)) == Ok(port)
    ensures port < 0 ==> ParseUint32(FormatInt(port)) == Err(SyntaxError)
  {
    if 0 <= port <= MaxUint32 {
      ParseUint32FormatNat(port);
    }
  }

  /**
   * `handleSerialPacket`. Hello and unknown types change nothing.
   * InitProxy queues the one Response of `InitProxyReply` and returns the
   * forwarder to start. Data shorter than four bytes, or for an unknown
   * connection, is dropped; otherwise only the bytes after the ID are
   * written to that connection's socket, and the registry is not
   * touched. ClosePort with a payload that is not a decimal uint32, or
   * for an unknown connection, is ignored; otherwise that entry alone is
   * removed and its socket closed. Response goes to `HandleResponse`.
   */
  method HandleSerialPacket(st: State, packet: Packet, dial: seq<uint8> -> DialResult) returns (fwd: Option<ServerForwarder>)
    requires st.Valid()
    requires packet.ptype == InitProxy ==> |packet.payload| >= 4
    modifies st`connections, st`outgoing, st`socketLog, st`pending, st`replies
    ensures st.Valid()
    ensures packet.ptype != InitProxy ==> fwd == None && st.outgoing == old(st.outgoing)
    ensures packet.ptype != ClosePort ==> st.connections == old(st.connections)
    ensures packet.ptype != Data && packet.ptype != ClosePort ==> st.socketLog == old(st.socketLog)
    ensures packet.ptype != Response ==> st.pending == old(st.pending) && st.replies == old(st.replies)
    ensures packet.ptype == InitProxy ==>
      var (response, forwarder) := InitProxyReply(packet, dial);
      fwd == forwarder && st.outgoing == old(st.outgoing) + [ResponseOut(response)]
    ensures packet.ptype == Data ==>
      var d := ParseDataPayload(packet.payload);
      if d.Some? && d.value.0 in old(st.connections) then
        st.socketLog == old(st.socketLog) + [SocketWrite(old(st.connections)[d.value.0], d.value.1)]
      else
        st.socketLog == old(st.socketLog)
    ensures packet.ptype == ClosePort ==>
      var id := ParseUint32(packet.payload);
      if id.Ok? && id.value in old(st.connections) then
        st.connections == old(st.connections) - {id.value} &&
        st.socketLog == old(st.socketLog) + [SocketClose(old(st.connections)[id.value])]
      else
        st.connections == old(st.connections) && st.socketLog == old(st.socketLog)
    ensures packet.ptype == Response ==>
      match UnmarshalResponse(packet.payload)
      case Some(resp) =>
        if resp.requestID in old(st.pending) then
          st.pending == old(st.pending) - {resp.requestID} &&
          st.replies == old(st.replies)[resp.requestID := resp]
        else
          st.pending == old(st.pending) && st.replies == old(st.replies)
      case None => st.pending == old(st.pending) && st.replies == old(st.replies)
  {
    fwd := None;
    if packet.ptype == Hello {
    } else if packet.ptype == InitProxy {
      fwd := HandleInitProxy(st, packet, dial);
    } else if packet.ptype == Data {
      if |packet.payload| < 4 {
        return;
      }
      var connectionID := Uint32At(packet.payload[..4]);
      var data := packet.payload[4..];
      if connectionID !in st.connections {
        return;
      }
      st.socketLog := st.socketLog + [SocketWrite(st.connections[connectionID], data)];
    } else if packet.ptype == ClosePort {
      var parsed := ParseUint32(packet.payload);
      if parsed.Err? {
        return;
      }
      var connectionID := parsed.value;
      if connectionID in st.connections {
        st.socketLog := st.socketLog + [SocketClose(st.connections[connectionID])];
        st.connections := st.connections - {connectionID};
      }
    } else if packet.ptype == Response {
      HandleResponse(st, packet);
    }
  }

  /** Writing to one socket leaves the bytes every other socket received as they were. */
  lemma {:induction false} WriteIsolated(log: seq<SocketOp>, c: Conn, bytes: seq<uint8>, other: Conn)
    ensures Received(log + [SocketWrite(c, bytes)], other) ==
      Received(log, other) + (if other == c then bytes else [])
  {
    assert (log + [SocketWrite(c, bytes)])[..|log|] == log;
  }

  /**
   * Multiplexing isolation, over a whole run of Data frames: when they
   * are dispatched in order against a fixed registry, each socket
   * receives exactly the bytes of the frames tagged with its own
   * connection ID, in frame order, however frames for different
   * connections interleave.
   */
  function DeliverAll(connections: map<uint32, Conn>, payloads: seq<seq<uint8>>): seq<SocketOp>
  {
    if payloads == [] then []
    else
      var n := |payloads| - 1;
      var d := ParseDataPayload(payloads[n]);
      DeliverAll(connections, payloads[..n]) +
        if d.Some? && d.value.0 in connections then [SocketWrite(connections[d.value.0], d.value.1)] else []
  }

  /** The bytes meant for connection `id`, in frame order. */
  function BytesFor(id: uint32, payloads: seq<seq<uint8>>): seq<uint8>
  {
    if payloads == [] then []
    else
      var n := |payloads| - 1;
      var d := ParseDataPayload(payloads[n]);
      BytesFor(id, payloads[..n]) + if d.Some? && d.value.0 == id then d.value.1 else []
  }

  /** Registered sockets are distinct: no socket sits under two connection IDs. */
  predicate Injective(connections: map<uint32, Conn>)
  {
    forall i, j :: i in connections && j in connections && i != j ==> connections[i] != connections[j]
  }

  lemma {:induction false} Isolation(connections: map<uint32, Conn>, payloads: seq<seq<uint8>>, id: uint32)
    requires Injective(connections) && id in connections
    ensures Received(DeliverAll(connections, payloads), connections[id]) == BytesFor(id, payloads)
  {
    if payloads != [] {
      var n := |payloads| - 1;
      Isolation(connections, payloads[..n], id);
      var d := ParseDataPayload(payloads[n]);
      if d.Some? && d.value.0 in connections {
        WriteIsolated(DeliverAll(connections, payloads[..n]), connections[d.value.0], d.value.1, connections[id]);
      } else {
        assert DeliverAll(connections, payloads) == DeliverAll(connections, payloads[..n]);
      }
    }
  }

  /**
   * A run of Data frames, each handed to `HandleSerialPacket` in turn:
   * the registry stays as it was, the socket log grows by exactly what
   * `DeliverAll` describes, and, when no socket is registered twice,
   * every registered socket receives the bytes tagged with its own ID,
   * in frame order.
   */
  method DispatchDataRun(st: State, payloads: seq<seq<uint8>>, dial: seq<uint8> -> DialResult)
    requires st.Valid()
    modifies st`connections, st`outgoing, st`socketLog, st`pending, st`replies
    ensures st.Valid()
    ensures st.connections == old(st.connections) && st.outgoing == old(st.outgoing)
    ensures st.pending == old(st.pending) && st.replies == old(st.replies)
    ensures st.socketLog == old(st.socketLog) + DeliverAll(old(st.connections), payloads)
    ensures Injective(old(st.connections)) ==>
      forall id :: id in old(st.connections) ==>
        Received(st.socketLog, old(st.connections)[id]) ==
          Received(old(st.socketLog), old(st.connections)[id]) + BytesFor(id, payloads)
  {
    for i := 0 to |payloads|
      invariant st.Valid()
      invariant st.connections == old(st.connections) && st.outgoing == old(st.outgoing)
      invariant st.pending == old(st.pending) && st.replies == old(st.replies)
      invariant st.socketLog == old(st.socketLog) + DeliverAll(old(st.connections), payloads[..i])
    {
      var _ := HandleSerialPacket(st, Packet(Data, 0, payloads[i]), dial);
      assert payloads[..i + 1][..i] == payloads[..i];
    }
    assert payloads[..|payloads|] == payloads;
    if Injective(old(st.connections)) {
      forall id | id in old(st.connections)
        ensures Received(st.socketLog, old(st.connections)[id]) ==
          Received(old(st.socketLog), old(st.connections)[id]) + BytesFor(id, payloads)
      {
        ReceivedAppend(old(st.socketLog), DeliverAll(old(st.connections), payloads), old(st.connections)[id]);
        Isolation(old(st.connections), payloads, id);
      }
    }
  }
}
