/**
 * utils.go: the request/response correlator, the address parsers, the
 * handshake wait and the Response handler. The packet dispatcher of
 * utils.go:179-232 is in dispatch.dfy, because it calls the server's
 * InitProxy handler, which in turn calls `SendResponse` here.
 */
module Utils {
  import opened Wrappers
  import opened Bytes
  import opened Text
  import opened Packet
  import opened Engine

  // ---------------------------------------------------------------- correlator

  /** `getNextRequestID`: hand out the counter and advance it. */
  method NextRequestID(st: State) returns (id: uint32)
    modifies st`nextRequestID
    ensures id == old(st.nextRequestID) && st.nextRequestID == Successor(id)
  {
    id := st.nextRequestID;
    st.nextRequestID := Successor(st.nextRequestID);
  }

  /**
   * The sending half of `sendRequest`: allocate a request ID, register a
   * fresh (empty) waiter under it, then queue the frame whose payload is
   * the ID in four big-endian bytes followed by the caller's payload.
   */
  method SendRequest(st: State, ptype: uint8, payload: seq<uint8>) returns (requestID: uint32)
    requires st.Valid()
    modifies st`nextRequestID, st`pending, st`replies, st`outgoing
    ensures st.Valid()
    ensures requestID == old(st.nextRequestID) && st.nextRequestID == Successor(requestID)
    ensures st.pending == old(st.pending) + {requestID}
    ensures st.replies == old(st.replies) - {requestID}
    ensures st.outgoing == old(st.outgoing) + [OutgoingPacket(ptype, BE32(requestID) + payload)]
  {
    requestID := NextRequestID(st);
    st.pending := st.pending + {requestID};
    st.replies := st.replies - {requestID};
    st.outgoing := st.outgoing + [OutgoingPacket(ptype, BE32(requestID) + payload)];
  }

  datatype RequestError = Timeout

  /**
   * The waiting half of `sendRequest` (the `select` of utils.go:64-72),
   * taken at the moment the 10-second timer would fire: if the Response
   * has been delivered it is returned; otherwise the request times out
   * and its waiter is removed, so a Response arriving later finds
   * nothing to deliver to.
   */
  method AwaitResponse(st: State, requestID: uint32) returns (r: Result<ResponsePacket, RequestError>)
    requires st.Valid()
    modifies st`pending, st`replies
    ensures st.Valid()
    ensures requestID in old(st.replies) ==>
      r == Ok(old(st.replies)[requestID]) &&
      st.replies == old(st.replies) - {requestID} && st.pending == old(st.pending)
    ensures requestID !in old(st.replies) ==>
      r == Err(Timeout) &&
      st.pending == old(st.pending) - {requestID} && st.replies == old(st.replies)
  {
    if requestID in st.replies {
      r := Ok(st.replies[requestID]);
      st.replies := st.replies - {requestID};
    } else {
      st.pending := st.pending - {requestID};
      r := Err(Timeout);
    }
  }

  /**
   * The byte layout used here for the Response record: a success byte,
   * the request ID in four big-endian bytes, then the message.
   */
  function MarshalResponse(resp: ResponsePacket): (payload: seq<uint8>)
    ensures |payload| == 5 + |resp.message| && payload[0] <= 1
    ensures (payload[0] == 1) == resp.success && payload[5..] == resp.message
  {
    [if resp.success then 1 else 0] + BE32(resp.requestID) + resp.message
  }

  /** The inverse of `MarshalResponse`; anything else is malformed. */
  function UnmarshalResponse(payload: seq<uint8>): (r: Option<ResponsePacket>)
    ensures r.Some? <==> |payload| >= 5 && payload[0] <= 1
    ensures r.Some? ==> r.value.success == (payload[0] == 1) && |r.value.message| == |payload| - 5
  {
    if |payload| < 5 || payload[0] > 1 then None
    else Some(ResponsePacket(Uint32At(payload[1..]), payload[0] == 1, payload[5..]))
  }

  lemma ResponseRoundTrip(resp: ResponsePacket)
    ensures UnmarshalResponse(MarshalResponse(resp)) == Some(resp)
  {
    var p := MarshalResponse(resp);
    BE32RoundTrip(resp.requestID);
    assert p[1..][..4] == BE32(resp.requestID);
    assert p[5..] == resp.message;
  }

  /** Everything that unmarshals is the marshalling of what it unmarshals to. */
  lemma UnmarshalIsMarshal(payload: seq<uint8>)
    requires UnmarshalResponse(payload).Some?
    ensures MarshalResponse(UnmarshalResponse(payload).value) == payload
  {
    Uint32AtRoundTrip(payload[1..5]);
    assert payload == [payload[0]] + payload[1..5] + payload[5..];
  }

  /** The Response frame `sendResponse` queues for a record. */
  function ResponseOut(resp: ResponsePacket): OutgoingPacket
  {
    OutgoingPacket(Response, MarshalResponse(resp))
  }

  /** `sendResponse`: queue a Response frame carrying the record. */
  method SendResponse(st: State, requestID: uint32, success: bool, message: seq<uint8>)
    modifies st`outgoing
    ensures st.outgoing == old(st.outgoing) + [ResponseOut(ResponsePacket(requestID, success, message))]
  {
    var payload := MarshalResponse(ResponsePacket(requestID, success, message));
    st.outgoing := st.outgoing + [OutgoingPacket(Response, payload)];
  }

  /**
   * `getPacketRequestID`: the big-endian ID in the first four payload
   * bytes, and the bytes after them. Go would panic on a shorter
   * payload, so four bytes are required.
   */
  function GetPacketRequestID(packet: Packet): (r: (uint32, seq<uint8>))
    requires |packet.payload| >= 4
    ensures BE32(r.0) + r.1 == packet.payload
  {
    Uint32AtRoundTrip(packet.payload[..4]);
    (Uint32At(packet.payload), packet.payload[4..])
  }

  /** `getPacketRequestID` undoes the prefix `SendRequest` puts on a payload. */
  lemma RequestIDPrefixRoundTrip(requestID: uint32, payload: seq<uint8>, ptype: uint8)
    ensures GetPacketRequestID(Packet(ptype, 0, BE32(requestID) + payload)) == (requestID, payload)
  {
    BE32RoundTrip(requestID);
    assert (BE32(requestID) + payload)[4..] == payload;
  }

  /**
   * `handleResponse`: a malformed body is dropped; a Response whose ID
   * is pending is delivered to its waiter once and the waiter is
   * removed; a Response for an unknown or timed-out ID changes nothing.
   */
  method HandleResponse(st: State, packet: Packet)
    requires st.Valid()
    modifies st`pending, st`replies
    ensures st.Valid()
    ensures match UnmarshalResponse(packet.payload)
      case None => st.pending == old(st.pending) && st.replies == old(st.replies)
      case Some(resp) =>
        if resp.requestID in old(st.pending) then
          st.pending == old(st.pending) - {resp.requestID} &&
          st.replies == old(st.replies)[resp.requestID := resp]
        else
          st.pending == old(st.pending) && st.replies == old(st.replies)
  {
    var response := UnmarshalResponse(packet.payload);
    if response.None? {
      return;
    }
    var id := response.value.requestID;
    if id in st.pending {
      st.replies := st.replies[id := response.value];
      st.pending := st.pending - {id};
    }
  }

  // ---------------------------------------------------------------- handshake

  /** The frame `sendHello` writes. */
  function HelloFrame(): seq<uint8>
  {
    Frame(Hello, Ascii("HELLO"))
  }

  datatype HandshakeError = HelloReadFailed(readError: ReadError) | NotHello(ptype: uint8)

  /** `waitHello`: read one frame; it must be a Hello. */
  method WaitHello(r: Reader) returns (err: Option<HandshakeError>)
    modifies r
    ensures match DecodeFrame(old(r.remaining))
      case Err(e) => err == Some(HelloReadFailed(e)) && r.remaining == []
      case Ok(d) =>
        r.remaining == d.rest &&
        (if d.packet.ptype == Hello then err == None else err == Some(NotHello(d.packet.ptype)))
  {
    var packet := ReadPacket(r);
    if packet.Err? {
      return Some(HelloReadFailed(packet.error));
    }
    if packet.value.ptype != Hello {
      return Some(NotHello(packet.value.ptype));
    }
    return None;
  }

  /** The peer's Hello frame, followed by anything, passes `waitHello` and leaves what followed. */
  lemma HelloFramePasses(rest: seq<uint8>)
    ensures var d := DecodeFrame(HelloFrame() + rest);
      d.Ok? && d.value.packet.ptype == Hello && d.value.rest == rest
  {
    FrameRoundTrip(Hello, Ascii("HELLO"), rest);
  }

  // ---------------------------------------------------------------- addresses

  /** "localhost", the host given to an address without one. */
  const Localhost: seq<uint8> := [0x6C, 0x6F, 0x63, 0x61, 0x6C, 0x68, 0x6F, 0x73, 0x74]

  datatype HostPort = HostPort(host: seq<uint8>, port: int)

  datatype AddressError = InvalidPort(text: seq<uint8>) | InvalidAddress(text: seq<uint8>)

  /**
   * `splitHostPort`: a bare port means localhost; `host:port` splits at
   * the colon (the host may be empty); more colons, or a port Atoi
   * rejects, are errors. A host returned never holds a colon.
   */
  function SplitHostPort(addr: seq<uint8>): (r: Result<HostPort, AddressError>)
    ensures r.Ok? ==> Colon !in r.value.host
  {
    var parts := Split(addr, Colon);
    if |parts| == 1 then
      match Atoi(parts[0])
      case None => Err(InvalidPort(parts[0]))
      case Some(port) => Ok(HostPort(Localhost, port))
    else if |parts| != 2 then Err(InvalidAddress(addr))
    else
      match Atoi(parts[1])
      case None => Err(InvalidPort(parts[1]))
      case Some(port) => Ok(HostPort(parts[0], port))
  }

  /** The number of times `sep` occurs in `s`. */
  function Occurrences(s: seq<uint8>, sep: uint8): nat
  {
    if s == [] then 0 else Occurrences(s[1..], sep) + (if s[0] == sep then 1 else 0)
  }

  lemma {:induction false} NoOccurrences(s: seq<uint8>, sep: uint8)
    requires Occurrences(s, sep) == 0
    ensures sep !in s
  {
    if s != [] {
      NoOccurrences(s[1..], sep);
      assert s == [s[0]] + s[1..];
    }
  }

  lemma {:induction false} SplitCount(s: seq<uint8>, sep: uint8)
    ensures |Split(s, sep)| == Occurrences(s, sep) + 1
  {
    if s != [] {
      SplitCount(s[1..], sep);
    }
  }

  /** The three outcomes of `splitHostPort`, by the number of colons. */
  lemma SplitHostPortCases(addr: seq<uint8>)
    ensures Occurrences(addr, Colon) == 0 ==>
      SplitHostPort(addr) ==
        if Atoi(addr).Some? then Ok(HostPort(Localhost, Atoi(addr).value)) else Err(InvalidPort(addr))
    ensures Occurrences(addr, Colon) >= 2 ==> SplitHostPort(addr) == Err(InvalidAddress(addr))
  {
    SplitCount(addr, Colon);
    if Occurrences(addr, Colon) == 0 {
      NoOccurrences(addr, Colon);
      SplitWithoutSeparator(addr, Colon);
    }
  }

  /** With exactly one colon, the host is what precedes it and the port what follows. */
  lemma SplitHostPortOneColon(host: seq<uint8>, port: seq<uint8>)
    requires Colon !in host && Colon !in port
    ensures SplitHostPort(host + [Colon] + port) ==
      if Atoi(port).Some? then Ok(HostPort(host, Atoi(port).value)) else Err(InvalidPort(port))
  {
    SplitAtFirstSeparator(host, port, Colon);
    SplitWithoutSeparator(port, Colon);
  }

  /** `splitHostPort` reads back `host:%d` for any colon-free host. */
  lemma SplitHostPortFormatted(host: seq<uint8>, port: int)
    requires Colon !in host
    ensures SplitHostPort(host + [Colon] + FormatInt(port)) == Ok(HostPort(host, port))
  {
    FormatIntIsPlain(port);
    AtoiFormatInt(port);
    SplitHostPortOneColon(host, FormatInt(port));
  }

  // ---------------------------------------------------------------- port mappings

  datatype PortMapping = PortMapping(localHost: seq<uint8>, localPort: int, remoteHost: seq<uint8>, remotePort: int)

  datatype MappingError = InvalidMapping(pair: seq<uint8>) | InvalidLocal(side: seq<uint8>) | InvalidRemote(side: seq<uint8>)

  /** One `local-remote` item: exactly one dash, and two good addresses. */
  function ParsePair(pair: seq<uint8>): (r: Result<PortMapping, MappingError>)
    ensures r.Ok? ==> Colon !in r.value.localHost && Colon !in r.value.remoteHost
  {
    var sides := Split(pair, Dash);
    if |sides| != 2 then Err(InvalidMapping(pair))
    else
      match SplitHostPort(sides[0])
      case Err(_) => Err(InvalidLocal(sides[0]))
      case Ok(local) =>
        match SplitHostPort(sides[1])
        case Err(_) => Err(InvalidRemote(sides[1]))
        case Ok(remote) => Ok(PortMapping(local.host, local.port, remote.host, remote.port))
  }

  /** An item without exactly one dash is refused as a whole, before either side is looked at. */
  lemma ParsePairCases(pair: seq<uint8>)
    ensures Occurrences(pair, Dash) != 1 ==> ParsePair(pair) == Err(InvalidMapping(pair))
  {
    SplitCount(pair, Dash);
  }

  /**
   * An item with one dash is its local side, then its remote side: the
   * local side is checked first, and the mapping takes its hosts and
   * ports from the two sides.
   */
  lemma ParsePairOneDash(local: seq<uint8>, remote: seq<uint8>)
    requires Dash !in local && Dash !in remote
    ensures ParsePair(local + [Dash] + remote) ==
      match SplitHostPort(local)
      case Err(_) => Err(InvalidLocal(local))
      case Ok(l) =>
        match SplitHostPort(remote)
        case Err(_) => Err(InvalidRemote(remote))
        case Ok(r) => Ok(PortMapping(l.host, l.port, r.host, r.port))
  {
    SplitAtFirstSeparator(local, remote, Dash);
    SplitWithoutSeparator(remote, Dash);
  }

  /**
   * The loop of `parsePortMappings`, with the item parser as a
   * parameter: one mapping per item, in order; it succeeds exactly when
   * every item parses.
   */
  function ParsePairs(parse: seq<uint8> -> Result<PortMapping, MappingError>, pairs: seq<seq<uint8>>)
    : (r: Result<seq<PortMapping>, MappingError>)
    ensures r.Ok? <==> forall i :: 0 <= i < |pairs| ==> parse(pairs[i]).Ok?
    ensures r.Ok? ==>
      |r.value| == |pairs| && forall i :: 0 <= i < |pairs| ==> parse(pairs[i]) == Ok(r.value[i])
  {
    if pairs == [] then Ok([])
    else
      var first := parse(pairs[0]);
      if first.Err? then Err(first.error)
      else
        var rest := ParsePairs(parse, pairs[1..]);
        assert forall j :: 1 <= j < |pairs| ==> pairs[j] == pairs[1..][j - 1];
        if rest.Err? then Err(rest.error)
        else
          var ms := [first.value] + rest.value;
          assert forall j :: 1 <= j < |pairs| ==> ms[j] == rest.value[j - 1];
          Ok(ms)
  }

  /** A failed parse reports the error of the first item that does not parse. */
  lemma {:induction false} ParsePairsFirstError(parse: seq<uint8> -> Result<PortMapping, MappingError>,
                                                pairs: seq<seq<uint8>>)
    requires ParsePairs(parse, pairs).Err?
    ensures exists i :: (0 <= i < |pairs| && (forall j :: 0 <= j < i ==> parse(pairs[j]).Ok?) &&
                         parse(pairs[i]) == Err(ParsePairs(parse, pairs).error))
  {
    if parse(pairs[0]).Ok? {
      ParsePairsFirstError(parse, pairs[1..]);
      var i :| 0 <= i < |pairs| - 1 && (forall j :: 0 <= j < i ==> parse(pairs[1..][j]).Ok?) &&
        parse(pairs[1..][i]) == Err(ParsePairs(parse, pairs[1..]).error);
      assert forall j :: 1 <= j <= i ==> pairs[j] == pairs[1..][j - 1];
      assert parse(pairs[i + 1]) == Err(ParsePairs(parse, pairs).error);
    } else {
      assert parse(pairs[0]) == Err(ParsePairs(parse, pairs).error);
    }
  }

  /** `parsePortMappings`: the comma-separated items of the flag. */
  function ParsePortMappings(mappings: seq<uint8>): (r: Result<seq<PortMapping>, MappingError>)
    ensures r.Ok? ==> |r.value| == Occurrences(mappings, Comma) + 1
  {
    SplitCount(mappings, Comma);
    ParsePairs(ParsePair, Split(mappings, Comma))
  }

  /** The empty string is not a mapping list. */
  lemma EmptyMappingsFail()
    ensures ParsePortMappings([]) == Err(InvalidMapping([]))
  {
  }

  /** Every host of a parsed mapping is free of colons. */
  lemma ParsedHostsHaveNoColon(mappings: seq<uint8>)
    requires ParsePortMappings(mappings).Ok?
    ensures forall m :: m in ParsePortMappings(mappings).value ==>
      Colon !in m.localHost && Colon !in m.remoteHost
  {
    var pairs := Split(mappings, Comma);
    var ms := ParsePortMappings(mappings).value;
    forall m | m in ms
      ensures Colon !in m.localHost && Colon !in m.remoteHost
    {
      var i :| 0 <= i < |ms| && ms[i] == m;
      assert ParsePair(pairs[i]) == Ok(m);
    }
  }
}
