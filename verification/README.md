# sprox in Dafny

sprox carries TCP connections over one serial line. Each side keeps a
registry of TCP sockets keyed by a 32-bit connection ID. It also keeps a
table of requests waiting for their Response, and one outgoing queue of
frames that a single serial writer drains. A client accepts local TCP
connections and asks the server, with an InitProxy request, to dial the
matching remote address. From then on both sides forward socket reads as
Data frames tagged with the connection ID. When a socket's reads end, its
side sends a ClosePort frame.

This model covers everything between the TCP sockets and the serial port:

- **Frame codec** (`packet.dfy`). A frame is one type byte, a big-endian
  16-bit payload length, then the payload.
  - `SendPacket` fills a three-byte header array. It writes the header and
    then the payload to a `Port` that may accept fewer bytes than offered or
    fail, retrying until everything is taken, and then drains the port.
  - `ReadPacket` reads a header and then its payload from a `Reader`,
    following `io.ReadFull`'s error rules.
  - `DecodeFrame` is the specification of reading, and `Frame` of writing.
- **Shared state** (`engine.dfy`). The package variables of the program are
  gathered in one `State` object:
  - the two `uint32` counters, which wrap at 2^32;
  - the registry;
  - the pending requests, kept as a set of waiting IDs plus the Responses
    delivered but not yet taken;
  - the outgoing queue;
  - a log of writes to and closes of TCP sockets.
- **Correlator, parsers and handshake** (`utils.dfy`), with the
  string-to-number conversions and `strings.Split` they use (`text.dfy`,
  `bytes.dfy`).
- **Packet dispatcher** (`dispatch.dfy`): `handleSerialPacket`.
- **Per-connection forwarders** (`connection.dfy`). A socket's reads are
  given as a sequence of chunks that ends where the socket reports EOF.
  Each forwarder is given twice. As separate steps (register, one read,
  finish), a caller can interleave it with the dispatcher. As a whole run
  (`HandleConnection`, `HandleServerConnection`), no other step happens
  in between.
- **Server side** (`server.dfy`): the InitProxy handler, which takes the dial
  outcome as a function, and the serial writer.
- **Client side** (`client.dfy`): the InitProxy request and the accept loop's
  register/unregister step.

Text is bytes throughout (`seq<uint8>`), as Go strings are.

Some behaviour of the code is easy to misread:

- **`readPacket` at end of stream.** When the stream ends exactly after a
  header announcing a non-empty payload, `readPacket` reports a clean EOF,
  not an unexpected EOF. The reason is that `io.ReadFull` returns `io.EOF`
  when it reads no byte at all (see `Packet.DecodeErrors`).
- **The server's ClosePort** carries the forwarder's port in decimal, not
  the connection ID. On the client it is read as a connection ID equal to
  that port (`Dispatch.ServerClosePortNamesPort`).
- **The client's forwarder** never removes its own registry entry.
- **The Response record** is not prefixed by a request ID: the ID travels
  inside the record.

## Model

| member | source | states |
|---|---|---|
| Bytes.TruncateTo16 | packet.go:35 | `uint16(len)` keeps the low 16 bits and leaves every length up to 65535 unchanged |
| Bytes.BE16RoundTrip | packet.go:35 | reading the two bytes `PutUint16` writes gives the value back |
| Bytes.Uint16AtRoundTrip | packet.go:98 | every two-byte header field is the encoding of the length read from it |
| Bytes.BE32RoundTrip | utils.go:56-61 | the four shifted bytes of an ID read back, with `binary.BigEndian.Uint32`, as that ID |
| Bytes.Uint32AtRoundTrip | utils.go:89 | every four-byte prefix is the encoding of the ID read from it |
| Text.Split | utils.go:93 | `strings.Split` returns at least one piece, and no piece holds the separator |
| Text.SplitWithoutSeparator | utils.go:93 | a string without the separator splits into itself alone |
| Text.SplitAtFirstSeparator | utils.go:93 | splitting `a sep b` with `a` separator-free gives `a` and then the pieces of `b` |
| Text.SplitJoin | server.go:38 | splitting a join of separator-free fields gives exactly those fields back |
| Text.JoinSplit | utils.go:93 | joining the pieces of a split gives the original string |
| Text.FormatNat | connection.go:45 | `%d` of a natural number is a non-empty run of decimal digits, without a leading zero |
| Text.FormatInt | connection.go:84 | `%d` of an integer starts with a minus sign exactly when the integer is negative, and the rest is decimal digits |
| Text.DecimalValueOfFormatNat | connection.go:45 | the digits `%d` writes have the value of the number written |
| Text.FormatIntIsPlain | client.go:71 | `%d` of an integer never holds a colon, comma or plus sign, and holds no minus sign when non-negative |
| Text.AtoiFormatInt | server.go:44 | `strconv.Atoi` reads back every integer `%d` writes |
| Text.Atoi | server.go:44 | a successful `strconv.Atoi` read a non-empty text; a negative result comes only from a leading minus, and without one the result is non-negative |
| Text.AtoiAccepts | utils.go:97 | `strconv.Atoi` succeeds exactly on an optional sign followed by at least one digit |
| Text.ParseUint32Value | server.go:49 | the value kept when the error is discarded: the parsed value on success, MaxUint32 on a range error |
| Text.ScanValue | utils.go:212 | a digit scan that succeeds read nothing but digits, and its value is the decimal value of the digits before it followed by the ones it read |
| Text.ScanDigits | utils.go:212 | digits whose joint value is at most MaxUint32 scan without a range error to exactly that value |
| Text.ParseUint32 | utils.go:212 | `strconv.ParseUint(s, 10, 32)` succeeds exactly on a non-empty run of decimal digits whose value is at most MaxUint32, and then returns that value |
| Text.ParseUint32FormatNat | utils.go:212 | `strconv.ParseUint(s, 10, 32)` reads back every decimal connection ID |
| Text.ParseUint32RejectsSign | utils.go:212 | `ParseUint` refuses a leading sign as a syntax error |
| Packet.HeaderLayout | packet.go:33-35 | a frame is three header bytes then the payload: the type byte, then the payload length modulo 65536, high byte first |
| Packet.Frame | packet.go:33-55 | a frame is three bytes longer than its payload, starts with the type byte, and ends with the payload |
| Packet.DecodeFrame | packet.go:91-114 | a frame that reads has request ID 0 and a payload of at most 65535 bytes, and header, payload and unread rest make up the whole stream |
| Packet.ReadFull | packet.go:93 | a successful `io.ReadFull` yields exactly the requested number of bytes, taken from the front of the stream |
| Packet.FrameRoundTrip | packet.go:91-114 | a frame of at most 65535 payload bytes, followed by anything, reads back as its type and payload with request ID 0, and consumes exactly its own bytes |
| Packet.FrameTruncation | packet.go:35 | a payload of 65536 bytes or more is announced with its length modulo 65536, so the reader takes only that many bytes and leaves the rest of the payload in the stream |
| Packet.DecodeIsFrame | packet.go:97-110 | whatever `readPacket` returns was a frame whose length field equals the payload length (at most 65535), followed by the unread rest; the request ID is 0 |
| Packet.DecodeErrors | packet.go:93-104 | an empty stream gives EOF; a stream ending inside the header gives unexpected EOF; a read fails exactly when the stream is shorter than the announced frame; ending inside a payload after at least one payload byte gives unexpected EOF, and ending right after the header gives EOF |
| Packet.Port.Write | packet.go:40 | a serial Write consumes one script entry: it either fails having taken nothing, or takes as many of the offered bytes as the entry allows (all of them once the script runs out) |
| Packet.Port.Drain | packet.go:58 | a Drain adds nothing to the line and records how much had been written at that point |
| Packet.WriteAll | packet.go:38-45 | the partial-write loop's result, the bytes on the line and the script entries it used are exactly those of `RunWrites`, the call-by-call run of the loop against the port's script; it never drains |
| Packet.RunWritesMeaning | packet.go:38-45 | a write loop makes at most one Write call per byte; it takes the whole buffer unless it fails, and it fails exactly when one of its own calls meets a failure, which is then its last call |
| Packet.WriteHeaderAndPayload | packet.go:37-55 | the two write loops give exactly the run of the header loop followed, unless it failed, by the payload loop on the script it left; a failure stops at once with a proper prefix of header and payload on the line, and no drain happens |
| Packet.RunFrameWritesMeaning | packet.go:37-55 | the header and payload loops together make at most one call per byte of the frame and fail exactly when one of their own calls meets a failure; so a port whose next frame-length Write calls all succeed takes the frame whole, whatever its script holds further on |
| Packet.SendPacket | packet.go:32-64 | the bytes on the line and the Write entries used are those of the frame's two write loops; when one of those Writes fails the result is WriteError, only a proper prefix of the frame went out and no Drain ran; otherwise the whole frame (header first) is on the line, one Drain follows it, and the result is DrainError exactly when that Drain fails |
| Packet.SendOutcome | packet.go:32-64 | a send fails with WriteError exactly when one of its own Writes, at most one per byte of the frame, meets a failure; a port that never fails lets the send through and stays failure-free |
| Packet.Reader.ReadFullInto | packet.go:93 | `io.ReadFull` fills the buffer with the next bytes of the stream, or reports EOF or unexpected EOF as the `ReadFull` function does |
| Packet.ReadPacket | packet.go:91-114 | reading a packet with two buffer reads returns what `DecodeFrame` describes and consumes exactly the frame |
| Engine.AdvanceIsOffset | utils.go:38-44 | after `k` increments the wrapping `uint32` counter holds its start plus `k` modulo 2^32 |
| Engine.CounterNoRepeat | utils.go:38-44 | no identifier repeats before the counter has wrapped around |
| Engine.CounterFromOne | utils.go:31 | counters that start at 1 hand out 1, 2, 3, ... in order, never 0 |
| Engine.ReceivedAppend | utils.go:207 | what a socket receives over two stretches of socket writes is what it receives in the first, then in the second |
| Engine.State.constructor | utils.go:30-36 | both counters start at 1, and the registry, pending table and queue start empty |
| Utils.NextRequestID | utils.go:38-44 | returns the counter and advances it by one modulo 2^32 |
| Utils.SendRequest | utils.go:46-62 | the new ID is registered as pending with an empty reply slot, and exactly one frame is queued whose payload is the big-endian ID followed by the caller's payload |
| Utils.AwaitResponse | utils.go:64-72 | a delivered Response is returned and taken from its slot; with none delivered the request times out and its pending entry is removed |
| Utils.MarshalResponse | utils.go:81 | the encoded record is five bytes longer than the message and ends with it; its first byte is 1 exactly for a success and 0 otherwise |
| Utils.UnmarshalResponse | utils.go:146 | a body decodes exactly when it has at least five bytes and a first byte of 0 or 1; the success flag and the message length are read from it |
| Utils.ResponseRoundTrip | utils.go:81 | a Response record decodes back to itself |
| Utils.UnmarshalIsMarshal | utils.go:146 | every payload that decodes is the encoding of the record it decodes to |
| Utils.SendResponse | utils.go:75-86 | exactly one Response frame carrying the encoded record is appended to the queue |
| Utils.GetPacketRequestID | utils.go:88-90 | the ID and the remainder put back together give the whole payload |
| Utils.RequestIDPrefixRoundTrip | utils.go:88-90 | `getPacketRequestID` undoes the ID prefix `sendRequest` adds |
| Utils.HandleResponse | utils.go:144-161 | a pending ID gets its Response delivered once and leaves the pending table; a malformed body or an unknown or timed-out ID changes nothing |
| Utils.WaitHello | utils.go:167-177 | the handshake succeeds exactly when the next frame reads and is a Hello; a read error or any other type is returned as an error; the frame is consumed either way, and after a read error nothing is left to read |
| Utils.HelloFramePasses | utils.go:163-165 | the frame `sendHello` writes passes the peer's `waitHello` |
| Utils.SplitHostPort | utils.go:92-113 | a host returned never holds a colon |
| Utils.SplitCount | utils.go:93 | a split has one piece more than there are separators |
| Utils.NoOccurrences | utils.go:93 | a zero separator count means the separator does not occur |
| Utils.SplitHostPortCases | utils.go:96-106 | with no colon the host is "localhost" and the whole text must be a port; with two or more colons the address is invalid |
| Utils.SplitHostPortOneColon | utils.go:108-112 | with one colon the host is the text before it (possibly empty), and the text after it must be a port |
| Utils.SplitHostPortFormatted | utils.go:108-112 | `host:%d` with a colon-free host parses back to that host and port |
| Utils.ParsePair | utils.go:119-139 | a mapping item parses only with exactly one dash and two good sides, and its hosts hold no colon |
| Utils.ParsePairCases | utils.go:119-122 | an item with no dash or with more than one is refused as an invalid mapping, before either side is looked at |
| Utils.ParsePairOneDash | utils.go:119-139 | an item with one dash is checked local side first, then remote side, each failure naming its side; on success the mapping takes host and port from each side |
| Utils.ParsePairs | utils.go:116-141 | the loop, for any item parser: the list parses exactly when every item parses, and then has one mapping per item, in order |
| Utils.ParsePairsFirstError | utils.go:118-133 | a list that fails reports the error of the first item that does not parse |
| Utils.ParsePortMappings | utils.go:115-142 | a parsed list has one mapping per comma-separated item |
| Utils.EmptyMappingsFail | utils.go:117-121 | the empty string is rejected as an invalid mapping |
| Utils.ParsedHostsHaveNoColon | utils.go:115-142 | no host of a parsed mapping holds a colon |
| Connection.NextConnectionID | connection.go:19-25 | returns the connection counter and advances it by one modulo 2^32, leaving the request counter alone |
| Connection.DataPackets | connection.go:38-41 | one Data packet per read, in read order; each payload is four bytes more than the read, starts with bytes that read back as the connection ID, and ends with the bytes read |
| Connection.DataPayloadFits | connection.go:29 | a Data payload is at most 4 + 8192 bytes, so its frame is never truncated and reads back whole |
| Connection.RegisterServerConnection | connection.go:55-57 | the socket is entered in the registry under its connection ID, replacing any earlier entry, and nothing else changes |
| Connection.ForwardRead | connection.go:66-79 | one read queues exactly one Data packet: the big-endian connection ID followed by the bytes read |
| Connection.FinishConnection | connection.go:28-46 | the client forwarder ends by queueing one ClosePort with the decimal connection ID and closing its socket, leaving the registry alone |
| Connection.FinishServerConnection | connection.go:50-85 | the server forwarder ends by queueing one ClosePort with the decimal local port, removing its registry entry and closing its socket |
| Connection.HandleConnection | connection.go:27-47 | one Data packet per read in read order, each the big-endian ID followed by the bytes read, then exactly one ClosePort carrying the decimal ID; the socket is closed and the registry left alone |
| Connection.HandleServerConnection | connection.go:49-86 | run as a whole: the socket stays registered under its ID throughout the reads; the Data packets follow in read order, then one ClosePort carrying the decimal local port; finally the entry is removed and the socket closed |
| Server.InitProxyNeedsFourColons | server.go:38-39 | an InitProxy payload is accepted exactly when it holds four colons |
| Server.ParseInitProxy | server.go:38-49 | neither host of an accepted payload holds a colon, and the first host is exactly the text before the payload's first colon |
| Server.InitProxyAcceptsAnyFiveFields | server.go:43-49 | any five colon-free fields are accepted; malformed numbers become 0, or MaxUint32 for an oversized connection ID, instead of being refused |
| Server.InitProxyReply | server.go:36-60 | exactly one Response, echoing the request ID; success exactly when the payload has five fields and the dial of fields 3:4 succeeds; a forwarder exactly on success, with fields 1 and 2 and the connection ID of field 5 |
| Server.MalformedInitProxyRefused | server.go:38-42 | a payload without four colons gets the failure Response "invalid payload format", and nothing is dialled or started |
| Server.HandleInitProxy | server.go:36-60 | queues exactly the one Response `InitProxyReply` describes and returns its forwarder; nothing is registered |
| Server.ServeInitProxy | server.go:57-59 | the success Response is queued before every Data and ClosePort packet of the forwarder it starts |
| Server.TransmittedWhole | server.go:62-70 | when no send is cut short, the line carries every queued frame in queue order |
| Server.WriteQueued | server.go:63-69 | one loop step puts the prefix of the packet's frame that its writes took on the line, and the whole frame unless a Write failed; the port is then drained twice when the frame went out whole (once inside `sendPacket`) and once otherwise, each time at the end of what was sent; the step is logged as failed exactly when its own writes or its own first Drain failed, and the scripts move past exactly the calls it made |
| Server.StepFailsOwn | server.go:63-69 | a send is logged as failed only for a failure among the Write entries its own frame used (at most one per byte) or at its own Drain; a send whose own entries all succeed goes out whole and is not logged, whatever fails before or after it |
| Server.SerialWriter | server.go:62-70 | the queue is emptied in FIFO order; each failed send is skipped after part of its frame went out; the drain points are exactly those of the steps in order; the error flags are exactly those of the sends in turn, each meeting the port's scripts where the previous send left them; with a port that never fails, the line carries exactly all frames in order |
| Server.FailuresReliable | server.go:62-70 | against a port that never fails, no send of the run is logged as failed |
| Server.DrainedAfterEach | server.go:62-70 | every frame is flushed before the next one goes out: the line length at the end of each frame is one of the run's drain points |
| Client.InitProxyPayload | client.go:71 | for colon-free hosts the payload holds exactly four colons, one between each pair of fields |
| Client.InitProxyPayloadParses | client.go:71 | for colon-free hosts, the server splits the client's payload back into its five fields, and dials the mapping's remote host and port |
| Client.ParsedMappingReachesServer | client.go:71 | every mapping that `parsePortMappings` produces yields a request the server reads as sent |
| Client.InitProxyRequestArrives | client.go:70-72 | the queued InitProxy frame, read on the other side, has the request ID and fields the client sent |
| Client.InitProxyResult | client.go:72-79 | `initProxy` succeeds exactly when a Response arrived and reports success; a timeout is returned as an error |
| Client.StartInitProxy | client.go:70-72 | queues one InitProxy request whose payload is the formatted mapping and connection ID, and registers it as pending |
| Client.FinishInitProxy | client.go:72-79 | succeeds exactly when the Response was delivered and reports success; a timeout removes the pending entry |
| Client.AcceptConnection | client.go:50-56 | each accepted socket gets a fresh connection ID and is registered under it before its InitProxy request is queued |
| Client.CompleteAccept | client.go:56-66 | if InitProxy fails, only that ID is removed, its socket closed and no forwarder starts; on success the forwarder gets the same socket and ID that were registered |
| Dispatch.ParseDataPayload | utils.go:188-193 | a Data payload is usable exactly when it has four bytes of ID, and it is the ID followed by the data |
| Dispatch.DataPayloadRoundTrip | utils.go:192-193 | a forwarder's Data payload reads back as its connection ID and the bytes it read |
| Dispatch.ServerClosePortNamesPort | connection.go:84 | a server ClosePort is read on the client as the connection ID equal to the port, and is ignored for a negative port |
| Dispatch.HandleSerialPacket | utils.go:179-232 | Data: a short payload or unknown ID is dropped, a known ID's socket gets only the bytes after the prefix, and the registry is never modified. ClosePort: a payload that is not a decimal `uint32`, or that names an unknown ID, is ignored; a known ID alone is removed and its socket closed. InitProxy does what `InitProxyReply` describes, and Response what `handleResponse` does. Hello and unknown types change nothing |
| Dispatch.WriteIsolated | utils.go:207 | a write to one socket adds nothing to what any other socket has received |
| Dispatch.Isolation | utils.go:187-210 | over any run of Data frames, each registered socket receives exactly the bytes tagged with its own ID, in frame order |
| Dispatch.DispatchDataRun | utils.go:187-210 | handing a run of Data frames to `handleSerialPacket` one by one leaves the registry, queue and pending table alone; when no socket is registered twice, each registered socket gets exactly the bytes tagged with its ID, in frame order |

## Left out

- main.go (flag parsing, opening the serial port) and the `runClient` and
  `runServer` functions are not part of this model. They call the modelled
  steps in turn: the handshake, then the serial writer and the listeners,
  then a read loop that exits the process on the first read error
  (server.go:26-33, client.go:24-31).
- Utils.WaitHello: both callers ignore its result (server.go:16,
  client.go:15). A read error or a frame that is not a Hello does not stop
  either side. That frame is consumed and lost, and the read loop starts on
  whatever follows it. The model states what `waitHello` returns and what it
  leaves unread, but it does not model the callers.
- Concurrency: the mutexes, the capacity of 100 on the outgoing channel and
  the blocking it causes are not modelled. Each method is one atomic step.
  - The forwarders are split into steps. `RegisterServerConnection` and
    `ForwardRead` are examples, and other steps may run between them.
  - `HandleConnection` and `HandleServerConnection` are whole runs, and
    nothing can run in the middle of one.
  - A goroutine that an operation starts is returned as a descriptor
    (`Server.ServerForwarder`, `Client.ClientForwarder`). The caller runs
    it as later steps.
- The 10-second timer of `sendRequest`: `AwaitResponse` is the moment the
  timer fires.
- Utils.AwaitResponse: the model settles the race in the reply's favour. A
  reply delivered by the time the timer fires is always returned. Go's
  `select` picks at random when both cases are ready. A reply that arrives
  just as the timer fires can then be dropped, and the call reports a
  timeout.
- JSON: the Response record is encoded in a fixed byte layout (success
  byte, big-endian ID, message) with a proved round trip, in place of
  `json.Marshal` and `json.Unmarshal`. As a result, what counts as a
  malformed Response body differs from JSON's rules.
- Socket I/O: `net.Listen`, `Accept`, `Dial`, `Read`, `Write` and `Close`.
  - A dial is an outcome function.
  - A socket's reads are a sequence of chunks ending at EOF; a read error
    other than EOF ends the loop the same way.
  - Socket writes and closes are appended to a log. Their errors, which the
    code only logs, are not modelled.
- Serial port errors other than the scripted Write and Drain failures, and
  read errors other than EOF and unexpected EOF.
- Packet.Port.Write: a Write that succeeds takes at least one byte. A port
  that keeps returning zero bytes without error would make `sendPacket` loop
  forever, and that behaviour is not modelled.
- Server.WriteQueued: the result of the extra `Drain` after each send is
  ignored, as the code ignores it.
- Text.Atoi: integers are unbounded. The 64-bit range limit of
  `strconv.Atoi` is not modelled, and neither is the `0x`/underscore syntax,
  which base 10 does not accept anyway.
- The dead check at packet.go:106, which cannot fire after `io.ReadFull`
  succeeds, and the commented-out older `sendPacket`.
- Logging and the `verbose` flag.
- Utils.GetPacketRequestID: requires a payload of at least four bytes. In Go
  a shorter payload makes `binary.BigEndian.Uint32` panic (utils.go:89). For
  an InitProxy frame the panic comes from utils.go:184 and ends the whole
  process. The model does not represent that crash.
- Server.InitProxyReply: requires at least four payload bytes, for the same
  reason as `GetPacketRequestID`.
- Server.HandleInitProxy: requires at least four payload bytes, for the same
  reason.
- Server.ServeInitProxy: requires at least four payload bytes, for the same
  reason.
- Dispatch.HandleSerialPacket: requires at least four payload bytes for an
  InitProxy frame. A shorter one is the process crash described above, and
  the model excludes it instead of representing it.
- `sendHello`'s write is `SendPacket` of `Utils.HelloFrame`; its error is
  discarded.
