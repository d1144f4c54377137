/**
 * server.go: the InitProxy handler, which dials the requested target
 * and answers with exactly one Response, and the serial writer, the one
 * task that takes frames off the outgoing queue and writes them to the
 * serial port.
 */
module Server {
  import opened Wrappers
  import opened Bytes
  import opened Text
  import opened Packet
  import opened Engine
  import opened Utils
  import opened Connection

  /** The five fields of an InitProxy request, numbers converted with their errors discarded. */
  datatype InitProxyFields = InitProxyFields(
    remoteHost: seq<uint8>, remotePort: int, localHost: seq<uint8>, localPort: int, connectionID: uint32)

  /** `v, _ := strconv.Atoi(s)`: a syntax error leaves 0. */
  function AtoiOrZero(s: seq<uint8>): int
  {
    match Atoi(s)
    case Some(v) => v
    case None => 0
  }

  /**
   * The payload after the request ID must split at colons into exactly
   * five fields; the numeric ones are converted without checking. The
   * remote host is what precedes the first colon, and neither host
   * holds a colon.
   */
  function ParseInitProxy(payload: seq<uint8>): (r: Option<InitProxyFields>)
    ensures r.Some? ==> Colon !in r.value.remoteHost && Colon !in r.value.localHost
    ensures r.Some? ==>
      |r.value.remoteHost| < |payload| && payload[..|r.value.remoteHost|] == r.value.remoteHost &&
      payload[|r.value.remoteHost|] == Colon
  {
    var parts := Split(payload, Colon);
    if |parts| != 5 then None
    else
      JoinSplit(payload, Colon);
      assert payload == parts[0] + [Colon] + Join(parts[1..], Colon);
      Some(InitProxyFields(parts[0], AtoiOrZero(parts[1]), parts[2], AtoiOrZero(parts[3]), ParseUint32Value(parts[4])))
  }

  /** A payload is rejected exactly when it does not hold four colons. */
  lemma InitProxyNeedsFourColons(payload: seq<uint8>)
    ensures ParseInitProxy(payload).Some? <==> Occurrences(payload, Colon) == 4
  {
    SplitCount(payload, Colon);
  }

  /**
   * Any five colon-free fields are accepted, whatever the numeric ones
   * hold: malformed numbers become 0 (or MaxUint32 for an oversized
   * connection ID) instead of causing a rejection.
   */
  lemma InitProxyAcceptsAnyFiveFields(fields: seq<seq<uint8>>)
    requires |fields| == 5
    requires forall i :: 0 <= i < 5 ==> Colon !in fields[i]
    ensures ParseInitProxy(Join(fields, Colon)) ==
      Some(InitProxyFields(fields[0], AtoiOrZero(fields[1]), fields[2], AtoiOrZero(fields[3]), ParseUint32Value(fields[4])))
  {
    SplitJoin(fields, Colon);
  }

  /** The address `net.Dial` is given: `localHost:localPort`. */
  function DialAddress(f: InitProxyFields): seq<uint8>
  {
    f.localHost + [Colon] + FormatInt(f.localPort)
  }

  /** The outcome of `net.Dial`, supplied from outside. */
  datatype DialResult = Dialed(conn: Conn) | DialFailed(reason: seq<uint8>)

  /** The arguments of the `handleServerConnection` goroutine a successful InitProxy starts. */
  datatype ServerForwarder = ServerForwarder(conn: Conn, host: seq<uint8>, port: int, connectionID: uint32)

  function DialFailureMessage(port: int, reason: seq<uint8>): seq<uint8>
  {
    Ascii("failed to dial port ") + FormatInt(port) + Ascii(": ") + reason
  }

  /**
   * The one Response `handleInitProxy` sends, and the forwarder it
   * starts, if any. The Response always echoes the request's ID. A
   * payload without five fields fails with "invalid payload format" and
   * causes no dial; a failed dial fails with its reason; after a
   * successful dial the Response reports success and the forwarder gets
   * fields 1 and 2 and the connection ID of field 5.
   */
  function InitProxyReply(packet: Packet, dial: seq<uint8> -> DialResult): (r: (ResponsePacket, Option<ServerForwarder>))
    requires |packet.payload| >= 4
    ensures r.0.requestID == GetPacketRequestID(packet).0
    ensures r.1.Some? <==> r.0.success
    ensures r.0.success <==>
      ParseInitProxy(GetPacketRequestID(packet).1).Some? &&
      dial(DialAddress(ParseInitProxy(GetPacketRequestID(packet).1).value)).Dialed?
    ensures r.1.Some? ==>
      var f := ParseInitProxy(GetPacketRequestID(packet).1).value;
      r.1.value == ServerForwarder(dial(DialAddress(f)).conn, f.remoteHost, f.remotePort, f.connectionID)
  {
    var (requestID, payload) := GetPacketRequestID(packet);
    match ParseInitProxy(payload)
    case None => (ResponsePacket(requestID, false, Ascii("invalid payload format")), None)
    case Some(f) =>
      match dial(DialAddress(f))
      case DialFailed(reason) => (ResponsePacket(requestID, false, DialFailureMessage(f.localPort, reason)), None)
      case Dialed(conn) =>
        (ResponsePacket(requestID, true, Ascii("proxy initialized successfully")),
         Some(ServerForwarder(conn, f.remoteHost, f.remotePort, f.connectionID)))
  }

  /** A request whose payload does not hold exactly four colons is refused with "invalid payload format", before any dial. */
  lemma MalformedInitProxyRefused(packet: Packet, dial: seq<uint8> -> DialResult)
    requires |packet.payload| >= 4
    requires Occurrences(GetPacketRequestID(packet).1, Colon) != 4
    ensures InitProxyReply(packet, dial) ==
      (ResponsePacket(GetPacketRequestID(packet).0, false, Ascii("invalid payload format")), None)
  {
    InitProxyNeedsFourColons(GetPacketRequestID(packet).1);
  }

  /**
   * `handleInitProxy`: queue exactly one Response, the one
   * `InitProxyReply` describes, and hand back the forwarder to start.
   * Nothing is registered here: the forwarder registers its own socket,
   * after the Response is already queued.
   */
  method HandleInitProxy(st: State, packet: Packet, dial: seq<uint8> -> DialResult) returns (fwd: Option<ServerForwarder>)
    requires |packet.payload| >= 4
    modifies st`outgoing
    ensures var (response, forwarder) := InitProxyReply(packet, dial);
      fwd == forwarder && st.outgoing == old(st.outgoing) + [ResponseOut(response)]
  {
    var (requestID, payload) := GetPacketRequestID(packet);
    var fields := ParseInitProxy(payload);
    if fields.None? {
      SendResponse(st, requestID, false, Ascii("invalid payload format"));
      return None;
    }
    var f := fields.value;
    var outcome := dial(DialAddress(f));
    if outcome.DialFailed? {
      SendResponse(st, requestID, false, DialFailureMessage(f.localPort, outcome.reason));
      return None;
    }
    SendResponse(st, requestID, true, Ascii("proxy initialized successfully"));
    return Some(ServerForwarder(outcome.conn, f.remoteHost, f.remotePort, f.connectionID));
  }

  /**
   * `handleInitProxy` followed by the forwarder it starts (server.go:57-59),
   * run to the end of its reads: the success Response is queued before
   * any Data or ClosePort of that connection, and the forwarder's
   * registry entry is gone again once it has finished.
   */
  method ServeInitProxy(st: State, packet: Packet, dial: seq<uint8> -> DialResult, chunks: seq<seq<uint8>>)
    requires |packet.payload| >= 4 && ReadsFit(chunks)
    modifies st`connections, st`outgoing, st`socketLog
    ensures var (response, forwarder) := InitProxyReply(packet, dial);
      var reply := ResponseOut(response);
      match forwarder
      case None =>
        st.outgoing == old(st.outgoing) + [reply] &&
        st.connections == old(st.connections) && st.socketLog == old(st.socketLog)
      case Some(f) =>
        st.outgoing == old(st.outgoing) + [reply] + DataPackets(f.connectionID, chunks) +
          [OutgoingPacket(ClosePort, FormatInt(f.port))] &&
        st.connections == old(st.connections) - {f.connectionID} &&
        st.socketLog == old(st.socketLog) + [SocketClose(f.conn)]
  {
    var fwd := HandleInitProxy(st, packet, dial);
    if fwd.Some? {
      HandleServerConnection(st, fwd.value.conn, fwd.value.host, fwd.value.port, fwd.value.connectionID, chunks);
    }
  }

  // ---------------------------------------------------------------- serial writer

  function FrameOf(p: OutgoingPacket): seq<uint8>
  {
    Frame(p.ptype, p.payload)
  }

  /** Every frame of the queue, in queue order. */
  function AllFrames(queue: seq<OutgoingPacket>): seq<uint8>
  {
    if queue == [] then [] else AllFrames(queue[..|queue| - 1]) + FrameOf(queue[|queue| - 1])
  }

  predicate CutsFit(queue: seq<OutgoingPacket>, cuts: seq<nat>)
  {
    |cuts| == |queue| && forall i :: 0 <= i < |queue| ==> cuts[i] <= |FrameOf(queue[i])|
  }

  /** What reaches the line when the `i`-th frame stops after `cuts[i]` bytes. */
  function Transmitted(queue: seq<OutgoingPacket>, cuts: seq<nat>): seq<uint8>
    requires CutsFit(queue, cuts)
  {
    if queue == [] then []
    else
      var n := |queue| - 1;
      Transmitted(queue[..n], cuts[..n]) + FrameOf(queue[n])[..cuts[n]]
  }

  /** Every frame whose send reported no error went out whole. */
  predicate SentWhole(done: seq<OutgoingPacket>, failed: seq<bool>, cuts: seq<nat>)
    requires |failed| == |done| == |cuts|
  {
    forall i :: 0 <= i < |failed| && !failed[i] ==> cuts[i] == |FrameOf(done[i])|
  }

  lemma TransmittedStep(done: seq<OutgoingPacket>, cuts: seq<nat>, packet: OutgoingPacket, cut: nat)
    requires CutsFit(done, cuts) && cut <= |FrameOf(packet)|
    ensures CutsFit(done + [packet], cuts + [cut])
    ensures Transmitted(done + [packet], cuts + [cut]) == Transmitted(done, cuts) + FrameOf(packet)[..cut]
  {
    assert (done + [packet])[..|done|] == done;
    assert (cuts + [cut])[..|cuts|] == cuts;
  }

  lemma SentWholeStep(done: seq<OutgoingPacket>, failed: seq<bool>, cuts: seq<nat>,
                      packet: OutgoingPacket, f: bool, cut: nat)
    requires |failed| == |done| == |cuts| && SentWhole(done, failed, cuts)
    requires !f ==> cut == |FrameOf(packet)|
    ensures SentWhole(done + [packet], failed + [f], cuts + [cut])
  {
  }

  /**
   * The drain points one loop step leaves: the Drain inside `sendPacket`
   * when the frame went out whole, then the extra Drain of the loop, both
   * at `end`, the line length after the frame.
   */
  function StepDrains(whole: bool, end: nat): seq<nat>
  {
    if whole then [end, end] else [end]
  }

  /** How many bytes reach the line in all: the sum of the cuts. */
  function CutTotal(cuts: seq<nat>): nat
  {
    if cuts == [] then 0 else CutTotal(cuts[..|cuts| - 1]) + cuts[|cuts| - 1]
  }

  lemma {:induction false} TransmittedLength(queue: seq<OutgoingPacket>, cuts: seq<nat>)
    requires CutsFit(queue, cuts)
    ensures |Transmitted(queue, cuts)| == CutTotal(cuts)
  {
    if queue != [] {
      TransmittedLength(queue[..|queue| - 1], cuts[..|cuts| - 1]);
    }
  }

  /** The drain points of a whole run, when the line held `start` bytes before it. */
  function DrainsAfter(start: nat, queue: seq<OutgoingPacket>, cuts: seq<nat>): seq<nat>
    requires CutsFit(queue, cuts)
  {
    if queue == [] then []
    else
      var n := |queue| - 1;
      DrainsAfter(start, queue[..n], cuts[..n]) + StepDrains(cuts[n] == |FrameOf(queue[n])|, start + CutTotal(cuts))
  }

  lemma DrainsStep(start: nat, done: seq<OutgoingPacket>, cuts: seq<nat>, packet: OutgoingPacket, cut: nat)
    requires CutsFit(done, cuts) && cut <= |FrameOf(packet)|
    requires CutsFit(done + [packet], cuts + [cut])
    ensures DrainsAfter(start, done + [packet], cuts + [cut]) ==
      DrainsAfter(start, done, cuts) + StepDrains(cut == |FrameOf(packet)|, start + CutTotal(cuts + [cut]))
  {
    assert (done + [packet])[..|done|] == done;
    assert (cuts + [cut])[..|cuts|] == cuts;
  }

  /** The line length at the end of the `i`-th frame is one of the drain points of the run. */
  lemma {:induction false} DrainedAt(start: nat, queue: seq<OutgoingPacket>, cuts: seq<nat>, i: nat)
    requires CutsFit(queue, cuts) && i < |queue|
    ensures start + CutTotal(cuts[..i + 1]) in DrainsAfter(start, queue, cuts)
  {
    var n := |queue| - 1;
    var earlier := DrainsAfter(start, queue[..n], cuts[..n]);
    var last := StepDrains(cuts[n] == |FrameOf(queue[n])|, start + CutTotal(cuts));
    if i == n {
      assert cuts[..i + 1] == cuts;
      assert last[0] in earlier + last;
    } else {
      DrainedAt(start, queue[..n], cuts[..n], i);
      assert cuts[..n][..i + 1] == cuts[..i + 1];
      assert start + CutTotal(cuts[..i + 1]) in earlier;
    }
  }

  /**
   * The line and its drain points after the frames `done` were sent
   * with the given cuts, from `sent0` and `marks0`.
   */
  predicate LineAfter(sent0: seq<uint8>, marks0: seq<nat>, done: seq<OutgoingPacket>, cuts: seq<nat>,
                      sent: seq<uint8>, marks: seq<nat>)
    requires CutsFit(done, cuts)
  {
    sent == sent0 + Transmitted(done, cuts) && marks == marks0 + DrainsAfter(|sent0|, done, cuts)
  }

  /** One loop step of the serial writer extends the line and its drain points as `LineAfter` says. */
  /** The line after one more frame, cut at `cut`, and its length. */
  lemma SentStep(sent0: seq<uint8>, done: seq<OutgoingPacket>, cuts: seq<nat>, sent: seq<uint8>,
                 packet: OutgoingPacket, cut: nat, sent': seq<uint8>)
    requires CutsFit(done, cuts) && cut <= |FrameOf(packet)|
    requires sent == sent0 + Transmitted(done, cuts) && sent' == sent + FrameOf(packet)[..cut]
    ensures CutsFit(done + [packet], cuts + [cut])
    ensures sent' == sent0 + Transmitted(done + [packet], cuts + [cut])
    ensures |sent'| == |sent0| + CutTotal(cuts + [cut])
  {
    TransmittedStep(done, cuts, packet, cut);
    TransmittedLength(done + [packet], cuts + [cut]);
  }

  /** The drain points after one more frame, whose drains fall at line length `end`. */
  lemma MarksStep(start: nat, marks0: seq<nat>, done: seq<OutgoingPacket>, cuts: seq<nat>, marks: seq<nat>,
                  packet: OutgoingPacket, cut: nat, end: nat, marks': seq<nat>)
    requires CutsFit(done, cuts) && cut <= |FrameOf(packet)| && CutsFit(done + [packet], cuts + [cut])
    requires marks == marks0 + DrainsAfter(start, done, cuts) && end == start + CutTotal(cuts + [cut])
    requires marks' == marks + StepDrains(cut == |FrameOf(packet)|, end)
    ensures marks' == marks0 + DrainsAfter(start, done + [packet], cuts + [cut])
  {
    DrainsStep(start, done, cuts, packet, cut);
  }

  lemma LineStep(sent0: seq<uint8>, marks0: seq<nat>, done: seq<OutgoingPacket>, cuts: seq<nat>,
                 sent: seq<uint8>, marks: seq<nat>, packet: OutgoingPacket, cut: nat,
                 sent': seq<uint8>, marks': seq<nat>)
    requires CutsFit(done, cuts) && cut <= |FrameOf(packet)|
    requires LineAfter(sent0, marks0, done, cuts, sent, marks)
    requires sent' == sent + FrameOf(packet)[..cut]
    requires marks' == marks + StepDrains(cut == |FrameOf(packet)|, |sent'|)
    ensures CutsFit(done + [packet], cuts + [cut])
    ensures LineAfter(sent0, marks0, done + [packet], cuts + [cut], sent', marks')
  {
    SentStep(sent0, done, cuts, sent, packet, cut, sent');
    MarksStep(|sent0|, marks0, done, cuts, marks, packet, cut, |sent'|, marks');
  }

  /**
   * Each frame is flushed before the next goes out: the line length at
   * the end of the `i`-th frame is one of the drain points of the run.
   */
  lemma DrainedAfterEach(start: nat, queue: seq<OutgoingPacket>, cuts: seq<nat>, i: nat)
    requires CutsFit(queue, cuts) && i < |queue|
    ensures CutsFit(queue[..i + 1], cuts[..i + 1])
    ensures start + |Transmitted(queue[..i + 1], cuts[..i + 1])| in DrainsAfter(start, queue, cuts)
  {
    CutsFitPrefix(queue, cuts, i + 1);
    TransmittedLength(queue[..i + 1], cuts[..i + 1]);
    DrainedAt(start, queue, cuts, i);
  }

  lemma CutsFitPrefix(queue: seq<OutgoingPacket>, cuts: seq<nat>, k: nat)
    requires CutsFit(queue, cuts) && k <= |queue|
    ensures CutsFit(queue[..k], cuts[..k])
  {
  }

  /** When no frame is cut short, what reaches the line is every frame in order. */
  lemma {:induction false} TransmittedWhole(queue: seq<OutgoingPacket>, cuts: seq<nat>)
    requires CutsFit(queue, cuts)
    requires forall i :: 0 <= i < |queue| ==> cuts[i] == |FrameOf(queue[i])|
    ensures Transmitted(queue, cuts) == AllFrames(queue)
  {
    if queue != [] {
      var n := |queue| - 1;
      TransmittedWhole(queue[..n], cuts[..n]);
      assert FrameOf(queue[n])[..cuts[n]] == FrameOf(queue[n]);
    }
  }

  /**
   * Whether `serialWriter` logs an error for `packet` sent against these
   * scripts: one of its own Write calls failed, or its own Drain did.
   */
  predicate StepFails(packet: OutgoingPacket, writes: seq<WriteOutcome>, drains: seq<bool>)
  {
    RunFrameWrites(writes, HeaderSize, |packet.payload|).failed || (drains != [] && !drains[0])
  }

  /**
   * The error flags `serialWriter` logs for `queue`, send by send, each
   * send meeting the scripts where the previous one left them.
   */
  function Failures(queue: seq<OutgoingPacket>, writes: seq<WriteOutcome>, drains: seq<bool>): (r: seq<bool>)
    ensures |r| == |queue|
  {
    if queue == [] then []
    else
      [StepFails(queue[0], writes, drains)] +
      Failures(queue[1..], WritesLeft(queue[0], writes), DrainsLeft(queue[0], writes, drains))
  }

  /** The Write script left after one send of `packet`: past the Write calls it made. */
  function WritesLeft(packet: OutgoingPacket, writes: seq<WriteOutcome>): seq<WriteOutcome>
  {
    After(writes, RunFrameWrites(writes, HeaderSize, |packet.payload|).calls)
  }

  /** The Drain script left after one send of `packet`: past one Drain, or two when its frame went out whole. */
  function DrainsLeft(packet: OutgoingPacket, writes: seq<WriteOutcome>, drains: seq<bool>): seq<bool>
  {
    After(drains, if RunFrameWrites(writes, HeaderSize, |packet.payload|).failed then 1 else 2)
  }

  /** Against a port that never fails, no send of the run is logged as failed. */
  lemma {:induction false} FailuresReliable(queue: seq<OutgoingPacket>, writes: seq<WriteOutcome>, drains: seq<bool>)
    requires NoWriteFailures(writes) && NoDrainFailures(drains)
    ensures true !in Failures(queue, writes, drains)
  {
    if queue != [] {
      SendOutcome(writes, drains, |queue[0].payload|);
      FailuresReliable(queue[1..], WritesLeft(queue[0], writes), DrainsLeft(queue[0], writes, drains));
    }
  }

  /**
   * The flags of the whole run are those logged so far followed by
   * those the still pending sends will log from the scripts as they are.
   */
  predicate LoggedSoFar(queue: seq<OutgoingPacket>, writes0: seq<WriteOutcome>, drains0: seq<bool>,
                        logged: seq<bool>, pending: seq<OutgoingPacket>, writes: seq<WriteOutcome>, drains: seq<bool>)
  {
    Failures(queue, writes0, drains0) == logged + Failures(pending, writes, drains)
  }

  /**
   * Once the queue is empty the flags logged are those of the whole run;
   * against a port that never fails none is set and every frame went
   * out whole, in order.
   */
  lemma RunLogged(queue: seq<OutgoingPacket>, writes0: seq<WriteOutcome>, drains0: seq<bool>,
                  logged: seq<bool>, cuts: seq<nat>, writes: seq<WriteOutcome>, drains: seq<bool>)
    requires LoggedSoFar(queue, writes0, drains0, logged, [], writes, drains)
    requires |logged| == |queue| && CutsFit(queue, cuts) && SentWhole(queue, logged, cuts)
    ensures logged == Failures(queue, writes0, drains0)
    ensures NoWriteFailures(writes0) && NoDrainFailures(drains0) ==>
      true !in logged && Transmitted(queue, cuts) == AllFrames(queue)
  {
    assert logged + Failures([], writes, drains) == logged;
    if NoWriteFailures(writes0) && NoDrainFailures(drains0) {
      FailuresReliable(queue, writes0, drains0);
      TransmittedWhole(queue, cuts);
    }
  }

  /** Taking the head of the pending part moves it to the end of the done part. */
  lemma MoveHead(queue: seq<OutgoingPacket>, done: seq<OutgoingPacket>, pending: seq<OutgoingPacket>)
    requires queue == done + pending && pending != []
    ensures queue == (done + [pending[0]]) + pending[1..]
  {
    assert pending == [pending[0]] + pending[1..];
  }

  /** One send of `serialWriter` contributes its own flag and leaves the scripts to the next. */
  lemma FailuresStep(queue: seq<OutgoingPacket>, writes0: seq<WriteOutcome>, drains0: seq<bool>,
                     logged: seq<bool>, pending: seq<OutgoingPacket>, writes: seq<WriteOutcome>, drains: seq<bool>,
                     f: bool, writes': seq<WriteOutcome>, drains': seq<bool>)
    requires LoggedSoFar(queue, writes0, drains0, logged, pending, writes, drains)
    requires pending != [] && f == StepFails(pending[0], writes, drains)
    requires writes' == WritesLeft(pending[0], writes) && drains' == DrainsLeft(pending[0], writes, drains)
    ensures LoggedSoFar(queue, writes0, drains0, logged + [f], pending[1..], writes', drains')
  {
    var rest := Failures(pending[1..], writes', drains');
    assert Failures(pending, writes, drains) == [f] + rest;
    assert logged + ([f] + rest) == (logged + [f]) + rest;
  }

  /**
   * A send is logged as failed only for a failure it met itself: among
   * the Write entries its frame used (at most one per byte of the frame)
   * or at its own Drain. Whatever fails before or after it, a send whose
   * own entries all succeed goes out whole and is not logged.
   */
  lemma StepFailsOwn(packet: OutgoingPacket, writes: seq<WriteOutcome>, drains: seq<bool>)
    ensures var run := RunFrameWrites(writes, HeaderSize, |packet.payload|);
      run.calls <= |FrameOf(packet)| &&
      (StepFails(packet, writes, drains) <==> !AllAccept(writes, run.calls) || (drains != [] && !drains[0]))
    ensures AllAccept(writes, |FrameOf(packet)|) && (drains == [] || drains[0]) ==>
      !StepFails(packet, writes, drains) && RunFrameWrites(writes, HeaderSize, |packet.payload|).written == |FrameOf(packet)|
  {
    SendOutcome(writes, drains, |packet.payload|);
  }

  /**
   * The body of `serialWriter`'s loop for one packet: send it, log a
   * failure, and drain the port once more whatever happened. `cut` is
   * how many bytes of its frame reached the line.
   */
  method WriteQueued(port: Port, packet: OutgoingPacket) returns (failed: bool, ghost cut: nat)
    modifies port
    ensures cut <= |FrameOf(packet)| && (!failed ==> cut == |FrameOf(packet)|)
    ensures port.sent == old(port.sent) + FrameOf(packet)[..cut]
    ensures port.drainMarks == old(port.drainMarks) + StepDrains(cut == |FrameOf(packet)|, |port.sent|)
    ensures cut == RunFrameWrites(old(port.writeScript), HeaderSize, |packet.payload|).written
    ensures port.writeScript == WritesLeft(packet, old(port.writeScript))
    ensures port.drainScript == DrainsLeft(packet, old(port.writeScript), old(port.drainScript))
    ensures failed == StepFails(packet, old(port.writeScript), old(port.drainScript))
    ensures NoWriteFailures(old(port.writeScript)) && NoDrainFailures(old(port.drainScript)) ==>
      !failed && NoWriteFailures(port.writeScript) && NoDrainFailures(port.drainScript)
  {
    ghost var run := RunFrameWrites(port.writeScript, HeaderSize, |packet.payload|);
    SendOutcome(port.writeScript, port.drainScript, |packet.payload|);
    ghost var drains := port.drainScript;
    var err := SendPacket(port, Packet(packet.ptype, 0, packet.payload));
    cut := run.written;
    failed := err.Some?;
    var drained := port.Drain();
    AfterAfter(drains, if run.failed then 0 else 1, 1);
  }

  /**
   * `serialWriter`, run until the queue is empty: frames go out in queue
   * order; a frame whose send fails is logged and skipped (possibly
   * after part of it reached the line), and the loop goes on.
   * `failed[i]` tells whether the `i`-th send reported an error and
   * `cuts[i]` how many of its bytes reached the line.
   */
  method SerialWriter(st: State, port: Port) returns (failed: seq<bool>, ghost cuts: seq<nat>)
    modifies st`outgoing, port
    ensures st.outgoing == []
    ensures |failed| == |old(st.outgoing)| && CutsFit(old(st.outgoing), cuts)
    ensures SentWhole(old(st.outgoing), failed, cuts)
    ensures port.sent == old(port.sent) + Transmitted(old(st.outgoing), cuts)
    ensures port.drainMarks == old(port.drainMarks) + DrainsAfter(|old(port.sent)|, old(st.outgoing), cuts)
    ensures failed == Failures(old(st.outgoing), old(port.writeScript), old(port.drainScript))
    ensures NoWriteFailures(old(port.writeScript)) && NoDrainFailures(old(port.drainScript)) ==>
      true !in failed && port.sent == old(port.sent) + AllFrames(old(st.outgoing))
  {
    ghost var queue := st.outgoing;
    ghost var done: seq<OutgoingPacket> := [];
    failed, cuts := [], [];
    while st.outgoing != []
      invariant queue == done + st.outgoing
      invariant |failed| == |done| && CutsFit(done, cuts)
      invariant SentWhole(done, failed, cuts)
      invariant LineAfter(old(port.sent), old(port.drainMarks), done, cuts, port.sent, port.drainMarks)
      invariant LoggedSoFar(queue, old(port.writeScript), old(port.drainScript),
                            failed, st.outgoing, port.writeScript, port.drainScript)
      decreases |st.outgoing|
    {
      var packet := st.outgoing[0];
      MoveHead(queue, done, st.outgoing);
      ghost var pending, writes, drains := st.outgoing, port.writeScript, port.drainScript;
      st.outgoing := st.outgoing[1..];
      ghost var sent, marks := port.sent, port.drainMarks;
      var f;
      ghost var cut;
      f, cut := WriteQueued(port, packet);
      SentWholeStep(done, failed, cuts, packet, f, cut);
      FailuresStep(queue, old(port.writeScript), old(port.drainScript),
                   failed, pending, writes, drains, f, port.writeScript, port.drainScript);
      LineStep(old(port.sent), old(port.drainMarks), done, cuts, sent, marks, packet, cut, port.sent, port.drainMarks);
      done := done + [packet];
      failed := failed + [f];
      cuts := cuts + [cut];
    }
    assert done == queue;
    RunLogged(queue, old(port.writeScript), old(port.drainScript), failed, cuts, port.writeScript, port.drainScript);
  }
}
