/**
 * The serial frame codec (packet.go): one type byte, a big-endian
 * 16-bit payload length, then the payload. `SendPacket` writes a frame
 * to a serial port that may accept fewer bytes than offered;
 * `ReadPacket` reads one frame back from a byte stream.
 */
module Packet {
  import opened Wrappers
  import opened Bytes

  const Hello: uint8 := 0
  const InitProxy: uint8 := 1
  const Data: uint8 := 2
  const ClosePort: uint8 := 3
  const Response: uint8 := 4
  const MaxPayloadSize: nat := 1024 * 8
  const HeaderSize: nat := 3

  /** A frame as read: `requestID` is never filled in by the reader. */
  datatype Packet = Packet(ptype: uint8, requestID: uint32, payload: seq<uint8>)

  /** A frame waiting in the outgoing queue. */
  datatype OutgoingPacket = OutgoingPacket(ptype: uint8, payload: seq<uint8>)

  /** The header `sendPacket` builds for a payload of the given length. */
  function Header(ptype: uint8, payloadLength: nat): seq<uint8>
  {
    [ptype] + BE16(TruncateTo16(payloadLength))
  }

  /** Every byte `sendPacket` writes for one packet, in order. */
  function Frame(ptype: uint8, payload: seq<uint8>): (frame: seq<uint8>)
    ensures |frame| == HeaderSize + |payload| && frame[0] == ptype && frame[HeaderSize..] == payload
  {
    Header(ptype, |payload|) + payload
  }

  /** The header is three bytes: the type, then the length modulo 65536, high byte first. */
  lemma HeaderLayout(ptype: uint8, payload: seq<uint8>)
    ensures var f := Frame(ptype, payload);
      |f| == HeaderSize + |payload| &&
      f[0] == ptype &&
      Uint16At(f[1..HeaderSize]) == |payload| % 0x1_0000 &&
      f[HeaderSize..] == payload
  {
    BE16RoundTrip(TruncateTo16(|payload|));
  }

  // ---------------------------------------------------------------- reading

  datatype ReadError = EOF | UnexpectedEOF

  /**
   * `io.ReadFull` on a stream holding `stream` before its end: nothing
   * asked, nothing read; nothing there, EOF; some but not enough,
   * unexpected EOF.
   */
  function ReadFull(stream: seq<uint8>, n: nat): (r: Result<(seq<uint8>, seq<uint8>), ReadError>)
    ensures r.Ok? ==> |r.value.0| == n && r.value.0 + r.value.1 == stream
  {
    if n == 0 then Ok(([], stream))
    else if |stream| == 0 then Err(EOF)
    else if |stream| < n then Err(UnexpectedEOF)
    else Ok((stream[..n], stream[n..]))
  }

  /** A frame read from the front of a stream, and what is left unread. */
  datatype Decoded = Decoded(packet: Packet, rest: seq<uint8>)

  /** What `readPacket` returns for a stream holding `stream` before its end. */
  function DecodeFrame(stream: seq<uint8>): (r: Result<Decoded, ReadError>)
    ensures r.Ok? ==>
      r.value.packet.requestID == 0 && |r.value.packet.payload| <= MaxUint16 &&
      |stream| == HeaderSize + |r.value.packet.payload| + |r.value.rest| &&
      r.value.packet.payload + r.value.rest == stream[HeaderSize..]
  {
    match ReadFull(stream, HeaderSize)
    case Err(e) => Err(e)
    case Ok((header, afterHeader)) =>
      match ReadFull(afterHeader, Uint16At(header[1..]))
      case Err(e) => Err(e)
      case Ok((payload, rest)) => Ok(Decoded(Packet(header[0], 0, payload), rest))
  }

  /**
   * Round trip: a frame followed by anything decodes to its type and
   * payload and leaves exactly what followed it.
   */
  lemma FrameRoundTrip(ptype: uint8, payload: seq<uint8>, rest: seq<uint8>)
    requires |payload| <= MaxUint16
    ensures DecodeFrame(Frame(ptype, payload) + rest) == Ok(Decoded(Packet(ptype, 0, payload), rest))
  {
    FrameTruncation(ptype, payload, rest);
    assert payload[..|payload|] == payload;
  }

  /**
   * The length field is not checked when writing: a payload of 65536
   * bytes or more is announced with its length modulo 65536, so the
   * reader takes only that many bytes and treats the remainder of the
   * payload as the start of the next frame.
   */
  lemma FrameTruncation(ptype: uint8, payload: seq<uint8>, rest: seq<uint8>)
    ensures var k := |payload| % 0x1_0000;
      DecodeFrame(Frame(ptype, payload) + rest) ==
        Ok(Decoded(Packet(ptype, 0, payload[..k]), payload[k..] + rest))
  {
    var k := |payload| % 0x1_0000;
    var s := Frame(ptype, payload) + rest;
    BE16RoundTrip(TruncateTo16(|payload|));
    assert s[..HeaderSize] == Header(ptype, |payload|);
    assert s[HeaderSize..] == payload + rest;
    assert (payload + rest)[..k] == payload[..k];
    assert (payload + rest)[k..] == payload[k..] + rest;
  }

  /**
   * Decoding inverts encoding: whatever decodes was a well-formed frame
   * of the payload's own length (at most 65535), followed by the rest;
   * the request ID is left at zero.
   */
  lemma DecodeIsFrame(stream: seq<uint8>)
    requires DecodeFrame(stream).Ok?
    ensures var d := DecodeFrame(stream).value;
      |stream| >= HeaderSize &&
      d.packet.ptype == stream[0] &&
      d.packet.requestID == 0 &&
      |d.packet.payload| == Uint16At(stream[1..HeaderSize]) <= MaxUint16 &&
      stream == Frame(d.packet.ptype, d.packet.payload) + d.rest
  {
    var d := DecodeFrame(stream).value;
    Uint16AtRoundTrip(stream[1..HeaderSize]);
    assert stream == stream[..HeaderSize] + d.packet.payload + d.rest;
  }

  /**
   * The errors of `readPacket`: an empty stream is a clean EOF; one that
   * ends inside the header, or inside a payload after at least one of
   * its bytes, is an unexpected EOF; one that ends right after a header
   * announcing a non-empty payload is a clean EOF again, as `io.ReadFull`
   * reports when it reads nothing. A decode fails exactly when the stream
   * is shorter than the frame its header announces.
   */
  lemma DecodeErrors(stream: seq<uint8>)
    ensures stream == [] ==> DecodeFrame(stream) == Err(EOF)
    ensures 0 < |stream| < HeaderSize ==> DecodeFrame(stream) == Err(UnexpectedEOF)
    ensures |stream| >= HeaderSize ==>
      var size := Uint16At(stream[1..HeaderSize]);
      (DecodeFrame(stream).Err? <==> |stream| < HeaderSize + size) &&
      (|stream| == HeaderSize && size > 0 ==> DecodeFrame(stream) == Err(EOF)) &&
      (HeaderSize < |stream| < HeaderSize + size ==> DecodeFrame(stream) == Err(UnexpectedEOF))
  {
  }

  // ---------------------------------------------------------------- writing

  type Positive = n: int | n >= 1 witness 1

  /**
   * What the serial port does with one Write call: accept between one
   * and `limit` of the offered bytes, or fail.
   */
  datatype WriteOutcome = Accepts(limit: Positive) | Fails

  predicate NoWriteFailures(script: seq<WriteOutcome>)
  {
    forall i :: 0 <= i < |script| ==> script[i].Accepts?
  }

  predicate NoDrainFailures(script: seq<bool>)
  {
    forall i :: 0 <= i < |script| ==> script[i]
  }

  /** A script once `k` of its entries are used up (calls past its end take nothing). */
  function After<T>(script: seq<T>, k: nat): (r: seq<T>)
    ensures |r| == if k < |script| then |script| - k else 0
  {
    if k < |script| then script[k..] else []
  }

  /** Using up `a` entries and then `b` more is using up `a + b`. */
  lemma AfterAfter<T>(script: seq<T>, a: nat, b: nat)
    ensures After(After(script, a), b) == After(script, a + b)
  {
  }

  /** How many bytes a Write call offering `offered` of them puts on the line when it does not fail. */
  function Accepted(script: seq<WriteOutcome>, offered: nat): (n: nat)
    ensures n <= offered && (offered > 0 ==> n > 0)
  {
    if script == [] || script[0].Fails? then offered
    else if script[0].limit < offered then script[0].limit
    else offered
  }

  /** None of the first `k` Write calls meets a failure. */
  predicate AllAccept(script: seq<WriteOutcome>, k: nat)
  {
    forall j :: 0 <= j < k && j < |script| ==> script[j].Accepts?
  }

  /**
   * The serial port, as far as the writer sees it. `sent` is every byte
   * handed to the device so far, `drainMarks` the length of `sent` at
   * each Drain call; the two scripts give the outcomes of the coming
   * Write and Drain calls (when a script runs out, calls succeed in full).
   */
  class Port {
    var sent: seq<uint8>
    var drainMarks: seq<nat>
    var writeScript: seq<WriteOutcome>
    var drainScript: seq<bool>

    constructor (writeScript: seq<WriteOutcome>, drainScript: seq<bool>)
      ensures sent == [] && drainMarks == []
      ensures this.writeScript == writeScript && this.drainScript == drainScript
    {
      sent, drainMarks := [], [];
      this.writeScript, this.drainScript := writeScript, drainScript;
    }

    method Write(buf: seq<uint8>) returns (n: nat, failed: bool)
      requires |buf| > 0
      modifies this
      ensures drainMarks == old(drainMarks) && drainScript == old(drainScript)
      ensures writeScript == After(old(writeScript), 1)
      ensures failed <==> old(writeScript) != [] && old(writeScript)[0].Fails?
      ensures failed ==> n == 0 && sent == old(sent)
      ensures !failed ==> n == Accepted(old(writeScript), |buf|) && sent == old(sent) + buf[..n]
    {
      var outcome := if writeScript == [] then Accepts(|buf|) else writeScript[0];
      writeScript := if writeScript == [] then [] else writeScript[1..];
      match outcome
      case Fails =>
        n, failed := 0, true;
      case Accepts(limit) =>
        n := if limit < |buf| then limit else |buf|;
        failed := false;
        sent := sent + buf[..n];
    }

    method Drain() returns (ok: bool)
      modifies this
      ensures sent == old(sent) && writeScript == old(writeScript)
      ensures drainMarks == old(drainMarks) + [|sent|]
      ensures drainScript == After(old(drainScript), 1)
      ensures ok <==> old(drainScript) == [] || old(drainScript)[0]
    {
      ok := drainScript == [] || drainScript[0];
      drainScript := if drainScript == [] then [] else drainScript[1..];
      drainMarks := drainMarks + [|sent|];
    }
  }

  /**
   * How a run of Write calls plays out against the port's script: how
   * many bytes reached the line, whether it stopped on a failed Write,
   * and how many Write calls it made.
   */
  datatype WriteRun = WriteRun(written: nat, failed: bool, calls: nat)

  /** `run` preceded by `written` bytes taken in `calls` successful calls. */
  function Behind(written: nat, calls: nat, run: WriteRun): WriteRun
  {
    WriteRun(written + run.written, run.failed, calls + run.calls)
  }

  /** One `for written < len(buf)` loop offering `todo` bytes, call by call. */
  function RunWrites(script: seq<WriteOutcome>, todo: nat): (r: WriteRun)
    ensures r.written <= todo && (r.failed <==> r.written < todo)
    decreases todo
  {
    if todo == 0 then WriteRun(0, false, 0)
    else if script != [] && script[0].Fails? then WriteRun(0, true, 1)
    else
      var n := Accepted(script, todo);
      Behind(n, 1, RunWrites(After(script, 1), todo - n))
  }

  /** The first call of a write loop, as `Port.Write` reports it, and the loop that follows it. */
  lemma RunWritesStep(script: seq<WriteOutcome>, todo: nat, n: nat, failed: bool)
    requires todo > 0 && (failed <==> script != [] && script[0].Fails?)
    requires !failed ==> n == Accepted(script, todo)
    ensures failed ==> RunWrites(script, todo) == WriteRun(0, true, 1)
    ensures !failed ==> RunWrites(script, todo) == Behind(n, 1, RunWrites(After(script, 1), todo - n))
  {
  }

  /** The header loop, then (unless it failed) the payload loop. */
  function RunFrameWrites(script: seq<WriteOutcome>, headerSize: nat, payloadSize: nat): (r: WriteRun)
    ensures r.written <= headerSize + payloadSize && (r.failed <==> r.written < headerSize + payloadSize)
  {
    var h := RunWrites(script, headerSize);
    if h.failed then h else Behind(h.written, h.calls, RunWrites(After(script, h.calls), payloadSize))
  }

  /**
   * A write loop takes the whole buffer unless it fails; it makes at
   * most one call per byte; and it fails exactly when one of its own
   * calls meets a failure, which is then its last call.
   */
  lemma {:induction false} RunWritesMeaning(script: seq<WriteOutcome>, todo: nat)
    ensures var r := RunWrites(script, todo);
      r.calls <= todo &&
      (r.failed <==> !AllAccept(script, r.calls)) &&
      (r.failed ==> 1 <= r.calls <= |script| && script[r.calls - 1].Fails? && AllAccept(script, r.calls - 1))
    decreases todo
  {
    if todo > 0 && !(script != [] && script[0].Fails?) {
      var n := Accepted(script, todo);
      var rest := After(script, 1);
      RunWritesMeaning(rest, todo - n);
      var r := RunWrites(rest, todo - n);
      assert AllAccept(script, 1 + r.calls) <==> AllAccept(rest, r.calls) by {
        if AllAccept(rest, r.calls) {
          forall j | 0 <= j < 1 + r.calls && j < |script|
            ensures script[j].Accepts?
          {
            if j > 0 {
              assert rest[j - 1] == script[j];
            }
          }
        }
        if AllAccept(script, 1 + r.calls) {
          forall j | 0 <= j < r.calls && j < |rest|
            ensures rest[j].Accepts?
          {
            assert rest[j] == script[j + 1];
          }
        }
      }
      if r.failed {
        assert rest[r.calls - 1] == script[r.calls];
        forall j | 0 <= j < r.calls && j < |script|
          ensures script[j].Accepts?
        {
          if j > 0 {
            assert rest[j - 1] == script[j];
          }
        }
      }
    }
  }

  /** `AllAccept` over `a + b` calls is `AllAccept` over the first `a` and the `b` after them. */
  lemma AllAcceptSplit(script: seq<WriteOutcome>, a: nat, b: nat)
    ensures AllAccept(script, a + b) <==> AllAccept(script, a) && AllAccept(After(script, a), b)
  {
    if AllAccept(script, a) && AllAccept(After(script, a), b) {
      forall j | 0 <= j < a + b && j < |script|
        ensures script[j].Accepts?
      {
        if j >= a {
          assert After(script, a)[j - a] == script[j];
        }
      }
    }
  }

  /**
   * The header and payload loops together take the whole frame unless
   * they fail, make at most one call per byte, and fail exactly when
   * one of their own calls meets a failure: so a port whose next
   * `headerSize + payloadSize` Write calls all succeed takes the frame
   * whole, whatever its script holds further on.
   */
  lemma RunFrameWritesMeaning(script: seq<WriteOutcome>, headerSize: nat, payloadSize: nat)
    ensures var r := RunFrameWrites(script, headerSize, payloadSize);
      r.calls <= headerSize + payloadSize &&
      (r.failed <==> !AllAccept(script, r.calls)) &&
      (AllAccept(script, headerSize + payloadSize) ==> !r.failed)
  {
    var h := RunWrites(script, headerSize);
    RunWritesMeaning(script, headerSize);
    var p := RunWrites(After(script, h.calls), payloadSize);
    RunWritesMeaning(After(script, h.calls), payloadSize);
    AllAcceptSplit(script, h.calls, p.calls);
    var r := RunFrameWrites(script, headerSize, payloadSize);
    if AllAccept(script, headerSize + payloadSize) {
      assert AllAccept(script, r.calls);
    }
  }

  datatype SendError = WriteError | DrainError

  /**
   * Where a write loop over `buf` stands after `calls` successful calls
   * have taken `written` bytes: the script has lost those entries, and
   * the whole loop's run is those calls followed by the run of the rest.
   */
  predicate Progress(script0: seq<WriteOutcome>, size: nat, written: nat, calls: nat, script: seq<WriteOutcome>)
  {
    written <= size && script == After(script0, calls) &&
    RunWrites(script0, size) == Behind(written, calls, RunWrites(script, size - written))
  }

  /** One more successful call of the loop keeps its `Progress`. */
  lemma ProgressStep(script0: seq<WriteOutcome>, size: nat, written: nat, calls: nat, script: seq<WriteOutcome>, n: nat)
    requires Progress(script0, size, written, calls, script) && written < size
    requires !(script != [] && script[0].Fails?) && n == Accepted(script, size - written)
    ensures Progress(script0, size, written + n, calls + 1, After(script, 1))
  {
    AfterAfter(script0, calls, 1);
    RunWritesStep(script, size - written, n, false);
  }

  /** A failed call ends the loop: its run fails after the calls made so far. */
  lemma ProgressFails(script0: seq<WriteOutcome>, size: nat, written: nat, calls: nat, script: seq<WriteOutcome>)
    requires Progress(script0, size, written, calls, script) && written < size
    requires script != [] && script[0].Fails?
    ensures RunWrites(script0, size) == WriteRun(written, true, calls + 1)
    ensures After(script, 1) == After(script0, calls + 1)
  {
    AfterAfter(script0, calls, 1);
  }

  /** A loop that has taken the whole buffer is done, without failure. */
  lemma ProgressDone(script0: seq<WriteOutcome>, size: nat, calls: nat, script: seq<WriteOutcome>)
    requires Progress(script0, size, size, calls, script)
    ensures RunWrites(script0, size) == WriteRun(size, false, calls)
  {
  }

  /** The bytes taken so far, then the first `n` of the rest offered, are the first `written + n` bytes. */
  lemma PrefixGrows(buf: seq<uint8>, written: nat, n: nat)
    requires written + n <= |buf|
    ensures buf[..written] + buf[written..][..n] == buf[..written + n]
  {
    assert buf[written..][..n] == buf[written..written + n];
  }

  /**
   * One `for written < len(buf)` loop of `sendPacket`: offer the rest of
   * `buf` until the port has taken all of it, or stop at the first
   * failed Write with a proper prefix of `buf` on the line.
   */
  method WriteAll(port: Port, buf: seq<uint8>) returns (failed: bool)
    modifies port
    ensures port.drainMarks == old(port.drainMarks) && port.drainScript == old(port.drainScript)
    ensures var run := RunWrites(old(port.writeScript), |buf|);
      failed == run.failed && port.writeScript == After(old(port.writeScript), run.calls) &&
      port.sent == old(port.sent) + buf[..run.written]
  {
    ghost var calls := 0;
    var written := 0;
    while written < |buf|
      invariant Progress(old(port.writeScript), |buf|, written, calls, port.writeScript)
      invariant port.sent == old(port.sent) + buf[..written]
      invariant port.drainMarks == old(port.drainMarks) && port.drainScript == old(port.drainScript)
    {
      ghost var script := port.writeScript;
      var n;
      n, failed := port.Write(buf[written..]);
      if failed {
        ProgressFails(old(port.writeScript), |buf|, written, calls, script);
        return;
      }
      ProgressStep(old(port.writeScript), |buf|, written, calls, script, n);
      PrefixGrows(buf, written, n);
      written, calls := written + n, calls + 1;
    }
    ProgressDone(old(port.writeScript), |buf|, calls, port.writeScript);
    assert buf[..written] == buf;
    return false;
  }

  /** A prefix of `first + second` seen as a prefix of `first`, or as `first` and a prefix of `second`. */
  lemma SplitPrefix(first: seq<uint8>, second: seq<uint8>, k: nat)
    requires k <= |first| + |second|
    ensures k <= |first| ==> (first + second)[..k] == first[..k]
    ensures k >= |first| ==> (first + second)[..k] == first + second[..k - |first|]
  {
    if k >= |first| {
      assert (first + second)[..k] == first + second[..k - |first|];
    }
  }

  /**
   * The two write loops of `sendPacket`: the header, then the payload.
   * A failure in either stops at once; no drain happens.
   */
  method WriteHeaderAndPayload(port: Port, header: seq<uint8>, payload: seq<uint8>) returns (failed: bool)
    modifies port
    ensures port.drainMarks == old(port.drainMarks) && port.drainScript == old(port.drainScript)
    ensures var run := RunFrameWrites(old(port.writeScript), |header|, |payload|);
      failed == run.failed && port.writeScript == After(old(port.writeScript), run.calls) &&
      port.sent == old(port.sent) + (header + payload)[..run.written]
  {
    ghost var script := port.writeScript;
    ghost var h := RunWrites(script, |header|);
    failed := WriteAll(port, header);
    if failed {
      SplitPrefix(header, payload, h.written);
      return;
    }
    ghost var p := RunWrites(port.writeScript, |payload|);
    failed := WriteAll(port, payload);
    AfterAfter(script, h.calls, p.calls);
    SplitPrefix(header, payload, |header| + p.written);
  }

  /**
   * `sendPacket`: the header, then the payload, each offered again from
   * where the last Write stopped until all of it is taken, then one
   * Drain. A failed Write returns at once, leaving a prefix of the frame
   * on the line and no Drain; Drain runs only once the whole frame is out.
   */
  method SendPacket(port: Port, packet: Packet) returns (err: Option<SendError>)
    modifies port
    ensures var run := RunFrameWrites(old(port.writeScript), HeaderSize, |packet.payload|);
      port.writeScript == After(old(port.writeScript), run.calls) &&
      port.sent == old(port.sent) + Frame(packet.ptype, packet.payload)[..run.written]
    ensures var run := RunFrameWrites(old(port.writeScript), HeaderSize, |packet.payload|);
      run.failed ==>
        err == Some(WriteError) &&
        port.drainMarks == old(port.drainMarks) && port.drainScript == old(port.drainScript)
    ensures var run := RunFrameWrites(old(port.writeScript), HeaderSize, |packet.payload|);
      !run.failed ==>
        err == (if old(port.drainScript) == [] || old(port.drainScript)[0] then None else Some(DrainError)) &&
        port.drainMarks == old(port.drainMarks) + [|port.sent|] &&
        port.drainScript == After(old(port.drainScript), 1)
  {
    var header := new uint8[HeaderSize];
    header[0] := packet.ptype;
    var length := TruncateTo16(|packet.payload|);
    header[1], header[2] := length / 0x100, length % 0x100;
    assert header[..] == Header(packet.ptype, |packet.payload|);
    assert Frame(packet.ptype, packet.payload) == header[..] + packet.payload;
    var failed := WriteHeaderAndPayload(port, header[..], packet.payload);
    if failed {
      return Some(WriteError);
    }
    var ok := port.Drain();
    if !ok {
      return Some(DrainError);
    }
    return None;
  }

  /**
   * What one `sendPacket` call puts on the line and reports: a whole
   * frame and one Drain, unless one of its own (at most one per byte)
   * Write calls fails, in which case only a proper prefix went out and
   * no Drain ran; a DrainError only from its own Drain. So a port that
   * never fails lets every send through, and a port failing once costs
   * at most the frame that met the failure.
   */
  lemma SendOutcome(writeScript: seq<WriteOutcome>, drainScript: seq<bool>, payloadSize: nat)
    ensures var run := RunFrameWrites(writeScript, HeaderSize, payloadSize);
      run.calls <= HeaderSize + payloadSize &&
      (run.failed <==> run.written < HeaderSize + payloadSize) &&
      (run.failed <==> !AllAccept(writeScript, run.calls)) &&
      (AllAccept(writeScript, HeaderSize + payloadSize) ==> !run.failed) &&
      (NoWriteFailures(writeScript) ==> !run.failed && NoWriteFailures(After(writeScript, run.calls))) &&
      (NoDrainFailures(drainScript) ==> (drainScript == [] || drainScript[0]) && NoDrainFailures(After(drainScript, 1)))
  {
    RunFrameWritesMeaning(writeScript, HeaderSize, payloadSize);
  }

  // ---------------------------------------------------------------- reader

  /** The serial port's read side: the bytes still to arrive before the stream ends. */
  class Reader {
    var remaining: seq<uint8>

    constructor (stream: seq<uint8>)
      ensures remaining == stream
    {
      remaining := stream;
    }

    /** `io.ReadFull(r, buf)`: on success `buf` holds the next bytes of the stream. */
    method ReadFullInto(buf: array<uint8>) returns (err: Option<ReadError>)
      modifies this, buf
      ensures var r := ReadFull(old(remaining), buf.Length);
        match r
        case Ok((data, rest)) => err == None && buf[..] == data && remaining == rest
        case Err(e) => err == Some(e) && remaining == []
    {
      if buf.Length == 0 {
        return None;
      }
      if |remaining| < buf.Length {
        err := if remaining == [] then Some(EOF) else Some(UnexpectedEOF);
        remaining := [];
        return;
      }
      forall i | 0 <= i < buf.Length {
        buf[i] := remaining[i];
      }
      remaining := remaining[buf.Length..];
      return None;
    }
  }

  /**
   * `readPacket`: read a 3-byte header into a buffer, then a buffer of
   * the length it announces; either read failing fails the whole read.
   */
  method ReadPacket(r: Reader) returns (result: Result<Packet, ReadError>)
    modifies r
    ensures match DecodeFrame(old(r.remaining))
      case Ok(d) => result == Ok(d.packet) && r.remaining == d.rest
      case Err(e) => result == Err(e) && r.remaining == []
  {
    var header := new uint8[HeaderSize];
    var err := r.ReadFullInto(header);
    if err.Some? {
      return Err(err.value);
    }
    var packetType := header[0];
    var payloadSize := Uint16At(header[1..]);
    var payload := new uint8[payloadSize];
    err := r.ReadFullInto(payload);
    if err.Some? {
      return Err(err.value);
    }
    return Ok(Packet(packetType, 0, payload[..]));
  }
}
