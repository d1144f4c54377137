/**
 * The process-wide state the proxy keeps in package variables
 * (utils.go:30-36, connection.go:11-17), gathered in one object: the
 * connection registry, the pending-request table, the outgoing queue,
 * the two identifier counters, and a log of what is done to the TCP
 * sockets (writes and closes), in order.
 */
module Engine {
  import opened Bytes
  import opened Packet

  /** A TCP socket, known to the model only by an opaque handle. */
  datatype Conn = Conn(handle: nat)

  datatype SocketOp = SocketWrite(conn: Conn, bytes: seq<uint8>) | SocketClose(conn: Conn)

  /** The record a Response frame carries. */
  datatype ResponsePacket = ResponsePacket(requestID: uint32, success: bool, message: seq<uint8>)

  /** `id++` on a `uint32` counter: wraps from MaxUint32 to 0. */
  function Successor(id: uint32): uint32
  {
    (id + 1) % 0x1_0000_0000
  }

  /** The counter after `k` increments from `start`. */
  function Advance(start: uint32, k: nat): uint32
  {
    if k == 0 then start else Successor(Advance(start, k - 1))
  }

  /** The `k`-th identifier handed out is `start + k`, modulo 2^32. */
  lemma {:induction false} AdvanceIsOffset(start: uint32, k: nat)
    ensures Advance(start, k) == (start + k) % 0x1_0000_0000
  {
    if k > 0 {
      AdvanceIsOffset(start, k - 1);
      SuccessorOfRemainder(start + k - 1);
    }
  }

  /** Taking the remainder before or after adding one gives the same counter value. */
  lemma SuccessorOfRemainder(x: nat)
    ensures (x % 0x1_0000_0000 + 1) % 0x1_0000_0000 == (x + 1) % 0x1_0000_0000
  {
    var m := 0x1_0000_0000;
    var q, r := x / m, x % m;
    assert x == q * m + r;
    if r + 1 < m {
      assert x + 1 == q * m + (r + 1);
    } else {
      assert x + 1 == (q + 1) * m;
    }
  }

  /**
   * No identifier repeats before the counter has gone all the way
   * round: the first 2^32 values handed out are pairwise distinct.
   */
  lemma CounterNoRepeat(start: uint32, i: nat, j: nat)
    requires i < j < 0x1_0000_0000
    ensures Advance(start, i) != Advance(start, j)
  {
    AdvanceIsOffset(start, i);
    AdvanceIsOffset(start, j);
    DistinctRemainders(start + i, start + j);
  }

  /** Two numbers less than 2^32 apart leave different remainders modulo 2^32. */
  lemma DistinctRemainders(a: nat, b: nat)
    requires a < b < a + 0x1_0000_0000
    ensures a % 0x1_0000_0000 != b % 0x1_0000_0000
  {
    var qa, qb := a / 0x1_0000_0000, b / 0x1_0000_0000;
    assert a == qa * 0x1_0000_0000 + a % 0x1_0000_0000;
    assert b == qb * 0x1_0000_0000 + b % 0x1_0000_0000;
    if qa == qb {
      assert b % 0x1_0000_0000 - a % 0x1_0000_0000 == b - a;
    } else {
      assert qb * 0x1_0000_0000 >= qa * 0x1_0000_0000 + 0x1_0000_0000;
    }
  }

  /** Starting from 1, the first 2^32 - 1 identifiers are 1, 2, ... in order, never 0. */
  lemma CounterFromOne(k: nat)
    requires k < MaxUint32
    ensures Advance(1, k) == k + 1
  {
    AdvanceIsOffset(1, k);
  }

  /** The bytes written to socket `c`, in the order they were written. */
  function Received(log: seq<SocketOp>, c: Conn): seq<uint8>
  {
    if log == [] then []
    else
      var last := log[|log| - 1];
      Received(log[..|log| - 1], c) + (if last.SocketWrite? && last.conn == c then last.bytes else [])
  }

  /** What a socket receives over two stretches of the log is what it receives in each, in order. */
  lemma {:induction false} ReceivedAppend(a: seq<SocketOp>, b: seq<SocketOp>, c: Conn)
    ensures Received(a + b, c) == Received(a, c) + Received(b, c)
  {
    if b == [] {
      assert a + b == a;
    } else {
      var n := |b| - 1;
      var tail := if b[n].SocketWrite? && b[n].conn == c then b[n].bytes else [];
      ReceivedAppend(a, b[..n], c);
      assert (a + b)[..|a + b| - 1] == a + b[..n];
      assert (a + b)[|a + b| - 1] == b[n];
      calc {
        Received(a + b, c);
        Received(a + b[..n], c) + tail;
        (Received(a, c) + Received(b[..n], c)) + tail;
        Received(a, c) + (Received(b[..n], c) + tail);
        Received(a, c) + Received(b, c);
      }
    }
  }

  class State {
    var nextConnectionID: uint32
    var connections: map<uint32, Conn>
    var nextRequestID: uint32
    /** Requests still waiting for their Response. */
    var pending: set<uint32>
    /** The Response sitting in each waiter's one-slot channel, not yet taken. */
    var replies: map<uint32, ResponsePacket>
    var outgoing: seq<OutgoingPacket>
    var socketLog: seq<SocketOp>

    /** A delivered reply is no longer pending, so each request is answered at most once. */
    ghost predicate Valid()
      reads this
    {
      pending !! replies.Keys
    }

    constructor ()
      ensures Valid()
      ensures nextConnectionID == 1 && nextRequestID == 1
      ensures connections == map[] && pending == {} && replies == map[]
      ensures outgoing == [] && socketLog == []
    {
      nextConnectionID, nextRequestID := 1, 1;
      connections, pending, replies := map[], {}, map[];
      outgoing, socketLog := [], [];
    }
  }
}
