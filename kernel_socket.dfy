/**
 * The client's socket as the daemon sees it through socket options: its
 * address family and protocol, the routing mark it can read and write, and
 * the errors the kernel would answer those calls with. Every call is recorded
 * in a log, so that which calls a request made, and in which order, can be
 * stated.
 */
module KernelSocket {
  import opened FwmarkTypes

  /** One socket-option call: SO_DOMAIN, SO_MARK and SO_PROTOCOL reads, an SO_MARK write. */
  datatype SockOp = ReadDomain | ReadMark | ReadProtocol | WriteMark(value: Fwmark)

  /** The result of a socket-option read: the value, or the errno of a failed call. */
  datatype OptResult<T> = Got(value: T) | Failed(errno: Errno)

  /** For each call, the errno the kernel fails it with, if it fails. */
  datatype Faults = Faults(
    domain: Option<Errno>,
    markRead: Option<Errno>,
    protocol: Option<Errno>,
    markWrite: Option<Errno>)

  /** A snapshot of a socket's state, for specifications. */
  datatype SocketState = SocketState(mark: Fwmark, family: int, protocol: int, faults: Faults)

  /** The number of mark writes in a log. */
  function Writes(ops: seq<SockOp>): (n: nat)
    ensures n <= |ops|
    ensures n == 0 <==> forall i :: 0 <= i < |ops| ==> !ops[i].WriteMark?
  {
    if ops == [] then 0
    else Writes(ops[..|ops| - 1]) + (if ops[|ops| - 1].WriteMark? then 1 else 0)
  }

  /** Counting writes distributes over concatenation. */
  lemma {:induction false} WritesAppend(a: seq<SockOp>, b: seq<SockOp>)
    ensures Writes(a + b) == Writes(a) + Writes(b)
  {
    if b != [] {
      assert (a + b)[..|a + b| - 1] == a + b[..|b| - 1];
      WritesAppend(a, b[..|b| - 1]);
    } else {
      assert a + b == a;
    }
  }

  class Socket {
    var mark: Fwmark
    const family: int
    const protocol: int
    const faults: Faults
    /** The socket-option calls made on this socket so far, oldest first. */
    var log: seq<SockOp>

    constructor (mark: Fwmark, family: int, protocol: int, faults: Faults)
      ensures this.mark == mark && this.family == family && this.protocol == protocol
      ensures this.faults == faults && log == []
    {
      this.mark := mark;
      this.family := family;
      this.protocol := protocol;
      this.faults := faults;
      log := [];
    }

    function State(): SocketState
      reads this
    {
      SocketState(mark, family, protocol, faults)
    }

    /** getsockopt(SO_DOMAIN). */
    method GetDomain() returns (r: OptResult<int>)
      modifies this`log
      ensures log == old(log) + [ReadDomain]
      ensures r == if faults.domain.Some? then Failed(faults.domain.value) else Got(family)
    {
      log := log + [ReadDomain];
      r := if faults.domain.Some? then Failed(faults.domain.value) else Got(family);
    }

    /** getsockopt(SO_MARK). */
    method GetMark() returns (r: OptResult<Fwmark>)
      modifies this`log
      ensures log == old(log) + [ReadMark]
      ensures r == if faults.markRead.Some? then Failed(faults.markRead.value) else Got(mark)
    {
      log := log + [ReadMark];
      r := if faults.markRead.Some? then Failed(faults.markRead.value) else Got(mark);
    }

    /** getsockopt(SO_PROTOCOL). */
    method GetProtocol() returns (r: OptResult<int>)
      modifies this`log
      ensures log == old(log) + [ReadProtocol]
      ensures r == if faults.protocol.Some? then Failed(faults.protocol.value) else Got(protocol)
    {
      log := log + [ReadProtocol];
      r := if faults.protocol.Some? then Failed(faults.protocol.value) else Got(protocol);
    }

    /** setsockopt(SO_MARK): all four fields are replaced at once, or nothing is. */
    method SetMark(m: Fwmark) returns (r: OptResult<()>)
      modifies this`log, this`mark
      ensures log == old(log) + [WriteMark(m)]
      ensures faults.markWrite.Some? ==> r == Failed(faults.markWrite.value) && mark == old(mark)
      ensures faults.markWrite.None? ==> r == Got(()) && mark == m
    {
      log := log + [WriteMark(m)];
      if faults.markWrite.Some? {
        r := Failed(faults.markWrite.value);
      } else {
        mark := m;
        r := Got(());
      }
    }
  }
}
