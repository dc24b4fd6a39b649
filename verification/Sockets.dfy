/**
 The operating system's side of a socket, TCPSocket::send and sendTunnelMessage.
 A file descriptor carries the bytes the system has accepted for it since it was opened.
 A write that fails leaves the descriptor broken until it is closed: that is the one thing
 assumed of the system here.
 */
module Sockets {
  import opened Protocol

  /** How one write(2) ends once it is no longer interrupted; Accepts(0) is a closed connection. */
  datatype WriteOutcome = Accepts(n: nat) | WouldBlock | Fails
  datatype Attempt = Attempt(interrupts: nat, outcome: WriteOutcome)
  datatype Errno = NoError | EINTR | EWOULDBLOCK | EPIPE

  /** How many of len bytes are accepted by consecutive writes, starting with attempt c. */
  function Accepted(script: nat -> Attempt, c: nat, len: nat): (k: nat)
    ensures k <= len
    decreases len
  {
    if len == 0 then 0
    else
      match script(c).outcome
      case Accepts(n) =>
        if n == 0 then 0 else if n >= len then len else n + Accepted(script, c + 1, len - n)
      case _ => 0
  }

  /** The attempt that follows a buffer of len bytes; a descriptor that is broken is tried once. */
  function Attempts(script: nat -> Attempt, c: nat, len: nat, broken: bool): nat
    decreases len
  {
    if len == 0 then c
    else
      match script(c).outcome
      case Accepts(n) => if broken || n == 0 || n >= len then c + 1 else Attempts(script, c + 1, len - n, false)
      case _ => c + 1
  }

  /** How much of a frame with len bytes of payload is accepted, header first, starting with attempt c. */
  function FrameAccepted(script: nat -> Attempt, c: nat, len: nat, broken: bool): (k: nat)
    ensures k <= HEADER_SIZE + len && (broken ==> k == 0)
  {
    if broken then 0
    else
      var h := Accepted(script, c, HEADER_SIZE);
      if h < HEADER_SIZE then h else h + Accepted(script, Attempts(script, c, HEADER_SIZE, false), len)
  }

  /** A frame written in two pieces: what any part of either piece adds to the stream is part of the frame. */
  lemma TwoPieces(before: seq<byte>, header: seq<byte>, payload: seq<byte>)
    ensures forall k | 0 <= k <= |header| :: header[..k] == (header + payload)[..k]
    ensures forall k | |header| <= k <= |header| + |payload| ::
              before + header[..|header|] + payload[..k - |header|] == before + (header + payload)[..k]
  {
  }

  class Kernel {
    const script: nat -> Attempt        // any schedule of short writes, interrupts and errors
    var calls: nat                      // attempts finished
    var interrupts: nat                 // interrupts still to come in the current attempt
    var written: map<int, seq<byte>>    // open descriptors, with the bytes accepted since opening
    var broken: set<int>                // descriptors with a failed write

    constructor (script: nat -> Attempt, fixed: set<int>)
      ensures this.script == script && written == (map fd | fd in fixed :: []) && broken == {}
    {
      this.script := script;
      calls, interrupts := 0, script(0).interrupts;
      written, broken := map fd | fd in fixed :: [], {};
    }

    /** accept(2) or socket(2) and connect(2): the new descriptor differs from every open one. */
    method Open(fd: int)
      requires fd !in written
      modifies this`written, this`broken
      ensures written == old(written)[fd := []] && broken == old(broken) - {fd}
    {
      written := written[fd := []];
      broken := broken - {fd};
    }

    /** close(2), and TCPSocket::destroy of a valid socket: from here on the descriptor can be reused. */
    method Close(fd: int)
      modifies this`written, this`broken
      ensures written == old(written) - {fd} && broken == old(broken) - {fd}
    {
      written := written - {fd};
      broken := broken - {fd};
    }

    /** write(2). */
    method Write(fd: int, buf: seq<byte>) returns (n: int, errno: Errno)
      requires fd in written && buf != []
      modifies this
      ensures old(interrupts) > 0 ==>
                && n == -1 && errno == EINTR && written == old(written) && broken == old(broken)
                && calls == old(calls) && interrupts == old(interrupts) - 1
      ensures old(interrupts) == 0 ==>
                var o := script(old(calls)).outcome;
                && calls == old(calls) + 1 && errno != EINTR
                && (if o.Accepts? && o.n > 0 && fd !in old(broken) then
                      && n == (if o.n < |buf| then o.n else |buf|)
                      && written == old(written)[fd := old(written)[fd] + buf[..n]] && broken == old(broken)
                    else
                      n <= 0 && written == old(written) && broken == old(broken) + {fd})
    {
      if interrupts > 0 {
        interrupts := interrupts - 1;
        return -1, EINTR;
      }
      var o := script(calls).outcome;
      calls := calls + 1;
      interrupts := script(calls).interrupts;
      if o.Accepts? && o.n > 0 && fd !in broken {
        n := if o.n < |buf| then o.n else |buf|;
        written := written[fd := written[fd] + buf[..n]];
        return n, NoError;
      }
      broken := broken + {fd};
      if fd in broken && o.Accepts? && o.n > 0 {
        return -1, EPIPE;
      }
      match o
      case Accepts(_) => return 0, NoError;
      case WouldBlock => return -1, EWOULDBLOCK;
      case Fails => return -1, EPIPE;
    }

    /** The bytes of buf that a call of Send in this state gets accepted. */
    function Taken(fd: int, len: nat): (k: nat)
      reads this
      ensures k <= len
    {
      if fd in broken then 0 else Accepted(script, calls, len)
    }

    /** The bytes of a frame that sendTunnelMessage gets accepted in this state. */
    function FrameTaken(fd: int, len: nat): nat
      reads this
    {
      FrameAccepted(script, calls, len, fd in broken)
    }

    /**
     TCPSocket::send. The whole buffer is appended to the stream, or a strict prefix of it and -1
     is returned; which of the two, and which prefix, is fixed by the schedule.
     */
    method Send(fd: int, buf: seq<byte>) returns (ret: int)
      requires fd in written
      modifies this
      ensures var k := old(Taken(fd, |buf|));
              && written == old(written)[fd := old(written)[fd] + buf[..k]]
              && ret == (if k == |buf| then k else -1)
              && broken == (if k == |buf| then old(broken) else old(broken) + {fd})
      ensures calls == Attempts(script, old(calls), |buf|, fd in old(broken))
    {
      var totalSent := 0;
      ghost var before := written[fd];
      assert before + buf[..0] == before;
      while totalSent < |buf|
        invariant 0 <= totalSent <= |buf|
        invariant totalSent > 0 ==> fd !in broken
        invariant broken == old(broken)
        invariant Attempts(script, calls, |buf| - totalSent, fd in broken)
                  == Attempts(script, old(calls), |buf|, fd in broken)
        invariant totalSent + Taken(fd, |buf| - totalSent) == old(Taken(fd, |buf|))
        invariant written == old(written)[fd := old(written)[fd] + buf[..totalSent]]
        decreases |buf| - totalSent, interrupts
      {
        var bytesSent, errno := Write(fd, buf[totalSent..]);
        if bytesSent < 0 {
          if errno == EINTR {
            continue;
          } else if errno == EWOULDBLOCK {
            return -1;
          } else {
            return -1;
          }
        } else if bytesSent == 0 {
          return -1;
        }
        assert before + buf[..totalSent] + buf[totalSent..][..bytesSent] == before + buf[..totalSent + bytesSent];
        totalSent := totalSent + bytesSent;
      }
      return totalSent;
    }

    /**
     sendTunnelMessage: header, then payload if there is one. Either the whole frame is appended
     and the result is true, or a strict prefix of it and the descriptor is broken; which of the two, and
     which prefix, is fixed by the schedule.
     */
    method SendTunnelMessage(tunnel: int, connId: ConnId, mtype: MessageType, payload: seq<byte>, payloadLen: uint16)
      returns (ok: bool, ghost k: nat)
      requires tunnel in written && payloadLen <= |payload|
      modifies this
      ensures var frame := Encode(TunnelMessage(connId, mtype, payload[..payloadLen]));
              && k == old(FrameTaken(tunnel, payloadLen)) && (ok <==> k == |frame|)
              && written == old(written)[tunnel := old(written)[tunnel] + frame[..k]]
              && broken == (if ok then old(broken) else old(broken) + {tunnel})
    {
      ghost var before := written[tunnel];
      var header := CreateHeader(Header(connId, payloadLen, TypeCode(mtype)));
      assert Encode(TunnelMessage(connId, mtype, payload[..payloadLen])) == header + payload[..payloadLen];
      hide Encode, CreateHeader;
      TwoPieces(before, header, payload[..payloadLen]);
      k := Taken(tunnel, HEADER_SIZE);
      var sent := Send(tunnel, header);
      if sent != HEADER_SIZE {
        return false, k;
      }
      if payloadLen > 0 {
        k := HEADER_SIZE + Taken(tunnel, payloadLen);
        sent := Send(tunnel, payload[..payloadLen]);
        if sent != payloadLen {
          return false, k;
        }
      }
      return true, k;
    }
  }

  /** A UDP socket: the datagrams handed to it, with their destinations. Whether one is lost later is not seen here. */
  class DatagramSocket {
    var sent: seq<(nat, seq<byte>)>

    constructor ()
      ensures sent == []
    {
      sent := [];
    }

    method Send(payload: seq<byte>, to: nat)
      modifies this
      ensures sent == old(sent) + [(to, payload)]
    {
      sent := sent + [(to, payload)];
    }
  }
}
