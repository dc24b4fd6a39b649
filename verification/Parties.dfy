/** Vocabulary shared by the two parties. */
module Parties {
  import opened Protocol

  const MAX_TCP_DATA := 16384
  const MAX_DATAGRAM := 65507
  const MAX_TUNNEL_READ := 100000

  type Block = b: seq<byte> | 0 < |b| <= MAX_TCP_DATA witness [0]
  type Datagram = d: seq<byte> | |d| <= MAX_DATAGRAM

  /** How a read from a connected TCP socket ends. */
  datatype ReadOutcome = Data(bytes: Block) | Eof | WouldBlock | Failed

  type History = map<ConnId, seq<byte>>

  function At(h: History, id: ConnId): seq<byte> {
    if id in h then h[id] else []
  }

  function Append(h: History, id: ConnId, b: seq<byte>): History {
    h[id := At(h, id) + b]
  }

  /** The part of a buffer that a socket accepts before it fails, or all of it. */
  function Cut(b: seq<byte>, k: nat): seq<byte> {
    if k < |b| then b[..k] else b
  }

  function OpenMessage(id: ConnId): Message { TunnelMessage(id, TcpOpen, []) }
  function CloseMessage(id: ConnId): Message { TunnelMessage(id, TcpClose, []) }
  function DataMessage(id: ConnId, b: Block): Message { TunnelMessage(id, TcpData, b) }
  function UdpMessage(d: Datagram): Message { TunnelMessage(0, UdpPacket, d) }

  /** No descriptor serves two connections. */
  ghost predicate OwnedOnce(table: map<ConnId, int>) {
    forall i, j :: i in table && j in table && table[i] == table[j] ==> i == j
  }

  /** No element twice. */
  ghost predicate NoneTwice(s: seq<int>) {
    forall i, j | 0 <= i < j < |s| :: s[i] != s[j]
  }

  lemma NoneTwiceSnoc(s: seq<int>, x: int)
    requires NoneTwice(s + [x])
    ensures NoneTwice(s) && x !in s
  {
    var t := s + [x];
    assert t[|s|] == x && forall i | 0 <= i < |s| :: t[i] == s[i];
  }
}
