/**
 What a list of frames says about one connection: the stages it went through, the bytes carried
 for it, and the datagrams sent beside it.
 */
module Logs {
  import opened Protocol
  import opened Seqs

  predicate ForId(m: Message, id: ConnId) {
    m.mtype != UdpPacket && m.connId == id
  }

  /** The frames of one id from the server are a prefix of OPEN DATA* CLOSE, or the stage is Bad. */
  datatype Stage = Fresh | Opened | Closed | Bad

  function Advance(s: Stage, t: MessageType): Stage {
    match (s, t)
    case (Fresh, TcpOpen) => Opened
    case (Opened, TcpData) => Opened
    case (Opened, TcpClose) => Closed
    case (_, UdpPacket) => s
    case _ => Bad
  }

  function ServerStage(log: seq<Message>, id: ConnId): Stage {
    if log == [] then Fresh
    else
      var s, m := ServerStage(log[..|log| - 1], id), log[|log| - 1];
      if ForId(m, id) then Advance(s, m.mtype) else s
  }

  /** The frames of one id from the client are DATA* CLOSE*, or the reply is Broken. */
  datatype Reply = Sending | Ended | Broken

  function ClientReply(log: seq<Message>, id: ConnId): Reply {
    if log == [] then Sending
    else
      var s, m := ClientReply(log[..|log| - 1], id), log[|log| - 1];
      if !ForId(m, id) then s
      else if m.mtype.TcpClose? && s != Broken then Ended
      else if m.mtype.TcpData? && s == Sending then Sending
      else Broken
  }

  /** Some frame of the list is about this connection. */
  predicate Mentions(log: seq<Message>, id: ConnId) {
    ServerStage(log, id) != Fresh
  }

  /** The connection's data frames, concatenated. */
  function Payload(log: seq<Message>, id: ConnId): seq<byte> {
    if log == [] then []
    else
      var m := log[|log| - 1];
      Payload(log[..|log| - 1], id) + (if m.mtype.TcpData? && m.connId == id then m.payload else [])
  }

  /** The types of the frames about one connection, in order. */
  function Types(log: seq<Message>, id: ConnId): seq<MessageType> {
    if log == [] then []
    else
      var m := log[|log| - 1];
      Types(log[..|log| - 1], id) + (if ForId(m, id) then [m.mtype] else [])
  }

  function Datagrams(log: seq<Message>): seq<seq<byte>> {
    if log == [] then []
    else
      var m := log[|log| - 1];
      Datagrams(log[..|log| - 1]) + (if m.mtype.UdpPacket? then [m.payload] else [])
  }

  /** An OPEN, if there is one, comes before everything else about the connection; so there is at most one. */
  predicate OpensFirst(log: seq<Message>, id: ConnId) {
    log != [] ==>
      var init, m := log[..|log| - 1], log[|log| - 1];
      OpensFirst(init, id) && (m.mtype.TcpOpen? && m.connId == id ==> !Mentions(init, id))
  }

  /** One more frame. */
  lemma Snoc(log: seq<Message>, m: Message, id: ConnId)
    ensures ServerStage(log + [m], id) ==
            if ForId(m, id) then Advance(ServerStage(log, id), m.mtype) else ServerStage(log, id)
    ensures ClientReply(log + [m], id) ==
            (if !ForId(m, id) then ClientReply(log, id)
             else if m.mtype.TcpClose? && ClientReply(log, id) != Broken then Ended
             else if m.mtype.TcpData? && ClientReply(log, id) == Sending then Sending
             else Broken)
    ensures Payload(log + [m], id) ==
            if m.mtype.TcpData? && m.connId == id then Payload(log, id) + m.payload else Payload(log, id)
    ensures OpensFirst(log + [m], id) <==>
            OpensFirst(log, id) && (m.mtype.TcpOpen? && m.connId == id ==> !Mentions(log, id))
  {
    assert (log + [m])[..|log|] == log;
  }

  lemma SnocDatagram(log: seq<Message>, m: Message)
    ensures Datagrams(log + [m]) == if m.mtype.UdpPacket? then Datagrams(log) + [m.payload] else Datagrams(log)
  {
    assert (log + [m])[..|log|] == log;
  }

  lemma {:induction false} FreshFacts(log: seq<Message>, id: ConnId)
    requires !Mentions(log, id)
    ensures Payload(log, id) == [] && ClientReply(log, id) == Sending
    decreases |log|
  {
    if log != [] {
      FreshFacts(log[..|log| - 1], id);
    }
  }

  lemma {:induction false} GrammarOpensFirst(log: seq<Message>, id: ConnId)
    requires ServerStage(log, id) != Bad
    ensures OpensFirst(log, id)
    decreases |log|
  {
    if log != [] {
      GrammarOpensFirst(log[..|log| - 1], id);
    }
  }

  /** What carries over from a list to its prefixes. */
  lemma {:induction false} PrefixLog(a: seq<Message>, b: seq<Message>, id: ConnId)
    requires a <= b
    ensures Payload(a, id) <= Payload(b, id) && Datagrams(a) <= Datagrams(b)
    ensures ServerStage(b, id) != Bad ==> ServerStage(a, id) != Bad
    ensures ClientReply(b, id) == Sending ==> ClientReply(a, id) == Sending
    ensures Mentions(a, id) ==> Mentions(b, id)
    decreases |b|
  {
    if a != b {
      PrefixLog(a, b[..|b| - 1], id);
    }
  }

  /** What carries over from a list to a list with frames missing. */
  lemma {:induction false} SubseqLog(a: seq<Message>, b: seq<Message>, id: ConnId)
    requires Subseq(a, b)
    ensures Subseq(Payload(a, id), Payload(b, id))
    ensures Mentions(a, id) ==> Mentions(b, id)
    ensures OpensFirst(b, id) ==> OpensFirst(a, id)
    decreases |b|
  {
    if a != [] {
      var a', b' := a[..|a| - 1], b[..|b| - 1];
      var m := b[|b| - 1];
      var p := if m.mtype.TcpData? && m.connId == id then m.payload else [];
      if a[|a| - 1] == m && Subseq(a', b') {
        SubseqLog(a', b', id);
        SubseqGrow(Payload(a', id), Payload(b', id), p);
      } else {
        SubseqLog(a, b', id);
        SubseqGrow(Payload(a, id), Payload(b', id), p);
      }
    }
  }

  lemma {:induction false} SubseqDatagrams(a: seq<Message>, b: seq<Message>)
    requires Subseq(a, b)
    ensures Subseq(Datagrams(a), Datagrams(b))
    decreases |b|
  {
    if a != [] {
      var a', b' := a[..|a| - 1], b[..|b| - 1];
      var m := b[|b| - 1];
      var p := if m.mtype.UdpPacket? then [m.payload] else [];
      if a[|a| - 1] == m && Subseq(a', b') {
        SubseqDatagrams(a', b');
        SubseqGrow(Datagrams(a'), Datagrams(b'), p);
      } else {
        SubseqDatagrams(a, b');
        SubseqGrow(Datagrams(a), Datagrams(b'), p);
      }
    }
  }

  lemma {:induction false} LogConcat(a: seq<Message>, b: seq<Message>, id: ConnId)
    ensures Payload(a + b, id) == Payload(a, id) + Payload(b, id)
    ensures Types(a + b, id) == Types(a, id) + Types(b, id)
    decreases |b|
  {
    if b == [] {
      assert a + b == a;
    } else {
      var init := b[..|b| - 1];
      assert (a + b)[..|a + b| - 1] == a + init;
      LogConcat(a, init, id);
      hide ForId;
    }
  }

  /** Taking one frame out of a list. */
  lemma LogWithout(b: seq<Message>, i: nat, id: ConnId)
    requires i < |b|
    ensures var rest := b[..i] + b[i + 1..];
            && multiset(b) == multiset(rest) + multiset{b[i]}
            && |Payload(b, id)| == |Payload(rest, id)| + |Payload([b[i]], id)|
            && multiset(Types(b, id)) == multiset(Types(rest, id)) + multiset(Types([b[i]], id))
  {
    var left, m, right := b[..i], b[i], b[i + 1..];
    assert b == left + [m] + right;
    hide Payload, Types;
    LogConcat(left + [m], right, id);
    LogConcat(left, [m], id);
    LogConcat(left, right, id);
  }

  /** How much is carried and which frames there are does not depend on their order. */
  lemma {:induction false} LogReordered(a: seq<Message>, b: seq<Message>, id: ConnId)
    requires multiset(a) == multiset(b)
    ensures |Payload(a, id)| == |Payload(b, id)| && multiset(Types(a, id)) == multiset(Types(b, id))
    decreases |a|
  {
    hide Payload, Types;
    assert |multiset(a)| == |multiset(b)|;
    if a != [] {
      var n := |a| - 1;
      assert a[n] in multiset(b);
      var i :| 0 <= i < |b| && b[i] == a[n];
      LogWithout(a, n, id);
      LogWithout(b, i, id);
      var rest := b[..i] + b[i + 1..];
      assert a[..n] + a[n + 1..] == a[..n];
      assert multiset(a[..n]) == multiset(a) - multiset{a[n]} && multiset(rest) == multiset(b) - multiset{b[i]};
      LogReordered(a[..n], rest, id);
    } else {
      assert b == [];
    }
  }

  /** A list split into three, in any order. */
  lemma LogSplit(all: seq<Message>, a: seq<Message>, b: seq<Message>, c: seq<Message>, id: ConnId)
    requires multiset(all) == multiset(a) + multiset(b) + multiset(c)
    ensures |Payload(all, id)| == |Payload(a, id)| + |Payload(b, id)| + |Payload(c, id)|
    ensures multiset(Types(all, id)) == multiset(Types(a, id)) + multiset(Types(b, id)) + multiset(Types(c, id))
  {
    assert multiset(a + b + c) == multiset(a) + multiset(b) + multiset(c);
    hide Payload, Types;
    LogReordered(all, a + b + c, id);
    LogConcat(a + b, c, id);
    LogConcat(a, b, id);
  }
}
