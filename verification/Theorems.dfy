/** What the tunnel promises its users, over every run. */
module Theorems {
  import opened Protocol
  import opened Seqs
  import opened Links
  import opened Logs
  import opened Parties
  import opened World
  import opened WorldInvariant
  import opened Inputs
  import S = ServerModel
  import C = ClientModel

  // ---------- the order of frames, said without the automata ----------

  /** A prefix of OPEN DATA* CLOSE. */
  ghost predicate OpenDataClose(ts: seq<MessageType>) {
    forall k :: 0 <= k < |ts| ==>
      if k == 0 then ts[k] == TcpOpen else ts[k] == TcpData || (ts[k] == TcpClose && k == |ts| - 1)
  }

  /** DATA* CLOSE*. */
  ghost predicate DataThenClose(ts: seq<MessageType>) {
    forall k :: 0 <= k < |ts| ==>
      ts[k] == TcpClose || (ts[k] == TcpData && forall i :: 0 <= i < k ==> ts[i] == TcpData)
  }

  lemma OpenDataCloseSnoc(ts: seq<MessageType>, t: MessageType)
    ensures OpenDataClose(ts + [t]) <==>
            && OpenDataClose(ts)
            && (if ts == [] then t == TcpOpen
                else ts[|ts| - 1] != TcpClose && (t == TcpData || t == TcpClose))
  {
    var us := ts + [t];
    assert us[|ts|] == t && forall k | 0 <= k < |ts| :: us[k] == ts[k];
  }

  lemma DataThenCloseSnoc(ts: seq<MessageType>, t: MessageType)
    ensures DataThenClose(ts + [t]) <==>
            DataThenClose(ts) && (t == TcpClose || (t == TcpData && TcpClose !in ts))
  {
    var us := ts + [t];
    assert us[|ts|] == t && forall k | 0 <= k < |ts| :: us[k] == ts[k];
    if DataThenClose(ts) && TcpClose !in ts {
      assert forall k | 0 <= k < |ts| :: ts[k] == TcpData;
    }
  }

  /** The stage of a connection is the shape of its frames. */
  lemma {:induction false} ServerStageMeans(log: seq<Message>, id: ConnId)
    ensures var ts := Types(log, id);
            ServerStage(log, id) ==
            if ts == [] then Fresh
            else if !OpenDataClose(ts) then Bad
            else if ts[|ts| - 1] == TcpClose then Closed else Opened
    decreases |log|
  {
    if log != [] {
      var init, m := log[..|log| - 1], log[|log| - 1];
      ServerStageMeans(init, id);
      OpenDataCloseSnoc(Types(init, id), m.mtype);
      assert ForId(m, id) ==> Types(log, id) == Types(init, id) + [m.mtype];
      assert !ForId(m, id) ==> Types(log, id) == Types(init, id);
      hide OpenDataClose;
    }
  }

  lemma {:induction false} ClientReplyMeans(log: seq<Message>, id: ConnId)
    ensures var ts := Types(log, id);
            ClientReply(log, id) ==
            if !DataThenClose(ts) then Broken else if TcpClose in ts then Ended else Sending
    decreases |log|
  {
    if log != [] {
      var init, m := log[..|log| - 1], log[|log| - 1];
      ClientReplyMeans(init, id);
      DataThenCloseSnoc(Types(init, id), m.mtype);
      assert ForId(m, id) ==> Types(log, id) == Types(init, id) + [m.mtype];
      assert !ForId(m, id) ==> Types(log, id) == Types(init, id);
      hide DataThenClose;
    } else {
      assert DataThenClose([]);
    }
  }

  /** Whether the connection's CLOSE has been seen. */
  lemma CloseSeen(log: seq<Message>, id: ConnId)
    ensures ServerStage(log, id) == Closed ==> TcpClose in Types(log, id)
    ensures ServerStage(log, id) == Opened ==> TcpClose !in Types(log, id)
    ensures ClientReply(log, id) == Ended ==> TcpClose in Types(log, id)
    ensures ClientReply(log, id) == Sending ==> TcpClose !in Types(log, id)
    ensures ServerStage(log, id) == Opened ==> TcpOpen in Types(log, id)
    ensures ServerStage(log, id) == Fresh ==> TcpOpen !in Types(log, id)
  {
    ServerStageMeans(log, id);
    ClientReplyMeans(log, id);
    hide Types, ServerStage, ClientReply;
    var ts := Types(log, id);
    assert ts != [] && OpenDataClose(ts) ==> ts[0] == TcpOpen;
  }

  // ---------- runs with one tunnel ----------

  /** Everything written to the tunnel has been read, in both directions. */
  predicate Quiescent(w: World) {
    && w.server.session == w.client.session
    && w.downRead == |Bytes(w.server.link)| && w.upRead == |Bytes(w.client.link)|
  }

  /** No write to the tunnel failed and both sides still have it. */
  predicate Healthy(w: World) {
    S.Intact(w.server) && w.client.link.ok && !w.client.userQuit
  }

  lemma OneTunnelInv(steps: seq<Step>)
    requires Run(steps).client.session <= 1
    ensures Inv(Run(steps))
  {
    OneTunnelIsBoundaryRun(steps);
    RunInv(steps);
  }

  /** What the two invariants say about one connection. */
  lemma ConnectionFacts(w: World, id: ConnId)
    requires Inv(w)
    ensures S.ViewInv(S.ViewOf(w.server, id)) && C.ViewInv(C.ViewOf(w.client, id))
  {
  }

  /**
   With one tunnel, whatever the interleaving of connections, the chunks read, the outcome of every
   call and the point at which a write fails: the bytes written to the far socket of a connection
   are a prefix of the bytes read from its near socket, in both directions. A side drops data only
   for a connection it has removed, and once everything has been read nothing is missing of a
   connection that both sides still have.
   */
  lemma EndToEndIntegrity(steps: seq<Step>, id: ConnId)
    requires Run(steps).client.session <= 1
    ensures var s, c := Run(steps).server, Run(steps).client;
            && At(c.delivered, id) <= OutsideBytes(steps, id)
            && At(s.delivered, id) <= DestinationBytes(steps, id)
            && (id in c.table ==> At(c.delivered, id) == Payload(c.handled, id))
            && (id in s.table ==> At(s.delivered, id) == Payload(s.handled, id))
    ensures var w := Run(steps);
            Quiescent(w) && Healthy(w) && id in w.server.table && id in w.client.table ==>
              && At(w.client.delivered, id) == OutsideBytes(steps, id)
              && At(w.server.delivered, id) == DestinationBytes(steps, id)
  {
    var w := Run(steps);
    ReadIsInput(steps, id);
    OneTunnelInv(steps);
    FirstTunnelHistories(w);
    ConnectionFacts(w, id);
    assert w.server.session <= 1 && w.client.session <= 1;
    hide Inv, Run, Bytes, OutsideBytes, DestinationBytes;
    DeliveredIsRead(w.server, w.client, id);
  }

  lemma DeliveredIsRead(s: S.Server, c: C.Client, id: ConnId)
    requires S.ViewInv(S.ViewOf(s, id)) && C.ViewInv(C.ViewOf(c, id))
    requires c.handled <= s.sent && s.handled <= c.sent && s.session <= 1 && c.session <= 1
    ensures At(c.delivered, id) <= At(s.read, id) && At(s.delivered, id) <= At(c.read, id)
    ensures id in c.table ==> At(c.delivered, id) == Payload(c.handled, id)
    ensures id in s.table ==> At(s.delivered, id) == Payload(s.handled, id)
    ensures c.handled == s.sent && S.Intact(s) && id in s.table && id in c.table ==>
              At(c.delivered, id) == At(s.read, id)
    ensures s.handled == c.sent && c.link.ok && id in s.table && id in c.table ==>
              At(s.delivered, id) == At(c.read, id)
  {
    PrefixLog(c.handled, s.sent, id);
    PrefixLog(s.handled, c.sent, id);
    hide ServerStage, ClientReply, Payload, Subseq;
  }

  /**
   With one tunnel and no failed write to it, once everything has been read the two sides have the
   same connections.
   */
  lemma {:induction false} TableAgreement(steps: seq<Step>)
    requires Run(steps).client.session <= 1
    requires Quiescent(Run(steps)) && Healthy(Run(steps))
    ensures Run(steps).client.table.Keys == Run(steps).server.table.Keys
  {
    var w := Run(steps);
    OneTunnelInv(steps);
    FirstTunnelHistories(w);
    forall id ensures id in w.client.table <==> id in w.server.table {
      ConnectionFacts(w, id);
    }
  }

  /**
   A connection that only one side has is about to be settled: its OPEN is on the way to the client or
   a CLOSE on the way back, or, when only the client has it, a CLOSE is on the way to the client.
   */
  lemma UnsettledConnection(steps: seq<Step>, id: ConnId)
    requires Run(steps).client.session <= 1 && Healthy(Run(steps))
    ensures var s, c := Run(steps).server, Run(steps).client;
            && (id in s.table && id !in c.table ==>
                  || (TcpOpen in Types(s.sent, id) && TcpOpen !in Types(c.handled, id))
                  || (TcpClose in Types(c.sent, id) && TcpClose !in Types(s.handled, id)))
            && (id in c.table && id !in s.table ==>
                  TcpClose in Types(s.sent, id) && TcpClose !in Types(c.handled, id))
  {
    var w := Run(steps);
    OneTunnelInv(steps);
    FirstTunnelHistories(w);
    ConnectionFacts(w, id);
    hide Inv, Run, Bytes;
    UnsettledViews(w.server, w.client, id);
  }

  lemma {:induction false} UnsettledViews(s: S.Server, c: C.Client, id: ConnId)
    requires S.ViewInv(S.ViewOf(s, id)) && C.ViewInv(C.ViewOf(c, id))
    requires c.handled <= s.sent && s.handled <= c.sent
    requires s.session <= 1 && c.session <= 1 && S.Intact(s) && c.link.ok && !c.userQuit
    ensures id in s.table && id !in c.table ==>
              || (TcpOpen in Types(s.sent, id) && TcpOpen !in Types(c.handled, id))
              || (TcpClose in Types(c.sent, id) && TcpClose !in Types(s.handled, id))
    ensures id in c.table && id !in s.table ==>
              TcpClose in Types(s.sent, id) && TcpClose !in Types(c.handled, id)
  {
    PrefixLog(c.handled, s.sent, id);
    PrefixLog(s.handled, c.sent, id);
    CloseSeen(s.sent, id);
    CloseSeen(c.handled, id);
    CloseSeen(c.sent, id);
    CloseSeen(s.handled, id);
    ClosedStays(c.handled, s.sent, id);
    hide Types, ServerStage, ClientReply, Payload, Subseq;
  }

  lemma {:induction false} ClosedStays(a: seq<Message>, b: seq<Message>, id: ConnId)
    requires a <= b
    ensures ServerStage(b, id) == Opened ==> ServerStage(a, id) == Opened || ServerStage(a, id) == Fresh
    decreases |b|
  {
    if a != b {
      var b' := b[..|b| - 1];
      if ServerStage(b', id) == Opened {
        ClosedStays(a, b', id);
      } else {
        PrefixLog(a, b', id);
      }
    }
  }

  // ---------- runs with any number of tunnels ----------

  /**
   Over all tunnels together, the frames of one connection from the server are a prefix of
   OPEN DATA* CLOSE and those from the client are DATA* CLOSE*, the latter only after the client
   has handled a frame of that connection.
   */
  lemma WireGrammar(steps: seq<Step>, id: ConnId)
    requires BoundaryRun(steps)
    ensures var s, c := Run(steps).server, Run(steps).client;
            && OpenDataClose(Types(s.sent, id)) && DataThenClose(Types(c.sent, id))
            && (Types(c.sent, id) != [] ==> Types(c.handled, id) != [])
            && (Types(c.handled, id) != [] && c.session <= 1 ==> Types(c.handled, id)[0] == TcpOpen)
  {
    var w := Run(steps);
    RunInv(steps);
    ConnectionFacts(w, id);
    if w.client.session <= 1 {
      FirstTunnelHistories(w);
      PrefixLog(w.client.handled, w.server.sent, id);
    }
    assert OpenDataClose([]) && DataThenClose([]);
    hide Inv, Run, BoundaryRun, Types, DataThenClose, Subseq, Payload;
    ServerStageMeans(w.server.sent, id);
    ServerStageMeans(w.client.sent, id);
    ServerStageMeans(w.client.handled, id);
    ClientReplyMeans(w.client.sent, id);
  }

  /**
   Any number of tunnels, each starting at a frame boundary: what reaches a socket of a connection is
   a subsequence of what was read from the other socket of the same connection, and no id is ever
   entered twice into either table.
   */
  lemma ReconnectionSafety(steps: seq<Step>, id: ConnId)
    requires BoundaryRun(steps)
    ensures var s, c := Run(steps).server, Run(steps).client;
            && Subseq(At(c.delivered, id), OutsideBytes(steps, id))
            && Subseq(At(s.delivered, id), DestinationBytes(steps, id))
            && (forall i, j | 0 <= i < j < |s.added| :: s.added[i] != s.added[j])
            && (forall i, j | 0 <= i < j < |c.added| :: c.added[i] != c.added[j])
            && OwnedOnce(s.table) && OwnedOnce(c.table)
  {
    var w := Run(steps);
    var s, c := w.server, w.client;
    RunInv(steps);
    ReadIsInput(steps, id);
    HistoriesAgree(w);
    ConnectionFacts(w, id);
    hide Run, BoundaryRun, OutsideBytes, DestinationBytes, S.UdpInv, C.UdpInv, DownInv, UpInv;
    SubseqLog(c.handled, s.sent, id);
    SubseqLog(s.handled, c.sent, id);
    Carried(At(c.delivered, id), Payload(c.handled, id), Payload(s.sent, id), At(s.read, id));
    Carried(At(s.delivered, id), Payload(s.handled, id), Payload(c.sent, id), At(c.read, id));
    hide ServerStage, ClientReply, Payload, Subseq, Links.Valid;
  }

  lemma Carried(delivered: seq<byte>, handled: seq<byte>, sent: seq<byte>, read: seq<byte>)
    requires delivered <= handled && Subseq(handled, sent) && Subseq(sent, read)
    ensures Subseq(delivered, read)
  {
    PrefixIsSubseq(delivered, handled);
    SubseqTrans(delivered, handled, sent);
    SubseqTrans(delivered, sent, read);
  }

  /**
   Datagrams keep their boundaries and order. Those handed to the destination are among those received from
   outside while there was a tunnel, with one tunnel a prefix of them and in the end all of them. The replies
   are, one for one and in order, the non-empty datagrams handled since a non-empty one came from outside,
   each to the sender of the latest datagram; and they are among those received from the destination.
   */
  lemma DatagramIsolation(steps: seq<Step>)
    requires BoundaryRun(steps)
    ensures var s, c, passed := Run(steps).server, Run(steps).client, PassedOn(steps);
            && (forall d <- passed :: d != [])
            && Subseq(c.udpSent, passed)
            && (c.session <= 1 ==> c.udpSent <= passed)
            && (Quiescent(Run(steps)) && c.session <= 1 && S.Intact(s) ==> c.udpSent == passed)
    ensures var replies := Run(steps).server.udp.replies;
            && replies == RepliesDue(steps)
            && Subseq(S.Payloads(replies), DestinationDatagrams(steps))
            && (forall r <- replies :: S.GoodReply(OutsideDatagrams(steps), r))
  {
    var w := Run(steps);
    var s, c := w.server, w.client;
    RunInv(steps);
    DatagramsAreInput(steps);
    HistoriesAgree(w);
    if c.session <= 1 {
      FirstTunnelHistories(w);
      PrefixLog(c.handled, s.sent, 0);
    }
    SubseqDatagrams(c.handled, s.sent);
    SubseqDatagrams(s.handled, c.sent);
    assert S.UdpInv(s) && C.UdpInv(c) && s.session <= c.session;
    hide Inv, Run, BoundaryRun, Bytes, PassedOn, RepliesDue, OutsideDatagrams, DestinationDatagrams, SenderKnown;
    UdpEndToEnd(s, c);
  }

  lemma UdpEndToEnd(s: S.Server, c: C.Client)
    requires S.UdpInv(s) && C.UdpInv(c)
    requires Subseq(Datagrams(c.handled), Datagrams(s.sent)) && Subseq(Datagrams(s.handled), Datagrams(c.sent))
    ensures Subseq(c.udpSent, s.udp.accepted) && Subseq(S.Payloads(s.udp.replies), c.udpRead)
    ensures s.session <= 1 && Datagrams(c.handled) <= Datagrams(s.sent) ==> c.udpSent <= s.udp.accepted
    ensures s.session <= 1 && c.handled == s.sent && S.Intact(s) ==> c.udpSent == s.udp.accepted
  {
    SubseqTrans(Datagrams(c.handled), Datagrams(s.sent), s.udp.accepted);
    SubseqTrans(S.Payloads(s.udp.replies), Datagrams(s.handled), Datagrams(c.sent));
    SubseqTrans(S.Payloads(s.udp.replies), Datagrams(c.sent), c.udpRead);
    hide Datagrams, S.Payloads, Subseq, S.GoodReply, S.SomeNonEmpty;
  }
}
