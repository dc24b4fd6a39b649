/** What becomes of the bytes read from a connection. */
module Losses {
  // It is delivered to the far socket, dropped when read, lost with a tunnel, refused by the far side, or still on
  // the way. So the promise that connections resume where they were after a tunnel was lost is kept exactly in
  // the runs in which nothing is dropped or lost.

  import opened Protocol
  import opened Reassembly
  import opened Seqs
  import opened Links
  import opened Logs
  import opened Parties
  import opened World
  import opened WorldInvariant
  import opened Inputs
  import opened Transit
  import opened Theorems
  import S = ServerModel
  import C = ClientModel

  /** Bytes read and not sent. */
  function Missing(read: History, sent: seq<Message>, id: ConnId): int {
    |At(read, id)| - |Payload(sent, id)|
  }

  lemma SentOther(sent: seq<Message>, m: Message, id: ConnId)
    requires !(m.mtype.TcpData? && m.connId == id)
    ensures Payload(sent + [m], id) == Payload(sent, id)
  {
    Snoc(sent, m, id);
  }

  lemma SentData(sent: seq<Message>, m: Message, id: ConnId)
    requires m.mtype.TcpData? && m.connId == id
    ensures |Payload(sent + [m], id)| == |Payload(sent, id)| + |m.payload|
  {
    Snoc(sent, m, id);
  }

  // ---------- server ----------

  /** The bytes of connection id that a step drops: read without a tunnel, or with one that fails. */
  function ServerDrops(s: S.Server, step: S.ServerStep, id: ConnId): nat {
    if step.OutsideRead? && step.id == id && id in s.table && step.result.Data?
       && !(s.held && Transmit(s.link, DataMessage(id, step.result.bytes), step.k).ok)
    then |step.result.bytes|
    else 0
  }

  lemma ServerSendMissing(s: S.Server, m: Message, k: nat, id: ConnId)
    ensures var s' := S.Send(s, m, k);
            && s'.read == s.read
            && Missing(s'.read, s'.sent, id) ==
               Missing(s.read, s.sent, id) - (if m.mtype.TcpData? && m.connId == id && s'.link.ok
                   then |m.payload| else 0)
  {
    if m.mtype.TcpData? && m.connId == id {
      SentData(s.sent, m, id);
    } else {
      SentOther(s.sent, m, id);
    }
    hide Transmit, Payload;
  }

  lemma ServerDataMissing(s: S.Server, i: ConnId, bytes: Block, k: nat, id: ConnId)
    requires i in s.table
    ensures var s' := S.OnData(s, i, bytes, k);
            Missing(s'.read, s'.sent, id) ==
            Missing(s.read, s.sent, id) + ServerDrops(s, S.OutsideRead(i, Data(bytes), k), id)
  {
    var s1 := s.(read := Append(s.read, i, bytes));
    ServerSendMissing(s1, DataMessage(i, bytes), k, id);
    assert |At(s1.read, id)| == |At(s.read, id)| + if i == id then |bytes| else 0;
    hide Append, At, Payload, Transmit;
  }

  lemma ServerStepMissing(s: S.Server, step: S.ServerStep, id: ConnId)
    requires S.Enabled(s, step)
    ensures var s' := S.Step(s, step);
            Missing(s'.read, s'.sent, id) == Missing(s.read, s.sent, id) + ServerDrops(s, step, id)
  {
    match step
    case AcceptOutside(fd, k) =>
      ServerSendMissing(S.Enter(s, fd), OpenMessage(s.nextId), k, id);
      hide S.Send, At, Payload;
    case OutsideUdp(outcome, k) =>
      if outcome.Received? {
        var u := s.udp.(lastSender := outcome.from, seen := s.udp.seen + [(outcome.from, outcome.data)],
                        hasSender := true, accepted := s.udp.accepted + [outcome.data]);
        ServerSendMissing(s.(udp := u), UdpMessage(outcome.data), k, id);
      }
      hide S.Send, At, Payload;
    case OutsideRead(i, result, k) =>
      if i in s.table {
        if result.Data? {
          ServerDataMissing(s, i, result.bytes, k, id);
        } else {
          ServerSendMissing(s, CloseMessage(i), k, id);
        }
      }
      hide S.Send, S.OnData, At, Payload;
    case _ =>
  }

  lemma ServerHandleMissing(s: S.Server, m: Message, env: S.Env, id: ConnId)
    ensures var s' := S.Handle(s, m, env); Missing(s'.read, s'.sent, id) == Missing(s.read, s.sent, id)
  {
    if m.mtype.TcpData? {
      var s1 := s.(handled := s.handled + [m], delivered := Append(s.delivered, m.connId, Cut(m.payload, env.accepts)));
      ServerSendMissing(S.Remove(s1, m.connId), CloseMessage(m.connId), env.sends, id);
    }
    hide S.Send, At, Payload, Append, Cut;
  }

  lemma {:induction false} ServerHandlesMissing(s: S.Server, ms: seq<Message>, envs: seq<S.Env>, id: ConnId)
    ensures var s' := ServerHandles(s, ms, envs); Missing(s'.read, s'.sent, id) == Missing(s.read, s.sent, id)
    decreases |ms|
  {
    if ms != [] {
      var env := if envs == [] then S.Env(0, 0) else envs[0];
      ServerHandleMissing(s, ms[0], env, id);
      hide S.Handle, Missing;
      ServerHandlesMissing(S.Handle(s, ms[0], env), ms[1..], if envs == [] then [] else envs[1..], id);
    }
  }

  // ---------- client ----------

  /** The bytes of connection id that a step drops: read while the tunnel fails. */
  function ClientDrops(c: C.Client, step: C.ClientStep, id: ConnId): nat {
    if step.DestinationRead? && step.id == id && id in c.table && step.result.Data?
       && !Transmit(c.link, DataMessage(id, step.result.bytes), step.k).ok
    then |step.result.bytes|
    else 0
  }

  lemma ClientSendMissing(c: C.Client, m: Message, k: nat, id: ConnId)
    ensures var c' := C.Send(c, m, k);
            && c'.read == c.read
            && Missing(c'.read, c'.sent, id) ==
               Missing(c.read, c.sent, id) - (if m.mtype.TcpData? && m.connId == id && c'.link.ok
                   then |m.payload| else 0)
  {
    if m.mtype.TcpData? && m.connId == id {
      SentData(c.sent, m, id);
    } else {
      SentOther(c.sent, m, id);
    }
    hide Transmit, Payload;
  }

  lemma ClientDataMissing(c: C.Client, i: ConnId, bytes: Block, k: nat, id: ConnId)
    requires i in c.table
    ensures var c' := C.OnData(c, i, bytes, k);
            Missing(c'.read, c'.sent, id) ==
            Missing(c.read, c.sent, id) + ClientDrops(c, C.DestinationRead(i, Data(bytes), k), id)
  {
    var c1 := c.(read := Append(c.read, i, bytes));
    ClientSendMissing(c1, DataMessage(i, bytes), k, id);
    assert |At(c1.read, id)| == |At(c.read, id)| + if i == id then |bytes| else 0;
    hide Append, At, Payload, Transmit;
  }

  lemma ClientStepMissing(c: C.Client, step: C.ClientStep, id: ConnId)
    requires C.Enabled(c, step)
    ensures var c' := C.Step(c, step);
            Missing(c'.read, c'.sent, id) == Missing(c.read, c.sent, id) + ClientDrops(c, step, id)
  {
    match step
    case DestinationUdp(data, k) =>
      ClientSendMissing(c.(udpRead := c.udpRead + [data]), UdpMessage(data), k, id);
      hide C.Send, At, Payload;
    case DestinationRead(i, result, k) =>
      if i in c.table {
        if result.Data? {
          ClientDataMissing(c, i, result.bytes, k, id);
        } else {
          ClientSendMissing(c, CloseMessage(i), k, id);
        }
      }
      hide C.Send, C.OnData, At, Payload;
    case _ =>
  }

  lemma ClientHandleMissing(c: C.Client, m: Message, env: C.Env, id: ConnId)
    ensures var c' := C.Handle(c, m, env); Missing(c'.read, c'.sent, id) == Missing(c.read, c.sent, id)
  {
    var c0 := c.(handled := c.handled + [m]);
    var c1 := c0.(delivered := Append(c.delivered, m.connId, Cut(m.payload, env.accepts)));
    ClientSendMissing(c0, CloseMessage(m.connId), env.sends, id);
    ClientSendMissing(C.Remove(c1, m.connId), CloseMessage(m.connId), env.sends, id);
    hide C.Send, At, Payload, Append, Cut;
  }

  lemma {:induction false} ClientHandlesMissing(c: C.Client, ms: seq<Message>, envs: seq<C.Env>, id: ConnId)
    ensures var c' := ClientHandles(c, ms, envs); Missing(c'.read, c'.sent, id) == Missing(c.read, c.sent, id)
    decreases |ms|
  {
    if ms != [] {
      var env := if envs == [] then C.Env(C.Refused, 0, 0) else envs[0];
      ClientHandleMissing(c, ms[0], env, id);
      hide C.Handle, Missing;
      ClientHandlesMissing(C.Handle(c, ms[0], env), ms[1..], if envs == [] then [] else envs[1..], id);
    }
  }

  // ---------- runs ----------

  /** The bytes of a connection dropped in a step, at the server and at the client. */
  function Drops(w: World, step: Step, id: ConnId): (nat, nat) {
    if !CanStep(w, step) then (0, 0)
    else if step.OfServer? then (ServerDrops(w.server, step.s, id), 0)
    else if step.OfClient? then (0, ClientDrops(w.client, step.c, id))
    else (0, 0)
  }

  function Dropped(steps: seq<Step>, id: ConnId): (nat, nat) {
    if steps == [] then (0, 0)
    else
      var before, now := Dropped(steps[..|steps| - 1], id), Drops(Run(steps[..|steps| - 1]), steps[|steps| - 1], id);
      (before.0 + now.0, before.1 + now.1)
  }

  /** What is missing on either side after w, against before. */
  ghost predicate MissingGrows(w: World, w': World, d: (nat, nat), id: ConnId) {
    && Missing(w'.server.read, w'.server.sent, id) == Missing(w.server.read, w.server.sent, id) + d.0
    && Missing(w'.client.read, w'.client.sent, id) == Missing(w.client.read, w.client.sent, id) + d.1
  }

  lemma ServerReadsMissing(w: World, n: nat, envs: seq<S.Env>, id: ConnId)
    requires w.serverRec.Valid() && w.upRead + n <= |Bytes(UpLink(w))|
    ensures MissingGrows(w, ServerReads(w, n, envs), (0, 0), id)
  {
    hide Collect, ServerHandles, UpLink, Bytes, Missing;
    ServerHandlesMissing(w.server, Collect(w.serverRec, Bytes(UpLink(w))[w.upRead..w.upRead + n]).msgs, envs, id);
  }

  lemma ClientReadsMissing(w: World, n: nat, envs: seq<C.Env>, id: ConnId)
    requires w.clientRec.Valid() && w.downRead + n <= |Bytes(w.server.link)|
    ensures MissingGrows(w, ClientReads(w, n, envs), (0, 0), id)
  {
    hide Collect, ClientHandles, Bytes, Missing;
    ClientHandlesMissing(w.client, Collect(w.clientRec, Bytes(w.server.link)[w.downRead..w.downRead + n]).msgs, envs,
        id);
  }

  lemma ApplyMissing(w: World, step: Step, id: ConnId)
    requires w.serverRec.Valid() && w.clientRec.Valid()
    ensures MissingGrows(w, Apply(w, step), Drops(w, step, id), id)
  {
    hide Missing, S.Step, C.Step, ServerReads, ClientReads, ServerDrops, ClientDrops, Bytes;
    if CanStep(w, step) {
      match step
      case OfServer(s) => ServerStepMissing(w.server, s, id);
      case OfClient(c) => ClientStepMissing(w.client, c, id);
      case ServerReceives(n, envs) => ServerReadsMissing(w, n, envs, id);
      case ClientReceives(n, envs) => ClientReadsMissing(w, n, envs, id);
    }
  }

  /** Conservation, over every run: the bytes read from a connection are those sent and those dropped. */
  lemma {:induction false} ReadIsSentOrDropped(steps: seq<Step>, id: ConnId)
    ensures var w, d := Run(steps), Dropped(steps, id);
            && |OutsideBytes(steps, id)| == |Payload(w.server.sent, id)| + d.0
            && |DestinationBytes(steps, id)| == |Payload(w.client.sent, id)| + d.1
    decreases |steps|
  {
    ReadIsInput(steps, id);
    hide OutsideBytes, DestinationBytes;
    if steps != [] {
      var init, last := steps[..|steps| - 1], steps[|steps| - 1];
      ReadIsInput(init, id);
      ReadIsSentOrDropped(init, id);
      ApplyMissing(Run(init), last, id);
      hide Apply, Drops, At, Payload;
    }
  }

  /** At its reader: all that was read was sent, in order, exactly when no read dropped data. */
  lemma SentUnlessDropped(steps: seq<Step>, id: ConnId)
    requires BoundaryRun(steps)
    ensures var w, d := Run(steps), Dropped(steps, id);
            && (Payload(w.server.sent, id) == OutsideBytes(steps, id) <==> d.0 == 0)
            && (Payload(w.client.sent, id) == DestinationBytes(steps, id) <==> d.1 == 0)
  {
    var w := Run(steps);
    ReadIsSentOrDropped(steps, id);
    ReadIsInput(steps, id);
    RunInv(steps);
    hide Run, Dropped, Payload, At, Subseq, OutsideBytes, DestinationBytes;
    assert S.ViewInv(S.ViewOf(w.server, id)) && C.ViewInv(C.ViewOf(w.client, id));
    hide Inv;
    SubseqLength(Payload(w.server.sent, id), At(w.server.read, id));
    SubseqLength(Payload(w.client.sent, id), At(w.client.read, id));
  }

  // ---------- the whole way ----------

  /** Bytes handled and not written to the connection's socket: it was gone, or took only a part. */
  function Refused(handled: seq<Message>, delivered: History, id: ConnId): int {
    |Payload(handled, id)| - |At(delivered, id)|
  }

  /** What a message adds to that. */
  function RefusedOf(m: Message, id: ConnId, present: bool, accepts: nat): nat {
    if !(m.mtype.TcpData? && m.connId == id) then 0
    else if !present then |m.payload|
    else |m.payload| - |Cut(m.payload, accepts)|
  }

  lemma ServerKeepsHistory(s: S.Server, m: Message, env: S.Env)
    ensures var s' := S.Handle(s, m, env);
            && s'.handled == s.handled + [m]
            && s'.delivered == if m.mtype.TcpData? && m.connId in s.table
                               then Append(s.delivered, m.connId, Cut(m.payload, env.accepts)) else s.delivered
  {
    hide Transmit, Append, Cut;
  }

  lemma ServerRefuses(s: S.Server, m: Message, env: S.Env, id: ConnId)
    ensures var s' := S.Handle(s, m, env);
            Refused(s'.handled, s'.delivered, id) ==
            Refused(s.handled, s.delivered, id) + RefusedOf(m, id, id in s.table, env.accepts)
  {
    Snoc(s.handled, m, id);
    ServerKeepsHistory(s, m, env);
    hide Payload, S.Handle;
  }

  lemma ClientDataHistory(c: C.Client, id: ConnId, payload: seq<byte>, env: C.Env)
    ensures var c' := C.OnTunnelData(c, id, payload, env);
            && c'.handled == c.handled
            && c'.delivered == if id in c.table then Append(c.delivered, id, Cut(payload, env.accepts)) else c.delivered
  {
    hide Transmit, Append, Cut;
  }

  lemma ClientOpenHistory(c: C.Client, id: ConnId, env: C.Env)
    ensures var c' := C.OnOpen(c, id, env); c'.handled == c.handled && c'.delivered == c.delivered
  {
    hide Transmit;
  }

  lemma ClientKeepsHistory(c: C.Client, m: Message, env: C.Env)
    ensures var c' := C.Handle(c, m, env);
            && c'.handled == c.handled + [m]
            && c'.delivered == if m.mtype.TcpData? && m.connId in c.table
                               then Append(c.delivered, m.connId, Cut(m.payload, env.accepts)) else c.delivered
  {
    var c0 := c.(handled := c.handled + [m]);
    ClientDataHistory(c0, m.connId, m.payload, env);
    ClientOpenHistory(c0, m.connId, env);
    hide C.OnTunnelData, C.OnOpen, Append, Cut;
  }

  lemma ClientRefuses(c: C.Client, m: Message, env: C.Env, id: ConnId)
    ensures var c' := C.Handle(c, m, env);
            Refused(c'.handled, c'.delivered, id) ==
            Refused(c.handled, c.delivered, id) + RefusedOf(m, id, id in c.table, env.accepts)
  {
    Snoc(c.handled, m, id);
    ClientKeepsHistory(c, m, env);
    hide Payload, C.Handle;
  }

  function ServerRefusedAmong(s: S.Server, ms: seq<Message>, envs: seq<S.Env>, id: ConnId): nat
    decreases |ms|
  {
    if ms == [] then 0
    else
      var env, rest := if envs == [] then S.Env(0, 0) else envs[0], if envs == [] then [] else envs[1..];
      RefusedOf(ms[0], id, id in s.table, env.accepts) + ServerRefusedAmong(S.Handle(s, ms[0], env), ms[1..], rest, id)
  }

  function ClientRefusedAmong(c: C.Client, ms: seq<Message>, envs: seq<C.Env>, id: ConnId): nat
    decreases |ms|
  {
    if ms == [] then 0
    else
      var env, rest := if envs == [] then C.Env(C.Refused, 0, 0) else envs[0], if envs == [] then [] else envs[1..];
      RefusedOf(ms[0], id, id in c.table, env.accepts) + ClientRefusedAmong(C.Handle(c, ms[0], env), ms[1..], rest, id)
  }

  /** The bytes of a connection refused in a step, by the client's sockets and by the server's. */
  function RefusedIn(w: World, step: Step, id: ConnId): (nat, nat)
    requires w.serverRec.Valid() && w.clientRec.Valid()
  {
    if !CanStep(w, step) then (0, 0)
    else
      match step
      case ClientReceives(n, envs) =>
        var d := Collect(w.clientRec, Bytes(w.server.link)[w.downRead..w.downRead + n]);
        (ClientRefusedAmong(w.client, d.msgs, envs, id), 0)
      case ServerReceives(n, envs) =>
        var d := Collect(w.serverRec, Bytes(UpLink(w))[w.upRead..w.upRead + n]);
        (0, ServerRefusedAmong(w.server, d.msgs, envs, id))
      case _ => (0, 0)
  }

  /** Over a run: refused on the way down by the client's sockets, and on the way up by the server's. */
  function RefusedBytes(steps: seq<Step>, id: ConnId): (nat, nat) {
    if steps == [] then (0, 0)
    else
      var init := steps[..|steps| - 1];
      var before, now := RefusedBytes(init, id), RefusedIn(Run(init), steps[|steps| - 1], id);
      (before.0 + now.0, before.1 + now.1)
  }

  lemma {:induction false} ServerHandlesRefuse(s: S.Server, ms: seq<Message>, envs: seq<S.Env>, id: ConnId)
    ensures var t := ServerHandles(s, ms, envs);
            Refused(t.handled, t.delivered, id) ==
            Refused(s.handled, s.delivered, id) + ServerRefusedAmong(s, ms, envs, id)
    decreases |ms|
  {
    hide S.Handle, Refused, RefusedOf;
    if ms != [] {
      var env, rest := if envs == [] then S.Env(0, 0) else envs[0], if envs == [] then [] else envs[1..];
      ServerRefuses(s, ms[0], env, id);
      ServerHandlesRefuse(S.Handle(s, ms[0], env), ms[1..], rest, id);
    }
  }

  lemma {:induction false} ClientHandlesRefuse(c: C.Client, ms: seq<Message>, envs: seq<C.Env>, id: ConnId)
    ensures var t := ClientHandles(c, ms, envs);
            Refused(t.handled, t.delivered, id) ==
            Refused(c.handled, c.delivered, id) + ClientRefusedAmong(c, ms, envs, id)
    decreases |ms|
  {
    hide C.Handle, Refused, RefusedOf;
    if ms != [] {
      var env, rest := if envs == [] then C.Env(C.Refused, 0, 0) else envs[0], if envs == [] then [] else envs[1..];
      ClientRefuses(c, ms[0], env, id);
      ClientHandlesRefuse(C.Handle(c, ms[0], env), ms[1..], rest, id);
    }
  }

  lemma SendHistory()
    ensures forall s: S.Server, m: Message, k: nat ::
              S.Send(s, m, k).handled == s.handled && S.Send(s, m, k).delivered == s.delivered
    ensures forall c: C.Client, m: Message, k: nat ::
              C.Send(c, m, k).handled == c.handled && C.Send(c, m, k).delivered == c.delivered
  {
    hide Transmit;
  }

  lemma ServerStepHistory(s: S.Server, step: S.ServerStep)
    requires S.Enabled(s, step)
    ensures S.Step(s, step).handled == s.handled && S.Step(s, step).delivered == s.delivered
  {
    SendHistory();
    hide S.Send, Append;
  }

  lemma ClientStepHistory(c: C.Client, step: C.ClientStep)
    requires C.Enabled(c, step)
    ensures C.Step(c, step).handled == c.handled && C.Step(c, step).delivered == c.delivered
  {
    SendHistory();
    hide C.Send, Append;
  }

  lemma ApplyRefuses(w: World, step: Step, id: ConnId)
    requires w.serverRec.Valid() && w.clientRec.Valid()
    ensures var w', d := Apply(w, step), RefusedIn(w, step, id);
            && Refused(w'.client.handled, w'.client.delivered, id) ==
               Refused(w.client.handled, w.client.delivered, id) + d.0
            && Refused(w'.server.handled, w'.server.delivered, id) ==
               Refused(w.server.handled, w.server.delivered, id) + d.1
  {
    hide Refused, S.Step, C.Step, Collect, ServerHandles, ClientHandles, UpLink, Bytes;
    hide ServerRefusedAmong, ClientRefusedAmong;
    if CanStep(w, step) {
      match step
      case OfServer(s) => ServerStepHistory(w.server, s);
      case OfClient(c) => ClientStepHistory(w.client, c);
      case ServerReceives(n, envs) =>
        var d := Collect(w.serverRec, Bytes(UpLink(w))[w.upRead..w.upRead + n]);
        ServerHandlesRefuse(w.server, d.msgs, envs, id);
      case ClientReceives(n, envs) =>
        var d := Collect(w.clientRec, Bytes(w.server.link)[w.downRead..w.downRead + n]);
        ClientHandlesRefuse(w.client, d.msgs, envs, id);
    }
  }

  /** Over every run, what was handled and not delivered is what the sockets refused, message by message. */
  lemma {:induction false} HandledIsDeliveredOrRefused(steps: seq<Step>, id: ConnId)
    ensures var w, d := Run(steps), RefusedBytes(steps, id);
            && |Payload(w.client.handled, id)| == |At(w.client.delivered, id)| + d.0
            && |Payload(w.server.handled, id)| == |At(w.server.delivered, id)| + d.1
    decreases |steps|
  {
    if steps != [] {
      var init := steps[..|steps| - 1];
      HandledIsDeliveredOrRefused(init, id);
      ApplyRefuses(Run(init), steps[|steps| - 1], id);
      hide Apply, RefusedIn, Payload, At;
    }
  }

  /** Of a connection in the table nothing was refused; and what was delivered are the first bytes handled. */
  lemma RefusedFacts(w: World, id: ConnId)
    requires Inv(w)
    ensures var s, c := w.server, w.client;
            && At(c.delivered, id) <= Payload(c.handled, id) && At(s.delivered, id) <= Payload(s.handled, id)
            && (id in c.table ==> Refused(c.handled, c.delivered, id) == 0)
            && (id in s.table ==> Refused(s.handled, s.delivered, id) == 0)
  {
    assert S.ViewInv(S.ViewOf(w.server, id)) && C.ViewInv(C.ViewOf(w.client, id));
    hide Payload, At, ServerStage, ClientReply, Subseq;
  }

  /**
   Byte conservation from end to end, over any number of tunnels that change at frame boundaries and in
   both directions: every byte read from a connection was delivered, dropped, lost with a tunnel, refused
   by the other side, or is on the way.
   */
  lemma {:induction false} WhereBytesAre(steps: seq<Step>, id: ConnId)
    requires BoundaryRun(steps)
    ensures var s, c, d, r := Run(steps).server, Run(steps).client, Dropped(steps, id), RefusedBytes(steps, id);
            && |OutsideBytes(steps, id)| == |At(c.delivered, id)| + d.0 + |Payload(DownLost(steps), id)| + r.0
                                   + |Payload(DownOnTheWay(Run(steps)), id)|
            && |DestinationBytes(steps, id)| == |At(s.delivered, id)| + d.1 + |Payload(UpLost(steps), id)| + r.1
                                   + |Payload(UpOnTheWay(Run(steps)), id)|
            && (id in c.table ==> r.0 == 0) && (id in s.table ==> r.1 == 0)
  {
    var w := Run(steps);
    RunInv(steps);
    ReadIsSentOrDropped(steps, id);
    HandledIsDeliveredOrRefused(steps, id);
    FramesConserved(steps);
    RefusedFacts(w, id);
    hide Run, Inv, BoundaryRun, Dropped, RefusedBytes, Payload, At, DownLost, UpLost, DownOnTheWay, UpOnTheWay;
    LogSplit(w.server.sent, w.client.handled, DownLost(steps), DownOnTheWay(w), id);
    LogSplit(w.client.sent, w.server.handled, UpLost(steps), UpOnTheWay(w), id);
  }

  /** When everything has been read, nothing is on the way. */
  lemma NothingOnTheWay(w: World)
    requires DownInv(w) && UpInv(w) && Links.Valid(w.server.link) && Links.Valid(w.client.link) && Quiescent(w)
    ensures DownOnTheWay(w) == [] && UpOnTheWay(w) == []
  {
    hide Subseq, Parse, Incomplete, Bytes;
    var s, c := w.server, w.client;
    SyncPrefix(w.clientRec, s.link, w.downRead, c.handled[c.base..]);
    SyncPrefix(w.serverRec, c.link, w.upRead, s.handled[s.base..]);
    hide InSync, Links.Valid, AllFrames;
    assert w.past[..s.session] == w.past;
  }

  /**
   Once everything has been read, a connection that both sides have resumes where it was, in either
   direction, exactly when no byte of it was dropped or lost, over any number of tunnels.
   */
  lemma ResumesExactlyWhen(steps: seq<Step>, id: ConnId)
    requires BoundaryRun(steps) && Quiescent(Run(steps))
    requires id in Run(steps).server.table && id in Run(steps).client.table
    ensures var s, c, d := Run(steps).server, Run(steps).client, Dropped(steps, id);
            && (At(c.delivered, id) == OutsideBytes(steps, id) <==> d.0 == 0 && Payload(DownLost(steps), id) == [])
            && (At(s.delivered, id) == DestinationBytes(steps, id) <==> d.1 == 0 && Payload(UpLost(steps), id) == [])
  {
    WhereBytesAre(steps, id);
    RunInv(steps);
    InvFacts(Run(steps));
    NothingOnTheWay(Run(steps));
    ReconnectionSafety(steps, id);
    assert Payload([], id) == [];
    var s, c := Run(steps).server, Run(steps).client;
    hide *;
    SubseqLength(At(c.delivered, id), OutsideBytes(steps, id));
    SubseqLength(At(s.delivered, id), DestinationBytes(steps, id));
  }
}
