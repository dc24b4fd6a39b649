/** What each branch of the two loops, and each message handled, must do. */
module Effects {
  // Which frame the tunnel is owed, when a connection enters and leaves the table, what reaches a socket, and
  // when a tunnel is given up. The conditions are those of the calls' outcomes and of the state before, not of
  // the state after.

  import opened Protocol
  import opened Links
  import opened Parties
  import S = ServerModel
  import C = ClientModel

  /** No write to the tunnel failed so far, and it takes the whole frame. */
  predicate GoesOut(l: Link, m: Message, k: nat) {
    l.ok && k >= HEADER_SIZE + |m.payload|
  }

  /** From (l, log) to (l', log') exactly the frames owed, none or one, were offered to the tunnel. */
  ghost predicate Offered(l: Link, log: seq<Message>, owed: seq<Message>, k: nat, l': Link, log': seq<Message>) {
    if owed == [] then l' == l && log' == log
    else if GoesOut(l, owed[0], k) then
      l'.ok && l'.frames == l.frames + owed && l'.tail == l.tail && log' == log + owed
    else
      && !l'.ok && l'.frames == l.frames && log' == log
      && l'.tail == if l.ok then Encode(owed[0])[..k] else l.tail
  }

  lemma OneOffered(l: Link, log: seq<Message>, m: Message, k: nat)
    ensures var l' := Transmit(l, m, k); Offered(l, log, [m], k, l', if l'.ok then log + [m] else log)
    ensures Transmit(l, m, k).ok <==> GoesOut(l, m, k)
  {
    hide CreateHeader;
  }

  lemma NoneOffered(l: Link, log: seq<Message>, k: nat)
    ensures Offered(l, log, [], k, l, log)
  {
  }

  /** A send changes the tunnel and the frames sent, and nothing else. */
  lemma ServerSendKeeps(s: S.Server, m: Message, k: nat)
    ensures S.Send(s, m, k) == s.(link := S.Send(s, m, k).link, sent := S.Send(s, m, k).sent)
  {
    hide Transmit;
  }

  lemma ClientSendKeeps(c: C.Client, m: Message, k: nat)
    ensures C.Send(c, m, k) == c.(link := C.Send(c, m, k).link, sent := C.Send(c, m, k).sent)
  {
    hide Transmit;
  }

  // ---------- the server's branches ----------

  /** How much of its frame a branch's send gets accepted. */
  function ServerTakes(step: S.ServerStep): nat {
    if step.AcceptOutside? || step.OutsideUdp? || step.OutsideRead? then step.k else 0
  }

  /** The frame a branch owes the tunnel, if there is one. */
  function ServerOwes(s: S.Server, step: S.ServerStep): seq<Message>
    requires S.Enabled(s, step)
  {
    if !s.held then []
    else
      match step
      case AcceptOutside(_, _) => [OpenMessage(s.nextId)]
      case OutsideUdp(Received(_, data), _) => if data == [] then [] else [UdpMessage(data)]
      case OutsideRead(id, result, _) =>
        if id !in s.table || result.WouldBlock? then []
        else if result.Data? then [DataMessage(id, result.bytes)]
        else [CloseMessage(id)]
      case _ => []
  }

  lemma ServerSends(s: S.Server, step: S.ServerStep)
    requires S.Enabled(s, step) && !step.AcceptTunnel?
    ensures var t := S.Step(s, step);
            Offered(s.link, s.sent, ServerOwes(s, step), ServerTakes(step), t.link, t.sent)
  {
    NoneOffered(s.link, s.sent, ServerTakes(step));
    var owed := ServerOwes(s, step);
    if owed != [] {
      OneOffered(s.link, s.sent, owed[0], ServerTakes(step));
      assert owed == [owed[0]];
    }
    hide Offered, Transmit, Append;
  }

  /** The connection enters the table: there is a tunnel, and it takes the OPEN. */
  predicate ServerEnters(s: S.Server, step: S.ServerStep, id: ConnId) {
    step.AcceptOutside? && s.held && id == s.nextId && GoesOut(s.link, OpenMessage(id), step.k)
  }

  /** It leaves: the outside closed or failed, or the tunnel does not take the data just read. */
  predicate ServerRemoves(s: S.Server, step: S.ServerStep, id: ConnId) {
    step.OutsideRead? && step.id == id &&
    match step.result
    case WouldBlock => false
    case Data(bytes) => s.held && !GoesOut(s.link, DataMessage(id, bytes), step.k)
    case _ => true
  }

  lemma ServerTable(s: S.Server, step: S.ServerStep, id: ConnId)
    requires S.Enabled(s, step) && s.nextId !in s.table
    ensures var t := S.Step(s, step);
            && (id in t.table <==> ServerEnters(s, step, id) || (id in s.table && !ServerRemoves(s, step, id)))
            && (id in t.table ==> t.table[id] == if id in s.table then s.table[id] else step.fd)
  {
    var owed := ServerOwes(s, step);
    if owed != [] {
      OneOffered(s.link, s.sent, owed[0], ServerTakes(step));
    }
    hide Offered, Transmit, Append, GoesOut;
  }

  /** The tunnel is given up: it is closed or fails, or does not take a datagram. */
  predicate ServerGivesUp(s: S.Server, step: S.ServerStep) {
    || step.TunnelLost?
    || (step.OutsideUdp? && step.outcome.Received? && step.outcome.data != []
        && !GoesOut(s.link, UdpMessage(step.outcome.data), step.k))
  }

  lemma ServerHolds(s: S.Server, step: S.ServerStep)
    requires S.Enabled(s, step)
    ensures S.Step(s, step).held <==> step.AcceptTunnel? || (s.held && !ServerGivesUp(s, step))
    ensures S.Step(s, step).session == s.session + if step.AcceptTunnel? then 1 else 0
    ensures step.AcceptTunnel? ==> S.Step(s, step).link == FRESH_LINK && S.Step(s, step).sent == s.sent
  {
    if step.OutsideUdp? && step.outcome.Received? {
      OneOffered(s.link, s.sent, UdpMessage(step.outcome.data), step.k);
    }
    hide Offered, Transmit, Append, GoesOut;
  }

  /**
   An outside connection is accepted exactly when there is a tunnel and it takes the OPEN; then it has the
   next id, and that OPEN is all that was sent. Otherwise the table and the frames sent are as before.
   */
  lemma Admits(s: S.Server, fd: int, k: nat)
    requires S.Inv(s) && S.Enabled(s, S.AcceptOutside(fd, k))
    ensures var t := S.Step(s, S.AcceptOutside(fd, k));
            && (fd in t.table.Values <==> s.held && GoesOut(s.link, OpenMessage(s.nextId), k))
            && (fd in t.table.Values ==>
                  t.table == s.table[s.nextId := fd] && t.sent == s.sent + [OpenMessage(s.nextId)])
            && (fd !in t.table.Values ==> t.table == s.table && t.sent == s.sent)
            && (s.held ==> t.nextId == s.nextId + 1) && (!s.held ==> t == s)
  {
    var step := S.AcceptOutside(fd, k);
    var t := S.Step(s, step);
    assert s.nextId !in s.table by { assert S.ViewInv(S.ViewOf(s, s.nextId)); }
    ServerSends(s, step);
    hide S.Inv;
    assert s.held ==> t.nextId == s.nextId + 1;
    hide Transmit, S.Step;
    if fd in t.table.Values {
      var id :| id in t.table && t.table[id] == fd;
      ServerTable(s, step, id);
    }
    ServerTable(s, step, s.nextId);
    forall id ensures id in t.table <==> (id == s.nextId && ServerEnters(s, step, id)) || id in s.table {
      ServerTable(s, step, id);
    }
    forall id | id in t.table ensures t.table[id] == if id in s.table then s.table[id] else fd {
      ServerTable(s, step, id);
    }
  }

  // ---------- messages handled by the server ----------

  /** The connection's socket does not take all of the data. */
  predicate Refuses(present: bool, m: Message, accepts: nat) {
    m.mtype.TcpData? && present && accepts < |m.payload|
  }

  /** What a message adds to the bytes on the connection's socket. */
  function Passed(present: bool, m: Message, accepts: nat, id: ConnId): seq<byte> {
    if m.mtype.TcpData? && m.connId == id && present then Cut(m.payload, accepts) else []
  }

  lemma ServerDataKeeps(s: S.Server, id: ConnId, payload: seq<byte>, env: S.Env)
    ensures var t := S.OnTunnelData(s, id, payload, env);
            t.held == s.held && t.session == s.session && t.read == s.read && t.handled == s.handled
  {
    hide S.Send, Append, Cut;
    var s1 := s.(delivered := Append(s.delivered, id, Cut(payload, env.accepts)));
    ServerSendKeeps(S.Remove(s1, id), CloseMessage(id), env.sends);
  }

  /** What one message leaves alone, and that it is recorded. */
  lemma ServerKeeps(s: S.Server, m: Message, env: S.Env)
    ensures var t := S.Handle(s, m, env);
            t.held == s.held && t.session == s.session && t.read == s.read && t.handled == s.handled + [m]
  {
    hide S.OnTunnelData;
    ServerDataKeeps(s.(handled := s.handled + [m]), m.connId, m.payload, env);
  }

  /**
   A message handled by the server: data goes to the connection's socket and to no other, a CLOSE ends the
   connection, and a socket that does not take all of its data ends it too, with a CLOSE owed.
   */
  lemma ServerMessage(s: S.Server, m: Message, env: S.Env, id: ConnId)
    ensures var t, present := S.Handle(s, m, env), m.connId in s.table;
            var owed := if Refuses(present, m, env.accepts) then [CloseMessage(m.connId)] else [];
            && Offered(s.link, s.sent, owed, env.sends, t.link, t.sent)
            && (id in t.table <==>
                  id in s.table && !(m.connId == id && (m.mtype.TcpClose? || Refuses(present, m, env.accepts))))
            && (id in t.table ==> t.table[id] == s.table[id])
            && At(t.delivered, id) == At(s.delivered, id) + Passed(present, m, env.accepts, id)
            && t.held == s.held && t.read == s.read && t.handled == s.handled + [m]
  {
    NoneOffered(s.link, s.sent, env.sends);
    OneOffered(s.link, s.sent, CloseMessage(m.connId), env.sends);
    assert At(s.delivered, id) + [] == At(s.delivered, id);
    hide Offered, Transmit, GoesOut, Cut;
  }

  // ---------- the client's branches ----------

  function ClientTakes(step: C.ClientStep): nat {
    if step.DestinationUdp? || step.DestinationRead? then step.k else 0
  }

  function ClientOwes(c: C.Client, step: C.ClientStep): seq<Message> {
    match step
    case DestinationUdp(data, _) => if data == [] then [] else [UdpMessage(data)]
    case DestinationRead(id, result, _) =>
      if id !in c.table || result.WouldBlock? then []
      else if result.Data? then [DataMessage(id, result.bytes)]
      else [CloseMessage(id)]
    case _ => []
  }

  lemma ClientSends(c: C.Client, step: C.ClientStep)
    requires C.Enabled(c, step) && !step.ConnectTunnel?
    ensures var d := C.Step(c, step);
            Offered(c.link, c.sent, ClientOwes(c, step), ClientTakes(step), d.link, d.sent)
  {
    NoneOffered(c.link, c.sent, ClientTakes(step));
    var owed := ClientOwes(c, step);
    if owed != [] {
      OneOffered(c.link, c.sent, owed[0], ClientTakes(step));
      assert owed == [owed[0]];
    }
    hide Offered, Transmit, Append;
  }

  /** No branch enters a connection; one leaves when the destination closed or failed, or the user has quit. */
  predicate ClientRemoves(c: C.Client, step: C.ClientStep, id: ConnId) {
    || (step.LeaveLoop? && c.userQuit)
    || (step.DestinationRead? && step.id == id && (step.result.Eof? || step.result.Failed?))
  }

  lemma ClientTable(c: C.Client, step: C.ClientStep, id: ConnId)
    requires C.Enabled(c, step)
    ensures var d := C.Step(c, step);
            && (id in d.table <==> id in c.table && !ClientRemoves(c, step, id))
            && (id in d.table ==> d.table[id] == c.table[id])
  {
    hide C.Send, Append;
    match step
    case DestinationUdp(data, k) => ClientSendKeeps(c.(udpRead := c.udpRead + [data]), UdpMessage(data), k);
    case DestinationRead(i, result, k) =>
      if result.Data? {
        ClientSendKeeps(c.(read := Append(c.read, i, result.bytes)), DataMessage(i, result.bytes), k);
      } else {
        ClientSendKeeps(c, CloseMessage(i), k);
      }
    case _ =>
  }

  /** Data of a connection in the table, or a non-empty datagram, was read and the tunnel does not take its frame. */
  predicate ClientFails(c: C.Client, step: C.ClientStep) {
    match step
    case DestinationUdp(data, k) => data != [] && !GoesOut(c.link, UdpMessage(data), k)
    case DestinationRead(id, Data(bytes), k) => id in c.table && !GoesOut(c.link, DataMessage(id, bytes), k)
    case _ => false
  }

  /** The client is in its loop from a connect until the tunnel is lost or fails, or the user quits. */
  lemma ClientContinues(c: C.Client, step: C.ClientStep)
    requires C.Enabled(c, step)
    ensures var d := C.Step(c, step);
            && (d.contLoop <==>
                  step.ConnectTunnel? ||
                  (c.contLoop && !step.TunnelLost? && !step.UserQuits? && !ClientFails(c, step)))
            && (d.userQuit <==> c.userQuit || step.UserQuits?)
            && d.session == c.session + (if step.ConnectTunnel? then 1 else 0)
            && (step.ConnectTunnel? ==> d.link == FRESH_LINK && d.sent == c.sent)
  {
    var owed := ClientOwes(c, step);
    if owed != [] {
      OneOffered(c.link, c.sent, owed[0], ClientTakes(step));
    }
    hide Offered, Transmit, Append, GoesOut;
  }

  // ---------- messages handled by the client ----------

  /** An OPEN for an id that is not in the table, and its connect succeeds. */
  predicate ClientEnters(c: C.Client, m: Message, env: C.Env) {
    m.mtype.TcpOpen? && m.connId !in c.table && env.connect.Connected? && env.connect.fd !in c.table.Values
  }

  /** A CLOSE answers an OPEN that leads to no connection, data for an unknown id, and data that is not taken. */
  predicate ClientAnswers(c: C.Client, m: Message, env: C.Env) {
    || (m.mtype.TcpOpen? && m.connId !in c.table && !ClientEnters(c, m, env))
    || (m.mtype.TcpData? && m.connId !in c.table)
    || Refuses(m.connId in c.table, m, env.accepts)
  }

  /** The frame owed, the table and the socket's bytes after a message. */
  ghost predicate ClientDid(c: C.Client, m: Message, env: C.Env, id: ConnId, d: C.Client) {
    var present := m.connId in c.table;
    var owed := if ClientAnswers(c, m, env) then [CloseMessage(m.connId)] else [];
    && Offered(c.link, c.sent, owed, env.sends, d.link, d.sent)
    && (id in d.table <==>
          || (m.connId == id && ClientEnters(c, m, env))
          || (id in c.table && !(m.connId == id && (m.mtype.TcpClose? || Refuses(present, m, env.accepts)))))
    && (id in d.table ==> d.table[id] == if id in c.table then c.table[id] else env.connect.fd)
    && At(d.delivered, id) == At(c.delivered, id) + Passed(present, m, env.accepts, id)
  }

  lemma OpenDone(c: C.Client, m: Message, env: C.Env, id: ConnId)
    requires m.mtype.TcpOpen?
    ensures ClientDid(c, m, env, id, C.OnOpen(c, m.connId, env))
  {
    NoneOffered(c.link, c.sent, env.sends);
    OneOffered(c.link, c.sent, CloseMessage(m.connId), env.sends);
    assert At(c.delivered, id) + [] == At(c.delivered, id);
    hide Offered, Transmit, GoesOut, At;
  }

  lemma DataDone(c: C.Client, m: Message, env: C.Env, id: ConnId)
    requires m.mtype.TcpData?
    ensures ClientDid(c, m, env, id, C.OnTunnelData(c, m.connId, m.payload, env))
  {
    NoneOffered(c.link, c.sent, env.sends);
    OneOffered(c.link, c.sent, CloseMessage(m.connId), env.sends);
    assert At(c.delivered, id) + [] == At(c.delivered, id);
    hide Offered, Transmit, GoesOut, Cut;
  }

  /** Neither reads, nor what is recorded of messages, nor the loop. */
  ghost predicate SameRecord(c: C.Client, d: C.Client) {
    && d.udpSent == c.udpSent && d.udpRead == c.udpRead && d.read == c.read && d.handled == c.handled
    && d.contLoop == c.contLoop && d.userQuit == c.userQuit && d.session == c.session
  }

  lemma OpenKeeps(c: C.Client, id: ConnId, env: C.Env)
    ensures SameRecord(c, C.OnOpen(c, id, env))
  {
    hide C.Send;
    ClientSendKeeps(c, CloseMessage(id), env.sends);
  }

  lemma DataKeeps(c: C.Client, id: ConnId, payload: seq<byte>, env: C.Env)
    ensures SameRecord(c, C.OnTunnelData(c, id, payload, env))
  {
    hide C.Send, Append, Cut;
    ClientSendKeeps(c, CloseMessage(id), env.sends);
    var c1 := c.(delivered := Append(c.delivered, id, Cut(payload, env.accepts)));
    ClientSendKeeps(C.Remove(c1, id), CloseMessage(id), env.sends);
  }

  /** What one message leaves alone, and that it is recorded. */
  lemma ClientKeeps(c: C.Client, m: Message, env: C.Env)
    ensures var d := C.Handle(c, m, env);
            && d.udpSent == c.udpSent + (if m.mtype.UdpPacket? then [m.payload] else [])
            && d.contLoop == c.contLoop && d.userQuit == c.userQuit && d.session == c.session
            && d.read == c.read && d.udpRead == c.udpRead && d.handled == c.handled + [m]
  {
    assert c.udpSent + [] == c.udpSent;
    hide C.OnOpen, C.OnTunnelData;
    var c0 := c.(handled := c.handled + [m]);
    OpenKeeps(c0, m.connId, env);
    DataKeeps(c0, m.connId, m.payload, env);
  }

  /**
   A message handled by the client: an OPEN enters a connection or is answered, data goes to the connection's
   socket and to no other or is answered, a CLOSE ends the connection, and a datagram is passed on.
   */
  lemma ClientMessage(c: C.Client, m: Message, env: C.Env, id: ConnId)
    ensures var d := C.Handle(c, m, env);
            && ClientDid(c, m, env, id, d)
            && d.udpSent == c.udpSent + (if m.mtype.UdpPacket? then [m.payload] else [])
            && d.contLoop == c.contLoop && d.userQuit == c.userQuit && d.session == c.session
            && d.read == c.read && d.udpRead == c.udpRead && d.handled == c.handled + [m]
  {
    var c0 := c.(handled := c.handled + [m]);
    ClientKeeps(c, m, env);
    match m.mtype
    case TcpOpen =>
      OpenDone(c0, m, env, id);
      hide Offered, GoesOut, At, Passed, Refuses, C.OnOpen;
    case TcpData =>
      DataDone(c0, m, env, id);
      hide Offered, GoesOut, At, Passed, Refuses, C.OnTunnelData;
    case _ =>
      NoneOffered(c.link, c.sent, env.sends);
      assert At(c.delivered, id) + [] == At(c.delivered, id);
      hide Offered, GoesOut, At;
  }
}
