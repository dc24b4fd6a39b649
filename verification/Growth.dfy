/** No branch of either loop takes back what was written to the tunnel, and handling frames only adds to the history. */
module Growth {
  import opened Protocol
  import opened Links
  import opened Parties
  import S = ServerModel
  import C = ClientModel

  /** From (l, log) to (l', log'): bytes were appended to the link, and the log gained the frames the link gained. */
  ghost predicate Extends(l: Link, log: seq<Message>, l': Link, log': seq<Message>) {
    && Bytes(l) <= Bytes(l') && log <= log'
    && |log'| - |l'.frames| == |log| - |l.frames|
  }

  lemma ExtendsTrans(l: Link, log: seq<Message>, l': Link, log': seq<Message>, l'': Link, log'': seq<Message>)
    requires Extends(l, log, l', log') && Extends(l', log', l'', log'')
    ensures Extends(l, log, l'', log'')
  {
    hide Bytes;
  }

  lemma ExtendsRefl(l: Link, log: seq<Message>)
    ensures Extends(l, log, l, log)
  {
  }

  lemma TransmitExtends(l: Link, log: seq<Message>, m: Message, k: nat)
    requires Links.Valid(l)
    ensures var l' := Transmit(l, m, k); Extends(l, log, l', if l'.ok then log + [m] else log)
  {
    TransmitBytes(l, m, k);
    hide Bytes, Encode;
  }

  // ---------- server ----------

  lemma ServerStepExtends(s: S.Server, step: S.ServerStep)
    requires S.Enabled(s, step) && !step.AcceptTunnel? && Links.Valid(s.link)
    ensures var s' := S.Step(s, step);
            && Extends(s.link, s.sent, s'.link, s'.sent)
            && s'.session == s.session && s'.handled == s.handled && s'.base == s.base
  {
    ExtendsRefl(s.link, s.sent);
    hide Extends, Transmit, Encode, Links.Valid, Append;
    match step
    case AcceptOutside(fd, k) => TransmitExtends(s.link, s.sent, OpenMessage(s.nextId), k);
    case OutsideUdp(outcome, k) =>
      if outcome.Received? {
        TransmitExtends(s.link, s.sent, UdpMessage(outcome.data), k);
      }
    case OutsideRead(id, result, k) =>
      if result.Data? {
        TransmitExtends(s.link, s.sent, DataMessage(id, result.bytes), k);
      } else {
        TransmitExtends(s.link, s.sent, CloseMessage(id), k);
      }
    case _ =>
  }

  /** What one or more frames handled leave as it was. */
  ghost predicate ServerHandled(s: S.Server, ms: seq<Message>, s': S.Server) {
    && Extends(s.link, s.sent, s'.link, s'.sent)
    && s'.session == s.session && s'.base == s.base && s'.held == s.held && s'.nextId == s.nextId
    && s'.handled == s.handled + ms
  }

  lemma ServerDataExtends(s: S.Server, id: ConnId, payload: seq<byte>, env: S.Env)
    requires Links.Valid(s.link)
    ensures ServerHandled(s, [], S.OnTunnelData(s, id, payload, env))
  {
    ExtendsRefl(s.link, s.sent);
    TransmitExtends(s.link, s.sent, CloseMessage(id), env.sends);
    assert s.handled + [] == s.handled;
    hide Extends, Transmit, Links.Valid, Append, Cut;
  }

  lemma ServerHandleExtends(s: S.Server, m: Message, env: S.Env)
    requires Links.Valid(s.link)
    ensures ServerHandled(s, [m], S.Handle(s, m, env))
  {
    var s0 := s.(handled := s.handled + [m]);
    ExtendsRefl(s.link, s.sent);
    ServerDataExtends(s0, m.connId, m.payload, env);
    assert s0.handled + [] == s0.handled;
    hide Extends, Links.Valid, S.OnTunnelData;
  }

  // ---------- client ----------

  lemma ClientStepExtends(c: C.Client, step: C.ClientStep)
    requires C.Enabled(c, step) && !step.ConnectTunnel? && Links.Valid(c.link)
    ensures var c' := C.Step(c, step);
            && Extends(c.link, c.sent, c'.link, c'.sent)
            && c'.session == c.session && c'.handled == c.handled && c'.base == c.base
  {
    ExtendsRefl(c.link, c.sent);
    hide Extends, Transmit, Encode, Links.Valid, Append;
    match step
    case DestinationUdp(data, k) => TransmitExtends(c.link, c.sent, UdpMessage(data), k);
    case DestinationRead(id, result, k) =>
      if result.Data? {
        TransmitExtends(c.link, c.sent, DataMessage(id, result.bytes), k);
      } else {
        TransmitExtends(c.link, c.sent, CloseMessage(id), k);
      }
    case _ =>
  }

  ghost predicate ClientHandled(c: C.Client, ms: seq<Message>, c': C.Client) {
    && Extends(c.link, c.sent, c'.link, c'.sent)
    && c'.session == c.session && c'.base == c.base && c'.contLoop == c.contLoop
    && c'.handled == c.handled + ms
  }

  lemma ClientSendExtends(c: C.Client, m: Message, k: nat)
    requires Links.Valid(c.link)
    ensures ClientHandled(c, [], C.Send(c, m, k))
  {
    TransmitExtends(c.link, c.sent, m, k);
    assert c.handled + [] == c.handled;
    hide Extends, Transmit, Links.Valid;
  }

  lemma ClientOpenExtends(c: C.Client, id: ConnId, env: C.Env)
    requires Links.Valid(c.link)
    ensures ClientHandled(c, [], C.OnOpen(c, id, env))
  {
    ExtendsRefl(c.link, c.sent);
    ClientSendExtends(c, CloseMessage(id), env.sends);
    assert c.handled + [] == c.handled;
    hide Extends, C.Send, Links.Valid;
  }

  lemma ClientDataExtends(c: C.Client, id: ConnId, payload: seq<byte>, env: C.Env)
    requires Links.Valid(c.link)
    ensures ClientHandled(c, [], C.OnTunnelData(c, id, payload, env))
  {
    var c1 := c.(delivered := Append(c.delivered, id, Cut(payload, env.accepts)));
    ExtendsRefl(c.link, c.sent);
    ClientSendExtends(c, CloseMessage(id), env.sends);
    ClientSendExtends(C.Remove(c1, id), CloseMessage(id), env.sends);
    assert c.handled + [] == c.handled;
    hide Extends, C.Send, Links.Valid, Append, Cut;
  }

  lemma ClientHandleExtends(c: C.Client, m: Message, env: C.Env)
    requires Links.Valid(c.link)
    ensures ClientHandled(c, [m], C.Handle(c, m, env))
  {
    var c0 := c.(handled := c.handled + [m]);
    ExtendsRefl(c.link, c.sent);
    assert c0.handled + [] == c0.handled;
    match m.mtype
    case TcpOpen =>
      ClientOpenExtends(c0, m.connId, env);
      hide Extends, Links.Valid, C.OnOpen;
    case TcpData =>
      ClientDataExtends(c0, m.connId, m.payload, env);
      hide Extends, Links.Valid, C.OnTunnelData;
    case _ =>
      hide Extends, Links.Valid;
  }
}
